/** The three availability computations, and why they agree. */
module Availability {
  import opened Rows
  import opened Engine
  import opened Invariant
  import opened Preservation

  datatype SeatStatus = Free | Locked | Booked

  // ---------------------------------------------------------------- the three computations

  /** Rows counted by the event annotation: joined from the event through its seats. */
  function TakenRows(s: State, e: Id, now: Time): set<Claim>
  {
    set c | c in s.claims && Numbered(s.seats, e, c.seat) && Taken(s.bookings, c, now)
  }

  /** `available_seats` of the annotated event query. */
  function AnnotatedAvailable(s: State, e: Id, now: Time): int
    requires e in s.events
  {
    s.events[e].totalSeats - |TakenRows(s, e, now)|
  }

  /** Seats excluded by the seat query: joined from the bookings of the event. */
  function TakenSeatIds(s: State, e: Id, now: Time): set<Id>
  {
    set c | c in s.claims && Taken(s.bookings, c, now) && s.bookings[c.booking].event == e :: c.seat
  }

  function AvailableSeats(s: State, e: Id, now: Time): set<Id>
  {
    SeatsOf(s.seats, e) - TakenSeatIds(s, e, now)
  }

  /** The status shown for one seat. */
  ghost function StatusOf(s: State, x: Id, now: Time): SeatStatus
  {
    if exists c :: c in s.claims && c.seat == x && Taken(s.bookings, c, now) && s.bookings[c.booking].status.Confirmed? then Booked
    else if exists c :: c in s.claims && c.seat == x && Taken(s.bookings, c, now) then Locked
    else Free
  }

  ghost predicate ShowsStatus(s: State, e: Id, now: Time, n: int, status: SeatStatus)
  {
    exists x :: Numbered(s.seats, e, x) && s.seats[x].spec.number == n && StatusOf(s, x, now) == status
  }

  /** The seat map of an event, keyed by seat number. */
  ghost predicate IsStatusMap(s: State, e: Id, now: Time, m: map<int, SeatStatus>)
  {
    && (forall n :: n in m <==> NumberPresent(s.seats, e, n))
    && (forall n :: n in m ==> ShowsStatus(s, e, now, n, m[n]))
  }

  // ---------------------------------------------------------------- counting

  lemma {:induction false} InjectiveSize<A, B>(m: map<A, B>)
    requires forall x, y :: x in m && y in m && m[x] == m[y] ==> x == y
    ensures |m.Keys| == |m.Values|
    decreases |m.Keys|
  {
    if m.Keys != {} {
      var x :| x in m;
      var rest := m - {x};
      assert m.Keys == rest.Keys + {x};
      assert m[x] !in rest.Values;
      forall y ensures y in m.Values <==> y in rest.Values + {m[x]} {
        if y in m.Values {
          var k :| k in m && m[k] == y;
          assert k != x ==> k in rest;
        }
      }
      assert m.Values == rest.Values + {m[x]};
      InjectiveSize(rest);
    } else {
      assert m.Values == {};
    }
  }

  function Range(total: nat): (r: set<int>)
    ensures forall n :: n in r <==> 1 <= n <= total
    ensures |r| == total
  {
    if total == 0 then {} else Range(total - 1) + {total}
  }

  function NumberMap(seats: map<Id, Seat>, ids: set<Id>): map<Id, int>
  {
    map x | x in ids && x in seats :: seats[x].spec.number
  }

  lemma NumbersInjective(seats: map<Id, Seat>, e: Id, total: int, ids: set<Id>)
    requires ExactNumbers(seats, e, total) && forall x :: x in ids ==> Numbered(seats, e, x)
    ensures var m := NumberMap(seats, ids);
            m.Keys == ids && forall x, y :: x in m && y in m && m[x] == m[y] ==> x == y
  {
    var m := NumberMap(seats, ids);
    forall x, y | x in m && y in m && m[x] == m[y] ensures x == y {
      assert Numbered(seats, e, x) && Numbered(seats, e, y);
    }
  }

  /** An event whose numbers are exact has as many seat rows as it says. */
  lemma SeatCount(seats: map<Id, Seat>, e: Id, total: int)
    requires ExactNumbers(seats, e, total) && total >= 0
    ensures |SeatsOf(seats, e)| == total
  {
    var ids := SeatsOf(seats, e);
    assert forall x :: x in ids <==> Numbered(seats, e, x);
    var m := NumberMap(seats, ids);
    NumbersInjective(seats, e, total, ids);
    InjectiveSize(m);
    forall n ensures n in m.Values <==> n in Range(total) {
      if 1 <= n <= total {
        assert NumberPresent(seats, e, n);
        var x :| Numbered(seats, e, x) && seats[x].spec.number == n;
        assert m[x] == n;
      }
    }
    assert m.Values == Range(total);
  }

  // ---------------------------------------------------------------- agreement

  ghost predicate TakenRow(s: State, c: Claim, now: Time)
  {
    c in s.claims && Taken(s.bookings, c, now)
  }

  /** What the agreement rests on: at most one taken row a seat, and rows inside their event. */
  ghost predicate Countable(s: State, e: Id, now: Time)
  {
    && ClaimsRefer(s) && e in s.events
    && s.events[e].totalSeats > 0 && ExactNumbers(s.seats, e, s.events[e].totalSeats)
    && (forall c, d :: TakenRow(s, c, now) && TakenRow(s, d, now) && c.seat == d.seat ==> c == d)
  }

  lemma InvCountable(s: State, e: Id, now: Time)
    requires Inv(s) && e in s.events
    ensures Countable(s, e, now)
  {
    forall c, d | TakenRow(s, c, now) && TakenRow(s, d, now) && c.seat == d.seat
      ensures c == d
    {
      assert Active(s.claims, c) && Active(s.claims, d);
    }
  }

  lemma TakenRowsAreTakenSeats(s: State, e: Id, now: Time)
    requires Countable(s, e, now)
    ensures |TakenRows(s, e, now)| == |TakenSeatIds(s, e, now)|
    ensures TakenSeatIds(s, e, now) <= SeatsOf(s.seats, e)
  {
    var m := map c | c in TakenRows(s, e, now) :: c.seat;
    assert m.Keys == TakenRows(s, e, now);
    assert forall c :: c in m ==> TakenRow(s, c, now);
    InjectiveSize(m);
    forall x ensures x in m.Values <==> x in TakenSeatIds(s, e, now) {
      if x in TakenSeatIds(s, e, now) {
        var c :| c in s.claims && Taken(s.bookings, c, now) && s.bookings[c.booking].event == e && c.seat == x;
        assert c in m;
      }
    }
    assert m.Values == TakenSeatIds(s, e, now);
  }

  lemma FreeExactlyAvailable(s: State, e: Id, now: Time, x: Id)
    requires Countable(s, e, now) && Numbered(s.seats, e, x)
    ensures StatusOf(s, x, now) == Free <==> x in AvailableSeats(s, e, now)
  {
    if x !in AvailableSeats(s, e, now) {
      var c :| c in s.claims && Taken(s.bookings, c, now) && s.bookings[c.booking].event == e && c.seat == x;
    }
  }

  /** A number shows as free exactly when its one seat is among the available ones. */
  lemma ShownFreeExactly(s: State, e: Id, now: Time, m: map<int, SeatStatus>, x: Id)
    requires Countable(s, e, now) && IsStatusMap(s, e, now, m) && Numbered(s.seats, e, x)
    ensures var n := s.seats[x].spec.number;
            n in m && (m[n] == Free <==> x in AvailableSeats(s, e, now))
  {
    var n := s.seats[x].spec.number;
    assert NumberPresent(s.seats, e, n);
    assert ShowsStatus(s, e, now, n, m[n]);
    var y :| Numbered(s.seats, e, y) && s.seats[y].spec.number == n && StatusOf(s, y, now) == m[n];
    assert x == y;
    FreeExactlyAvailable(s, e, now, x);
  }

  function FreeNumbers(m: map<int, SeatStatus>): set<int>
  {
    set n | n in m && m[n] == Free
  }

  /** Two sets matched element by element through an injective numbering have the same size. */
  lemma MatchedCount(seats: map<Id, Seat>, ids: set<Id>, numbers: set<int>)
    requires forall x :: x in ids ==> x in seats && seats[x].spec.number in numbers
    requires forall n :: n in numbers ==> exists x :: x in ids && x in seats && seats[x].spec.number == n
    requires forall x, y :: x in ids && y in ids && x in seats && y in seats && seats[x].spec.number == seats[y].spec.number ==> x == y
    ensures |ids| == |numbers|
  {
    var m := NumberMap(seats, ids);
    assert m.Keys == ids;
    InjectiveSize(m);
    forall n | n in numbers ensures n in m.Values {
      var x :| x in ids && x in seats && seats[x].spec.number == n;
      assert m[x] == n;
    }
    assert m.Values == numbers;
  }

  lemma FreeNumberHasSeat(s: State, e: Id, now: Time, m: map<int, SeatStatus>, n: int)
    requires Countable(s, e, now) && IsStatusMap(s, e, now, m) && n in FreeNumbers(m)
    ensures exists x :: x in AvailableSeats(s, e, now) && x in s.seats && s.seats[x].spec.number == n
  {
    assert NumberPresent(s.seats, e, n);
    var x :| Numbered(s.seats, e, x) && s.seats[x].spec.number == n;
    ShownFreeExactly(s, e, now, m, x);
  }

  lemma AvailableShowsFree(s: State, e: Id, now: Time, m: map<int, SeatStatus>, x: Id)
    requires Countable(s, e, now) && IsStatusMap(s, e, now, m) && x in AvailableSeats(s, e, now)
    ensures Numbered(s.seats, e, x) && s.seats[x].spec.number in FreeNumbers(m)
  {
    ShownFreeExactly(s, e, now, m, x);
  }

  lemma FreeNumbersCount(s: State, e: Id, now: Time, m: map<int, SeatStatus>)
    requires Countable(s, e, now) && IsStatusMap(s, e, now, m)
    ensures |FreeNumbers(m)| == |AvailableSeats(s, e, now)|
  {
    var free := AvailableSeats(s, e, now);
    forall x | x in free ensures Numbered(s.seats, e, x) && s.seats[x].spec.number in FreeNumbers(m) {
      AvailableShowsFree(s, e, now, m, x);
    }
    forall n | n in FreeNumbers(m) ensures exists x :: x in free && x in s.seats && s.seats[x].spec.number == n {
      FreeNumberHasSeat(s, e, now, m, n);
    }
    NumbersInjective(s.seats, e, s.events[e].totalSeats, free);
    forall x, y | x in free && y in free && x in s.seats && y in s.seats && s.seats[x].spec.number == s.seats[y].spec.number
      ensures x == y
    {
      assert NumberMap(s.seats, free)[x] == NumberMap(s.seats, free)[y];
    }
    MatchedCount(s.seats, free, FreeNumbers(m));
  }

  /**
    At any instant in any state of any run, the annotated count, the seat query and the
    seat map agree on how many seats are available, and none of them goes negative.
   */
  lemma AvailabilityAgrees(states: seq<State>, labels: seq<Label>, i: nat, e: Id, now: Time, m: map<int, SeatStatus>)
    requires IsRun(states, labels) && i < |states| && e in states[i].events
    requires IsStatusMap(states[i], e, now, m)
    ensures AnnotatedAvailable(states[i], e, now) == |AvailableSeats(states[i], e, now)|
    ensures |AvailableSeats(states[i], e, now)| == |FreeNumbers(m)|
    ensures 0 <= AnnotatedAvailable(states[i], e, now) <= states[i].events[e].totalSeats
  {
    RunKeepsInv(states, labels, i);
    InvCountable(states[i], e, now);
    CountsAgree(states[i], e, now);
    FreeNumbersCount(states[i], e, now, m);
  }

  lemma CountsAgree(s: State, e: Id, now: Time)
    requires Countable(s, e, now)
    ensures AnnotatedAvailable(s, e, now) == |AvailableSeats(s, e, now)|
  {
    SeatCount(s.seats, e, s.events[e].totalSeats);
    TakenRowsAreTakenSeats(s, e, now);
    var all, taken := SeatsOf(s.seats, e), TakenSeatIds(s, e, now);
    assert all == AvailableSeats(s, e, now) + taken;
  }

  /** As time passes over unchanged rows holds only lapse: availability never shrinks. */
  lemma AvailabilityGrows(s: State, e: Id, earlier: Time, later: Time)
    requires e in s.events && earlier <= later
    ensures AnnotatedAvailable(s, e, earlier) <= AnnotatedAvailable(s, e, later)
  {
    assert TakenRows(s, e, later) <= TakenRows(s, e, earlier);
    SubsetSize(TakenRows(s, e, later), TakenRows(s, e, earlier));
  }
}
