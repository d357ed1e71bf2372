/** What a booking request is answered, said in rows alone. */
module Replies {
  import opened Wrappers
  import opened Rows
  import opened Engine
  import opened Invariant
  import opened Preservation
  import opened Safety

  // ---------------------------------------------------------------- the request and the rows

  predicate Distinctly(ids: seq<Id>)
  {
    forall i, j :: 0 <= i < j < |ids| ==> ids[i] != ids[j]
  }

  predicate AllExist(seats: map<Id, Seat>, ids: seq<Id>)
  {
    forall i :: 0 <= i < |ids| ==> ids[i] in seats
  }

  predicate AllIn(seats: map<Id, Seat>, ids: seq<Id>, event: Id)
  {
    forall i :: 0 <= i < |ids| && ids[i] in seats ==> seats[ids[i]].event == event
  }

  /** Distinct existing seats of the event, at least one. */
  predicate ValidSeats(s: State, q: CreateRequest)
  {
    q.seatIds != [] && Distinctly(q.seatIds) && AllExist(s.seats, q.seatIds) && AllIn(s.seats, q.seatIds, q.event)
  }

  /** The request carries a usable key, and `b` was made with it by the same user. */
  predicate SameRequest(s: State, q: CreateRequest, b: Id)
  {
    q.key.Some? && q.key.value != "" && Keyed(s.bookings, b, q.user, q.key.value)
  }

  /** Somebody has the seat: an active row of a confirmed booking, or of a pending or failed one before its deadline. */
  ghost predicate SeatHeld(s: State, x: Id, now: Time)
  {
    exists c :: c in s.claims && s.claims[c] && c.seat == x && c.booking in s.bookings &&
      var bk := s.bookings[c.booking];
      bk.status.Confirmed? || ((bk.status.Pending? || bk.status.Failed?) && bk.expiresAt > now)
  }

  // ---------------------------------------------------------------- counting the locked rows

  lemma {:induction false} DistinctCount(ids: seq<Id>)
    ensures |Distinct(ids)| <= |ids|
    ensures |Distinct(ids)| == |ids| <==> Distinctly(ids)
  {
    if ids == [] {
      assert Distinct(ids) == {};
    } else {
      var front, last := ids[..|ids| - 1], ids[|ids| - 1];
      DistinctCount(front);
      assert ids == front + [last];
      assert Distinct(ids) == Distinct(front) + {last};
      DistinctlySnoc(front, last);
    }
  }

  lemma DistinctlySnoc(front: seq<Id>, last: Id)
    ensures Distinctly(front + [last]) <==> Distinctly(front) && last !in front
  {
    var ids := front + [last];
    assert forall i :: 0 <= i < |front| ==> ids[i] == front[i];
    assert ids[|front|] == last;
  }

  /** One locked row per requested id means exactly: all ids exist and none is repeated. */
  lemma RowCount(s: State, q: CreateRequest)
    ensures |LockedRows(s, q)| == |q.seatIds| <==> Distinctly(q.seatIds) && AllExist(s.seats, q.seatIds)
    ensures AllExist(s.seats, q.seatIds) ==> LockedRows(s, q) == Distinct(q.seatIds)
  {
    DistinctCount(q.seatIds);
    var rows, ids := LockedRows(s, q), Distinct(q.seatIds);
    if AllExist(s.seats, q.seatIds) {
      assert rows == ids;
    } else {
      var i :| 0 <= i < |q.seatIds| && q.seatIds[i] !in s.seats;
      assert q.seatIds[i] in ids;
      assert rows <= ids - {q.seatIds[i]};
      SubsetSize(rows, ids - {q.seatIds[i]});
    }
  }

  lemma SomeForeign(s: State, q: CreateRequest)
    ensures (exists x :: x in LockedRows(s, q) && s.seats[x].event != q.event) <==> !AllIn(s.seats, q.seatIds, q.event)
  {
    if !AllIn(s.seats, q.seatIds, q.event) {
      var i :| 0 <= i < |q.seatIds| && q.seatIds[i] in s.seats && s.seats[q.seatIds[i]].event != q.event;
      assert q.seatIds[i] in LockedRows(s, q);
    }
  }

  lemma HeldSeats(s: State, ids: set<Id>, now: Time, x: Id)
    requires InStep(s.bookings, s.claims)
    ensures x in UnavailableSeats(s.bookings, s.claims, ids, now) <==> x in ids && SeatHeld(s, x, now)
  {
    if x in UnavailableSeats(s.bookings, s.claims, ids, now) {
      var c :| c in s.claims && c.seat in ids && Taken(s.bookings, c, now) && c.seat == x;
      assert s.claims[c];
    }
    if x in ids && SeatHeld(s, x, now) {
      var c :| c in s.claims && s.claims[c] && c.seat == x && c.booking in s.bookings &&
        (s.bookings[c.booking].status.Confirmed? ||
         ((s.bookings[c.booking].status.Pending? || s.bookings[c.booking].status.Failed?) && s.bookings[c.booking].expiresAt > now));
      assert Taken(s.bookings, c, now);
    }
  }

  ghost predicate SomeSame(s: State, q: CreateRequest) { exists b :: SameRequest(s, q, b) }

  ghost predicate SomeHeld(s: State, q: CreateRequest, now: Time)
  {
    exists x :: x in q.seatIds && SeatHeld(s, x, now)
  }

  lemma SameFound(s: State, q: CreateRequest)
    ensures SomeSame(s, q) <==> Truthy(q.key) && ExistingBooking(s.bookings, q.user, q.key.value).Some?
  {
    if Truthy(q.key) && ExistingBooking(s.bookings, q.user, q.key.value).Some? {
      assert SameRequest(s, q, ExistingBooking(s.bookings, q.user, q.key.value).value);
    }
  }

  // ---------------------------------------------------------------- the first half of a creation

  lemma InvalidReplies(s: State, t: Id, q: CreateRequest, now: Time)
    ensures var reply := BeginCreate(s, t, q, now).1;
            && (reply.NoSeats? <==> q.seatIds == [])
            && (reply.UnknownSeats? <==> q.seatIds != [] && !(Distinctly(q.seatIds) && AllExist(s.seats, q.seatIds)))
            && !reply.DuplicateSeats?
            && (reply.WrongEvent? <==>
                  q.seatIds != [] && Distinctly(q.seatIds) && AllExist(s.seats, q.seatIds) && !AllIn(s.seats, q.seatIds, q.event))
  {
    RowCount(s, q);
    SomeForeign(s, q);
    DistinctCount(q.seatIds);
  }

  lemma ExistingReply(s: State, t: Id, q: CreateRequest, now: Time, b: Id)
    requires UniqueKeys(s.bookings)
    ensures BeginCreate(s, t, q, now).1 == Existing(b) <==> ValidSeats(s, q) && SameRequest(s, q, b)
  {
    RowCount(s, q);
    SomeForeign(s, q);
    DistinctCount(q.seatIds);
  }

  lemma TakenReply(s: State, t: Id, q: CreateRequest, now: Time)
    requires InStep(s.bookings, s.claims)
    ensures var reply := BeginCreate(s, t, q, now).1;
            && (reply.SeatsTaken? <==> ValidSeats(s, q) && !SomeSame(s, q) && SomeHeld(s, q, now))
            && (reply.Reading? <==> ValidSeats(s, q) && !SomeSame(s, q) && !SomeHeld(s, q, now))
  {
    RowCount(s, q);
    SomeForeign(s, q);
    DistinctCount(q.seatIds);
    SameFound(s, q);
    var rows := LockedRows(s, q);
    forall x ensures x in UnavailableSeats(s.bookings, s.claims, rows, now) <==> x in rows && SeatHeld(s, x, now) {
      HeldSeats(s, rows, now, x);
    }
    if ValidSeats(s, q) {
      assert forall x :: x in rows <==> x in q.seatIds;
      NoneTaken(s, q, rows, now);
    }
  }

  lemma NoneTaken(s: State, q: CreateRequest, rows: set<Id>, now: Time)
    requires forall x :: x in rows <==> x in q.seatIds
    requires forall x :: x in UnavailableSeats(s.bookings, s.claims, rows, now) <==> x in rows && SeatHeld(s, x, now)
    ensures UnavailableSeats(s.bookings, s.claims, rows, now) == {} <==> !SomeHeld(s, q, now)
  {
    if SomeHeld(s, q, now) {
      var x :| x in q.seatIds && SeatHeld(s, x, now);
      assert x in UnavailableSeats(s.bookings, s.claims, rows, now);
    }
    if UnavailableSeats(s.bookings, s.claims, rows, now) != {} {
      var x :| x in UnavailableSeats(s.bookings, s.claims, rows, now);
      assert x in q.seatIds && SeatHeld(s, x, now);
    }
  }

  lemma TakenSeatsReply(s: State, t: Id, q: CreateRequest, now: Time, x: Id)
    requires InStep(s.bookings, s.claims) && BeginCreate(s, t, q, now).1.SeatsTaken?
    ensures x in BeginCreate(s, t, q, now).1.seats <==> x in q.seatIds && SeatHeld(s, x, now)
  {
    RowCount(s, q);
    HeldSeats(s, LockedRows(s, q), now, x);
    assert x in LockedRows(s, q) <==> x in q.seatIds && x in s.seats;
  }

  lemma BeginEffect(s: State, t: Id, q: CreateRequest, now: Time)
    ensures var (s', reply) := BeginCreate(s, t, q, now);
            s' == if reply.Reading? then s.(creates := s.creates[t := CreateTxn(q, Distinct(q.seatIds), Holding(now))]) else s
  {
    RowCount(s, q);
  }

  lemma RunClaims(states: seq<State>, labels: seq<Label>, i: nat)
    requires IsRun(states, labels) && i < |states|
    ensures ClaimsRefer(states[i]) && InStep(states[i].bookings, states[i].claims)
    ensures OneActive(states[i].claims) && UniqueKeys(states[i].bookings)
  {
    RunKeepsInv(states, labels, i);
  }

  /**
    Which reply comes when, for every request in every state of every run. An existing
    booking of the same user and key is found before availability is looked at; a seat is
    taken by a confirmed booking, or by a pending or failed one before its deadline; and
    only a request answered with neither goes on, holding exactly the requested seats.
   */
  lemma RequestAnswered(states: seq<State>, labels: seq<Label>, i: nat, t: Id, q: CreateRequest)
    requires IsRun(states, labels) && i < |labels| && StepAt(states, labels, i) && labels[i].action == OpenCreate(t, q)
    ensures var s, now, reply := states[i], labels[i].now, BeginCreate(states[i], t, q, labels[i].now).1;
            && (reply.NoSeats? <==> q.seatIds == [])
            && (reply.UnknownSeats? <==> q.seatIds != [] && !(Distinctly(q.seatIds) && AllExist(s.seats, q.seatIds)))
            && (reply.WrongEvent? <==>
                  q.seatIds != [] && Distinctly(q.seatIds) && AllExist(s.seats, q.seatIds) && !AllIn(s.seats, q.seatIds, q.event))
            && (forall b :: reply == Existing(b) <==> ValidSeats(s, q) && SameRequest(s, q, b))
            && (reply.SeatsTaken? <==> ValidSeats(s, q) && !SomeSame(s, q) && SomeHeld(s, q, now))
            && (reply.SeatsTaken? ==> forall x :: x in reply.seats <==> x in q.seatIds && SeatHeld(s, x, now))
            && (reply.Reading? <==> ValidSeats(s, q) && !SomeSame(s, q) && !SomeHeld(s, q, now))
            && states[i + 1] == s.(clock := now, creates :=
                 if reply.Reading? then s.creates[t := CreateTxn(q, Distinct(q.seatIds), Holding(now))] else s.creates)
  {
    var s, now, reply := states[i], labels[i].now, BeginCreate(states[i], t, q, labels[i].now).1;
    RunClaims(states, labels, i);
    InvalidReplies(s, t, q, now);
    TakenReply(s, t, q, now);
    BeginEffect(s, t, q, now);
    forall b ensures reply == Existing(b) <==> ValidSeats(s, q) && SameRequest(s, q, b) { ExistingReply(s, t, q, now, b); }
    if reply.SeatsTaken? {
      forall x ensures x in reply.seats <==> x in q.seatIds && SeatHeld(s, x, now) { TakenSeatsReply(s, t, q, now, x); }
    }
  }

  // ---------------------------------------------------------------- the second half

  ghost predicate SeatActive(s: State, seats: set<Id>)
  {
    exists c :: c in s.claims && s.claims[c] && c.seat in seats
  }

  /** The commit adds the booking and its rows, or adds nothing. */
  ghost predicate BookingAdded(s: State, s': State, q: CreateRequest, seats: set<Id>, b: Id, now: Time)
  {
    && b !in s.bookings && q.key.Some?
    && s'.bookings == s.bookings[b := Booking(q.user, q.event, Pending, q.price * |seats|, q.key.value, now + 900_000_000, 0)]
    && s'.payments == s.payments
    && (forall c :: c in s'.claims <==> c in s.claims || (c.booking == b && c.seat in seats))
    && (forall c :: c in s.claims ==> c.booking != b && s'.claims[c] == s.claims[c])
    && (forall c :: c in s'.claims && c.booking == b ==> s'.claims[c])
  }

  lemma CommitAdds(s: State, t: Id, now: Time)
    requires ClaimsRefer(s) && BookingsOk(s) && HoldsLock(s.creates, t) && InsertAllowed(s, s.creates[t])
    ensures var (s', reply) := FinishCreate(s, t, now);
            reply == Created(s.nextBooking) && BookingAdded(s, s', s.creates[t].request, s.creates[t].seats, s.nextBooking, now)
  {
    NewBookingIsUnclaimed(s);
    var (s', reply) := FinishCreate(s, t, now);
    forall c ensures c in s'.claims <==> c in s.claims || (c.booking == s.nextBooking && c.seat in s.creates[t].seats)
      ensures c in s.claims ==> s'.claims[c] == s.claims[c]
      ensures c.booking == s.nextBooking && c.seat in s.creates[t].seats ==> s'.claims[c]
    {
      InsertedClaims(s.claims, s.nextBooking, s.creates[t].seats, c);
    }
  }

  lemma AllowedIff(s: State, txn: CreateTxn)
    ensures InsertAllowed(s, txn) <==>
              && txn.request.key.Some?
              && (forall b :: !Keyed(s.bookings, b, txn.request.user, txn.request.key.value))
              && !SeatActive(s, txn.seats)
  {
  }

  lemma RunRows(states: seq<State>, labels: seq<Label>, i: nat)
    requires IsRun(states, labels) && i < |states|
    ensures ClaimsRefer(states[i]) && BookingsOk(states[i])
  {
    RunKeepsInv(states, labels, i);
  }

  /**
    Which reply a commit gives, and what it leaves behind: the booking with its rows if the
    key is there and new and no requested seat has an active row, and otherwise nothing but
    the error, which is caught for a usable key.
   */
  lemma CommitAnswered(states: seq<State>, labels: seq<Label>, i: nat, t: Id)
    requires IsRun(states, labels) && i < |labels| && StepAt(states, labels, i) && labels[i].action == CommitCreate(t)
    ensures var s, s', q, seats, reply := states[i], states[i + 1], states[i].creates[t].request, states[i].creates[t].seats,
                                          FinishCreate(states[i], t, labels[i].now).1;
            && (reply.Created? <==> q.key.Some? && (forall b :: !Keyed(s.bookings, b, q.user, q.key.value)) && !SeatActive(s, seats))
            && (reply.Created? ==> BookingAdded(s, s', q, seats, reply.booking, labels[i].now))
            && (reply.IntegrityError? <==> !reply.Created? && q.key.Some? && q.key.value != "")
            && (reply.Raised? <==> !reply.Created? && !reply.IntegrityError?)
            && (!reply.Created? ==> s'.bookings == s.bookings && s'.claims == s.claims && s'.payments == s.payments)
  {
    RunRows(states, labels, i);
    AllowedIff(states[i], states[i].creates[t]);
    if InsertAllowed(states[i], states[i].creates[t]) {
      CommitAdds(states[i], t, labels[i].now);
    } else {
      CommitCreateRefused(states[i], t, labels[i].now, states[i + 1]);
      RefusedReply(states[i], t, labels[i].now);
    }
  }

  lemma RefusedReply(s: State, t: Id, now: Time)
    requires t in s.creates && !InsertAllowed(s, s.creates[t])
    ensures var q, reply := s.creates[t].request, FinishCreate(s, t, now).1;
            !reply.Created? && (reply.IntegrityError? <==> q.key.Some? && q.key.value != "") && (reply.Raised? <==> !reply.IntegrityError?)
  {
  }

  // ---------------------------------------------------------------- a key that is taken

  lemma KeyedStays(states: seq<State>, labels: seq<Label>, i: nat, j: nat, b: Id, user: Id, key: string)
    requires IsRun(states, labels) && i <= j < |states| && Keyed(states[i].bookings, b, user, key)
    ensures Keyed(states[j].bookings, b, user, key)
  {
    RunBookingEvolves(states, labels, i, j, b);
  }

  lemma FoundByKey(bookings: map<Id, Booking>, b: Id, user: Id, key: string)
    requires UniqueKeys(bookings) && Keyed(bookings, b, user, key)
    ensures ExistingBooking(bookings, user, key) == Some(b)
  {
  }

  /**
    Once a booking carries a user's key, every later request of the user with that key is
    answered with it: by the unlocked lookup, by the locked one for any valid seats, free or
    taken, and, for a request already under way, by the error handler.
   */
  lemma RepeatedRequestFindsBooking(states: seq<State>, labels: seq<Label>, i: nat, j: nat, b: Id, user: Id, key: string)
    requires IsRun(states, labels) && i <= j < |labels| && StepAt(states, labels, j)
    requires Keyed(states[i].bookings, b, user, key) && key != ""
    ensures var s, a, now := states[j], labels[j].action, labels[j].now;
            && ExistingBooking(s.bookings, user, key) == Some(b)
            && (a.OpenCreate? && a.request.user == user && a.request.key == Some(key) && ValidSeats(s, a.request) ==>
                  BeginCreate(s, a.txn, a.request, now).1 == Existing(b))
            && (a.CommitCreate? && s.creates[a.txn].request.user == user && s.creates[a.txn].request.key == Some(key) ==>
                  FinishCreate(s, a.txn, now).1 == IntegrityError)
            && (a.LookupCreate? && s.creates[a.txn].request.user == user && s.creates[a.txn].request.key == Some(key) ==>
                  LookupExisting(s, a.txn).1 == Existing(b))
  {
    KeyedStays(states, labels, i, j, b, user, key);
    RunClaims(states, labels, j);
    var s, a, now := states[j], labels[j].action, labels[j].now;
    FoundByKey(s.bookings, b, user, key);
    if a.OpenCreate? && a.request.user == user && a.request.key == Some(key) {
      ExistingReply(s, a.txn, a.request, now, b);
    } else if a.CommitCreate? && s.creates[a.txn].request.user == user && s.creates[a.txn].request.key == Some(key) {
      AllowedIff(s, s.creates[a.txn]);
      RefusedReply(s, a.txn, now);
    }
  }
}
