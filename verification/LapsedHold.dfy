/**
  A concrete run against the promise that a seat shown as available is never refused when
  it is booked: a hold that has run out unswept is invisible to the availability query,
  but its claim is still active and blocks the insert.
 */
module LapsedHold {
  import opened Wrappers
  import opened SeatLayout
  import opened Rows
  import opened Engine

  const FIRST := CreateRequest(0, 0, 100, [0], Some("a"))
  const SECOND := CreateRequest(1, 0, 100, [0], Some("b"))
  const OPENING := Update(100, 1, false, None, 0)
  const LATER: Time := 3 + HOLD_PERIOD

  const S0 := EmptyState(0)
  const S1 := S0.(events := map[0 := Event(100, 1, None, false, 0)],
                  seats := map[0 := Seat(0, PlainSpec(1))], nextSeat := 1, clock := 1)
  const S2 := S1.(creates := map[0 := CreateTxn(FIRST, {0}, Holding(2))], clock := 2)
  const S3 := S2.(bookings := map[0 := Booking(0, 0, Pending, 100, "a", LATER, 0)], nextBooking := 1,
                  claims := map[Claim(0, 0) := true], creates := map[], clock := 3)
  const S4 := S3.(creates := map[1 := CreateTxn(SECOND, {0}, Holding(LATER))], clock := LATER)

  const L0 := Label(InsertEvent(0, OPENING), 1)
  const L1 := Label(OpenCreate(0, FIRST), 2)
  const L2 := Label(CommitCreate(0), 3)
  const L3 := Label(OpenCreate(1, SECOND), LATER)

  ghost predicate Leads(s: State, l: Label, s': State)
  {
    Enabled(s, l.action, l.now) && s' == Apply(s, l.action, l.now)
  }

  /** A run goes on with any step its last state leads to. */
  lemma Continues(states: seq<State>, labels: seq<Label>, l: Label, s: State)
    requires IsRun(states, labels) && Leads(states[|labels|], l, s)
    ensures IsRun(states + [s], labels + [l])
  {
    var states', labels' := states + [s], labels + [l];
    forall i: nat | i < |labels'| ensures StepAt(states', labels', i) {
      if i < |labels| {
        assert StepAt(states, labels, i);
        assert states'[i] == states[i] && states'[i + 1] == states[i + 1] && labels'[i] == labels[i];
      } else {
        assert states'[i] == states[|labels|] && states'[i + 1] == s;
      }
    }
  }

  lemma Starts(s: State)
    requires s == EmptyState(s.clock)
    ensures IsRun([s], [])
  {
  }

  lemma EventOpens()
    ensures Leads(S0, L0, S1)
  {
    assert PlainSpecs(1, 1) == [PlainSpec(1)];
    assert S0.seats + AddedSeats(0, 0, [PlainSpec(1)]) == S1.seats;
  }

  lemma ReadsCleanly(s: State, t: Id, q: CreateRequest, now: Time)
    requires s == S1 || s == S3
    requires q == FIRST || q == SECOND
    requires s == S3 ==> now == LATER && q == SECOND
    ensures BeginCreate(s, t, q, now) == (s.(creates := s.creates[t := CreateTxn(q, {0}, Holding(now))]), Reading)
  {
    assert LockedRows(s, q) == {0} && Distinct(q.seatIds) == {0};
    assert UnavailableSeats(s.bookings, s.claims, {0}, now) == {};
    assert Truthy(q.key) ==> ExistingBooking(s.bookings, q.user, q.key.value).None?;
  }

  lemma FirstReads()
    ensures Leads(S1, L1, S2)
  {
    ReadsCleanly(S1, 0, FIRST, 2);
    assert S1.creates[0 := CreateTxn(FIRST, {0}, Holding(2))] == S2.creates;
  }

  lemma FirstBooks()
    ensures Leads(S2, L2, S3)
  {
    assert S2.claims + NewClaims(0, {0}) == S3.claims;
    assert S2.creates - {0} == S3.creates;
    assert InsertAllowed(S2, S2.creates[0]);
  }

  lemma SecondReads()
    ensures Leads(S3, L3, S4)
  {
    ReadsCleanly(S3, 1, SECOND, LATER);
    assert S3.creates[1 := CreateTxn(SECOND, {0}, Holding(LATER))] == S4.creates;
  }

  /** One booking made, one seat held. */
  lemma FirstBooking() returns (states: seq<State>, labels: seq<Label>)
    ensures IsRun(states, labels) && |labels| == 3 && states[3] == S3
  {
    Starts(S0);
    EventOpens();
    Continues([S0], [], L0, S1);
    FirstReads();
    Continues([S0] + [S1], [] + [L0], L1, S2);
    FirstBooks();
    Continues([S0] + [S1] + [S2], [] + [L0] + [L1], L2, S3);
    states, labels := [S0] + [S1] + [S2] + [S3], [] + [L0] + [L1] + [L2];
  }

  /** The last state of a real run: the seat reads as available, the key is new, the insert is refused. */
  lemma AvailableSeatRefused() returns (states: seq<State>, labels: seq<Label>)
    ensures IsRun(states, labels) && |labels| == 4
    ensures var s := states[4];
            && HoldsLock(s.creates, 1) && s.creates[1].request == SECOND
            && UnavailableSeats(s.bookings, s.claims, s.creates[1].seats, s.clock) == {}
            && ExistingBooking(s.bookings, SECOND.user, "b").None?
            && !InsertAllowed(s, s.creates[1])
  {
    states, labels := FirstBooking();
    SecondReads();
    Continues(states, labels, L3, S4);
    states, labels := states + [S4], labels + [L3];
    assert S4.claims[Claim(0, 0)];
  }
}
