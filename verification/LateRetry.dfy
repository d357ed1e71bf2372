/**
  Why the live seat map needs guarded callers: the payment-retry path pays without looking
  at the booking's status, and paying an expired booking announces seats as available that
  somebody else holds by now.
 */
module LateRetry {
  import opened Rows
  import opened Engine
  import opened Availability
  import opened LiveSeatMap
  import opened LapsedHold

  const SWEPT := Booking(0, 0, Expired, 100, "a", LATER, 0)
  const SECOND_ROW := Booking(1, 0, Pending, 100, "b", LATER + 2 + HOLD_PERIOD, 0)

  const R4 := S3.(bookings := map[0 := SWEPT], claims := map[Claim(0, 0) := false], clock := LATER)
  const R5 := R4.(creates := map[1 := CreateTxn(SECOND, {0}, Holding(LATER + 1))], clock := LATER + 1)
  const R6 := R5.(bookings := map[0 := SWEPT, 1 := SECOND_ROW], nextBooking := 2,
                  claims := map[Claim(0, 0) := false, Claim(1, 0) := true], creates := map[], clock := LATER + 2)
  const R7 := R6.(clock := LATER + 3)

  const M3 := Label(SweepBooking(0), LATER)
  const M4 := Label(OpenCreate(1, SECOND), LATER + 1)
  const M5 := Label(CommitCreate(1), LATER + 2)
  const M6 := Label(PayBooking(0, true), LATER + 3)

  lemma FirstIsSwept()
    ensures Leads(S3, M3, R4)
  {
    assert Released(S3.claims, 0) == R4.claims;
    assert S3.bookings[0 := SWEPT] == R4.bookings;
  }

  lemma SecondReadsAgain()
    ensures Leads(R4, M4, R5)
  {
    assert LockedRows(R4, SECOND) == {0} && Distinct(SECOND.seatIds) == {0};
    assert UnavailableSeats(R4.bookings, R4.claims, {0}, LATER + 1) == {};
    assert ExistingBooking(R4.bookings, SECOND.user, "b").None?;
    assert R4.creates[1 := CreateTxn(SECOND, {0}, Holding(LATER + 1))] == R5.creates;
  }

  lemma SecondBooks()
    ensures Leads(R5, M5, R6)
  {
    assert InsertAllowed(R5, R5.creates[1]);
    assert R5.claims + NewClaims(1, {0}) == R6.claims;
    assert R5.creates - {1} == R6.creates;
    assert R5.bookings[1 := SECOND_ROW] == R6.bookings;
  }

  lemma FirstRetriesLate()
    ensures Leads(R6, M6, R7) && Sent(R6, M6.action, M6.now) == Announce(0, {1}, Free)
  {
    assert Released(R6.claims, 0) == R6.claims;
    assert R6.bookings[0 := SWEPT] == R6.bookings;
    assert Claim(0, 0) in R6.claims && R6.seats[0].spec.number == 1;
    assert NumbersOf(R6, 0) == {1};
  }

  lemma SeatStaysLocked()
    ensures Stored(R7, 0, 1, Locked) && !Stored(R7, 0, 1, Free) && !Guarded(R6, M6.action)
  {
    assert Holds(R7, 0, 1, Claim(1, 0));
  }

  /** A real run whose last step tells every viewer that seat 1 is free while another user's open booking holds it. */
  lemma LateRetryMisleads() returns (states: seq<State>, labels: seq<Label>)
    ensures IsRun(states, labels) && |labels| == 7
    ensures Enabled(states[6], labels[6].action, labels[6].now)
    ensures Sent(states[6], labels[6].action, labels[6].now) == Announce(0, {1}, Free)
    ensures Stored(states[7], 0, 1, Locked) && !Stored(states[7], 0, 1, Free)
    ensures !Guarded(states[6], labels[6].action)
  {
    states, labels := FirstBooking();
    FirstIsSwept();
    Continues(states, labels, M3, R4);
    SecondReadsAgain();
    Continues(states + [R4], labels + [M3], M4, R5);
    SecondBooks();
    Continues(states + [R4] + [R5], labels + [M3] + [M4], M5, R6);
    FirstRetriesLate();
    Continues(states + [R4] + [R5] + [R6], labels + [M3] + [M4] + [M5], M6, R7);
    SeatStaysLocked();
    states, labels := states + [R4] + [R5] + [R6] + [R7], labels + [M3] + [M4] + [M5] + [M6];
  }
}
