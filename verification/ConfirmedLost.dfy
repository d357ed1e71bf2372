/** A confirmed and paid booking that loses its seats: the payment call tests the old deadline first. */
module ConfirmedLost {
  import opened Rows
  import opened Engine
  import opened Invariant
  import opened LapsedHold

  const PAID := Booking(0, 0, Confirmed, 100, "a", LATER, 0)
  const LOST := PAID.(status := Expired)

  const C4 := S3.(bookings := map[0 := PAID], payments := map[0 := Payment(100, Success)], clock := 4)
  const C5 := C4.(bookings := map[0 := LOST], claims := map[Claim(0, 0) := false], clock := LATER + 1)

  const N3 := Label(PayBooking(0, true), 4)
  const N4 := Label(PayBooking(0, true), LATER + 1)

  lemma FirstPays()
    ensures Leads(S3, N3, C4)
  {
    assert S3.bookings[0 := PAID] == C4.bookings && S3.payments[0 := Payment(100, Success)] == C4.payments;
  }

  lemma CalledAgain()
    ensures Leads(C4, N4, C5)
  {
    assert C4.bookings[0 := LOST] == C5.bookings && C4.payments[0 := C4.payments[0]] == C4.payments;
    assert Released(C4.claims, 0) == C5.claims;
  }

  /** A real run: created, paid and confirmed, then called once more after the deadline. */
  lemma ConfirmedBookingExpires() returns (states: seq<State>, labels: seq<Label>)
    ensures IsRun(states, labels) && |labels| == 5
    ensures 0 in states[4].bookings && states[4].bookings[0].status.Confirmed? && Active(states[4].claims, Claim(0, 0))
    ensures labels[4].action == PayBooking(0, true) && labels[4].now > states[4].bookings[0].expiresAt
    ensures 0 in states[5].bookings && states[5].bookings[0].status.Expired?
    ensures PaidFor(states[5].payments, 0) && !Active(states[5].claims, Claim(0, 0))
  {
    states, labels := FirstBooking();
    FirstPays();
    Continues(states, labels, N3, C4);
    states, labels := states + [C4], labels + [N3];
    CalledAgain();
    Continues(states, labels, N4, C5);
    states, labels := states + [C5], labels + [N4];
    assert C4.claims[Claim(0, 0)];
  }
}
