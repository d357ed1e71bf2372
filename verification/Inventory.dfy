/** Seat inventory under event edits that interleave with bookings. */
module Inventory {
  import opened Rows
  import opened Engine
  import opened Invariant
  import opened Preservation
  import opened Safety

  /**
    In every state of every run each event's seats are numbered 1..total_seats, each
    number once, and every booked seat exists in the booking's own event.
   */
  lemma NumbersStayExact(states: seq<State>, labels: seq<Label>, i: nat)
    requires IsRun(states, labels) && i < |states|
    ensures forall e :: e in states[i].events ==> ExactNumbers(states[i].seats, e, states[i].events[e].totalSeats)
    ensures forall c :: c in states[i].claims ==>
              c.booking in states[i].bookings &&
              Numbered(states[i].seats, states[i].bookings[c.booking].event, c.seat)
  {
    RunKeepsInv(states, labels, i);
  }

  /** A seat that was ever booked, even by a booking long cancelled, is never deleted, renumbered or relabelled. */
  lemma BookedSeatsStay(states: seq<State>, labels: seq<Label>, i: nat, j: nat, c: Claim)
    requires IsRun(states, labels) && i <= j < |states| && c in states[i].claims
    ensures c in states[j].claims
    ensures c.seat in states[i].seats && c.seat in states[j].seats
    ensures states[j].seats[c.seat] == states[i].seats[c.seat]
  {
    NumbersStayExact(states, labels, i);
    RunEvolves(states, labels, i, j);
  }

  /** Once an edit has passed its check under the locks, its commit meets neither PROTECT nor a duplicate number. */
  lemma CheckedEditsCommit(states: seq<State>, labels: seq<Label>, i: nat, e: Id)
    requires IsRun(states, labels) && i < |labels| && StepAt(states, labels, i)
    requires labels[i].action == CommitEdit(e)
    ensures FinishEdit(states[i], e).1 == Saved
  {
    RunKeepsInv(states, labels, i);
    CommitEditSucceeds(states[i], e);
  }

  // ---------------------------------------------------------------- the early check

  /** Event.clean: the unlocked check before an update, with its two tests on a shrinking total. */
  predicate CleanRejects(s: State, e: Id, change: EventChange)
    requires e in s.events && change.Update?
  {
    var was := s.events[e];
    var total := RequestedTotal(was, change);
    if TargetSpace(was, change) != was.space then HasHistory(s.claims, SeatsOf(s.seats, e))
    else if total < was.totalSeats then
      ConfirmedAbove(s, e, total) || HasHistory(s.claims, SeatsAbove(s.seats, e, total))
    else false
  }

  /** The highest confirmed seat number exceeds the requested total. */
  predicate ConfirmedAbove(s: State, e: Id, total: int)
  {
    exists c :: c in s.claims && c.booking in s.bookings && c.seat in s.seats &&
      s.bookings[c.booking].event == e && s.bookings[c.booking].status.Confirmed? && s.seats[c.seat].spec.number > total
  }

  /**
    On one state the early check and the check under the locks decide alike: both refuse
    exactly when a seat to be removed has any booking history. The confirmed-seat test of
    the early check never decides anything on its own.
   */
  lemma EarlyCheckAgrees(s: State, e: Id, change: EventChange)
    requires ClaimsRefer(s) && InventoryOk(s) && e in s.events && change.Update?
    requires PlanEdit(s, e, change).target.totalSeats > 0 && change.price >= 0
    ensures CleanRejects(s, e, change) <==> BeginEdit(s, e, change).1.Rejected?
  {
    var was := s.events[e];
    var total := RequestedTotal(was, change);
    if TargetSpace(was, change) == was.space && total < was.totalSeats && ConfirmedAbove(s, e, total) {
      var c :| c in s.claims && c.booking in s.bookings && c.seat in s.seats &&
        s.bookings[c.booking].event == e && s.bookings[c.booking].status.Confirmed? && s.seats[c.seat].spec.number > total;
      assert c.seat in SeatsAbove(s.seats, e, total);
    }
  }

  /** Saving an event without changing its space or, for a plain event, its total leaves every seat row alone. */
  lemma UnrelatedEditKeepsSeats(s: State, e: Id, change: EventChange)
    requires InventoryOk(s) && e in s.events && change.Update?
    requires TargetSpace(s.events[e], change) == s.events[e].space
    requires s.events[e].space.None? ==> change.totalSeats == s.events[e].totalSeats
    ensures var s1 := s.(edits := s.edits[e := PlanEdit(s, e, change)]);
            var s2 := FinishEdit(s1, e).0;
            && FinishEdit(s1, e).1 == Saved
            && s2.seats == s.seats
            && e in s2.events && s2.events[e].totalSeats == s.events[e].totalSeats
  {
    var plan := PlanEdit(s, e, change);
    assert plan.removed == {} && plan.added == [];
    var s1 := s.(edits := s.edits[e := plan]);
    assert s1.edits[e] == plan;
    assert AddedSeats(e, s.nextSeat, plan.added) == map[];
    assert s.seats - plan.removed == s.seats;
  }
}
