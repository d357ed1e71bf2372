/** What paying, sweeping and cancelling do to the rows of a run, said in statuses, counts and deadlines alone. */
module Outcomes {
  import opened Rows
  import opened Engine
  import opened Invariant
  import opened Preservation
  import opened Safety

  // ---------------------------------------------------------------- rows before and after

  /** Nothing about any other booking changes. */
  ghost predicate OthersUntouched(s: State, s': State, b: Id)
  {
    && (forall p :: p in s'.bookings <==> p in s.bookings)
    && (forall p :: p in s.bookings && p != b ==> s'.bookings[p] == s.bookings[p])
    && (forall p :: p != b ==> (p in s'.payments <==> p in s.payments))
    && (forall p :: p != b && p in s.payments ==> s'.payments[p] == s.payments[p])
    && (forall c :: c in s'.claims <==> c in s.claims)
    && (forall c :: c in s.claims && c.booking != b ==> s'.claims[c] == s.claims[c])
    && s'.events == s.events && s'.seats == s.seats
  }

  /** The booking's rows and payment are what they were. */
  ghost predicate Untouched(s: State, s': State, b: Id)
  {
    && s'.bookings == s.bookings && s'.payments == s.payments && s'.claims == s.claims
    && s'.events == s.events && s'.seats == s.seats
  }

  predicate AllClaims(claims: map<Claim, bool>, b: Id, active: bool)
  {
    forall c :: c in claims && c.booking == b ==> claims[c] == active
  }

  /** The row keeps its user, event, amount, key and deadline. */
  predicate Becomes(s: State, s': State, b: Id, status: Status, retryCount: nat)
  {
    && b in s.bookings && b in s'.bookings
    && s'.bookings[b] == Booking(s.bookings[b].user, s.bookings[b].event, status, s.bookings[b].amount,
                                 s.bookings[b].key, s.bookings[b].expiresAt, retryCount)
  }

  predicate PaymentIs(s: State, b: Id, amount: int, success: bool)
  {
    b in s.payments && s.payments[b].amount == amount && (if success then s.payments[b].status.Success? else s.payments[b].status.Declined?)
  }

  predicate SamePayment(s: State, s': State, b: Id)
  {
    (b in s'.payments <==> b in s.payments) && (b in s.payments ==> s'.payments[b] == s.payments[b])
  }

  // ---------------------------------------------------------------- a payment call

  ghost predicate ChargeSucceeded(s: State, s': State, b: Id)
    requires b in s.bookings
  {
    && Becomes(s, s', b, Confirmed, s.bookings[b].retryCount)
    && PaymentIs(s', b, s.bookings[b].amount, true) && AllClaims(s'.claims, b, true)
  }

  ghost predicate ChargeFailed(s: State, s': State, b: Id)
    requires b in s.bookings
  {
    var retries := s.bookings[b].retryCount + 1;
    && Becomes(s, s', b, if retries < 3 then Failed else Expired, retries)
    && PaymentIs(s', b, s.bookings[b].amount, false) && AllClaims(s'.claims, b, retries < 3)
  }

  ghost predicate HoldOver(s: State, s': State, b: Id)
    requires b in s.bookings
  {
    && Becomes(s, s', b, Expired, s.bookings[b].retryCount)
    && SamePayment(s, s', b) && AllClaims(s'.claims, b, false)
  }

  lemma LatePayment(s: State, b: Id, success: bool, now: Time, s': State)
    requires RowOk(s, b) && s.bookings[b].expiresAt < now && s' == Pay(s, b, success, now).0.(clock := now)
    ensures HoldOver(s, s', b) && OthersUntouched(s, s', b)
  {
  }

  lemma TimelyCharge(s: State, b: Id, success: bool, now: Time, s': State)
    requires RowOk(s, b) && now <= s.bookings[b].expiresAt && s.bookings[b].status.Open()
    requires s' == Pay(s, b, success, now).0.(clock := now)
    ensures if success then ChargeSucceeded(s, s', b) else ChargeFailed(s, s', b)
    ensures OthersUntouched(s, s', b)
  {
  }

  lemma SettledPayment(s: State, b: Id, success: bool, now: Time, s': State)
    requires RowOk(s, b) && now <= s.bookings[b].expiresAt && !s.bookings[b].status.Open() && now > s.clock
    requires s' == Pay(s, b, success, now).0.(clock := now)
    ensures Untouched(s, s', b)
  {
    var bk := s.bookings[b];
    assert s.bookings[b := bk] == s.bookings;
    if b in s.payments { assert s.payments[b := s.payments[b]] == s.payments; }
    if bk.retryCount >= MAX_RETRIES {
      assert bk.status.Expired?;
      ReleasedDead(s, b);
    }
  }

  lemma RunRowOk(states: seq<State>, labels: seq<Label>, i: nat, b: Id)
    requires IsRun(states, labels) && i < |states| && b in states[i].bookings
    ensures RowOk(states[i], b)
  {
    RunKeepsInv(states, labels, i);
  }

  /**
    A payment call in any run. After the deadline it expires the booking, whatever its
    status. By the deadline a pending or failed booking is charged: success confirms it and
    keeps its seats; failure costs a retry and, at the third, the seats. Any other booking
    is left exactly as it was.
   */
  lemma PaymentOutcome(states: seq<State>, labels: seq<Label>, i: nat, b: Id, success: bool)
    requires IsRun(states, labels) && i < |labels| && StepAt(states, labels, i) && labels[i].action == PayBooking(b, success)
    requires b in states[i].bookings
    ensures var s, s', bk := states[i], states[i + 1], states[i].bookings[b];
            && OthersUntouched(s, s', b)
            && (labels[i].now > bk.expiresAt ==> HoldOver(s, s', b))
            && (labels[i].now <= bk.expiresAt && (bk.status.Pending? || bk.status.Failed?) ==>
                  if success then ChargeSucceeded(s, s', b) else ChargeFailed(s, s', b))
            && (labels[i].now <= bk.expiresAt && !bk.status.Pending? && !bk.status.Failed? ==> Untouched(s, s', b))
  {
    var s, s', now := states[i], states[i + 1], labels[i].now;
    RunRowOk(states, labels, i, b);
    PaymentShape(s, b, success, now, s');
    if now > s.bookings[b].expiresAt {
      LatePayment(s, b, success, now, s');
    } else if s.bookings[b].status.Open() {
      TimelyCharge(s, b, success, now, s');
    } else {
      SettledPayment(s, b, success, now, s');
    }
  }

  lemma PaymentShape(s: State, b: Id, success: bool, now: Time, s': State)
    requires Enabled(s, PayBooking(b, success), now) && s' == Apply(s, PayBooking(b, success), now)
    ensures s' == Pay(s, b, success, now).0.(clock := now) && now > s.clock
  {
  }

  /** A payment call for a booking that does not exist changes nothing. */
  lemma MissingPayment(states: seq<State>, labels: seq<Label>, i: nat, b: Id, success: bool)
    requires IsRun(states, labels) && i < |labels| && StepAt(states, labels, i) && labels[i].action == PayBooking(b, success)
    requires b !in states[i].bookings
    ensures states[i + 1] == states[i].(clock := labels[i].now)
  {
  }

  // ---------------------------------------------------------------- the expiry handler

  predicate IsDue(bk: Booking, now: Time)
  {
    (bk.status.Pending? || bk.status.Failed?) && bk.expiresAt <= now
  }

  lemma SweepDueRows(s: State, b: Id, now: Time, s': State)
    requires b in s.bookings && IsDue(s.bookings[b], now) && s' == Sweep(s, b, now).(clock := now)
    ensures Becomes(s, s', b, Expired, s.bookings[b].retryCount) && AllClaims(s'.claims, b, false)
    ensures OthersUntouched(s, s', b) && s'.payments == s.payments
  {
  }

  lemma SweepOtherRows(s: State, b: Id, now: Time)
    requires b in s.bookings && !IsDue(s.bookings[b], now)
    ensures Sweep(s, b, now) == s
  {
  }

  lemma NoChange(s: State, s': State, b: Id)
    requires s' == s.(clock := s'.clock)
    ensures Untouched(s, s', b) && OthersUntouched(s, s', b)
  {
  }

  lemma SweepShape(s: State, b: Id, now: Time, s': State)
    requires Enabled(s, SweepBooking(b), now) && s' == Apply(s, SweepBooking(b), now)
    ensures s' == Sweep(s, b, now).(clock := now) && now > s.clock && b in s.bookings
  {
  }

  /** The expiry handler expires a pending or failed booking that is due, with its claims, and touches nothing else, a confirmed booking least of all. */
  lemma SweepOutcome(states: seq<State>, labels: seq<Label>, i: nat, b: Id)
    requires IsRun(states, labels) && i < |labels| && StepAt(states, labels, i) && labels[i].action == SweepBooking(b)
    ensures b in states[i].bookings
    ensures var s, s', bk := states[i], states[i + 1], states[i].bookings[b];
            && OthersUntouched(s, s', b) && s'.payments == s.payments
            && if IsDue(bk, labels[i].now)
               then Becomes(s, s', b, Expired, bk.retryCount) && AllClaims(s'.claims, b, false)
               else Untouched(s, s', b)
  {
    SweepShape(states[i], b, labels[i].now, states[i + 1]);
    if IsDue(states[i].bookings[b], labels[i].now) {
      SweepDueRows(states[i], b, labels[i].now, states[i + 1]);
    } else {
      SweepOtherRows(states[i], b, labels[i].now);
      NoChange(states[i], states[i + 1], b);
    }
  }

  // ---------------------------------------------------------------- cancelling

  lemma CancelRows(s: State, b: Id, now: Time, s': State)
    requires RowOk(s, b) && s' == SetStatusAndRelease(s, b, Cancelled).(clock := now)
    ensures Becomes(s, s', b, Cancelled, s.bookings[b].retryCount) && AllClaims(s'.claims, b, false)
    ensures OthersUntouched(s, s', b) && s'.payments == s.payments
  {
  }

  lemma CancelShape(s: State, b: Id, now: Time, s': State)
    requires Enabled(s, CancelBooking(b), now) && s' == Apply(s, CancelBooking(b), now)
    ensures s' == SetStatusAndRelease(s, b, Cancelled).(clock := now) && b in s.bookings && b in s.stale
  {
  }

  /** Somebody saw the booking confirmed before. */
  ghost predicate SeenBefore(states: seq<State>, labels: seq<Label>, i: nat, b: Id)
    requires i <= |labels| < |states|
  {
    exists r: nat :: r < i && labels[r].action == ReadForCancel(b) && b in states[r].bookings && states[r].bookings[b].status.Confirmed?
  }

  lemma StaleStep(s: State, a: Action, now: Time, s': State, b: Id)
    requires Enabled(s, a, now) && s' == Apply(s, a, now)
    ensures b in s'.stale <==> b in s.stale || (a == ReadForCancel(b) && b in s.bookings && s.bookings[b].status.Confirmed?)
  {
    if a.ReadForCancel? { ReadNotes(s, a.booking, now, b); } else { OthersKeepStale(s, a, now); }
  }

  lemma ReadNotes(s: State, p: Id, now: Time, b: Id)
    requires Enabled(s, ReadForCancel(p), now)
    ensures b in Apply(s, ReadForCancel(p), now).stale <==>
              b in s.stale || (p == b && b in s.bookings && s.bookings[b].status.Confirmed?)
  {
  }

  lemma OthersKeepStale(s: State, a: Action, now: Time)
    requires Enabled(s, a, now) && !a.ReadForCancel?
    ensures Apply(s, a, now).stale == s.stale
  {
    if a.CommitCreate? {
      CommitKeepsStale(s, a.txn, now);
    } else if a.OpenCreate? {
      BeginKeepsStale(s, a.txn, a.request, now);
    } else if a.OpenEdit? || a.CommitEdit? || a.InsertEvent? || a.DeleteEvent? {
      EventStepsKeepStale(s, a, now);
    }
  }

  lemma EventStepsKeepStale(s: State, a: Action, now: Time)
    requires Enabled(s, a, now) && (a.OpenEdit? || a.CommitEdit? || a.InsertEvent? || a.DeleteEvent?)
    ensures Apply(s, a, now).stale == s.stale
  {
  }

  lemma CommitKeepsStale(s: State, t: Id, now: Time)
    requires t in s.creates
    ensures FinishCreate(s, t, now).0.stale == s.stale
  {
  }

  lemma BeginKeepsStale(s: State, t: Id, q: CreateRequest, now: Time)
    ensures BeginCreate(s, t, q, now).0.stale == s.stale
  {
  }

  lemma {:induction false} StaleWasSeen(states: seq<State>, labels: seq<Label>, i: nat, b: Id)
    requires IsRun(states, labels) && i <= |labels|
    ensures b in states[i].stale <==> SeenBefore(states, labels, i, b)
  {
    if i > 0 {
      StaleWasSeen(states, labels, i - 1, b);
      assert StepAt(states, labels, i - 1);
      StaleStep(states[i - 1], labels[i - 1].action, labels[i - 1].now, states[i], b);
      if b in states[i].stale && b !in states[i - 1].stale {
        assert labels[i - 1].action == ReadForCancel(b);
      }
    }
  }

  /** A cancellation writes CANCELLED and gives up the seats, on the strength of an earlier read that saw the booking confirmed. */
  lemma CancelOutcome(states: seq<State>, labels: seq<Label>, i: nat, b: Id)
    requires IsRun(states, labels) && i < |labels| && StepAt(states, labels, i) && labels[i].action == CancelBooking(b)
    ensures SeenBefore(states, labels, i, b) && b in states[i].bookings
    ensures var s, s' := states[i], states[i + 1];
            && Becomes(s, s', b, Cancelled, s.bookings[b].retryCount) && AllClaims(s'.claims, b, false)
            && OthersUntouched(s, s', b) && s'.payments == s.payments
  {
    CancelShape(states[i], b, labels[i].now, states[i + 1]);
    RunRowOk(states, labels, i, b);
    CancelRows(states[i], b, labels[i].now, states[i + 1]);
    StaleWasSeen(states, labels, i, b);
  }

  // ---------------------------------------------------------------- what ends a confirmed booking

  ghost predicate IsConfirmed(s: State, b: Id) { b in s.bookings && s.bookings[b].status.Confirmed? }

  lemma CommitKeepsRow(s: State, t: Id, now: Time, s': State, b: Id)
    requires ClaimsRefer(s) && BookingsOk(s) && HoldsLock(s.creates, t) && now > s.clock
    requires s' == FinishCreate(s, t, now).0.(clock := now) && b in s.bookings
    ensures b in s'.bookings && s'.bookings[b] == s.bookings[b]
  {
    NewBookingIsUnclaimed(s);
    if InsertAllowed(s, s.creates[t]) { CommitCreateInserts(s, t, now, s'); } else { CommitCreateRefused(s, t, now, s'); }
  }

  lemma CreateKeepsConfirmed(states: seq<State>, labels: seq<Label>, i: nat, b: Id)
    requires IsRun(states, labels) && i < |labels| && StepAt(states, labels, i) && labels[i].action.CommitCreate?
    requires IsConfirmed(states[i], b)
    ensures IsConfirmed(states[i + 1], b)
  {
    RunKeepsInv(states, labels, i);
    CommitKeepsRow(states[i], labels[i].action.txn, labels[i].now, states[i + 1], b);
  }

  /**
    A confirmed booking stops being confirmed in exactly two ways: it is cancelled, or a
    payment call reaches it after its deadline. In particular its own expiry job never
    takes it away.
   */
  lemma ConfirmedEndsIff(states: seq<State>, labels: seq<Label>, i: nat, b: Id)
    requires IsRun(states, labels) && i < |labels| && StepAt(states, labels, i) && IsConfirmed(states[i], b)
    ensures var a, late := labels[i].action, labels[i].now > states[i].bookings[b].expiresAt;
            !IsConfirmed(states[i + 1], b) <==> a == CancelBooking(b) || (a.PayBooking? && a.booking == b && late)
  {
    var a := labels[i].action;
    if a.PayBooking? {
      if a.booking in states[i].bookings { PaymentOutcome(states, labels, i, a.booking, a.success); }
      else { MissingPayment(states, labels, i, a.booking, a.success); }
    } else if a.SweepBooking? {
      SweepOutcome(states, labels, i, a.booking);
    } else if a.CancelBooking? {
      CancelOutcome(states, labels, i, a.booking);
    } else if a.CommitCreate? {
      CreateKeepsConfirmed(states, labels, i, b);
    } else {
      PassiveStep(states[i], a, labels[i].now, states[i + 1]);
    }
  }
}
