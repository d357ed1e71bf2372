/** What holds over whole runs of the booking engine. */
module Safety {
  import opened Wrappers
  import opened Rows
  import opened Engine
  import opened Invariant
  import opened Preservation

  // ---------------------------------------------------------------- double booking

  ghost predicate ConfirmedClaim(s: State, c: Claim)
  {
    c in s.claims && c.booking in s.bookings && s.bookings[c.booking].status.Confirmed?
  }

  /**
    In every state of every run: a claim is active exactly while its booking is pending,
    failed or confirmed; a seat has at most one active claim; and no two confirmed
    bookings ever share a seat, whatever their flags say.
   */
  lemma NoDoubleBooking(states: seq<State>, labels: seq<Label>, i: nat)
    requires IsRun(states, labels) && i < |states|
    ensures var s := states[i];
            && (forall c :: c in s.claims ==>
                  c.booking in s.bookings && (s.claims[c] <==> s.bookings[c.booking].status.Live()))
            && (forall c, d :: Active(s.claims, c) && Active(s.claims, d) && c.seat == d.seat ==> c == d)
            && (forall c, d :: ConfirmedClaim(s, c) && ConfirmedClaim(s, d) && c.seat == d.seat ==> c == d)
  {
    RunKeepsInv(states, labels, i);
    var s := states[i];
    forall c, d | ConfirmedClaim(s, c) && ConfirmedClaim(s, d) && c.seat == d.seat ensures c == d
    {
      assert Active(s.claims, c) && Active(s.claims, d);
    }
  }

  /**
    The time-based test of the availability queries against the stored flags, at any
    instant: a taken claim is active and the only active one on its seat, and an active
    claim that is not taken is an open booking whose hold has run out unswept.
   */
  lemma HoldTestRefinesClaims(states: seq<State>, labels: seq<Label>, i: nat, now: Time)
    requires IsRun(states, labels) && i < |states|
    ensures var s := states[i];
            && (forall c, d :: c in s.claims && Taken(s.bookings, c, now) && Active(s.claims, d) && c.seat == d.seat ==> c == d)
            && (forall c :: c in s.claims && Taken(s.bookings, c, now) ==> Active(s.claims, c))
            && (forall c :: Active(s.claims, c) && !Taken(s.bookings, c, now) ==>
                  c.booking in s.bookings && s.bookings[c.booking].status.Open() && s.bookings[c.booking].expiresAt <= now)
  {
    RunKeepsInv(states, labels, i);
    var s := states[i];
    assert forall c :: c in s.claims && Taken(s.bookings, c, now) ==> Active(s.claims, c);
  }

  // ---------------------------------------------------------------- when an insert is refused

  /** An open booking on one of these seats whose hold was over at `readAt`. */
  ghost predicate LapsedHoldOn(s: State, seats: set<Id>, readAt: Time)
  {
    exists c :: c in s.claims && c.seat in seats && c.booking in s.bookings &&
      s.bookings[c.booking].status.Open() && s.bookings[c.booking].expiresAt <= readAt
  }

  /**
    After a clean availability read, whatever ran in between, the commit is refused
    exactly for a missing key, a duplicate key, or a hold that had already lapsed when the
    read called the seat available and that nobody has swept since.
   */
  lemma RefusedExactlyFor(states: seq<State>, labels: seq<Label>, i: nat, t: Id)
    requires IsRun(states, labels) && i < |states| && HoldsLock(states[i].creates, t)
    ensures var s, txn := states[i], states[i].creates[t];
            !InsertAllowed(s, txn) <==>
              || txn.request.key.None?
              || ExistingBooking(s.bookings, txn.request.user, txn.request.key.value).Some?
              || LapsedHoldOn(s, txn.seats, txn.phase.readAt)
  {
    RunKeepsInv(states, labels, i);
    RefusalCauses(states[i], states[i].creates[t]);
  }

  lemma RefusalCauses(s: State, txn: CreateTxn)
    requires ClaimsRefer(s) && InStep(s.bookings, s.claims) && txn.phase.Holding? && CreateOk(s, txn)
    ensures !InsertAllowed(s, txn) <==>
              || txn.request.key.None?
              || ExistingBooking(s.bookings, txn.request.user, txn.request.key.value).Some?
              || LapsedHoldOn(s, txn.seats, txn.phase.readAt)
  {
    forall c | c in s.claims && c.seat in txn.seats
      ensures s.claims[c] <==> s.bookings[c.booking].status.Open() && s.bookings[c.booking].expiresAt <= txn.phase.readAt
    {
      assert s.claims[c] ==> Active(s.claims, c);
    }
  }

  // ---------------------------------------------------------------- how a booking can evolve

  ghost predicate BookingEvolves(s: State, s': State, b: Id)
    requires b in s.bookings
  {
    && b in s'.bookings
    && var bk, bk' := s.bookings[b], s'.bookings[b];
    && bk' == bk.(status := bk'.status, retryCount := bk'.retryCount)
    && bk'.retryCount >= bk.retryCount
    && (bk'.status.Live() ==> bk.status.Live())
    && (bk'.status.Open() ==> bk.status.Open())
    && (PaidFor(s.payments, b) ==> PaidFor(s'.payments, b))
  }

  function ClaimsOf(claims: map<Claim, bool>, b: Id): set<Claim>
  {
    set c | c in claims && c.booking == b
  }

  /** Bookings keep their terms and seats for ever, and booked seats keep their rows. */
  ghost predicate Evolves(s: State, s': State)
  {
    && s'.clock >= s.clock
    && (forall b :: b in s.bookings ==> BookingEvolves(s, s', b))
    && (forall b :: b in s.bookings ==> ClaimsOf(s'.claims, b) == ClaimsOf(s.claims, b))
    && (forall c :: c in s.claims ==> c in s'.claims)
    && (forall c :: c in s.claims && c.seat in s.seats ==> c.seat in s'.seats && s'.seats[c.seat] == s.seats[c.seat])
  }

  lemma SameBookingsEvolve(s: State, s': State)
    requires s'.bookings == s.bookings && s'.payments == s.payments && s'.clock >= s.clock && s'.claims == s.claims
    requires forall c :: c in s.claims && c.seat in s.seats ==> c.seat in s'.seats && s'.seats[c.seat] == s.seats[c.seat]
    ensures Evolves(s, s')
  {
  }

  lemma RowChangeEvolves(s: State, s': State, b: Id)
    requires InStep(s.bookings, s.claims) && RowChange(s, s', b)
    ensures Evolves(s, s')
  {
    RowChangeClaims(s, s', b);
    assert forall c :: c in s.claims.Keys <==> c in s'.claims.Keys;
    forall p | p in s.bookings ensures BookingEvolves(s, s', p) {
      assert p != b ==> PaymentOf(s', p) == PaymentOf(s, p);
      assert PaidFor(s.payments, p) ==> PaymentOf(s, p) == Some(s.payments[p]);
    }
  }

  lemma InsertEvolves(s: State, t: Id, s': State)
    requires ClaimsRefer(s) && BookingsOk(s) && Inserted(s, t, s')
    ensures Evolves(s, s')
  {
    NewBookingIsUnclaimed(s);
    forall c | c in s.claims || c in s'.claims
      ensures c.booking in s.bookings ==> (c in s'.claims <==> c in s.claims)
      ensures c in s.claims ==> c in s'.claims
    {
      InsertedClaims(s.claims, s.nextBooking, s.creates[t].seats, c);
    }
  }

  predicate TouchesBookings(a: Action)
  {
    a.CommitCreate? || a.PayBooking? || a.SweepBooking? || a.CancelBooking?
  }

  /** All other steps leave bookings, claims and payments alone. */
  lemma PassiveStep(s: State, a: Action, now: Time, s': State)
    requires Enabled(s, a, now) && s' == Apply(s, a, now) && !TouchesBookings(a)
    ensures s'.bookings == s.bookings && s'.claims == s.claims && s'.payments == s.payments
    ensures s'.clock == now
  {
  }

  lemma CreateStepEvolves(s: State, a: Action, now: Time, s': State)
    requires ClaimsRefer(s) && BookingsOk(s) && InStep(s.bookings, s.claims)
    requires Enabled(s, a, now) && s' == Apply(s, a, now)
    requires a.FastPath? || a.OpenCreate? || a.CommitCreate? || a.LookupCreate?
    ensures Evolves(s, s')
  {
    match a {
      case FastPath(_, _) => SameBookingsEvolve(s, s');
      case OpenCreate(t, q) =>
        OpenCreateShape(s, t, q, now, s');
        SameBookingsEvolve(s, s');
      case CommitCreate(t) =>
        if InsertAllowed(s, s.creates[t]) {
          CommitCreateInserts(s, t, now, s');
          InsertEvolves(s, t, s');
        } else {
          CommitCreateRefused(s, t, now, s');
          SameBookingsEvolve(s, s');
        }
      case LookupCreate(t) => SameBookingsEvolve(s, s');
    }
  }

  lemma BookingStepEvolves(s: State, a: Action, now: Time, s': State)
    requires Inv(s) && Enabled(s, a, now) && s' == Apply(s, a, now)
    requires a.PayBooking? || a.SweepBooking? || a.CancelBooking?
    ensures Evolves(s, s')
  {
    BookingStepKeepsInv(s, a, now, s');
    if a.booking in s.bookings { RowChangeEvolves(s, s', a.booking); } else { SameBookingsEvolve(s, s'); }
  }

  lemma CommitEditEvolves(s: State, e: Id, now: Time, s': State)
    requires ClaimsRefer(s) && InventoryOk(s) && EditsOk(s)
    requires e in s.edits && now > s.clock && s' == FinishEdit(s, e).0.(clock := now)
    ensures Evolves(s, s')
  {
    CommitEditShape(s, e);
    assert forall c :: c in s.claims ==> c.seat !in s.edits[e].removed;
    SameBookingsEvolve(s, s');
  }

  lemma DeleteEventEvolves(s: State, e: Id, now: Time, s': State)
    requires now > s.clock && s' == DestroyEvent(s, e).0.(clock := now)
    ensures Evolves(s, s')
  {
    if DestroyEvent(s, e).1.Saved? {
      assert forall c :: c in s.claims ==> c.seat !in SeatsOf(s.seats, e);
    }
    SameBookingsEvolve(s, s');
  }

  lemma EventStepEvolves(s: State, a: Action, now: Time, s': State)
    requires ClaimsRefer(s) && InventoryOk(s) && EditsOk(s)
    requires Enabled(s, a, now) && s' == Apply(s, a, now)
    requires a.InsertEvent? || a.OpenEdit? || a.CommitEdit? || a.DeleteEvent?
    ensures Evolves(s, s')
  {
    match a {
      case InsertEvent(e, change) =>
        if AddEvent(s, e, change).1.Saved? { AddEventShape(s, e, change, now, s'); }
        SameBookingsEvolve(s, s');
      case OpenEdit(_, _) => SameBookingsEvolve(s, s');
      case CommitEdit(e) => CommitEditEvolves(s, e, now, s');
      case DeleteEvent(e) => DeleteEventEvolves(s, e, now, s');
    }
  }

  lemma ReadStepEvolves(s: State, b: Id, now: Time, s': State)
    requires now > s.clock && s' == NoteConfirmed(s, b).(clock := now)
    ensures Evolves(s, s')
  {
    SameBookingsEvolve(s, s');
  }

  lemma StepEvolves(s: State, a: Action, now: Time, s': State)
    requires Inv(s) && Enabled(s, a, now) && s' == Apply(s, a, now)
    ensures Evolves(s, s')
  {
    if a.FastPath? || a.OpenCreate? || a.CommitCreate? || a.LookupCreate? {
      CreateStepEvolves(s, a, now, s');
    } else if a.PayBooking? || a.SweepBooking? || a.CancelBooking? {
      BookingStepEvolves(s, a, now, s');
    } else if a.ReadForCancel? {
      ReadStepEvolves(s, a.booking, now, s');
    } else {
      EventStepEvolves(s, a, now, s');
    }
  }

  lemma EvolvesTransitive(s: State, s': State, s'': State)
    requires Evolves(s, s') && Evolves(s', s'')
    requires forall c :: c in s.claims ==> c.seat in s.seats
    ensures Evolves(s, s'')
  {
  }

  lemma RunStepEvolves(states: seq<State>, labels: seq<Label>, i: nat)
    requires IsRun(states, labels) && i < |labels|
    ensures Evolves(states[i], states[i + 1])
    ensures forall c :: c in states[i].claims ==> c.seat in states[i].seats
  {
    RunKeepsInv(states, labels, i);
    assert StepAt(states, labels, i);
    StepEvolves(states[i], labels[i].action, labels[i].now, states[i + 1]);
  }

  lemma {:induction false} RunEvolves(states: seq<State>, labels: seq<Label>, i: nat, j: nat)
    requires IsRun(states, labels) && i <= j < |states|
    ensures Evolves(states[i], states[j])
    decreases j - i
  {
    if i == j {
      SameBookingsEvolve(states[i], states[j]);
    } else {
      RunStepEvolves(states, labels, i);
      RunEvolves(states, labels, i + 1, j);
      EvolvesTransitive(states[i], states[i + 1], states[j]);
    }
  }

  lemma RunBookingEvolves(states: seq<State>, labels: seq<Label>, i: nat, j: nat, b: Id)
    requires IsRun(states, labels) && i <= j < |states| && b in states[i].bookings
    ensures BookingEvolves(states[i], states[j], b)
    ensures ClaimsOf(states[j].claims, b) == ClaimsOf(states[i].claims, b)
  {
    RunEvolves(states, labels, i, j);
  }

  lemma RunBookingOk(states: seq<State>, labels: seq<Label>, i: nat, b: Id)
    requires IsRun(states, labels) && i < |states|
    ensures b in states[i].bookings ==> BookingOk(states[i].bookings[b], PaymentOf(states[i], b), states[i].clock)
    ensures b in states[i].payments ==> b in states[i].bookings
  {
    RunKeepsInv(states, labels, i);
  }

  lemma RunUniqueKeys(states: seq<State>, labels: seq<Label>, i: nat, a: Id, b: Id, user: Id, key: string)
    requires IsRun(states, labels) && i < |states|
    requires Keyed(states[i].bookings, a, user, key) && Keyed(states[i].bookings, b, user, key)
    ensures a == b
  {
    RunKeepsInv(states, labels, i);
  }

  // ---------------------------------------------------------------- one key, one booking

  /** The step returns booking `b` to a caller that asked with this user and key. */
  ghost predicate Answers(s: State, l: Label, user: Id, key: string, b: Id)
    requires Enabled(s, l.action, l.now)
  {
    match l.action
    case FastPath(u, k) => u == user && k == key && ExistingBooking(s.bookings, u, k) == Some(b)
    case OpenCreate(t, q) => q.user == user && q.key == Some(key) && BeginCreate(s, t, q, l.now).1 == Existing(b)
    case CommitCreate(t) =>
      var q := s.creates[t].request;
      q.user == user && q.key == Some(key) && FinishCreate(s, t, l.now).1 == Created(b)
    case LookupCreate(t) =>
      var q := s.creates[t].request;
      q.user == user && q.key == Some(key) && LookupExisting(s, t).1 == Existing(b)
    case _ => false
  }

  lemma AnswerIsKeyed(s: State, l: Label, user: Id, key: string, b: Id)
    requires Enabled(s, l.action, l.now) && Answers(s, l, user, key, b)
    ensures Keyed(Apply(s, l.action, l.now).bookings, b, user, key)
  {
    if l.action.OpenCreate? {
      OpenCreateShape'(s, l.action.txn, l.action.request, l.now);
    }
  }

  lemma OpenCreateShape'(s: State, t: Id, q: CreateRequest, now: Time)
    ensures BeginCreate(s, t, q, now).0.bookings == s.bookings
  {
  }

  /**
    However many requests with one user and key interleave, over whatever seats: at most
    one booking ever carries them, and every call that returns a booking, by whichever of
    the four ways there are, returns that one.
   */
  lemma OneKeyOneBooking(states: seq<State>, labels: seq<Label>, i: nat, j: nat, user: Id, key: string, b: Id, b': Id)
    requires IsRun(states, labels) && i <= j < |labels|
    requires StepAt(states, labels, i) && StepAt(states, labels, j)
    requires Answers(states[i], labels[i], user, key, b) && Answers(states[j], labels[j], user, key, b')
    ensures b == b'
    ensures var last := states[j + 1].bookings;
            Keyed(last, b, user, key) && forall p :: Keyed(last, p, user, key) ==> p == b
  {
    AnswerIsKeyed(states[i], labels[i], user, key, b);
    AnswerIsKeyed(states[j], labels[j], user, key, b');
    RunBookingEvolves(states, labels, i + 1, j + 1, b);
    var last := states[j + 1].bookings;
    RunUniqueKeys(states, labels, j + 1, b, b', user, key);
    forall p | Keyed(last, p, user, key) ensures p == b {
      RunUniqueKeys(states, labels, j + 1, b, p, user, key);
    }
  }

  // ---------------------------------------------------------------- what a booking costs

  lemma ClaimsOfInsert(claims: map<Claim, bool>, b: Id, seats: set<Id>)
    requires forall d :: d in claims ==> d.booking != b
    ensures ClaimsOf(claims + NewClaims(b, seats), b) == NewClaims(b, seats).Keys
    ensures |ClaimsOf(claims + NewClaims(b, seats), b)| == |seats|
    ensures forall x :: Claim(b, x) in ClaimsOf(claims + NewClaims(b, seats), b) <==> x in seats
  {
    forall c ensures c in ClaimsOf(claims + NewClaims(b, seats), b) <==> c in NewClaims(b, seats).Keys {
      InsertedClaims(claims, b, seats, c);
    }
    NewClaimsSize(b, seats);
  }

  lemma {:induction false} NewClaimsSize(b: Id, seats: set<Id>)
    ensures |NewClaims(b, seats).Keys| == |seats|
    decreases |seats|
  {
    if seats != {} {
      var x :| x in seats;
      NewClaimsSize(b, seats - {x});
      assert NewClaims(b, seats).Keys == NewClaims(b, seats - {x}).Keys + {Claim(b, x)};
    } else {
      assert NewClaims(b, seats).Keys == {};
    }
  }

  ghost predicate TermsOf(s: State, b: Id, q: CreateRequest, createdAt: Time)
  {
    && b in s.bookings
    && var bk := s.bookings[b];
    && bk.user == q.user && bk.event == q.event && Some(bk.key) == q.key
    && bk.expiresAt == createdAt + HOLD_PERIOD
    && bk.amount == q.price * |q.seatIds| == q.price * |ClaimsOf(s.claims, b)|
    && (forall x :: Claim(b, x) in ClaimsOf(s.claims, b) <==> x in q.seatIds)
  }

  lemma CreationSetsTerms(s: State, t: Id, now: Time, s': State)
    requires ClaimsRefer(s) && BookingsOk(s) && CreatesOk(s)
    requires HoldsLock(s.creates, t) && now > s.clock && s' == FinishCreate(s, t, now).0.(clock := now)
    requires InsertAllowed(s, s.creates[t])
    ensures TermsOf(s', s.nextBooking, s.creates[t].request, now)
  {
    var txn := s.creates[t];
    assert CreateOk(s, txn);
    NewBookingIsUnclaimed(s);
    ClaimsOfInsert(s.claims, s.nextBooking, txn.seats);
    assert forall x :: x in txn.seats <==> x in txn.request.seatIds;
  }

  lemma RunCreationSetsTerms(states: seq<State>, labels: seq<Label>, i: nat, t: Id, b: Id)
    requires IsRun(states, labels) && i < |labels| && StepAt(states, labels, i)
    requires labels[i].action == CommitCreate(t) && FinishCreate(states[i], t, labels[i].now).1 == Created(b)
    ensures TermsOf(states[i + 1], b, states[i].creates[t].request, labels[i].now)
  {
    RunKeepsInv(states, labels, i);
    CreationSetsTerms(states[i], t, labels[i].now, states[i + 1]);
  }

  /**
    From its creation on, a booking keeps its owner, event, key, deadline and price: the
    event price the caller saw times the number of seats asked for, which are the very
    seats it has claimed. A payment is always for that amount.
   */
  lemma BookingTerms(states: seq<State>, labels: seq<Label>, i: nat, j: nat, t: Id, b: Id)
    requires IsRun(states, labels) && i < j < |states| && StepAt(states, labels, i)
    requires labels[i].action == CommitCreate(t) && FinishCreate(states[i], t, labels[i].now).1 == Created(b)
    ensures TermsOf(states[j], b, states[i].creates[t].request, labels[i].now)
    ensures b in states[j].payments ==> states[j].payments[b].amount == states[j].bookings[b].amount
  {
    RunCreationSetsTerms(states, labels, i, t, b);
    RunBookingEvolves(states, labels, i + 1, j, b);
    RunBookingOk(states, labels, j, b);
  }

  // ---------------------------------------------------------------- charging

  ghost predicate ChargesAt(s: State, l: Label, b: Id)
  {
    l.action.PayBooking? && l.action.booking == b && Pay(s, b, l.action.success, l.now).1.Charged?
  }

  /** Real payment attempts for `b` among the first `n` steps. */
  ghost function Charges(states: seq<State>, labels: seq<Label>, b: Id, n: nat): nat
    requires n <= |labels| < |states|
  {
    if n == 0 then 0
    else Charges(states, labels, b, n - 1) + if ChargesAt(states[n - 1], labels[n - 1], b) then 1 else 0
  }

  ghost function Counted(s: State, b: Id): nat
  {
    (if b in s.bookings then s.bookings[b].retryCount else 0) + (if PaidFor(s.payments, b) then 1 else 0)
  }

  lemma PayCounts(s: State, p: Id, success: bool, now: Time, s': State, b: Id)
    requires BookingsOk(s) && s' == Pay(s, p, success, now).0.(clock := now)
    ensures Counted(s', b) == Counted(s, b) + if p == b && Pay(s, p, success, now).1.Charged? then 1 else 0
  {
    if p in s.bookings { assert BookingOk(s.bookings[p], PaymentOf(s, p), s.clock); }
  }

  lemma SweepDoesNotCount(s: State, p: Id, now: Time, s': State, b: Id)
    requires p in s.bookings && s' == Sweep(s, p, now).(clock := now)
    ensures Counted(s', b) == Counted(s, b)
  {
  }

  lemma CommitCreateDoesNotCount(s: State, t: Id, now: Time, b: Id, s': State)
    requires ClaimsRefer(s) && BookingsOk(s)
    requires HoldsLock(s.creates, t) && now > s.clock && s' == FinishCreate(s, t, now).0.(clock := now)
    ensures Counted(s', b) == Counted(s, b)
  {
    if InsertAllowed(s, s.creates[t]) {
      CommitCreateInserts(s, t, now, s');
      NewBookingIsUnclaimed(s);
    } else {
      CommitCreateRefused(s, t, now, s');
    }
  }

  lemma RunStepCounts(states: seq<State>, labels: seq<Label>, b: Id, i: nat)
    requires IsRun(states, labels) && i < |labels|
    ensures Counted(states[i + 1], b) == Counted(states[i], b) + if ChargesAt(states[i], labels[i], b) then 1 else 0
  {
    RunKeepsInv(states, labels, i);
    assert StepAt(states, labels, i);
    StepCounts(states[i], labels[i], b, states[i + 1]);
  }

  lemma BookingStepCounts(s: State, l: Label, b: Id, s': State)
    requires BookingsOk(s)
    requires Enabled(s, l.action, l.now) && s' == Apply(s, l.action, l.now)
    requires l.action.PayBooking? || l.action.SweepBooking? || l.action.CancelBooking?
    ensures Counted(s', b) == Counted(s, b) + if ChargesAt(s, l, b) then 1 else 0
  {
    match l.action {
      case PayBooking(p, success) => PayCounts(s, p, success, l.now, s', b);
      case SweepBooking(p) => SweepDoesNotCount(s, p, l.now, s', b);
      case CancelBooking(p) => assert s'.payments == s.payments;
    }
  }

  lemma StepCounts(s: State, l: Label, b: Id, s': State)
    requires ClaimsRefer(s) && BookingsOk(s)
    requires Enabled(s, l.action, l.now) && s' == Apply(s, l.action, l.now)
    ensures Counted(s', b) == Counted(s, b) + if ChargesAt(s, l, b) then 1 else 0
  {
    if l.action.CommitCreate? {
      CommitCreateDoesNotCount(s, l.action.txn, l.now, b, s');
    } else if TouchesBookings(l.action) {
      BookingStepCounts(s, l, b, s');
    } else {
      PassiveStep(s, l.action, l.now, s');
    }
  }

  lemma {:induction false} ChargesAreCounted(states: seq<State>, labels: seq<Label>, b: Id, n: nat)
    requires IsRun(states, labels) && n <= |labels|
    ensures Charges(states, labels, b, n) == Counted(states[n], b)
  {
    if n > 0 {
      ChargesAreCounted(states, labels, b, n - 1);
      RunStepCounts(states, labels, b, n - 1);
    }
  }

  /**
    Charged at most three times and paid at most once: in every run the real attempts on a
    booking are its stored retry count plus one if its payment succeeded, three in all at
    most; and each status pins down how the payment stands.
   */
  lemma ChargedAtMostOnce(states: seq<State>, labels: seq<Label>, b: Id, n: nat)
    requires IsRun(states, labels) && n <= |labels| && b in states[n].bookings
    ensures var s, bk := states[n], states[n].bookings[b];
            && Charges(states, labels, b, n) == bk.retryCount + (if PaidFor(s.payments, b) then 1 else 0) <= MAX_RETRIES
            && (bk.status in {Confirmed, Cancelled} ==> PaidFor(s.payments, b))
            && (bk.status.Failed? ==> 1 <= bk.retryCount <= 2 && PaymentOf(s, b).Some? && !PaidFor(s.payments, b))
            && (bk.status.Pending? ==> bk.retryCount == 0 && b !in s.payments)
            && (bk.retryCount == MAX_RETRIES ==> bk.status.Expired? && !PaidFor(s.payments, b))
            && (b in s.payments ==> s.payments[b].amount == bk.amount)
  {
    ChargesAreCounted(states, labels, b, n);
    RunBookingOk(states, labels, n, b);
  }

  /** A successful payment is never undone. */
  lemma SuccessIsAbsorbing(states: seq<State>, labels: seq<Label>, b: Id, i: nat, j: nat)
    requires IsRun(states, labels) && i <= j < |states| && PaidFor(states[i].payments, b)
    ensures PaidFor(states[j].payments, b)
  {
    RunBookingOk(states, labels, i, b);
    RunBookingEvolves(states, labels, i, j, b);
  }

  ghost predicate BecomesConfirmed(s: State, s': State, b: Id)
  {
    && b in s'.bookings && s'.bookings[b].status.Confirmed?
    && !(b in s.bookings && s.bookings[b].status.Confirmed?)
  }

  /** Only a charge confirms a booking, and a booking is confirmed at most once in its life. */
  lemma ConfirmedOnce(states: seq<State>, labels: seq<Label>, b: Id, i: nat, j: nat)
    requires IsRun(states, labels) && i < |labels| && j < |labels|
    requires BecomesConfirmed(states[i], states[i + 1], b) && BecomesConfirmed(states[j], states[j + 1], b)
    ensures i == j
  {
    if i < j {
      NotConfirmedAgain(states, labels, b, i, j);
    } else if j < i {
      NotConfirmedAgain(states, labels, b, j, i);
    }
  }

  lemma NotConfirmedAgain(states: seq<State>, labels: seq<Label>, b: Id, i: nat, j: nat)
    requires IsRun(states, labels) && i < j < |labels| && BecomesConfirmed(states[i], states[i + 1], b)
    ensures !BecomesConfirmed(states[j], states[j + 1], b)
  {
    RunBookingOk(states, labels, i + 1, b);
    RunBookingOk(states, labels, j, b);
    RunBookingEvolves(states, labels, i + 1, j, b);
    RunBookingEvolves(states, labels, j, j + 1, b);
  }

  /**
    A confirmed booking is not immune to its old deadline: the payment call tests expiry
    first. It stays confirmed exactly when the call comes no later than the deadline, and
    otherwise expires, gives up every seat and keeps its successful payment.
   */
  lemma ConfirmedKeptIff(states: seq<State>, labels: seq<Label>, i: nat, b: Id, success: bool)
    requires IsRun(states, labels) && i < |labels| && StepAt(states, labels, i) && labels[i].action == PayBooking(b, success)
    requires b in states[i].bookings && states[i].bookings[b].status.Confirmed?
    ensures var s, s' := states[i], states[i + 1];
            && b in s'.bookings && PaidFor(s'.payments, b)
            && (s'.bookings[b].status.Confirmed? <==> labels[i].now <= s.bookings[b].expiresAt)
            && (s'.bookings[b].status.Confirmed? || s'.bookings[b].status.Expired?)
            && (s'.bookings[b].status.Expired? ==> forall c :: Active(s'.claims, c) ==> c.booking != b)
  {
    RunBookingOk(states, labels, i, b);
    PayKeepsConfirmedIff(states[i], b, success, labels[i].now);
  }

  lemma PayKeepsConfirmedIff(s: State, b: Id, success: bool, now: Time)
    requires b in s.bookings && BookingOk(s.bookings[b], PaymentOf(s, b), s.clock) && s.bookings[b].status.Confirmed?
    ensures var s' := Pay(s, b, success, now).0;
            && b in s'.bookings && PaidFor(s'.payments, b)
            && (s'.bookings[b].status.Confirmed? <==> now <= s.bookings[b].expiresAt)
            && (s'.bookings[b].status.Confirmed? || s'.bookings[b].status.Expired?)
            && (s'.bookings[b].status.Expired? ==> forall c :: Active(s'.claims, c) ==> c.booking != b)
  {
  }
}
