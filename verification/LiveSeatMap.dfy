/** The live seat map: a snapshot on connect, then the broadcasts of the event's group. */
module LiveSeatMap {
  import opened Rows
  import opened Engine
  import opened Invariant
  import opened Preservation
  import opened Safety
  import opened Availability

  // ---------------------------------------------------------------- broadcasts

  /** One message a seat, all with the same status, to the group of one event. */
  datatype Broadcast = Silence | Announce(event: Id, numbers: set<int>, status: SeatStatus)

  /** The seat numbers of all of a booking's rows, released or not. */
  function NumbersOf(s: State, b: Id): set<int>
  {
    set c | c in s.claims && c.booking == b && c.seat in s.seats :: s.seats[c.seat].spec.number
  }

  function NumbersOfSeats(seats: map<Id, Seat>, ids: set<Id>): set<int>
  {
    set x | x in ids && x in seats :: seats[x].spec.number
  }

  /** What the step's commit callbacks send. */
  ghost function Sent(s: State, a: Action, now: Time): Broadcast
    requires Enabled(s, a, now)
  {
    match a
    case CommitCreate(t) =>
      var txn := s.creates[t];
      if FinishCreate(s, t, now).1.Created? then Announce(txn.request.event, NumbersOfSeats(s.seats, txn.seats), Locked) else Silence
    case PayBooking(b, success) =>
      var reply := Pay(s, b, success, now).1;
      if b !in s.bookings then Silence
      else if reply.Releases() then Announce(s.bookings[b].event, NumbersOf(s, b), Free)
      else if reply.Charged? && reply.success then Announce(s.bookings[b].event, NumbersOf(s, b), Booked)
      else Silence
    case SweepBooking(b) =>
      if SweepDue(s.bookings[b], now) then Announce(s.bookings[b].event, NumbersOf(s, b), Free) else Silence
    case CancelBooking(b) => Announce(s.bookings[b].event, NumbersOf(s, b), Free)
    case _ => Silence
  }

  predicate Covers(m: Broadcast, e: Id, n: int)
  {
    m.Announce? && m.event == e && n in m.numbers
  }

  function Overlay(view: map<int, SeatStatus>, e: Id, m: Broadcast): map<int, SeatStatus>
  {
    if m.Announce? && m.event == e then view + (map n | n in m.numbers :: m.status) else view
  }

  // ---------------------------------------------------------------- stored status

  /** An active claim on seat number `n` of event `e`. */
  predicate Holds(s: State, e: Id, n: int, c: Claim)
  {
    Active(s.claims, c) && Numbered(s.seats, e, c.seat) && s.seats[c.seat].spec.number == n && c.booking in s.bookings
  }

  /** The status the stored rows give a seat number, time set aside. */
  ghost predicate Stored(s: State, e: Id, n: int, status: SeatStatus)
  {
    match status
    case Free => forall c :: !Holds(s, e, n, c)
    case Locked => exists c :: Holds(s, e, n, c) && s.bookings[c.booking].status.Open()
    case Booked => exists c :: Holds(s, e, n, c) && s.bookings[c.booking].status.Confirmed?
  }

  predicate SameClass(a: Status, b: Status)
  {
    (a.Open() <==> b.Open()) && (a.Confirmed? <==> b.Confirmed?)
  }

  /** Nothing about who holds number `n`, and how, has changed. */
  ghost predicate SameHolders(s: State, s': State, e: Id, n: int)
  {
    && (forall c :: Holds(s', e, n, c) <==> Holds(s, e, n, c))
    && (forall c :: Holds(s, e, n, c) ==>
          && SameClass(s.bookings[c.booking].status, s'.bookings[c.booking].status)
          && s'.bookings[c.booking].expiresAt == s.bookings[c.booking].expiresAt)
  }

  /** The calls a well-behaved client makes: no payment on a dead booking, no cancellation from a stale read. */
  predicate Guarded(s: State, a: Action)
  {
    match a
    case PayBooking(b, _) => b in s.bookings ==> s.bookings[b].status.Live()
    case CancelBooking(b) => b in s.bookings ==> s.bookings[b].status.Confirmed?
    case _ => true
  }

  /** What a broadcast must do: announce the stored status where it speaks, and speak where it changes. */
  ghost predicate Faithful(s: State, s': State, m: Broadcast, e: Id, n: int)
  {
    if Covers(m, e, n) then Stored(s', e, n, m.status) else SameHolders(s, s', e, n)
  }

  // ---------------------------------------------------------------- each step is faithful

  lemma ReleasedActive(claims: map<Claim, bool>, b: Id, c: Claim)
    ensures Active(Released(claims, b), c) <==> Active(claims, c) && c.booking != b
  {
  }

  lemma QuietRowChange(s: State, s': State, b: Id, e: Id, n: int)
    requires ClaimsRefer(s) && InStep(s.bookings, s.claims) && RowChange(s, s', b)
    requires s.bookings[b].event == e && n in NumbersOf(s, b) ==> SameClass(s.bookings[b].status, s'.bookings[b].status)
    ensures SameHolders(s, s', e, n)
  {
    RowChangeClaims(s, s', b);
    forall c ensures Holds(s', e, n, c) <==> Holds(s, e, n, c) {
      if Holds(s, e, n, c) && c.booking == b { assert n in NumbersOf(s, b); }
      ReleasedActive(s.claims, b, c);
    }
  }

  lemma ReleaseFrees(s: State, s': State, b: Id, e: Id, n: int)
    requires ClaimsRefer(s) && InStep(s.bookings, s.claims) && OneActive(s.claims) && InventoryOk(s) && RowChange(s, s', b)
    requires s.bookings[b].status.Live() && !s'.bookings[b].status.Live()
    requires e == s.bookings[b].event && n in NumbersOf(s, b)
    ensures Stored(s', e, n, Free)
  {
    var own :| own in s.claims && own.booking == b && own.seat in s.seats && s.seats[own.seat].spec.number == n;
    forall c ensures !Holds(s', e, n, c) {
      ReleasedActive(s.claims, b, c);
      if Holds(s', e, n, c) {
        assert Active(s.claims, c) && Active(s.claims, own);
        SameNumberSameSeat(s, e, c.seat, own.seat);
      }
    }
  }

  lemma SameNumberSameSeat(s: State, e: Id, x: Id, y: Id)
    requires ClaimsRefer(s) && InventoryOk(s) && Numbered(s.seats, e, x) && Numbered(s.seats, e, y)
    requires s.seats[x].spec.number == s.seats[y].spec.number
    ensures x == y
  {
    assert ExactNumbers(s.seats, e, s.events[e].totalSeats);
  }

  lemma ConfirmationBooks(s: State, s': State, b: Id, e: Id, n: int)
    requires ClaimsRefer(s) && InStep(s.bookings, s.claims) && RowChange(s, s', b)
    requires s'.bookings[b].status.Confirmed? && e == s.bookings[b].event && n in NumbersOf(s, b)
    ensures Stored(s', e, n, Booked)
  {
    var own :| own in s.claims && own.booking == b && own.seat in s.seats && s.seats[own.seat].spec.number == n;
    assert Holds(s', e, n, own);
  }

  lemma InsertionLocks(s: State, t: Id, s': State, e: Id, n: int)
    requires ClaimsRefer(s) && BookingsOk(s) && CreatesOk(s) && Inserted(s, t, s')
    requires e == s.creates[t].request.event && n in NumbersOfSeats(s.seats, s.creates[t].seats)
    ensures Stored(s', e, n, Locked)
  {
    var txn := s.creates[t];
    assert CreateOk(s, txn);
    NewBookingIsUnclaimed(s);
    var x :| x in txn.seats && x in s.seats && s.seats[x].spec.number == n;
    InsertedClaims(s.claims, s.nextBooking, txn.seats, Claim(s.nextBooking, x));
    assert Numbered(s.seats, txn.request.event, x);
    assert Holds(s', e, n, Claim(s.nextBooking, x));
  }

  lemma SameOwners(s: State, s': State, e: Id, n: int)
    requires forall c :: Holds(s', e, n, c) <==> Holds(s, e, n, c)
    requires forall b :: b in s.bookings ==> b in s'.bookings && s'.bookings[b] == s.bookings[b]
    ensures SameHolders(s, s', e, n)
  {
  }

  lemma InsertionQuiet(s: State, t: Id, s': State, e: Id, n: int)
    requires ClaimsRefer(s) && BookingsOk(s) && CreatesOk(s) && Inserted(s, t, s')
    requires e != s.creates[t].request.event || n !in NumbersOfSeats(s.seats, s.creates[t].seats)
    ensures SameHolders(s, s', e, n)
  {
    assert CreateOk(s, s.creates[t]);
    NewBookingIsUnclaimed(s);
    forall c ensures Holds(s', e, n, c) <==> Holds(s, e, n, c) {
      InsertedClaimQuiet(s, t, s', e, n, c);
    }
    SameOwners(s, s', e, n);
  }

  lemma InsertedClaimQuiet(s: State, t: Id, s': State, e: Id, n: int, c: Claim)
    requires Inserted(s, t, s') && CreateOk(s, s.creates[t])
    requires forall d :: d in s.claims ==> d.booking != s.nextBooking && d.booking in s.bookings
    requires e != s.creates[t].request.event || n !in NumbersOfSeats(s.seats, s.creates[t].seats)
    ensures Holds(s', e, n, c) <==> Holds(s, e, n, c)
  {
    var txn := s.creates[t];
    InsertedClaims(s.claims, s.nextBooking, txn.seats, c);
    assert c.seat in txn.seats ==> Numbered(s.seats, txn.request.event, c.seat);
  }

  lemma SameSeatsSameHolders(s: State, s': State, e: Id, n: int)
    requires ClaimsRefer(s) && s'.bookings == s.bookings && s'.claims == s.claims
    requires forall c :: c in s.claims ==> c.seat in s'.seats && s'.seats[c.seat] == s.seats[c.seat]
    ensures SameHolders(s, s', e, n)
  {
  }

  lemma StepIsRowChange(s: State, a: Action, now: Time, s': State)
    requires Inv(s) && Enabled(s, a, now) && s' == Apply(s, a, now)
    requires a.PayBooking? || a.SweepBooking? || a.CancelBooking?
    ensures a.booking in s.bookings ==> RowChange(s, s', a.booking)
    ensures a.booking !in s.bookings ==> s' == s.(clock := now)
  {
    BookingStepKeepsInv(s, a, now, s');
  }

  lemma RowStepFaithful(s: State, a: Action, now: Time, s': State, e: Id, n: int)
    requires Inv(s) && Enabled(s, a, now) && s' == Apply(s, a, now) && Guarded(s, a)
    requires a.PayBooking? || a.SweepBooking? || a.CancelBooking?
    ensures Faithful(s, s', Sent(s, a, now), e, n)
  {
    StepIsRowChange(s, a, now, s');
    ChangeFaithful(s, a, now, s', e, n);
  }

  lemma ChangeFaithful(s: State, a: Action, now: Time, s': State, e: Id, n: int)
    requires ClaimsRefer(s) && InStep(s.bookings, s.claims) && OneActive(s.claims) && InventoryOk(s) && BookingsOk(s)
    requires Enabled(s, a, now) && s' == Apply(s, a, now) && Guarded(s, a)
    requires a.PayBooking? || a.SweepBooking? || a.CancelBooking?
    requires a.booking in s.bookings ==> RowChange(s, s', a.booking)
    requires a.booking !in s.bookings ==> s' == s.(clock := now)
    ensures Faithful(s, s', Sent(s, a, now), e, n)
  {
    if a.booking in s.bookings {
      SentMatchesChange(s, a, now, s');
      RowChangeFaithful(s, s', a.booking, Sent(s, a, now), e, n);
    } else {
      SameSeatsSameHolders(s, s', e, n);
    }
  }

  /** How the message of a booking step goes with the change of the booking's status. */
  ghost predicate MessageFits(s: State, s': State, b: Id, m: Broadcast)
    requires b in s.bookings && b in s'.bookings
  {
    var before, after := s.bookings[b].status, s'.bookings[b].status;
    match m
    case Silence => SameClass(before, after)
    case Announce(event, numbers, status) =>
      && event == s.bookings[b].event && numbers == NumbersOf(s, b)
      && (status.Free? ==> before.Live() && !after.Live())
      && (status.Booked? ==> after.Confirmed?)
      && !status.Locked?
  }

  lemma PaymentMessageFits(s: State, b: Id, success: bool, now: Time, s': State)
    requires b in s.bookings && BookingOk(s.bookings[b], PaymentOf(s, b), s.clock) && now > s.clock
    requires s.bookings[b].status.Live() && s' == Pay(s, b, success, now).0.(clock := now)
    ensures b in s'.bookings && MessageFits(s, s', b, Sent(s, PayBooking(b, success), now))
  {
    PayRowsLegal(s.bookings[b], PaymentOf(s, b), success, s.clock, now);
  }

  lemma ReleaseMessageFits(s: State, a: Action, now: Time, s': State)
    requires Enabled(s, a, now) && s' == Apply(s, a, now) && Guarded(s, a)
    requires a.SweepBooking? || a.CancelBooking?
    requires a.booking in s.bookings
    ensures a.booking in s'.bookings && MessageFits(s, s', a.booking, Sent(s, a, now))
  {
  }

  lemma SentMatchesChange(s: State, a: Action, now: Time, s': State)
    requires BookingsOk(s) && Enabled(s, a, now) && s' == Apply(s, a, now) && Guarded(s, a)
    requires a.PayBooking? || a.SweepBooking? || a.CancelBooking?
    requires a.booking in s.bookings
    ensures a.booking in s'.bookings && MessageFits(s, s', a.booking, Sent(s, a, now))
  {
    if a.PayBooking? {
      assert BookingOk(s.bookings[a.booking], PaymentOf(s, a.booking), s.clock);
      PaymentMessageFits(s, a.booking, a.success, now, s');
    } else {
      ReleaseMessageFits(s, a, now, s');
    }
  }

  lemma RowChangeFaithful(s: State, s': State, b: Id, m: Broadcast, e: Id, n: int)
    requires ClaimsRefer(s) && InStep(s.bookings, s.claims) && OneActive(s.claims) && InventoryOk(s)
    requires RowChange(s, s', b) && MessageFits(s, s', b, m)
    ensures Faithful(s, s', m, e, n)
  {
    if Covers(m, e, n) {
      if m.status.Free? { ReleaseFrees(s, s', b, e, n); } else { ConfirmationBooks(s, s', b, e, n); }
    } else {
      QuietRowChange(s, s', b, e, n);
    }
  }

  lemma CommitCreateFaithful(s: State, t: Id, now: Time, s': State, e: Id, n: int)
    requires ClaimsRefer(s) && BookingsOk(s) && CreatesOk(s) && HoldsLock(s.creates, t) && now > s.clock
    requires s' == FinishCreate(s, t, now).0.(clock := now)
    ensures Faithful(s, s', Sent(s, CommitCreate(t), now), e, n)
  {
    if InsertAllowed(s, s.creates[t]) {
      CommitCreateInserts(s, t, now, s');
      if Covers(Sent(s, CommitCreate(t), now), e, n) {
        InsertionLocks(s, t, s', e, n);
      } else {
        InsertionQuiet(s, t, s', e, n);
      }
    } else {
      CommitCreateRefused(s, t, now, s');
      SameSeatsSameHolders(s, s', e, n);
    }
  }

  lemma StepFaithful(s: State, a: Action, now: Time, s': State, e: Id, n: int)
    requires Inv(s) && Enabled(s, a, now) && s' == Apply(s, a, now) && Guarded(s, a)
    ensures Faithful(s, s', Sent(s, a, now), e, n)
  {
    if a.CommitCreate? {
      CommitCreateFaithful(s, a.txn, now, s', e, n);
    } else if TouchesBookings(a) {
      RowStepFaithful(s, a, now, s', e, n);
    } else {
      PassiveStep(s, a, now, s');
      StepEvolves(s, a, now, s');
      SameSeatsSameHolders(s, s', e, n);
    }
  }

  // ---------------------------------------------------------------- exactly when a release is announced truly

  /**
    A release announces "available" for every row the booking ever had. That is true of a
    seat exactly when no other booking holds it; a live booking guarantees it.
   */
  lemma ReleaseAccurateIff(s: State, s': State, b: Id, n: int)
    requires ClaimsRefer(s) && InStep(s.bookings, s.claims) && OneActive(s.claims) && InventoryOk(s)
    requires RowChange(s, s', b) && !s'.bookings[b].status.Live() && n in NumbersOf(s, b)
    ensures Stored(s', s.bookings[b].event, n, Free) <==> !HeldByOther(s, s.bookings[b].event, n, b)
    ensures s.bookings[b].status.Live() ==> !HeldByOther(s, s.bookings[b].event, n, b)
  {
    var e := s.bookings[b].event;
    ReleaseKeepsOthers(s, s', b, e, n);
    if s.bookings[b].status.Live() { ReleaseFrees(s, s', b, e, n); }
  }

  /**
    In every run: when a step tells the viewers that seats are available, that is true of a
    seat exactly when no booking but the released one held it.
   */
  lemma AnnouncedReleaseIff(states: seq<State>, labels: seq<Label>, i: nat, event: Id, numbers: set<int>, n: int)
    requires IsRun(states, labels) && i < |labels| && StepAt(states, labels, i) && n in numbers
    requires Sent(states[i], labels[i].action, labels[i].now) == Announce(event, numbers, Free)
    ensures var a := labels[i].action;
            && (a.PayBooking? || a.SweepBooking? || a.CancelBooking?)
            && (Stored(states[i + 1], event, n, Free) <==> !HeldByOther(states[i], event, n, a.booking))
  {
    var s, a, now, s' := states[i], labels[i].action, labels[i].now, states[i + 1];
    RunKeepsInv(states, labels, i);
    FreeIsRelease(s, a, now, s');
    BookingStepKeepsInv(s, a, now, s');
    ReleaseAccurateIff(s, s', a.booking, n);
  }

  lemma FreeIsRelease(s: State, a: Action, now: Time, s': State)
    requires BookingsOk(s) && Enabled(s, a, now) && s' == Apply(s, a, now)
    requires Sent(s, a, now).Announce? && Sent(s, a, now).status.Free?
    ensures a.PayBooking? || a.SweepBooking? || a.CancelBooking?
    ensures a.booking in s.bookings && a.booking in s'.bookings && !s'.bookings[a.booking].status.Live()
    ensures Sent(s, a, now) == Announce(s.bookings[a.booking].event, NumbersOf(s, a.booking), Free)
  {
    if a.PayBooking? {
      assert BookingOk(s.bookings[a.booking], PaymentOf(s, a.booking), s.clock);
      PayRowsLegal(s.bookings[a.booking], PaymentOf(s, a.booking), a.success, s.clock, now);
    }
  }

  ghost predicate HeldByOther(s: State, e: Id, n: int, b: Id)
  {
    exists c :: Holds(s, e, n, c) && c.booking != b
  }

  lemma ReleaseKeepsOthers(s: State, s': State, b: Id, e: Id, n: int)
    requires InStep(s.bookings, s.claims) && RowChange(s, s', b) && !s'.bookings[b].status.Live()
    ensures forall c :: Holds(s', e, n, c) <==> Holds(s, e, n, c) && c.booking != b
  {
    forall c ensures Holds(s', e, n, c) <==> Holds(s, e, n, c) && c.booking != b {
      ReleasedActive(s.claims, b, c);
    }
  }

  // ---------------------------------------------------------------- the client's view over a run

  ghost predicate GuardedRun(states: seq<State>, labels: seq<Label>)
  {
    IsRun(states, labels) && forall i :: 0 <= i < |labels| ==> Guarded(states[i], labels[i].action)
  }

  ghost predicate SentAt(states: seq<State>, labels: seq<Label>, i: nat, m: Broadcast)
    requires i < |labels| && |states| == |labels| + 1
  {
    Enabled(states[i], labels[i].action, labels[i].now) && m == Sent(states[i], labels[i].action, labels[i].now)
  }

  /** The messages of a run, one entry a step. */
  ghost predicate IsTraffic(states: seq<State>, labels: seq<Label>, msgs: seq<Broadcast>)
    requires IsRun(states, labels)
  {
    |msgs| == |labels| && forall i :: 0 <= i < |labels| ==> SentAt(states, labels, i, msgs[i])
  }

  /**
    What the client shows after receiving, on top of its snapshot, every message sent to
    the group since it joined: also those sent before the snapshot was taken.
   */
  function View(msgs: seq<Broadcast>, e: Id, join: nat, snapshot: map<int, SeatStatus>, k: nat): map<int, SeatStatus>
    requires join <= k <= |msgs|
  {
    if k == join then snapshot else Overlay(View(msgs, e, join, snapshot, k - 1), e, msgs[k - 1])
  }

  /** A message about number `n` has been sent in [lo, hi). */
  predicate Touched(msgs: seq<Broadcast>, e: Id, n: int, lo: nat, hi: nat)
    requires lo <= hi <= |msgs|
  {
    exists i :: lo <= i < hi && Covers(msgs[i], e, n)
  }

  ghost predicate FaithfulAt(states: seq<State>, msgs: seq<Broadcast>, e: Id, n: int, i: nat)
    requires i < |msgs| < |states|
  {
    Faithful(states[i], states[i + 1], msgs[i], e, n)
  }

  ghost predicate FaithfulTraffic(states: seq<State>, msgs: seq<Broadcast>, e: Id, n: int)
  {
    |states| == |msgs| + 1 && forall i :: 0 <= i < |msgs| ==> FaithfulAt(states, msgs, e, n, i)
  }

  lemma TrafficIsFaithful(states: seq<State>, labels: seq<Label>, msgs: seq<Broadcast>, e: Id, n: int)
    requires GuardedRun(states, labels) && IsTraffic(states, labels, msgs)
    ensures FaithfulTraffic(states, msgs, e, n)
  {
    forall i | 0 <= i < |msgs| ensures FaithfulAt(states, msgs, e, n, i) {
      RunKeepsInv(states, labels, i);
      assert StepAt(states, labels, i) && SentAt(states, labels, i, msgs[i]);
      StepFaithful(states[i], labels[i].action, labels[i].now, states[i + 1], e, n);
    }
  }

  lemma OverlayShows(view: map<int, SeatStatus>, e: Id, m: Broadcast, n: int)
    ensures var after := Overlay(view, e, m);
            if Covers(m, e, n) then n in after && after[n] == m.status
            else (n in after <==> n in view) && (n in view ==> after[n] == view[n])
  {
  }

  lemma StoredStays(s: State, s': State, e: Id, n: int, status: SeatStatus)
    requires SameHolders(s, s', e, n) && Stored(s, e, n, status)
    ensures Stored(s', e, n, status)
  {
  }

  /** Once a number has been spoken of, the view shows its stored status, whatever the snapshot said. */
  lemma {:induction false} TouchedShowsStored(
      states: seq<State>, msgs: seq<Broadcast>, e: Id, n: int, join: nat, snapshot: map<int, SeatStatus>, k: nat)
    requires FaithfulTraffic(states, msgs, e, n) && join <= k <= |msgs| && Touched(msgs, e, n, join, k)
    ensures var view := View(msgs, e, join, snapshot, k);
            n in view && Stored(states[k], e, n, view[n])
    decreases k
  {
    var before := View(msgs, e, join, snapshot, k - 1);
    assert FaithfulAt(states, msgs, e, n, k - 1);
    OverlayShows(before, e, msgs[k - 1], n);
    if !Covers(msgs[k - 1], e, n) {
      TouchedShowsStored(states, msgs, e, n, join, snapshot, k - 1);
      StoredStays(states[k - 1], states[k], e, n, before[n]);
    }
  }

  /** Until a number is spoken of, the view shows the snapshot. */
  lemma {:induction false} UntouchedShowsSnapshot(
      msgs: seq<Broadcast>, e: Id, n: int, join: nat, snapshot: map<int, SeatStatus>, k: nat)
    requires join <= k <= |msgs| && !Touched(msgs, e, n, join, k)
    ensures var view := View(msgs, e, join, snapshot, k);
            (n in view <==> n in snapshot) && (n in view ==> view[n] == snapshot[n])
    decreases k
  {
    if k > join {
      UntouchedShowsSnapshot(msgs, e, n, join, snapshot, k - 1);
      assert !Covers(msgs[k - 1], e, n);
      OverlayShows(View(msgs, e, join, snapshot, k - 1), e, msgs[k - 1], n);
    }
  }

  lemma {:induction false} UntouchedHolders(states: seq<State>, msgs: seq<Broadcast>, e: Id, n: int, lo: nat, hi: nat)
    requires FaithfulTraffic(states, msgs, e, n) && lo <= hi <= |msgs| && !Touched(msgs, e, n, lo, hi)
    ensures SameHolders(states[lo], states[hi], e, n)
    decreases hi
  {
    if hi > lo {
      UntouchedHolders(states, msgs, e, n, lo, hi - 1);
      assert FaithfulAt(states, msgs, e, n, hi - 1) && !Covers(msgs[hi - 1], e, n);
      HoldersTransitive(states[lo], states[hi - 1], states[hi], e, n);
    }
  }

  lemma HoldersTransitive(s: State, s': State, s'': State, e: Id, n: int)
    requires SameHolders(s, s', e, n) && SameHolders(s', s'', e, n)
    ensures SameHolders(s, s'', e, n)
  {
  }

  /** A hold on seat `x` that is over at `now` but not swept. */
  ghost predicate UnderLapsedHold(s: State, x: Id, now: Time)
  {
    exists c :: Active(s.claims, c) && c.seat == x && c.booking in s.bookings &&
      s.bookings[c.booking].status.Open() && s.bookings[c.booking].expiresAt <= now
  }

  lemma TakenHolds(s: State, e: Id, x: Id, now: Time, c: Claim)
    requires InStep(s.bookings, s.claims) && Numbered(s.seats, e, x)
    requires c in s.claims && Taken(s.bookings, c, now) && c.seat == x
    ensures Holds(s, e, s.seats[x].spec.number, c)
  {
  }

  lemma HoldsTaken(s: State, e: Id, x: Id, now: Time, c: Claim)
    requires ClaimsRefer(s) && InStep(s.bookings, s.claims) && InventoryOk(s) && Numbered(s.seats, e, x)
    requires Holds(s, e, s.seats[x].spec.number, c)
    ensures c.seat == x
    ensures !UnderLapsedHold(s, x, now) ==> Taken(s.bookings, c, now)
  {
    SameNumberSameSeat(s, e, c.seat, x);
  }

  /** Away from lapsed holds the timed status and the stored status are the same. */
  lemma StatusIsStored(s: State, e: Id, x: Id, now: Time)
    requires ClaimsRefer(s) && InStep(s.bookings, s.claims) && OneActive(s.claims) && InventoryOk(s)
    requires Numbered(s.seats, e, x)
    ensures !UnderLapsedHold(s, x, now) ==> forall status :: Stored(s, e, s.seats[x].spec.number, status) <==> StatusOf(s, x, now) == status
  {
    var n := s.seats[x].spec.number;
    forall c | c in s.claims && Taken(s.bookings, c, now) && c.seat == x ensures Holds(s, e, n, c) {
      TakenHolds(s, e, x, now, c);
    }
    forall c | Holds(s, e, n, c)
      ensures c.seat == x
      ensures !UnderLapsedHold(s, x, now) ==> Taken(s.bookings, c, now)
    {
      HoldsTaken(s, e, x, now, c);
    }
    if !UnderLapsedHold(s, x, now) { SameStatus(s, e, x, now); }
  }

  lemma SameStatus(s: State, e: Id, x: Id, now: Time)
    requires OneActive(s.claims) && Numbered(s.seats, e, x)
    requires forall c :: Holds(s, e, s.seats[x].spec.number, c) <==> c in s.claims && Taken(s.bookings, c, now) && c.seat == x
    ensures forall status :: Stored(s, e, s.seats[x].spec.number, status) <==> StatusOf(s, x, now) == status
  {
  }

  ghost predicate Readable(s: State)
  {
    ClaimsRefer(s) && InStep(s.bookings, s.claims) && OneActive(s.claims) && InventoryOk(s)
  }

  lemma SnapshotStays(
      s: State, s': State, e: Id, x: Id, takenAt: Time, snapshot: map<int, SeatStatus>, now: Time)
    requires Readable(s) && Readable(s')
    requires IsStatusMap(s, e, takenAt, snapshot) && takenAt <= now
    requires Numbered(s'.seats, e, x) && s'.seats[x].spec.number in snapshot
    requires SameHolders(s, s', e, s'.seats[x].spec.number)
    requires !UnderLapsedHold(s', x, now)
    ensures snapshot[s'.seats[x].spec.number] == StatusOf(s', x, now)
  {
    var n := s'.seats[x].spec.number;
    assert ShowsStatus(s, e, takenAt, n, snapshot[n]);
    var y :| Numbered(s.seats, e, y) && s.seats[y].spec.number == n && StatusOf(s, y, takenAt) == snapshot[n];
    StatusIsStored(s, e, y, takenAt);
    StatusIsStored(s', e, x, now);
    if UnderLapsedHold(s, y, takenAt) {
      LapsedHoldStays(s, s', e, n, y, x, takenAt, now);
    } else {
      StoredStays(s, s', e, n, snapshot[n]);
    }
  }

  lemma LapsedHoldStays(s: State, s': State, e: Id, n: int, y: Id, x: Id, takenAt: Time, now: Time)
    requires Readable(s') && SameHolders(s, s', e, n) && takenAt <= now
    requires Numbered(s.seats, e, y) && s.seats[y].spec.number == n && UnderLapsedHold(s, y, takenAt)
    requires Numbered(s'.seats, e, x) && s'.seats[x].spec.number == n
    ensures UnderLapsedHold(s', x, now)
  {
    var c :| Active(s.claims, c) && c.seat == y && c.booking in s.bookings &&
      s.bookings[c.booking].status.Open() && s.bookings[c.booking].expiresAt <= takenAt;
    assert Holds(s, e, n, c) && Holds(s', e, n, c);
    SameNumberSameSeat(s', e, c.seat, x);
  }

  lemma RunReadable(states: seq<State>, labels: seq<Label>, i: nat)
    requires IsRun(states, labels) && i < |states|
    ensures Readable(states[i])
  {
    RunKeepsInv(states, labels, i);
  }

  /**
    A client that joins the group at one point of a run, takes its snapshot at a later
    one and then applies every message sent since it joined, in order, shows for each
    seat the status the rows give it now, except for seats under a lapsed hold.
   */
  lemma ViewMatchesRows(
      states: seq<State>, labels: seq<Label>, msgs: seq<Broadcast>, e: Id, x: Id, join: nat, taken: nat, takenAt: Time,
      snapshot: map<int, SeatStatus>, k: nat, now: Time)
    requires GuardedRun(states, labels) && IsTraffic(states, labels, msgs) && join <= taken <= k <= |labels|
    requires IsStatusMap(states[taken], e, takenAt, snapshot) && takenAt <= now
    requires Numbered(states[k].seats, e, x) && !UnderLapsedHold(states[k], x, now)
    ensures var view, n := View(msgs, e, join, snapshot, k), states[k].seats[x].spec.number;
            && (n in snapshot ==> n in view)
            && (n in view ==> view[n] == StatusOf(states[k], x, now))
  {
    var n := states[k].seats[x].spec.number;
    TrafficIsFaithful(states, labels, msgs, e, n);
    RunReadable(states, labels, k);
    if Touched(msgs, e, n, join, k) {
      TouchedShowsStored(states, msgs, e, n, join, snapshot, k);
      StatusIsStored(states[k], e, x, now);
    } else {
      UntouchedShowsSnapshot(msgs, e, n, join, snapshot, k);
      if n in snapshot {
        RunReadable(states, labels, taken);
        UntouchedHolders(states, msgs, e, n, taken, k);
        SnapshotStays(states[taken], states[k], e, x, takenAt, snapshot, now);
      }
    }
  }
}
