/** Every step of the engine keeps the invariant. */
module Preservation {
  import opened Wrappers
  import opened SeatLayout
  import opened Rows
  import opened Engine
  import opened Invariant

  lemma TickKeepsInv(s: State, now: Time)
    requires Inv(s) && now >= s.clock
    ensures Inv(s.(clock := now))
  {
    var s' := s.(clock := now);
    BookingsFrame(s, s');
    CreatesFrame(s, s');
    EditsFrame(s, s');
  }

  // ---------------------------------------------------------------- creating a booking

  /** A seat without a taken row carries at most claims whose hold has lapsed. */
  lemma CleanReadLeavesOnlyLapsed(s: State, rows: set<Id>, now: Time)
    requires InStep(s.bookings, s.claims) && UnavailableSeats(s.bookings, s.claims, rows, now) == {}
    ensures OnlyLapsed(s.bookings, s.claims, rows, now)
  {
    forall c | Active(s.claims, c) && c.seat in rows && c.booking in s.bookings
      ensures s.bookings[c.booking].status.Open() && s.bookings[c.booking].expiresAt <= now
    {
      assert Taken(s.bookings, c, now) ==> c.seat in UnavailableSeats(s.bookings, s.claims, rows, now);
    }
  }

  /** The duplicate check of the source is never reached: the row count has caught duplicates already. */
  lemma DistinctOnceCounted(s: State, q: CreateRequest)
    requires |LockedRows(s, q)| == |q.seatIds|
    ensures |Distinct(q.seatIds)| == |q.seatIds| && LockedRows(s, q) == Distinct(q.seatIds)
  {
    DistinctBound(q.seatIds);
    var rows, ids := LockedRows(s, q), Distinct(q.seatIds);
    SubsetSize(rows, ids);
    assert forall x :: x in q.seatIds ==> x in ids;
  }

  lemma {:induction false} DistinctBound(ids: seq<Id>)
    ensures |Distinct(ids)| <= |ids|
  {
    if ids != [] {
      var front, last := ids[..|ids| - 1], ids[|ids| - 1];
      DistinctBound(front);
      var all, some := Distinct(ids), Distinct(front);
      assert ids == front + [last];
      assert all == some + {last};
      assert |some + {last}| <= |some| + 1;
    }
  }

  lemma SubsetSize<T>(a: set<T>, b: set<T>)
    requires a <= b
    ensures |a| <= |b|
    ensures |a| == |b| ==> a == b
  {
    var extra := b - a;
    assert b == a + extra;
  }

  lemma LocksGrow(s: State, t: Id, txn: CreateTxn)
    requires LocksDisjoint(s.creates, s.edits) && t !in s.creates && SeatsUnlocked(s, txn.seats)
    ensures LocksDisjoint(s.creates[t := txn], s.edits)
  {
    var creates' := s.creates[t := txn];
    forall u, v | HoldsLock(creates', u) && HoldsLock(creates', v) && u != v
      ensures creates'[u].seats !! creates'[v].seats
    {
      assert u != t ==> HoldsLock(s.creates, u);
      assert v != t ==> HoldsLock(s.creates, v);
    }
    forall u, e | HoldsLock(creates', u) && e in s.edits ensures creates'[u].seats !! s.edits[e].removed {
      assert u != t ==> HoldsLock(s.creates, u);
    }
  }

  /** The first half of a creation either leaves the rows alone or adds a transaction that read cleanly. */
  lemma OpenCreateShape(s: State, t: Id, q: CreateRequest, now: Time, s': State)
    requires InStep(s.bookings, s.claims) && now > s.clock
    requires s' == BeginCreate(s, t, q, now).0.(clock := now)
    ensures s' == s.(clock := now) || Joined(s, t, LockedRows(s, q), now, s')
  {
    if BeginCreate(s, t, q, now).1.Reading? {
      var rows := LockedRows(s, q);
      DistinctOnceCounted(s, q);
      CleanReadLeavesOnlyLapsed(s, rows, now);
      assert forall x :: x in rows ==> Numbered(s.seats, q.event, x);
      assert s'.creates == s.creates[t := CreateTxn(q, rows, Holding(now))];
    }
  }

  ghost predicate Joined(s: State, t: Id, rows: set<Id>, now: Time, s': State)
  {
    && t in s'.creates && s'.creates[t].phase.Holding? && s'.creates[t].seats == rows
    && s' == s.(clock := now, creates := s.creates[t := s'.creates[t]])
    && CreateOk(s', s'.creates[t])
  }

  lemma JoinKeepsCreates(s: State, t: Id, rows: set<Id>, now: Time, s': State)
    requires CreatesOk(s) && t !in s.creates && now > s.clock && Joined(s, t, rows, now, s')
    ensures CreatesOk(s')
  {
    forall u | HoldsLock(s'.creates, u) ensures CreateOk(s', s'.creates[u]) {
      if u != t { assert HoldsLock(s.creates, u) && CreateOk(s, s.creates[u]); }
    }
  }

  lemma JoinKeepsInv(s: State, t: Id, rows: set<Id>, now: Time, s': State)
    requires Inv(s) && t !in s.creates && SeatsUnlocked(s, rows) && now > s.clock
    requires Joined(s, t, rows, now, s')
    ensures Inv(s')
  {
    BookingsFrame(s, s');
    EditsFrame(s, s');
    JoinKeepsCreates(s, t, rows, now, s');
    LocksGrow(s, t, s'.creates[t]);
  }

  lemma OpenCreateKeepsInv(s: State, t: Id, q: CreateRequest, now: Time, s': State)
    requires Inv(s) && t !in s.creates && SeatsUnlocked(s, LockedRows(s, q)) && now > s.clock
    requires s' == BeginCreate(s, t, q, now).0.(clock := now)
    ensures Inv(s')
  {
    OpenCreateShape(s, t, q, now, s');
    if s' == s.(clock := now) {
      TickKeepsInv(s, now);
    } else {
      JoinKeepsInv(s, t, LockedRows(s, q), now, s');
    }
  }

  /** Ending a creation without inserting anything. */
  lemma EndCreateKeepsInv(s: State, s': State)
    requires Inv(s)
    requires s' == s.(creates := s'.creates, clock := s'.clock) && s'.clock >= s.clock
    requires forall t :: HoldsLock(s'.creates, t) ==> HoldsLock(s.creates, t) && s'.creates[t] == s.creates[t]
    ensures Inv(s')
  {
    BookingsFrame(s, s');
    CreatesFrame(s, s');
    EditsFrame(s, s');
    LocksFrame(s.creates, s'.creates, s.edits);
  }

  /** After an insert every claim is an old one, unchanged, or a new active one of the new booking. */
  lemma InsertedClaims(claims: map<Claim, bool>, b: Id, seats: set<Id>, c: Claim)
    requires forall d :: d in claims ==> d.booking != b
    ensures var all := claims + NewClaims(b, seats);
            && (c in all <==> c in claims || (c.booking == b && c.seat in seats))
            && (c in claims ==> all[c] == claims[c])
            && (c.booking == b && c.seat in seats ==> all[c])
  {
    var added := NewClaims(b, seats);
    assert c in added <==> c.booking == b && c.seat in seats;
  }

  /** The committed rows of a successful creation, described from outside. */
  ghost predicate Inserted(s: State, t: Id, s': State)
  {
    HoldsLock(s.creates, t) &&
    var txn, b := s.creates[t], s.nextBooking;
    && InsertAllowed(s, txn)
    && b in s'.bookings && s'.bookings == s.bookings[b := s'.bookings[b]]
    && s'.bookings[b].status.Pending? && s'.bookings[b].retryCount == 0
    && s'.bookings[b].user == txn.request.user && s'.bookings[b].event == txn.request.event
    && s'.bookings[b].key == txn.request.key.value
    && s'.bookings[b].amount == txn.request.price * |txn.seats| && s'.bookings[b].expiresAt == s'.clock + HOLD_PERIOD
    && s'.nextBooking == b + 1
    && s'.claims == s.claims + NewClaims(b, txn.seats)
    && s'.creates == s.creates - {t}
    && s'.payments == s.payments && s'.stale == s.stale && s'.edits == s.edits
    && SameInventory(s, s') && s'.clock > s.clock
  }

  lemma NewBookingIsUnclaimed(s: State)
    requires ClaimsRefer(s) && BookingsOk(s)
    ensures forall d :: d in s.claims ==> d.booking != s.nextBooking
    ensures s.nextBooking !in s.bookings && s.nextBooking !in s.payments
  {
  }

  lemma InsertKeepsClaims(s: State, t: Id, s': State)
    requires ClaimsRefer(s) && BookingsOk(s) && CreatesOk(s) && InStep(s.bookings, s.claims) && Inserted(s, t, s')
    ensures ClaimsRefer(s') && InStep(s'.bookings, s'.claims)
  {
    var txn, b := s.creates[t], s.nextBooking;
    assert CreateOk(s, txn);
    NewBookingIsUnclaimed(s);
    forall c | c in s'.claims
      ensures c.booking in s'.bookings && c.seat in s'.seats
      ensures s'.seats[c.seat].event == s'.bookings[c.booking].event
      ensures s'.claims[c] <==> s'.bookings[c.booking].status.Live()
    {
      InsertedClaims(s.claims, b, txn.seats, c);
    }
  }

  lemma InsertKeepsOneActive(s: State, t: Id, s': State)
    requires ClaimsRefer(s) && BookingsOk(s) && OneActive(s.claims) && Inserted(s, t, s')
    ensures OneActive(s'.claims)
  {
    var txn, b := s.creates[t], s.nextBooking;
    NewBookingIsUnclaimed(s);
    forall c, d | Active(s'.claims, c) && Active(s'.claims, d) && c.seat == d.seat ensures c == d {
      InsertedClaims(s.claims, b, txn.seats, c);
      InsertedClaims(s.claims, b, txn.seats, d);
      if c in s.claims && d in s.claims {
        assert Active(s.claims, c) && Active(s.claims, d);
      }
    }
  }

  lemma InsertKeepsSeated(s: State, t: Id, s': State)
    requires ClaimsRefer(s) && BookingsOk(s) && BookingsSeated(s) && CreatesOk(s) && Inserted(s, t, s')
    ensures BookingsSeated(s')
  {
    var txn, b := s.creates[t], s.nextBooking;
    assert CreateOk(s, txn);
    NewBookingIsUnclaimed(s);
    forall p | p in s'.bookings ensures s'.bookings[p].event in s'.events && HasSeat(s'.claims, p) {
      if p == b {
        var x :| x in txn.seats;
        InsertedClaims(s.claims, b, txn.seats, Claim(b, x));
        assert Numbered(s.seats, txn.request.event, x);
      } else {
        assert HasSeat(s.claims, p);
        var c :| c in s.claims && c.booking == p;
        InsertedClaims(s.claims, b, txn.seats, c);
      }
    }
  }

  lemma InsertKeepsKeys(s: State, t: Id, s': State)
    requires UniqueKeys(s.bookings) && Inserted(s, t, s')
    ensures UniqueKeys(s'.bookings)
  {
    var b := s.nextBooking;
    forall p, q | p in s'.bookings && Keyed(s'.bookings, q, s'.bookings[p].user, s'.bookings[p].key)
      ensures p == q
    {
      assert forall o :: o in s.bookings ==> !Keyed(s.bookings, o, s'.bookings[b].user, s'.bookings[b].key);
      if p != b && q != b {
        assert Keyed(s.bookings, q, s.bookings[p].user, s.bookings[p].key);
      }
    }
  }

  lemma InsertKeepsBookings(s: State, t: Id, s': State)
    requires ClaimsRefer(s) && BookingsOk(s) && Inserted(s, t, s')
    ensures BookingsOk(s')
  {
    NewBookingIsUnclaimed(s);
    forall p | p in s'.bookings ensures p < s'.nextBooking && BookingOk(s'.bookings[p], PaymentOf(s', p), s'.clock) {
      assert PaymentOf(s', p) == PaymentOf(s, p);
      assert p != s.nextBooking ==> BookingOk(s.bookings[p], PaymentOf(s, p), s.clock);
    }
  }

  /** A new booking's claims fall on none of the seats other transactions have locked. */
  lemma InsertKeepsCreates(s: State, t: Id, s': State)
    requires ClaimsRefer(s) && BookingsOk(s) && CreatesOk(s) && LocksDisjoint(s.creates, s.edits) && Inserted(s, t, s')
    ensures CreatesOk(s')
  {
    var txn, b := s.creates[t], s.nextBooking;
    NewBookingIsUnclaimed(s);
    forall u | HoldsLock(s'.creates, u) ensures CreateOk(s', s'.creates[u]) {
      assert HoldsLock(s.creates, u) && u != t && CreateOk(s, s.creates[u]);
      var other := s.creates[u];
      assert txn.seats !! other.seats;
      forall c | Active(s'.claims, c) && c.seat in other.seats && c.booking in s'.bookings
        ensures s'.bookings[c.booking].status.Open() && s'.bookings[c.booking].expiresAt <= other.phase.readAt
      {
        InsertedClaims(s.claims, b, txn.seats, c);
        assert Active(s.claims, c) && c.booking in s.bookings;
      }
    }
  }

  lemma InsertKeepsEdits(s: State, t: Id, s': State)
    requires ClaimsRefer(s) && BookingsOk(s) && EditsOk(s) && LocksDisjoint(s.creates, s.edits) && Inserted(s, t, s')
    ensures EditsOk(s')
  {
    var txn, b := s.creates[t], s.nextBooking;
    NewBookingIsUnclaimed(s);
    forall e | e in s'.edits ensures EditOk(s', e, s'.edits[e]) {
      assert EditOk(s, e, s.edits[e]);
      assert txn.seats !! s.edits[e].removed;
      forall c | c in s'.claims ensures c.seat !in s.edits[e].removed {
        InsertedClaims(s.claims, b, txn.seats, c);
      }
    }
  }

  lemma InsertKeepsInv(s: State, t: Id, s': State)
    requires Inv(s) && Inserted(s, t, s')
    ensures Inv(s')
  {
    InsertKeepsClaims(s, t, s');
    InsertKeepsOneActive(s, t, s');
    InsertKeepsSeated(s, t, s');
    InsertKeepsKeys(s, t, s');
    InsertKeepsBookings(s, t, s');
    InsertKeepsCreates(s, t, s');
    InsertKeepsEdits(s, t, s');
    LocksFrame(s.creates, s'.creates, s.edits);
  }

  lemma CommitCreateInserts(s: State, t: Id, now: Time, s': State)
    requires HoldsLock(s.creates, t) && now > s.clock && s' == FinishCreate(s, t, now).0.(clock := now)
    requires InsertAllowed(s, s.creates[t])
    ensures Inserted(s, t, s')
  {
  }

  lemma CommitCreateRefusedShape(s: State, t: Id, now: Time)
    requires t in s.creates && !InsertAllowed(s, s.creates[t])
    ensures FinishCreate(s, t, now).0 ==
              s.(creates := if Truthy(s.creates[t].request.key) then s.creates[t := s.creates[t].(phase := RolledBack)] else s.creates - {t})
  {
  }

  lemma CommitCreateRefused(s: State, t: Id, now: Time, s': State)
    requires HoldsLock(s.creates, t) && now > s.clock && s' == FinishCreate(s, t, now).0.(clock := now)
    requires !InsertAllowed(s, s.creates[t])
    ensures s' == s.(creates := s'.creates, clock := now)
    ensures forall u :: HoldsLock(s'.creates, u) ==> HoldsLock(s.creates, u) && s'.creates[u] == s.creates[u]
  {
    CommitCreateRefusedShape(s, t, now);
  }

  lemma CommitCreateKeepsInv(s: State, t: Id, now: Time, s': State)
    requires Inv(s) && HoldsLock(s.creates, t) && now > s.clock
    requires s' == FinishCreate(s, t, now).0.(clock := now)
    ensures Inv(s')
  {
    if InsertAllowed(s, s.creates[t]) {
      CommitCreateInserts(s, t, now, s');
      InsertKeepsInv(s, t, s');
    } else {
      CommitCreateRefused(s, t, now, s');
      EndCreateKeepsInv(s, s');
    }
  }

  // ---------------------------------------------------------------- paying, sweeping, cancelling

  lemma ReleasedDead(s: State, b: Id)
    requires InStep(s.bookings, s.claims) && b in s.bookings && !s.bookings[b].status.Live()
    ensures Released(s.claims, b) == s.claims
  {
  }

  ghost predicate RowOk(s: State, b: Id)
  {
    b in s.bookings && BookingOk(s.bookings[b], PaymentOf(s, b), s.clock) && InStep(s.bookings, s.claims)
  }

  lemma PayRowsLegal(bk: Booking, pay: Option<Payment>, success: bool, clock: Time, now: Time)
    requires BookingOk(bk, pay, clock) && now > clock
    ensures var (bk', pay', reply) := PayRows(bk, pay, success, now);
            && RowStep(bk, pay, bk', pay', now)
            && (pay'.None? ==> pay.None?)
            && (reply.Releases() ==> !bk'.status.Live())
            && (!reply.Releases() ==> bk'.status.Live() || bk' == bk)
  {
  }

  lemma PayIsRowChange(s: State, b: Id, success: bool, now: Time)
    requires RowOk(s, b) && now > s.clock
    ensures RowChange(s, Pay(s, b, success, now).0.(clock := now), b)
  {
    PayRowsLegal(s.bookings[b], PaymentOf(s, b), success, s.clock, now);
    var (bk', pay', reply) := PayRows(s.bookings[b], PaymentOf(s, b), success, now);
    var s' := Pay(s, b, success, now).0.(clock := now);
    assert s'.bookings == s.bookings[b := bk'] && PaymentOf(s', b) == pay';
    assert s'.claims == if bk'.status.Live() then s.claims else Released(s.claims, b) by {
      if !s.bookings[b].status.Live() { ReleasedDead(s, b); }
    }
  }

  lemma SweepIsRowChange(s: State, b: Id, now: Time)
    requires RowOk(s, b) && now > s.clock
    ensures RowChange(s, Sweep(s, b, now).(clock := now), b)
  {
    var s' := Sweep(s, b, now).(clock := now);
    assert RowStep(s.bookings[b], PaymentOf(s, b), s'.bookings[b], PaymentOf(s', b), now);
    if !SweepDue(s.bookings[b], now) {
      assert s.bookings[b := s.bookings[b]] == s.bookings;
      if !s.bookings[b].status.Live() { ReleasedDead(s, b); }
    }
  }

  lemma CancelIsRowChange(s: State, b: Id, now: Time)
    requires RowOk(s, b) && PaidFor(s.payments, b) && now > s.clock
    ensures RowChange(s, SetStatusAndRelease(s, b, Cancelled).(clock := now), b)
  {
  }

  lemma ReadForCancelKeepsInv(s: State, b: Id, now: Time, s': State)
    requires Inv(s) && b in s.bookings && s.bookings[b].status.Confirmed? && now > s.clock
    requires s' == s.(stale := s.stale + {b}, clock := now)
    ensures Inv(s')
  {
    ReadForCancelKeepsBookings(s, b, s');
    CreatesFrame(s, s');
    EditsFrame(s, s');
  }

  lemma ReadForCancelKeepsBookings(s: State, b: Id, s': State)
    requires BookingsOk(s) && b in s.bookings && s.bookings[b].status.Confirmed?
    requires s' == s.(stale := s.stale + {b}, clock := s'.clock) && s'.clock > s.clock
    ensures BookingsOk(s')
  {
    forall p | p in s'.bookings ensures p < s'.nextBooking && BookingOk(s'.bookings[p], PaymentOf(s', p), s'.clock) {
      assert PaymentOf(s', p) == PaymentOf(s, p);
      assert BookingOk(s.bookings[p], PaymentOf(s, p), s.clock);
    }
  }

  // ---------------------------------------------------------------- event edits

  /** Replacing the seats above `kept` by consecutive new numbers leaves 1..total. */
  lemma RenumberedExact(seats: map<Id, Seat>, e: Id, total: int, kept: int, first: Id, added: seq<SeatSpec>)
    requires ExactNumbers(seats, e, total) && 0 <= kept <= total
    requires NumberedFrom(added, kept + 1)
    requires forall x :: x in seats ==> x < first
    ensures ExactNumbers((seats - SeatsAbove(seats, e, kept)) + AddedSeats(e, first, added), e, kept + |added|)
  {
    var seats' := (seats - SeatsAbove(seats, e, kept)) + AddedSeats(e, first, added);
    forall x: Id | Numbered(seats', e, x)
      ensures x < first ==> Numbered(seats, e, x) && seats'[x] == seats[x] && 1 <= seats[x].spec.number <= kept
      ensures x >= first ==> x < first + |added| && seats'[x].spec.number == kept + 1 + (x - first)
    {
    }
    forall n | 1 <= n <= kept + |added| ensures NumberPresent(seats', e, n) {
      if n <= kept {
        assert NumberPresent(seats, e, n);
        var x :| Numbered(seats, e, x) && seats[x].spec.number == n;
        assert Numbered(seats', e, x);
      } else {
        assert Numbered(seats', e, first + (n - kept - 1));
      }
    }
  }

  /** Other events do not notice. */
  lemma OtherEventsExact(seats: map<Id, Seat>, seats': map<Id, Seat>, e: Id, total: int)
    requires ExactNumbers(seats, e, total)
    requires forall x :: Numbered(seats', e, x) <==> Numbered(seats, e, x)
    requires forall x :: Numbered(seats, e, x) ==> x in seats' && seats'[x] == seats[x]
    ensures ExactNumbers(seats', e, total)
  {
    forall n | 1 <= n <= total ensures NumberPresent(seats', e, n) {
      assert NumberPresent(seats, e, n);
    }
  }

  /** The three kinds of edit all keep the seats up to some number and continue the numbering from there. */
  lemma PlanShape(s: State, e: Id, change: EventChange)
    requires InventoryOk(s) && e in s.events
    ensures var plan := PlanEdit(s, e, change);
            plan.target.totalSeats > 0 ==>
              && 0 <= plan.kept <= s.events[e].totalSeats
              && plan.removed == SeatsAbove(s.seats, e, plan.kept)
              && NumberedFrom(plan.added, plan.kept + 1)
              && plan.kept + |plan.added| == plan.target.totalSeats
  {
    var was := s.events[e];
    assert ExactNumbers(s.seats, e, was.totalSeats);
    assert forall x :: x in SeatsOf(s.seats, e) ==> Numbered(s.seats, e, x);
    assert SeatsOf(s.seats, e) == SeatsAbove(s.seats, e, 0);
    assert SeatsAbove(s.seats, e, was.totalSeats) == {} by {
      forall x | x in s.seats && s.seats[x].event == e ensures s.seats[x].spec.number <= was.totalSeats {
        assert Numbered(s.seats, e, x);
      }
    }
    SpecNumbers(TargetLayout(change), RequestedTotal(was, change));
    PlainNumbers(was.totalSeats + 1, RequestedTotal(was, change));
    var specs := SeatSpecs(TargetLayout(change), RequestedTotal(was, change));
    assert NumberedFrom(specs, 1);
  }

  lemma PlainNumbers(first: int, last: int)
    ensures NumberedFrom(PlainSpecs(first, last), first)
  {
    var specs := PlainSpecs(first, last);
    forall i | 0 <= i < |specs| ensures specs[i].number == first + i {
      assert specs[i] == PlainSpec(first + i);
    }
  }

  lemma StartEditKeepsInv(s: State, e: Id, plan: EditTxn, s': State)
    requires Inv(s) && e !in s.edits && EditOk(s, e, plan) && SeatsUnlocked(s, plan.removed)
    requires s' == s.(edits := s.edits[e := plan], clock := s'.clock) && s'.clock >= s.clock
    ensures Inv(s')
  {
    BookingsFrame(s, s');
    CreatesFrame(s, s');
    StartEditKeepsEdits(s, e, plan, s');
    StartEditKeepsLocks(s, e, plan);
  }

  lemma StartEditKeepsEdits(s: State, e: Id, plan: EditTxn, s': State)
    requires EditsOk(s) && EditOk(s, e, plan)
    requires s' == s.(edits := s.edits[e := plan], clock := s'.clock)
    ensures EditsOk(s')
  {
    forall f | f in s'.edits ensures EditOk(s', f, s'.edits[f]) {
      assert f != e ==> EditOk(s, f, s.edits[f]);
    }
  }

  lemma StartEditKeepsLocks(s: State, e: Id, plan: EditTxn)
    requires LocksDisjoint(s.creates, s.edits) && SeatsUnlocked(s, plan.removed)
    ensures LocksDisjoint(s.creates, s.edits[e := plan])
  {
  }

  lemma OpenEditKeepsInv(s: State, e: Id, change: EventChange, now: Time, s': State)
    requires Inv(s) && e in s.events && e !in s.edits && now > s.clock
    requires SeatsUnlocked(s, PlanEdit(s, e, change).removed)
    requires s' == BeginEdit(s, e, change).0.(clock := now)
    ensures Inv(s')
  {
    OpenEditShape(s, e, change, now, s');
    if s' == s.(clock := now) {
      TickKeepsInv(s, now);
    } else {
      StartEditKeepsInv(s, e, PlanEdit(s, e, change), s');
    }
  }

  lemma OpenEditShape(s: State, e: Id, change: EventChange, now: Time, s': State)
    requires InventoryOk(s) && e in s.events && s' == BeginEdit(s, e, change).0.(clock := now)
    ensures || s' == s.(clock := now)
            || (s' == s.(edits := s.edits[e := PlanEdit(s, e, change)], clock := now) && EditOk(s, e, PlanEdit(s, e, change)))
  {
    PlanShape(s, e, change);
  }

  /** Neither the protected foreign key nor the unique seat number ever stops an edit that passed its check. */
  lemma CommitEditSucceeds(s: State, e: Id)
    requires InventoryOk(s) && e in s.edits && EditOk(s, e, s.edits[e])
    ensures FinishEdit(s, e).1 == Saved
  {
    var txn := s.edits[e];
    forall i | 0 <= i < |txn.added| ensures !NumberTaken(s.seats, e, txn.removed, txn.added[i].number) {
      forall x | x in s.seats && x !in txn.removed && s.seats[x].event == e
        ensures s.seats[x].spec.number <= txn.kept
      {
      }
    }
  }

  /** The rows an edit leaves behind, described from outside. */
  ghost predicate Edited(s: State, s': State, e: Id)
    requires e in s.edits
  {
    var txn := s.edits[e];
    && s' == s.(edits := s.edits - {e}, events := s.events[e := txn.target], seats := s'.seats, nextSeat := s'.nextSeat)
    && s'.nextSeat >= s.nextSeat
    && ExactNumbers(s'.seats, e, txn.target.totalSeats)
    && (forall x :: x in s.seats && x !in txn.removed ==> x in s'.seats && s'.seats[x] == s.seats[x])
    && (forall x :: x in s'.seats ==> x < s'.nextSeat && (x in s.seats || s'.seats[x].event == e))
    && (forall x :: x in s'.seats && s'.seats[x].event != e ==> x in s.seats && s'.seats[x] == s.seats[x])
  }

  lemma CommitEditShape(s: State, e: Id)
    requires InventoryOk(s) && e in s.edits && EditOk(s, e, s.edits[e])
    ensures Edited(s, FinishEdit(s, e).0, e)
  {
    var txn := s.edits[e];
    CommitEditSucceeds(s, e);
    RenumberedExact(s.seats, e, s.events[e].totalSeats, txn.kept, s.nextSeat, txn.added);
  }

  lemma EditedKeepsClaims(s: State, s': State, e: Id)
    requires ClaimsRefer(s) && BookingsSeated(s) && e in s.edits && EditOk(s, e, s.edits[e]) && Edited(s, s', e)
    ensures ClaimsRefer(s') && BookingsSeated(s')
  {
    forall c | c in s'.claims
      ensures c.booking in s'.bookings
      ensures c.seat in s'.seats && s'.seats[c.seat].event == s'.bookings[c.booking].event
    {
      assert c.seat !in s.edits[e].removed;
    }
  }

  lemma EditedKeepsInventory(s: State, s': State, e: Id)
    requires InventoryOk(s) && e in s.edits && EditOk(s, e, s.edits[e]) && Edited(s, s', e)
    ensures InventoryOk(s')
  {
    forall f | f in s'.events ensures s'.events[f].totalSeats > 0 && ExactNumbers(s'.seats, f, s'.events[f].totalSeats) {
      if f != e { OtherEventsExact(s.seats, s'.seats, f, s.events[f].totalSeats); }
    }
  }

  lemma EditedKeepsCreates(s: State, s': State, e: Id)
    requires CreatesOk(s) && LocksDisjoint(s.creates, s.edits) && e in s.edits && Edited(s, s', e)
    ensures CreatesOk(s')
  {
    forall t | HoldsLock(s'.creates, t) ensures CreateOk(s', s'.creates[t]) {
      var txn := s.creates[t];
      assert CreateOk(s, txn) && txn.seats !! s.edits[e].removed;
      forall x | x in txn.seats ensures Numbered(s'.seats, txn.request.event, x) {
        assert Numbered(s.seats, txn.request.event, x);
      }
    }
  }

  lemma EditedKeepsEdits(s: State, s': State, e: Id)
    requires EditsOk(s) && e in s.edits && EditOk(s, e, s.edits[e]) && Edited(s, s', e)
    ensures EditsOk(s')
  {
    forall f | f in s'.edits ensures EditOk(s', f, s'.edits[f]) {
      assert EditOk(s, f, s.edits[f]) && f != e;
      assert SeatsAbove(s'.seats, f, s.edits[f].kept) == SeatsAbove(s.seats, f, s.edits[f].kept);
    }
  }

  lemma EditedKeepsInv(s: State, s': State, e: Id)
    requires Inv(s) && e in s.edits && Edited(s, s', e)
    ensures Inv(s')
  {
    EditedKeepsClaims(s, s', e);
    EditedKeepsInventory(s, s', e);
    EditedKeepsCreates(s, s', e);
    EditedKeepsEdits(s, s', e);
    BookingsFrame(s, s');
  }

  lemma CommitEditKeepsInv(s: State, e: Id, now: Time, s': State)
    requires Inv(s) && e in s.edits && now > s.clock && s' == FinishEdit(s, e).0.(clock := now)
    ensures Inv(s')
  {
    var mid := FinishEdit(s, e).0;
    CommitEditShape(s, e);
    EditedKeepsInv(s, mid, e);
    TickKeepsInv(mid, now);
  }

  lemma AddEventRefused(s: State, e: Id, change: EventChange)
    requires change.Update? && !AddEvent(s, e, change).1.Saved?
    ensures AddEvent(s, e, change).0 == s
  {
  }

  /** The seat-number part of the invariant is all that inserting an event's rows has to be shown for. */
  lemma SavedEventShape(s: State, e: Id, change: EventChange, now: Time, s': State)
    requires Inv(s) && e !in s.events && change.Update? && now > s.clock && AddEvent(s, e, change).1.Saved?
    requires s' == AddEvent(s, e, change).0.(clock := now)
    ensures EventInserted(s, s', e)
  {
    assert ClaimsRefer(s) && InventoryOk(s);
    AddEventShape(s, e, change, now, s');
  }

  lemma InsertEventKeepsInv(s: State, e: Id, change: EventChange, now: Time, s': State)
    requires Inv(s) && e !in s.events && change.Update? && now > s.clock
    requires s' == AddEvent(s, e, change).0.(clock := now)
    ensures Inv(s')
  {
    if AddEvent(s, e, change).1.Saved? {
      SavedEventShape(s, e, change, now, s');
      InsertedEventKeepsInv(s, s', e);
    } else {
      AddEventRefused(s, e, change);
      TickKeepsInv(s, now);
    }
  }

  lemma AddEventShape(s: State, e: Id, change: EventChange, now: Time, s': State)
    requires ClaimsRefer(s) && InventoryOk(s) && e !in s.events && change.Update? && now > s.clock
    requires AddEvent(s, e, change).1.Saved? && s' == AddEvent(s, e, change).0.(clock := now)
    ensures EventInserted(s, s', e)
  {
    var specs := SeatSpecs(TargetLayout(change), change.totalSeats);
    SpecNumbers(TargetLayout(change), change.totalSeats);
    assert NumberedFrom(specs, 1);
    assert SeatsAbove(s.seats, e, 0) == {};
    assert forall x :: !Numbered(s.seats, e, x);
    RenumberedExact(s.seats, e, 0, 0, s.nextSeat, specs);
    assert s.seats - {} == s.seats;
  }

  /** A new event's rows, described from outside. */
  ghost predicate EventInserted(s: State, s': State, e: Id)
  {
    && e !in s.events && e in s'.events
    && s' == s.(events := s.events[e := s'.events[e]], seats := s'.seats, nextSeat := s'.nextSeat, clock := s'.clock)
    && s'.clock > s.clock && s'.nextSeat >= s.nextSeat
    && s'.events[e].totalSeats > 0 && ExactNumbers(s'.seats, e, s'.events[e].totalSeats)
    && (forall x :: x in s.seats ==> x in s'.seats && s'.seats[x] == s.seats[x])
    && (forall x :: x in s'.seats ==> x < s'.nextSeat && (x in s.seats || s'.seats[x].event == e))
  }

  lemma InsertedEventKeepsCreates(s: State, s': State, e: Id)
    requires CreatesOk(s) && EventInserted(s, s', e)
    ensures CreatesOk(s')
  {
    forall t | HoldsLock(s'.creates, t) ensures CreateOk(s', s'.creates[t]) {
      var txn := s.creates[t];
      assert CreateOk(s, txn);
      forall x | x in txn.seats ensures Numbered(s'.seats, txn.request.event, x) {
        assert Numbered(s.seats, txn.request.event, x);
      }
    }
  }

  lemma InsertedEventKeepsEdits(s: State, s': State, e: Id)
    requires EditsOk(s) && EventInserted(s, s', e)
    ensures EditsOk(s')
  {
    forall f | f in s'.edits ensures EditOk(s', f, s'.edits[f]) {
      assert EditOk(s, f, s.edits[f]) && f != e;
      assert SeatsAbove(s'.seats, f, s.edits[f].kept) == SeatsAbove(s.seats, f, s.edits[f].kept);
    }
  }

  lemma InsertedEventKeepsInv(s: State, s': State, e: Id)
    requires Inv(s) && EventInserted(s, s', e)
    ensures Inv(s')
  {
    BookingsFrame(s, s');
    InsertedEventKeepsInventory(s, s', e);
    InsertedEventKeepsCreates(s, s', e);
    InsertedEventKeepsEdits(s, s', e);
  }

  lemma InsertedEventKeepsInventory(s: State, s': State, e: Id)
    requires InventoryOk(s) && EventInserted(s, s', e)
    ensures InventoryOk(s')
  {
    forall f | f in s'.events ensures s'.events[f].totalSeats > 0 && ExactNumbers(s'.seats, f, s'.events[f].totalSeats) {
      if f != e { OtherEventsExact(s.seats, s'.seats, f, s.events[f].totalSeats); }
    }
  }

  lemma DeleteEventKeepsInv(s: State, e: Id, now: Time, s': State)
    requires Inv(s) && e in s.events && e !in s.edits && SeatsUnlocked(s, SeatsOf(s.seats, e)) && now > s.clock
    requires s' == DestroyEvent(s, e).0.(clock := now)
    ensures Inv(s')
  {
    if DestroyEvent(s, e).1.Saved? {
      DestroyedKeepsInv(s, s', e);
    } else {
      TickKeepsInv(s, now);
    }
  }

  lemma DestroyedKeepsInv(s: State, s': State, e: Id)
    requires Inv(s) && Destroyed(s, s', e)
    ensures Inv(s')
  {
    DestroyedKeepsClaims(s, s', e);
    DestroyedKeepsInFlight(s, s', e);
    DestroyedKeepsInventory(s, s', e);
    BookingsFrame(s, s');
  }

  lemma DestroyedKeepsInventory(s: State, s': State, e: Id)
    requires InventoryOk(s) && Destroyed(s, s', e)
    ensures InventoryOk(s')
  {
    forall f | f in s'.events ensures s'.events[f].totalSeats > 0 && ExactNumbers(s'.seats, f, s'.events[f].totalSeats) {
      OtherEventsExact(s.seats, s'.seats, f, s.events[f].totalSeats);
    }
  }

  ghost predicate Destroyed(s: State, s': State, e: Id)
  {
    && e !in s.edits && SeatsUnlocked(s, SeatsOf(s.seats, e))
    && !HasHistory(s.claims, SeatsOf(s.seats, e))
    && s' == s.(events := s.events - {e}, seats := s.seats - SeatsOf(s.seats, e), clock := s'.clock)
    && s'.clock > s.clock
  }

  lemma DestroyedKeepsClaims(s: State, s': State, e: Id)
    requires ClaimsRefer(s) && BookingsSeated(s) && Destroyed(s, s', e)
    ensures ClaimsRefer(s') && BookingsSeated(s')
  {
    forall b | b in s'.bookings ensures s'.bookings[b].event in s'.events {
      assert HasSeat(s.claims, b);
      var c :| c in s.claims && c.booking == b;
      assert c.seat in SeatsOf(s.seats, s.bookings[b].event);
    }
    forall c | c in s'.claims
      ensures c.booking in s'.bookings
      ensures c.seat in s'.seats && s'.seats[c.seat].event == s'.bookings[c.booking].event
    {
      assert c.seat !in SeatsOf(s.seats, e);
    }
  }

  lemma DestroyedKeepsInFlight(s: State, s': State, e: Id)
    requires CreatesOk(s) && EditsOk(s) && Destroyed(s, s', e)
    ensures CreatesOk(s') && EditsOk(s')
  {
    forall t | HoldsLock(s'.creates, t) ensures CreateOk(s', s'.creates[t]) {
      var txn := s.creates[t];
      assert t in s.creates && CreateOk(s, txn) && txn.seats !! SeatsOf(s.seats, e);
      forall x | x in txn.seats ensures Numbered(s'.seats, txn.request.event, x) {
        assert Numbered(s.seats, txn.request.event, x);
      }
    }
    forall f | f in s'.edits ensures EditOk(s', f, s'.edits[f]) {
      assert EditOk(s, f, s.edits[f]) && f != e;
      assert SeatsAbove(s'.seats, f, s.edits[f].kept) == SeatsAbove(s.seats, f, s.edits[f].kept);
    }
  }

  // ---------------------------------------------------------------- every step

  lemma RowOfBooking(s: State, b: Id)
    requires Inv(s) && b in s.bookings
    ensures RowOk(s, b)
  {
  }

  lemma StaleIsPaid(s: State, b: Id)
    requires Inv(s) && b in s.stale
    ensures PaidFor(s.payments, b)
  {
  }

  lemma BookingStepIsRowChange(s: State, a: Action, now: Time, s': State)
    requires a.PayBooking? || a.SweepBooking? || a.CancelBooking?
    requires RowOk(s, a.booking) && (a.CancelBooking? ==> PaidFor(s.payments, a.booking))
    requires Enabled(s, a, now) && s' == Apply(s, a, now)
    ensures RowChange(s, s', a.booking)
  {
    match a {
      case PayBooking(b, success) => PayIsRowChange(s, b, success, now);
      case SweepBooking(b) => SweepIsRowChange(s, b, now);
      case CancelBooking(b) => CancelIsRowChange(s, b, now);
    }
  }

  lemma MissingBookingStep(s: State, a: Action, now: Time, s': State)
    requires Enabled(s, a, now) && s' == Apply(s, a, now) && a.PayBooking? && a.booking !in s.bookings
    ensures s' == s.(clock := now)
  {
  }

  lemma BookingStepKeepsInv(s: State, a: Action, now: Time, s': State)
    requires Inv(s) && Enabled(s, a, now) && s' == Apply(s, a, now)
    requires a.PayBooking? || a.SweepBooking? || a.CancelBooking?
    ensures a.booking in s.bookings ==> RowChange(s, s', a.booking)
    ensures a.booking !in s.bookings ==> s' == s.(clock := now)
    ensures Inv(s')
  {
    if a.booking in s.bookings {
      RowOfBooking(s, a.booking);
      if a.CancelBooking? { StaleIsPaid(s, a.booking); }
      BookingStepIsRowChange(s, a, now, s');
      RowChangeKeepsInv(s, s', a.booking);
    } else {
      MissingBookingStep(s, a, now, s');
      TickKeepsInv(s, now);
    }
  }

  lemma CreateStepKeepsInv(s: State, a: Action, now: Time, s': State)
    requires Inv(s) && Enabled(s, a, now) && s' == Apply(s, a, now)
    requires a.FastPath? || a.OpenCreate? || a.CommitCreate? || a.LookupCreate?
    ensures Inv(s')
  {
    match a {
      case FastPath(_, _) => TickKeepsInv(s, now);
      case OpenCreate(t, q) => OpenCreateKeepsInv(s, t, q, now, s');
      case CommitCreate(t) => CommitCreateKeepsInv(s, t, now, s');
      case LookupCreate(t) => EndCreateKeepsInv(s, s');
    }
  }

  lemma EditStepKeepsInv(s: State, a: Action, now: Time, s': State)
    requires Inv(s) && Enabled(s, a, now) && s' == Apply(s, a, now)
    requires a.OpenEdit? || a.CommitEdit?
    ensures Inv(s')
  {
    match a {
      case OpenEdit(e, change) => OpenEditKeepsInv(s, e, change, now, s');
      case CommitEdit(e) => CommitEditKeepsInv(s, e, now, s');
    }
  }

  lemma EventStepKeepsInv(s: State, a: Action, now: Time, s': State)
    requires Inv(s) && Enabled(s, a, now) && s' == Apply(s, a, now)
    requires a.InsertEvent? || a.OpenEdit? || a.CommitEdit? || a.DeleteEvent?
    ensures Inv(s')
  {
    match a {
      case InsertEvent(e, change) => InsertEventKeepsInv(s, e, change, now, s');
      case DeleteEvent(e) => DeleteEventKeepsInv(s, e, now, s');
      case _ => EditStepKeepsInv(s, a, now, s');
    }
  }

  predicate SeenConfirmed(s: State, b: Id)
  {
    b in s.bookings && s.bookings[b].status.Confirmed?
  }

  lemma NotedShape(s: State, b: Id)
    ensures NoteConfirmed(s, b) == if SeenConfirmed(s, b) then s.(stale := s.stale + {b}) else s
  {
  }

  lemma ReadStepKeepsInv(s: State, b: Id, now: Time, s': State)
    requires Inv(s) && now > s.clock && s' == NoteConfirmed(s, b).(clock := now)
    ensures Inv(s')
  {
    NotedShape(s, b);
    if SeenConfirmed(s, b) { ReadForCancelKeepsInv(s, b, now, s'); } else { TickKeepsInv(s, now); }
  }

  lemma StepKeepsInv(s: State, a: Action, now: Time, s': State)
    requires Inv(s) && Enabled(s, a, now) && s' == Apply(s, a, now)
    ensures Inv(s')
  {
    if a.FastPath? || a.OpenCreate? || a.CommitCreate? || a.LookupCreate? {
      CreateStepKeepsInv(s, a, now, s');
    } else if a.PayBooking? || a.SweepBooking? || a.CancelBooking? {
      BookingStepKeepsInv(s, a, now, s');
    } else if a.ReadForCancel? {
      ReadStepKeepsInv(s, a.booking, now, s');
    } else {
      EventStepKeepsInv(s, a, now, s');
    }
  }

  lemma RunStepKeepsInv(states: seq<State>, labels: seq<Label>, i: nat)
    requires IsRun(states, labels) && i < |labels| && Inv(states[i])
    ensures Inv(states[i + 1])
  {
    assert StepAt(states, labels, i);
    StepKeepsInv(states[i], labels[i].action, labels[i].now, states[i + 1]);
  }

  lemma {:induction false} RunKeepsInv(states: seq<State>, labels: seq<Label>, i: nat)
    requires IsRun(states, labels) && i < |states|
    ensures Inv(states[i])
  {
    if i > 0 {
      RunKeepsInv(states, labels, i - 1);
      RunStepKeepsInv(states, labels, i - 1);
    }
  }
}
