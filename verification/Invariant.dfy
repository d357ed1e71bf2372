/** The invariant of the booking engine. */
module Invariant {
  import opened Wrappers
  import opened SeatLayout
  import opened Rows
  import opened Engine

  // ---------------------------------------------------------------- claims

  /** Foreign keys hold, and a booking only claims seats of its own event. */
  ghost predicate ClaimsRefer(s: State)
  {
    && (forall c :: c in s.claims ==>
          c.booking in s.bookings && c.seat in s.seats && s.seats[c.seat].event == s.bookings[c.booking].event)
    && (forall x :: x in s.seats ==> s.seats[x].event in s.events)
  }

  ghost predicate HasSeat(claims: map<Claim, bool>, b: Id) { exists c :: c in claims && c.booking == b }

  /** Every booking belongs to an event that still exists and has claimed at least one of its seats. */
  ghost predicate BookingsSeated(s: State)
  {
    forall b :: b in s.bookings ==> s.bookings[b].event in s.events && HasSeat(s.claims, b)
  }

  /** A row's active flag says exactly whether its booking still owns seats. */
  ghost predicate InStep(bookings: map<Id, Booking>, claims: map<Claim, bool>)
  {
    forall c :: c in claims && c.booking in bookings ==> (claims[c] <==> bookings[c.booking].status.Live())
  }

  ghost predicate OneActive(claims: map<Claim, bool>)
  {
    forall c, d :: Active(claims, c) && Active(claims, d) && c.seat == d.seat ==> c == d
  }

  ghost predicate UniqueKeys(bookings: map<Id, Booking>)
  {
    forall a, b :: a in bookings && Keyed(bookings, b, bookings[a].user, bookings[a].key) ==> a == b
  }

  // ---------------------------------------------------------------- bookings and payments

  /** Which status, retry count and payment row go together. */
  ghost predicate BookingOk(bk: Booking, pay: Option<Payment>, clock: Time)
  {
    && bk.retryCount <= MAX_RETRIES
    && (pay.Some? ==> pay.value.amount == bk.amount && !pay.value.status.Unsettled?)
    && (bk.retryCount > 0 ==> pay.Some?)
    && (pay.Some? && pay.value.status.Declined? ==> bk.retryCount > 0 && bk.status in {Failed, Expired})
    && (pay.Some? && pay.value.status.Success? ==>
          bk.retryCount < MAX_RETRIES && bk.status in {Confirmed, Cancelled, Expired})
    && (bk.status.Pending? ==> pay.None?)
    && (bk.status.Failed? ==> bk.retryCount < MAX_RETRIES && pay.Some?)
    && (bk.status in {Confirmed, Cancelled} ==> pay.Some? && pay.value.status.Success?)
    && (bk.status.Expired? ==> bk.expiresAt <= clock || bk.retryCount == MAX_RETRIES)
  }

  ghost predicate PaidFor(payments: map<Id, Payment>, b: Id)
  {
    b in payments && payments[b].status.Success?
  }

  ghost predicate BookingsOk(s: State)
  {
    && (forall b :: b in s.bookings ==> b < s.nextBooking && BookingOk(s.bookings[b], PaymentOf(s, b), s.clock))
    && (forall b :: b in s.payments ==> b in s.bookings)
    && (forall b :: b in s.stale ==> b in s.bookings && PaidFor(s.payments, b))
  }

  // ---------------------------------------------------------------- seat inventory

  ghost predicate NumberPresent(seats: map<Id, Seat>, e: Id, n: int)
  {
    exists x :: Numbered(seats, e, x) && seats[x].spec.number == n
  }

  /** The seats of an event carry exactly the numbers 1..total, each once. */
  ghost predicate ExactNumbers(seats: map<Id, Seat>, e: Id, total: int)
  {
    && (forall x :: Numbered(seats, e, x) ==> 1 <= seats[x].spec.number <= total)
    && (forall x, y :: Numbered(seats, e, x) && Numbered(seats, e, y) && x != y ==>
          seats[x].spec.number != seats[y].spec.number)
    && (forall n :: 1 <= n <= total ==> NumberPresent(seats, e, n))
  }

  ghost predicate InventoryOk(s: State)
  {
    && (forall e :: e in s.events ==> s.events[e].totalSeats > 0 && ExactNumbers(s.seats, e, s.events[e].totalSeats))
    && (forall x :: x in s.seats ==> x < s.nextSeat)
  }

  // ---------------------------------------------------------------- transactions in flight

  /** Whatever is active on these seats belongs to an open booking whose hold was over by `readAt`. */
  ghost predicate OnlyLapsed(bookings: map<Id, Booking>, claims: map<Claim, bool>, seats: set<Id>, readAt: Time)
  {
    forall c :: Active(claims, c) && c.seat in seats && c.booking in bookings ==>
      bookings[c.booking].status.Open() && bookings[c.booking].expiresAt <= readAt
  }

  /** What a clean availability read promises until the commit. */
  ghost predicate CreateOk(s: State, txn: CreateTxn)
    requires txn.phase.Holding?
  {
    && txn.seats != {}
    && txn.seats == Distinct(txn.request.seatIds) && |txn.seats| == |txn.request.seatIds|
    && (forall x :: x in txn.seats ==> Numbered(s.seats, txn.request.event, x))
    && txn.phase.readAt <= s.clock
    && OnlyLapsed(s.bookings, s.claims, txn.seats, txn.phase.readAt)
  }

  ghost predicate NumberedFrom(specs: seq<SeatSpec>, first: int)
  {
    forall i :: 0 <= i < |specs| ==> specs[i].number == first + i
  }

  /** What an open edit will delete has no history, and what it adds continues the numbering. */
  ghost predicate EditOk(s: State, e: Id, txn: EditTxn)
  {
    && e in s.events
    && 0 <= txn.kept <= s.events[e].totalSeats
    && txn.removed == SeatsAbove(s.seats, e, txn.kept)
    && NumberedFrom(txn.added, txn.kept + 1)
    && txn.kept + |txn.added| == txn.target.totalSeats
    && txn.target.totalSeats > 0
    && !HasHistory(s.claims, txn.removed)
  }

  /** Row locks are exclusive. */
  ghost predicate LocksDisjoint(creates: map<Id, CreateTxn>, edits: map<Id, EditTxn>)
  {
    && (forall t, u :: HoldsLock(creates, t) && HoldsLock(creates, u) && t != u ==>
          creates[t].seats !! creates[u].seats)
    && (forall t, e :: HoldsLock(creates, t) && e in edits ==> creates[t].seats !! edits[e].removed)
  }

  ghost predicate CreatesOk(s: State)
  {
    forall t :: HoldsLock(s.creates, t) ==> CreateOk(s, s.creates[t])
  }

  ghost predicate EditsOk(s: State)
  {
    forall e :: e in s.edits ==> EditOk(s, e, s.edits[e])
  }

  ghost predicate Inv(s: State)
  {
    && ClaimsRefer(s)
    && BookingsSeated(s)
    && InStep(s.bookings, s.claims)
    && OneActive(s.claims)
    && UniqueKeys(s.bookings)
    && BookingsOk(s)
    && InventoryOk(s)
    && CreatesOk(s)
    && EditsOk(s)
    && LocksDisjoint(s.creates, s.edits)
  }

  // ---------------------------------------------------------------- frames

  /** The parts of the state each conjunct looks at. */
  lemma BookingsFrame(s: State, s': State)
    requires BookingsOk(s)
    requires s'.bookings == s.bookings && s'.payments == s.payments && s'.nextBooking == s.nextBooking
    requires s'.stale == s.stale && s'.clock >= s.clock
    ensures BookingsOk(s')
  {
    forall b | b in s'.bookings ensures b < s'.nextBooking && BookingOk(s'.bookings[b], PaymentOf(s', b), s'.clock) {
      assert PaymentOf(s', b) == PaymentOf(s, b);
      assert BookingOk(s.bookings[b], PaymentOf(s, b), s.clock);
    }
  }

  lemma CreatesFrame(s: State, s': State)
    requires CreatesOk(s)
    requires s'.bookings == s.bookings && s'.claims == s.claims && s'.seats == s.seats && s'.clock >= s.clock
    requires forall t :: HoldsLock(s'.creates, t) ==> HoldsLock(s.creates, t) && s'.creates[t] == s.creates[t]
    ensures CreatesOk(s')
  {
    forall t | HoldsLock(s'.creates, t) ensures CreateOk(s', s'.creates[t]) {
      assert CreateOk(s, s.creates[t]);
    }
  }

  lemma EditsFrame(s: State, s': State)
    requires EditsOk(s)
    requires s'.events == s.events && s'.seats == s.seats && s'.claims.Keys == s.claims.Keys && s'.edits == s.edits
    ensures EditsOk(s')
  {
    forall e | e in s'.edits ensures EditOk(s', e, s'.edits[e]) {
      assert EditOk(s, e, s.edits[e]);
      assert forall c :: c in s'.claims ==> c in s.claims.Keys;
    }
  }

  lemma LocksFrame(creates: map<Id, CreateTxn>, creates': map<Id, CreateTxn>, edits: map<Id, EditTxn>)
    requires LocksDisjoint(creates, edits)
    requires forall t :: HoldsLock(creates', t) ==> HoldsLock(creates, t) && creates'[t].seats == creates[t].seats
    ensures LocksDisjoint(creates', edits)
  {
    forall u, v | HoldsLock(creates', u) && HoldsLock(creates', v) && u != v
      ensures creates'[u].seats !! creates'[v].seats
    {
      assert HoldsLock(creates, u) && HoldsLock(creates, v);
    }
    forall t, e | HoldsLock(creates', t) && e in edits ensures creates'[t].seats !! edits[e].removed {
      assert HoldsLock(creates, t);
    }
  }

  // ---------------------------------------------------------------- one booking row changes

  /**
    The shape common to paying, sweeping and cancelling: the row keeps its identity, a dead
    booking is never revived, only a hold that had not run out is confirmed, and a
    successful payment stays.
   */
  ghost predicate RowStep(bk: Booking, pay: Option<Payment>, bk': Booking, pay': Option<Payment>, now: Time)
  {
    && bk' == bk.(status := bk'.status, retryCount := bk'.retryCount)
    && (bk'.status.Live() ==> bk.status.Live())
    && (bk'.status.Open() ==> bk.status.Open())
    && (bk'.status.Confirmed? ==> bk.status.Confirmed? || bk.expiresAt >= now)
    && (pay.Some? && pay.value.status.Success? ==> pay'.Some? && pay'.value.status.Success?)
    && bk'.retryCount >= bk.retryCount
    && BookingOk(bk', pay', now)
  }

  /** One booking row and its payment take a row step; its claims are released when it stops owning them. */
  ghost predicate RowChange(s: State, s': State, b: Id)
  {
    && b in s.bookings && b in s'.bookings
    && s'.clock > s.clock
    && RowStep(s.bookings[b], PaymentOf(s, b), s'.bookings[b], PaymentOf(s', b), s'.clock)
    && s'.bookings == s.bookings[b := s'.bookings[b]]
    && s'.claims == (if s'.bookings[b].status.Live() then s.claims else Released(s.claims, b))
    && (forall p :: p != b ==> PaymentOf(s', p) == PaymentOf(s, p))
    && SameInventory(s, s') && s'.creates == s.creates && s'.edits == s.edits
    && s'.stale == s.stale && s'.nextBooking == s.nextBooking
  }

  ghost predicate SameInventory(s: State, s': State)
  {
    s'.events == s.events && s'.seats == s.seats && s'.nextSeat == s.nextSeat
  }

  /** Claims never change hands: a row change can only switch rows of its own booking off. */
  lemma RowChangeClaims(s: State, s': State, b: Id)
    requires InStep(s.bookings, s.claims) && RowChange(s, s', b)
    ensures s'.claims.Keys == s.claims.Keys
    ensures forall c :: Active(s'.claims, c) ==> Active(s.claims, c)
    ensures InStep(s'.bookings, s'.claims)
  {
  }

  lemma RowChangeKeepsClaims(s: State, s': State, b: Id)
    requires ClaimsRefer(s) && InStep(s.bookings, s.claims) && OneActive(s.claims) && RowChange(s, s', b)
    ensures ClaimsRefer(s') && OneActive(s'.claims)
  {
    RowChangeClaims(s, s', b);
  }

  lemma RowChangeKeepsSeated(s: State, s': State, b: Id)
    requires BookingsSeated(s) && InStep(s.bookings, s.claims) && RowChange(s, s', b)
    ensures BookingsSeated(s')
  {
    RowChangeClaims(s, s', b);
    forall p | p in s'.bookings ensures s'.bookings[p].event in s'.events && HasSeat(s'.claims, p) {
      assert HasSeat(s.claims, p);
      var c :| c in s.claims && c.booking == p;
      assert c in s'.claims;
    }
  }

  lemma RowChangeKeepsKeys(s: State, s': State, b: Id)
    requires UniqueKeys(s.bookings) && RowChange(s, s', b)
    ensures UniqueKeys(s'.bookings)
  {
    forall p, q | p in s'.bookings && Keyed(s'.bookings, q, s'.bookings[p].user, s'.bookings[p].key)
      ensures p == q
    {
      assert Keyed(s.bookings, q, s.bookings[p].user, s.bookings[p].key);
    }
  }

  lemma RowChangeKeepsBookings(s: State, s': State, b: Id)
    requires BookingsOk(s) && RowChange(s, s', b)
    ensures BookingsOk(s')
  {
    forall p | p in s'.bookings ensures p < s'.nextBooking && BookingOk(s'.bookings[p], PaymentOf(s', p), s'.clock) {
      assert p != b ==> PaymentOf(s', p) == PaymentOf(s, p) && BookingOk(s.bookings[p], PaymentOf(s, p), s.clock);
    }
    forall p | p in s'.payments ensures p in s'.bookings {
      assert p != b ==> PaymentOf(s', p) == PaymentOf(s, p);
    }
    forall p | p in s'.stale ensures p in s'.bookings && PaidFor(s'.payments, p) {
      assert PaymentOf(s, p) == Some(s.payments[p]);
      assert p != b ==> PaymentOf(s', p) == PaymentOf(s, p);
    }
  }

  /** A hold seen lapsed by an open transaction stays lapsed or is released: it can no longer be paid for. */
  lemma LapsedStaysLapsed(s: State, s': State, b: Id, seats: set<Id>, readAt: Time)
    requires InStep(s.bookings, s.claims) && RowChange(s, s', b)
    requires readAt <= s.clock && OnlyLapsed(s.bookings, s.claims, seats, readAt)
    ensures OnlyLapsed(s'.bookings, s'.claims, seats, readAt)
  {
    RowChangeClaims(s, s', b);
    forall c | Active(s'.claims, c) && c.seat in seats && c.booking in s'.bookings
      ensures s'.bookings[c.booking].status.Open() && s'.bookings[c.booking].expiresAt <= readAt
    {
      assert Active(s.claims, c);
    }
  }

  lemma RowChangeKeepsCreates(s: State, s': State, b: Id)
    requires CreatesOk(s) && InStep(s.bookings, s.claims) && RowChange(s, s', b)
    ensures CreatesOk(s')
  {
    forall t | HoldsLock(s'.creates, t) ensures CreateOk(s', s'.creates[t]) {
      var txn := s.creates[t];
      assert CreateOk(s, txn);
      LapsedStaysLapsed(s, s', b, txn.seats, txn.phase.readAt);
    }
  }

  lemma RowChangeKeepsRows(s: State, s': State, b: Id)
    requires ClaimsRefer(s) && BookingsSeated(s) && InStep(s.bookings, s.claims) && OneActive(s.claims)
    requires UniqueKeys(s.bookings) && BookingsOk(s) && RowChange(s, s', b)
    ensures ClaimsRefer(s') && BookingsSeated(s') && InStep(s'.bookings, s'.claims) && OneActive(s'.claims)
    ensures UniqueKeys(s'.bookings) && BookingsOk(s')
  {
    RowChangeClaims(s, s', b);
    RowChangeKeepsClaims(s, s', b);
    RowChangeKeepsSeated(s, s', b);
    RowChangeKeepsKeys(s, s', b);
    RowChangeKeepsBookings(s, s', b);
  }

  lemma RowChangeKeepsInFlight(s: State, s': State, b: Id)
    requires InStep(s.bookings, s.claims) && InventoryOk(s) && CreatesOk(s) && EditsOk(s) && LocksDisjoint(s.creates, s.edits)
    requires RowChange(s, s', b)
    ensures InventoryOk(s') && CreatesOk(s') && EditsOk(s') && LocksDisjoint(s'.creates, s'.edits)
  {
    RowChangeClaims(s, s', b);
    RowChangeKeepsCreates(s, s', b);
    EditsFrame(s, s');
  }

  lemma RowChangeKeepsInv(s: State, s': State, b: Id)
    requires Inv(s) && RowChange(s, s', b)
    ensures Inv(s')
  {
    RowChangeKeepsRows(s, s', b);
    RowChangeKeepsInFlight(s, s', b);
  }
}
