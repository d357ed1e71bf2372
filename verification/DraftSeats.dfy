/** The booking a draft yields is for the very seats the draft showed. */
module DraftSeats {
  import opened Rows
  import opened Engine
  import opened Invariant
  import opened Preservation
  import opened Safety
  import opened Availability
  import opened LiveSeatMap
  import opened Graphs
  import opened Assistant
  import opened DraftDesk

  // ---------------------------------------------------------------- held and booked seats do not move

  ghost predicate SeatsStay(s: State, s': State, ids: set<Id>)
  {
    forall x :: x in ids && x in s.seats ==> x in s'.seats && s'.seats[x] == s.seats[x]
  }

  lemma CommitEditKeepsHeld(s: State, e: Id, now: Time, s': State, t: Id)
    requires InventoryOk(s) && EditsOk(s) && LocksDisjoint(s.creates, s.edits) && e in s.edits && HoldsLock(s.creates, t)
    requires ClaimsRefer(s) && now > s.clock && s' == FinishEdit(s, e).0.(clock := now)
    ensures SeatsStay(s, s', s.creates[t].seats)
  {
    CommitEditShape(s, e);
    assert s.creates[t].seats !! s.edits[e].removed;
  }

  lemma DeleteEventKeepsHeld(s: State, e: Id, t: Id)
    requires SeatsUnlocked(s, SeatsOf(s.seats, e)) && HoldsLock(s.creates, t)
    ensures SeatsStay(s, DestroyEvent(s, e).0, s.creates[t].seats)
  {
    assert s.creates[t].seats !! SeatsOf(s.seats, e);
  }

  lemma InsertEventKeepsSeats(s: State, e: Id, change: EventChange, now: Time, s': State, ids: set<Id>)
    requires ClaimsRefer(s) && InventoryOk(s) && e !in s.events && change.Update? && now > s.clock
    requires s' == AddEvent(s, e, change).0.(clock := now)
    ensures SeatsStay(s, s', ids)
  {
    if AddEvent(s, e, change).1.Saved? { AddEventShape(s, e, change, now, s'); }
  }

  lemma OtherStepsKeepSeats(s: State, a: Action, now: Time, s': State)
    requires Enabled(s, a, now) && s' == Apply(s, a, now)
    requires !a.InsertEvent? && !a.CommitEdit? && !a.DeleteEvent?
    ensures s'.seats == s.seats
  {
    if a.CommitCreate? { CommitCreateKeepsSeats(s, a.txn, now); }
    else if a.OpenCreate? { OpenCreateKeepsSeats(s, a.txn, a.request, now); }
    else if a.OpenEdit? { OpenEditKeepsSeats(s, a.event, a.change); }
  }

  lemma CommitCreateKeepsSeats(s: State, t: Id, now: Time)
    requires t in s.creates
    ensures FinishCreate(s, t, now).0.seats == s.seats
  {
  }

  lemma OpenCreateKeepsSeats(s: State, t: Id, q: CreateRequest, now: Time)
    ensures BeginCreate(s, t, q, now).0.seats == s.seats
  {
  }

  lemma OpenEditKeepsSeats(s: State, e: Id, change: EventChange)
    requires e in s.events
    ensures BeginEdit(s, e, change).0.seats == s.seats
  {
  }

  /** A seat locked by an open creation keeps its row. */
  lemma HeldSeatsStay(s: State, a: Action, now: Time, s': State, t: Id)
    requires Inv(s) && Enabled(s, a, now) && s' == Apply(s, a, now) && HoldsLock(s.creates, t)
    ensures SeatsStay(s, s', s.creates[t].seats)
  {
    if a.CommitEdit? {
      CommitEditKeepsHeld(s, a.event, now, s', t);
    } else if a.DeleteEvent? {
      DeleteEventKeepsHeld(s, a.event, t);
    } else if a.InsertEvent? {
      InsertEventKeepsSeats(s, a.event, a.change, now, s', s.creates[t].seats);
    } else {
      OtherStepsKeepSeats(s, a, now, s');
    }
  }

  lemma SameNumbersOfSeats(s: State, s': State, ids: set<Id>)
    requires SeatsStay(s, s', ids) && forall x :: x in ids ==> x in s.seats
    ensures NumbersOfSeats(s'.seats, ids) == NumbersOfSeats(s.seats, ids)
  {
  }

  lemma SameNumbersOf(s: State, s': State, b: Id)
    requires Evolves(s, s') && b in s.bookings && forall c :: c in s.claims ==> c.seat in s.seats
    ensures NumbersOf(s', b) == NumbersOf(s, b)
  {
    forall c ensures c in s'.claims && c.booking == b <==> c in s.claims && c.booking == b {
      assert c in ClaimsOf(s'.claims, b) <==> c in ClaimsOf(s.claims, b);
    }
  }

  // ---------------------------------------------------------------- from the lookup to the lock

  lemma SameSizeSubset(a: set<int>, b: set<int>)
    requires a <= b && |a| == |b|
    ensures a == b
  {
    assert b == a + (b - a);
    assert |b| == |a| + |b - a|;
  }

  /** If all ids the lookup found are still there when they are locked, they are exactly the drafted seats. */
  lemma LockedAreDrafted(s: State, draft: Draft, ids: seq<Id>, rows: set<Id>, total: int)
    requires Translates(s.seats, draft, ids) && rows == (set x | x in ids && x in s.seats) && |rows| == |ids|
    requires ExactNumbers(s.seats, draft.event, total)
    ensures NumbersOfSeats(s.seats, rows) == NumberSet(draft.numbers)
  {
    var m := NumberMap(s.seats, rows);
    assert forall x :: x in rows ==> Numbered(s.seats, draft.event, x);
    NumbersInjective(s.seats, draft.event, total, rows);
    InjectiveSize(m);
    forall n ensures n in m.Values <==> n in NumbersOfSeats(s.seats, rows) {
      if n in NumbersOfSeats(s.seats, rows) {
        var x :| x in rows && x in s.seats && s.seats[x].spec.number == n;
        assert m[x] == n;
      }
    }
    assert m.Values == NumbersOfSeats(s.seats, rows);
    SameSizeSubset(NumbersOfSeats(s.seats, rows), NumberSet(draft.numbers));
  }

  /** A creation in flight or a booking, and the numbers it is for, against its draft. */
  ghost predicate Fits(drafts: map<nat, Draft>, key: string, event: Id, numbers: set<int>)
  {
    forall d: nat :: d in drafts && key == DraftKey(d) ==> event == drafts[d].event && numbers == NumberSet(drafts[d].numbers)
  }

  ghost predicate CreateFits(drafts: map<nat, Draft>, db: State, t: Id)
  {
    HoldsLock(db.creates, t) && db.creates[t].request.key.Some? ==>
      Fits(drafts, db.creates[t].request.key.value, db.creates[t].request.event, NumbersOfSeats(db.seats, db.creates[t].seats))
  }

  ghost predicate BookingFits(drafts: map<nat, Draft>, db: State, b: Id)
  {
    b in db.bookings ==> Fits(drafts, db.bookings[b].key, db.bookings[b].event, NumbersOf(db, b))
  }

  ghost predicate AllFit(drafts: map<nat, Draft>, db: State)
  {
    (forall t :: CreateFits(drafts, db, t)) && (forall b :: BookingFits(drafts, db, b))
  }

  lemma OpenedFits(w: World, k: Id, i: Input, now: Time, db': State)
    requires Inv(w.db) && DeskOk(w) && CanAct(w, Advance(k, i), now) && db' == RowsAfter(w, Advance(k, i), now)
    requires RowAction(w, Advance(k, i)).Some? && RowAction(w, Advance(k, i)).value.OpenCreate?
    requires HoldsLock(db'.creates, i.txn)
    ensures CreateFits(w.drafts, db', i.txn)
  {
    NodeOpensConfirmed(w, k, i);
    var draft := w.graphs.execs[k].values.draft;
    var q := DraftRequest(draft, i.price, i.seatIds);
    OpenedRows(w.db, i.txn, q, now);
    LockedInEvent(w.db, q, now, i.txn);
    LockedAreDrafted(w.db, draft, i.seatIds, LockedRows(w.db, q), w.db.events[draft.event].totalSeats);
    forall e: nat | e in w.drafts && DraftKey(draft.id) == DraftKey(e) ensures e == draft.id { DraftKeyInjective(draft.id, e); }
  }

  lemma OpenedRows(s: State, t: Id, q: CreateRequest, now: Time)
    requires t !in s.creates && HoldsLock(BeginCreate(s, t, q, now).0.creates, t)
    ensures var s' := BeginCreate(s, t, q, now).0;
            s'.creates[t].seats == LockedRows(s, q) && s'.creates[t].request == q && s'.seats == s.seats
    ensures |LockedRows(s, q)| == |q.seatIds| && q.seatIds != []
    ensures forall x :: x in LockedRows(s, q) ==> s.seats[x].event == q.event
  {
  }

  lemma LockedInEvent(s: State, q: CreateRequest, now: Time, t: Id)
    requires Inv(s) && t !in s.creates && HoldsLock(BeginCreate(s, t, q, now).0.creates, t)
    ensures q.event in s.events && ExactNumbers(s.seats, q.event, s.events[q.event].totalSeats)
  {
    OpenedRows(s, t, q, now);
    DistinctOnceCounted(s, q);
    var x := q.seatIds[0];
    assert x in Distinct(q.seatIds);
  }

  // ---------------------------------------------------------------- steps

  lemma HeldSeatsExist(s: State, t: Id)
    requires CreatesOk(s) && HoldsLock(s.creates, t)
    ensures forall x :: x in s.creates[t].seats ==> x in s.seats
  {
    assert CreateOk(s, s.creates[t]);
    assert forall x :: x in s.creates[t].seats ==> Numbered(s.seats, s.creates[t].request.event, x);
  }

  lemma SameCreateFits(drafts: map<nat, Draft>, s: State, s': State, t: Id)
    requires HoldsLock(s.creates, t) && HoldsLock(s'.creates, t) && s'.creates[t] == s.creates[t] && CreateFits(drafts, s, t)
    requires NumbersOfSeats(s'.seats, s.creates[t].seats) == NumbersOfSeats(s.seats, s.creates[t].seats)
    ensures CreateFits(drafts, s', t)
  {
  }

  lemma HeldCreateFits(drafts: map<nat, Draft>, s: State, a: Action, now: Time, s': State, t: Id)
    requires Inv(s) && Enabled(s, a, now) && s' == Apply(s, a, now) && CreateFits(drafts, s, t)
    requires HoldsLock(s.creates, t) && HoldsLock(s'.creates, t) && s'.creates[t] == s.creates[t]
    ensures CreateFits(drafts, s', t)
  {
    HeldSeatsStay(s, a, now, s', t);
    HeldSeatsExist(s, t);
    SameNumbersOfSeats(s, s', s.creates[t].seats);
    SameCreateFits(drafts, s, s', t);
  }

  lemma KeptBookingFits(drafts: map<nat, Draft>, s: State, s': State, b: Id)
    requires Evolves(s, s') && b in s.bookings && BookingFits(drafts, s, b)
    requires forall c :: c in s.claims ==> c.seat in s.seats
    ensures BookingFits(drafts, s', b)
  {
    SameNumbersOf(s, s', b);
    assert BookingEvolves(s, s', b);
  }

  lemma NewBookingNumbers(s: State, t: Id, s': State)
    requires ClaimsRefer(s) && BookingsOk(s) && Inserted(s, t, s')
    ensures NumbersOf(s', s.nextBooking) == NumbersOfSeats(s.seats, s.creates[t].seats)
  {
    var b, chosen := s.nextBooking, s.creates[t].seats;
    NewBookingIsUnclaimed(s);
    forall n ensures n in NumbersOf(s', b) <==> n in NumbersOfSeats(s.seats, chosen) {
      if n in NumbersOf(s', b) {
        var c :| c in s'.claims && c.booking == b && c.seat in s'.seats && s'.seats[c.seat].spec.number == n;
        InsertedClaims(s.claims, b, chosen, c);
      }
      if n in NumbersOfSeats(s.seats, chosen) {
        var x :| x in chosen && x in s.seats && s.seats[x].spec.number == n;
        InsertedClaims(s.claims, b, chosen, Claim(b, x));
        assert Claim(b, x) in s'.claims;
      }
    }
  }

  lemma NewBookingFits(drafts: map<nat, Draft>, s: State, t: Id, s': State)
    requires ClaimsRefer(s) && BookingsOk(s) && Inserted(s, t, s') && CreateFits(drafts, s, t)
    ensures BookingFits(drafts, s', s.nextBooking)
  {
    NewBookingNumbers(s, t, s');
  }

  lemma OthersAddNone(s: State, a: Action, now: Time, s': State, b: Id)
    requires Enabled(s, a, now) && s' == Apply(s, a, now) && !a.CommitCreate?
    ensures b in s'.bookings ==> b in s.bookings
  {
    if TouchesBookings(a) {
      OtherKeys(s, a, now, s');
      assert b in s'.bookings.Keys <==> b in s.bookings.Keys;
    } else {
      PassiveStep(s, a, now, s');
    }
  }

  /** Which bookings a step adds. */
  lemma AddedBooking(s: State, a: Action, now: Time, s': State, b: Id)
    requires ClaimsRefer(s) && BookingsOk(s) && Enabled(s, a, now) && s' == Apply(s, a, now) && b in s'.bookings && b !in s.bookings
    ensures a.CommitCreate? && b == s.nextBooking && Inserted(s, a.txn, s')
  {
    if !a.CommitCreate? {
      OthersAddNone(s, a, now, s', b);
    } else if InsertAllowed(s, s.creates[a.txn]) {
      CommitCreateInserts(s, a.txn, now, s');
    } else {
      CommitCreateRefused(s, a.txn, now, s');
    }
  }

  lemma BookingsFit(drafts: map<nat, Draft>, s: State, a: Action, now: Time, s': State, b: Id)
    requires Inv(s) && Enabled(s, a, now) && s' == Apply(s, a, now) && AllFit(drafts, s)
    ensures BookingFits(drafts, s', b)
  {
    if b in s'.bookings {
      if b in s.bookings {
        StepEvolves(s, a, now, s');
        assert BookingFits(drafts, s, b);
        KeptBookingFits(drafts, s, s', b);
      } else {
        AddedBooking(s, a, now, s', b);
        assert CreateFits(drafts, s, a.txn);
        NewBookingFits(drafts, s, a.txn, s');
      }
    }
  }

  /** A creation in flight after a step was there before, unchanged, or this step opened it. */
  lemma HeldOrOpened(s: State, a: Action, now: Time, s': State, t: Id)
    requires Enabled(s, a, now) && s' == Apply(s, a, now) && HoldsLock(s'.creates, t)
    ensures || (HoldsLock(s.creates, t) && s'.creates[t] == s.creates[t])
            || (a.OpenCreate? && a.txn == t && t !in s.creates)
  {
    if a.OpenCreate? {
      if a.txn != t { OpenedOrSame(s, a.txn, a.request, now, t); }
    } else if a.CommitCreate? {
      FinishCreateOrigin(s, a.txn, now, t);
    } else if a.LookupCreate? {
      LookupOrigin(s, a.txn, t);
    } else {
      SameCreates(s, a, now, s');
    }
  }

  lemma OpenedOrSame(s: State, u: Id, q: CreateRequest, now: Time, t: Id)
    requires HoldsLock(BeginCreate(s, u, q, now).0.creates, t) && u != t
    ensures HoldsLock(s.creates, t) && BeginCreate(s, u, q, now).0.creates[t] == s.creates[t]
  {
  }

  lemma CreatesFit(w: World, a: Action, now: Time, db': State, t: Id)
    requires Inv(w.db) && Enabled(w.db, a, now) && db' == Apply(w.db, a, now) && AllFit(w.drafts, w.db)
    requires a.OpenCreate? ==> CreateFits(w.drafts, db', a.txn)
    ensures CreateFits(w.drafts, db', t)
  {
    if HoldsLock(db'.creates, t) {
      HeldOrOpened(w.db, a, now, db', t);
      if HoldsLock(w.db.creates, t) && db'.creates[t] == w.db.creates[t] {
        assert CreateFits(w.drafts, w.db, t);
        HeldCreateFits(w.drafts, w.db, a, now, db', t);
      }
    }
  }

  lemma OutsideFits(drafts: map<nat, Draft>, s: State, t: Id, q: CreateRequest, now: Time, s': State)
    requires Outside(OpenCreate(t, q)) && t !in s.creates && s' == BeginCreate(s, t, q, now).0.(clock := now)
    ensures CreateFits(drafts, s', t)
  {
    if HoldsLock(s'.creates, t) && q.key.Some? {
      OpenedRows(s, t, q, now);
      forall d: nat | q.key.value == DraftKey(d) ensures false { assert IsDraftKey(q.key.value); }
    }
  }

  lemma EngineStepFits(w: World, a: Action, now: Time, db': State)
    requires Inv(w.db) && Enabled(w.db, a, now) && db' == Apply(w.db, a, now) && AllFit(w.drafts, w.db)
    requires a.OpenCreate? ==> CreateFits(w.drafts, db', a.txn)
    ensures AllFit(w.drafts, db')
  {
    forall t ensures CreateFits(w.drafts, db', t) { CreatesFit(w, a, now, db', t); }
    forall b ensures BookingFits(w.drafts, db', b) { BookingsFit(w.drafts, w.db, a, now, db', b); }
  }

  lemma RowsFit(w: World, a: Act, now: Time)
    requires Inv(w.db) && DeskOk(w) && AllFit(w.drafts, w.db) && CanAct(w, a, now)
    ensures AllFit(w.drafts, RowsAfter(w, a, now))
  {
    var db' := RowsAfter(w, a, now);
    if RowAction(w, a).Some? {
      var action := RowAction(w, a).value;
      if action.OpenCreate? {
        if a.OnRows? {
          OutsideFits(w.drafts, w.db, action.txn, action.request, now, db');
        } else if HoldsLock(db'.creates, action.txn) {
          NodeOpensConfirmed(w, a.exec, a.input);
          OpenedFits(w, a.exec, a.input, now, db');
        }
      }
      EngineStepFits(w, action, now, db');
    } else {
      TickFits(w.drafts, w.db, now);
    }
  }

  lemma TickFits(drafts: map<nat, Draft>, s: State, now: Time)
    requires AllFit(drafts, s)
    ensures AllFit(drafts, s.(clock := now))
  {
    forall t ensures CreateFits(drafts, s.(clock := now), t) { assert CreateFits(drafts, s, t); }
    forall b ensures BookingFits(drafts, s.(clock := now), b) {
      assert BookingFits(drafts, s, b);
      assert NumbersOf(s.(clock := now), b) == NumbersOf(s, b);
    }
  }

  /** A draft that has not been staged yet has no rows under its key. */
  lemma NewDraftFits(w: World, w': World, db: State)
    requires DeskOk(w) && AllBacked(w, db) && AllFit(w.drafts, db)
    requires forall d :: d in w'.drafts ==> (d in w.drafts && w'.drafts[d] == w.drafts[d]) || d >= w.nextDraft
    ensures AllFit(w'.drafts, db)
  {
    forall t ensures CreateFits(w'.drafts, db, t) {
      assert CreateFits(w.drafts, db, t);
      if HoldsLock(db.creates, t) && db.creates[t].request.key.Some? {
        assert Backed(w, db.creates[t].request.user, db.creates[t].request.key.value);
      }
    }
    forall b ensures BookingFits(w'.drafts, db, b) {
      assert BookingFits(w.drafts, db, b);
      if b in db.bookings { assert Backed(w, db.bookings[b].user, db.bookings[b].key); }
    }
  }

  lemma DeskAddsNewDrafts(w: World, a: Act, now: Time)
    requires CanAct(w, a, now)
    ensures forall d :: d in DeskAfter(w, a, now).drafts ==>
              (d in w.drafts && DeskAfter(w, a, now).drafts[d] == w.drafts[d]) || d >= w.nextDraft
  {
  }

  lemma ActKeepsFit(w: World, a: Act, now: Time, w': World)
    requires DraftInv(w) && AllFit(w.drafts, w.db) && CanAct(w, a, now) && w' == After(w, a, now)
    ensures AllFit(w'.drafts, w'.db)
  {
    RowsFit(w, a, now);
    RowsBacked(w, a, now);
    DeskAddsNewDrafts(w, a, now);
    NewDraftFits(w, w', RowsAfter(w, a, now));
  }

  lemma NothingYetFits(drafts: map<nat, Draft>, s: State)
    requires s.creates == map[] && s.bookings == map[]
    ensures AllFit(drafts, s)
  {
  }

  lemma {:induction false} DraftRunFits(worlds: seq<World>, moments: seq<Moment>, n: nat)
    requires IsAssistantRun(worlds, moments) && n < |worlds|
    ensures AllFit(worlds[n].drafts, worlds[n].db)
  {
    if n == 0 {
      NothingYetFits(worlds[0].drafts, worlds[0].db);
    } else {
      DraftRunFits(worlds, moments, n - 1);
      DraftRunKeepsInv(worlds, moments, n - 1);
      assert ActsAt(worlds, moments, n - 1);
      ActKeepsFit(worlds[n - 1], moments[n - 1].act, moments[n - 1].now, worlds[n]);
    }
  }

  /**
    What was proposed is what is booked: in every run, whatever edits, deletions and other
    bookings come between the proposal, the click and the commit, a booking made from a
    draft is for the draft's event and for exactly the seat numbers the draft showed.
   */
  lemma BookedAsDrafted(worlds: seq<World>, moments: seq<Moment>, n: nat, d: nat, b: Id)
    requires IsAssistantRun(worlds, moments) && n < |worlds| && BookedBy(worlds[n], d, b)
    ensures d in worlds[n].drafts
    ensures worlds[n].db.bookings[b].event == worlds[n].drafts[d].event
    ensures NumbersOf(worlds[n].db, b) == NumberSet(worlds[n].drafts[d].numbers)
  {
    OneBookingPerDraft(worlds, moments, n, d, b, d, b);
    DraftRunFits(worlds, moments, n);
    assert BookingFits(worlds[n].drafts, worlds[n].db, b);
  }
}
