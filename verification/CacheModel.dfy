/** The event cache beside the rows: what a cached entry is worth. */
module CacheModel {
  import opened Wrappers
  import opened Rows
  import opened Engine
  import opened Invariant
  import opened Preservation
  import opened Safety
  import opened Availability

  const CACHE_TTL: int := 300 * 1_000_000

  /** A serialized event: its row and the computed number of available seats. */
  datatype Entry = Entry(event: Event, available: int)

  /** What a listing's key is made of: its date range and its ordering, which only arranges the same entries. */
  datatype Listing = Listing(range: Option<(Time, Time)>, ordering: Option<string>)

  datatype Cached<T> = Cached(value: T, filledAt: Time)

  datatype Cache = Cache(details: map<Id, Cached<Entry>>, listings: map<Listing, Cached<map<Id, Entry>>>)

  // ---------------------------------------------------------------- the queries behind the cache

  function EntryOf(s: State, e: Id, now: Time): Entry
    requires e in s.events
  {
    Entry(s.events[e], AnnotatedAvailable(s, e, now))
  }

  /** The single-event query; archived events are not found. */
  function DetailQuery(s: State, e: Id, now: Time): Option<Entry>
  {
    if e in s.events && !s.events[e].archived then Some(EntryOf(s, e, now)) else None
  }

  predicate Listed(q: Listing, row: Event)
  {
    !row.archived && (q.range.Some? ==> q.range.value.0 <= row.startTime <= q.range.value.1)
  }

  function ListQuery(s: State, q: Listing, now: Time): map<Id, Entry>
  {
    map e | e in s.events && Listed(q, s.events[e]) :: EntryOf(s, e, now)
  }

  // ---------------------------------------------------------------- steps

  /** Events whose cache entries the step's commit callbacks delete. */
  ghost function Invalidated(s: State, a: Action, now: Time): set<Id>
    requires Enabled(s, a, now)
  {
    match a
    case CommitCreate(t) => if FinishCreate(s, t, now).1.Created? then {s.creates[t].request.event} else {}
    case PayBooking(b, success) =>
      var reply := Pay(s, b, success, now).1;
      if b in s.bookings && (reply.Releases() || (reply.Charged? && reply.success)) then {s.bookings[b].event} else {}
    case SweepBooking(b) => if SweepDue(s.bookings[b], now) then {s.bookings[b].event} else {}
    case CancelBooking(b) => {s.bookings[b].event}
    case InsertEvent(e, change) => if AddEvent(s, e, change).1.Saved? then {e} else {}
    case CommitEdit(e) => if FinishEdit(s, e).1.Saved? && s.edits[e].viaApi then {e} else {}
    case DeleteEvent(e) => if DestroyEvent(s, e).1.Saved? then {e} else {}
    case _ => {}
  }

  /** Deletes the detail keys, and every listing when the backend can delete by pattern. */
  function Invalidate(c: Cache, events: set<Id>, byPattern: bool): Cache
  {
    if events == {} then c
    else c.(details := c.details - events, listings := if byPattern then map[] else c.listings)
  }

  predicate Fresh<T>(c: Cached<T>, now: Time) { now < c.filledAt + CACHE_TTL }

  /** Cache-aside read of one event: a live hit, or query and fill. */
  function ReadDetail(s: State, c: Cache, e: Id, now: Time): (Cache, Option<Entry>)
  {
    if e in c.details && Fresh(c.details[e], now) then (c, Some(c.details[e].value))
    else
      var found := DetailQuery(s, e, now);
      (if found.Some? then c.(details := c.details[e := Cached(found.value, now)]) else c.(details := c.details - {e}), found)
  }

  function ReadListing(s: State, c: Cache, q: Listing, now: Time): (Cache, map<Id, Entry>)
  {
    if q in c.listings && Fresh(c.listings[q], now) then (c, c.listings[q].value)
    else
      var found := ListQuery(s, q, now);
      (c.(listings := c.listings[q := Cached(found, now)]), found)
  }

  datatype CacheLabel =
    | OnRows(step: Label)
    | GetDetail(event: Id, at: Time)
    | GetListing(query: Listing, at: Time)
    | Evict(details: set<Id>, listings: set<Listing>)

  datatype Both = Both(db: State, cache: Cache)

  ghost predicate CanStep(w: Both, l: CacheLabel)
  {
    match l
    case OnRows(dl) => Enabled(w.db, dl.action, dl.now) && !(dl.action.OpenEdit? && dl.action.change.Resync?)
    case GetDetail(_, at) => at > w.db.clock
    case GetListing(_, at) => at > w.db.clock
    case Evict(_, _) => true
  }

  ghost function StepBoth(w: Both, l: CacheLabel, byPattern: bool): Both
    requires CanStep(w, l)
  {
    match l
    case OnRows(dl) =>
      Both(Apply(w.db, dl.action, dl.now), Invalidate(w.cache, Invalidated(w.db, dl.action, dl.now), byPattern))
    case GetDetail(e, at) => Both(w.db.(clock := at), ReadDetail(w.db, w.cache, e, at).0)
    case GetListing(q, at) => Both(w.db.(clock := at), ReadListing(w.db, w.cache, q, at).0)
    case Evict(details, listings) =>
      w.(cache := Cache(w.cache.details - details, w.cache.listings - listings))
  }

  ghost predicate IsCacheRun(worlds: seq<Both>, labels: seq<CacheLabel>, byPattern: bool)
  {
    && |worlds| == |labels| + 1
    && worlds[0] == Both(EmptyState(worlds[0].db.clock), Cache(map[], map[]))
    && forall i :: 0 <= i < |labels| ==> CacheStepAt(worlds, labels, byPattern, i)
  }

  ghost predicate CacheStepAt(worlds: seq<Both>, labels: seq<CacheLabel>, byPattern: bool, i: nat)
    requires i < |labels| && |worlds| == |labels| + 1
  {
    CanStep(worlds[i], labels[i]) && worlds[i + 1] == StepBoth(worlds[i], labels[i], byPattern)
  }

  // ---------------------------------------------------------------- coherence

  /** Every entry is what its query gives on the current rows at the clock of its fill. */
  ghost predicate DetailsCoherent(s: State, details: map<Id, Cached<Entry>>)
  {
    forall e :: e in details ==>
      details[e].filledAt <= s.clock && DetailQuery(s, e, details[e].filledAt) == Some(details[e].value)
  }

  ghost predicate ListingsCoherent(s: State, listings: map<Listing, Cached<map<Id, Entry>>>)
  {
    forall q :: q in listings ==>
      listings[q].filledAt <= s.clock && ListQuery(s, q, listings[q].filledAt) == listings[q].value
  }

  /** Neither the event's row nor its taken seats, at any instant, can be told apart. */
  ghost predicate LooksSame(s: State, s': State, e: Id)
  {
    && (e in s'.events <==> e in s.events)
    && (e in s.events ==> s'.events[e] == s.events[e])
    && forall at: Time :: TakenRows(s', e, at) == TakenRows(s, e, at)
  }

  /** A booking change hides from other events, and a hold that stays a hold hides from its own. */
  lemma RowChangeLooksSame(s: State, s': State, b: Id, e: Id)
    requires ClaimsRefer(s) && InStep(s.bookings, s.claims) && RowChange(s, s', b)
    requires s.bookings[b].event == e ==> forall at :: s'.bookings[b].Held(at) == s.bookings[b].Held(at)
    ensures LooksSame(s, s', e)
  {
    RowChangeClaims(s, s', b);
    forall at: Time ensures TakenRows(s', e, at) == TakenRows(s, e, at) {
      assert forall c :: c in s'.claims.Keys <==> c in s.claims.Keys;
      forall c | c in s.claims && Numbered(s.seats, e, c.seat)
        ensures Taken(s'.bookings, c, at) <==> Taken(s.bookings, c, at)
      {
        if c.booking == b { assert s.bookings[b].event == e; }
      }
    }
  }

  lemma PayLooksSame(s: State, b: Id, success: bool, now: Time, s': State, e: Id)
    requires ClaimsRefer(s) && BookingsOk(s) && InStep(s.bookings, s.claims) && now > s.clock
    requires s' == Pay(s, b, success, now).0.(clock := now)
    requires e !in Invalidated(s, PayBooking(b, success), now)
    ensures LooksSame(s, s', e)
  {
    if b in s.bookings {
      assert RowOk(s, b);
      PayIsRowChange(s, b, success, now);
      RowChangeLooksSame(s, s', b, e);
    }
  }

  lemma SweepLooksSame(s: State, b: Id, now: Time, s': State, e: Id)
    requires ClaimsRefer(s) && BookingsOk(s) && InStep(s.bookings, s.claims) && b in s.bookings && now > s.clock
    requires s' == Sweep(s, b, now).(clock := now)
    requires e !in Invalidated(s, SweepBooking(b), now)
    ensures LooksSame(s, s', e)
  {
    assert RowOk(s, b);
    SweepIsRowChange(s, b, now);
    RowChangeLooksSame(s, s', b, e);
  }

  lemma CancelLooksSame(s: State, b: Id, now: Time, s': State, e: Id)
    requires ClaimsRefer(s) && BookingsOk(s) && InStep(s.bookings, s.claims) && b in s.bookings && b in s.stale && now > s.clock
    requires s' == SetStatusAndRelease(s, b, Cancelled).(clock := now)
    requires e != s.bookings[b].event
    ensures LooksSame(s, s', e)
  {
    assert RowOk(s, b);
    CancelIsRowChange(s, b, now);
    RowChangeLooksSame(s, s', b, e);
  }

  lemma InsertLooksSame(s: State, t: Id, s': State, e: Id)
    requires ClaimsRefer(s) && BookingsOk(s) && CreatesOk(s) && Inserted(s, t, s')
    requires e != s.creates[t].request.event
    ensures LooksSame(s, s', e)
  {
    NewBookingIsUnclaimed(s);
    var txn := s.creates[t];
    assert CreateOk(s, txn);
    forall at: Time ensures TakenRows(s', e, at) == TakenRows(s, e, at) {
      forall c ensures c in TakenRows(s', e, at) <==> c in TakenRows(s, e, at) {
        InsertedClaims(s.claims, s.nextBooking, txn.seats, c);
        assert c.seat in txn.seats ==> Numbered(s.seats, txn.request.event, c.seat);
      }
    }
  }

  lemma SameRowsLookSame(s: State, s': State, e: Id)
    requires s'.bookings == s.bookings && s'.claims == s.claims
    requires e in s'.events <==> e in s.events
    requires e in s.events ==> s'.events[e] == s.events[e]
    requires forall c :: c in s.claims ==> (Numbered(s'.seats, e, c.seat) <==> Numbered(s.seats, e, c.seat))
    ensures LooksSame(s, s', e)
  {
    forall at: Time ensures TakenRows(s', e, at) == TakenRows(s, e, at) {
    }
  }

  lemma CommitEditLooksSame(s: State, f: Id, now: Time, s': State, e: Id)
    requires ClaimsRefer(s) && InventoryOk(s) && EditsOk(s) && f in s.edits && s.edits[f].viaApi && now > s.clock
    requires s' == FinishEdit(s, f).0.(clock := now)
    requires e !in Invalidated(s, CommitEdit(f), now)
    ensures LooksSame(s, s', e)
  {
    CommitEditSucceeds(s, f);
    CommitEditShape(s, f);
    EditedLooksSame(s, f, s', e);
  }

  lemma EditedLooksSame(s: State, f: Id, s': State, e: Id)
    requires ClaimsRefer(s) && f in s.edits && EditOk(s, f, s.edits[f]) && e != f
    requires Edited(s, s'.(clock := s.clock), f)
    ensures LooksSame(s, s', e)
  {
    forall c | c in s.claims ensures Numbered(s'.seats, e, c.seat) <==> Numbered(s.seats, e, c.seat) {
      assert c.seat !in s.edits[f].removed;
    }
    SameRowsLookSame(s, s', e);
  }

  lemma InsertEventLooksSame(s: State, f: Id, change: EventChange, now: Time, s': State, e: Id)
    requires ClaimsRefer(s) && InventoryOk(s) && f !in s.events && change.Update? && now > s.clock
    requires s' == AddEvent(s, f, change).0.(clock := now) && AddEvent(s, f, change).1.Saved? && e != f
    ensures LooksSame(s, s', e)
  {
    AddEventShape(s, f, change, now, s');
    SameRowsLookSame(s, s', e);
  }

  lemma DeleteEventLooksSame(s: State, f: Id, now: Time, s': State, e: Id)
    requires now > s.clock && s' == DestroyEvent(s, f).0.(clock := now) && DestroyEvent(s, f).1.Saved? && e != f
    ensures LooksSame(s, s', e)
  {
    SameRowsLookSame(s, s', e);
  }

  lemma EventRowsLookSame(s: State, a: Action, now: Time, s': State, e: Id)
    requires ClaimsRefer(s) && InventoryOk(s) && Enabled(s, a, now) && s' == Apply(s, a, now)
    requires a.InsertEvent? || a.DeleteEvent?
    requires e !in Invalidated(s, a, now)
    ensures LooksSame(s, s', e)
  {
    if a.InsertEvent? && AddEvent(s, a.event, a.change).1.Saved? {
      InsertEventLooksSame(s, a.event, a.change, now, s', e);
    } else if a.DeleteEvent? && DestroyEvent(s, a.event).1.Saved? {
      DeleteEventLooksSame(s, a.event, now, s', e);
    } else {
      assert s' == s.(clock := now);
      SameRowsLookSame(s, s', e);
    }
  }

  ghost predicate AllViaApi(s: State)
  {
    forall e :: e in s.edits ==> s.edits[e].viaApi
  }

  lemma CommitCreateLooksSame(s: State, t: Id, now: Time, s': State, e: Id)
    requires ClaimsRefer(s) && BookingsOk(s) && CreatesOk(s) && HoldsLock(s.creates, t) && now > s.clock
    requires s' == FinishCreate(s, t, now).0.(clock := now)
    requires FinishCreate(s, t, now).1.Created? ==> e != s.creates[t].request.event
    ensures LooksSame(s, s', e)
  {
    if InsertAllowed(s, s.creates[t]) {
      CommitCreateInserts(s, t, now, s');
      InsertLooksSame(s, t, s', e);
    } else {
      CommitCreateRefused(s, t, now, s');
      SameRowsLookSame(s, s', e);
    }
  }

  lemma BookingStepLooksSame(s: State, a: Action, now: Time, s': State, e: Id)
    requires Inv(s) && Enabled(s, a, now) && s' == Apply(s, a, now)
    requires a.CommitCreate? || a.PayBooking? || a.SweepBooking? || a.CancelBooking?
    requires e !in Invalidated(s, a, now)
    ensures LooksSame(s, s', e)
  {
    match a {
      case CommitCreate(t) => CommitCreateLooksSame(s, t, now, s', e);
      case PayBooking(b, success) => PayLooksSame(s, b, success, now, s', e);
      case SweepBooking(b) => SweepLooksSame(s, b, now, s', e);
      case CancelBooking(b) => CancelLooksSame(s, b, now, s', e);
    }
  }

  /** Whatever a step does not invalidate it does not change: in particular a declined payment. */
  lemma UninvalidatedLooksSame(s: State, a: Action, now: Time, s': State, e: Id)
    requires Inv(s) && AllViaApi(s) && Enabled(s, a, now) && s' == Apply(s, a, now)
    requires e !in Invalidated(s, a, now)
    ensures LooksSame(s, s', e)
  {
    if a.CommitCreate? || a.PayBooking? || a.SweepBooking? || a.CancelBooking? {
      BookingStepLooksSame(s, a, now, s', e);
    } else if a.CommitEdit? {
      CommitEditLooksSame(s, a.event, now, s', e);
    } else if a.InsertEvent? || a.DeleteEvent? {
      EventRowsLookSame(s, a, now, s', e);
    } else {
      PassiveStep(s, a, now, s');
      PassiveInventory(s, a, now, s');
      SameRowsLookSame(s, s', e);
    }
  }

  lemma PassiveInventory(s: State, a: Action, now: Time, s': State)
    requires Enabled(s, a, now) && s' == Apply(s, a, now)
    requires a.FastPath? || a.OpenCreate? || a.LookupCreate? || a.ReadForCancel? || a.OpenEdit?
    ensures SameInventory(s, s')
  {
    match a {
      case OpenCreate(t, q) => OpenCreateKeepsInventory(s, t, q, now);
      case OpenEdit(e, change) => OpenEditKeepsInventory(s, e, change);
      case _ =>
    }
  }

  lemma OpenCreateKeepsInventory(s: State, t: Id, q: CreateRequest, now: Time)
    ensures SameInventory(s, BeginCreate(s, t, q, now).0)
  {
  }

  lemma OpenEditKeepsInventory(s: State, e: Id, change: EventChange)
    requires e in s.events
    ensures SameInventory(s, BeginEdit(s, e, change).0)
  {
  }

  lemma LooksSameSameEntry(s: State, s': State, e: Id, at: Time)
    requires LooksSame(s, s', e)
    ensures DetailQuery(s', e, at) == DetailQuery(s, e, at)
  {
    assert TakenRows(s', e, at) == TakenRows(s, e, at);
  }

  // ---------------------------------------------------------------- preservation

  ghost predicate CacheInv(w: Both, byPattern: bool)
  {
    && Inv(w.db) && AllViaApi(w.db)
    && DetailsCoherent(w.db, w.cache.details)
    && (byPattern ==> ListingsCoherent(w.db, w.cache.listings))
  }

  lemma StepKeepsApiEdits(s: State, a: Action, now: Time, s': State)
    requires AllViaApi(s) && Enabled(s, a, now) && s' == Apply(s, a, now)
    requires !(a.OpenEdit? && a.change.Resync?)
    ensures AllViaApi(s')
  {
    if a.OpenEdit? {
      OpenEditEdits(s, a.event, a.change);
    } else if a.OpenCreate? {
      OpenCreateKeepsEdits(s, a.txn, a.request, now);
    } else if a.CommitEdit? {
      CommitEditEdits(s, a.event);
    } else {
      OtherEdits(s, a, now, s');
    }
  }

  lemma CommitEditEdits(s: State, e: Id)
    requires e in s.edits
    ensures FinishEdit(s, e).0.edits == s.edits - {e}
  {
  }

  lemma OtherEdits(s: State, a: Action, now: Time, s': State)
    requires Enabled(s, a, now) && s' == Apply(s, a, now) && !a.OpenEdit? && !a.OpenCreate? && !a.CommitEdit?
    ensures s'.edits == s.edits
  {
    if a.CommitCreate? { CommitCreateKeepsEdits(s, a.txn, now); }
  }

  lemma CommitCreateKeepsEdits(s: State, t: Id, now: Time)
    requires t in s.creates
    ensures FinishCreate(s, t, now).0.edits == s.edits
  {
  }

  lemma OpenEditEdits(s: State, e: Id, change: EventChange)
    requires e in s.events && change.Update? && AllViaApi(s)
    ensures AllViaApi(BeginEdit(s, e, change).0)
  {
  }

  lemma OpenCreateKeepsEdits(s: State, t: Id, q: CreateRequest, now: Time)
    ensures BeginCreate(s, t, q, now).0.edits == s.edits
  {
  }

  lemma DetailsStayCoherent(s: State, a: Action, now: Time, s': State, details: map<Id, Cached<Entry>>)
    requires Inv(s) && AllViaApi(s) && Enabled(s, a, now) && s' == Apply(s, a, now)
    requires DetailsCoherent(s, details)
    ensures DetailsCoherent(s', details - Invalidated(s, a, now))
  {
    var kept := details - Invalidated(s, a, now);
    forall e | e in kept
      ensures kept[e].filledAt <= s'.clock && DetailQuery(s', e, kept[e].filledAt) == Some(kept[e].value)
    {
      UninvalidatedLooksSame(s, a, now, s', e);
      LooksSameSameEntry(s, s', e, details[e].filledAt);
    }
  }

  lemma ListingLooksSame(s: State, s': State, q: Listing, at: Time)
    requires forall e :: LooksSame(s, s', e)
    ensures ListQuery(s', q, at) == ListQuery(s, q, at)
  {
    forall e ensures DetailQuery(s', e, at) == DetailQuery(s, e, at) && (e in s'.events <==> e in s.events) {
      assert LooksSame(s, s', e);
      LooksSameSameEntry(s, s', e, at);
    }
    assert forall e :: e in s.events ==> s'.events[e] == s.events[e] by {
      forall e | e in s.events ensures s'.events[e] == s.events[e] { assert LooksSame(s, s', e); }
    }
  }

  lemma ListingsStayCoherent(s: State, a: Action, now: Time, s': State, listings: map<Listing, Cached<map<Id, Entry>>>)
    requires Inv(s) && AllViaApi(s) && Enabled(s, a, now) && s' == Apply(s, a, now)
    requires ListingsCoherent(s, listings) && Invalidated(s, a, now) == {}
    ensures ListingsCoherent(s', listings)
  {
    forall e ensures LooksSame(s, s', e) {
      UninvalidatedLooksSame(s, a, now, s', e);
    }
    forall q | q in listings
      ensures listings[q].filledAt <= s'.clock && ListQuery(s', q, listings[q].filledAt) == listings[q].value
    {
      ListingLooksSame(s, s', q, listings[q].filledAt);
    }
  }

  lemma InvalidateKeepsCoherent(s: State, c: Cache, gone: set<Id>, byPattern: bool)
    requires DetailsCoherent(s, c.details - gone)
    requires byPattern && gone == {} ==> ListingsCoherent(s, c.listings)
    ensures DetailsCoherent(s, Invalidate(c, gone, byPattern).details)
    ensures byPattern ==> ListingsCoherent(s, Invalidate(c, gone, byPattern).listings)
  {
    if gone == {} { assert c.details - gone == c.details; }
  }

  lemma RowsStepKeepsCoherent(s: State, c: Cache, a: Action, now: Time, byPattern: bool, s': State)
    requires Inv(s) && AllViaApi(s) && Enabled(s, a, now) && s' == Apply(s, a, now)
    requires DetailsCoherent(s, c.details) && (byPattern ==> ListingsCoherent(s, c.listings))
    ensures DetailsCoherent(s', Invalidate(c, Invalidated(s, a, now), byPattern).details)
    ensures byPattern ==> ListingsCoherent(s', Invalidate(c, Invalidated(s, a, now), byPattern).listings)
  {
    DetailsStayCoherent(s, a, now, s', c.details);
    if byPattern && Invalidated(s, a, now) == {} { ListingsStayCoherent(s, a, now, s', c.listings); }
    InvalidateKeepsCoherent(s', c, Invalidated(s, a, now), byPattern);
  }

  lemma RowsStepKeepsCache(w: Both, dl: Label, byPattern: bool, w': Both)
    requires CacheInv(w, byPattern) && CanStep(w, OnRows(dl)) && w' == StepBoth(w, OnRows(dl), byPattern)
    ensures CacheInv(w', byPattern)
  {
    StepKeepsInv(w.db, dl.action, dl.now, w'.db);
    StepKeepsApiEdits(w.db, dl.action, dl.now, w'.db);
    RowsStepKeepsCoherent(w.db, w.cache, dl.action, dl.now, byPattern, w'.db);
  }

  /** The queries do not look at the clock of the state. */
  lemma ClockUnseen(s: State, now: Time)
    ensures forall e, at :: DetailQuery(s.(clock := now), e, at) == DetailQuery(s, e, at)
    ensures forall q, at :: ListQuery(s.(clock := now), q, at) == ListQuery(s, q, at)
  {
    var s' := s.(clock := now);
    forall e, at ensures TakenRows(s', e, at) == TakenRows(s, e, at) {
    }
    forall q, at ensures ListQuery(s', q, at) == ListQuery(s, q, at) {
    }
  }

  lemma ReadKeepsCache(w: Both, l: CacheLabel, byPattern: bool, w': Both)
    requires DetailsCoherent(w.db, w.cache.details) && (byPattern ==> ListingsCoherent(w.db, w.cache.listings))
    requires l.GetDetail? || l.GetListing?
    requires CanStep(w, l) && w' == StepBoth(w, l, byPattern)
    ensures DetailsCoherent(w'.db, w'.cache.details) && (byPattern ==> ListingsCoherent(w'.db, w'.cache.listings))
  {
    ClockUnseen(w.db, l.at);
  }

  lemma CacheStepKeepsInv(w: Both, l: CacheLabel, byPattern: bool, w': Both)
    requires CacheInv(w, byPattern) && CanStep(w, l) && w' == StepBoth(w, l, byPattern)
    ensures CacheInv(w', byPattern)
  {
    if l.OnRows? {
      RowsStepKeepsCache(w, l.step, byPattern, w');
    } else if l.GetDetail? || l.GetListing? {
      TickKeepsInv(w.db, l.at);
      ReadKeepsCache(w, l, byPattern, w');
    }
  }

  lemma {:induction false} CacheRunKeepsInv(worlds: seq<Both>, labels: seq<CacheLabel>, byPattern: bool, i: nat)
    requires IsCacheRun(worlds, labels, byPattern) && i < |worlds|
    ensures CacheInv(worlds[i], byPattern)
  {
    if i > 0 {
      CacheRunKeepsInv(worlds, labels, byPattern, i - 1);
      assert CacheStepAt(worlds, labels, byPattern, i - 1);
      CacheStepKeepsInv(worlds[i - 1], labels[i - 1], byPattern, worlds[i]);
    }
  }

  // ---------------------------------------------------------------- what a reader gets

  /**
    In every run without admin re-syncs, every cached entry equals its query on the
    current rows evaluated at the clock of the entry's fill; for listings when the backend
    deletes by pattern.
   */
  lemma CacheIsCoherent(worlds: seq<Both>, labels: seq<CacheLabel>, byPattern: bool, i: nat)
    requires IsCacheRun(worlds, labels, byPattern) && i < |worlds|
    ensures DetailsCoherent(worlds[i].db, worlds[i].cache.details)
    ensures byPattern ==> ListingsCoherent(worlds[i].db, worlds[i].cache.listings)
  {
    CacheRunKeepsInv(worlds, labels, byPattern, i);
  }

  /**
    What a read returns, hit or miss, is the event's current row, and a number of
    available seats that was exact less than five minutes ago and is never too high now.
   */
  lemma ReadsNeverOverstate(worlds: seq<Both>, labels: seq<CacheLabel>, byPattern: bool, i: nat, e: Id, at: Time)
    requires IsCacheRun(worlds, labels, byPattern) && i < |worlds| && at > worlds[i].db.clock
    ensures var s := worlds[i].db;
            var answer := ReadDetail(s, worlds[i].cache, e, at).1;
            && (answer.Some? <==> e in s.events && !s.events[e].archived)
            && (answer.Some? ==>
                  && answer.value.event == s.events[e]
                  && answer.value.available <= AnnotatedAvailable(s, e, at)
                  && exists t :: at - CACHE_TTL < t <= at && answer.value.available == AnnotatedAvailable(s, e, t))
  {
    CacheRunKeepsInv(worlds, labels, byPattern, i);
    var s, c := worlds[i].db, worlds[i].cache;
    if e in c.details && Fresh(c.details[e], at) {
      var t := c.details[e].filledAt;
      assert DetailQuery(s, e, t) == Some(c.details[e].value);
      AvailabilityGrows(s, e, t, at);
      assert c.details[e].value.available == AnnotatedAvailable(s, e, t);
    } else if DetailQuery(s, e, at).Some? {
      assert AnnotatedAvailable(s, e, at) == DetailQuery(s, e, at).value.available;
    }
  }

  /** What the listing's dates ask for: an event that is not archived and starts neither before the first instant nor after the last. */
  predicate Asked(q: Listing, row: Event)
  {
    !row.archived && (q.range.None? || !(row.startTime < q.range.value.0 || row.startTime > q.range.value.1))
  }

  /** The entry is the event's row now, with a number of seats that was exact less than five minutes ago and is not too high now. */
  ghost predicate RecentEntry(s: State, e: Id, entry: Entry, at: Time)
  {
    && e in s.events && entry.event == s.events[e]
    && entry.available <= AnnotatedAvailable(s, e, at)
    && exists t :: at - 300_000_000 < t <= at && entry.available == AnnotatedAvailable(s, e, t)
  }

  lemma EntryIsRecent(s: State, e: Id, t: Time, at: Time)
    requires e in s.events && at - 300_000_000 < t <= at
    ensures RecentEntry(s, e, EntryOf(s, e, t), at)
  {
    AvailabilityGrows(s, e, t, at);
  }

  /**
    What a listing returns where the backend deletes by pattern, hit or miss: exactly the
    events it asks for, with their rows as they are now; no event missing, none too many.
   */
  lemma ListingsAnswer(worlds: seq<Both>, labels: seq<CacheLabel>, i: nat, q: Listing, at: Time)
    requires IsCacheRun(worlds, labels, true) && i < |worlds| && at > worlds[i].db.clock
    ensures var s := worlds[i].db;
            var answer := ReadListing(s, worlds[i].cache, q, at).1;
            && (forall e :: e in answer <==> e in s.events && Asked(q, s.events[e]))
            && (forall e :: e in answer ==> RecentEntry(s, e, answer[e], at))
  {
    CacheRunKeepsInv(worlds, labels, true, i);
    var s, c := worlds[i].db, worlds[i].cache;
    var t := if q in c.listings && Fresh(c.listings[q], at) then c.listings[q].filledAt else at;
    var answer := ReadListing(s, c, q, at).1;
    assert answer == ListQuery(s, q, t);
    forall e | e in answer ensures RecentEntry(s, e, answer[e], at) { EntryIsRecent(s, e, t, at); }
  }

  /** Within five minutes of a read that filled, the next one gives the same answer whatever has become of the rows, and stores nothing. */
  lemma SecondReadIsCached(s: State, later: State, c: Cache, e: Id, q: Listing, now: Time, readAt: Time)
    requires now <= readAt < now + 300_000_000
    ensures var (c', answer) := ReadDetail(s, c, e, now);
            e !in c.details && answer.Some? ==> ReadDetail(later, c', e, readAt) == (c', answer)
    ensures var (c', answer) := ReadListing(s, c, q, now);
            q !in c.listings ==> ReadListing(later, c', q, readAt) == (c', answer)
  {
  }
}
