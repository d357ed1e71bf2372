/** Bookings made through the assistant: which drafts they come from, and how many there can be. */
module DraftDesk {
  import opened Wrappers
  import opened SeatLayout
  import opened Rows
  import opened Engine
  import opened Invariant
  import opened Preservation
  import opened Safety
  import opened Availability
  import opened Graphs
  import opened Assistant

  lemma DraftKeyInjective(d: nat, e: nat)
    requires DraftKey(d) == DraftKey(e)
    ensures d == e
  {
    assert DraftKey(d)[|PREFIX|..] == Decimal(d) && DraftKey(e)[|PREFIX|..] == Decimal(e);
    DecimalInjective(d, e);
  }

  // ---------------------------------------------------------------- where bookings come from

  lemma CommitCreateOrigin(s: State, t: Id, now: Time, s': State, b: Id)
    requires HoldsLock(s.creates, t) && now > s.clock && s' == FinishCreate(s, t, now).0.(clock := now) && b in s'.bookings
    ensures || (b in s.bookings && s'.bookings[b] == s.bookings[b])
            || (s'.bookings[b].user == s.creates[t].request.user && Some(s'.bookings[b].key) == s.creates[t].request.key)
  {
    if InsertAllowed(s, s.creates[t]) { CommitCreateInserts(s, t, now, s'); } else { CommitCreateRefused(s, t, now, s'); }
  }

  /** A booking keeps its user and key, and a new one has those of the creation that commits. */
  lemma BookingOrigin(s: State, a: Action, now: Time, s': State, b: Id)
    requires Inv(s) && Enabled(s, a, now) && s' == Apply(s, a, now) && b in s'.bookings
    ensures || (b in s.bookings && s'.bookings[b].user == s.bookings[b].user && s'.bookings[b].key == s.bookings[b].key)
            || (a.CommitCreate? && s'.bookings[b].user == s.creates[a.txn].request.user
                && Some(s'.bookings[b].key) == s.creates[a.txn].request.key)
  {
    if a.CommitCreate? {
      CommitCreateOrigin(s, a.txn, now, s', b);
    } else if TouchesBookings(a) {
      StepEvolves(s, a, now, s');
      OtherKeys(s, a, now, s');
      assert b in s'.bookings.Keys;
      assert BookingEvolves(s, s', b);
    } else {
      PassiveStep(s, a, now, s');
    }
  }

  lemma OtherKeys(s: State, a: Action, now: Time, s': State)
    requires Enabled(s, a, now) && s' == Apply(s, a, now) && (a.PayBooking? || a.SweepBooking? || a.CancelBooking?)
    ensures s'.bookings.Keys == s.bookings.Keys
  {
  }

  /** A creation in flight was there before, or this step opened it. */
  lemma CreateOrigin(s: State, a: Action, now: Time, s': State, t: Id)
    requires Enabled(s, a, now) && s' == Apply(s, a, now) && HoldsLock(s'.creates, t)
    ensures || (HoldsLock(s.creates, t) && s'.creates[t].request == s.creates[t].request)
            || (a.OpenCreate? && a.txn == t && s'.creates[t].request == a.request)
  {
    if a.OpenCreate? {
      OpenCreateOrigin(s, a.txn, a.request, now, t);
    } else if a.CommitCreate? {
      FinishCreateOrigin(s, a.txn, now, t);
    } else if a.LookupCreate? {
      LookupOrigin(s, a.txn, t);
    } else {
      SameCreates(s, a, now, s');
    }
  }

  lemma OpenCreateOrigin(s: State, u: Id, q: CreateRequest, now: Time, t: Id)
    requires HoldsLock(BeginCreate(s, u, q, now).0.creates, t)
    ensures || (HoldsLock(s.creates, t) && BeginCreate(s, u, q, now).0.creates[t] == s.creates[t])
            || (u == t && BeginCreate(s, u, q, now).0.creates[t].request == q)
  {
  }

  lemma FinishCreateOrigin(s: State, u: Id, now: Time, t: Id)
    requires u in s.creates && HoldsLock(FinishCreate(s, u, now).0.creates, t)
    ensures HoldsLock(s.creates, t) && FinishCreate(s, u, now).0.creates[t] == s.creates[t]
  {
  }

  lemma LookupOrigin(s: State, u: Id, t: Id)
    requires u in s.creates && s.creates[u].request.key.Some? && HoldsLock(LookupExisting(s, u).0.creates, t)
    ensures HoldsLock(s.creates, t) && LookupExisting(s, u).0.creates[t] == s.creates[t]
  {
  }

  lemma SameCreates(s: State, a: Action, now: Time, s': State)
    requires Enabled(s, a, now) && s' == Apply(s, a, now) && !a.OpenCreate? && !a.CommitCreate? && !a.LookupCreate?
    ensures s'.creates == s.creates
  {
  }

  // ---------------------------------------------------------------- the invariant

  /** An assistant key belongs to a confirmed draft and is used for its user. */
  ghost predicate Backed(w: World, user: Id, key: string)
  {
    forall d: nat :: key == DraftKey(d) ==> d in w.confirmed && d in w.drafts && w.drafts[d].user == user
  }

  ghost predicate Registered(drafts: map<nat, Draft>, v: Values)
  {
    v.ForDraft? && v.draft.id in drafts && drafts[v.draft.id] == v.draft
  }

  /** A booking thread carries a draft that was staged; in front of its confirming node, one that was confirmed. */
  ghost predicate CheckpointOk(drafts: map<nat, Draft>, confirmed: set<nat>, th: ThreadId, c: Checkpoint)
  {
    && Belongs(th.Graph(), c.next)
    && (th.BookingThread? ==> Registered(drafts, c.values))
    && (th.BookingThread? && c.next.Confirm? ==> c.values.draft.id in confirmed)
  }

  ghost predicate ExecOk(drafts: map<nat, Draft>, confirmed: set<nat>, x: Exec)
  {
    && Belongs(x.thread.Graph(), x.at)
    && (x.thread.BookingThread? ==> Registered(drafts, x.values))
    && (x.thread.BookingThread? && (x.at.Confirm? || x.answer == Some(SayConfirm)) ==> x.values.draft.id in confirmed)
  }

  ghost predicate GraphsOk(drafts: map<nat, Draft>, confirmed: set<nat>, g: Store)
  {
    && (forall th :: th in g.checkpoints ==> CheckpointOk(drafts, confirmed, th, g.checkpoints[th]))
    && (forall k :: k in g.execs ==> ExecOk(drafts, confirmed, g.execs[k]))
  }

  ghost predicate DeskOk(w: World)
  {
    && (forall d :: d in w.drafts ==> d < w.nextDraft && w.drafts[d].id == d)
    && (forall d :: d in w.confirmed ==> d in w.drafts)
    && GraphsOk(w.drafts, w.confirmed, w.graphs)
  }

  ghost predicate AllBacked(w: World, db: State)
  {
    && (forall b :: b in db.bookings ==> Backed(w, db.bookings[b].user, db.bookings[b].key))
    && (forall t :: HoldsLock(db.creates, t) && db.creates[t].request.key.Some? ==>
          Backed(w, db.creates[t].request.user, db.creates[t].request.key.value))
  }

  /** Drafts are never rewritten and confirmations never withdrawn. */
  ghost predicate Grows(w: World, w': World)
  {
    && w.confirmed <= w'.confirmed
    && (forall d :: d in w.drafts ==> d in w'.drafts && w'.drafts[d] == w.drafts[d])
  }

  // ---------------------------------------------------------------- the desk's part of a step

  lemma MoreGraphsOk(drafts: map<nat, Draft>, confirmed: set<nat>, drafts': map<nat, Draft>, confirmed': set<nat>, g: Store)
    requires GraphsOk(drafts, confirmed, g) && confirmed <= confirmed'
    requires forall d :: d in drafts ==> d in drafts' && drafts'[d] == drafts[d]
    ensures GraphsOk(drafts', confirmed', g)
  {
    forall th | th in g.checkpoints ensures CheckpointOk(drafts', confirmed', th, g.checkpoints[th]) {
      assert CheckpointOk(drafts, confirmed, th, g.checkpoints[th]);
    }
    forall k | k in g.execs ensures ExecOk(drafts', confirmed', g.execs[k]) {
      assert ExecOk(drafts, confirmed, g.execs[k]);
    }
  }

  lemma InvokeOk(drafts: map<nat, Draft>, confirmed: set<nat>, g: Store, k: Id, th: ThreadId, v: Values)
    requires GraphsOk(drafts, confirmed, g) && (th.BookingThread? ==> Registered(drafts, v))
    ensures GraphsOk(drafts, confirmed, Invoke(g, k, th, v))
  {
  }

  lemma ResumeOk(drafts: map<nat, Draft>, confirmed: set<nat>, g: Store, k: Id, th: ThreadId, answer: Answer)
    requires GraphsOk(drafts, confirmed, g) && th in g.checkpoints
    requires th.BookingThread? && answer.SayConfirm? ==> DraftIds(g.checkpoints[th].values) <= confirmed
    ensures GraphsOk(drafts, confirmed, Resume(g, k, th, answer))
  {
    assert CheckpointOk(drafts, confirmed, th, g.checkpoints[th]);
  }

  /** A confirming node is entered only on a confirming answer. */
  lemma SettleOk(drafts: map<nat, Draft>, confirmed: set<nat>, g: Store, k: Id, p: Progress)
    requires GraphsOk(drafts, confirmed, g) && k in g.execs
    requires p.Complete? ==> Belongs(g.execs[k].thread.Graph(), p.next)
    requires p.Complete? && p.next.Confirm? ==> g.execs[k].answer == Some(SayConfirm)
    ensures GraphsOk(drafts, confirmed, Settle(g, k, p))
  {
    assert ExecOk(drafts, confirmed, g.execs[k]);
  }

  lemma ConfirmNeedsAnswer(x: Exec, i: Input, s: State, now: Time)
    requires Belongs(x.thread.Graph(), x.at)
    requires EngineAction(x, i).Some? ==> Enabled(s, EngineAction(x, i).value, now)
    ensures NodeProgress(x, i, s, now).Complete? && NodeProgress(x, i, s, now).next.Confirm? ==> x.answer == Some(SayConfirm)
  {
  }

  lemma StageOk(w: World, u: Id, conversation: Id, e: Id, numbers: seq<int>, k: Id, now: Time)
    requires DeskOk(w)
    ensures DeskOk(Stage(w, u, conversation, e, numbers, k, now)) && Grows(w, Stage(w, u, conversation, e, numbers, k, now))
  {
    var w' := Stage(w, u, conversation, e, numbers, k, now);
    MoreGraphsOk(w.drafts, w.confirmed, w'.drafts, w'.confirmed, w.graphs);
    InvokeOk(w'.drafts, w'.confirmed, w.graphs, k, BookingThread(conversation), ForDraft(Draft(w.nextDraft, u, e, numbers)));
  }

  lemma ConfirmOk(w: World, u: Id, k: Id, now: Time)
    requires DeskOk(w)
    ensures DeskOk(Assistant.Confirm(w, u, k, now)) && Grows(w, Assistant.Confirm(w, u, k, now))
  {
    var w', th := Assistant.Confirm(w, u, k, now), ClickedThread(w, u);
    if th.Some? {
      assert CheckpointOk(w.drafts, w.confirmed, th.value, w.graphs.checkpoints[th.value]);
      MoreGraphsOk(w.drafts, w.confirmed, w'.drafts, w'.confirmed, w.graphs);
      if w'.graphs != w.graphs { ResumeOk(w'.drafts, w'.confirmed, w.graphs, k, th.value, SayConfirm); }
    }
  }

  lemma ToolOk(w: World, a: Act, now: Time)
    requires DeskOk(w) && CanAct(w, a, now) && IsTool(a)
    ensures DeskOk(DeskAfter(w, a, now)) && Grows(w, DeskAfter(w, a, now))
  {
    match a {
      case PrepareDraft(u, conversation, e, numbers, k) => StageOk(w, u, conversation, e, numbers, k, now);
      case PrepareCancel(_, b, k) => InvokeOk(w.drafts, w.confirmed, w.graphs, k, CancelThread(b), ForBooking(b));
      case PrepareRetry(_, b, k) => InvokeOk(w.drafts, w.confirmed, w.graphs, k, RetryThread(b), ForBooking(b));
      case AutoStage(b, k) => InvokeOk(w.drafts, w.confirmed, w.graphs, k, RetryThread(b), ForBooking(b));
    }
  }

  lemma ClickOk(w: World, a: Act, now: Time)
    requires DeskOk(w) && CanAct(w, a, now) && (a.ClickConfirm? || a.ClickDiscard? || a.ClickBooking?)
    ensures DeskOk(DeskAfter(w, a, now)) && Grows(w, DeskAfter(w, a, now))
  {
    match a {
      case ClickConfirm(u, k) => ConfirmOk(w, u, k, now);
      case ClickDiscard(u, k) =>
        if ClickedThread(w, u).Some? { ResumeOk(w.drafts, w.confirmed, w.graphs, k, ClickedThread(w, u).value, SayNo); }
      case ClickBooking(th, answer, k) => ResumeOk(w.drafts, w.confirmed, w.graphs, k, th, answer);
    }
  }

  lemma AdvanceOk(w: World, k: Id, i: Input, now: Time)
    requires DeskOk(w) && CanAct(w, Advance(k, i), now)
    ensures DeskOk(DeskAfter(w, Advance(k, i), now))
  {
    var x := w.graphs.execs[k];
    assert ExecOk(w.drafts, w.confirmed, x);
    RoutingStays(x, i, w.db, now);
    ConfirmNeedsAnswer(x, i, w.db, now);
    SettleOk(w.drafts, w.confirmed, w.graphs, k, NodeProgress(x, i, w.db, now));
  }

  lemma DeskStep(w: World, a: Act, now: Time)
    requires DeskOk(w) && CanAct(w, a, now)
    ensures DeskOk(DeskAfter(w, a, now)) && Grows(w, DeskAfter(w, a, now))
  {
    if IsTool(a) {
      ToolOk(w, a, now);
    } else if a.ClickConfirm? || a.ClickDiscard? || a.ClickBooking? {
      ClickOk(w, a, now);
    } else if a.Advance? {
      AdvanceOk(w, a.exec, a.input, now);
    } else if a.Abort? {
      SettleOk(w.drafts, w.confirmed, w.graphs, a.exec, Raise);
    }
  }

  // ---------------------------------------------------------------- the rows' part of a step

  lemma StaysBacked(w: World, w': World, user: Id, key: string)
    requires Backed(w, user, key) && Grows(w, w')
    ensures Backed(w', user, key)
  {
    forall d: nat | key == DraftKey(d) ensures d in w'.confirmed && d in w'.drafts && w'.drafts[d].user == user {
      assert d in w.confirmed;
    }
  }

  lemma OutsideIsBacked(w: World, a: Action)
    requires a.OpenCreate? && a.request.key.Some? && Outside(a)
    ensures Backed(w, a.request.user, a.request.key.value)
  {
    assert forall d: nat :: a.request.key.value == DraftKey(d) ==> IsDraftKey(a.request.key.value);
  }

  /** What the confirming node opens is a creation for a confirmed draft. */
  lemma NodeOpensConfirmed(w: World, k: Id, i: Input)
    requires DeskOk(w) && k in w.graphs.execs
    requires EngineAction(w.graphs.execs[k], i).Some? && EngineAction(w.graphs.execs[k], i).value.OpenCreate?
    ensures var x := w.graphs.execs[k];
            && x.at.Confirm? && x.pc.Creating? && Registered(w.drafts, x.values) && x.values.draft.id in w.confirmed
            && EngineAction(x, i) == Some(OpenCreate(i.txn, DraftRequest(x.values.draft, i.price, i.seatIds)))
  {
    assert ExecOk(w.drafts, w.confirmed, w.graphs.execs[k]);
  }

  lemma OpenedIsBacked(w: World, a: Act, now: Time)
    requires DeskOk(w) && CanAct(w, a, now) && RowAction(w, a).Some?
    requires RowAction(w, a).value.OpenCreate? && RowAction(w, a).value.request.key.Some?
    ensures Backed(w, RowAction(w, a).value.request.user, RowAction(w, a).value.request.key.value)
  {
    var action := RowAction(w, a).value;
    if a.OnRows? {
      OutsideIsBacked(w, action);
    } else {
      NodeOpensConfirmed(w, a.exec, a.input);
      var draft := w.graphs.execs[a.exec].values.draft;
      forall d: nat | DraftKey(draft.id) == DraftKey(d) ensures d in w.confirmed && d in w.drafts && w.drafts[d].user == draft.user {
        DraftKeyInjective(draft.id, d);
      }
    }
  }

  lemma EngineStepBacked(w: World, a: Action, now: Time, db': State)
    requires Inv(w.db) && AllBacked(w, w.db) && Enabled(w.db, a, now) && db' == Apply(w.db, a, now)
    requires a.OpenCreate? && a.request.key.Some? ==> Backed(w, a.request.user, a.request.key.value)
    ensures AllBacked(w, db')
  {
    forall b | b in db'.bookings ensures Backed(w, db'.bookings[b].user, db'.bookings[b].key) {
      BookingOrigin(w.db, a, now, db', b);
    }
    forall t | HoldsLock(db'.creates, t) && db'.creates[t].request.key.Some?
      ensures Backed(w, db'.creates[t].request.user, db'.creates[t].request.key.value)
    {
      CreateOrigin(w.db, a, now, db', t);
    }
  }

  lemma RowsBacked(w: World, a: Act, now: Time)
    requires Inv(w.db) && DeskOk(w) && AllBacked(w, w.db) && CanAct(w, a, now)
    ensures Inv(RowsAfter(w, a, now)) && AllBacked(w, RowsAfter(w, a, now))
  {
    if RowAction(w, a).Some? {
      var action := RowAction(w, a).value;
      if action.OpenCreate? && action.request.key.Some? { OpenedIsBacked(w, a, now); }
      StepKeepsInv(w.db, action, now, RowsAfter(w, a, now));
      EngineStepBacked(w, action, now, RowsAfter(w, a, now));
    } else {
      TickKeepsInv(w.db, now);
    }
  }

  lemma MoreBacked(w: World, w': World, db: State)
    requires AllBacked(w, db) && Grows(w, w')
    ensures AllBacked(w', db)
  {
    forall b | b in db.bookings ensures Backed(w', db.bookings[b].user, db.bookings[b].key) {
      StaysBacked(w, w', db.bookings[b].user, db.bookings[b].key);
    }
    forall t | HoldsLock(db.creates, t) && db.creates[t].request.key.Some?
      ensures Backed(w', db.creates[t].request.user, db.creates[t].request.key.value)
    {
      StaysBacked(w, w', db.creates[t].request.user, db.creates[t].request.key.value);
    }
  }

  ghost predicate DraftInv(w: World) { Inv(w.db) && DeskOk(w) && AllBacked(w, w.db) }

  lemma ActKeepsInv(w: World, a: Act, now: Time, w': World)
    requires DraftInv(w) && CanAct(w, a, now) && w' == After(w, a, now)
    ensures DraftInv(w') && Grows(w, w')
  {
    var desk := DeskAfter(w, a, now);
    DeskStep(w, a, now);
    RowsBacked(w, a, now);
    MoreBacked(w, desk, w'.db);
    MoreBacked(desk, w', w'.db);
  }

  lemma {:induction false} DraftRunKeepsInv(worlds: seq<World>, moments: seq<Moment>, n: nat)
    requires IsAssistantRun(worlds, moments) && n < |worlds|
    ensures DraftInv(worlds[n])
  {
    if n == 0 {
      assert worlds[0].db == EmptyState(worlds[0].db.clock);
    } else {
      DraftRunKeepsInv(worlds, moments, n - 1);
      assert ActsAt(worlds, moments, n - 1);
      ActKeepsInv(worlds[n - 1], moments[n - 1].act, moments[n - 1].now, worlds[n]);
    }
  }

  // ---------------------------------------------------------------- results

  ghost predicate BookedBy(w: World, d: nat, b: Id)
  {
    b in w.db.bookings && w.db.bookings[b].key == DraftKey(d)
  }

  lemma DraftBookingUnique(w: World, d: nat, b: Id, b': Id)
    requires UniqueKeys(w.db.bookings) && AllBacked(w, w.db) && BookedBy(w, d, b) && BookedBy(w, d, b')
    ensures b == b' && d in w.confirmed && d in w.drafts && w.db.bookings[b].user == w.drafts[d].user
  {
    assert Backed(w, w.db.bookings[b].user, w.db.bookings[b].key);
    assert Backed(w, w.db.bookings[b'].user, w.db.bookings[b'].key);
    assert Keyed(w.db.bookings, b', w.db.bookings[b].user, w.db.bookings[b].key);
  }

  /**
    In every run a draft yields at most one booking, for the user who drafted it and only
    after a confirming click on it, and different drafts yield different bookings.
   */
  lemma OneBookingPerDraft(worlds: seq<World>, moments: seq<Moment>, n: nat, d: nat, b: Id, d': nat, b': Id)
    requires IsAssistantRun(worlds, moments) && n < |worlds|
    requires BookedBy(worlds[n], d, b) && BookedBy(worlds[n], d', b')
    ensures b == b' <==> d == d'
    ensures d in worlds[n].confirmed && d in worlds[n].drafts
    ensures worlds[n].db.bookings[b].user == worlds[n].drafts[d].user
  {
    DraftRunKeepsInv(worlds, moments, n);
    if d == d' {
      DraftBookingUnique(worlds[n], d, b, b');
    } else {
      DraftBookingUnique(worlds[n], d, b, b);
      if b == b' { DraftKeyInjective(d, d'); }
    }
  }

  /** Confirming clicks among the first `n` moments. */
  function ConfirmClicks(moments: seq<Moment>, n: nat): nat
    requires n <= |moments|
  {
    if n == 0 then 0 else ConfirmClicks(moments, n - 1) + if moments[n - 1].act.ClickConfirm? then 1 else 0
  }

  lemma ConfirmedGrows(w: World, a: Act, now: Time)
    requires CanAct(w, a, now)
    ensures |After(w, a, now).confirmed| <= |w.confirmed| + if a.ClickConfirm? then 1 else 0
  {
    if a.ClickConfirm? && ClickedThread(w, a.user).Some? {
      var ids := DraftIds(w.graphs.checkpoints[ClickedThread(w, a.user).value].values);
      assert |w.confirmed + ids| <= |w.confirmed| + |ids| by { assert w.confirmed + ids == w.confirmed + (ids - w.confirmed); }
    }
  }

  lemma {:induction false} ConfirmedByClicks(worlds: seq<World>, moments: seq<Moment>, n: nat)
    requires IsAssistantRun(worlds, moments) && n <= |moments|
    ensures |worlds[n].confirmed| <= ConfirmClicks(moments, n)
  {
    if n > 0 {
      ConfirmedByClicks(worlds, moments, n - 1);
      assert ActsAt(worlds, moments, n - 1);
      ConfirmedGrows(worlds[n - 1], moments[n - 1].act, moments[n - 1].now);
    }
  }

  ghost function AssistantBookings(db: State): set<Id>
  {
    set b | b in db.bookings && IsDraftKey(db.bookings[b].key)
  }

  ghost function DraftOf(db: State, b: Id): nat
    requires b in db.bookings && IsDraftKey(db.bookings[b].key)
  {
    var d: nat :| db.bookings[b].key == DraftKey(d); d
  }

  lemma BookingsWithinDrafts(w: World)
    requires UniqueKeys(w.db.bookings) && AllBacked(w, w.db)
    ensures |AssistantBookings(w.db)| <= |w.confirmed|
  {
    var m := map b | b in AssistantBookings(w.db) :: DraftOf(w.db, b);
    forall b, b' | b in m && b' in m && m[b] == m[b'] ensures b == b' {
      DraftBookingUnique(w, m[b], b, b');
    }
    InjectiveSize(m);
    assert m.Keys == AssistantBookings(w.db);
    forall d | d in m.Values ensures d in w.confirmed {
      var b :| b in m && m[b] == d;
      DraftBookingUnique(w, d, b, b);
    }
    SubsetSize(m.Values, w.confirmed);
  }

  /**
    Bookings made by the assistant never outnumber the confirming clicks, however often a
    click is repeated, a confirming node runs again or a draft is replaced.
   */
  lemma BookingsWithinClicks(worlds: seq<World>, moments: seq<Moment>, n: nat)
    requires IsAssistantRun(worlds, moments) && n <= |moments|
    ensures |AssistantBookings(worlds[n].db)| <= ConfirmClicks(moments, n)
  {
    DraftRunKeepsInv(worlds, moments, n);
    BookingsWithinDrafts(worlds[n]);
    ConfirmedByClicks(worlds, moments, n);
  }

  // ---------------------------------------------------------------- dropped drafts

  /** Some stored thread still waits with the draft, or some invocation runs with it. */
  ghost predicate Carried(g: Store, d: nat)
  {
    || (exists th :: Waiting(g, th) && d in DraftIds(g.checkpoints[th].values))
    || (exists k :: k in g.execs && d in DraftIds(g.execs[k].values))
  }

  /** Staged once, not confirmed, and carried by nothing any more: discarded or replaced. */
  ghost predicate Dropped(w: World, d: nat)
  {
    d in w.drafts && d !in w.confirmed && !Carried(w.graphs, d)
  }

  lemma InvokeCarries(g: Store, k: Id, th: ThreadId, v: Values, d: nat)
    requires !Carried(g, d) && d !in DraftIds(v)
    ensures !Carried(Invoke(g, k, th, v), d)
  {
    var g' := Invoke(g, k, th, v);
    assert forall t :: t != th ==> (Waiting(g', t) ==> Waiting(g, t));
  }

  lemma ResumeCarries(g: Store, k: Id, th: ThreadId, answer: Answer, d: nat)
    requires !Carried(g, d) && Waiting(g, th)
    ensures !Carried(Resume(g, k, th, answer), d)
  {
    var g' := Resume(g, k, th, answer);
    assert forall t :: Waiting(g', t) ==> Waiting(g, t);
    assert d !in DraftIds(g.checkpoints[th].values);
  }

  lemma SettleCarries(g: Store, k: Id, p: Progress, d: nat)
    requires !Carried(g, d) && k in g.execs
    ensures !Carried(Settle(g, k, p), d)
  {
    var g' := Settle(g, k, p);
    assert d !in DraftIds(g.execs[k].values);
    assert forall t :: t != g.execs[k].thread ==> (Waiting(g', t) ==> Waiting(g, t));
    forall t | Waiting(g', t) ensures d !in DraftIds(g'.checkpoints[t].values) {
      if g'.checkpoints == g.checkpoints { assert Waiting(g, t); }
    }
  }

  lemma ToolKeepsDropped(w: World, a: Act, now: Time, d: nat)
    requires DeskOk(w) && Dropped(w, d) && CanAct(w, a, now) && IsTool(a)
    ensures Dropped(After(w, a, now), d)
  {
    match a {
      case PrepareDraft(u, conversation, e, numbers, k) =>
        InvokeCarries(w.graphs, k, BookingThread(conversation), ForDraft(Draft(w.nextDraft, u, e, numbers)), d);
      case PrepareCancel(_, b, k) => InvokeCarries(w.graphs, k, CancelThread(b), ForBooking(b), d);
      case PrepareRetry(_, b, k) => InvokeCarries(w.graphs, k, RetryThread(b), ForBooking(b), d);
      case AutoStage(b, k) => InvokeCarries(w.graphs, k, RetryThread(b), ForBooking(b), d);
    }
  }

  lemma ClickKeepsDropped(w: World, a: Act, now: Time, d: nat)
    requires Dropped(w, d) && CanAct(w, a, now) && (a.ClickConfirm? || a.ClickDiscard? || a.ClickBooking?)
    ensures Dropped(After(w, a, now), d)
  {
    match a {
      case ClickConfirm(u, k) =>
        if ClickedThread(w, u).Some? { ResumeCarries(w.graphs, k, ClickedThread(w, u).value, SayConfirm, d); }
      case ClickDiscard(u, k) =>
        if ClickedThread(w, u).Some? { ResumeCarries(w.graphs, k, ClickedThread(w, u).value, SayNo, d); }
      case ClickBooking(th, answer, k) => ResumeCarries(w.graphs, k, th, answer, d);
    }
  }

  lemma ActKeepsDropped(w: World, a: Act, now: Time, d: nat)
    requires DeskOk(w) && Dropped(w, d) && CanAct(w, a, now)
    ensures Dropped(After(w, a, now), d)
  {
    if IsTool(a) {
      ToolKeepsDropped(w, a, now, d);
    } else if a.ClickConfirm? || a.ClickDiscard? || a.ClickBooking? {
      ClickKeepsDropped(w, a, now, d);
    } else if a.Advance? {
      SettleCarries(w.graphs, a.exec, NodeProgress(w.graphs.execs[a.exec], a.input, w.db, now), d);
    } else if a.Abort? {
      SettleCarries(w.graphs, a.exec, Raise, d);
    }
  }

  lemma {:induction false} DroppedStays(worlds: seq<World>, moments: seq<Moment>, d: nat, m: nat, n: nat)
    requires IsAssistantRun(worlds, moments) && m <= n < |worlds| && Dropped(worlds[m], d)
    ensures Dropped(worlds[n], d)
  {
    if m < n {
      DroppedStays(worlds, moments, d, m, n - 1);
      DraftRunKeepsInv(worlds, moments, n - 1);
      assert ActsAt(worlds, moments, n - 1);
      ActKeepsDropped(worlds[n - 1], moments[n - 1].act, moments[n - 1].now, d);
    }
  }

  /** A draft that was discarded or replaced while nobody had confirmed it is never booked, however the run goes on. */
  lemma DroppedIsNeverBooked(worlds: seq<World>, moments: seq<Moment>, d: nat, m: nat, n: nat, b: Id)
    requires IsAssistantRun(worlds, moments) && m <= n < |worlds| && Dropped(worlds[m], d)
    ensures !BookedBy(worlds[n], d, b)
  {
    DroppedStays(worlds, moments, d, m, n);
    if BookedBy(worlds[n], d, b) { OneBookingPerDraft(worlds, moments, n, d, b, d, b); }
  }

  /**
    Where a discarding click leads when its invocation takes its next step: a thread whose
    draft was undecided is on its way out, and one stopped in front of its confirming node
    runs that node again.
   */
  lemma DiscardRunsConfirmIff(w: World, u: Id, k: Id, now: Time, i: Input)
    requires DeskOk(w) && CanAct(w, ClickDiscard(u, k), now) && ClickedThread(w, u).Some?
    ensures var g, th := Discard(w, u, k).graphs, ClickedThread(w, u).value;
            && k in g.execs
            && (EngineAction(g.execs[k], i).Some? <==> w.graphs.checkpoints[th].next.Confirm?)
            && (!w.graphs.checkpoints[th].next.Confirm? ==>
                  forall s, t :: NodeProgress(g.execs[k], i, s, t) == Complete(
                    if w.graphs.checkpoints[th].next.PrepareBooking? then DropDraft else End))
  {
    assert CheckpointOk(w.drafts, w.confirmed, ClickedThread(w, u).value, w.graphs.checkpoints[ClickedThread(w, u).value]);
  }

  // ---------------------------------------------------------------- the stored desk

  /** The marker table, the checkpoints and the invocations, changed in place; the database rows are out of its reach. */
  class BookingDrafts {
    var markers: map<Id, Marker>
    var checkpoints: map<ThreadId, Checkpoint>
    var execs: map<Id, Exec>
    var nextDraft: nat
    ghost var drafts: map<nat, Draft>
    ghost var confirmed: set<nat>

    ghost function Now(db: State): World
      reads this
    {
      World(db, Store(checkpoints, execs), markers, drafts, nextDraft, confirmed)
    }

    constructor ()
      ensures forall db :: Now(db) == World(db, NO_GRAPHS, map[], map[], 0, {})
    {
      markers, checkpoints, execs, nextDraft, drafts, confirmed := map[], map[], map[], 0, map[], {};
    }

    method StageDraft(user: Id, conversation: Id, event: Id, numbers: seq<int>, k: Id, now: Time)
      modifies this
      ensures forall db :: Now(db) == Stage(old(Now(db)), user, conversation, event, numbers, k, now)
    {
      var th, draft := BookingThread(conversation), Draft(nextDraft, user, event, numbers);
      checkpoints := checkpoints[th := Checkpoint(PrepareBooking, ForDraft(draft))];
      execs := execs[k := Exec(th, ForDraft(draft), PrepareBooking, None, Start)];
      drafts := drafts[nextDraft := draft];
      nextDraft := nextDraft + 1;
      markers := markers[user := Marker(conversation, now + HOLD_PERIOD)];
    }

    /** The controls are shown while there is an unexpired marker, whether or not its thread still waits. */
    method PendingActions(user: Id, now: Time) returns (shown: bool)
      modifies this`markers
      ensures shown <==> user in old(markers) && !old(markers)[user].Expired(now)
      ensures markers == if shown then old(markers) else old(markers) - {user}
    {
      if user !in markers {
        assert markers - {user} == markers;
        return false;
      }
      if markers[user].Expired(now) {
        markers := markers - {user};
        return false;
      }
      return true;
    }

    /** The click up to the point where its invocation starts; the draft it will book. */
    method ConfirmPending(user: Id, k: Id, now: Time) returns (draft: Option<Draft>)
      requires forall c :: BookingThread(c) in checkpoints ==> checkpoints[BookingThread(c)].values.ForDraft?
      modifies this
      ensures forall db :: Now(db) == Assistant.Confirm(old(Now(db)), user, k, now)
      ensures draft.Some? <==>
                && user in old(markers) && !old(markers)[user].Expired(now)
                && var th := BookingThread(old(markers)[user].conversation);
                   th in old(checkpoints) && !old(checkpoints)[th].next.End?
      ensures draft.Some? ==> draft.value == old(checkpoints)[BookingThread(old(markers)[user].conversation)].values.draft
    {
      draft := None;
      if user !in markers {
        assert markers - {user} == markers;
        return;
      }
      var th := BookingThread(markers[user].conversation);
      if markers[user].Expired(now) || th !in checkpoints || checkpoints[th].next.End? {
        markers := markers - {user};
        return;
      }
      var c := checkpoints[th];
      draft := Some(c.values.draft);
      execs := execs[k := Exec(th, c.values, c.next, Some(SayConfirm), Start)];
      confirmed := confirmed + {c.values.draft.id};
    }

    method CancelDraft(user: Id, k: Id) returns (resumed: bool)
      modifies this
      ensures forall db :: Now(db) == Discard(old(Now(db)), user, k)
      ensures resumed <==> user in old(markers) && var th := BookingThread(old(markers)[user].conversation);
                           th in old(checkpoints) && !old(checkpoints)[th].next.End?
    {
      if user !in markers {
        assert markers - {user} == markers;
        return false;
      }
      var th := BookingThread(markers[user].conversation);
      if th !in checkpoints || checkpoints[th].next.End? {
        markers := markers - {user};
        return false;
      }
      execs := execs[k := Exec(th, checkpoints[th].values, checkpoints[th].next, Some(SayNo), Start)];
      return true;
    }
  }
}
