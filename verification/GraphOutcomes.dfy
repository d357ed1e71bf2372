/** What an invocation of the assistant's graphs does next, told from the rows its last step found and left. */
module GraphOutcomes {
  import opened Wrappers
  import opened SeatLayout
  import opened Rows
  import opened Engine
  import opened Invariant
  import opened Graphs
  import opened Assistant
  import opened DraftDesk
  import opened Replies

  // ---------------------------------------------------------------- what comes next

  ghost predicate NextOpens(g: Store, k: Id, draft: Draft)
  {
    && k in g.execs
    && forall i ::
         EngineAction(g.execs[k], i) ==
         Some(OpenCreate(i.txn, CreateRequest(draft.user, draft.event, i.price, i.seatIds, Some("ai-confirm-" + Decimal(draft.id)))))
  }

  ghost predicate NextCommits(g: Store, k: Id, t: Id)
  {
    k in g.execs && forall i :: EngineAction(g.execs[k], i) == Some(CommitCreate(t))
  }

  ghost predicate NextLooksUp(g: Store, k: Id, t: Id)
  {
    k in g.execs && forall i :: EngineAction(g.execs[k], i) == Some(LookupCreate(t))
  }

  ghost predicate NextPays(g: Store, k: Id, b: Id)
  {
    k in g.execs && forall i :: EngineAction(g.execs[k], i) == Some(PayBooking(b, i.success))
  }

  ghost predicate NextCancels(g: Store, k: Id, b: Id)
  {
    k in g.execs && forall i :: EngineAction(g.execs[k], i) == Some(CancelBooking(b))
  }

  /** The invocation is over and its thread is at the end of the graph. */
  predicate Finished(g: Store, g': Store, k: Id)
  {
    && k in g.execs && g'.execs == g.execs - {k}
    && g'.checkpoints == g.checkpoints[g.execs[k].thread := Checkpoint(End, g.execs[k].values)]
  }

  /** The invocation is over with an error, and the thread stands where it stood. */
  predicate GaveUp(g: Store, g': Store, k: Id)
  {
    k in g.execs && g' == Store(g.checkpoints, g.execs - {k})
  }

  // ---------------------------------------------------------------- the confirming node

  ghost predicate SomeKeyed(s: State, user: Id, key: string) { exists b :: Keyed(s.bookings, b, user, key) }

  /** The user's booking with the key is paid for if it is still pending, and otherwise ends the graph. */
  ghost predicate PaysIfPending(s: State, g: Store, g': Store, k: Id, b: Id)
  {
    b in s.bookings && if s.bookings[b].status.Pending? then NextPays(g', k, b) else Finished(g, g', k)
  }

  /** `k` runs the confirming node for the draft. */
  predicate Confirming(g: Store, k: Id, draft: Draft)
  {
    k in g.execs && g.execs[k].at.Confirm? && g.execs[k].values == ForDraft(draft)
  }

  ghost predicate OpenGoesOn(s: State, g: Store, g': Store, k: Id, t: Id, q: CreateRequest, now: Time)
  {
    if !ValidSeats(s, q) then GaveUp(g, g', k)
    else if SomeSame(s, q) then forall b :: SameRequest(s, q, b) ==> PaysIfPending(s, g, g', k, b)
    else if SomeHeld(s, q, now) then GaveUp(g, g', k)
    else NextCommits(g', k, t)
  }

  /** The five engine steps of the confirming node, and what each is followed by. */
  ghost predicate ConfirmingGoesOn(w: World, w': World, k: Id, draft: Draft, a: Action, now: Time)
  {
    var s, g, g' := w.db, w.graphs, w'.graphs;
    match a
    case FastPath(user, key) =>
      if SomeKeyed(s, user, key) then Finished(g, g', k) else NextOpens(g', k, draft)
    case OpenCreate(t, q) => OpenGoesOn(s, g, g', k, t, q, now)
    case CommitCreate(t) =>
      t in s.creates &&
      var key := s.creates[t].request.key;
      if s.nextBooking in w'.db.bookings then NextPays(g', k, s.nextBooking)
      else if key.Some? && key.value != "" then NextLooksUp(g', k, t)
      else GaveUp(g, g', k)
    case LookupCreate(t) =>
      t in s.creates &&
      var q := s.creates[t].request;
      if SomeSame(s, q) then forall b :: SameRequest(s, q, b) ==> PaysIfPending(s, g, g', k, b) else GaveUp(g, g', k)
    case PayBooking(b, _) =>
      if b in s.bookings && now <= s.bookings[b].expiresAt && s.bookings[b].retryCount < 3 then Finished(g, g', k) else GaveUp(g, g', k)
    case _ => false
  }

  ghost predicate GoesOnAfter(w: World, w': World, k: Id, draft: Draft, i: Input, now: Time)
  {
    var a := RowAction(w, Advance(k, i));
    a.Some? && ConfirmingGoesOn(w, w', k, draft, a.value, now)
  }

  lemma AfterFastPath(w: World, k: Id, i: Input, now: Time, draft: Draft, w': World)
    requires CanAct(w, Advance(k, i), now) && w' == After(w, Advance(k, i), now) && Confirming(w.graphs, k, draft)
    requires w.graphs.execs[k].pc.Start?
    ensures GoesOnAfter(w, w', k, draft, i, now)
  {
  }

  lemma OpenByReply(s: State, g: Store, g': Store, k: Id, t: Id, q: CreateRequest, now: Time, reply: CreateReply)
    requires UniqueKeys(s.bookings) && InStep(s.bookings, s.claims) && reply == BeginCreate(s, t, q, now).1
    requires reply.Reading? ==> NextCommits(g', k, t)
    requires reply.Existing? && reply.booking in s.bookings ==> PaysIfPending(s, g, g', k, reply.booking)
    requires !reply.Reading? && !reply.Existing? ==> GaveUp(g, g', k)
    ensures OpenGoesOn(s, g, g', k, t, q, now)
  {
    TakenReply(s, t, q, now);
    if reply.Existing? { ExistingReply(s, t, q, now, reply.booking); }
    forall b | SameRequest(s, q, b) && ValidSeats(s, q) ensures reply == Existing(b) { ExistingReply(s, t, q, now, b); }
  }

  lemma OpenProgress(w: World, k: Id, i: Input, now: Time, draft: Draft, w': World, q: CreateRequest)
    requires CanAct(w, Advance(k, i), now) && w' == After(w, Advance(k, i), now) && Confirming(w.graphs, k, draft)
    requires w.graphs.execs[k].pc.Creating? && q == DraftRequest(draft, i.price, i.seatIds)
    ensures var reply := BeginCreate(w.db, i.txn, q, now).1;
            && (reply.Reading? ==> NextCommits(w'.graphs, k, i.txn))
            && (reply.Existing? && reply.booking in w.db.bookings ==> PaysIfPending(w.db, w.graphs, w'.graphs, k, reply.booking))
            && (!reply.Reading? && !reply.Existing? ==> GaveUp(w.graphs, w'.graphs, k))
  {
  }

  lemma AfterOpen(w: World, k: Id, i: Input, now: Time, draft: Draft, w': World)
    requires UniqueKeys(w.db.bookings) && InStep(w.db.bookings, w.db.claims)
    requires CanAct(w, Advance(k, i), now) && w' == After(w, Advance(k, i), now) && Confirming(w.graphs, k, draft)
    requires w.graphs.execs[k].pc.Creating?
    ensures GoesOnAfter(w, w', k, draft, i, now)
  {
    var q := DraftRequest(draft, i.price, i.seatIds);
    OpenProgress(w, k, i, now, draft, w', q);
    OpenByReply(w.db, w.graphs, w'.graphs, k, i.txn, q, now, BeginCreate(w.db, i.txn, q, now).1);
  }

  lemma CommitProgress(w: World, k: Id, i: Input, now: Time, draft: Draft, w': World, t: Id)
    requires CanAct(w, Advance(k, i), now) && w' == After(w, Advance(k, i), now) && Confirming(w.graphs, k, draft)
    requires w.graphs.execs[k].pc == Committing(t)
    ensures t in w.db.creates && w'.db == FinishCreate(w.db, t, now).0.(clock := now)
    ensures var reply := FinishCreate(w.db, t, now).1;
            && (reply.Created? ==> NextPays(w'.graphs, k, reply.booking))
            && (reply.IntegrityError? ==> NextLooksUp(w'.graphs, k, t))
            && (!reply.Created? && !reply.IntegrityError? ==> GaveUp(w.graphs, w'.graphs, k))
  {
  }

  lemma CommitByReply(s: State, t: Id, now: Time)
    requires BookingsOk(s) && t in s.creates
    ensures var (s', reply) := FinishCreate(s, t, now);
            && (s.nextBooking in s'.bookings <==> reply == Created(s.nextBooking))
            && (reply.Created? ==> reply.booking == s.nextBooking)
            && (!reply.Created? ==> (reply.IntegrityError? <==> Truthy(s.creates[t].request.key)))
  {
    FreshId(s);
  }

  lemma AfterCommit(w: World, k: Id, i: Input, now: Time, draft: Draft, w': World, t: Id)
    requires BookingsOk(w.db)
    requires CanAct(w, Advance(k, i), now) && w' == After(w, Advance(k, i), now) && Confirming(w.graphs, k, draft)
    requires w.graphs.execs[k].pc == Committing(t)
    ensures GoesOnAfter(w, w', k, draft, i, now)
  {
    CommitProgress(w, k, i, now, draft, w', t);
    CommitByReply(w.db, t, now);
  }

  lemma FreshId(s: State)
    requires BookingsOk(s)
    ensures s.nextBooking !in s.bookings
  {
  }

  lemma AfterLookup(w: World, k: Id, i: Input, now: Time, draft: Draft, w': World, t: Id)
    requires UniqueKeys(w.db.bookings)
    requires CanAct(w, Advance(k, i), now) && w' == After(w, Advance(k, i), now) && Confirming(w.graphs, k, draft)
    requires w.graphs.execs[k].pc == Recovering(t)
    ensures GoesOnAfter(w, w', k, draft, i, now)
  {
    SameFound(w.db, w.db.creates[t].request);
  }

  lemma AfterPaying(w: World, k: Id, i: Input, now: Time, draft: Draft, w': World, b: Id)
    requires CanAct(w, Advance(k, i), now) && w' == After(w, Advance(k, i), now) && Confirming(w.graphs, k, draft)
    requires w.graphs.execs[k].pc == Paying(b)
    ensures GoesOnAfter(w, w', k, draft, i, now)
  {
  }

  /**
    In every run, whatever engine step the confirming node takes, the rows decide how it
    goes on: a booking just created is paid for next; one found by its key is paid for only
    while it is pending; an error leaves the thread in front of the node.
   */
  lemma ConfirmingNode(worlds: seq<World>, moments: seq<Moment>, n: nat, k: Id, i: Input, draft: Draft)
    requires IsAssistantRun(worlds, moments) && n < |moments| && ActsAt(worlds, moments, n) && moments[n].act == Advance(k, i)
    requires Confirming(worlds[n].graphs, k, draft) && RowAction(worlds[n], moments[n].act).Some?
    ensures ConfirmingGoesOn(worlds[n], worlds[n + 1], k, draft, RowAction(worlds[n], moments[n].act).value, moments[n].now)
  {
    DraftRunKeepsInv(worlds, moments, n);
    var w, w', now := worlds[n], worlds[n + 1], moments[n].now;
    match w.graphs.execs[k].pc {
      case Start => AfterFastPath(w, k, i, now, draft, w');
      case Creating => AfterOpen(w, k, i, now, draft, w');
      case Committing(t) => AfterCommit(w, k, i, now, draft, w', t);
      case Recovering(t) => AfterLookup(w, k, i, now, draft, w', t);
      case Paying(b) => AfterPaying(w, k, i, now, draft, w', b);
      case _ =>
    }
  }

  // ---------------------------------------------------------------- from one step of an invocation to its next

  /** Neither a step nor the death of invocation `k` from `lo` up to `hi`. */
  ghost predicate Idle(moments: seq<Moment>, k: Id, lo: nat, hi: nat)
    requires hi <= |moments|
  {
    forall n :: lo <= n < hi ==> !(moments[n].act.Advance? && moments[n].act.exec == k) && moments[n].act != Abort(k)
  }

  lemma OthersLeaveExec(w: World, a: Act, now: Time, k: Id)
    requires CanAct(w, a, now) && k in w.graphs.execs && !(a.Advance? && a.exec == k) && a != Abort(k)
    ensures k in After(w, a, now).graphs.execs && After(w, a, now).graphs.execs[k] == w.graphs.execs[k]
  {
  }

  lemma {:induction false} IdleStays(worlds: seq<World>, moments: seq<Moment>, k: Id, lo: nat, hi: nat)
    requires IsAssistantRun(worlds, moments) && lo <= hi <= |moments| && Idle(moments, k, lo, hi) && k in worlds[lo].graphs.execs
    ensures k in worlds[hi].graphs.execs && worlds[hi].graphs.execs[k] == worlds[lo].graphs.execs[k]
  {
    if lo < hi {
      IdleStays(worlds, moments, k, lo, hi - 1);
      assert ActsAt(worlds, moments, hi - 1);
      OthersLeaveExec(worlds[hi - 1], moments[hi - 1].act, moments[hi - 1].now, k);
    }
  }

  /**
    A booking the assistant creates is paid for in the next step of the same invocation,
    whatever other invocations, clicks, sweeps and requests come between.
   */
  lemma CreatedIsPaidNext(worlds: seq<World>, moments: seq<Moment>, n: nat, m: nat, k: Id, i: Input, i': Input, t: Id)
    requires IsAssistantRun(worlds, moments) && n < m < |moments| && ActsAt(worlds, moments, n)
    requires moments[n].act == Advance(k, i) && RowAction(worlds[n], moments[n].act) == Some(CommitCreate(t))
    requires worlds[n].db.nextBooking in worlds[n + 1].db.bookings
    requires Idle(moments, k, n + 1, m) && moments[m].act == Advance(k, i')
    ensures RowAction(worlds[m], moments[m].act) == Some(PayBooking(worlds[n].db.nextBooking, i'.success))
  {
    var x := worlds[n].graphs.execs[k];
    ConfirmingNode(worlds, moments, n, k, i, x.values.draft);
    IdleStays(worlds, moments, k, n + 1, m);
  }

  // ---------------------------------------------------------------- the other acting nodes

  predicate InNode(g: Store, k: Id, node: Node, b: Id)
  {
    k in g.execs && g.execs[k].at == node && g.execs[k].values == ForBooking(b)
  }

  /** The cancelling node cancels exactly the booking it has read as confirmed. */
  lemma CancellingNode(worlds: seq<World>, moments: seq<Moment>, n: nat, k: Id, i: Input, b: Id)
    requires IsAssistantRun(worlds, moments) && n < |moments| && ActsAt(worlds, moments, n) && moments[n].act == Advance(k, i)
    requires InNode(worlds[n].graphs, k, CancelNow, b)
    ensures var w, w', g, g', a := worlds[n], worlds[n + 1], worlds[n].graphs, worlds[n + 1].graphs, RowAction(worlds[n], moments[n].act);
            && (a == Some(ReadForCancel(b)) ==>
                  if b in w.db.bookings && w.db.bookings[b].status.Confirmed? then NextCancels(g', k, b) else GaveUp(g, g', k))
            && (a == Some(CancelBooking(b)) ==> Finished(g, g', k))
            && (a.Some? ==> a == Some(ReadForCancel(b)) || a == Some(CancelBooking(b)))
  {
  }

  /** The invocation stands at the retry pause again, with its thread, and with the answer of a click that found the thread in front of the node. */
  predicate PausesAgain(g: Store, g': Store, k: Id, b: Id)
  {
    && k in g.execs && k in g'.execs
    && g'.execs[k].at.AwaitRetry? && g'.execs[k].answer == g.execs[k].answer && g'.execs[k].values == ForBooking(b)
    && g'.checkpoints == g.checkpoints[g.execs[k].thread := Checkpoint(AwaitRetry, ForBooking(b))]
  }

  /** The retrying node pays once and reads the row again: a booking left failed goes back to the pause, any other ends the graph. */
  lemma RetryingNode(worlds: seq<World>, moments: seq<Moment>, n: nat, m: nat, k: Id, i: Input, i': Input, b: Id, success: bool)
    requires IsAssistantRun(worlds, moments) && n < m < |moments| && ActsAt(worlds, moments, n) && ActsAt(worlds, moments, m)
    requires moments[n].act == Advance(k, i) && InNode(worlds[n].graphs, k, RetryPayment, b)
    requires RowAction(worlds[n], moments[n].act) == Some(PayBooking(b, success))
    requires Idle(moments, k, n + 1, m) && moments[m].act == Advance(k, i')
    ensures RowAction(worlds[m], moments[m].act).None?
    ensures var s, g, g' := worlds[m].db, worlds[m].graphs, worlds[m + 1].graphs;
            if b !in s.bookings then GaveUp(g, g', k)
            else if s.bookings[b].status.Failed? then PausesAgain(g, g', k, b)
            else Finished(g, g', k)
  {
    RetryReads(worlds[n], k, i, moments[n].now, b);
    IdleStays(worlds, moments, k, n + 1, m);
    RetryRoutes(worlds[m], k, i', moments[m].now, b);
  }

  lemma RetryReads(w: World, k: Id, i: Input, now: Time, b: Id)
    requires CanAct(w, Advance(k, i), now) && InNode(w.graphs, k, RetryPayment, b) && RowAction(w, Advance(k, i)).Some?
    ensures var g' := After(w, Advance(k, i), now).graphs; InNode(g', k, RetryPayment, b) && g'.execs[k].pc.Rereading?
  {
  }

  lemma RetryRoutes(w: World, k: Id, i: Input, now: Time, b: Id)
    requires CanAct(w, Advance(k, i), now) && InNode(w.graphs, k, RetryPayment, b) && w.graphs.execs[k].pc.Rereading?
    ensures RowAction(w, Advance(k, i)).None?
    ensures var s, g, g' := w.db, w.graphs, After(w, Advance(k, i), now).graphs;
            if b !in s.bookings then GaveUp(g, g', k)
            else if s.bookings[b].status.Failed? then PausesAgain(g, g', k, b)
            else Finished(g, g', k)
  {
  }

  /** An answered pause is left exactly one deeper by an affirmation, and for a node that does nothing by any other answer. */
  lemma AnswersDecide(x: Exec, i: Input, s: State, now: Time)
    requires Belongs(x.thread.Graph(), x.at) && x.at.Pauses() && x.answer.Some?
    ensures var p := NodeProgress(x, i, s, now);
            && p.Complete? && (Affirms(x.thread, x.answer.value) ==> Depth(p.next) == Depth(x.at) + 1 && (p.next.Acts() || p.next.Pauses()))
            && (!Affirms(x.thread, x.answer.value) ==> Depth(p.next) == 0 && !p.next.Acts() && !p.next.Pauses())
  {
  }
}
