/** The assistant at work: tools and clicks start invocations of the graphs, which run beside each other and the engine. */
module Assistant {
  import opened Wrappers
  import opened Rows
  import opened Engine
  import opened Graphs

  /** A user's pending draft. */
  datatype Marker = Marker(conversation: Id, expiresAt: Time)
  {
    predicate Expired(now: Time) { now >= expiresAt }
  }

  /** `drafts` and `confirmed` record every draft ever staged and every draft ever resumed with a confirmation. */
  datatype World = World(
    db: State, graphs: Store, markers: map<Id, Marker>, drafts: map<nat, Draft>, nextDraft: nat, confirmed: set<nat>)

  datatype Act =
    | OnRows(action: Action)
    | PrepareDraft(user: Id, conversation: Id, event: Id, numbers: seq<int>, exec: Id)
    | PrepareCancel(user: Id, booking: Id, exec: Id)
    | PrepareRetry(user: Id, booking: Id, exec: Id)
    | AutoStage(booking: Id, exec: Id)
    | ClickConfirm(user: Id, exec: Id)
    | ClickDiscard(user: Id, exec: Id)
    | ClickBooking(thread: ThreadId, answer: Answer, exec: Id)
    | Advance(exec: Id, input: Input)
    | Abort(exec: Id)
    | DropMarker(user: Id)

  datatype Moment = Moment(act: Act, now: Time)

  // ---------------------------------------------------------------- tools and clicks

  function Stage(w: World, user: Id, conversation: Id, event: Id, numbers: seq<int>, k: Id, now: Time): World
  {
    var draft := Draft(w.nextDraft, user, event, numbers);
    w.(graphs := Invoke(w.graphs, k, BookingThread(conversation), ForDraft(draft)),
       markers := w.markers[user := Marker(conversation, now + HOLD_PERIOD)],
       drafts := w.drafts[w.nextDraft := draft], nextDraft := w.nextDraft + 1)
  }

  predicate Owned(w: World, user: Id, b: Id) { b in w.db.bookings && w.db.bookings[b].user == user }

  function InvokeFor(w: World, th: ThreadId, b: Id, k: Id): World
  {
    w.(graphs := Invoke(w.graphs, k, th, ForBooking(b)))
  }

  /** The thread a click on the user's draft resumes. */
  function ClickedThread(w: World, user: Id): Option<ThreadId>
  {
    if user in w.markers && Waiting(w.graphs, BookingThread(w.markers[user].conversation))
    then Some(BookingThread(w.markers[user].conversation)) else None
  }

  function Unmark(w: World, user: Id): World { w.(markers := w.markers - {user}) }

  function DraftIds(v: Values): set<nat> { if v.ForDraft? then {v.draft.id} else {} }

  /** A marker that has expired or leads nowhere is dropped. */
  function Confirm(w: World, user: Id, k: Id, now: Time): World
  {
    var th := ClickedThread(w, user);
    if user in w.markers && !w.markers[user].Expired(now) && th.Some? then
      w.(graphs := Resume(w.graphs, k, th.value, SayConfirm),
         confirmed := w.confirmed + DraftIds(w.graphs.checkpoints[th.value].values))
    else Unmark(w, user)
  }

  function Discard(w: World, user: Id, k: Id): World
  {
    var th := ClickedThread(w, user);
    if th.Some? then w.(graphs := Resume(w.graphs, k, th.value, SayNo)) else Unmark(w, user)
  }

  // ---------------------------------------------------------------- steps

  ghost predicate IsDraftKey(key: string) { exists d: nat :: key == DraftKey(d) }

  function NumberSet(numbers: seq<int>): set<int> { set n | n in numbers }

  /**
    The confirming node's lookup: as many seat ids as there are numbers in the draft, each of
    a seat of the event with such a number. The lookup takes no lock, so a seat may be gone.
   */
  predicate Translates(seats: map<Id, Seat>, draft: Draft, ids: seq<Id>)
  {
    && |ids| == |NumberSet(draft.numbers)|
    && (forall x :: x in ids && x in seats ==> seats[x].event == draft.event && seats[x].spec.number in draft.numbers)
  }

  /** No other client uses an assistant key. */
  ghost predicate Outside(a: Action)
  {
    a.OpenCreate? && a.request.key.Some? ==> !IsDraftKey(a.request.key.value)
  }

  /** The engine step an act takes, if it takes one. */
  function RowAction(w: World, a: Act): Option<Action>
  {
    match a
    case OnRows(action) => Some(action)
    case Advance(k, i) => if k in w.graphs.execs then EngineAction(w.graphs.execs[k], i) else None
    case _ => None
  }

  /** What an act asks of the assistant's own state. */
  ghost predicate Ready(w: World, a: Act)
  {
    var g := w.graphs;
    match a
    case OnRows(action) => Outside(action)
    case PrepareDraft(_, _, _, _, k) => k !in g.execs
    case PrepareCancel(u, b, k) => k !in g.execs && Owned(w, u, b) && w.db.bookings[b].status.Confirmed?
    case PrepareRetry(u, b, k) => k !in g.execs && Owned(w, u, b) && w.db.bookings[b].status.Open()
    case AutoStage(b, k) => k !in g.execs && b in w.db.bookings && w.db.bookings[b].status.Failed?
    case ClickConfirm(_, k) => k !in g.execs
    case ClickDiscard(_, k) => k !in g.execs
    case ClickBooking(th, _, k) => k !in g.execs && !th.BookingThread? && Waiting(g, th)
    case Advance(k, i) =>
      k in g.execs &&
      (g.execs[k].at.Confirm? && g.execs[k].pc.Creating? && g.execs[k].values.ForDraft? ==>
         Translates(w.db.seats, g.execs[k].values.draft, i.seatIds))
    case Abort(k) => k in g.execs
    case DropMarker(_) => true
  }

  ghost predicate CanAct(w: World, a: Act, now: Time)
  {
    && now > w.db.clock && Ready(w, a)
    && (RowAction(w, a).Some? ==> Enabled(w.db, RowAction(w, a).value, now))
  }

  ghost function RowsAfter(w: World, a: Act, now: Time): State
    requires CanAct(w, a, now)
  {
    if RowAction(w, a).Some? then Apply(w.db, RowAction(w, a).value, now) else w.db.(clock := now)
  }

  ghost function DeskAfter(w: World, a: Act, now: Time): World
    requires CanAct(w, a, now)
  {
    match a
    case OnRows(_) => w
    case PrepareDraft(u, conversation, e, numbers, k) => Stage(w, u, conversation, e, numbers, k, now)
    case PrepareCancel(_, b, k) => InvokeFor(w, CancelThread(b), b, k)
    case PrepareRetry(_, b, k) => InvokeFor(w, RetryThread(b), b, k)
    case AutoStage(b, k) => InvokeFor(w, RetryThread(b), b, k)
    case ClickConfirm(u, k) => Confirm(w, u, k, now)
    case ClickDiscard(u, k) => Discard(w, u, k)
    case ClickBooking(th, answer, k) => w.(graphs := Resume(w.graphs, k, th, answer))
    case Advance(k, i) => w.(graphs := Settle(w.graphs, k, NodeProgress(w.graphs.execs[k], i, w.db, now)))
    case Abort(k) => w.(graphs := Settle(w.graphs, k, Raise))
    case DropMarker(u) => Unmark(w, u)
  }

  ghost function After(w: World, a: Act, now: Time): World
    requires CanAct(w, a, now)
  {
    DeskAfter(w, a, now).(db := RowsAfter(w, a, now))
  }

  ghost predicate ActsAt(worlds: seq<World>, moments: seq<Moment>, i: nat)
    requires i < |moments| && |worlds| == |moments| + 1
  {
    CanAct(worlds[i], moments[i].act, moments[i].now) && worlds[i + 1] == After(worlds[i], moments[i].act, moments[i].now)
  }

  const NO_GRAPHS := Store(map[], map[])

  ghost predicate IsAssistantRun(worlds: seq<World>, moments: seq<Moment>)
  {
    && |worlds| == |moments| + 1
    && worlds[0] == World(EmptyState(worlds[0].db.clock), NO_GRAPHS, map[], map[], 0, {})
    && forall i :: 0 <= i < |moments| ==> ActsAt(worlds, moments, i)
  }

  // ---------------------------------------------------------------- proposing executes nothing

  /** A tool call: it invokes a graph. */
  predicate IsTool(a: Act) { a.PrepareDraft? || a.PrepareCancel? || a.PrepareRetry? || a.AutoStage? }

  /**
    A stretch of a run made of tool calls only, with the steps of the invocations they
    started, whatever those turn out to be; dropping markers included.
   */
  ghost predicate OnlyProposes(worlds: seq<World>, moments: seq<Moment>, i: nat, j: nat)
    requires i <= j <= |moments| < |worlds|
  {
    forall n: nat :: i <= n < j ==> ProposesAt(worlds[i].graphs.execs, moments[n].act)
  }

  predicate ProposesAt(before: map<Id, Exec>, a: Act)
  {
    || IsTool(a) || a.DropMarker?
    || (a.Advance? && a.exec !in before) || (a.Abort? && a.exec !in before)
  }

  /** Invocations that were not there before wait at their entry without an answer. */
  ghost predicate NewOnesWait(before: map<Id, Exec>, execs: map<Id, Exec>)
  {
    && (forall k :: k in before ==> k in execs && execs[k] == before[k])
    && (forall k :: k in execs && k !in before ==> execs[k].at == Entry(execs[k].thread.Graph()) && execs[k].answer.None?)
  }

  lemma InvokeWaits(before: map<Id, Exec>, g: Store, k: Id, th: ThreadId, values: Values)
    requires NewOnesWait(before, g.execs) && k !in g.execs
    ensures NewOnesWait(before, Invoke(g, k, th, values).execs)
  {
  }

  lemma ToolProposes(before: map<Id, Exec>, w: World, a: Act, now: Time)
    requires NewOnesWait(before, w.graphs.execs) && CanAct(w, a, now) && IsTool(a)
    ensures NewOnesWait(before, After(w, a, now).graphs.execs)
    ensures After(w, a, now).confirmed == w.confirmed
  {
    match a {
      case PrepareDraft(u, conversation, e, numbers, k) =>
        InvokeWaits(before, w.graphs, k, BookingThread(conversation), ForDraft(Draft(w.nextDraft, u, e, numbers)));
      case PrepareCancel(_, b, k) => InvokeWaits(before, w.graphs, k, CancelThread(b), ForBooking(b));
      case PrepareRetry(_, b, k) => InvokeWaits(before, w.graphs, k, RetryThread(b), ForBooking(b));
      case AutoStage(b, k) => InvokeWaits(before, w.graphs, k, RetryThread(b), ForBooking(b));
    }
  }

  /** A new invocation can only pause: where it stands there is nothing else to do. */
  lemma WaitingOnlyPauses(w: World, k: Id, i: Input, now: Time)
    requires CanAct(w, Advance(k, i), now)
    requires w.graphs.execs[k].at == Entry(w.graphs.execs[k].thread.Graph()) && w.graphs.execs[k].answer.None?
    ensures RowAction(w, Advance(k, i)).None?
    ensures After(w, Advance(k, i), now).graphs.execs == w.graphs.execs - {k}
  {
  }

  lemma ProposingStep(before: map<Id, Exec>, w: World, a: Act, now: Time)
    requires NewOnesWait(before, w.graphs.execs) && CanAct(w, a, now) && ProposesAt(before, a)
    ensures NewOnesWait(before, After(w, a, now).graphs.execs)
    ensures After(w, a, now).db == w.db.(clock := now)
    ensures After(w, a, now).confirmed == w.confirmed
  {
    if IsTool(a) {
      ToolProposes(before, w, a, now);
    } else if a.Advance? {
      WaitingOnlyPauses(w, a.exec, a.input, now);
    }
  }

  /**
    However many preparing tool calls are made in a row, over whatever checkpoints were
    stored: running their graphs changes no booking, claim, payment or any other row.
   */
  lemma {:induction false} ProposingChangesNothing(worlds: seq<World>, moments: seq<Moment>, i: nat, j: nat)
    requires IsAssistantRun(worlds, moments) && i <= j <= |moments| && OnlyProposes(worlds, moments, i, j)
    ensures worlds[j].db == worlds[i].db.(clock := worlds[j].db.clock)
    ensures worlds[j].confirmed == worlds[i].confirmed
    ensures NewOnesWait(worlds[i].graphs.execs, worlds[j].graphs.execs)
  {
    if i < j {
      ProposingChangesNothing(worlds, moments, i, j - 1);
      assert ActsAt(worlds, moments, j - 1) && ProposesAt(worlds[i].graphs.execs, moments[j - 1].act);
      ProposingStep(worlds[i].graphs.execs, worlds[j - 1], moments[j - 1].act, moments[j - 1].now);
    }
  }

  // ---------------------------------------------------------------- acting takes clicks

  /** An affirming click that reaches a waiting thread. */
  predicate AffirmsAt(w: World, m: Moment, th: ThreadId)
  {
    match m.act
    case ClickConfirm(u, _) => u in w.markers && !w.markers[u].Expired(m.now) && ClickedThread(w, u) == Some(th)
    case ClickBooking(t, answer, _) => t == th && Affirms(th, answer)
    case _ => false
  }

  function AffirmingClicks(worlds: seq<World>, moments: seq<Moment>, th: ThreadId, n: nat): nat
    requires n <= |moments| < |worlds|
  {
    if n == 0 then 0
    else AffirmingClicks(worlds, moments, th, n - 1) + if AffirmsAt(worlds[n - 1], moments[n - 1], th) then 1 else 0
  }

  /** An affirming answer not used up yet counts as one deeper. */
  function DepthOf(x: Exec): nat
  {
    Depth(x.at) + if x.answer.Some? && Affirms(x.thread, x.answer.value) then 1 else 0
  }

  ghost predicate InGraph(g: Store)
  {
    && (forall th :: th in g.checkpoints ==> Belongs(th.Graph(), g.checkpoints[th].next))
    && (forall k :: k in g.execs ==> Belongs(g.execs[k].thread.Graph(), g.execs[k].at))
  }

  ghost predicate Paid(g: Store, th: ThreadId, clicks: nat)
  {
    && (th in g.checkpoints ==> Depth(g.checkpoints[th].next) <= clicks)
    && (forall k :: k in g.execs && g.execs[k].thread == th ==> DepthOf(g.execs[k]) <= clicks)
  }

  lemma InvokeStaysPaid(g: Store, k: Id, t: ThreadId, values: Values, th: ThreadId, clicks: nat)
    requires InGraph(g) && Paid(g, th, clicks)
    ensures InGraph(Invoke(g, k, t, values)) && Paid(Invoke(g, k, t, values), th, clicks)
  {
  }

  lemma ResumeStaysPaid(g: Store, k: Id, t: ThreadId, answer: Answer, th: ThreadId, clicks: nat)
    requires InGraph(g) && Paid(g, th, clicks) && t in g.checkpoints
    ensures InGraph(Resume(g, k, t, answer))
    ensures Paid(Resume(g, k, t, answer), th, clicks + if t == th && Affirms(t, answer) then 1 else 0)
  {
  }

  lemma SettleStaysPaid(g: Store, k: Id, p: Progress, th: ThreadId, clicks: nat)
    requires InGraph(g) && Paid(g, th, clicks) && k in g.execs
    requires p.Complete? ==> Belongs(g.execs[k].thread.Graph(), p.next)
    requires p.Complete? ==> Depth(p.next) <= if g.execs[k].at.Pauses() then DepthOf(g.execs[k]) else 0
    ensures InGraph(Settle(g, k, p)) && Paid(Settle(g, k, p), th, clicks)
  {
  }

  lemma ClickStaysPaid(w: World, m: Moment, th: ThreadId, clicks: nat)
    requires InGraph(w.graphs) && Paid(w.graphs, th, clicks) && CanAct(w, m.act, m.now)
    requires m.act.ClickConfirm? || m.act.ClickDiscard? || m.act.ClickBooking?
    ensures InGraph(After(w, m.act, m.now).graphs)
    ensures Paid(After(w, m.act, m.now).graphs, th, clicks + if AffirmsAt(w, m, th) then 1 else 0)
  {
    match m.act {
      case ClickConfirm(u, k) =>
        var t := ClickedThread(w, u);
        if t.Some? { ResumeStaysPaid(w.graphs, k, t.value, SayConfirm, th, clicks); }
      case ClickDiscard(u, k) =>
        var t := ClickedThread(w, u);
        if t.Some? { ResumeStaysPaid(w.graphs, k, t.value, SayNo, th, clicks); }
      case ClickBooking(t, answer, k) => ResumeStaysPaid(w.graphs, k, t, answer, th, clicks);
    }
  }

  lemma ToolStaysPaid(w: World, m: Moment, th: ThreadId, clicks: nat)
    requires InGraph(w.graphs) && Paid(w.graphs, th, clicks) && CanAct(w, m.act, m.now) && IsTool(m.act)
    ensures InGraph(After(w, m.act, m.now).graphs) && Paid(After(w, m.act, m.now).graphs, th, clicks)
  {
    match m.act {
      case PrepareDraft(u, conversation, e, numbers, k) =>
        InvokeStaysPaid(w.graphs, k, BookingThread(conversation), ForDraft(Draft(w.nextDraft, u, e, numbers)), th, clicks);
      case PrepareCancel(_, b, k) => InvokeStaysPaid(w.graphs, k, CancelThread(b), ForBooking(b), th, clicks);
      case PrepareRetry(_, b, k) => InvokeStaysPaid(w.graphs, k, RetryThread(b), ForBooking(b), th, clicks);
      case AutoStage(b, k) => InvokeStaysPaid(w.graphs, k, RetryThread(b), ForBooking(b), th, clicks);
    }
  }

  lemma StepStaysPaid(w: World, m: Moment, th: ThreadId, clicks: nat)
    requires InGraph(w.graphs) && Paid(w.graphs, th, clicks) && CanAct(w, m.act, m.now)
    ensures InGraph(After(w, m.act, m.now).graphs)
    ensures Paid(After(w, m.act, m.now).graphs, th, clicks + if AffirmsAt(w, m, th) then 1 else 0)
  {
    if IsTool(m.act) {
      ToolStaysPaid(w, m, th, clicks);
    } else if m.act.ClickConfirm? || m.act.ClickDiscard? || m.act.ClickBooking? {
      ClickStaysPaid(w, m, th, clicks);
    } else if m.act.Advance? {
      var x, i := w.graphs.execs[m.act.exec], m.act.input;
      RoutingStays(x, i, w.db, m.now);
      DeeperByClicks(x, i, w.db, m.now);
      SettleStaysPaid(w.graphs, m.act.exec, NodeProgress(x, i, w.db, m.now), th, clicks);
    } else if m.act.Abort? {
      SettleStaysPaid(w.graphs, m.act.exec, Raise, th, clicks);
    }
  }

  lemma {:induction false} RunStaysPaid(worlds: seq<World>, moments: seq<Moment>, th: ThreadId, n: nat)
    requires IsAssistantRun(worlds, moments) && n <= |moments|
    ensures InGraph(worlds[n].graphs) && Paid(worlds[n].graphs, th, AffirmingClicks(worlds, moments, th, n))
  {
    if n > 0 {
      RunStaysPaid(worlds, moments, th, n - 1);
      assert ActsAt(worlds, moments, n - 1);
      StepStaysPaid(worlds[n - 1], moments[n - 1], th, AffirmingClicks(worlds, moments, th, n - 1));
    }
  }

  /**
    In every run, with any number of invocations of one thread running at once: whenever an
    invocation takes an engine step, affirming clicks have reached its thread before, one
    for a booking or a payment, two for a cancellation.
   */
  lemma ActingTakesClicks(worlds: seq<World>, moments: seq<Moment>, n: nat, k: Id, i: Input)
    requires IsAssistantRun(worlds, moments) && n < |moments| && moments[n].act == Advance(k, i) && ActsAt(worlds, moments, n)
    requires RowAction(worlds[n], moments[n].act).Some?
    ensures var x := worlds[n].graphs.execs[k];
            && x.at.Acts()
            && 1 <= Depth(x.at) <= AffirmingClicks(worlds, moments, x.thread, n)
            && (x.thread.CancelThread? ==> Depth(x.at) == 2)
  {
    RunStaysPaid(worlds, moments, worlds[n].graphs.execs[k].thread, n);
  }
}
