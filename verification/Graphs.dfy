/**
  The assistant's three pausing graphs: their nodes and routing, and an interpreter that
  runs an invocation step by step. A node that acts does so through the booking engine.
 */
module Graphs {
  import opened Wrappers
  import opened SeatLayout
  import opened Rows
  import opened Engine

  datatype Graph = BookingGraph | CancelGraph | RetryGraph

  datatype Node =
    | PrepareBooking | Confirm | DropDraft
    | AwaitDecision | AwaitDoubleConfirm | CancelNow | Keep
    | AwaitRetry | RetryPayment | GiveUp
    | End
  {
    /** The node interrupts the run unless it was resumed with an answer. */
    predicate Pauses() { PrepareBooking? || AwaitDecision? || AwaitDoubleConfirm? || AwaitRetry? }

    /** The node calls a booking or payment service. */
    predicate Acts() { Confirm? || CancelNow? || RetryPayment? }
  }

  /** The values a click resumes with: "confirm", "retry", and any other. */
  datatype Answer = SayConfirm | SayRetry | SayNo

  function Entry(g: Graph): Node
  {
    match g
    case BookingGraph => PrepareBooking
    case CancelGraph => AwaitDecision
    case RetryGraph => AwaitRetry
  }

  predicate Belongs(g: Graph, n: Node)
  {
    match g
    case BookingGraph => n in {PrepareBooking, Confirm, DropDraft, End}
    case CancelGraph => n in {AwaitDecision, AwaitDoubleConfirm, CancelNow, Keep, End}
    case RetryGraph => n in {AwaitRetry, RetryPayment, GiveUp, End}
  }

  /** Where the routing functions send an answered pause. */
  function AfterPause(n: Node, answer: Answer): Node
    requires n.Pauses()
  {
    match n
    case PrepareBooking => if answer.SayConfirm? then Confirm else DropDraft
    case AwaitDecision => if answer.SayConfirm? then AwaitDoubleConfirm else Keep
    case AwaitDoubleConfirm => if answer.SayConfirm? then CancelNow else Keep
    case AwaitRetry => if answer.SayRetry? then RetryPayment else GiveUp
  }

  /** A failed attempt goes back to the pause. */
  function AfterPayment(status: Status): Node
  {
    if status.Failed? then AwaitRetry else End
  }

  // ---------------------------------------------------------------- stored and running graphs

  /** What a booking thread carries; `id` is minted afresh by every staging. */
  datatype Draft = Draft(id: nat, user: Id, event: Id, numbers: seq<int>)

  const PREFIX := "ai-confirm-"

  function DraftKey(d: nat): string { PREFIX + Decimal(d) }

  function DraftRequest(draft: Draft, price: int, seatIds: seq<Id>): CreateRequest
  {
    CreateRequest(draft.user, draft.event, price, seatIds, Some(DraftKey(draft.id)))
  }

  datatype ThreadId = BookingThread(conversation: Id) | CancelThread(booking: Id) | RetryThread(booking: Id)
  {
    function Graph(): Graph
    {
      match this
      case BookingThread(_) => BookingGraph
      case CancelThread(_) => CancelGraph
      case RetryThread(_) => RetryGraph
    }
  }

  datatype Values = ForDraft(draft: Draft) | ForBooking(booking: Id)

  /** The last checkpoint of a thread: the node to run next. It may be a node that was started and never completed. */
  datatype Checkpoint = Checkpoint(next: Node, values: Values)

  /** How far an acting node has come. */
  datatype Pc = Start | Creating | Committing(txn: Id) | Recovering(txn: Id) | Paying(booking: Id) | Cancelling | Rereading

  /** One invocation under way; several may run on one thread at once. */
  datatype Exec = Exec(thread: ThreadId, values: Values, at: Node, answer: Option<Answer>, pc: Pc)

  datatype Store = Store(checkpoints: map<ThreadId, Checkpoint>, execs: map<Id, Exec>)

  /** A plain invoke: whatever the thread had stored, it starts again at the entry. */
  function Invoke(g: Store, k: Id, th: ThreadId, values: Values): Store
  {
    Store(g.checkpoints[th := Checkpoint(Entry(th.Graph()), values)],
          g.execs[k := Exec(th, values, Entry(th.Graph()), None, Start)])
  }

  predicate Waiting(g: Store, th: ThreadId)
  {
    th in g.checkpoints && !g.checkpoints[th].next.End?
  }

  /** A resume: runs on from the stored node with the click's answer. */
  function Resume(g: Store, k: Id, th: ThreadId, answer: Answer): Store
    requires th in g.checkpoints
  {
    g.(execs := g.execs[k := Exec(th, g.checkpoints[th].values, g.checkpoints[th].next, Some(answer), Start)])
  }

  // ---------------------------------------------------------------- one step of an invocation

  /** What a node cannot know beforehand. */
  datatype Input = Input(txn: Id, price: int, seatIds: seq<Id>, success: bool)

  /** The engine step the invocation takes next, if it takes one. */
  function EngineAction(x: Exec, i: Input): Option<Action>
  {
    match (x.at, x.values)
    case (Confirm, ForDraft(draft)) =>
      (match x.pc
       case Start => Some(FastPath(draft.user, DraftKey(draft.id)))
       case Creating => Some(OpenCreate(i.txn, DraftRequest(draft, i.price, i.seatIds)))
       case Committing(t) => Some(CommitCreate(t))
       case Recovering(t) => Some(LookupCreate(t))
       case Paying(b) => Some(PayBooking(b, i.success))
       case _ => None)
    case (CancelNow, ForBooking(b)) =>
      (match x.pc
       case Start => Some(ReadForCancel(b))
       case Cancelling => Some(CancelBooking(b))
       case _ => None)
    case (RetryPayment, ForBooking(b)) => if x.pc.Start? then Some(PayBooking(b, i.success)) else None
    case _ => None
  }

  /** What follows: on inside the node, on to the next node, a pause, or an error that stops the run. */
  datatype Progress = Continue(pc: Pc) | Complete(next: Node) | Interrupt | Raise

  /** A booking found instead of created is paid for only while it is pending. */
  function AfterFinding(s: State, b: Id): Progress
  {
    if b in s.bookings && s.bookings[b].status.Pending? then Continue(Paying(b)) else Complete(End)
  }

  ghost function CreateProgress(x: Exec, i: Input, s: State, now: Time): Progress
    requires x.at.Confirm? && x.values.ForDraft?
    requires EngineAction(x, i).Some? ==> Enabled(s, EngineAction(x, i).value, now)
  {
    var draft := x.values.draft;
    match x.pc
    case Start =>
      var found := ExistingBooking(s.bookings, draft.user, DraftKey(draft.id));
      if found.Some? then Complete(End) else Continue(Creating)
    case Creating =>
      (match BeginCreate(s, i.txn, DraftRequest(draft, i.price, i.seatIds), now).1
       case Reading => Continue(Committing(i.txn))
       case Existing(b) => AfterFinding(s, b)
       case _ => Raise)
    case Committing(t) =>
      (match FinishCreate(s, t, now).1
       case Created(b) => Continue(Paying(b))
       case IntegrityError => Continue(Recovering(t))
       case _ => Raise)
    case Recovering(t) =>
      var reply := LookupExisting(s, t).1;
      if reply.Existing? then AfterFinding(s, reply.booking) else Raise
    case Paying(b) =>
      var reply := Pay(s, b, i.success, now).1;
      if reply.NotFound? || reply.HoldExpired? || reply.RetryLimit? then Raise else Complete(End)
    case _ => Raise
  }

  /** From the rows as the step finds them. */
  ghost function NodeProgress(x: Exec, i: Input, s: State, now: Time): Progress
    requires EngineAction(x, i).Some? ==> Enabled(s, EngineAction(x, i).value, now)
  {
    if x.at.Pauses() then
      if x.answer.Some? then Complete(AfterPause(x.at, x.answer.value)) else Interrupt
    else
      match (x.at, x.values)
      case (Confirm, ForDraft(_)) => CreateProgress(x, i, s, now)
      case (CancelNow, ForBooking(b)) =>
        if x.pc.Cancelling? then Complete(End)
        else if x.pc.Start? && b in s.bookings && s.bookings[b].status.Confirmed? then Continue(Cancelling)
        else Raise
      case (RetryPayment, ForBooking(b)) =>
        if x.pc.Start? then Continue(Rereading)
        else if b in s.bookings then Complete(AfterPayment(s.bookings[b].status))
        else Raise
      case _ => Complete(End)
  }

  /** The checkpoint is written between nodes: an error inside a node leaves the thread in front of it. */
  function Settle(g: Store, k: Id, p: Progress): Store
    requires k in g.execs
  {
    var x := g.execs[k];
    match p
    case Continue(pc) => g.(execs := g.execs[k := x.(pc := pc)])
    case Interrupt => Store(g.checkpoints[x.thread := Checkpoint(x.at, x.values)], g.execs - {k})
    case Raise => g.(execs := g.execs - {k})
    case Complete(End) => Store(g.checkpoints[x.thread := Checkpoint(End, x.values)], g.execs - {k})
    case Complete(n) =>
      Store(g.checkpoints[x.thread := Checkpoint(n, x.values)],
            g.execs[k := x.(at := n, pc := Start, answer := if x.at.Pauses() then None else x.answer)])
  }

  // ---------------------------------------------------------------- facts about the graphs

  /** Routing never leaves the graph. */
  lemma RoutingStays(x: Exec, i: Input, s: State, now: Time)
    requires Belongs(x.thread.Graph(), x.at)
    requires EngineAction(x, i).Some? ==> Enabled(s, EngineAction(x, i).value, now)
    ensures NodeProgress(x, i, s, now).Complete? ==> Belongs(x.thread.Graph(), NodeProgress(x, i, s, now).next)
  {
  }

  /**
    From any stored checkpoint, one stopped inside an acting node included: an invoke of any
    of the graphs takes no engine step, pauses at once, and leaves the thread waiting in
    front of its entry with nothing running.
   */
  lemma InvokePausesFirst(g: Store, k: Id, th: ThreadId, values: Values, i: Input, s: State, now: Time)
    requires k !in g.execs
    ensures var started := Invoke(g, k, th, values);
            && EngineAction(started.execs[k], i).None?
            && NodeProgress(started.execs[k], i, s, now).Interrupt?
            && Settle(started, k, Interrupt) == Store(g.checkpoints[th := Checkpoint(Entry(th.Graph()), values)], g.execs)
            && Entry(th.Graph()).Pauses()
  {
    var started := Invoke(g, k, th, values);
    assert started.execs - {k} == g.execs;
    assert started.checkpoints[th := Checkpoint(Entry(th.Graph()), values)] == started.checkpoints;
  }

  /** How many affirmative clicks lie between a graph's entry and a node. */
  function Depth(n: Node): nat
  {
    match n
    case AwaitDoubleConfirm => 1
    case Confirm => 1
    case RetryPayment => 1
    case CancelNow => 2
    case _ => 0
  }

  predicate Affirms(th: ThreadId, answer: Answer)
  {
    if th.RetryThread? then answer.SayRetry? else answer.SayConfirm?
  }

  /** An answer brings an invocation one deeper if it affirms and otherwise ends the descent; nothing else goes deeper. */
  lemma DeeperByClicks(x: Exec, i: Input, s: State, now: Time)
    requires Belongs(x.thread.Graph(), x.at)
    requires EngineAction(x, i).Some? ==> Enabled(s, EngineAction(x, i).value, now)
    ensures var p := NodeProgress(x, i, s, now);
            p.Complete? ==>
              Depth(p.next) <= if x.at.Pauses() && x.answer.Some? && Affirms(x.thread, x.answer.value) then Depth(x.at) + 1 else 0
  {
  }
}
