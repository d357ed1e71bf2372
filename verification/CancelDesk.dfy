/** Cancelling through the assistant: one marker a user, one paused graph a booking, two confirming clicks. */
module CancelDesk {
  import opened Wrappers
  import opened Rows
  import Graphs

  /** Where a booking's cancellation graph is paused. `Cancelling`: its last node raised and has not been completed. */
  datatype Stage = Deciding | DoubleChecking | Cancelling

  datatype Decision = Confirm | Keep

  /** The one row per user that finds the paused graph again. */
  datatype Marker = Marker(booking: Id, expiresAt: Time)
  {
    predicate Expired(now: Time) { now >= expiresAt }
  }

  datatype Desk = Desk(markers: map<Id, Marker>, stages: map<Id, Stage>)

  datatype Reply = NothingPending | RequestExpired | AskedAgain(booking: Id) | Cancelled(booking: Id) | Refused(booking: Id) | Kept(booking: Id)
  {
    /** The graph has run its cancelling node: the booking service was called. */
    predicate ReachesService() { Cancelled? || Refused? }
  }

  // ---------------------------------------------------------------- the graph

  datatype Outcome = Paused(stage: Stage) | Ended | CancelledNow | Raises

  function NodeOf(stage: Stage): Graphs.Node
  {
    match stage
    case Deciding => Graphs.AwaitDecision
    case DoubleChecking => Graphs.AwaitDoubleConfirm
    case Cancelling => Graphs.CancelNow
  }

  function AnswerOf(decision: Decision): Graphs.Answer { if decision.Confirm? then Graphs.SayConfirm else Graphs.SayNo }

  /** Resuming the graph; an unfinished cancelling node runs again whatever the decision. */
  function Resume(stage: Stage, decision: Decision, stillConfirmed: bool): Outcome
  {
    var n := NodeOf(stage);
    var next := if n.Pauses() then Graphs.AfterPause(n, AnswerOf(decision)) else n;
    if next.AwaitDoubleConfirm? then Paused(DoubleChecking)
    else if next.CancelNow? then (if stillConfirmed then CancelledNow else Raises)
    else Ended
  }

  /** One step of an invocation inside the graph; it stops before a node that acts. */
  ghost function StepInside(g: Graphs.Store, k: Id, s: State): (r: Graphs.Store)
    ensures g.checkpoints.Keys <= r.checkpoints.Keys
  {
    if k !in g.execs || g.execs[k].at.Acts() then g
    else Graphs.Settle(g, k, Graphs.NodeProgress(g.execs[k], Graphs.Input(0, 0, [], false), s, s.clock))
  }

  /** A click's invocation with nothing else in between: answer the pause, then rest. */
  ghost function ClickAlone(g: Graphs.Store, k: Id, b: Id, decision: Decision, s: State): (r: Graphs.Store)
    requires Graphs.CancelThread(b) in g.checkpoints
    ensures Graphs.CancelThread(b) in r.checkpoints
  {
    StepInside(StepInside(Graphs.Resume(g, k, Graphs.CancelThread(b), AnswerOf(decision)), k, s), k, s)
  }

  /**
    A click on a waiting cancellation graph, interpreted alone, does what the desk says: it
    rests at the next pause, has ended, or stands before the cancelling node.
   */
  lemma ClickFollowsGraph(g: Graphs.Store, k: Id, b: Id, stage: Stage, decision: Decision, stillConfirmed: bool, s: State)
    requires k !in g.execs && Graphs.CancelThread(b) in g.checkpoints
    requires g.checkpoints[Graphs.CancelThread(b)] == Graphs.Checkpoint(NodeOf(stage), Graphs.ForBooking(b))
    ensures var g' := ClickAlone(g, k, b, decision, s);
            var c := g'.checkpoints[Graphs.CancelThread(b)];
            match Resume(stage, decision, stillConfirmed)
            case Paused(next) => k !in g'.execs && c.next == NodeOf(next)
            case Ended => k !in g'.execs && c.next == Graphs.End
            case _ => k in g'.execs && g'.execs[k].at == Graphs.CancelNow && c.next == Graphs.CancelNow
  {
    var g0 := Graphs.Resume(g, k, Graphs.CancelThread(b), AnswerOf(decision));
    var g1 := StepInside(g0, k, s);
    if stage.Cancelling? {
      assert g0.execs[k].at.Acts() && g1 == g0;
    } else {
      assert g1.execs[k].at == Graphs.AfterPause(NodeOf(stage), AnswerOf(decision));
    }
  }

  // ---------------------------------------------------------------- the actions

  /** Staging restarts the graph at its entry pause, wherever it stood. */
  function StageRequest(d: Desk, user: Id, b: Id, allowed: bool, now: Time): Desk
  {
    if !allowed then d
    else Desk(d.markers[user := Marker(b, now + HOLD_PERIOD)], d.stages[b := Deciding])
  }

  function ConfirmClick(d: Desk, user: Id, stillConfirmed: bool, now: Time): (Desk, Reply)
  {
    if user !in d.markers then (d, NothingPending)
    else
      var b, unmarked := d.markers[user].booking, d.(markers := d.markers - {user});
      if d.markers[user].Expired(now) then (unmarked, RequestExpired)
      else if b !in d.stages then (unmarked, NothingPending)
      else
        match Resume(d.stages[b], Confirm, stillConfirmed)
        case Paused(stage) => (d.(stages := d.stages[b := stage]), AskedAgain(b))
        case CancelledNow => (unmarked.(stages := d.stages - {b}), Reply.Cancelled(b))
        case Raises => (unmarked.(stages := d.stages[b := Cancelling]), Refused(b))
        case Ended => (unmarked.(stages := d.stages - {b}), Kept(b))
  }

  function KeepClick(d: Desk, user: Id, stillConfirmed: bool): (Desk, Reply)
  {
    if user !in d.markers then (d, NothingPending)
    else
      var b, unmarked := d.markers[user].booking, d.(markers := d.markers - {user});
      if b !in d.stages then (unmarked, Kept(b))
      else
        match Resume(d.stages[b], Keep, stillConfirmed)
        case CancelledNow => (unmarked.(stages := d.stages - {b}), Reply.Cancelled(b))
        case Raises => (d.(stages := d.stages[b := Cancelling]), Refused(b))
        case _ => (unmarked.(stages := d.stages - {b}), Kept(b))
  }

  predicate Actionable(d: Desk, user: Id, now: Time)
  {
    user in d.markers && !d.markers[user].Expired(now) && d.markers[user].booking in d.stages
  }

  /** Reading the controls drops a marker that leads nowhere. */
  function Look(d: Desk, user: Id, now: Time): Desk
  {
    if user in d.markers && !Actionable(d, user, now) then d.(markers := d.markers - {user}) else d
  }

  function CleanUp(d: Desk, now: Time): Desk
  {
    d.(markers := map u | u in d.markers && !d.markers[u].Expired(now) :: d.markers[u])
  }

  // ---------------------------------------------------------------- runs

  datatype Click =
    | StageCancel(user: Id, booking: Id, confirmed: bool)
    | ClickConfirm(user: Id, stillConfirmed: bool)
    | ClickKeep(user: Id, stillConfirmed: bool)
    | LookAt(user: Id)
    | Sweep

  datatype Move = Move(click: Click, now: Time)

  /** A user may only stage a booking of their own that is confirmed. */
  predicate MayStage(owner: map<Id, Id>, user: Id, b: Id, confirmed: bool)
  {
    b in owner && owner[b] == user && confirmed
  }

  function Next(owner: map<Id, Id>, d: Desk, e: Move): (Desk, Option<Reply>)
  {
    match e.click
    case StageCancel(u, b, confirmed) => (StageRequest(d, u, b, MayStage(owner, u, b, confirmed), e.now), None)
    case ClickConfirm(u, still) => var (d', r) := ConfirmClick(d, u, still, e.now); (d', Some(r))
    case ClickKeep(u, still) => var (d', r) := KeepClick(d, u, still); (d', Some(r))
    case LookAt(u) => (Look(d, u, e.now), None)
    case Sweep => (CleanUp(d, e.now), None)
  }

  /** The desk after the moves, from an empty one. */
  function After(owner: map<Id, Id>, moves: seq<Move>): Desk
  {
    if moves == [] then Desk(map[], map[])
    else Next(owner, After(owner, moves[..|moves| - 1]), moves[|moves| - 1]).0
  }

  predicate ClockRises(moves: seq<Move>)
  {
    forall i, j :: 0 <= i < j < |moves| ==> moves[i].now < moves[j].now
  }

  // ---------------------------------------------------------------- the intended protocol

  /** How far a user has come, from their own stagings and clicks alone. */
  datatype Progress = Idle | Staged(booking: Id, at: Time, confirms: nat)

  function Track(owner: map<Id, Id>, moves: seq<Move>, user: Id): Progress
  {
    if moves == [] then Idle
    else
      var before, e := Track(owner, moves[..|moves| - 1], user), moves[|moves| - 1];
      match e.click
      case StageCancel(u, b, confirmed) => if u == user && MayStage(owner, u, b, confirmed) then Staged(b, e.now, 0) else before
      case ClickConfirm(u, _) =>
        if u != user then before
        else if before.Staged? && before.confirms == 0 then before.(confirms := 1)
        else Idle
      case ClickKeep(u, _) => if u == user then Idle else before
      case _ => before
  }

  /** What the desk must look like for a user who has come this far. */
  ghost predicate Tracks(owner: map<Id, Id>, d: Desk, user: Id, p: Progress, now: Time)
  {
    match p
    case Idle => user !in d.markers
    case Staged(b, at, confirms) =>
      && confirms <= 1 && b in owner && owner[b] == user
      && (user in d.markers ==>
            d.markers[user] == Marker(b, at + HOLD_PERIOD) && b in d.stages
            && d.stages[b] == if confirms == 0 then Deciding else DoubleChecking)
      && (user !in d.markers ==> now >= at + HOLD_PERIOD)
  }

  /** Everyone's marker is on a booking of their own. */
  ghost predicate OwnMarkers(owner: map<Id, Id>, d: Desk)
  {
    forall u :: u in d.markers ==> d.markers[u].booking in owner && owner[d.markers[u].booking] == u
  }

  lemma OwnStep(owner: map<Id, Id>, d: Desk, e: Move, user: Id, p: Progress, since: Time)
    requires OwnMarkers(owner, d) && Tracks(owner, d, user, p, since) && since <= e.now
    requires e.click.StageCancel? || e.click.ClickConfirm? || e.click.ClickKeep?
    requires e.click.user == user
    requires e.click.StageCancel? ==> MayStage(owner, user, e.click.booking, e.click.confirmed)
    ensures var d' := Next(owner, d, e).0;
            && OwnMarkers(owner, d')
            && match e.click
               case StageCancel(_, b, _) => Tracks(owner, d', user, Staged(b, e.now, 0), e.now)
               case ClickConfirm(_, _) =>
                 Tracks(owner, d', user, if p.Staged? && p.confirms == 0 then p.(confirms := 1) else Idle, e.now)
               case _ => Tracks(owner, d', user, Idle, e.now)
  {
  }

  /** Nobody else's moves, and no clean-up, disturb a user's staging. */
  lemma ForeignStep(owner: map<Id, Id>, d: Desk, e: Move, user: Id, p: Progress, since: Time)
    requires OwnMarkers(owner, d) && Tracks(owner, d, user, p, since) && since <= e.now
    requires match e.click
             case StageCancel(u, b, confirmed) => u == user ==> !MayStage(owner, u, b, confirmed)
             case ClickConfirm(u, _) => u != user
             case ClickKeep(u, _) => u != user
             case _ => true
    ensures OwnMarkers(owner, Next(owner, d, e).0) && Tracks(owner, Next(owner, d, e).0, user, p, e.now)
  {
  }

  function LastTime(moves: seq<Move>, start: Time): Time
  {
    if moves == [] then start else moves[|moves| - 1].now
  }

  lemma {:induction false} DeskTracks(owner: map<Id, Id>, moves: seq<Move>, user: Id, start: Time)
    requires ClockRises(moves) && (forall i :: 0 <= i < |moves| ==> start < moves[i].now)
    ensures OwnMarkers(owner, After(owner, moves))
    ensures Tracks(owner, After(owner, moves), user, Track(owner, moves, user), LastTime(moves, start))
  {
    if moves != [] {
      var before, e := moves[..|moves| - 1], moves[|moves| - 1];
      DeskTracks(owner, before, user, start);
      var d, p := After(owner, before), Track(owner, before, user);
      var own := match e.click
        case StageCancel(u, b, confirmed) => u == user && MayStage(owner, u, b, confirmed)
        case ClickConfirm(u, _) => u == user
        case ClickKeep(u, _) => u == user
        case _ => false;
      if own {
        OwnStep(owner, d, e, user, p, LastTime(before, start));
      } else {
        ForeignStep(owner, d, e, user, p, LastTime(before, start));
      }
    }
  }

  /** The pattern of the protocol: one confirming click since the latest, unexpired staging, and this is another. */
  predicate Completes(owner: map<Id, Id>, moves: seq<Move>, e: Move, b: Id)
  {
    e.click.ClickConfirm? &&
    var p := Track(owner, moves, e.click.user);
    p.Staged? && p.booking == b && p.confirms == 1 && e.now < p.at + HOLD_PERIOD
  }

  predicate CallsService(owner: map<Id, Id>, moves: seq<Move>, e: Move, b: Id)
  {
    var reply := Next(owner, After(owner, moves), e).1;
    reply.Some? && reply.value.ReachesService() && reply.value.booking == b
  }

  lemma ConfirmReaches(owner: map<Id, Id>, d: Desk, e: Move, p: Progress, since: Time, b: Id)
    requires e.click.ClickConfirm? && since < e.now
    requires OwnMarkers(owner, d) && Tracks(owner, d, e.click.user, p, since)
    ensures var reply := Next(owner, d, e).1;
            reply.Some? &&
            (reply.value.ReachesService() && reply.value.booking == b <==>
              p.Staged? && p.booking == b && p.confirms == 1 && e.now < p.at + HOLD_PERIOD)
  {
  }

  lemma KeepNeverReaches(owner: map<Id, Id>, d: Desk, e: Move, p: Progress, since: Time)
    requires e.click.ClickKeep? && Tracks(owner, d, e.click.user, p, since)
    ensures var reply := Next(owner, d, e).1; reply.Some? && !reply.value.ReachesService()
  {
  }

  /**
    Over every sequence of stagings, clicks, reads and clean-ups: an event calls the booking
    service to cancel `b` exactly when it is a confirming click by a user whose latest staging
    was of `b` and has not expired, after exactly one other confirming click since that
    staging and no keeping click.
   */
  lemma ServiceReachedIff(owner: map<Id, Id>, moves: seq<Move>, e: Move, b: Id)
    requires ClockRises(moves + [e])
    ensures CallsService(owner, moves, e, b) <==> Completes(owner, moves, e, b)
  {
    var start := if moves == [] then e.now - 1 else moves[0].now - 1;
    assert forall i :: 0 <= i < |moves| ==> moves[i] == (moves + [e])[i];
    assert (moves + [e])[|moves|] == e;
    var since := LastTime(moves, start);
    assert since < e.now;
    if e.click.ClickConfirm? {
      DeskTracks(owner, moves, e.click.user, start);
      ConfirmReaches(owner, After(owner, moves), e, Track(owner, moves, e.click.user), since, b);
    } else if e.click.ClickKeep? {
      DeskTracks(owner, moves, e.click.user, start);
      KeepNeverReaches(owner, After(owner, moves), e, Track(owner, moves, e.click.user), since);
    }
  }

  /** What a click is answered to a user who has come this far, by the time and by whether the booking is still confirmed. */
  predicate Answered(p: Progress, click: Click, now: Time, reply: Reply)
    requires click.ClickConfirm? || click.ClickKeep?
  {
    match p
    case Idle => reply == NothingPending
    case Staged(b, at, confirms) =>
      if now >= at + 900_000_000 then reply == NothingPending || reply == if click.ClickKeep? then Kept(b) else RequestExpired
      else if click.ClickKeep? then reply == Kept(b)
      else if confirms == 0 then reply == AskedAgain(b)
      else reply == if click.stillConfirmed then Reply.Cancelled(b) else Refused(b)
  }

  lemma ClickAnswered(owner: map<Id, Id>, d: Desk, e: Move, p: Progress, since: Time)
    requires e.click.ClickConfirm? || e.click.ClickKeep?
    requires OwnMarkers(owner, d) && Tracks(owner, d, e.click.user, p, since) && since < e.now
    ensures var reply := Next(owner, d, e).1; reply.Some? && Answered(p, e.click, e.now, reply.value)
  {
  }

  lemma ShownTracks(owner: map<Id, Id>, d: Desk, user: Id, p: Progress, since: Time, now: Time)
    requires Tracks(owner, d, user, p, since) && since < now
    ensures Actionable(d, user, now) <==> p.Staged? && now < p.at + 900_000_000
  {
  }

  lemma TracksBefore(owner: map<Id, Id>, moves: seq<Move>, e: Move, user: Id) returns (since: Time)
    requires ClockRises(moves + [e])
    ensures since < e.now && OwnMarkers(owner, After(owner, moves))
    ensures Tracks(owner, After(owner, moves), user, Track(owner, moves, user), since)
  {
    var start := if moves == [] then e.now - 1 else moves[0].now - 1;
    assert forall i :: 0 <= i < |moves| ==> moves[i] == (moves + [e])[i];
    assert (moves + [e])[|moves|] == e;
    since := LastTime(moves, start);
    DeskTracks(owner, moves, user, start);
  }

  /**
    Over every sequence of moves: the first confirming click within fifteen minutes of a
    staging asks again, the second cancels or, if the booking is no longer confirmed,
    reports that; a keeping click keeps; and the controls are shown exactly to a user with a
    staging less than fifteen minutes old that no click has ended.
   */
  lemma ClicksAnswered(owner: map<Id, Id>, moves: seq<Move>, e: Move, user: Id)
    requires ClockRises(moves + [e])
    ensures (e.click.ClickConfirm? || e.click.ClickKeep?) ==>
              var reply := Next(owner, After(owner, moves), e).1;
              reply.Some? && Answered(Track(owner, moves, e.click.user), e.click, e.now, reply.value)
    ensures var p := Track(owner, moves, user);
            Actionable(After(owner, moves), user, e.now) <==> p.Staged? && e.now < p.at + 900_000_000
  {
    var since := TracksBefore(owner, moves, e, user);
    ShownTracks(owner, After(owner, moves), user, Track(owner, moves, user), since, e.now);
    if e.click.ClickConfirm? || e.click.ClickKeep? {
      var own := TracksBefore(owner, moves, e, e.click.user);
      ClickAnswered(owner, After(owner, moves), e, Track(owner, moves, e.click.user), own);
    }
  }

  // ---------------------------------------------------------------- what the tracked progress says

  /** An event that starts, advances or ends this user's staging. */
  predicate Concerns(owner: map<Id, Id>, e: Move, user: Id)
  {
    match e.click
    case StageCancel(u, b, confirmed) => u == user && MayStage(owner, u, b, confirmed)
    case ClickConfirm(u, _) => u == user
    case ClickKeep(u, _) => u == user
    case _ => false
  }

  predicate QuietBetween(owner: map<Id, Id>, moves: seq<Move>, user: Id, lo: int, hi: int)
  {
    forall k :: lo < k < hi && 0 <= k < |moves| ==> !Concerns(owner, moves[k], user)
  }

  predicate StagedAt(owner: map<Id, Id>, moves: seq<Move>, user: Id, b: Id, i: int)
  {
    0 <= i < |moves| && moves[i].click.StageCancel? && Concerns(owner, moves[i], user) && moves[i].click.booking == b
  }

  predicate ConfirmedAt(moves: seq<Move>, user: Id, m: int)
  {
    0 <= m < |moves| && moves[m].click.ClickConfirm? && moves[m].click.user == user
  }

  lemma {:induction false} StagedUnconfirmed(owner: map<Id, Id>, moves: seq<Move>, user: Id) returns (i: int)
    requires var p := Track(owner, moves, user); p.Staged? && p.confirms == 0
    ensures var p := Track(owner, moves, user);
            StagedAt(owner, moves, user, p.booking, i) && moves[i].now == p.at && QuietBetween(owner, moves, user, i, |moves|)
  {
    var n := |moves| - 1;
    if Concerns(owner, moves[n], user) {
      i := n;
    } else {
      assert Track(owner, moves[..n], user) == Track(owner, moves, user);
      i := StagedUnconfirmed(owner, moves[..n], user);
      assert forall k :: 0 <= k < n ==> moves[..n][k] == moves[k];
    }
  }

  /**
    Track spelled out: a staging of `b`, later one confirming click, and nothing else by
    this user since the staging.
   */
  lemma {:induction false} StagedThenConfirmed(owner: map<Id, Id>, moves: seq<Move>, user: Id) returns (i: int, m: int)
    requires var p := Track(owner, moves, user); p.Staged? && p.confirms == 1
    ensures var p := Track(owner, moves, user);
            && StagedAt(owner, moves, user, p.booking, i) && moves[i].now == p.at && i < m && ConfirmedAt(moves, user, m)
            && QuietBetween(owner, moves, user, i, m) && QuietBetween(owner, moves, user, m, |moves|)
  {
    var n := |moves| - 1;
    if Concerns(owner, moves[n], user) {
      i := StagedUnconfirmed(owner, moves[..n], user);
      m := n;
    } else {
      assert Track(owner, moves[..n], user) == Track(owner, moves, user);
      i, m := StagedThenConfirmed(owner, moves[..n], user);
    }
    assert forall k :: 0 <= k < n ==> moves[..n][k] == moves[k];
  }

  // ---------------------------------------------------------------- the stored desk

  /** The marker table and the graph checkpoints, changed in place by the tool and the buttons. */
  class CancellationDesk {
    var markers: map<Id, Marker>
    var stages: map<Id, Stage>

    ghost function Rows(): Desk
      reads this
    {
      Desk(markers, stages)
    }

    constructor ()
      ensures Rows() == Desk(map[], map[])
    {
      markers, stages := map[], map[];
    }

    method DeleteMarker(user: Id)
      modifies this`markers
      ensures markers == old(markers) - {user}
    {
      markers := map u | u in markers && u != user :: markers[u];
    }

    /** Runs the graph to its next pause, its end or its error. */
    method ResumeGraph(b: Id, decision: Decision, stillConfirmed: bool) returns (outcome: Outcome)
      requires b in stages
      modifies this`stages
      ensures outcome == Resume(old(stages[b]), decision, stillConfirmed)
      ensures stages == match outcome
                        case Paused(stage) => old(stages)[b := stage]
                        case Raises => old(stages)[b := Cancelling]
                        case _ => old(stages) - {b}
    {
      if stages[b].Deciding? && decision.Confirm? {
        outcome := Paused(DoubleChecking);
        stages := stages[b := DoubleChecking];
      } else if decision.Keep? && !stages[b].Cancelling? {
        outcome := Ended;
        stages := stages - {b};
      } else if stillConfirmed {
        outcome := CancelledNow;
        stages := stages - {b};
      } else {
        outcome := Raises;
        stages := stages[b := Cancelling];
      }
    }

    method PrepareCancelBooking(user: Id, b: Id, found: bool, confirmed: bool, now: Time) returns (staged: bool)
      modifies this
      ensures staged == (found && confirmed)
      ensures Rows() == StageRequest(old(Rows()), user, b, staged, now)
    {
      if !found || !confirmed { return false; }
      stages := stages[b := Deciding];
      markers := markers[user := Marker(b, now + HOLD_PERIOD)];
      return true;
    }

    method ConfirmCancellation(user: Id, stillConfirmed: bool, now: Time) returns (reply: Reply)
      modifies this
      ensures (Rows(), reply) == ConfirmClick(old(Rows()), user, stillConfirmed, now)
    {
      if user !in markers { return NothingPending; }
      var pending := markers[user];
      if pending.Expired(now) {
        DeleteMarker(user);
        return RequestExpired;
      }
      if pending.booking !in stages {
        DeleteMarker(user);
        return NothingPending;
      }
      var outcome := ResumeGraph(pending.booking, Confirm, stillConfirmed);
      if outcome.Paused? { return AskedAgain(pending.booking); }
      DeleteMarker(user);
      reply :=
        if outcome.Raises? then Refused(pending.booking)
        else if outcome.CancelledNow? then Reply.Cancelled(pending.booking)
        else Kept(pending.booking);
    }

    method DismissCancellation(user: Id, stillConfirmed: bool) returns (reply: Reply)
      modifies this
      ensures (Rows(), reply) == KeepClick(old(Rows()), user, stillConfirmed)
    {
      if user !in markers { return NothingPending; }
      var pending := markers[user];
      reply := Kept(pending.booking);
      if pending.booking in stages {
        var outcome := ResumeGraph(pending.booking, Keep, stillConfirmed);
        if outcome.Raises? { return Refused(pending.booking); }
        if outcome.CancelledNow? { reply := Reply.Cancelled(pending.booking); }
      }
      DeleteMarker(user);
    }

    method PendingActions(user: Id, now: Time) returns (shown: bool)
      modifies this
      ensures Rows() == Look(old(Rows()), user, now)
      ensures shown == Actionable(old(Rows()), user, now)
    {
      if user !in markers { return false; }
      if markers[user].Expired(now) || markers[user].booking !in stages {
        DeleteMarker(user);
        return false;
      }
      return true;
    }

    method CleanUpExpired(now: Time) returns (deleted: nat)
      modifies this
      ensures Rows() == CleanUp(old(Rows()), now)
      ensures deleted == |old(markers)| - |markers|
    {
      var kept := map u | u in markers && !markers[u].Expired(now) :: markers[u];
      KeptFewer(markers.Keys, kept.Keys);
      deleted := |markers.Keys| - |kept.Keys|;
      markers := kept;
    }
  }

  lemma KeptFewer(all: set<Id>, kept: set<Id>)
    requires kept <= all
    ensures |kept| <= |all|
  {
    assert |all| == |kept| + |all - kept| by { assert all == kept + (all - kept); }
  }
}
