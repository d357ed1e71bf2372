/** Retrying a payment through the assistant: one marker a user, one pausing graph a booking. */
module RetryDesk {
  import opened Wrappers
  import opened Rows
  import opened Engine
  import opened Invariant
  import opened Safety
  import Graphs

  datatype Marker = Marker(booking: Id, expiresAt: Time)
  {
    predicate Expired(now: Time) { now >= expiresAt }
  }

  /** `paused`: the bookings whose retry graph waits for a decision. */
  datatype Desk = Desk(markers: map<Id, Marker>, paused: set<Id>)

  // ---------------------------------------------------------------- the actions

  /** Both ways to stage: the tool, and a booking that fails the moment it is made. */
  function StageRequest(d: Desk, user: Id, b: Id, allowed: bool, now: Time): Desk
  {
    if allowed then Desk(d.markers[user := Marker(b, now + HOLD_PERIOD)], d.paused + {b}) else d
  }

  /** The booking the retry controls act on; a marker that leads nowhere is dropped. */
  function Marked(d: Desk, user: Id, now: Time): (Desk, Option<Id>)
  {
    if user !in d.markers then (d, None)
    else if d.markers[user].Expired(now) || d.markers[user].booking !in d.paused then (d.(markers := d.markers - {user}), None)
    else (d, Some(d.markers[user].booking))
  }

  /** The graph pays and pauses again exactly while the booking reads as failed. */
  function RetryClick(d: Desk, user: Id, outcome: Status, now: Time): (Desk, Option<Id>)
  {
    var (d1, marked) := Marked(d, user, now);
    if marked.None? || Graphs.AfterPayment(outcome).Pauses() then (d1, marked)
    else (Desk(d1.markers - {user}, d1.paused - {marked.value}), marked)
  }

  function DismissClick(d: Desk, user: Id, now: Time): (Desk, Option<Id>)
  {
    var (d1, marked) := Marked(d, user, now);
    if marked.None? then (d1, None) else (Desk(d1.markers - {user}, d1.paused - {marked.value}), marked)
  }

  function CleanUp(d: Desk, now: Time): Desk
  {
    d.(markers := map u | u in d.markers && !d.markers[u].Expired(now) :: d.markers[u])
  }

  // ---------------------------------------------------------------- runs

  datatype Click =
    | StageRetry(user: Id, booking: Id, status: Status)
    | AutoStage(user: Id, booking: Id, status: Status, retryCount: nat)
    | ClickRetry(user: Id, outcome: Status)
    | ClickDismiss(user: Id)
    | LookAt(user: Id)
    | Sweep

  datatype Move = Move(click: Click, now: Time)

  /** Which booking of the user's a staging is accepted for. */
  predicate Stages(owner: map<Id, Id>, click: Click, user: Id, b: Id)
  {
    match click
    case StageRetry(u, p, status) => u == user && p == b && b in owner && owner[b] == user && status.Open()
    case AutoStage(u, p, status, retries) => u == user && p == b && b in owner && owner[b] == user && status.Failed? && retries < MAX_RETRIES
    case _ => false
  }

  /** The desk after a move, and the booking it paid for, if any. */
  function Next(owner: map<Id, Id>, d: Desk, m: Move): (Desk, Option<Id>)
  {
    match m.click
    case StageRetry(u, b, _) => (StageRequest(d, u, b, Stages(owner, m.click, u, b), m.now), None)
    case AutoStage(u, b, _, _) => (StageRequest(d, u, b, Stages(owner, m.click, u, b), m.now), None)
    case ClickRetry(u, outcome) => RetryClick(d, u, outcome, m.now)
    case ClickDismiss(u) => (DismissClick(d, u, m.now).0, None)
    case LookAt(u) => (Marked(d, u, m.now).0, None)
    case Sweep => (CleanUp(d, m.now), None)
  }

  function After(owner: map<Id, Id>, moves: seq<Move>): Desk
  {
    if moves == [] then Desk(map[], {})
    else Next(owner, After(owner, moves[..|moves| - 1]), moves[|moves| - 1]).0
  }

  predicate ClockRises(moves: seq<Move>)
  {
    forall i, j :: 0 <= i < j < |moves| ==> moves[i].now < moves[j].now
  }

  // ---------------------------------------------------------------- the latest staging

  datatype Latest = Nothing | Staged(booking: Id, at: Time)

  /**
    A user's latest staging, from their own moves alone: it lasts until it is dismissed or
    an attempt leaves the booking in any status but failed.
   */
  function LatestStaging(owner: map<Id, Id>, moves: seq<Move>, user: Id): Latest
  {
    if moves == [] then Nothing
    else
      var before, m := LatestStaging(owner, moves[..|moves| - 1], user), moves[|moves| - 1];
      match m.click
      case StageRetry(_, b, _) => if Stages(owner, m.click, user, b) then Staged(b, m.now) else before
      case AutoStage(_, b, _, _) => if Stages(owner, m.click, user, b) then Staged(b, m.now) else before
      case ClickRetry(u, outcome) => if u == user && !outcome.Failed? then Nothing else before
      case ClickDismiss(u) => if u == user then Nothing else before
      case _ => before
  }

  ghost predicate Tracks(owner: map<Id, Id>, d: Desk, user: Id, p: Latest, now: Time)
  {
    match p
    case Nothing => user !in d.markers
    case Staged(b, at) =>
      && b in owner && owner[b] == user
      && (user in d.markers ==> d.markers[user] == Marker(b, at + HOLD_PERIOD) && b in d.paused)
      && (user !in d.markers ==> now >= at + HOLD_PERIOD)
  }

  ghost predicate OwnMarkers(owner: map<Id, Id>, d: Desk)
  {
    forall u :: u in d.markers ==> d.markers[u].booking in owner && owner[d.markers[u].booking] == u
  }

  function LastTime(moves: seq<Move>, start: Time): Time
  {
    if moves == [] then start else moves[|moves| - 1].now
  }

  /** Another user can only end the graph of a booking of their own. */
  lemma ForeignMove(owner: map<Id, Id>, d: Desk, m: Move, user: Id, p: Latest, since: Time)
    requires OwnMarkers(owner, d) && Tracks(owner, d, user, p, since) && since <= m.now
    requires m.click.Sweep? || m.click.user != user
    ensures OwnMarkers(owner, Next(owner, d, m).0) && Tracks(owner, Next(owner, d, m).0, user, p, m.now)
  {
  }

  lemma {:induction false} DeskTracks(owner: map<Id, Id>, moves: seq<Move>, user: Id, start: Time)
    requires ClockRises(moves) && (forall i :: 0 <= i < |moves| ==> start < moves[i].now)
    ensures OwnMarkers(owner, After(owner, moves))
    ensures Tracks(owner, After(owner, moves), user, LatestStaging(owner, moves, user), LastTime(moves, start))
  {
    if moves != [] {
      var before, m := moves[..|moves| - 1], moves[|moves| - 1];
      DeskTracks(owner, before, user, start);
      if m.click.Sweep? || m.click.user != user {
        ForeignMove(owner, After(owner, before), m, user, LatestStaging(owner, before, user), LastTime(before, start));
      }
    }
  }

  /**
    However many failed bookings a user has: a retry click pays for `b` exactly when `b` is
    the booking most recently staged for that user, by the tool or automatically, and the
    staging has neither expired nor been dismissed or resolved since.
   */
  lemma RetryPaysLatest(owner: map<Id, Id>, moves: seq<Move>, m: Move, b: Id)
    requires ClockRises(moves + [m])
    ensures Next(owner, After(owner, moves), m).1 == Some(b) <==>
              && m.click.ClickRetry?
              && var p := LatestStaging(owner, moves, m.click.user);
              && p.Staged? && p.booking == b && m.now < p.at + HOLD_PERIOD
  {
    var start := if moves == [] then m.now - 1 else moves[0].now - 1;
    assert forall i :: 0 <= i < |moves| ==> moves[i] == (moves + [m])[i];
    assert (moves + [m])[|moves|] == m;
    assert LastTime(moves, start) < m.now;
    if m.click.ClickRetry? {
      DeskTracks(owner, moves, m.click.user, start);
    }
  }

  /** The controls are shown for `b`, and a dismissing click ends its graph, exactly while `b` is the user's latest staging and that is less than fifteen minutes old. */
  lemma ShownIsLatest(owner: map<Id, Id>, moves: seq<Move>, user: Id, now: Time, b: Id)
    requires ClockRises(moves) && (forall i :: 0 <= i < |moves| ==> moves[i].now < now)
    ensures var d, p := After(owner, moves), LatestStaging(owner, moves, user);
            && (Marked(d, user, now).1 == Some(b) <==> p.Staged? && p.booking == b && now < p.at + 900_000_000)
            && (DismissClick(d, user, now).1 == Some(b) <==> p.Staged? && p.booking == b && now < p.at + 900_000_000)
            && (DismissClick(d, user, now).1 == Some(b) ==>
                  DismissClick(d, user, now).0 == Desk(d.markers - {user}, d.paused - {b}))
  {
    var start := if moves == [] then now - 1 else moves[0].now - 1;
    DeskTracks(owner, moves, user, start);
  }

  /** The latest staging really is one of the user's, and no later one overrode it. */
  lemma {:induction false} LatestIsLast(owner: map<Id, Id>, moves: seq<Move>, user: Id) returns (i: int)
    requires LatestStaging(owner, moves, user).Staged?
    ensures var p := LatestStaging(owner, moves, user);
            && 0 <= i < |moves| && Stages(owner, moves[i].click, user, p.booking) && moves[i].now == p.at
            && (forall k, c :: i < k < |moves| ==> !Stages(owner, moves[k].click, user, c))
            && (forall k :: i < k < |moves| ==> moves[k].click != ClickDismiss(user))
  {
    var n := |moves| - 1;
    var p := LatestStaging(owner, moves, user);
    if Stages(owner, moves[n].click, user, p.booking) {
      i := n;
    } else {
      i := LatestIsLast(owner, moves[..n], user);
      assert forall k :: 0 <= k < n ==> moves[..n][k] == moves[k];
    }
  }

  // ---------------------------------------------------------------- the loop ends

  ghost predicate FailsAgain(states: seq<State>, labels: seq<Label>, b: Id, k: nat)
    requires k < |labels| && |states| == |labels| + 1
  {
    labels[k].action.PayBooking? && labels[k].action.booking == b && b in states[k + 1].bookings && states[k + 1].bookings[b].status.Failed?
  }

  /** How often, between two moments of a run, an attempt on `b` sent the graph back to its pause. */
  ghost function PausedAgain(states: seq<State>, labels: seq<Label>, b: Id, i: nat, j: nat): nat
    requires i <= j <= |labels| && |states| == |labels| + 1
    decreases j - i
  {
    if i == j then 0 else PausedAgain(states, labels, b, i, j - 1) + if FailsAgain(states, labels, b, j - 1) then 1 else 0
  }

  lemma FailureCosts(bk: Booking, pay: Option<Payment>, success: bool, clock: Time, now: Time)
    requires BookingOk(bk, pay, clock) && PayRows(bk, pay, success, now).0.status.Failed?
    ensures PayRows(bk, pay, success, now).0.retryCount == bk.retryCount + 1 < MAX_RETRIES
  {
  }

  lemma FailingStep(states: seq<State>, labels: seq<Label>, b: Id, k: nat)
    requires IsRun(states, labels) && k < |labels| && b in states[k].bookings && FailsAgain(states, labels, b, k)
    ensures b in states[k + 1].bookings && states[k + 1].bookings[b].retryCount == states[k].bookings[b].retryCount + 1 < MAX_RETRIES
  {
    assert StepAt(states, labels, k);
    RunBookingOk(states, labels, k, b);
    FailureCosts(states[k].bookings[b], PaymentOf(states[k], b), labels[k].action.success, states[k].clock, labels[k].now);
  }

  /**
    For every sequence of outcomes, and whatever else interleaves: from any moment on, at
    most 2 - retry_count attempts send the graph back to its pause, so at the latest the
    attempt numbered 3 - retry_count leaves the loop.
   */
  lemma {:induction false} RetryLoopEnds(states: seq<State>, labels: seq<Label>, b: Id, i: nat, j: nat)
    requires IsRun(states, labels) && i <= j <= |labels| && b in states[i].bookings
    ensures b in states[j].bookings
    ensures PausedAgain(states, labels, b, i, j) <= states[j].bookings[b].retryCount - states[i].bookings[b].retryCount
    ensures PausedAgain(states, labels, b, i, j) > 0 ==>
              PausedAgain(states, labels, b, i, j) <= MAX_RETRIES - 1 - states[i].bookings[b].retryCount
    decreases j - i
  {
    if i < j {
      RetryLoopEnds(states, labels, b, i, j - 1);
      RunBookingEvolves(states, labels, j - 1, j, b);
      if FailsAgain(states, labels, b, j - 1) { FailingStep(states, labels, b, j - 1); }
    }
  }

  // ---------------------------------------------------------------- the stored desk

  class PaymentRetryDesk {
    var markers: map<Id, Marker>
    var paused: set<Id>

    ghost function Rows(): Desk
      reads this
    {
      Desk(markers, paused)
    }

    constructor ()
      ensures Rows() == Desk(map[], {})
    {
      markers, paused := map[], {};
    }

    method PrepareRetry(user: Id, b: Id, found: bool, status: Status, now: Time) returns (staged: bool)
      modifies this
      ensures staged == (found && status.Open())
      ensures Rows() == StageRequest(old(Rows()), user, b, staged, now)
    {
      if !found || !status.Open() { return false; }
      paused := paused + {b};
      markers := markers[user := Marker(b, now + HOLD_PERIOD)];
      return true;
    }

    method StageAfterFailure(user: Id, b: Id, status: Status, retryCount: nat, now: Time)
      modifies this
      ensures Rows() == StageRequest(old(Rows()), user, b, status.Failed? && retryCount < MAX_RETRIES, now)
    {
      if status.Failed? && retryCount < MAX_RETRIES {
        paused := paused + {b};
        markers := markers[user := Marker(b, now + HOLD_PERIOD)];
      }
    }

    method MarkedBooking(user: Id, now: Time) returns (marked: Option<Id>)
      modifies this`markers
      ensures (Rows(), marked) == Marked(old(Rows()), user, now)
    {
      if user !in markers { return None; }
      if markers[user].Expired(now) || markers[user].booking !in paused {
        markers := markers - {user};
        return None;
      }
      return Some(markers[user].booking);
    }

    /** `outcome` is the booking's status as read after the graph's payment attempt. */
    method ConfirmRetry(user: Id, outcome: Status, now: Time) returns (paid: Option<Id>)
      modifies this
      ensures (Rows(), paid) == RetryClick(old(Rows()), user, outcome, now)
    {
      paid := MarkedBooking(user, now);
      if paid.Some? && !outcome.Failed? {
        paused := paused - {paid.value};
        markers := markers - {user};
      }
    }

    method DismissRetry(user: Id, now: Time) returns (dismissed: Option<Id>)
      modifies this
      ensures (Rows(), dismissed) == DismissClick(old(Rows()), user, now)
    {
      dismissed := MarkedBooking(user, now);
      if dismissed.Some? {
        paused := paused - {dismissed.value};
        markers := markers - {user};
      }
    }
  }
}
