/**
  Runs of the assistant that do end in a booking: a tool call, its pause and a confirming
  click; and the same with an interrupted confirming node, which a click on "Cancel Draft"
  runs again.
 */
module ClickBooks {
  import opened Wrappers
  import opened Rows
  import opened Engine
  import opened Graphs
  import opened Assistant
  import opened DraftDesk
  import opened LapsedHold

  const DRAFT := Draft(0, 0, 0, [1])
  const REQUEST := DraftRequest(DRAFT, 100, [0])
  const INPUT := Input(0, 100, [0], true)
  const THREAD := BookingThread(0)
  const MARKERS := map[0 := Assistant.Marker(0, 2 + HOLD_PERIOD)]

  ghost predicate Follows(w: World, a: Act, now: Time, w': World)
  {
    CanAct(w, a, now) && w' == After(w, a, now)
  }

  lemma GrowRun(worlds: seq<World>, moments: seq<Moment>, a: Act, now: Time, w: World)
    returns (worlds': seq<World>, moments': seq<Moment>)
    requires IsAssistantRun(worlds, moments) && Follows(worlds[|moments|], a, now, w)
    ensures worlds' == worlds + [w] && moments' == moments + [Moment(a, now)] && IsAssistantRun(worlds', moments')
  {
    worlds', moments' := worlds + [w], moments + [Moment(a, now)];
    forall i: nat | i < |moments'| ensures ActsAt(worlds', moments', i) {
      if i < |moments| {
        assert ActsAt(worlds, moments, i);
        assert worlds'[i] == worlds[i] && worlds'[i + 1] == worlds[i + 1] && moments'[i] == moments[i];
      } else {
        assert worlds'[i] == worlds[|moments|] && worlds'[i + 1] == w;
      }
    }
  }

  // ---------------------------------------------------------------- up to the confirming node

  const V0 := World(S0, NO_GRAPHS, map[], map[], 0, {})
  const V1 := V0.(db := S1)

  function Staged(c: Time, next: Node, execs: map<Id, Exec>, confirmed: set<nat>): World
  {
    World(S1.(clock := c), Store(map[THREAD := Checkpoint(next, ForDraft(DRAFT))], execs), MARKERS, map[0 := DRAFT], 1, confirmed)
  }

  const V2 := Staged(2, PrepareBooking, map[0 := Exec(THREAD, ForDraft(DRAFT), PrepareBooking, None, Start)], {})
  const V3 := Staged(3, PrepareBooking, map[], {})
  const V4 := Staged(4, PrepareBooking, map[1 := Exec(THREAD, ForDraft(DRAFT), PrepareBooking, Some(SayConfirm), Start)], {0})
  const V5 := Staged(5, Node.Confirm, map[1 := Exec(THREAD, ForDraft(DRAFT), Node.Confirm, None, Start)], {0})
  const V6 := Staged(6, Node.Confirm, map[], {0})
  const V7 := Staged(7, Node.Confirm, map[2 := Exec(THREAD, ForDraft(DRAFT), Node.Confirm, Some(SayNo), Start)], {0})

  lemma EventReady()
    ensures Follows(V0, OnRows(L0.action), 1, V1)
  {
    EventOpens();
  }

  lemma DraftStaged()
    ensures Follows(V1, PrepareDraft(0, 0, 0, [1], 0), 2, V2)
  {
    assert V2 == Stage(V1, 0, 0, 0, [1], 0, 2).(db := S1.(clock := 2));
  }

  lemma DraftPauses()
    ensures Follows(V2, Advance(0, INPUT), 3, V3)
  {
    assert V2.graphs.execs - {0} == map[];
    assert V2.graphs.checkpoints[THREAD := Checkpoint(PrepareBooking, ForDraft(DRAFT))] == V3.graphs.checkpoints;
  }

  lemma Clicked()
    ensures Follows(V3, ClickConfirm(0, 1), 4, V4)
  {
    assert {} + DraftIds(ForDraft(DRAFT)) == {0};
    assert V3.graphs.execs[1 := V4.graphs.execs[1]] == V4.graphs.execs;
  }

  lemma Routed()
    ensures Follows(V4, Advance(1, INPUT), 5, V5)
  {
    assert V4.graphs.checkpoints[THREAD := Checkpoint(Node.Confirm, ForDraft(DRAFT))] == V5.graphs.checkpoints;
    assert V4.graphs.execs[1 := V5.graphs.execs[1]] == V5.graphs.execs;
  }

  lemma Dies()
    ensures Follows(V5, Abort(1), 6, V6)
  {
    assert V5.graphs.execs - {1} == map[];
  }

  lemma Discarded()
    ensures Follows(V6, ClickDiscard(0, 2), 7, V7)
  {
    assert V6.graphs.execs[2 := V7.graphs.execs[2]] == V7.graphs.execs;
  }

  lemma UpToConfirm() returns (worlds: seq<World>, moments: seq<Moment>)
    ensures IsAssistantRun(worlds, moments) && |moments| == 5 && worlds[3] == V3 && worlds[5] == V5
    ensures moments[3].act == ClickConfirm(0, 1) && moments[4].act == Advance(1, INPUT)
  {
    EventReady();
    worlds, moments := GrowRun([V0], [], OnRows(L0.action), 1, V1);
    DraftStaged();
    worlds, moments := GrowRun(worlds, moments, PrepareDraft(0, 0, 0, [1], 0), 2, V2);
    DraftPauses();
    worlds, moments := GrowRun(worlds, moments, Advance(0, INPUT), 3, V3);
    Clicked();
    worlds, moments := GrowRun(worlds, moments, ClickConfirm(0, 1), 4, V4);
    Routed();
    worlds, moments := GrowRun(worlds, moments, Advance(1, INPUT), 5, V5);
  }

  // ---------------------------------------------------------------- the confirming node

  /** An invocation stands before its confirming node, and nothing has been booked. */
  ghost predicate AtConfirm(w: World, k: Id, pc: Pc)
  {
    && k in w.graphs.execs && w.graphs.execs[k] == Exec(THREAD, ForDraft(DRAFT), Node.Confirm, w.graphs.execs[k].answer, pc)
  }

  lemma ChecksKey(w: World, k: Id) returns (w': World)
    requires AtConfirm(w, k, Start) && w.db == S1.(clock := w.db.clock)
    ensures Follows(w, Advance(k, INPUT), w.db.clock + 1, w')
    ensures AtConfirm(w', k, Creating) && w'.db == S1.(clock := w.db.clock + 1)
  {
    assert ExistingBooking(w.db.bookings, 0, DraftKey(0)).None?;
    w' := After(w, Advance(k, INPUT), w.db.clock + 1);
  }

  lemma ReadsDraftSeats(s: State, now: Time)
    requires s == S1.(clock := s.clock)
    ensures BeginCreate(s, 0, REQUEST, now) == (s.(creates := map[0 := CreateTxn(REQUEST, {0}, Holding(now))]), Reading)
    ensures Translates(s.seats, DRAFT, [0])
  {
    assert LockedRows(s, REQUEST) == {0} && Distinct(REQUEST.seatIds) == {0};
    assert UnavailableSeats(s.bookings, s.claims, {0}, now) == {};
    assert ExistingBooking(s.bookings, 0, DraftKey(0)).None?;
    assert s.creates[0 := CreateTxn(REQUEST, {0}, Holding(now))] == map[0 := CreateTxn(REQUEST, {0}, Holding(now))];
    assert NumberSet(DRAFT.numbers) == {1};
  }

  lemma LocksSeats(w: World, k: Id) returns (w': World)
    requires AtConfirm(w, k, Creating) && w.db == S1.(clock := w.db.clock)
    ensures Follows(w, Advance(k, INPUT), w.db.clock + 1, w')
    ensures AtConfirm(w', k, Committing(0))
    ensures w'.db == S1.(clock := w.db.clock + 1, creates := map[0 := CreateTxn(REQUEST, {0}, Holding(w.db.clock + 1))])
  {
    ReadsDraftSeats(w.db, w.db.clock + 1);
    w' := After(w, Advance(k, INPUT), w.db.clock + 1);
  }

  lemma Commits(w: World, k: Id) returns (w': World)
    requires AtConfirm(w, k, Committing(0))
    requires w.db == S1.(clock := w.db.clock, creates := map[0 := CreateTxn(REQUEST, {0}, Holding(w.db.clock))])
    ensures Follows(w, Advance(k, INPUT), w.db.clock + 1, w')
    ensures BookedBy(w', 0, 0)
  {
    assert InsertAllowed(w.db, w.db.creates[0]);
    w' := After(w, Advance(k, INPUT), w.db.clock + 1);
  }

  lemma ConfirmingNode(w: World, k: Id) returns (w1: World, w2: World, w3: World, t: Time)
    requires AtConfirm(w, k, Start) && w.db == S1.(clock := w.db.clock)
    ensures Follows(w, Advance(k, INPUT), t + 1, w1) && Follows(w1, Advance(k, INPUT), t + 2, w2)
    ensures Follows(w2, Advance(k, INPUT), t + 3, w3) && BookedBy(w3, 0, 0)
  {
    t := w.db.clock;
    w1 := ChecksKey(w, k);
    w2 := LocksSeats(w1, k);
    w3 := Commits(w2, k);
  }

  lemma GrowThrice(worlds: seq<World>, moments: seq<Moment>, a: Act, t: Time, w1: World, w2: World, w3: World)
    returns (worlds': seq<World>, moments': seq<Moment>)
    requires IsAssistantRun(worlds, moments)
    requires Follows(worlds[|moments|], a, t + 1, w1) && Follows(w1, a, t + 2, w2) && Follows(w2, a, t + 3, w3)
    ensures IsAssistantRun(worlds', moments')
    ensures worlds' == worlds + [w1, w2, w3] && moments' == moments + [Moment(a, t + 1), Moment(a, t + 2), Moment(a, t + 3)]
  {
    worlds', moments' := GrowRun(worlds, moments, a, t + 1, w1);
    worlds', moments' := GrowRun(worlds', moments', a, t + 2, w2);
    worlds', moments' := GrowRun(worlds', moments', a, t + 3, w3);
  }

  lemma BooksFrom(worlds: seq<World>, moments: seq<Moment>, k: Id) returns (worlds': seq<World>, moments': seq<Moment>)
    requires IsAssistantRun(worlds, moments)
    requires var w := worlds[|moments|]; AtConfirm(w, k, Start) && w.db == S1.(clock := w.db.clock)
    ensures IsAssistantRun(worlds', moments') && |moments'| == |moments| + 3
    ensures worlds <= worlds' && moments <= moments'
    ensures forall n :: |moments| <= n < |moments'| ==> moments'[n].act == Advance(k, INPUT)
    ensures BookedBy(worlds'[|moments'|], 0, 0)
  {
    var w1, w2, w3, t := ConfirmingNode(worlds[|moments|], k);
    worlds', moments' := GrowThrice(worlds, moments, Advance(k, INPUT), t, w1, w2, w3);
    assert worlds'[|moments'|] == w3;
  }

  /** Proposing booked nothing; one confirming click on the paused thread, and its invocation books the draft. */
  lemma ResumingBooks() returns (worlds: seq<World>, moments: seq<Moment>)
    ensures IsAssistantRun(worlds, moments) && |moments| == 8
    ensures worlds[3].db.bookings == map[] && moments[3].act == ClickConfirm(0, 1)
    ensures forall n :: 4 <= n < 8 ==> moments[n].act == Advance(1, INPUT)
    ensures BookedBy(worlds[8], 0, 0)
  {
    var head, steps := UpToConfirm();
    worlds, moments := BooksFrom(head, steps, 1);
    UpToConfirmMoves(head, steps, worlds, moments);
  }

  lemma UpToConfirmMoves(head: seq<World>, steps: seq<Moment>, worlds: seq<World>, moments: seq<Moment>)
    requires |steps| == 5 && |head| == 6 && head <= worlds && steps <= moments
    ensures |worlds| >= 6 && |moments| >= 5 && worlds[3] == head[3] && worlds[5] == head[5]
    ensures moments[3] == steps[3] && moments[4] == steps[4]
  {
  }

  /** The draft's only booking follows a click on "Cancel Draft": it resumed a thread stopped inside its confirming node. */
  lemma DiscardingBooks() returns (worlds: seq<World>, moments: seq<Moment>)
    ensures IsAssistantRun(worlds, moments) && |moments| == 10
    ensures worlds[6].db.bookings == map[] && worlds[6].graphs.execs == map[] && moments[6].act == ClickDiscard(0, 2)
    ensures forall n :: 7 <= n < 10 ==> moments[n].act == Advance(2, INPUT)
    ensures BookedBy(worlds[10], 0, 0)
  {
    var head, steps := UpToConfirm();
    Dies();
    head, steps := GrowRun(head, steps, Abort(1), 6, V6);
    Discarded();
    head, steps := GrowRun(head, steps, ClickDiscard(0, 2), 7, V7);
    worlds, moments := BooksFrom(head, steps, 2);
    assert worlds[6] == head[6] && moments[6] == steps[6];
  }
}
