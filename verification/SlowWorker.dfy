/**
  A completed job undone: the stuck reset hits a job whose worker is merely slow, a second
  worker completes it, and the slow one's failure puts it back in the queue.
 */
module SlowWorker {
  import opened Wrappers
  import opened Rows
  import opened Engine
  import opened Jobs
  import opened JobRetries
  import opened LapsedHold

  const TIMER := Job(Expiry, 0, Queued, 0, None, false)
  const RESET: Time := LATER + STUCK_AFTER + 1
  const SLOW := Worker(0, false, Claimed, false)

  const W0 := System(S0, map[], 0, {}, map[], {})
  const W1 := W0.(db := S1)
  const W2 := W0.(db := S2)
  const W3 := System(S3, map[0 := TIMER], 1, {Message(0, LATER)}, map[], {})
  const W4 := W3.(db := S3.(clock := LATER), jobs := map[0 := TIMER.(status := InProgress, startedAt := Some(LATER))],
                  workers := map[0 := SLOW])
  const W5 := W4.(db := S3.(clock := RESET), jobs := map[0 := TIMER.(startedAt := Some(LATER))],
                  messages := {Message(0, LATER), Message(0, RESET)})
  const W6 := W5.(db := S3.(clock := RESET + 1), jobs := map[0 := TIMER.(status := InProgress, startedAt := Some(RESET + 1))],
                  workers := map[0 := SLOW, 1 := SLOW])
  const SWEPT_ROWS := S3.(bookings := map[0 := S3.bookings[0].(status := Expired)], claims := map[Claim(0, 0) := false])
  const W7 := W6.(db := SWEPT_ROWS.(clock := RESET + 2), workers := map[0 := SLOW, 1 := SLOW.(progress := Done(true))])
  const W8 := W7.(db := SWEPT_ROWS.(clock := RESET + 3), jobs := map[0 := W6.jobs[0].(status := Completed)],
                  workers := map[0 := SLOW])
  const W9 := W8.(db := SWEPT_ROWS.(clock := RESET + 4), workers := map[0 := SLOW.(progress := Done(false))])
  const W10 := W9.(db := SWEPT_ROWS.(clock := RESET + 5), jobs := map[0 := W6.jobs[0].(status := Queued, retryCount := 1)],
                   messages := {Message(0, LATER), Message(0, RESET), Message(0, RESET + 5 + 5 * Jobs.SECOND)}, workers := map[])

  ghost predicate SysLeads(w: System, a: SysAction, now: Time, w': System)
  {
    SysEnabled(w, a, now) && w' == SysApply(w, a, now)
  }

  lemma Grow(worlds: seq<System>, labels: seq<SysLabel>, a: SysAction, now: Time, w: System)
    returns (worlds': seq<System>, labels': seq<SysLabel>)
    requires IsSysRun(worlds, labels) && SysLeads(worlds[|labels|], a, now, w)
    ensures worlds' == worlds + [w] && labels' == labels + [SysLabel(a, now)] && IsSysRun(worlds', labels')
  {
    worlds', labels' := worlds + [w], labels + [SysLabel(a, now)];
    forall i: nat | i < |labels'| ensures SysStepAt(worlds', labels', i) {
      if i < |labels| {
        assert SysStepAt(worlds, labels, i);
        assert worlds'[i] == worlds[i] && worlds'[i + 1] == worlds[i + 1] && labels'[i] == labels[i];
      } else {
        assert worlds'[i] == worlds[|labels|] && worlds'[i + 1] == w;
      }
    }
  }

  lemma Booked()
    ensures SysLeads(W0, OnRows(L0.action), L0.now, W1)
    ensures SysLeads(W1, OnRows(L1.action), L1.now, W2)
  {
    EventOpens();
    FirstReads();
  }

  lemma Scheduled()
    ensures SysLeads(W2, OnRows(L2.action), L2.now, W3)
  {
    FirstBooks();
    assert FinishCreate(S2, 0, 3).1 == Created(0);
    assert W2.jobs[0 := TIMER] == W3.jobs;
  }

  lemma FirstClaims()
    ensures SysLeads(W3, Deliver(Message(0, LATER), 0), LATER, W4)
  {
    assert W3.jobs[0 := W4.jobs[0]] == W4.jobs && W3.workers[0 := SLOW] == W4.workers;
  }

  lemma ResetTooEarly()
    ensures SysLeads(W4, ResetStuck, RESET, W5)
    ensures !CarefulStep(W4, SysLabel(ResetStuck, RESET), 0)
  {
    assert W4.jobs[0].Stuck(RESET);
    var after := W4.(db := W5.db);
    assert (map j | j in after.jobs :: if after.jobs[j].Stuck(RESET) then after.jobs[j].(status := Queued) else after.jobs[j]) == W5.jobs;
    assert (set j | j in after.jobs && after.jobs[j].Stuck(RESET) :: Message(j, RESET)) == {Message(0, RESET)};
    assert after.messages + {Message(0, RESET)} == W5.messages;
    assert W4.workers[0].job == 0;
  }

  lemma ClaimedTwice()
    ensures SysLeads(W5, Deliver(Message(0, RESET), 1), RESET + 1, W6)
  {
    assert W5.jobs[0 := W6.jobs[0]] == W6.jobs && W5.workers[1 := SLOW] == W6.workers;
  }

  lemma SweepsRows()
    ensures Apply(W6.db, SweepBooking(0), RESET + 2) == W7.db
  {
    assert Released(S3.claims, 0) == SWEPT_ROWS.claims;
    assert S3.bookings[0 := SWEPT_ROWS.bookings[0]] == SWEPT_ROWS.bookings;
  }

  lemma SecondSweeps()
    ensures SysLeads(W6, HandleExpiry(1, false), RESET + 2, W7)
  {
    SweepsRows();
    assert W6.workers[1 := SLOW.(progress := Done(true))] == W7.workers;
  }

  lemma SecondCompletes()
    ensures SysLeads(W7, Finish(1, false), RESET + 3, W8)
  {
    assert W7.workers - {1} == W8.workers && W7.jobs[0 := W8.jobs[0]] == W8.jobs;
  }

  lemma SlowOneRaises()
    ensures SysLeads(W8, HandleExpiry(0, true), RESET + 4, W9)
  {
    assert W8.workers[0 := W9.workers[0]] == W9.workers;
  }

  lemma SlowOneFails()
    ensures SysLeads(W9, Finish(0, false), RESET + 5, W10)
  {
    assert W9.workers - {0} == W10.workers && W9.jobs[0 := W10.jobs[0]] == W10.jobs;
    assert W9.messages + {Message(0, RESET + 5 + Backoff(1))} == W10.messages;
  }

  lemma TimerSet() returns (worlds: seq<System>, labels: seq<SysLabel>)
    ensures IsSysRun(worlds, labels) && |labels| == 3 && worlds[3] == W3
  {
    Booked();
    worlds, labels := Grow([W0], [], OnRows(L0.action), L0.now, W1);
    worlds, labels := Grow(worlds, labels, OnRows(L1.action), L1.now, W2);
    Scheduled();
    worlds, labels := Grow(worlds, labels, OnRows(L2.action), L2.now, W3);
  }

  lemma TwoWorkers() returns (worlds: seq<System>, labels: seq<SysLabel>)
    ensures IsSysRun(worlds, labels) && |labels| == 6 && worlds[6] == W6
    ensures !CarefulStep(worlds[4], labels[4], 0)
  {
    worlds, labels := TimerSet();
    FirstClaims();
    worlds, labels := Grow(worlds, labels, Deliver(Message(0, LATER), 0), LATER, W4);
    ResetTooEarly();
    worlds, labels := Grow(worlds, labels, ResetStuck, RESET, W5);
    ClaimedTwice();
    worlds, labels := Grow(worlds, labels, Deliver(Message(0, RESET), 1), RESET + 1, W6);
  }

  /** A real run in which the job is completed after eight steps and queued again after ten. */
  lemma SlowWorkerUndoes() returns (worlds: seq<System>, labels: seq<SysLabel>)
    ensures IsSysRun(worlds, labels) && |labels| == 10
    ensures IsCompleted(worlds[8], 0) && 0 in worlds[10].jobs && worlds[10].jobs[0].status.Queued?
    ensures !CarefulRun(worlds, labels, 0)
  {
    worlds, labels := TwoWorkers();
    SecondSweeps();
    worlds, labels := Grow(worlds, labels, HandleExpiry(1, false), RESET + 2, W7);
    SecondCompletes();
    worlds, labels := Grow(worlds, labels, Finish(1, false), RESET + 3, W8);
    SlowOneRaises();
    worlds, labels := Grow(worlds, labels, HandleExpiry(0, true), RESET + 4, W9);
    SlowOneFails();
    worlds, labels := Grow(worlds, labels, Finish(0, false), RESET + 5, W10);
    assert !CarefulStep(worlds[4], labels[4], 0);
  }
}
