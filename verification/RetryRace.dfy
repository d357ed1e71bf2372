/** A manual retry that never happens: the worker it overtakes completes the job with what it did before. */
module RetryRace {
  import opened Rows
  import opened Engine
  import opened Jobs
  import opened JobRetries
  import opened ConfirmedLost
  import opened SlowWorker
  import opened TwoMails
  import opened JobOutcomes

  lemma FinishCompletes(w: System, k: Id, now: Time, w': System)
    requires SysEnabled(w, Finish(k, false), now) && w.workers[k].progress == Done(true) && w' == SysApply(w, Finish(k, false), now)
    ensures IsCompleted(w', w.workers[k].job) && w'.jobs[w.workers[k].job].kind == w.jobs[w.workers[k].job].kind
  {
  }

  /**
    Any run that ends with a manual retry while a worker of the job has a handler behind it
    that returned goes on, in one step, to a completed job no handler of which has run since.
   */
  lemma OvertakenRetryIsLost(worlds: seq<System>, labels: seq<SysLabel>, j: Id, r: nat) returns (worlds': seq<System>, labels': seq<SysLabel>)
    requires IsSysRun(worlds, labels) && |labels| == r + 1 && labels[r].action == RetryJob(j) && !NoneReturned(worlds[r], j)
    ensures IsSysRun(worlds', labels') && |labels'| == r + 2 && worlds'[..r + 2] == worlds && labels'[..r + 1] == labels
    ensures j in worlds[r + 1].jobs && IsCompleted(worlds'[r + 2], j)
    ensures worlds'[r + 2].jobs[j].kind == worlds[r + 1].jobs[j].kind
    ensures forall h, k :: r < h < r + 2 ==> !Handles(worlds'[h], labels'[h], k)
  {
    assert SysStepAt(worlds, labels, r);
    var w, l := worlds[r + 1], labels[r];
    var k :| k in worlds[r].workers && worlds[r].workers[k].job == j && worlds[r].workers[k].progress == Done(true);
    RetryOutcome(worlds, labels, r, j);
    var now := w.db.clock + 1;
    var w' := SysApply(w, Finish(k, false), now);
    FinishCompletes(w, k, now, w');
    worlds', labels' := Grow(worlds, labels, Finish(k, false), now, w');
  }

  const OVERDUE: Time := 5 + STUCK_AFTER + 1

  const R6 := T5.(db := C4.(clock := 6), workers := map[0 := MAILER.(progress := Done(true))])
  const R7 := R6.(db := C4.(clock := OVERDUE), retryReads := {1})
  const R8 := R7.(db := C4.(clock := OVERDUE + 1), jobs := map[0 := TIMER, 1 := MAIL], messages := FIRST_MESSAGES + {Message(1, OVERDUE + 1)})

  lemma NothingToSend()
    ensures SysLeads(T5, HandleConfirmation(0, NotConfigured), 6, R6)
  {
    assert T5.workers[0 := R6.workers[0]] == R6.workers;
  }

  lemma LooksStuck()
    ensures SysLeads(R6, ReadForRetry(1), OVERDUE, R7)
  {
    assert R6.jobs[1].Stuck(OVERDUE);
    assert R6.retryReads + {1} == R7.retryReads;
  }

  lemma RetryWrites()
    ensures SysLeads(R7, RetryJob(1), OVERDUE + 1, R8) && !NoneReturned(R7, 1)
  {
    assert R7.jobs[1 := MAIL] == R8.jobs;
    assert 0 in R7.workers && R7.workers[0].job == 1 && R7.workers[0].progress == Done(true);
  }

  lemma OvertakenByRetry() returns (worlds: seq<System>, labels: seq<SysLabel>)
    ensures IsSysRun(worlds, labels) && |labels| == 8 && labels[7].action == RetryJob(1) && worlds[8] == R8 && !NoneReturned(worlds[7], 1)
  {
    worlds, labels := TimerSet();
    PaidFor3();
    worlds, labels := Grow(worlds, labels, OnRows(PayBooking(0, true)), 4, T4);
    FirstClaim();
    worlds, labels := Grow(worlds, labels, Deliver(Message(1, 4), 0), 5, T5);
    NothingToSend();
    worlds, labels := Grow(worlds, labels, HandleConfirmation(0, NotConfigured), 6, R6);
    LooksStuck();
    worlds, labels := Grow(worlds, labels, ReadForRetry(1), OVERDUE, R7);
    RetryWrites();
    worlds, labels := Grow(worlds, labels, RetryJob(1), OVERDUE + 1, R8);
  }

  /** A real run in which a job is retried and completed, and none of its handlers has run since the retry. */
  lemma RetryIsLost() returns (worlds: seq<System>, labels: seq<SysLabel>)
    ensures IsSysRun(worlds, labels) && |labels| == 9 && labels[7].action == RetryJob(1)
    ensures IsCompleted(worlds[9], 1) && worlds[9].jobs[1].kind.Confirmation?
    ensures forall h, k :: 7 < h < 9 ==> !Handles(worlds[h], labels[h], k)
  {
    var w, l := OvertakenByRetry();
    worlds, labels := OvertakenRetryIsLost(w, l, 1, 7);
    assert labels[7] == l[7];
  }
}
