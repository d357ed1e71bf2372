/** Who works on a job, how often it has failed, and what may undo a completed one. */
module JobRetries {
  import opened Rows
  import opened Engine
  import opened Jobs
  import opened ExpiryJobs

  lemma RunJobsOk(worlds: seq<System>, labels: seq<SysLabel>, n: nat)
    requires IsSysRun(worlds, labels) && n < |worlds|
    ensures JobsOk(worlds[n])
  {
    SysRunKeepsInv(worlds, labels, n);
  }

  // ---------------------------------------------------------------- failures are counted

  ghost predicate FailsAt(w: System, l: SysLabel, j: Id)
  {
    l.action.Finish? && l.action.worker in w.workers && w.workers[l.action.worker].job == j &&
    !Succeeds(w, l.action.worker, l.action.writeFails)
  }

  /** Failed runs of `j` among the first `n` steps, counted afresh from each manual retry. */
  ghost function Failures(worlds: seq<System>, labels: seq<SysLabel>, j: Id, n: nat): nat
    requires n <= |labels| < |worlds|
  {
    if n == 0 || labels[n - 1].action == RetryJob(j) then 0
    else Failures(worlds, labels, j, n - 1) + if FailsAt(worlds[n - 1], labels[n - 1], j) then 1 else 0
  }

  function RetryCount(jobs: map<Id, Job>, j: Id): nat
  {
    if j in jobs then jobs[j].retryCount else 0
  }

  lemma ScheduledRetryCount(w: System, a: Action, now: Time, after: System, j: Id)
    requires Enabled(w.db, a, now) && after == w.(db := after.db)
    requires forall i :: i in w.jobs ==> i < w.nextJob
    ensures RetryCount(Schedule(w, a, now, after).jobs, j) == RetryCount(w.jobs, j)
    ensures j in w.jobs ==> j in Schedule(w, a, now, after).jobs && Schedule(w, a, now, after).jobs[j] == w.jobs[j]
  {
  }

  lemma StepCountsFailures(w: System, l: SysLabel, w': System, j: Id)
    requires JobsOk(w) && SysEnabled(w, l.action, l.now) && w' == SysApply(w, l.action, l.now)
    ensures RetryCount(w'.jobs, j) ==
              if l.action == RetryJob(j) then 0
              else RetryCount(w.jobs, j) + if FailsAt(w, l, j) then 1 else 0
  {
    if l.action.OnRows? {
      var after := w.(db := RowsAfter(w, l.action, l.now));
      ScheduledRetryCount(w, l.action.action, l.now, after, j);
    }
  }

  /** In every run a job's stored retry count is the number of its failed runs since its last manual retry. */
  lemma {:induction false} FailuresAreCounted(worlds: seq<System>, labels: seq<SysLabel>, j: Id, n: nat)
    requires IsSysRun(worlds, labels) && n <= |labels|
    ensures RetryCount(worlds[n].jobs, j) == Failures(worlds, labels, j, n)
  {
    if n > 0 {
      FailuresAreCounted(worlds, labels, j, n - 1);
      RunJobsOk(worlds, labels, n - 1);
      assert SysStepAt(worlds, labels, n - 1);
      StepCountsFailures(worlds[n - 1], labels[n - 1], worlds[n], j);
    }
  }

  // ---------------------------------------------------------------- careful runs

  /** No live worker holds the job. */
  ghost predicate Unclaimed(w: System, j: Id)
  {
    forall k :: k in w.workers ==> w.workers[k].job != j
  }

  /** The automatic and the manual recovery of `j` hit it only when nobody works on it any more. */
  ghost predicate CarefulStep(w: System, l: SysLabel, j: Id)
  {
    && (l.action.ResetStuck? && j in w.jobs && w.jobs[j].Stuck(l.now) ==> Unclaimed(w, j))
    && (l.action == RetryJob(j) ==> Retryable(w, j, l.now) && Unclaimed(w, j))
  }

  ghost predicate CarefulRun(worlds: seq<System>, labels: seq<SysLabel>, j: Id)
    requires |labels| < |worlds|
  {
    forall i: nat :: i < |labels| ==> CarefulStep(worlds[i], labels[i], j)
  }

  /** Given up exactly at three failures. */
  predicate RetriesOk(job: Job)
  {
    job.retryCount <= MAX_JOB_RETRIES && (job.status.GivenUp? <==> job.retryCount == MAX_JOB_RETRIES)
  }

  /** At most one live worker, which has the job in progress. */
  ghost predicate ClaimedOnce(w: System, j: Id)
  {
    && (forall k, m :: k in w.workers && m in w.workers && w.workers[k].job == j && w.workers[m].job == j ==> k == m)
    && (j in w.jobs && !Unclaimed(w, j) ==> w.jobs[j].status.InProgress?)
    && (j in w.jobs ==> RetriesOk(w.jobs[j]))
  }

  /** Rewriting the job without touching its workers. */
  lemma SameWorkers(w: System, w': System, j: Id)
    requires ClaimedOnce(w, j) && w'.workers == w.workers
    requires j in w'.jobs ==> RetriesOk(w'.jobs[j])
    requires j in w'.jobs && !Unclaimed(w, j) ==> w'.jobs[j].status.InProgress?
    ensures ClaimedOnce(w', j)
  {
    assert Unclaimed(w', j) == Unclaimed(w, j);
  }

  /** A worker moves on; it stays on its job. */
  lemma SameClaims(w: System, w': System, k: Id, j: Id)
    requires ClaimedOnce(w, j) && k in w.workers && k in w'.workers
    requires w'.workers == w.workers[k := w'.workers[k]] && w'.workers[k].job == w.workers[k].job
    requires j in w'.jobs ==> j in w.jobs && w'.jobs[j] == w.jobs[j].(emailSent := w'.jobs[j].emailSent)
    ensures ClaimedOnce(w', j)
  {
    assert Unclaimed(w, j) ==> Unclaimed(w', j);
  }

  lemma ScheduleKeepsClaims(w: System, a: Action, now: Time, after: System, j: Id)
    requires JobsOk(w) && ClaimedOnce(w, j) && Enabled(w.db, a, now) && after == w.(db := after.db)
    ensures ClaimedOnce(Schedule(w, a, now, after), j)
  {
    ScheduledRetryCount(w, a, now, after, j);
    assert j !in w.jobs ==> Unclaimed(w, j) by {
      forall k | k in w.workers ensures w.workers[k].job in w.jobs { assert WorkerOk(w.db, w.jobs, w.workers[k]); }
    }
    SameWorkers(w, Schedule(w, a, now, after), j);
  }

  lemma TakeKeepsClaims(w: System, m: Message, k: Id, now: Time, j: Id)
    requires ClaimedOnce(w, j) && k !in w.workers
    ensures ClaimedOnce(TakeJob(w, m, k, now), j)
  {
    var w' := TakeJob(w, m, k, now);
    if m.job in w.jobs && w.jobs[m.job].status.Queued? {
      if m.job == j {
        assert Unclaimed(w, j);
      } else {
        assert Unclaimed(w, j) ==> Unclaimed(w', j);
      }
    }
  }

  lemma FinishKeepsClaims(w: System, k: Id, writeFails: bool, now: Time, j: Id)
    requires ClaimedOnce(w, j) && k in w.workers && w.workers[k].job in w.jobs
    ensures ClaimedOnce(FinishRun(w, k, writeFails, now), j)
  {
    var w' := FinishRun(w, k, writeFails, now);
    assert w'.workers == w.workers - {k};
    if w.workers[k].job == j {
      assert !Unclaimed(w, j);
      assert Unclaimed(w', j);
    } else {
      assert !Unclaimed(w', j) ==> !Unclaimed(w, j);
    }
  }

  lemma CrashKeepsClaims(w: System, k: Id, j: Id)
    requires ClaimedOnce(w, j)
    ensures ClaimedOnce(w.(workers := w.workers - {k}), j)
  {
    var w' := w.(workers := w.workers - {k});
    assert !Unclaimed(w', j) ==> !Unclaimed(w, j);
  }

  lemma RecoveryKeepsClaims(w: System, l: SysLabel, j: Id, after: System)
    requires SysEnabled(w, l.action, l.now) && ClaimedOnce(w, j) && CarefulStep(w, l, j) && after == w.(db := after.db)
    requires l.action.Requeue? || l.action.ResetStuck? || l.action.RetryJob? || l.action.ReadForRetry?
    ensures ClaimedOnce(JobStep(w, l.action, l.now, after), j)
  {
    SameWorkers(w, JobStep(w, l.action, l.now, after), j);
  }

  lemma HandlerKeepsClaims(w: System, l: SysLabel, j: Id, after: System)
    requires SysEnabled(w, l.action, l.now) && ClaimedOnce(w, j) && after == w.(db := after.db)
    requires l.action.HandleExpiry? || l.action.HandleConfirmation?
    ensures ClaimedOnce(JobStep(w, l.action, l.now, after), j)
  {
    SameClaims(w, JobStep(w, l.action, l.now, after), l.action.worker, j);
  }

  lemma WorkerKeepsClaims(w: System, l: SysLabel, j: Id, after: System)
    requires SysEnabled(w, l.action, l.now) && ClaimedOnce(after, j) && after == w.(db := after.db)
    requires l.action.Deliver? || l.action.Finish? || l.action.Crash?
    ensures ClaimedOnce(JobStep(w, l.action, l.now, after), j)
  {
    match l.action {
      case Deliver(m, k) => TakeKeepsClaims(after, m, k, l.now, j);
      case Finish(k, writeFails) => FinishKeepsClaims(after, k, writeFails, l.now, j);
      case Crash(k) => CrashKeepsClaims(after, k, j);
    }
  }

  lemma StepKeepsClaims(w: System, l: SysLabel, w': System, j: Id)
    requires JobsOk(w) && ClaimedOnce(w, j) && CarefulStep(w, l, j)
    requires SysEnabled(w, l.action, l.now) && w' == SysApply(w, l.action, l.now)
    ensures ClaimedOnce(w', j)
  {
    var after := w.(db := RowsAfter(w, l.action, l.now));
    assert Unclaimed(after, j) == Unclaimed(w, j);
    if l.action.OnRows? {
      ScheduleKeepsClaims(w, l.action.action, l.now, after, j);
    } else if l.action.HandleExpiry? || l.action.HandleConfirmation? {
      HandlerKeepsClaims(w, l, j, after);
    } else if l.action.Deliver? || l.action.Finish? || l.action.Crash? {
      WorkerKeepsClaims(w, l, j, after);
    } else {
      RecoveryKeepsClaims(w, l, j, after);
    }
  }

  /**
    Whatever the number of duplicate messages: as long as recovery hits `j` only when no
    live worker holds it, the job has at most one live worker, its retry count never
    exceeds three, and it is given up exactly at three failures since the last retry.
   */
  lemma {:induction false} OneWorkerPerJob(worlds: seq<System>, labels: seq<SysLabel>, j: Id, n: nat)
    requires IsSysRun(worlds, labels) && CarefulRun(worlds, labels, j) && n <= |labels|
    ensures ClaimedOnce(worlds[n], j)
    ensures j in worlds[n].jobs ==>
              Failures(worlds, labels, j, n) <= MAX_JOB_RETRIES &&
              (worlds[n].jobs[j].status.GivenUp? <==> Failures(worlds, labels, j, n) == MAX_JOB_RETRIES)
  {
    if n > 0 {
      OneWorkerPerJob(worlds, labels, j, n - 1);
      RunJobsOk(worlds, labels, n - 1);
      assert SysStepAt(worlds, labels, n - 1) && CarefulStep(worlds[n - 1], labels[n - 1], j);
      StepKeepsClaims(worlds[n - 1], labels[n - 1], worlds[n], j);
    }
    FailuresAreCounted(worlds, labels, j, n);
  }

  // ---------------------------------------------------------------- completed jobs

  ghost predicate IsCompleted(w: System, j: Id) { j in w.jobs && w.jobs[j].status.Completed? }

  /** The two steps that can undo a completed job: a slow second worker that fails, and a late manual retry. */
  lemma CompletedUndoneIff(w: System, l: SysLabel, w': System, j: Id)
    requires JobsOk(w) && IsCompleted(w, j)
    requires SysEnabled(w, l.action, l.now) && w' == SysApply(w, l.action, l.now)
    ensures !IsCompleted(w', j) <==> FailsAt(w, l, j) || l.action == RetryJob(j)
  {
    if l.action.OnRows? {
      ScheduledRetryCount(w, l.action.action, l.now, w.(db := RowsAfter(w, l.action, l.now)), j);
    }
  }

  lemma CarefulStepKeepsCompleted(w: System, l: SysLabel, w': System, j: Id)
    requires JobsOk(w) && ClaimedOnce(w, j) && CarefulStep(w, l, j) && IsCompleted(w, j)
    requires SysEnabled(w, l.action, l.now) && w' == SysApply(w, l.action, l.now)
    ensures IsCompleted(w', j)
  {
    assert Unclaimed(w, j);
    CompletedUndoneIff(w, l, w', j);
  }

  /** In careful runs neither happens: completed is final. */
  lemma {:induction false} CompletedIsFinal(worlds: seq<System>, labels: seq<SysLabel>, j: Id, m: nat, n: nat)
    requires IsSysRun(worlds, labels) && CarefulRun(worlds, labels, j) && m <= n <= |labels|
    requires IsCompleted(worlds[m], j)
    ensures IsCompleted(worlds[n], j)
  {
    if m < n {
      CompletedIsFinal(worlds, labels, j, m, n - 1);
      RunJobsOk(worlds, labels, n - 1);
      OneWorkerPerJob(worlds, labels, j, n - 1);
      assert SysStepAt(worlds, labels, n - 1) && CarefulStep(worlds[n - 1], labels[n - 1], j);
      CarefulStepKeepsCompleted(worlds[n - 1], labels[n - 1], worlds[n], j);
    }
  }
}
