/** The job tables as the tasks, the beat and the retry view change them, beside the tables of the engine. */
module JobRunner {
  import opened Wrappers
  import opened Rows
  import opened Engine
  import opened Invariant
  import opened Jobs
  import opened ExpiryJobs
  import opened Database

  /** A commit that creates a booking is the only one that moves the next booking id. */
  lemma CreatedMovesNext(s: State, t: Id, now: Time)
    requires t in s.creates
    ensures FinishCreate(s, t, now).1.Created? <==> FinishCreate(s, t, now).0.nextBooking != s.nextBooking
  {
  }

  lemma ScheduleOfCommit(w: System, a: Action, now: Time, after: System)
    requires Enabled(w.db, a, now) && a.CommitCreate? && after == w.(db := Apply(w.db, a, now))
    ensures Schedule(w, a, now, after) ==
              if after.db.nextBooking != w.db.nextBooking then AddJob(after, Expiry, w.db.nextBooking, now + HOLD_PERIOD) else after
  {
    CreatedMovesNext(w.db, a.txn, now);
  }

  predicate IsConfirmed(bookings: map<Id, Booking>, b: Id) { b in bookings && bookings[b].status.Confirmed? }

  lemma ScheduleOfPayment(w: System, a: Action, now: Time, after: System)
    requires Enabled(w.db, a, now) && a.PayBooking? && after == w.(db := Apply(w.db, a, now))
    ensures Schedule(w, a, now, after) ==
              if IsConfirmed(after.db.bookings, a.booking) && !IsConfirmed(w.db.bookings, a.booking) && !HasJob(w.jobs, Confirmation, a.booking)
              then AddJob(after, Confirmation, a.booking, now) else after
  {
  }

  lemma ScheduleOfOthers(w: System, a: Action, now: Time, after: System)
    requires Enabled(w.db, a, now) && !a.CommitCreate? && !a.PayBooking?
    ensures Schedule(w, a, now, after) == after
  {
  }

  lemma StepOnRows(w: System, a: Action, now: Time, after: System)
    requires SysEnabled(w, OnRows(a), now) && after == w.(db := Apply(w.db, a, now))
    ensures SysApply(w, OnRows(a), now) == Schedule(w, a, now, after)
  {
  }

  lemma HandlerStep(w: System, k: Id, raises: bool, now: Time)
    requires SysEnabled(w, HandleExpiry(k, raises), now)
    ensures var b := w.jobs[w.workers[k].job].booking;
            SysApply(w, HandleExpiry(k, raises), now) ==
              SetProgress(w.(db := (if raises then w.db else Sweep(w.db, b, now)).(clock := now)), k, !raises)
  {
  }

  class WorkflowTables {
    const rows: Tables
    var jobs: map<Id, Job>
    var nextJob: Id
    var messages: set<Message>
    var workers: map<Id, Worker>
    var retryReads: set<Id>

    ghost function Now(): System
      reads this, rows
    {
      System(rows.Now(), jobs, nextJob, messages, workers, retryReads)
    }

    constructor (rows: Tables)
      ensures this.rows == rows
      ensures Now() == System(rows.Now(), map[], 0, {}, map[], {})
    {
      this.rows := rows;
      jobs, nextJob, messages, workers, retryReads := map[], 0, {}, map[], {};
    }

    method Send(j: Id, eta: Time)
      modifies this`messages
      ensures messages == old(messages) + {Message(j, eta)}
    {
      messages := messages + {Message(j, eta)};
    }

    /** A new job row and its first dispatch, at once or after a delay. */
    method ScheduleJob(kind: Kind, b: Id, delay: int, now: Time)
      modifies this
      ensures Now() == AddJob(old(Now()), kind, b, now + delay)
    {
      jobs := jobs[nextJob := Job(kind, b, Queued, 0, None, false)];
      Send(nextJob, now + delay);
      nextJob := nextJob + 1;
    }

    method ClaimJob(m: Message, k: Id, now: Time) returns (claimed: bool)
      modifies this
      ensures Now() == TakeJob(old(Now()), m, k, now)
      ensures claimed <==> m.job in old(jobs) && old(jobs)[m.job].status.Queued?
    {
      if m.job !in jobs || !jobs[m.job].status.Queued? { return false; }
      var job := jobs[m.job];
      jobs := jobs[m.job := job.(status := InProgress, startedAt := Some(now))];
      workers := workers[k := Worker(m.job, job.emailSent, Claimed, false)];
      return true;
    }

    method EndHandler(k: Id, ok: bool)
      requires k in workers
      modifies this`workers
      ensures Now() == SetProgress(old(Now()), k, ok)
    {
      workers := workers[k := workers[k].(progress := Done(ok))];
    }

    /** The confirmation handler: skip a job that has mailed, mail, then write the flag and swallow a failing write. */
    method HandleConfirmation(k: Id, outcome: MailOutcome) returns (mailed: bool)
      requires k in workers && workers[k].job in jobs
      modifies this
      ensures Now() == RunConfirmation(old(Now()), k, outcome)
      ensures mailed == Sends(old(Now()), k, outcome)
    {
      var worker := workers[k];
      if worker.sawEmailSent {
        EndHandler(k, true);
        return false;
      }
      match outcome
      case NotConfigured =>
        EndHandler(k, true);
        return false;
      case Raised =>
        EndHandler(k, false);
        return false;
      case Mailed(flagSaved) =>
        if flagSaved {
          jobs := jobs[worker.job := jobs[worker.job].(emailSent := true)];
          EndHandler(k, true);
        } else {
          workers := workers[k := worker.(progress := Done(true), unflagged := true)];
        }
        return true;
    }

    /** 5 seconds doubled for every earlier failure. */
    method Delay(retries: nat) returns (delay: int)
      ensures delay == Backoff(retries)
    {
      delay := 5 * SECOND;
      for i := 1 to if retries < 1 then 1 else retries
        invariant delay == Backoff(i)
      {
        delay := 2 * delay;
      }
    }

    method FinishJob(k: Id, writeFails: bool, now: Time)
      requires k in workers && workers[k].job in jobs
      modifies this
      ensures Now() == FinishRun(old(Now()), k, writeFails, now)
    {
      var j, ok := workers[k].job, workers[k].progress == Done(true) && !writeFails;
      workers := workers - {k};
      if ok {
        jobs := jobs[j := jobs[j].(status := Completed)];
        return;
      }
      var retries := jobs[j].retryCount + 1;
      if retries >= MAX_JOB_RETRIES {
        jobs := jobs[j := jobs[j].(retryCount := retries, status := GivenUp)];
      } else {
        jobs := jobs[j := jobs[j].(retryCount := retries, status := Queued)];
        var delay := Delay(retries);
        Send(j, now + delay);
      }
    }

    // -------------------------------------------------------------- the beat

    method SendAll(ids: set<Id>, now: Time)
      modifies this`messages
      ensures messages == old(messages) + set j | j in ids :: Message(j, now)
    {
      var todo := ids;
      while todo != {}
        invariant todo <= ids
        invariant messages == old(messages) + set j | j in ids - todo :: Message(j, now)
        decreases |todo|
      {
        var j :| j in todo;
        Send(j, now);
        todo := todo - {j};
      }
    }

    method DispatchDue(now: Time)
      modifies this`messages
      ensures Now() == RequeueDue(old(Now()), now)
    {
      var due := set j | j in jobs && jobs[j].status.Queued? &&
        (jobs[j].kind.Expiry? ==> jobs[j].booking in rows.bookings && rows.bookings[jobs[j].booking].expiresAt <= now);
      assert due == set j | j in jobs && Due(Now(), j, now);
      SendAll(due, now);
    }

    method ResetStuckJobs(now: Time)
      modifies this
      ensures Now() == ResetAllStuck(old(Now()), now)
    {
      var stuck := set j | j in jobs && jobs[j].Stuck(now);
      jobs := map j | j in jobs :: if j in stuck then jobs[j].(status := Queued) else jobs[j];
      SendAll(stuck, now);
    }

    /** Dispatches what is due, then recovers what is stuck by a clock read later. */
    method RequeuePendingJobs(now: Time, later: Time)
      modifies this
      ensures Now() == ResetAllStuck(RequeueDue(old(Now()), now), later)
    {
      DispatchDue(now);
      ResetStuckJobs(later);
    }

    // -------------------------------------------------------------- the manual retry

    /**
      The retry view's check on the row as it was read; the write comes later and unlocked.
      A job given up is always offered, a waiting or completed one never, and one in progress
      only when it was claimed more than five minutes ago.
     */
    method MayRetry(j: Id, now: Time) returns (ok: bool)
      ensures j in jobs && jobs[j].status.GivenUp? ==> ok
      ensures ok ==> j in jobs && !jobs[j].status.Queued? && !jobs[j].status.Completed?
      ensures j in jobs && jobs[j].status.InProgress? ==>
                (ok <==> exists claimed: Time :: jobs[j].startedAt == Some(claimed) && now - claimed > STUCK_AFTER)
      ensures ok == Retryable(Now(), j, now)
    {
      if j !in jobs { return false; }
      ok := jobs[j].status.GivenUp? || (jobs[j].status.InProgress? && jobs[j].startedAt.Some? && jobs[j].startedAt.value < now - STUCK_AFTER);
      assert jobs[j].startedAt.Some? ==> jobs[j].startedAt == Some(jobs[j].startedAt.value);
    }

    method RetryJob(j: Id, now: Time)
      requires j in jobs
      modifies this
      ensures Now() == RetryWrite(old(Now()), j, now)
    {
      jobs := jobs[j := jobs[j].(status := Queued, retryCount := 0, startedAt := None, emailSent := false)];
      Send(j, now);
    }

    // -------------------------------------------------------------- one step of a run

    /** The timer of a new booking, the mail of a newly confirmed one; `before` is what the service call started from. */
    method ScheduleAfter(a: Action, next: Id, wasConfirmed: bool, now: Time, ghost before: System)
      requires Enabled(before.db, a, now) && Now() == before.(db := Apply(before.db, a, now))
      requires next == before.db.nextBooking && wasConfirmed == (a.PayBooking? && IsConfirmed(before.db.bookings, a.booking))
      modifies this
      ensures Now() == Schedule(before, a, now, old(Now()))
    {
      ghost var after := Now();
      if a.CommitCreate? {
        ScheduleOfCommit(before, a, now, after);
        if rows.nextBooking != next { ScheduleJob(Expiry, next, HOLD_PERIOD, now); }
      } else if a.PayBooking? {
        ScheduleOfPayment(before, a, now, after);
        if IsConfirmed(rows.bookings, a.booking) && !wasConfirmed && !HasJob(jobs, Confirmation, a.booking) {
          ScheduleJob(Confirmation, a.booking, 0, now);
        }
      } else {
        ScheduleOfOthers(before, a, now, after);
      }
    }

    /** A service call with the jobs it schedules. */
    method ServeRows(a: Action, now: Time)
      requires Inv(rows.Now()) && SysEnabled(Now(), OnRows(a), now)
      modifies this, rows
      ensures Now() == SysApply(old(Now()), OnRows(a), now)
    {
      ghost var before := Now();
      var next, wasConfirmed := rows.nextBooking, a.PayBooking? && IsConfirmed(rows.bookings, a.booking);
      rows.Execute(a, now);
      StepOnRows(before, a, now, Now());
      ScheduleAfter(a, next, wasConfirmed, now, before);
    }

    /** The expiry handler sweeps in the engine's tables; an error leaves them alone. */
    method HandleExpiry(k: Id, raises: bool, now: Time)
      requires SysEnabled(Now(), SysAction.HandleExpiry(k, raises), now)
      modifies this, rows
      ensures Now() == SysApply(old(Now()), SysAction.HandleExpiry(k, raises), now)
    {
      HandlerStep(Now(), k, raises, now);
      if !raises { rows.HandleExpiry(jobs[workers[k].job].booking, now); }
      rows.clock := now;
      EndHandler(k, !raises);
    }

    method RunWorker(a: SysAction, now: Time)
      requires SysEnabled(Now(), a, now) && (a.Deliver? || a.HandleConfirmation? || a.Finish? || a.Crash?)
      modifies this, rows`clock
      ensures Now() == SysApply(old(Now()), a, now)
    {
      rows.clock := now;
      match a
      case Deliver(m, k) => var _ := ClaimJob(m, k, now);
      case HandleConfirmation(k, outcome) => var _ := HandleConfirmation(k, outcome);
      case Finish(k, writeFails) => FinishJob(k, writeFails, now);
      case Crash(k) => workers := workers - {k};
    }

    method RunOperator(a: SysAction, now: Time)
      requires SysEnabled(Now(), a, now) && (a.Requeue? || a.ResetStuck? || a.ReadForRetry? || a.RetryJob?)
      modifies this, rows`clock
      ensures Now() == SysApply(old(Now()), a, now)
    {
      rows.clock := now;
      match a
      case Requeue => DispatchDue(now);
      case ResetStuck => ResetStuckJobs(now);
      case ReadForRetry(j) =>
        var ok := MayRetry(j, now);
        if ok { retryReads := retryReads + {j}; }
      case RetryJob(j) => RetryJob(j, now);
    }

    /** The methods are the job system: whatever runs when it may, the tables take that step and stay sound. */
    method Execute(a: SysAction, now: Time)
      requires Inv(rows.Now()) && JobsOk(Now()) && SysEnabled(Now(), a, now)
      modifies this, rows
      ensures Now() == SysApply(old(Now()), a, now)
      ensures Inv(rows.Now()) && JobsOk(Now())
    {
      ghost var before := Now();
      if a.OnRows? {
        ServeRows(a.action, now);
      } else if a.HandleExpiry? {
        HandleExpiry(a.worker, a.raises, now);
      } else if a.Deliver? || a.HandleConfirmation? || a.Finish? || a.Crash? {
        RunWorker(a, now);
      } else {
        RunOperator(a, now);
      }
      SysStepKeepsInv(before, a, now, Now());
    }
  }
}
