/** No expiry job completes while its booking can still be paid for. */
module ExpiryJobs {
  import opened Wrappers
  import opened Rows
  import opened Engine
  import opened Invariant
  import opened Preservation
  import opened Safety
  import opened Jobs

  // ---------------------------------------------------------------- the invariant

  ghost predicate PastDeadline(db: State, b: Id)
  {
    b in db.bookings && db.clock >= db.bookings[b].expiresAt
  }

  ghost predicate Settled(db: State, b: Id)
  {
    b in db.bookings && !db.bookings[b].status.Open()
  }

  /** An expiry job that was ever claimed is past its deadline; a completed one has settled its booking. */
  ghost predicate JobOk(db: State, job: Job)
  {
    && job.booking in db.bookings
    && (job.kind.Expiry? && !job.status.Queued? ==> PastDeadline(db, job.booking))
    && (job.kind.Expiry? && job.status.Completed? ==> Settled(db, job.booking))
  }

  /** No dispatch of an expiry job lands before the deadline. */
  ghost predicate MessageOk(db: State, jobs: map<Id, Job>, m: Message)
  {
    && m.job in jobs && jobs[m.job].booking in db.bookings
    && (jobs[m.job].kind.Expiry? ==> m.eta >= db.bookings[jobs[m.job].booking].expiresAt)
  }

  ghost predicate WorkerOk(db: State, jobs: map<Id, Job>, k: Worker)
  {
    && k.job in jobs
    && (jobs[k.job].kind.Expiry? ==> PastDeadline(db, jobs[k.job].booking))
    && (jobs[k.job].kind.Expiry? && k.progress == Done(true) ==> Settled(db, jobs[k.job].booking))
  }

  ghost predicate RetryOk(db: State, jobs: map<Id, Job>, j: Id)
  {
    j in jobs && (jobs[j].kind.Expiry? ==> PastDeadline(db, jobs[j].booking))
  }

  ghost predicate JobsOk(w: System)
  {
    && (forall j :: j in w.jobs ==> j < w.nextJob && JobOk(w.db, w.jobs[j]))
    && (forall m :: m in w.messages ==> MessageOk(w.db, w.jobs, m))
    && (forall k :: k in w.workers ==> WorkerOk(w.db, w.jobs, w.workers[k]))
    && (forall j :: j in w.retryReads ==> RetryOk(w.db, w.jobs, j))
  }

  // ---------------------------------------------------------------- the rows move first

  /** Deadlines do not move and a settled booking stays settled. */
  lemma EvolvedBooking(db: State, db': State, b: Id)
    requires Evolves(db, db') && b in db.bookings
    ensures b in db'.bookings && db'.bookings[b].expiresAt == db.bookings[b].expiresAt
    ensures PastDeadline(db, b) ==> PastDeadline(db', b)
    ensures Settled(db, b) ==> Settled(db', b)
  {
    assert BookingEvolves(db, db', b);
  }

  lemma RowsMoveKeepsJobs(w: System, db': State)
    requires JobsOk(w) && Evolves(w.db, db')
    ensures JobsOk(w.(db := db'))
  {
    var w' := w.(db := db');
    forall j | j in w'.jobs ensures j < w'.nextJob && JobOk(db', w'.jobs[j]) {
      EvolvedBooking(w.db, db', w.jobs[j].booking);
    }
    forall m | m in w'.messages ensures MessageOk(db', w'.jobs, m) {
      assert MessageOk(w.db, w.jobs, m);
      EvolvedBooking(w.db, db', w.jobs[m.job].booking);
    }
    forall k | k in w'.workers ensures WorkerOk(db', w'.jobs, w'.workers[k]) {
      assert WorkerOk(w.db, w.jobs, w.workers[k]);
      EvolvedBooking(w.db, db', w.jobs[w.workers[k].job].booking);
    }
    forall j | j in w'.retryReads ensures RetryOk(db', w'.jobs, j) {
      assert RetryOk(w.db, w.jobs, j);
      EvolvedBooking(w.db, db', w.jobs[j].booking);
    }
  }

  lemma TickEvolves(db: State, now: Time)
    requires ClaimsRefer(db) && now > db.clock
    ensures Evolves(db, db.(clock := now))
  {
    SameBookingsEvolve(db, db.(clock := now));
  }

  /** The jobs never disturb the engine: its invariant and the ways a booking may evolve survive every step. */
  lemma RowsAdvance(w: System, a: SysAction, now: Time, db': State)
    requires Inv(w.db) && SysEnabled(w, a, now) && db' == RowsAfter(w, a, now)
    ensures Inv(db') && Evolves(w.db, db') && db'.clock == now
  {
    match a {
      case OnRows(action) =>
        StepKeepsInv(w.db, action, now, db');
        StepEvolves(w.db, action, now, db');
      case HandleExpiry(k, false) =>
        var sweep := SweepBooking(w.jobs[w.workers[k].job].booking);
        StepKeepsInv(w.db, sweep, now, db');
        StepEvolves(w.db, sweep, now, db');
      case _ =>
        TickKeepsInv(w.db, now);
        TickEvolves(w.db, now);
    }
  }

  // ---------------------------------------------------------------- then the jobs

  lemma AddJobKeepsJobs(w: System, kind: Kind, b: Id, eta: Time)
    requires JobsOk(w) && b in w.db.bookings && (kind.Expiry? ==> eta >= w.db.bookings[b].expiresAt)
    ensures JobsOk(AddJob(w, kind, b, eta))
  {
    var w' := AddJob(w, kind, b, eta);
    forall m | m in w'.messages ensures MessageOk(w'.db, w'.jobs, m) {
      assert m in w.messages ==> MessageOk(w.db, w.jobs, m);
    }
    forall k | k in w'.workers ensures WorkerOk(w'.db, w'.jobs, w'.workers[k]) {
      assert WorkerOk(w.db, w.jobs, w.workers[k]);
    }
    forall j | j in w'.retryReads ensures RetryOk(w'.db, w'.jobs, j) {
      assert RetryOk(w.db, w.jobs, j);
    }
  }

  /** One job row is rewritten in place; what it is about does not change. */
  lemma RewriteKeepsJobs(w: System, j: Id, job: Job)
    requires JobsOk(w) && j in w.jobs
    requires job.kind == w.jobs[j].kind && job.booking == w.jobs[j].booking
    requires JobOk(w.db, job)
    ensures JobsOk(w.(jobs := w.jobs[j := job]))
  {
    var w' := w.(jobs := w.jobs[j := job]);
    forall m | m in w'.messages ensures MessageOk(w'.db, w'.jobs, m) { assert MessageOk(w.db, w.jobs, m); }
    forall k | k in w'.workers ensures WorkerOk(w'.db, w'.jobs, w'.workers[k]) { assert WorkerOk(w.db, w.jobs, w.workers[k]); }
    forall i | i in w'.retryReads ensures RetryOk(w'.db, w'.jobs, i) { assert RetryOk(w.db, w.jobs, i); }
  }

  lemma SendKeepsJobs(w: System, more: set<Message>)
    requires JobsOk(w) && forall m :: m in more ==> MessageOk(w.db, w.jobs, m)
    ensures JobsOk(w.(messages := w.messages + more))
  {
  }

  /** A job past its deadline may be dispatched at once. */
  lemma LateDispatch(w: System, j: Id, eta: Time)
    requires JobsOk(w) && j in w.jobs && eta >= w.db.clock
    requires w.jobs[j].kind.Expiry? ==> PastDeadline(w.db, w.jobs[j].booking)
    ensures MessageOk(w.db, w.jobs, Message(j, eta))
  {
    assert JobOk(w.db, w.jobs[j]);
  }

  lemma TakeKeepsJobs(w: System, m: Message, k: Id, now: Time)
    requires JobsOk(w) && m in w.messages && w.db.clock == now >= m.eta && k !in w.workers
    ensures JobsOk(TakeJob(w, m, k, now))
  {
    assert MessageOk(w.db, w.jobs, m);
    if w.jobs[m.job].status.Queued? {
      var job := w.jobs[m.job].(status := InProgress, startedAt := Some(now));
      assert JobOk(w.db, w.jobs[m.job]);
      RewriteKeepsJobs(w, m.job, job);
    }
  }

  lemma ProgressKeepsJobs(w: System, k: Id, worker: Worker)
    requires JobsOk(w) && k in w.workers && worker.job == w.workers[k].job && WorkerOk(w.db, w.jobs, worker)
    ensures JobsOk(w.(workers := w.workers[k := worker]))
  {
  }

  lemma SweepSettles(db: State, b: Id, now: Time)
    requires b in db.bookings && now > db.clock && PastDeadline(db, b)
    ensures Settled(Apply(db, SweepBooking(b), now), b)
  {
  }

  lemma ConfirmationKeepsJobs(w: System, k: Id, outcome: MailOutcome)
    requires JobsOk(w) && WorkerReady(w, k, Confirmation)
    ensures JobsOk(RunConfirmation(w, k, outcome))
  {
    var j := w.workers[k].job;
    var flagged := w.(jobs := w.jobs[j := w.jobs[j].(emailSent := true)]);
    assert WorkerOk(w.db, w.jobs, w.workers[k]) && JobOk(w.db, w.jobs[j]);
    RewriteKeepsJobs(w, j, w.jobs[j].(emailSent := true));
    var w' := RunConfirmation(w, k, outcome);
    if !w.workers[k].sawEmailSent && outcome == Mailed(true) {
      ProgressKeepsJobs(flagged, k, w'.workers[k]);
    } else {
      ProgressKeepsJobs(w, k, w'.workers[k]);
    }
  }

  lemma FinishKeepsJobs(w: System, k: Id, writeFails: bool, now: Time)
    requires JobsOk(w) && w.db.clock == now && k in w.workers && w.workers[k].job in w.jobs
    ensures JobsOk(FinishRun(w, k, writeFails, now))
  {
    var j := w.workers[k].job;
    var rest := w.(workers := w.workers - {k});
    assert WorkerOk(w.db, w.jobs, w.workers[k]) && JobOk(w.db, w.jobs[j]);
    assert JobsOk(rest) by {
      forall i | i in rest.workers ensures WorkerOk(rest.db, rest.jobs, rest.workers[i]) {
        assert WorkerOk(w.db, w.jobs, w.workers[i]);
      }
    }
    var w' := FinishRun(w, k, writeFails, now);
    var written := rest.(jobs := w'.jobs);
    RewriteKeepsJobs(rest, j, w'.jobs[j]);
    if w'.jobs[j].status.Queued? {
      BackoffPositive(w'.jobs[j].retryCount);
      LateDispatch(written, j, now + Backoff(w'.jobs[j].retryCount));
      SendKeepsJobs(written, {Message(j, now + Backoff(w'.jobs[j].retryCount))});
    }
  }

  lemma {:induction false} BackoffPositive(retries: nat)
    ensures Backoff(retries) > 0
  {
    if retries > 1 { BackoffPositive(retries - 1); }
  }

  lemma RequeueKeepsJobs(w: System, now: Time)
    requires JobsOk(w) && w.db.clock == now
    ensures JobsOk(RequeueDue(w, now))
  {
    var more := set j | j in w.jobs && Due(w, j, now) :: Message(j, now);
    forall m | m in more ensures MessageOk(w.db, w.jobs, m) {
      LateDispatch(w, m.job, now);
    }
    SendKeepsJobs(w, more);
  }

  lemma ResetKeepsJobs(w: System, now: Time)
    requires JobsOk(w) && w.db.clock == now
    ensures JobsOk(ResetAllStuck(w, now))
  {
    var w' := ResetAllStuck(w, now);
    forall j | j in w'.jobs ensures j < w'.nextJob && JobOk(w'.db, w'.jobs[j]) {
      assert JobOk(w.db, w.jobs[j]);
    }
    forall m | m in w'.messages ensures MessageOk(w'.db, w'.jobs, m) {
      if m in w.messages {
        assert MessageOk(w.db, w.jobs, m);
      } else {
        LateDispatch(w, m.job, now);
      }
    }
    forall k | k in w'.workers ensures WorkerOk(w'.db, w'.jobs, w'.workers[k]) {
      assert WorkerOk(w.db, w.jobs, w.workers[k]);
    }
    forall j | j in w'.retryReads ensures RetryOk(w'.db, w'.jobs, j) {
      assert RetryOk(w.db, w.jobs, j);
    }
  }

  lemma RetryKeepsJobs(w: System, j: Id, now: Time)
    requires JobsOk(w) && w.db.clock == now && j in w.retryReads && j in w.jobs
    ensures JobsOk(RetryWrite(w, j, now))
  {
    assert RetryOk(w.db, w.jobs, j) && JobOk(w.db, w.jobs[j]);
    var w1 := w.(jobs := RetryWrite(w, j, now).jobs);
    RewriteKeepsJobs(w, j, w1.jobs[j]);
    LateDispatch(w1, j, now);
    SendKeepsJobs(w1, {Message(j, now)});
  }

  // ---------------------------------------------------------------- steps and runs

  lemma CreatedRow(s: State, a: Action, now: Time, s': State)
    requires Enabled(s, a, now) && s' == Apply(s, a, now)
    requires a.CommitCreate? && FinishCreate(s, a.txn, now).1.Created?
    ensures s.nextBooking in s'.bookings && s'.bookings[s.nextBooking].expiresAt == now + HOLD_PERIOD
  {
  }

  lemma ScheduleKeepsJobs(w: System, a: Action, now: Time, after: System)
    requires Enabled(w.db, a, now) && after.db == Apply(w.db, a, now)
    requires JobsOk(after)
    ensures JobsOk(Schedule(w, a, now, after))
  {
    if a.CommitCreate? && FinishCreate(w.db, a.txn, now).1.Created? {
      CreatedRow(w.db, a, now, after.db);
      AddJobKeepsJobs(after, Expiry, w.db.nextBooking, now + HOLD_PERIOD);
    } else if StartsConfirmed(w.db, a, now) && !HasJob(w.jobs, Confirmation, a.booking) {
      AddJobKeepsJobs(after, Confirmation, a.booking, now);
    }
  }

  lemma HandlerKeepsJobs(w: System, k: Id, raises: bool, now: Time, after: System)
    requires JobsOk(w) && SysEnabled(w, HandleExpiry(k, raises), now)
    requires JobsOk(after) && after == w.(db := RowsAfter(w, HandleExpiry(k, raises), now))
    ensures JobsOk(SetProgress(after, k, !raises))
  {
    assert WorkerOk(w.db, w.jobs, w.workers[k]) && WorkerOk(after.db, after.jobs, after.workers[k]);
    if !raises { SweepSettles(w.db, w.jobs[w.workers[k].job].booking, now); }
    ProgressKeepsJobs(after, k, SetProgress(after, k, !raises).workers[k]);
  }

  /** Operator steps that leave the booking rows alone. */
  lemma OperatorStepKeepsJobs(w: System, a: SysAction, now: Time, after: System)
    requires SysEnabled(w, a, now) && after == w.(db := after.db) && after.db.clock == now && JobsOk(after)
    requires a.Requeue? || a.ResetStuck? || a.RetryJob? || (a.ReadForRetry? && JobsOk(w))
    ensures JobsOk(JobStep(w, a, now, after))
  {
    match a {
      case Requeue => RequeueKeepsJobs(after, now);
      case ResetStuck => ResetKeepsJobs(after, now);
      case RetryJob(j) => RetryKeepsJobs(after, j, now);
      case ReadForRetry(j) => assert j in w.jobs ==> JobOk(after.db, after.jobs[j]);
    }
  }

  /** Worker steps that leave the booking rows alone. */
  lemma WorkerStepKeepsJobs(w: System, a: SysAction, now: Time, after: System)
    requires SysEnabled(w, a, now) && after == w.(db := after.db) && after.db.clock == now && JobsOk(after)
    requires a.Deliver? || a.HandleConfirmation? || a.Finish? || a.Crash?
    ensures JobsOk(JobStep(w, a, now, after))
  {
    match a {
      case Deliver(m, k) => TakeKeepsJobs(after, m, k, now);
      case HandleConfirmation(k, outcome) => ConfirmationKeepsJobs(after, k, outcome);
      case Finish(k, writeFails) => FinishKeepsJobs(after, k, writeFails, now);
      case Crash(k) =>
    }
  }

  lemma JobStepKeepsJobs(w: System, a: SysAction, now: Time, after: System)
    requires JobsOk(w) && SysEnabled(w, a, now) && after == w.(db := RowsAfter(w, a, now))
    requires after.db.clock == now && JobsOk(after)
    ensures JobsOk(JobStep(w, a, now, after))
  {
    if a.OnRows? {
      ScheduleKeepsJobs(w, a.action, now, after);
    } else if a.HandleExpiry? {
      HandlerKeepsJobs(w, a.worker, a.raises, now, after);
    } else if a.Deliver? || a.HandleConfirmation? || a.Finish? || a.Crash? {
      WorkerStepKeepsJobs(w, a, now, after);
    } else {
      OperatorStepKeepsJobs(w, a, now, after);
    }
  }

  lemma StepDb(w: System, a: SysAction, now: Time)
    requires SysEnabled(w, a, now)
    ensures SysApply(w, a, now).db == RowsAfter(w, a, now)
  {
  }

  lemma SysStepKeepsInv(w: System, a: SysAction, now: Time, w': System)
    requires Inv(w.db) && JobsOk(w) && SysEnabled(w, a, now) && w' == SysApply(w, a, now)
    ensures Inv(w'.db) && JobsOk(w') && Evolves(w.db, w'.db)
  {
    var after := w.(db := RowsAfter(w, a, now));
    StepDb(w, a, now);
    RowsAdvance(w, a, now, after.db);
    RowsMoveKeepsJobs(w, after.db);
    JobStepKeepsJobs(w, a, now, after);
  }

  lemma {:induction false} SysRunKeepsInv(worlds: seq<System>, labels: seq<SysLabel>, i: nat)
    requires IsSysRun(worlds, labels) && i < |worlds|
    ensures Inv(worlds[i].db) && JobsOk(worlds[i])
  {
    if i == 0 {
      assert worlds[0].db == EmptyState(worlds[0].db.clock);
    } else {
      SysRunKeepsInv(worlds, labels, i - 1);
      assert SysStepAt(worlds, labels, i - 1);
      SysStepKeepsInv(worlds[i - 1], labels[i - 1].action, labels[i - 1].now, worlds[i]);
    }
  }

  /**
    In every run, whatever mixture of countdowns, requeues, retries and stuck resets
    dispatched it, a completed expiry job means its booking can no longer be paid for, and
    that it still owns seats only if it was confirmed.
   */
  lemma CompletedExpiryIsFinal(worlds: seq<System>, labels: seq<SysLabel>, i: nat, j: Id)
    requires IsSysRun(worlds, labels) && i < |worlds| && j in worlds[i].jobs
    requires worlds[i].jobs[j].kind.Expiry? && worlds[i].jobs[j].status.Completed?
    ensures var db, b := worlds[i].db, worlds[i].jobs[j].booking;
            && b in db.bookings && !db.bookings[b].status.Open()
            && (forall c :: Active(db.claims, c) && c.booking == b ==> db.bookings[b].status.Confirmed?)
            && db.clock >= db.bookings[b].expiresAt
  {
    SysRunKeepsInv(worlds, labels, i);
    assert JobOk(worlds[i].db, worlds[i].jobs[j]);
  }

  /** No message ever dispatches an expiry job before its booking's hold is over, so no handler wakes up early. */
  lemma ExpiryNeverEarly(worlds: seq<System>, labels: seq<SysLabel>, i: nat, k: Id, raises: bool)
    requires IsSysRun(worlds, labels) && i < |labels| && labels[i].action == HandleExpiry(k, raises)
    requires SysStepAt(worlds, labels, i)
    ensures var w := worlds[i];
            labels[i].now >= w.db.bookings[w.jobs[w.workers[k].job].booking].expiresAt
  {
    SysRunKeepsInv(worlds, labels, i);
    assert WorkerOk(worlds[i].db, worlds[i].jobs, worlds[i].workers[k]);
  }
}
