/** Where the steps of a job lead, told from what its handler did in the run and not from what the worker remembers. */
module JobOutcomes {
  import opened Wrappers
  import opened Rows
  import opened Engine
  import opened Jobs
  import opened ExpiryJobs
  import opened JobRetries
  import opened ConfirmationJobs
  import Invariant
  import opened Outcomes

  // ---------------------------------------------------------------- how a handler run ends

  /** The handler of worker `k` runs at this step. */
  ghost predicate Handles(w: System, l: SysLabel, k: Id)
  {
    k in w.workers && (l.action.HandleConfirmation? || l.action.HandleExpiry?) && l.action.worker == k
  }

  /** It returns: the mail is out, needs no sending or was sent before; or the expiry transaction went through. */
  ghost predicate Returns(w: System, l: SysLabel, k: Id)
  {
    && Handles(w, l, k)
    && (l.action.HandleExpiry? ==> !l.action.raises)
    && (l.action.HandleConfirmation? ==>
          w.workers[k].sawEmailSent || l.action.outcome.Mailed? || l.action.outcome == NotConfigured)
  }

  lemma HandlerEnds(w: System, l: SysLabel, w': System, k: Id)
    requires SysEnabled(w, l.action, l.now) && w' == SysApply(w, l.action, l.now) && Handles(w, l, k)
    ensures k in w'.workers && w'.workers[k].job == w.workers[k].job
    ensures w'.workers[k].progress == Done(Returns(w, l, k))
  {
  }

  /** Whatever else happens, a worker that is done stays as it is until it ends or dies. */
  lemma DoneStays(w: System, l: SysLabel, w': System, k: Id)
    requires SysEnabled(w, l.action, l.now) && w' == SysApply(w, l.action, l.now)
    requires k in w.workers && w.workers[k].progress.Done? && k in w'.workers
    ensures w'.workers[k] == w.workers[k]
  {
  }

  lemma {:induction false} DoneUntilFinish(worlds: seq<System>, labels: seq<SysLabel>, k: Id, h: nat, f: nat)
    requires IsSysRun(worlds, labels) && h < f <= |labels| && Handles(worlds[h], labels[h], k) && Lives(worlds, k, h, f)
    ensures k in worlds[f].workers && worlds[f].workers[k].job == worlds[h].workers[k].job
    ensures worlds[f].workers[k].progress == Done(Returns(worlds[h], labels[h], k))
  {
    assert SysStepAt(worlds, labels, f - 1);
    if f == h + 1 {
      HandlerEnds(worlds[h], labels[h], worlds[f], k);
    } else {
      DoneUntilFinish(worlds, labels, k, h, f - 1);
      DoneStays(worlds[f - 1], labels[f - 1], worlds[f], k);
    }
  }

  // ---------------------------------------------------------------- the final write

  function Pow2(n: nat): nat { if n == 0 then 1 else 2 * Pow2(n - 1) }

  lemma {:induction false} BackoffDoubles(retries: nat)
    requires retries >= 1
    ensures Backoff(retries) == 5_000_000 * Pow2(retries - 1)
  {
    if retries > 1 { BackoffDoubles(retries - 1); }
  }

  /** One row is written, and at most one message sent for it. */
  ghost predicate Written(w: System, w': System, j: Id, status: JobStatus, retries: nat, sent: set<Message>)
  {
    && j in w.jobs && w'.jobs == w.jobs[j := w.jobs[j].(status := status, retryCount := retries)]
    && w'.messages == w.messages + sent
  }

  lemma FinishWrites(w: System, k: Id, writeFails: bool, now: Time)
    requires k in w.workers && w.workers[k].job in w.jobs && w.workers[k].progress.Done?
    ensures var w', j := FinishRun(w, k, writeFails, now), w.workers[k].job;
            var retries := w.jobs[j].retryCount + 1;
            && w'.workers == w.workers - {k}
            && if w.workers[k].progress.ok && !writeFails then Written(w, w', j, Completed, w.jobs[j].retryCount, {})
               else if retries < 3 then Written(w, w', j, Queued, retries, {Message(j, now + 5_000_000 * Pow2(retries - 1))})
               else Written(w, w', j, GivenUp, retries, {})
  {
    BackoffDoubles(w.jobs[w.workers[k].job].retryCount + 1);
  }

  lemma FinishStep(w: System, k: Id, writeFails: bool, now: Time)
    requires SysEnabled(w, Finish(k, writeFails), now)
    ensures SysApply(w, Finish(k, writeFails), now) == FinishRun(w.(db := w.db.(clock := now)), k, writeFails, now)
  {
  }

  /**
    A worker's end, in any run: the job is completed exactly when its handler returned and
    the final write went through. Otherwise one more failure is counted, and the job waits
    for a message 5, 10, 20, ... seconds later, or is given up at the third.
   */
  lemma FinishOutcome(worlds: seq<System>, labels: seq<SysLabel>, k: Id, h: nat, f: nat, writeFails: bool)
    requires IsSysRun(worlds, labels) && h < f < |labels| && SysStepAt(worlds, labels, f)
    requires Handles(worlds[h], labels[h], k) && Lives(worlds, k, h, f) && labels[f].action == Finish(k, writeFails)
    ensures var w, w', j := worlds[f], worlds[f + 1], worlds[h].workers[k].job;
            && j in w.jobs && k !in w'.workers
            && var retries := w.jobs[j].retryCount + 1;
               if Returns(worlds[h], labels[h], k) && !writeFails then Written(w, w', j, Completed, w.jobs[j].retryCount, {})
               else if retries < 3 then
                 Written(w, w', j, Queued, retries, {Message(j, labels[f].now + 5_000_000 * Pow2(retries - 1))})
               else Written(w, w', j, GivenUp, retries, {})
  {
    DoneUntilFinish(worlds, labels, k, h, f);
    FinishStep(worlds[f], k, writeFails, labels[f].now);
    FinishWrites(worlds[f].(db := worlds[f].db.(clock := labels[f].now)), k, writeFails, labels[f].now);
  }

  // ---------------------------------------------------------------- why a job is completed

  /** The worker's handler returned at `h`, and nothing ended the worker up to `n`. */
  ghost predicate ReturnedAt(worlds: seq<System>, labels: seq<SysLabel>, k: Id, j: Id, h: nat, n: nat)
    requires n <= |labels| < |worlds|
  {
    h < n && Returns(worlds[h], labels[h], k) && worlds[h].workers[k].job == j && Lives(worlds, k, h, n)
  }

  lemma LivesLonger(worlds: seq<System>, k: Id, h: nat, n: nat)
    requires Lives(worlds, k, h, n) && n + 1 < |worlds| && k in worlds[n + 1].workers
    ensures Lives(worlds, k, h, n + 1)
  {
  }

  /** Where a worker that is done got that from. */
  lemma DoneOrigin(w: System, l: SysLabel, w': System, k: Id)
    requires SysEnabled(w, l.action, l.now) && w' == SysApply(w, l.action, l.now) && k in w'.workers && w'.workers[k].progress.Done?
    ensures k in w.workers && w'.workers[k].job == w.workers[k].job
    ensures w.workers[k].progress.Done? ==> w'.workers[k] == w.workers[k]
    ensures w.workers[k].progress.Claimed? ==> Handles(w, l, k) && w'.workers[k].progress == Done(Returns(w, l, k))
  {
  }

  lemma {:induction false} DoneWasReturned(worlds: seq<System>, labels: seq<SysLabel>, k: Id, n: nat) returns (h: nat)
    requires IsSysRun(worlds, labels) && n <= |labels| && k in worlds[n].workers && worlds[n].workers[k].progress == Done(true)
    ensures ReturnedAt(worlds, labels, k, worlds[n].workers[k].job, h, n)
  {
    assert SysStepAt(worlds, labels, n - 1);
    DoneOrigin(worlds[n - 1], labels[n - 1], worlds[n], k);
    if worlds[n - 1].workers[k].progress.Done? {
      h := DoneWasReturned(worlds, labels, k, n - 1);
      LivesLonger(worlds, k, h, n - 1);
    } else {
      h := n - 1;
    }
  }

  lemma CompletedOrigin(w: System, l: SysLabel, w': System, j: Id)
    requires JobsOk(w) && SysEnabled(w, l.action, l.now) && w' == SysApply(w, l.action, l.now) && IsCompleted(w', j)
    ensures || (IsCompleted(w, j) && l.action != RetryJob(j))
            || (l.action.Finish? && !l.action.writeFails && l.action.worker in w.workers
                && w.workers[l.action.worker].job == j && w.workers[l.action.worker].progress == Done(true))
  {
    if l.action.OnRows? {
      var after := w.(db := RowsAfter(w, l.action, l.now));
      ScheduledRetryCount(w, l.action.action, l.now, after, j);
      if j !in w.jobs { ScheduledQueued(w, l.action.action, l.now, after, j); }
    }
  }

  lemma ScheduledQueued(w: System, a: Action, now: Time, after: System, j: Id)
    requires Enabled(w.db, a, now) && after == w.(db := after.db) && j !in w.jobs
    ensures !IsCompleted(Schedule(w, a, now, after), j)
  {
  }

  /**
    Why a job is completed, in any run: the handler of some worker returned, that worker
    lived on to write the completion, and no manual retry has come since the write.
   */
  lemma {:induction false} CompletedBecause(worlds: seq<System>, labels: seq<SysLabel>, j: Id, n: nat) returns (k: Id, h: nat, f: nat)
    requires IsSysRun(worlds, labels) && n <= |labels| && IsCompleted(worlds[n], j)
    ensures h < f < n && ReturnedAt(worlds, labels, k, j, h, f)
    ensures labels[f].action == Finish(k, false) && NoRetryBetween(labels, j, f, n)
  {
    RunJobsOk(worlds, labels, n - 1);
    assert SysStepAt(worlds, labels, n - 1);
    CompletedOrigin(worlds[n - 1], labels[n - 1], worlds[n], j);
    if IsCompleted(worlds[n - 1], j) && labels[n - 1].action != RetryJob(j) {
      k, h, f := CompletedBecause(worlds, labels, j, n - 1);
    } else {
      f, k := n - 1, labels[n - 1].action.worker;
      h := DoneWasReturned(worlds, labels, k, f);
    }
  }

  /** No worker of the job has a handler behind it that returned. */
  predicate NoneReturned(w: System, j: Id)
  {
    forall k :: k in w.workers && w.workers[k].job == j ==> w.workers[k].progress != Done(true)
  }

  /**
    If no manual retry writes while a worker whose handler returned has yet to end, then a
    completed job's handler returned since the last one: a completed confirmation job has
    mailed, or had nothing to mail, since then. The condition cannot be dropped: the module
    RetryRace continues any run that breaks it to one where this fails.
   */
  lemma CompletedSinceRetry(worlds: seq<System>, labels: seq<SysLabel>, j: Id, n: nat) returns (k: Id, h: nat)
    requires IsSysRun(worlds, labels) && n <= |labels| && IsCompleted(worlds[n], j)
    requires forall r: nat | r < n && labels[r].action == RetryJob(j) :: NoneReturned(worlds[r], j)
    ensures h < n && Returns(worlds[h], labels[h], k) && worlds[h].workers[k].job == j && NoRetryBetween(labels, j, h, n)
  {
    var f;
    k, h, f := CompletedBecause(worlds, labels, j, n);
    forall r: nat | h < r < f ensures labels[r].action != RetryJob(j) {
      assert Lives(worlds, k, h, r);
      DoneUntilFinish(worlds, labels, k, h, r);
    }
  }

  // ---------------------------------------------------------------- the other writes

  /** A delivered message claims its job exactly when the job waits; the worker's copy has the flag as it is then. */
  lemma ClaimOutcome(worlds: seq<System>, labels: seq<SysLabel>, n: nat, m: Message, k: Id)
    requires IsSysRun(worlds, labels) && n < |labels| && SysStepAt(worlds, labels, n) && labels[n].action == Deliver(m, k)
    ensures var w, w', now := worlds[n], worlds[n + 1], labels[n].now;
            && w'.messages == w.messages && now >= m.eta
            && if m.job in w.jobs && w.jobs[m.job].status.Queued? then
                 && w'.jobs == w.jobs[m.job := w.jobs[m.job].(status := InProgress, startedAt := Some(now))]
                 && w'.workers == w.workers[k := Worker(m.job, w.jobs[m.job].emailSent, Claimed, false)]
               else w'.jobs == w.jobs && w'.workers == w.workers
  {
  }

  /** The requeue sends a message at once for every waiting confirmation job, for every waiting expiry job past its deadline, and for nothing else. */
  lemma RequeueOutcome(worlds: seq<System>, labels: seq<SysLabel>, n: nat)
    requires IsSysRun(worlds, labels) && n < |labels| && SysStepAt(worlds, labels, n) && labels[n].action == Requeue
    ensures var w, w', now := worlds[n], worlds[n + 1], labels[n].now;
            && w'.jobs == w.jobs && w'.workers == w.workers
            && (forall j :: j in w.jobs ==> w.jobs[j].booking in w.db.bookings)
            && forall m :: m in w'.messages <==>
                 || m in w.messages
                 || (m.eta == now && m.job in w.jobs && w.jobs[m.job].status.Queued? &&
                       (w.jobs[m.job].kind.Confirmation? || w.db.bookings[w.jobs[m.job].booking].expiresAt <= now))
  {
    RunJobsOk(worlds, labels, n);
    assert forall j :: j in worlds[n].jobs ==> JobOk(worlds[n].db, worlds[n].jobs[j]);
  }

  predicate StuckSince(job: Job, now: Time)
  {
    job.status.InProgress? && job.startedAt.Some? && now - job.startedAt.value > 300_000_000
  }

  /** The stuck reset puts back every job claimed more than five minutes ago, with a message each, and leaves every other job alone. */
  lemma ResetOutcome(worlds: seq<System>, labels: seq<SysLabel>, n: nat)
    requires IsSysRun(worlds, labels) && n < |labels| && SysStepAt(worlds, labels, n) && labels[n].action == ResetStuck
    ensures var w, w', now := worlds[n], worlds[n + 1], labels[n].now;
            && w'.workers == w.workers && w'.jobs.Keys == w.jobs.Keys
            && (forall j :: j in w.jobs ==>
                  w'.jobs[j] == if StuckSince(w.jobs[j], now) then w.jobs[j].(status := Queued) else w.jobs[j])
            && forall m :: m in w'.messages <==> m in w.messages || (m.eta == now && m.job in w.jobs && StuckSince(w.jobs[m.job], now))
  {
  }

  /** The manual retry's write makes the job as new, and sends a message at once. */
  lemma RetryOutcome(worlds: seq<System>, labels: seq<SysLabel>, n: nat, j: Id)
    requires IsSysRun(worlds, labels) && n < |labels| && SysStepAt(worlds, labels, n) && labels[n].action == RetryJob(j)
    ensures var w, w', now := worlds[n], worlds[n + 1], labels[n].now;
            && j in w.jobs && w'.jobs == w.jobs[j := Job(w.jobs[j].kind, w.jobs[j].booking, Queued, 0, None, false)]
            && w'.messages == w.messages + {Message(j, now)} && w'.workers == w.workers
  {
  }

  /** The retry was offered before it was made: some earlier look found the job given up, or claimed for more than five minutes. */
  lemma {:induction false} RetryWasOffered(worlds: seq<System>, labels: seq<SysLabel>, n: nat, j: Id) returns (m: nat)
    requires IsSysRun(worlds, labels) && n <= |labels| && j in worlds[n].retryReads
    ensures m < n && labels[m].action == ReadForRetry(j)
    ensures j in worlds[m].jobs && (worlds[m].jobs[j].status.GivenUp? || StuckSince(worlds[m].jobs[j], labels[m].now))
  {
    assert SysStepAt(worlds, labels, n - 1);
    if j in worlds[n - 1].retryReads {
      m := RetryWasOffered(worlds, labels, n - 1, j);
    } else {
      OfferOrigin(worlds[n - 1], labels[n - 1], worlds[n], j);
      m := n - 1;
    }
  }

  lemma OfferOrigin(w: System, l: SysLabel, w': System, j: Id)
    requires SysEnabled(w, l.action, l.now) && w' == SysApply(w, l.action, l.now) && j in w'.retryReads && j !in w.retryReads
    ensures l.action == ReadForRetry(j) && j in w.jobs && (w.jobs[j].status.GivenUp? || StuckSince(w.jobs[j], l.now))
  {
  }

  /** A confirmation handler touches no row; it writes the flag exactly when its mail goes out and the write is not lost. */
  lemma MailOutcomes(worlds: seq<System>, labels: seq<SysLabel>, n: nat, k: Id, outcome: MailOutcome)
    requires IsSysRun(worlds, labels) && n < |labels| && SysStepAt(worlds, labels, n) && labels[n].action == HandleConfirmation(k, outcome)
    ensures var w, w', now := worlds[n], worlds[n + 1], labels[n].now;
            && w'.db == w.db.(clock := now) && w'.messages == w.messages
            && k in w.workers && w.workers[k].job in w.jobs
            && w'.jobs == if outcome == Mailed(true) && !w.workers[k].sawEmailSent
                          then w.jobs[w.workers[k].job := w.jobs[w.workers[k].job].(emailSent := true)] else w.jobs
  {
  }

  /** An expiry handler that returns expires its own booking if that is pending or failed and due, releasing its seats, and changes nothing otherwise; one that raises changes nothing. */
  lemma ExpiryOutcome(worlds: seq<System>, labels: seq<SysLabel>, n: nat, k: Id, raises: bool)
    requires IsSysRun(worlds, labels) && n < |labels| && SysStepAt(worlds, labels, n) && labels[n].action == HandleExpiry(k, raises)
    ensures var w, w', now := worlds[n], worlds[n + 1], labels[n].now;
            && w'.jobs == w.jobs && w'.messages == w.messages
            && k in w.workers && w.workers[k].job in w.jobs
            && var b := w.jobs[w.workers[k].job].booking;
               && b in w.db.bookings
               && if !raises && IsDue(w.db.bookings[b], now)
                  then Becomes(w.db, w'.db, b, Expired, w.db.bookings[b].retryCount) && AllClaims(w'.db.claims, b, false)
                       && OthersUntouched(w.db, w'.db, b) && w'.db.payments == w.db.payments
                  else w'.db == w.db.(clock := now)
  {
    var w, w', now := worlds[n], worlds[n + 1], labels[n].now;
    var b := w.jobs[w.workers[k].job].booking;
    HandlerRows(w, k, raises, now);
    if !raises {
      if IsDue(w.db.bookings[b], now) { SweepDueRows(w.db, b, now, w'.db); } else { SweepOtherRows(w.db, b, now); }
    }
  }

  lemma HandlerRows(w: System, k: Id, raises: bool, now: Time)
    requires SysEnabled(w, HandleExpiry(k, raises), now)
    ensures var w', b := SysApply(w, HandleExpiry(k, raises), now), w.jobs[w.workers[k].job].booking;
            && w'.jobs == w.jobs && w'.messages == w.messages
            && w'.db == (if raises then w.db else Sweep(w.db, b, now)).(clock := now)
  {
  }

  // ---------------------------------------------------------------- what service calls schedule

  ghost predicate JobAdded(w: System, w': System, kind: Kind, b: Id, eta: Time)
  {
    && w'.jobs == w.jobs[w.nextJob := Job(kind, b, Queued, 0, None, false)] && w.nextJob !in w.jobs
    && w'.messages == w.messages + {Message(w.nextJob, eta)}
  }

  lemma CreationSchedules(w: System, a: Action, now: Time, after: System)
    requires JobsOk(w) && Enabled(w.db, a, now) && after == w.(db := Apply(w.db, a, now)) && a.CommitCreate?
    requires w.db.nextBooking !in w.db.bookings
    ensures var w' := Schedule(w, a, now, after);
            if w.db.nextBooking in after.db.bookings
            then JobAdded(w, w', Expiry, w.db.nextBooking, after.db.bookings[w.db.nextBooking].expiresAt)
            else w'.jobs == w.jobs && w'.messages == w.messages
  {
    NewRowIff(w.db, a.txn, now);
  }

  lemma NewRowIff(s: State, t: Id, now: Time)
    requires t in s.creates
    ensures var (s', reply) := FinishCreate(s, t, now);
            && (reply.Created? ==> s.nextBooking in s'.bookings && s'.bookings[s.nextBooking].expiresAt == now + HOLD_PERIOD)
            && (!reply.Created? ==> s'.bookings == s.bookings)
  {
  }

  lemma StepSchedules(w: System, a: Action, now: Time, after: System)
    requires SysEnabled(w, OnRows(a), now) && after == w.(db := Apply(w.db, a, now))
    ensures SysApply(w, OnRows(a), now) == Schedule(w, a, now, after) && Schedule(w, a, now, after).db == after.db
    ensures !Creates(w.db, a, now) && !StartsConfirmed(w.db, a, now) ==> Schedule(w, a, now, after) == after
  {
  }

  lemma FreshBookingId(s: State)
    requires Invariant.BookingsOk(s)
    ensures s.nextBooking !in s.bookings
  {
  }

  /**
    The jobs a service call leaves behind, in any run: a commit that creates a booking
    schedules its expiry for exactly its deadline; a payment that turns a booking confirmed
    schedules its mail at once; nothing else schedules anything.
   */
  lemma ScheduleOutcome(worlds: seq<System>, labels: seq<SysLabel>, n: nat, a: Action)
    requires IsSysRun(worlds, labels) && n < |labels| && SysStepAt(worlds, labels, n) && labels[n].action == OnRows(a)
    ensures var w, w', now, next := worlds[n], worlds[n + 1], labels[n].now, worlds[n].db.nextBooking;
            if next !in w.db.bookings && next in w'.db.bookings then JobAdded(w, w', Expiry, next, w'.db.bookings[next].expiresAt)
            else if a.PayBooking? && a.booking in w'.db.bookings && w'.db.bookings[a.booking].status.Confirmed? &&
                    !w.db.bookings[a.booking].status.Confirmed?
            then JobAdded(w, w', Confirmation, a.booking, now)
            else w'.jobs == w.jobs && w'.messages == w.messages
  {
    var w, now := worlds[n], labels[n].now;
    RunRowsOk(worlds, labels, n);
    var after := w.(db := Apply(w.db, a, now));
    FreshBookingId(w.db);
    StepSchedules(w, a, now, after);
    PaidWhenConfirmed(w.db, a, now, after.db, w.db.nextBooking);
    assert w.db.nextBooking in after.db.bookings.Keys <==> Creates(w.db, a, now);
    if a.CommitCreate? {
      CreationSchedules(w, a, now, after);
    } else if StartsConfirmed(w.db, a, now) {
      GuardNeverFires(worlds, labels, n, a);
    }
  }
}
