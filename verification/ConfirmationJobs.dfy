/** One confirmation job per paid booking, and how many mails it sends. */
module ConfirmationJobs {
  import opened Rows
  import opened Engine
  import opened Invariant
  import opened Preservation
  import opened Safety
  import opened Jobs
  import opened ExpiryJobs
  import opened JobRetries

  // ---------------------------------------------------------------- one job per booking and kind

  ghost predicate JobsMatchBookings(w: System)
  {
    && (forall i, j :: i in w.jobs && j in w.jobs && w.jobs[i].kind == w.jobs[j].kind && w.jobs[i].booking == w.jobs[j].booking ==> i == j)
    && (forall b :: HasJob(w.jobs, Confirmation, b) <==> PaidFor(w.db.payments, b))
    && (forall b :: HasJob(w.jobs, Expiry, b) <==> b in w.db.bookings)
  }

  lemma PayConfirms(s: State, p: Id, success: bool, now: Time, s': State, b: Id)
    requires BookingsOk(s) && s' == Pay(s, p, success, now).0.(clock := now)
    ensures PaidFor(s'.payments, b) <==> PaidFor(s.payments, b) || (BecomesConfirmed(s, s', p) && p == b)
    ensures BecomesConfirmed(s, s', p) ==> !PaidFor(s.payments, p)
    ensures s'.bookings.Keys == s.bookings.Keys
  {
    if p in s.bookings { assert BookingOk(s.bookings[p], PaymentOf(s, p), s.clock); }
  }

  lemma CreationAdds(s: State, t: Id, now: Time)
    requires HoldsLock(s.creates, t) && now > s.clock
    ensures var (s', reply) := FinishCreate(s, t, now);
            s'.payments == s.payments && s'.bookings.Keys == s.bookings.Keys + if reply.Created? then {s.nextBooking} else {}
  {
    var s' := FinishCreate(s, t, now).0.(clock := now);
    if InsertAllowed(s, s.creates[t]) {
      CommitCreateInserts(s, t, now, s');
      assert s'.bookings.Keys == s.bookings.Keys + {s.nextBooking};
    } else {
      CommitCreateRefused(s, t, now, s');
    }
  }

  lemma SweepAddsNone(s: State, b: Id, now: Time)
    requires b in s.bookings
    ensures Sweep(s, b, now).payments == s.payments && Sweep(s, b, now).bookings.Keys == s.bookings.Keys
  {
  }

  lemma CancelAddsNone(s: State, b: Id)
    requires b in s.bookings
    ensures var s' := SetStatusAndRelease(s, b, Cancelled);
            s'.payments == s.payments && s'.bookings.Keys == s.bookings.Keys
  {
  }

  /** Creating, sweeping and cancelling leave payments alone; only creating adds a booking. */
  lemma OtherBookingSteps(s: State, a: Action, now: Time, s': State)
    requires Enabled(s, a, now) && s' == Apply(s, a, now) && (a.CommitCreate? || a.SweepBooking? || a.CancelBooking?)
    ensures s'.payments == s.payments
    ensures s'.bookings.Keys == s.bookings.Keys + if Creates(s, a, now) then {s.nextBooking} else {}
  {
    match a {
      case CommitCreate(t) => CreationAdds(s, t, now);
      case SweepBooking(b) => SweepAddsNone(s, b, now);
      case CancelBooking(b) => CancelAddsNone(s, b);
    }
  }

  ghost predicate Creates(s: State, a: Action, now: Time)
    requires Enabled(s, a, now)
  {
    a.CommitCreate? && FinishCreate(s, a.txn, now).1.Created?
  }

  /** A booking is paid in exactly the steps in which it becomes confirmed, and only once; only creation adds one. */
  lemma PaidWhenConfirmed(s: State, a: Action, now: Time, s': State, b: Id)
    requires BookingsOk(s) && Enabled(s, a, now) && s' == Apply(s, a, now)
    ensures PaidFor(s'.payments, b) <==> PaidFor(s.payments, b) || (StartsConfirmed(s, a, now) && a.booking == b)
    ensures StartsConfirmed(s, a, now) ==> !PaidFor(s.payments, a.booking)
    ensures s'.bookings.Keys == s.bookings.Keys + if Creates(s, a, now) then {s.nextBooking} else {}
  {
    if a.PayBooking? {
      PayConfirms(s, a.booking, a.success, now, s', b);
    } else if TouchesBookings(a) {
      OtherBookingSteps(s, a, now, s');
    } else {
      PassiveStep(s, a, now, s');
    }
  }

  lemma BookedWhenCreated(s: State, a: Action, now: Time, s': State, b: Id)
    requires ClaimsRefer(s) && BookingsOk(s) && Enabled(s, a, now) && s' == Apply(s, a, now)
    ensures b in s'.bookings <==> b in s.bookings || (Creates(s, a, now) && b == s.nextBooking)
    ensures s.nextBooking !in s.bookings
  {
    NewBookingIsUnclaimed(s);
    PaidWhenConfirmed(s, a, now, s', b);
    assert b in s'.bookings.Keys <==> b in s.bookings.Keys || (Creates(s, a, now) && b == s.nextBooking);
  }

  lemma AddedJob(w: System, kind: Kind, b: Id, eta: Time, kind': Kind, b': Id)
    requires forall j :: j in w.jobs ==> j < w.nextJob
    ensures HasJob(AddJob(w, kind, b, eta).jobs, kind', b') <==> HasJob(w.jobs, kind', b') || (kind == kind' && b == b')
  {
    var jobs' := AddJob(w, kind, b, eta).jobs;
    if HasJob(w.jobs, kind', b') {
      var j :| j in w.jobs && w.jobs[j].kind == kind' && w.jobs[j].booking == b';
      assert j in jobs' && jobs'[j] == w.jobs[j];
    }
    assert w.nextJob in jobs' && jobs'[w.nextJob].kind == kind && jobs'[w.nextJob].booking == b;
  }

  /** The jobs after a step, with no mention of the guard against a second confirmation job. */
  lemma ScheduledJobs(w: System, a: Action, now: Time, after: System, kind: Kind, b: Id)
    requires ClaimsRefer(w.db) && BookingsOk(w.db) && JobsOk(w) && JobsMatchBookings(w)
    requires Enabled(w.db, a, now) && after == w.(db := Apply(w.db, a, now))
    ensures StartsConfirmed(w.db, a, now) ==> !HasJob(w.jobs, Confirmation, a.booking)
    ensures HasJob(Schedule(w, a, now, after).jobs, kind, b) <==>
              || HasJob(w.jobs, kind, b)
              || (kind.Expiry? && Creates(w.db, a, now) && b == w.db.nextBooking)
              || (kind.Confirmation? && StartsConfirmed(w.db, a, now) && b == a.booking)
  {
    if StartsConfirmed(w.db, a, now) {
      PaidWhenConfirmed(w.db, a, now, after.db, a.booking);
      AddedJob(after, Confirmation, a.booking, now, kind, b);
    } else if Creates(w.db, a, now) {
      AddedJob(after, Expiry, w.db.nextBooking, now + HOLD_PERIOD, kind, b);
    }
  }

  lemma ScheduleKeepsUnique(w: System, a: Action, now: Time, after: System)
    requires ClaimsRefer(w.db) && BookingsOk(w.db) && JobsOk(w) && JobsMatchBookings(w)
    requires Enabled(w.db, a, now) && after == w.(db := Apply(w.db, a, now))
    ensures var jobs' := Schedule(w, a, now, after).jobs;
            forall i, j :: i in jobs' && j in jobs' && jobs'[i].kind == jobs'[j].kind && jobs'[i].booking == jobs'[j].booking ==> i == j
  {
    ScheduledJobs(w, a, now, after, Confirmation, 0);
    if Creates(w.db, a, now) {
      BookedWhenCreated(w.db, a, now, after.db, w.db.nextBooking);
      assert !HasJob(w.jobs, Expiry, w.db.nextBooking);
    }
  }

  lemma ScheduleKeepsMatch(w: System, a: Action, now: Time, after: System)
    requires ClaimsRefer(w.db) && BookingsOk(w.db) && JobsOk(w) && JobsMatchBookings(w)
    requires Enabled(w.db, a, now) && after == w.(db := Apply(w.db, a, now))
    ensures JobsMatchBookings(Schedule(w, a, now, after))
  {
    var w' := Schedule(w, a, now, after);
    ScheduleKeepsUnique(w, a, now, after);
    assert w'.db == after.db;
    forall b ensures HasJob(w'.jobs, Confirmation, b) <==> PaidFor(w'.db.payments, b) {
      ScheduledJobs(w, a, now, after, Confirmation, b);
      PaidWhenConfirmed(w.db, a, now, after.db, b);
    }
    forall b ensures HasJob(w'.jobs, Expiry, b) <==> b in w'.db.bookings {
      ScheduledJobs(w, a, now, after, Expiry, b);
      BookedWhenCreated(w.db, a, now, after.db, b);
    }
  }

  /** What every job is about stays; no other step adds or drops one. */
  lemma SameSubjects(w: System, w': System)
    requires JobsMatchBookings(w) && SameJobs(w, w')
    requires w'.db.bookings.Keys == w.db.bookings.Keys && w'.db.payments == w.db.payments
    ensures JobsMatchBookings(w')
  {
    forall kind, b ensures HasJob(w'.jobs, kind, b) <==> HasJob(w.jobs, kind, b) {
      if HasJob(w'.jobs, kind, b) {
        var j :| j in w'.jobs && w'.jobs[j].kind == kind && w'.jobs[j].booking == b;
        assert j in w.jobs.Keys;
      }
      if HasJob(w.jobs, kind, b) {
        var j :| j in w.jobs && w.jobs[j].kind == kind && w.jobs[j].booking == b;
        assert j in w'.jobs.Keys;
      }
    }
    forall i, j | i in w'.jobs && j in w'.jobs && w'.jobs[i].kind == w'.jobs[j].kind && w'.jobs[i].booking == w'.jobs[j].booking
      ensures i == j
    {
      assert i in w.jobs.Keys && j in w.jobs.Keys;
    }
    forall b ensures b in w'.db.bookings <==> b in w.db.bookings {
      assert b in w'.db.bookings.Keys <==> b in w.db.bookings.Keys;
    }
  }

  ghost predicate SameJobs(w: System, w': System)
  {
    && w'.jobs.Keys == w.jobs.Keys
    && (forall j :: j in w.jobs ==> w'.jobs[j].kind == w.jobs[j].kind && w'.jobs[j].booking == w.jobs[j].booking)
  }

  lemma WorkerKeepsSubjects(w: System, a: SysAction, now: Time, after: System)
    requires SysEnabled(w, a, now) && after == w.(db := after.db)
    requires a.Deliver? || a.HandleExpiry? || a.HandleConfirmation? || a.Finish? || a.Crash?
    ensures SameJobs(w, JobStep(w, a, now, after)) && JobStep(w, a, now, after).db == after.db
  {
  }

  lemma OperatorKeepsSubjects(w: System, a: SysAction, now: Time, after: System)
    requires SysEnabled(w, a, now) && after == w.(db := after.db)
    requires a.Requeue? || a.ResetStuck? || a.ReadForRetry? || a.RetryJob?
    ensures SameJobs(w, JobStep(w, a, now, after)) && JobStep(w, a, now, after).db == after.db
  {
  }

  lemma RowsOfOtherSteps(w: System, a: SysAction, now: Time)
    requires SysEnabled(w, a, now) && !a.OnRows?
    ensures RowsAfter(w, a, now).bookings.Keys == w.db.bookings.Keys && RowsAfter(w, a, now).payments == w.db.payments
  {
    if a.HandleExpiry? { SweepAddsNone(w.db, w.jobs[w.workers[a.worker].job].booking, now); }
  }

  lemma OtherSteps(w: System, a: SysAction, now: Time, w': System)
    requires SysEnabled(w, a, now) && w' == SysApply(w, a, now) && !a.OnRows?
    ensures SameJobs(w, w')
    ensures w'.db.bookings.Keys == w.db.bookings.Keys && w'.db.payments == w.db.payments
  {
    var after := w.(db := RowsAfter(w, a, now));
    RowsOfOtherSteps(w, a, now);
    if a.Requeue? || a.ResetStuck? || a.ReadForRetry? || a.RetryJob? {
      OperatorKeepsSubjects(w, a, now, after);
    } else {
      WorkerKeepsSubjects(w, a, now, after);
    }
  }

  lemma StepKeepsMatch(w: System, l: SysLabel, w': System)
    requires ClaimsRefer(w.db) && BookingsOk(w.db) && JobsOk(w) && JobsMatchBookings(w)
    requires SysEnabled(w, l.action, l.now) && w' == SysApply(w, l.action, l.now)
    ensures JobsMatchBookings(w')
  {
    if l.action.OnRows? {
      ScheduleKeepsMatch(w, l.action.action, l.now, w.(db := RowsAfter(w, l.action, l.now)));
    } else {
      OtherSteps(w, l.action, l.now, w');
      SameSubjects(w, w');
    }
  }

  lemma RunRowsOk(worlds: seq<System>, labels: seq<SysLabel>, n: nat)
    requires IsSysRun(worlds, labels) && n < |worlds|
    ensures ClaimsRefer(worlds[n].db) && BookingsOk(worlds[n].db) && JobsOk(worlds[n])
  {
    SysRunKeepsInv(worlds, labels, n);
  }

  /**
    In every state of every run each booking has exactly one expiry job, and a booking has a
    confirmation job, exactly one, if and only if it was paid for.
   */
  lemma {:induction false} OneJobPerBooking(worlds: seq<System>, labels: seq<SysLabel>, n: nat)
    requires IsSysRun(worlds, labels) && n < |worlds|
    ensures JobsMatchBookings(worlds[n])
  {
    if n > 0 {
      OneJobPerBooking(worlds, labels, n - 1);
      RunRowsOk(worlds, labels, n - 1);
      assert SysStepAt(worlds, labels, n - 1);
      StepKeepsMatch(worlds[n - 1], labels[n - 1], worlds[n]);
    }
  }

  /** The guard against a second confirmation job never fires. */
  lemma GuardNeverFires(worlds: seq<System>, labels: seq<SysLabel>, i: nat, a: Action)
    requires IsSysRun(worlds, labels) && i < |labels| && SysStepAt(worlds, labels, i) && labels[i].action == OnRows(a)
    requires StartsConfirmed(worlds[i].db, a, labels[i].now)
    ensures !HasJob(worlds[i].jobs, Confirmation, a.booking) && HasJob(worlds[i + 1].jobs, Confirmation, a.booking)
  {
    OneJobPerBooking(worlds, labels, i);
    RunRowsOk(worlds, labels, i);
    var w := worlds[i];
    ScheduledJobs(w, a, labels[i].now, w.(db := RowsAfter(w, labels[i].action, labels[i].now)), Confirmation, a.booking);
  }

  // ---------------------------------------------------------------- mails

  ghost predicate MailsAt(w: System, l: SysLabel, j: Id)
  {
    && l.action.HandleConfirmation? && l.action.worker in w.workers && w.workers[l.action.worker].job == j
    && Sends(w, l.action.worker, l.action.outcome)
  }

  /** Mails job `j` has put on the wire in the first `n` steps. */
  ghost function Mails(worlds: seq<System>, labels: seq<SysLabel>, j: Id, n: nat): nat
    requires n <= |labels| < |worlds|
  {
    if n == 0 then 0
    else Mails(worlds, labels, j, n - 1) + if MailsAt(worlds[n - 1], labels[n - 1], j) then 1 else 0
  }

  predicate Unflagged(w: System, k: Id, j: Id)
  {
    k in w.workers && w.workers[k].job == j && w.workers[k].unflagged
  }

  /** The step forgets that `j` has mailed: a manual retry, or the loss of a worker that could not write the flag. */
  ghost predicate Forgets(w: System, l: SysLabel, j: Id)
  {
    || l.action == RetryJob(j)
    || (l.action.Crash? && Unflagged(w, l.action.worker, j))
    || (l.action.Finish? && l.action.writeFails && Unflagged(w, l.action.worker, j))
  }

  ghost predicate RememberingRun(worlds: seq<System>, labels: seq<SysLabel>, j: Id)
    requires |labels| < |worlds|
  {
    forall i: nat :: i < |labels| ==> !Forgets(worlds[i], labels[i], j)
  }

  /** Somewhere it is recorded that the mail went out, and whoever is about to handle the job knows. */
  ghost predicate Remembers(w: System, j: Id)
  {
    && j in w.jobs
    && (w.jobs[j].emailSent || w.jobs[j].status.Completed? || exists k :: Unflagged(w, k, j) && w.workers[k].progress == Done(true))
    && (forall k :: k in w.workers && w.workers[k].job == j && w.workers[k].progress.Claimed? ==> w.workers[k].sawEmailSent)
  }

  lemma SendingRemembers(w: System, l: SysLabel, w': System, j: Id)
    requires ClaimedOnce(w, j) && SysEnabled(w, l.action, l.now) && w' == SysApply(w, l.action, l.now)
    requires MailsAt(w, l, j)
    ensures Remembers(w', j)
  {
    var k := l.action.worker;
    assert l.action.outcome == Mailed(false) ==> Unflagged(w', k, j);
    assert forall m :: m in w.workers && w.workers[m].job == j ==> m == k;
  }

  lemma FinishRemembers(w: System, k: Id, writeFails: bool, now: Time, j: Id)
    requires ClaimedOnce(w, j) && Remembers(w, j)
    requires k in w.workers && w.workers[k].progress.Done? && w.workers[k].job in w.jobs
    requires !(writeFails && Unflagged(w, k, j))
    ensures Remembers(FinishRun(w, k, writeFails, now), j)
  {
    var w' := FinishRun(w, k, writeFails, now);
    assert w'.workers == w.workers - {k};
    if w.workers[k].job == j {
      assert !Unclaimed(w, j);
    } else if exists m :: Unflagged(w, m, j) && w.workers[m].progress == Done(true) {
      var m :| Unflagged(w, m, j) && w.workers[m].progress == Done(true);
      assert Unflagged(w', m, j) && w'.workers[m].progress == Done(true);
    }
  }

  lemma TakeRemembers(w: System, m: Message, k: Id, now: Time, j: Id)
    requires ClaimedOnce(w, j) && Remembers(w, j) && k !in w.workers
    ensures Remembers(TakeJob(w, m, k, now), j)
  {
    var w' := TakeJob(w, m, k, now);
    if exists i :: Unflagged(w, i, j) && w.workers[i].progress == Done(true) {
      var i :| Unflagged(w, i, j) && w.workers[i].progress == Done(true);
      assert Unflagged(w', i, j) && w'.workers[i].progress == Done(true);
      assert !Unclaimed(w, j);
    }
  }

  /** The workers stay, and the job keeps its flag and, if completed, its status. */
  lemma UntouchedRemembers(w: System, w': System, j: Id)
    requires Remembers(w, j) && w'.workers == w.workers && j in w'.jobs
    requires w.jobs[j].emailSent ==> w'.jobs[j].emailSent
    requires w.jobs[j].status.Completed? ==> w'.jobs[j].status.Completed?
    ensures Remembers(w', j)
  {
    if exists k :: Unflagged(w, k, j) && w.workers[k].progress == Done(true) {
      var k :| Unflagged(w, k, j) && w.workers[k].progress == Done(true);
      assert Unflagged(w', k, j);
    }
  }

  lemma ProgressRemembers(w: System, w': System, k: Id, j: Id)
    requires Remembers(w, j) && k in w.workers && k in w'.workers && w.workers[k].progress.Claimed?
    requires w'.workers == w.workers[k := w'.workers[k]] && w'.workers[k].progress.Done? && w'.workers[k].job == w.workers[k].job
    requires j in w'.jobs && w'.jobs[j].status == w.jobs[j].status && (w.jobs[j].emailSent ==> w'.jobs[j].emailSent)
    ensures Remembers(w', j)
  {
    if exists m :: Unflagged(w, m, j) && w.workers[m].progress == Done(true) {
      var m :| Unflagged(w, m, j) && w.workers[m].progress == Done(true);
      assert Unflagged(w', m, j) && w'.workers[m].progress == Done(true);
    }
  }

  lemma CrashRemembers(w: System, k: Id, j: Id)
    requires Remembers(w, j) && !Unflagged(w, k, j)
    ensures Remembers(w.(workers := w.workers - {k}), j)
  {
    var w' := w.(workers := w.workers - {k});
    if exists m :: Unflagged(w, m, j) && w.workers[m].progress == Done(true) {
      var m :| Unflagged(w, m, j) && w.workers[m].progress == Done(true);
      assert Unflagged(w', m, j) && w'.workers[m].progress == Done(true);
    }
  }

  lemma RecoveryRemembers(w: System, l: SysLabel, after: System, j: Id)
    requires SysEnabled(w, l.action, l.now) && after == w.(db := after.db)
    requires l.action.Requeue? || l.action.ResetStuck? || l.action.RetryJob? || l.action.ReadForRetry?
    requires Remembers(w, j) && l.action != RetryJob(j)
    ensures Remembers(JobStep(w, l.action, l.now, after), j)
  {
    UntouchedRemembers(w, JobStep(w, l.action, l.now, after), j);
  }

  lemma DoneBeforeFinish(w: System, k: Id, j: Id, after: System)
    requires after == w.(db := after.db)
    ensures Unflagged(after, k, j) == Unflagged(w, k, j)
    ensures ClaimedOnce(w, j) ==> ClaimedOnce(after, j)
    ensures Remembers(w, j) ==> Remembers(after, j)
  {
    assert Unclaimed(after, j) == Unclaimed(w, j);
    if Remembers(w, j) { UntouchedRemembers(w, after, j); }
  }

  lemma HandlerRemembers(w: System, l: SysLabel, w': System, j: Id)
    requires Remembers(w, j) && SysEnabled(w, l.action, l.now) && w' == SysApply(w, l.action, l.now)
    requires l.action.HandleExpiry? || l.action.HandleConfirmation?
    ensures Remembers(w', j) && !MailsAt(w, l, j)
  {
    ProgressRemembers(w, w', l.action.worker, j);
  }

  lemma WorkerRemembers(w: System, l: SysLabel, after: System, j: Id)
    requires SysEnabled(w, l.action, l.now) && after == w.(db := after.db)
    requires ClaimedOnce(w, j) && !Forgets(w, l, j) && Remembers(w, j)
    requires l.action.Deliver? || l.action.Finish? || l.action.Crash?
    ensures Remembers(JobStep(w, l.action, l.now, after), j)
  {
    match l.action {
      case Deliver(m, k) =>
        DoneBeforeFinish(w, k, j, after);
        TakeRemembers(after, m, k, l.now, j);
      case Finish(k, writeFails) =>
        DoneBeforeFinish(w, k, j, after);
        FinishRemembers(after, k, writeFails, l.now, j);
      case Crash(k) =>
        DoneBeforeFinish(w, k, j, after);
        CrashRemembers(after, k, j);
    }
  }

  lemma ScheduleRemembers(w: System, a: Action, now: Time, after: System, j: Id)
    requires JobsOk(w) && Remembers(w, j) && Enabled(w.db, a, now) && after == w.(db := after.db)
    ensures Remembers(Schedule(w, a, now, after), j)
  {
    ScheduledRetryCount(w, a, now, after, j);
    UntouchedRemembers(w, Schedule(w, a, now, after), j);
  }

  lemma StepRemembers(w: System, l: SysLabel, w': System, j: Id)
    requires JobsOk(w) && ClaimedOnce(w, j) && !Forgets(w, l, j) && Remembers(w, j)
    requires SysEnabled(w, l.action, l.now) && w' == SysApply(w, l.action, l.now)
    ensures Remembers(w', j) && !MailsAt(w, l, j)
  {
    var after := w.(db := RowsAfter(w, l.action, l.now));
    if l.action.OnRows? {
      ScheduleRemembers(w, l.action.action, l.now, after, j);
    } else if l.action.HandleExpiry? || l.action.HandleConfirmation? {
      HandlerRemembers(w, l, w', j);
    } else if l.action.Deliver? || l.action.Finish? || l.action.Crash? {
      WorkerRemembers(w, l, after, j);
    } else {
      RecoveryRemembers(w, l, after, j);
    }
  }

  lemma {:induction false} MailedIsRemembered(worlds: seq<System>, labels: seq<SysLabel>, j: Id, n: nat)
    requires IsSysRun(worlds, labels) && CarefulRun(worlds, labels, j) && RememberingRun(worlds, labels, j) && n <= |labels|
    ensures Mails(worlds, labels, j, n) <= 1
    ensures Mails(worlds, labels, j, n) == 1 ==> Remembers(worlds[n], j)
  {
    if n > 0 {
      MailedIsRemembered(worlds, labels, j, n - 1);
      RunJobsOk(worlds, labels, n - 1);
      OneWorkerPerJob(worlds, labels, j, n - 1);
      assert SysStepAt(worlds, labels, n - 1) && !Forgets(worlds[n - 1], labels[n - 1], j);
      if Remembers(worlds[n - 1], j) {
        StepRemembers(worlds[n - 1], labels[n - 1], worlds[n], j);
      } else if MailsAt(worlds[n - 1], labels[n - 1], j) {
        SendingRemembers(worlds[n - 1], labels[n - 1], worlds[n], j);
      }
    }
  }

  /**
    A confirmation job sends at most one mail, however often it is delivered, fails or is
    reset after a crash: it takes a manual retry, or a worker that mailed but neither wrote
    the flag nor completed the job, to send a second.
   */
  lemma OneMailPerJob(worlds: seq<System>, labels: seq<SysLabel>, j: Id, n: nat)
    requires IsSysRun(worlds, labels) && CarefulRun(worlds, labels, j) && RememberingRun(worlds, labels, j) && n <= |labels|
    ensures Mails(worlds, labels, j, n) <= 1
  {
    MailedIsRemembered(worlds, labels, j, n);
  }

  // ---------------------------------------------------------------- exactly when it mails again

  /** A mail of `j` goes out and its flag is written. */
  ghost predicate FlagsAt(w: System, l: SysLabel, j: Id)
  {
    MailsAt(w, l, j) && l.action.outcome == Mailed(true)
  }

  ghost predicate NoRetryBetween(labels: seq<SysLabel>, j: Id, lo: int, hi: int)
  {
    forall r :: lo < r < hi && 0 <= r < |labels| ==> labels[r].action != RetryJob(j)
  }

  /** Some mail of `j` before step `n` wrote its flag, and no manual retry has cleared it since. */
  ghost predicate Flagged(worlds: seq<System>, labels: seq<SysLabel>, j: Id, n: nat)
    requires n <= |labels| < |worlds|
  {
    exists i :: 0 <= i < n && FlagsAt(worlds[i], labels[i], j) && NoRetryBetween(labels, j, i, n)
  }

  ghost predicate Flag(w: System, j: Id) { j in w.jobs && w.jobs[j].emailSent }

  lemma HandlerWritesFlag(w: System, l: SysLabel, after: System, j: Id)
    requires SysEnabled(w, l.action, l.now) && after == w.(db := after.db) && l.action.HandleConfirmation?
    ensures Flag(JobStep(w, l.action, l.now, after), j) <==> FlagsAt(w, l, j) || Flag(w, j)
  {
  }

  lemma OthersKeepFlag(w: System, l: SysLabel, after: System, j: Id)
    requires SysEnabled(w, l.action, l.now) && after == w.(db := after.db)
    requires l.action.Deliver? || l.action.HandleExpiry? || l.action.Finish? || l.action.Crash? || l.action.Requeue? ||
             l.action.ResetStuck? || l.action.ReadForRetry? || l.action.RetryJob?
    ensures Flag(JobStep(w, l.action, l.now, after), j) <==> l.action != RetryJob(j) && Flag(w, j)
  {
  }

  /** The three ways of a flag: a flagged mail sets it, a manual retry clears it, everything else leaves it. */
  lemma StepWritesFlag(w: System, l: SysLabel, w': System, j: Id)
    requires JobsOk(w) && SysEnabled(w, l.action, l.now) && w' == SysApply(w, l.action, l.now)
    ensures Flag(w', j) <==> FlagsAt(w, l, j) || (l.action != RetryJob(j) && Flag(w, j))
  {
    var after := w.(db := RowsAfter(w, l.action, l.now));
    if l.action.OnRows? {
      ScheduledRetryCount(w, l.action.action, l.now, after, j);
      ScheduledFlag(w, l.action.action, l.now, after, j);
    } else if l.action.HandleConfirmation? {
      HandlerWritesFlag(w, l, after, j);
    } else {
      OthersKeepFlag(w, l, after, j);
    }
  }

  lemma ScheduledFlag(w: System, a: Action, now: Time, after: System, j: Id)
    requires Enabled(w.db, a, now) && after == w.(db := after.db)
    ensures j !in w.jobs ==> !Flag(Schedule(w, a, now, after), j)
  {
  }

  lemma FlaggedStep(worlds: seq<System>, labels: seq<SysLabel>, j: Id, n: nat)
    requires 0 < n <= |labels| < |worlds|
    ensures Flagged(worlds, labels, j, n) <==>
              FlagsAt(worlds[n - 1], labels[n - 1], j) || (labels[n - 1].action != RetryJob(j) && Flagged(worlds, labels, j, n - 1))
  {
    if FlagsAt(worlds[n - 1], labels[n - 1], j) {
      assert NoRetryBetween(labels, j, n - 1, n);
    }
    if Flagged(worlds, labels, j, n) && !FlagsAt(worlds[n - 1], labels[n - 1], j) {
      var i :| 0 <= i < n && FlagsAt(worlds[i], labels[i], j) && NoRetryBetween(labels, j, i, n);
      assert NoRetryBetween(labels, j, i, n - 1);
    }
    if labels[n - 1].action != RetryJob(j) && Flagged(worlds, labels, j, n - 1) {
      var i :| 0 <= i < n - 1 && FlagsAt(worlds[i], labels[i], j) && NoRetryBetween(labels, j, i, n - 1);
      assert NoRetryBetween(labels, j, i, n);
    }
  }

  /** In every run the row's flag says exactly whether some mail wrote it since the last manual retry. */
  lemma {:induction false} FlagTellsMails(worlds: seq<System>, labels: seq<SysLabel>, j: Id, n: nat)
    requires IsSysRun(worlds, labels) && n <= |labels|
    ensures Flag(worlds[n], j) <==> Flagged(worlds, labels, j, n)
  {
    if n > 0 {
      FlagTellsMails(worlds, labels, j, n - 1);
      RunJobsOk(worlds, labels, n - 1);
      assert SysStepAt(worlds, labels, n - 1);
      StepWritesFlag(worlds[n - 1], labels[n - 1], worlds[n], j);
      FlaggedStep(worlds, labels, j, n);
    }
  }

  ghost predicate ClaimsAt(w: System, l: SysLabel, k: Id, j: Id)
  {
    && l.action.Deliver? && l.action.worker == k && l.action.message.job == j
    && k !in w.workers && j in w.jobs && w.jobs[j].status.Queued?
  }

  /** The worker does not end or die in between. */
  ghost predicate Lives(worlds: seq<System>, k: Id, lo: nat, hi: nat)
  {
    forall i: nat :: lo < i <= hi && i < |worlds| ==> k in worlds[i].workers
  }

  lemma WorkerKeepsCopy(w: System, l: SysLabel, w': System, k: Id)
    requires SysEnabled(w, l.action, l.now) && w' == SysApply(w, l.action, l.now) && k in w.workers && k in w'.workers
    ensures w'.workers[k].job == w.workers[k].job && w'.workers[k].sawEmailSent == w.workers[k].sawEmailSent
  {
  }

  lemma {:induction false} CopyStays(worlds: seq<System>, labels: seq<SysLabel>, k: Id, j: Id, n: nat, m: nat)
    requires IsSysRun(worlds, labels) && n < m <= |labels| && ClaimsAt(worlds[n], labels[n], k, j) && Lives(worlds, k, n, m)
    ensures k in worlds[m].workers && worlds[m].workers[k].job == j
    ensures worlds[m].workers[k].sawEmailSent == Flag(worlds[n], j)
  {
    assert SysStepAt(worlds, labels, m - 1);
    if m > n + 1 {
      CopyStays(worlds, labels, k, j, n, m - 1);
      WorkerKeepsCopy(worlds[m - 1], labels[m - 1], worlds[m], k);
    }
  }

  /**
    However a job came to be claimed again, after a failed write, a crash, a manual retry or
    a stuck reset of a worker that still lives: when that claim's handler gets to the mail
    server, it mails if and only if no mail had written its flag between the last manual
    retry and the claim. What happens to the flag after the claim does not matter.
   */
  lemma MailsAgainIff(worlds: seq<System>, labels: seq<SysLabel>, j: Id, k: Id, n: nat, m: nat, saved: bool)
    requires IsSysRun(worlds, labels) && n < m < |labels| && ClaimsAt(worlds[n], labels[n], k, j) && Lives(worlds, k, n, m)
    requires labels[m].action == HandleConfirmation(k, Mailed(saved))
    ensures MailsAt(worlds[m], labels[m], j) <==> !Flagged(worlds, labels, j, n)
  {
    CopyStays(worlds, labels, k, j, n, m);
    FlagTellsMails(worlds, labels, j, n);
  }
}
