/** No job is ever lost: from wherever a run has left it, the requeue, the stuck reset or the manual retry brings it to its end. */
module JobRecovery {
  import opened Rows
  import opened Jobs
  import opened ExpiryJobs
  import opened JobRetries
  import opened SlowWorker

  // ---------------------------------------------------------------- a job in progress has a start

  ghost predicate StartsKnown(w: System)
  {
    forall j :: j in w.jobs && w.jobs[j].status.InProgress? ==> w.jobs[j].startedAt.Some?
  }

  lemma StepKeepsStarts(w: System, l: SysLabel, w': System)
    requires StartsKnown(w) && SysEnabled(w, l.action, l.now) && w' == SysApply(w, l.action, l.now)
    ensures StartsKnown(w')
  {
  }

  lemma {:induction false} RunStartsKnown(worlds: seq<System>, labels: seq<SysLabel>, n: nat)
    requires IsSysRun(worlds, labels) && n < |worlds|
    ensures StartsKnown(worlds[n])
  {
    if n > 0 {
      RunStartsKnown(worlds, labels, n - 1);
      assert SysStepAt(worlds, labels, n - 1);
      StepKeepsStarts(worlds[n - 1], labels[n - 1], worlds[n]);
    }
  }

  // ---------------------------------------------------------------- one step each

  function TimeFrom(w: System, at: Time): (t: Time)
    ensures t > w.db.clock && t >= at
  {
    if at > w.db.clock then at else w.db.clock + 1
  }

  lemma {:induction false} FreshWorker(used: set<Id>) returns (k: Id)
    ensures forall x :: x in used ==> x < k
    decreases |used|
  {
    k := 0;
    if used != {} {
      var x :| x in used;
      var rest := used - {x};
      k := FreshWorker(rest);
      if k <= x { k := x + 1; }
      assert forall y :: y in used ==> y == x || y in rest;
    }
  }

  /** The job as before, but for its status and what goes with that. */
  predicate StillFor(w: System, w': System, j: Id, status: JobStatus)
  {
    && j in w.jobs && j in w'.jobs && w'.jobs[j].status == status
    && w'.jobs[j].kind == w.jobs[j].kind && w'.jobs[j].booking == w.jobs[j].booking && w'.db.bookings == w.db.bookings
  }

  lemma ResetWaits(w: System, j: Id) returns (now: Time, w': System)
    requires StartsKnown(w) && j in w.jobs && w.jobs[j].status.InProgress?
    ensures SysLeads(w, ResetStuck, now, w') && StillFor(w, w', j, Queued)
  {
    now := TimeFrom(w, w.jobs[j].startedAt.value + STUCK_AFTER + 1);
    w' := SysApply(w, ResetStuck, now);
  }

  lemma ReadOffers(w: System, j: Id) returns (now: Time, w': System)
    requires j in w.jobs && w.jobs[j].status.GivenUp?
    ensures SysLeads(w, ReadForRetry(j), now, w') && w'.jobs == w.jobs && w'.db.bookings == w.db.bookings && j in w'.retryReads
  {
    now := TimeFrom(w, 0);
    w' := SysApply(w, ReadForRetry(j), now);
  }

  lemma RetryWaits(w: System, j: Id) returns (now: Time, w': System)
    requires j in w.jobs && j in w.retryReads
    ensures SysLeads(w, RetryJob(j), now, w') && StillFor(w, w', j, Queued)
  {
    now := TimeFrom(w, 0);
    w' := SysApply(w, RetryJob(j), now);
  }

  lemma RequeueSends(w: System, j: Id) returns (now: Time, w': System)
    requires j in w.jobs && w.jobs[j].status.Queued? && w.jobs[j].booking in w.db.bookings
    ensures SysLeads(w, Requeue, now, w') && StillFor(w, w', j, Queued) && Message(j, now) in w'.messages && now == w'.db.clock
  {
    now := TimeFrom(w, w.db.bookings[w.jobs[j].booking].expiresAt);
    w' := SysApply(w, Requeue, now);
    assert Due(w.(db := w'.db), j, now);
  }

  lemma DeliveryClaims(w: System, j: Id, sent: Time) returns (k: Id, now: Time, w': System)
    requires j in w.jobs && w.jobs[j].status.Queued? && Message(j, sent) in w.messages && sent <= w.db.clock
    ensures SysLeads(w, Deliver(Message(j, sent), k), now, w') && StillFor(w, w', j, InProgress)
    ensures k in w'.workers && w'.workers[k].job == j && w'.workers[k].progress.Claimed?
  {
    k := FreshWorker(w.workers.Keys);
    now := TimeFrom(w, sent);
    w' := SysApply(w, Deliver(Message(j, sent), k), now);
  }

  /** The handler's step when all goes well. */
  function Handling(kind: Kind, k: Id): SysAction
  {
    if kind.Expiry? then HandleExpiry(k, false) else HandleConfirmation(k, NotConfigured)
  }

  lemma HandlerReturns(w: System, j: Id, k: Id) returns (now: Time, w': System)
    requires j in w.jobs && w.jobs[j].booking in w.db.bookings
    requires k in w.workers && w.workers[k].job == j && w.workers[k].progress.Claimed?
    ensures SysLeads(w, Handling(w.jobs[j].kind, k), now, w') && w'.jobs == w.jobs
    ensures k in w'.workers && w'.workers[k].job == j && w'.workers[k].progress == Done(true)
  {
    now := TimeFrom(w, 0);
    w' := SysApply(w, Handling(w.jobs[j].kind, k), now);
  }

  lemma FinishEnds(w: System, j: Id, k: Id) returns (now: Time, w': System)
    requires j in w.jobs && k in w.workers && w.workers[k].job == j && w.workers[k].progress == Done(true)
    ensures SysLeads(w, Finish(k, false), now, w') && IsCompleted(w', j)
  {
    now := TimeFrom(w, 0);
    w' := SysApply(w, Finish(k, false), now);
  }

  // ---------------------------------------------------------------- together

  /** The longer run starts with the shorter, and takes no manual retry after it. */
  ghost predicate GoesOnUnaided(worlds: seq<System>, labels: seq<SysLabel>, worlds': seq<System>, labels': seq<SysLabel>)
  {
    && worlds <= worlds' && labels <= labels'
    && forall i :: |labels| <= i < |labels'| ==> !labels'[i].action.RetryJob?
  }

  lemma WaitingCanComplete(worlds: seq<System>, labels: seq<SysLabel>, j: Id) returns (worlds': seq<System>, labels': seq<SysLabel>)
    requires IsSysRun(worlds, labels) && j in worlds[|labels|].jobs && worlds[|labels|].jobs[j].status.Queued?
    ensures IsSysRun(worlds', labels') && GoesOnUnaided(worlds, labels, worlds', labels') && IsCompleted(worlds'[|labels'|], j)
  {
    RunJobsOk(worlds, labels, |labels|);
    var w0 := worlds[|labels|];
    assert JobOk(w0.db, w0.jobs[j]);
    var t1, w1 := RequeueSends(w0, j);
    worlds', labels' := Grow(worlds, labels, Requeue, t1, w1);
    var k, t2, w2 := DeliveryClaims(w1, j, t1);
    worlds', labels' := Grow(worlds', labels', Deliver(Message(j, t1), k), t2, w2);
    var t3, w3 := HandlerReturns(w2, j, k);
    worlds', labels' := Grow(worlds', labels', Handling(w2.jobs[j].kind, k), t3, w3);
    var t4, w4 := FinishEnds(w3, j, k);
    worlds', labels' := Grow(worlds', labels', Finish(k, false), t4, w4);
  }

  /**
    From every state of every run, whatever messages, crashes and failures there have been: a
    job that waits or is in progress can still be completed without anyone's help.
   */
  lemma NoJobIsLost(worlds: seq<System>, labels: seq<SysLabel>, j: Id) returns (worlds': seq<System>, labels': seq<SysLabel>)
    requires IsSysRun(worlds, labels) && j in worlds[|labels|].jobs
    requires worlds[|labels|].jobs[j].status.Queued? || worlds[|labels|].jobs[j].status.InProgress?
    ensures IsSysRun(worlds', labels') && GoesOnUnaided(worlds, labels, worlds', labels') && IsCompleted(worlds'[|labels'|], j)
  {
    worlds', labels' := worlds, labels;
    if worlds[|labels|].jobs[j].status.InProgress? {
      RunStartsKnown(worlds, labels, |labels|);
      var t, w := ResetWaits(worlds[|labels|], j);
      worlds', labels' := Grow(worlds, labels, ResetStuck, t, w);
    }
    worlds', labels' := WaitingCanComplete(worlds', labels', j);
  }

  /** A job given up can be completed after one manual retry. */
  lemma GivenUpCanBeRetried(worlds: seq<System>, labels: seq<SysLabel>, j: Id) returns (worlds': seq<System>, labels': seq<SysLabel>)
    requires IsSysRun(worlds, labels) && j in worlds[|labels|].jobs && worlds[|labels|].jobs[j].status.GivenUp?
    ensures IsSysRun(worlds', labels') && worlds <= worlds' && labels <= labels' && IsCompleted(worlds'[|labels'|], j)
  {
    var t1, w1 := ReadOffers(worlds[|labels|], j);
    worlds', labels' := Grow(worlds, labels, ReadForRetry(j), t1, w1);
    var t2, w2 := RetryWaits(w1, j);
    worlds', labels' := Grow(worlds', labels', RetryJob(j), t2, w2);
    worlds', labels' := WaitingCanComplete(worlds', labels', j);
  }
}
