/** The workflow jobs: messages, workers, retries and recovery, on top of the booking engine. */
module Jobs {
  import opened Wrappers
  import opened Rows
  import opened Engine
  import opened Safety

  const MAX_JOB_RETRIES: nat := 3
  const STUCK_AFTER: int := 5 * 60 * 1_000_000
  const SECOND: int := 1_000_000

  datatype Kind = Expiry | Confirmation

  datatype JobStatus = Queued | InProgress | Completed | GivenUp

  datatype Job = Job(kind: Kind, booking: Id, status: JobStatus, retryCount: nat, startedAt: Option<Time>, emailSent: bool)
  {
    /** Abandoned by its worker, as far as anyone can tell. */
    predicate Stuck(now: Time)
    {
      status.InProgress? && startedAt.Some? && startedAt.value < now - STUCK_AFTER
    }
  }

  /** A broker message; it is delivered any number of times, never before its time. */
  datatype Message = Message(job: Id, eta: Time)

  datatype Progress = Claimed | Done(ok: bool)

  /** A live worker's copy of its job. `unflagged`: a mail went out and the flag write failed. */
  datatype Worker = Worker(job: Id, sawEmailSent: bool, progress: Progress, unflagged: bool)

  datatype System = System(
    db: State, jobs: map<Id, Job>, nextJob: Id, messages: set<Message>, workers: map<Id, Worker>, retryReads: set<Id>)

  datatype MailOutcome = NotConfigured | Raised | Mailed(flagSaved: bool)

  datatype SysAction =
    | OnRows(action: Action)
    | Deliver(message: Message, worker: Id)
    | HandleExpiry(worker: Id, raises: bool)
    | HandleConfirmation(worker: Id, outcome: MailOutcome)
    | Finish(worker: Id, writeFails: bool)
    | Crash(worker: Id)
    | Requeue
    | ResetStuck
    | ReadForRetry(job: Id)
    | RetryJob(job: Id)

  datatype SysLabel = SysLabel(action: SysAction, now: Time)

  // ---------------------------------------------------------------- steps

  predicate HasJob(jobs: map<Id, Job>, kind: Kind, b: Id)
  {
    exists j :: j in jobs && jobs[j].kind == kind && jobs[j].booking == b
  }

  ghost predicate StartsConfirmed(s: State, a: Action, now: Time)
    requires Enabled(s, a, now)
  {
    a.PayBooking? && BecomesConfirmed(s, Apply(s, a, now), a.booking)
  }

  function AddJob(w: System, kind: Kind, b: Id, eta: Time): System
  {
    w.(jobs := w.jobs[w.nextJob := Job(kind, b, Queued, 0, None, false)], nextJob := w.nextJob + 1,
       messages := w.messages + {Message(w.nextJob, eta)})
  }

  /** The jobs a booking step schedules: expiry with the booking, confirmation after the commit. */
  ghost function Schedule(w: System, a: Action, now: Time, after: System): System
    requires Enabled(w.db, a, now)
  {
    if a.CommitCreate? && FinishCreate(w.db, a.txn, now).1.Created? then
      AddJob(after, Expiry, w.db.nextBooking, now + HOLD_PERIOD)
    else if StartsConfirmed(w.db, a, now) && !HasJob(w.jobs, Confirmation, a.booking) then
      AddJob(after, Confirmation, a.booking, now)
    else after
  }

  /** Claims the job under its row lock, unless someone else has. */
  function TakeJob(w: System, m: Message, k: Id, now: Time): System
  {
    if m.job !in w.jobs || !w.jobs[m.job].status.Queued? then w
    else
      var job := w.jobs[m.job];
      w.(jobs := w.jobs[m.job := job.(status := InProgress, startedAt := Some(now))],
         workers := w.workers[k := Worker(m.job, job.emailSent, Claimed, false)])
  }

  function SetProgress(w: System, k: Id, ok: bool): System
    requires k in w.workers
  {
    w.(workers := w.workers[k := w.workers[k].(progress := Done(ok))])
  }

  /** Whether this handler call puts a mail on the wire. */
  predicate Sends(w: System, k: Id, outcome: MailOutcome)
  {
    k in w.workers && !w.workers[k].sawEmailSent && outcome.Mailed?
  }

  function RunConfirmation(w: System, k: Id, outcome: MailOutcome): System
    requires k in w.workers && w.workers[k].job in w.jobs
  {
    var j := w.workers[k].job;
    if w.workers[k].sawEmailSent then SetProgress(w, k, true)
    else
      match outcome
      case NotConfigured => SetProgress(w, k, true)
      case Raised => SetProgress(w, k, false)
      case Mailed(true) => SetProgress(w.(jobs := w.jobs[j := w.jobs[j].(emailSent := true)]), k, true)
      case Mailed(false) => w.(workers := w.workers[k := w.workers[k].(progress := Done(true), unflagged := true)])
  }

  /** 5, 10, 20, ... seconds. */
  function Backoff(retries: nat): int
  {
    if retries <= 1 then 5 * SECOND else 2 * Backoff(retries - 1)
  }

  predicate Succeeds(w: System, k: Id, writeFails: bool)
  {
    k in w.workers && w.workers[k].progress == Done(true) && !writeFails
  }

  /** The final write: completed, or one failure more, with a retry or the end. */
  function FinishRun(w: System, k: Id, writeFails: bool, now: Time): System
    requires k in w.workers && w.workers[k].job in w.jobs
  {
    var j := w.workers[k].job;
    var job := w.jobs[j];
    var rest := w.(workers := w.workers - {k});
    if Succeeds(w, k, writeFails) then rest.(jobs := w.jobs[j := job.(status := Completed)])
    else
      var retries := job.retryCount + 1;
      if retries >= MAX_JOB_RETRIES then rest.(jobs := w.jobs[j := job.(status := GivenUp, retryCount := retries)])
      else
        rest.(jobs := w.jobs[j := job.(status := Queued, retryCount := retries)],
              messages := w.messages + {Message(j, now + Backoff(retries))})
  }

  predicate Due(w: System, j: Id, now: Time)
  {
    && j in w.jobs && w.jobs[j].status.Queued?
    && (w.jobs[j].kind.Expiry? ==> w.jobs[j].booking in w.db.bookings && w.db.bookings[w.jobs[j].booking].expiresAt <= now)
  }

  function RequeueDue(w: System, now: Time): System
  {
    w.(messages := w.messages + set j | j in w.jobs && Due(w, j, now) :: Message(j, now))
  }

  function ResetAllStuck(w: System, now: Time): System
  {
    w.(jobs := map j | j in w.jobs :: if w.jobs[j].Stuck(now) then w.jobs[j].(status := Queued) else w.jobs[j],
       messages := w.messages + set j | j in w.jobs && w.jobs[j].Stuck(now) :: Message(j, now))
  }

  predicate Retryable(w: System, j: Id, now: Time)
  {
    j in w.jobs && (w.jobs[j].status.GivenUp? || w.jobs[j].Stuck(now))
  }

  /** The manual retry overwrites the row on the strength of an earlier, unlocked read. */
  function RetryWrite(w: System, j: Id, now: Time): System
    requires j in w.jobs
  {
    w.(jobs := w.jobs[j := w.jobs[j].(status := Queued, retryCount := 0, startedAt := None, emailSent := false)],
       messages := w.messages + {Message(j, now)})
  }

  predicate WorkerReady(w: System, k: Id, kind: Kind)
  {
    k in w.workers && w.workers[k].progress.Claimed? && w.workers[k].job in w.jobs && w.jobs[w.workers[k].job].kind == kind
  }

  predicate SysEnabled(w: System, a: SysAction, now: Time)
  {
    now > w.db.clock &&
    match a
    case OnRows(action) => !action.SweepBooking? && Enabled(w.db, action, now)
    case Deliver(m, k) => m in w.messages && now >= m.eta && k !in w.workers
    case HandleExpiry(k, _) => WorkerReady(w, k, Expiry) && w.jobs[w.workers[k].job].booking in w.db.bookings
    case HandleConfirmation(k, _) => WorkerReady(w, k, Confirmation)
    case Finish(k, _) => k in w.workers && w.workers[k].progress.Done? && w.workers[k].job in w.jobs
    case Crash(k) => k in w.workers
    case Requeue => true
    case ResetStuck => true
    case ReadForRetry(_) => true
    case RetryJob(j) => j in w.retryReads && j in w.jobs
  }

  /** The database rows after a step: a booking step, an expiry handler's sweep, or only the clock. */
  ghost function RowsAfter(w: System, a: SysAction, now: Time): State
    requires SysEnabled(w, a, now)
  {
    match a
    case OnRows(action) => Apply(w.db, action, now)
    case HandleExpiry(k, false) => Apply(w.db, SweepBooking(w.jobs[w.workers[k].job].booking), now)
    case _ => w.db.(clock := now)
  }

  /** What a step does to jobs, messages and workers. */
  ghost function JobStep(w: System, a: SysAction, now: Time, after: System): System
    requires SysEnabled(w, a, now) && after == w.(db := after.db)
  {
    match a
    case OnRows(action) => Schedule(w, action, now, after)
    case Deliver(m, k) => TakeJob(after, m, k, now)
    case HandleExpiry(k, raises) => SetProgress(after, k, !raises)
    case HandleConfirmation(k, outcome) => RunConfirmation(after, k, outcome)
    case Finish(k, writeFails) => FinishRun(after, k, writeFails, now)
    case Crash(k) => after.(workers := after.workers - {k})
    case Requeue => RequeueDue(after, now)
    case ResetStuck => ResetAllStuck(after, now)
    case ReadForRetry(j) => if Retryable(w, j, now) then after.(retryReads := after.retryReads + {j}) else after
    case RetryJob(j) => RetryWrite(after, j, now)
  }

  ghost function SysApply(w: System, a: SysAction, now: Time): System
    requires SysEnabled(w, a, now)
  {
    JobStep(w, a, now, w.(db := RowsAfter(w, a, now)))
  }

  ghost predicate SysStepAt(worlds: seq<System>, labels: seq<SysLabel>, i: nat)
    requires i < |labels| && |worlds| == |labels| + 1
  {
    SysEnabled(worlds[i], labels[i].action, labels[i].now) &&
    worlds[i + 1] == SysApply(worlds[i], labels[i].action, labels[i].now)
  }

  ghost predicate IsSysRun(worlds: seq<System>, labels: seq<SysLabel>)
  {
    && |worlds| == |labels| + 1
    && worlds[0] == System(EmptyState(worlds[0].db.clock), map[], 0, {}, map[], {})
    && forall i :: 0 <= i < |labels| ==> SysStepAt(worlds, labels, i)
  }
}
