/**
  The booking engine as one transition system. Every function is one committed database
  step of the source; a transaction is split where other transactions can get in between.
 */
module Engine {
  import opened Wrappers
  import opened SeatLayout
  import opened Rows

  // ---------------------------------------------------------------- creating bookings

  datatype CreateReply =
    | NoSeats | UnknownSeats | DuplicateSeats | WrongEvent
    | Existing(booking: Id) | SeatsTaken(seats: set<Id>)
    | Reading | Created(booking: Id) | IntegrityError | Raised

  /** The requested seat rows that exist: what the row-locking query returns. */
  function LockedRows(s: State, q: CreateRequest): set<Id>
  {
    set x | x in q.seatIds && x in s.seats
  }

  function Distinct(ids: seq<Id>): set<Id>
  {
    set x | x in ids
  }

  /** From opening the transaction to the availability read under the seat locks. */
  ghost function BeginCreate(s: State, t: Id, q: CreateRequest, now: Time): (State, CreateReply)
  {
    var rows := LockedRows(s, q);
    if q.seatIds == [] then (s, NoSeats)
    else if |rows| != |q.seatIds| then (s, UnknownSeats)
    else if |Distinct(q.seatIds)| != |q.seatIds| then (s, DuplicateSeats)
    else if exists x :: x in rows && s.seats[x].event != q.event then (s, WrongEvent)
    else if Truthy(q.key) && ExistingBooking(s.bookings, q.user, q.key.value).Some? then
      (s, Existing(ExistingBooking(s.bookings, q.user, q.key.value).value))
    else if UnavailableSeats(s.bookings, s.claims, rows, now) != {} then (s, SeatsTaken(UnavailableSeats(s.bookings, s.claims, rows, now)))
    else (s.(creates := s.creates[t := CreateTxn(q, rows, Holding(now))]), Reading)
  }

  /** Neither uniqueness constraint, nor the NOT NULL on the key, refuses the rows. */
  predicate InsertAllowed(s: State, t: CreateTxn)
  {
    && t.request.key.Some?
    && (forall b :: b in s.bookings ==> !Keyed(s.bookings, b, t.request.user, t.request.key.value))
    && (forall c :: c in s.claims && s.claims[c] ==> c.seat !in t.seats)
  }

  function NewBooking(q: CreateRequest, seatCount: nat, now: Time): Booking
  {
    Booking(q.user, q.event, Pending, q.price * seatCount,
            if q.key.Some? then q.key.value else "", now + HOLD_PERIOD, 0)
  }

  function NewClaims(b: Id, seats: set<Id>): map<Claim, bool>
  {
    map x | x in seats :: Claim(b, x) := true
  }

  /** Insert and commit, or roll everything back on an integrity error. */
  function FinishCreate(s: State, t: Id, now: Time): (State, CreateReply)
    requires t in s.creates
  {
    var txn := s.creates[t];
    if InsertAllowed(s, txn) then
      var b := s.nextBooking;
      (s.(bookings := s.bookings[b := NewBooking(txn.request, |txn.seats|, now)],
          nextBooking := b + 1,
          claims := s.claims + NewClaims(b, txn.seats),
          creates := s.creates - {t}),
       Created(b))
    else if Truthy(txn.request.key) then
      (s.(creates := s.creates[t := txn.(phase := RolledBack)]), IntegrityError)
    else
      (s.(creates := s.creates - {t}), Raised)
  }

  /** The lookup in the integrity-error handler, after the rollback. */
  ghost function LookupExisting(s: State, t: Id): (State, CreateReply)
    requires t in s.creates && s.creates[t].request.key.Some?
  {
    var q := s.creates[t].request;
    var found := ExistingBooking(s.bookings, q.user, q.key.value);
    (s.(creates := s.creates - {t}), if found.Some? then Existing(found.value) else Raised)
  }

  // ---------------------------------------------------------------- releasing, paying, expiring

  function Released(claims: map<Claim, bool>, b: Id): map<Claim, bool>
  {
    map c | c in claims :: claims[c] && c.booking != b
  }

  datatype PayReply =
    | NotFound | HoldExpired | RetryLimit | AlreadyConfirmed | AlreadyPaid
    | Charged(success: bool, exhausted: bool)
  {
    predicate Releases() { HoldExpired? || RetryLimit? || (Charged? && exhausted) }
  }

  /** What one payment call does to the booking row and its payment row. */
  function PayRows(bk: Booking, pay: Option<Payment>, success: bool, now: Time)
    : (r: (Booking, Option<Payment>, PayReply))
  {
    if bk.expiresAt < now then (bk.(status := Expired), pay, HoldExpired)
    else if bk.retryCount >= MAX_RETRIES then (bk.(status := Expired), pay, RetryLimit)
    else if bk.status.Confirmed? then (bk, pay, AlreadyConfirmed)
    else if pay.Some? && pay.value.status.Success? then (bk, pay, AlreadyPaid)
    else
      var amount := if pay.Some? then pay.value.amount else bk.amount;
      if success then
        (bk.(status := Confirmed), Some(Payment(amount, Success)), Charged(true, false))
      else
        var retries := bk.retryCount + 1;
        var exhausted := retries >= MAX_RETRIES || bk.expiresAt < now;
        (bk.(status := if exhausted then Expired else Failed, retryCount := retries),
         Some(Payment(amount, Declined)), Charged(false, exhausted))
  }

  function PaymentOf(s: State, b: Id): Option<Payment>
  {
    if b in s.payments then Some(s.payments[b]) else None
  }

  function Pay(s: State, b: Id, success: bool, now: Time): (State, PayReply)
  {
    if b !in s.bookings then (s, NotFound)
    else
      var (bk, pay, reply) := PayRows(s.bookings[b], PaymentOf(s, b), success, now);
      (s.(bookings := s.bookings[b := bk],
          payments := if pay.Some? then s.payments[b := pay.value] else s.payments,
          claims := if reply.Releases() then Released(s.claims, b) else s.claims),
       reply)
  }

  predicate SweepDue(bk: Booking, now: Time) { now >= bk.expiresAt && bk.status.Open() }

  function SetStatusAndRelease(s: State, b: Id, status: Status): State
    requires b in s.bookings
  {
    s.(bookings := s.bookings[b := s.bookings[b].(status := status)], claims := Released(s.claims, b))
  }

  /** The unlocked read before a cancellation: whoever saw the booking confirmed may go on, whatever happens meanwhile. */
  function NoteConfirmed(s: State, b: Id): State
  {
    if b in s.bookings && s.bookings[b].status.Confirmed? then s.(stale := s.stale + {b}) else s
  }

  /** The background expiry handler. */
  function Sweep(s: State, b: Id, now: Time): State
    requires b in s.bookings
  {
    if SweepDue(s.bookings[b], now) then SetStatusAndRelease(s, b, Expired) else s
  }

  // ---------------------------------------------------------------- event edits

  datatype EditReply = Editing | Rejected | Saved | ProtectedError | DuplicateNumber

  function TargetSpace(was: Event, change: EventChange): Option<Id>
  {
    match change
    case Update(_, _, _, space, _) => if space.Some? then Some(space.value.id) else None
    case Resync(_) => was.space
  }

  function TargetLayout(change: EventChange): Option<Space>
  {
    match change
    case Update(_, _, _, space, _) => if space.Some? then Some(space.value.layout) else None
    case Resync(layout) => Some(layout)
  }

  /** The total the client may set: a space-backed event keeps its own. */
  function RequestedTotal(was: Event, change: EventChange): int
  {
    if was.space.Some? || change.Resync? then was.totalSeats else change.totalSeats
  }

  /** What the edit will do to the event row and to the seats. */
  function PlanEdit(s: State, e: Id, change: EventChange): EditTxn
    requires e in s.events
  {
    var was := s.events[e];
    var total := RequestedTotal(was, change);
    var space := TargetSpace(was, change);
    var base :=
      if change.Update? then was.(price := change.price, archived := change.archived, startTime := change.startTime)
      else was;
    if change.Resync? || space != was.space then
      var specs := SeatSpecs(TargetLayout(change), total);
      EditTxn(base.(totalSeats := TotalSeats(TargetLayout(change), total), space := space), 0, SeatsOf(s.seats, e), specs, change.Update?)
    else if space.None? && total > was.totalSeats then
      EditTxn(base.(totalSeats := total), was.totalSeats, {}, PlainSpecs(was.totalSeats + 1, total), true)
    else if space.None? && total < was.totalSeats then
      EditTxn(base.(totalSeats := total), total, SeatsAbove(s.seats, e, total), [], true)
    else
      EditTxn(base, was.totalSeats, {}, [], true)
  }

  /** Event lock, seat locks, and the history check under them. */
  function BeginEdit(s: State, e: Id, change: EventChange): (State, EditReply)
    requires e in s.events
  {
    var plan := PlanEdit(s, e, change);
    if change.Resync? && s.events[e].space.None? then (s, Rejected)
    else if plan.target.totalSeats <= 0 || plan.target.price < 0 then (s, Rejected)
    else if HasHistory(s.claims, plan.removed) then (s, Rejected)
    else (s.(edits := s.edits[e := plan]), Editing)
  }

  /** Consecutive fresh ids for newly inserted seats. */
  function AddedSeats(e: Id, first: Id, specs: seq<SeatSpec>): (r: map<Id, Seat>)
    ensures forall x: Id :: x in r <==> first <= x < first + |specs|
    ensures forall x: Id :: x in r ==> r[x] == Seat(e, specs[x - first])
  {
    if specs == [] then map[]
    else
      var front := |specs| - 1;
      AddedSeats(e, first, specs[..front])[first + front := Seat(e, specs[front])]
  }

  predicate NumberTaken(seats: map<Id, Seat>, e: Id, deleted: set<Id>, number: int)
  {
    exists x :: x in seats && x !in deleted && seats[x].event == e && seats[x].spec.number == number
  }

  /** Delete, insert, commit. A protected row or a duplicate number rolls the edit back. */
  function FinishEdit(s: State, e: Id): (State, EditReply)
    requires e in s.edits
  {
    var txn := s.edits[e];
    var rest := s.(edits := s.edits - {e});
    if HasHistory(s.claims, txn.removed) then (rest, ProtectedError)
    else if exists i :: 0 <= i < |txn.added| && NumberTaken(s.seats, e, txn.removed, txn.added[i].number) then
      (rest, DuplicateNumber)
    else
      (rest.(events := s.events[e := txn.target],
             seats := (s.seats - txn.removed) + AddedSeats(e, s.nextSeat, txn.added),
             nextSeat := s.nextSeat + |txn.added|),
       Saved)
  }

  function NewEvent(change: EventChange, total: int): Event
    requires change.Update?
  {
    Event(change.price, total, if change.space.Some? then Some(change.space.value.id) else None, change.archived, change.startTime)
  }

  function AddEvent(s: State, e: Id, change: EventChange): (State, EditReply)
    requires change.Update?
  {
    var layout := TargetLayout(change);
    var total := TotalSeats(layout, change.totalSeats);
    var specs := SeatSpecs(layout, change.totalSeats);
    if change.totalSeats <= 0 || total <= 0 || change.price < 0 then (s, Rejected)
    else
      (s.(events := s.events[e := NewEvent(change, total)],
          seats := s.seats + AddedSeats(e, s.nextSeat, specs),
          nextSeat := s.nextSeat + |specs|),
       Saved)
  }

  /** The deletion itself; the unlocked check before it only spares the caller this error. */
  function DestroyEvent(s: State, e: Id): (State, EditReply)
  {
    if HasHistory(s.claims, SeatsOf(s.seats, e)) then (s, ProtectedError)
    else (s.(events := s.events - {e}, seats := s.seats - SeatsOf(s.seats, e)), Saved)
  }

  // ---------------------------------------------------------------- actions

  datatype Action =
    | FastPath(user: Id, key: string)
    | OpenCreate(txn: Id, request: CreateRequest)
    | CommitCreate(txn: Id)
    | LookupCreate(txn: Id)
    | PayBooking(booking: Id, success: bool)
    | SweepBooking(booking: Id)
    | ReadForCancel(booking: Id)
    | CancelBooking(booking: Id)
    | InsertEvent(event: Id, change: EventChange)
    | OpenEdit(event: Id, change: EventChange)
    | CommitEdit(event: Id)
    | DeleteEvent(event: Id)

  /** No other transaction holds a lock on one of these seats. */
  predicate SeatsUnlocked(s: State, ids: set<Id>)
  {
    && (forall t :: t in s.creates && HoldsLock(s.creates, t) ==> s.creates[t].seats !! ids)
    && (forall e :: e in s.edits ==> s.edits[e].removed !! ids)
  }

  /**
    When an action can take its step: its row locks are free and, for the second half of a
    transaction, the first half has run. The clock rises strictly from one step to the next.
   */
  predicate Enabled(s: State, a: Action, now: Time)
  {
    now > s.clock &&
    match a
    case FastPath(_, key) => key != ""
    case OpenCreate(t, q) => t !in s.creates && SeatsUnlocked(s, LockedRows(s, q))
    case CommitCreate(t) => HoldsLock(s.creates, t)
    case LookupCreate(t) => t in s.creates && s.creates[t].phase.RolledBack?
                            && Truthy(s.creates[t].request.key)
    case PayBooking(_, _) => true
    case SweepBooking(b) => b in s.bookings
    case ReadForCancel(_) => true
    case CancelBooking(b) => b in s.stale && b in s.bookings
    case InsertEvent(e, change) => e !in s.events && change.Update?
    case OpenEdit(e, change) => e in s.events && e !in s.edits && SeatsUnlocked(s, PlanEdit(s, e, change).removed)
    case CommitEdit(e) => e in s.edits
    case DeleteEvent(e) => e in s.events && e !in s.edits && SeatsUnlocked(s, SeatsOf(s.seats, e))
  }

  ghost function Step(s: State, a: Action, now: Time): State
    requires Enabled(s, a, now)
  {
    match a
    case FastPath(_, _) => s
    case OpenCreate(t, q) => BeginCreate(s, t, q, now).0
    case CommitCreate(t) => FinishCreate(s, t, now).0
    case LookupCreate(t) => LookupExisting(s, t).0
    case PayBooking(b, success) => Pay(s, b, success, now).0
    case SweepBooking(b) => Sweep(s, b, now)
    case ReadForCancel(b) => NoteConfirmed(s, b)
    case CancelBooking(b) => SetStatusAndRelease(s, b, Cancelled)
    case InsertEvent(e, change) => AddEvent(s, e, change).0
    case OpenEdit(e, change) => BeginEdit(s, e, change).0
    case CommitEdit(e) => FinishEdit(s, e).0
    case DeleteEvent(e) => DestroyEvent(s, e).0
  }

  ghost function Apply(s: State, a: Action, now: Time): State
    requires Enabled(s, a, now)
  {
    Step(s, a, now).(clock := now)
  }

  datatype Label = Label(action: Action, now: Time)

  /** A run: the states passed through and the steps between them, from an empty database. */
  ghost predicate IsRun(states: seq<State>, labels: seq<Label>)
  {
    && |states| == |labels| + 1
    && states[0] == EmptyState(states[0].clock)
    && forall i :: 0 <= i < |labels| ==> StepAt(states, labels, i)
  }

  ghost predicate StepAt(states: seq<State>, labels: seq<Label>, i: nat)
    requires i < |labels| && |states| == |labels| + 1
  {
    Enabled(states[i], labels[i].action, labels[i].now) &&
    states[i + 1] == Apply(states[i], labels[i].action, labels[i].now)
  }
}
