/** The service methods in their own form: statements that change tables in place, proved against the engine's steps. */
module Database {
  import opened Wrappers
  import opened SeatLayout
  import opened Rows
  import opened Engine
  import opened Invariant
  import opened Preservation
  import opened Availability

  lemma OneMoreSeat(seats: map<Id, Seat>, e: Id, first: Id, specs: seq<SeatSpec>, i: nat)
    requires i < |specs|
    ensures seats + AddedSeats(e, first, specs[..i + 1]) == (seats + AddedSeats(e, first, specs[..i]))[first + i := Seat(e, specs[i])]
  {
    assert specs[..i + 1][..i] == specs[..i] && specs[..i + 1][i] == specs[i];
    var fewer := AddedSeats(e, first, specs[..i]);
    assert AddedSeats(e, first, specs[..i + 1]) == fewer[first + i := Seat(e, specs[i])];
  }

  lemma OneMoreClaim(claims: map<Claim, bool>, b: Id, done: set<Id>, x: Id)
    ensures (claims + NewClaims(b, done))[Claim(b, x) := true] == claims + NewClaims(b, done + {x})
  {
    assert NewClaims(b, done + {x}) == NewClaims(b, done)[Claim(b, x) := true];
  }

  class Tables {
    var events: map<Id, Event>
    var seats: map<Id, Seat>
    var nextSeat: Id
    var bookings: map<Id, Booking>
    var nextBooking: Id
    var claims: map<Claim, bool>
    var payments: map<Id, Payment>
    var creates: map<Id, CreateTxn>
    var edits: map<Id, EditTxn>
    var stale: set<Id>
    var clock: Time

    ghost function Now(): State
      reads this
    {
      State(events, seats, nextSeat, bookings, nextBooking, claims, payments, creates, edits, stale, clock)
    }

    constructor (start: Time)
      ensures Now() == EmptyState(start)
    {
      events, seats, nextSeat := map[], map[], 0;
      bookings, nextBooking, claims, payments := map[], 0, map[], map[];
      creates, edits, stale, clock := map[], map[], {}, start;
    }

    // -------------------------------------------------------------- queries

    method ExistingBookingFor(user: Id, key: string) returns (found: Option<Id>)
      requires UniqueKeys(bookings)
      ensures found == ExistingBooking(bookings, user, key)
    {
      var matches := set b | b in bookings && Keyed(bookings, b, user, key);
      if matches == {} {
        assert forall b :: Keyed(bookings, b, user, key) ==> b in matches;
        return None;
      }
      var b :| b in matches;
      return Some(b);
    }

    /** In sound tables a seat is unavailable exactly when its one active claim is of a booking that still holds it. */
    method UnavailableSeatIds(ids: set<Id>, now: Time) returns (taken: set<Id>)
      ensures taken == UnavailableSeats(bookings, claims, ids, now)
      ensures InStep(bookings, claims) ==>
                forall x :: x in taken <==> x in ids && exists c :: Active(claims, c) && c.seat == x && Taken(bookings, c, now)
      ensures InStep(bookings, claims) && OneActive(claims) ==>
                forall c :: Active(claims, c) && c.seat in ids ==> (c.seat in taken <==> Taken(bookings, c, now))
    {
      taken := set c | c in claims && c.seat in ids && Taken(bookings, c, now) :: c.seat;
      if InStepNow() {
        forall x | x in taken ensures exists c :: Active(claims, c) && c.seat == x && Taken(bookings, c, now) {
          var c :| c in claims && c.seat in ids && Taken(bookings, c, now) && c.seat == x;
          assert Active(claims, c);
        }
      }
    }

    ghost predicate InStepNow()
      reads this`bookings, this`claims
    {
      InStep(bookings, claims)
    }

    /** Fills the dictionary of the connect snapshot, seat by seat. */
    method SeatStatuses(e: Id, now: Time) returns (statuses: map<int, SeatStatus>)
      requires ClaimsRefer(Now()) && InStep(bookings, claims) && OneActive(claims)
      requires e in events && ExactNumbers(seats, e, events[e].totalSeats)
      ensures IsStatusMap(Now(), e, now, statuses)
    {
      statuses := map[];
      var todo := SeatsOf(seats, e);
      while todo != {}
        invariant todo <= SeatsOf(seats, e)
        invariant forall x :: x in SeatsOf(seats, e) - todo ==> seats[x].spec.number in statuses
        invariant forall n :: n in statuses ==> NumberPresent(seats, e, n) && ShowsStatus(Now(), e, now, n, statuses[n])
        decreases |todo|
      {
        var x :| x in todo;
        todo := todo - {x};
        var status := SeatStatusOf(x, now);
        assert Numbered(seats, e, x);
        statuses := statuses[seats[x].spec.number := status];
      }
      forall n | NumberPresent(seats, e, n) ensures n in statuses {
        var x :| Numbered(seats, e, x) && seats[x].spec.number == n;
        assert x in SeatsOf(seats, e) - todo;
      }
    }

    method SeatStatusOf(x: Id, now: Time) returns (status: SeatStatus)
      ensures status == StatusOf(Now(), x, now)
    {
      var holding := set c | c in claims && c.seat == x && Taken(bookings, c, now);
      var booked := set c | c in holding && bookings[c.booking].status.Confirmed?;
      assert forall c :: c in claims && c.seat == x && Taken(bookings, c, now) ==> c in holding;
      assert forall c :: c in holding && bookings[c.booking].status.Confirmed? ==> c in booked;
      if booked != {} {
        var c :| c in booked;
        return Booked;
      }
      if holding != {} {
        var c :| c in holding;
        return Locked;
      }
      return Free;
    }

    // -------------------------------------------------------------- creating a booking

    /** The transaction up to its availability read; the seat locks are the row kept in `creates`. */
    method BeginBooking(t: Id, q: CreateRequest, now: Time) returns (reply: CreateReply)
      requires UniqueKeys(bookings)
      modifies this
      ensures (Now(), reply) == BeginCreate(old(Now()), t, q, now)
    {
      var rows := set x | x in q.seatIds && x in seats;
      assert rows == LockedRows(Now(), q);
      if q.seatIds == [] { return NoSeats; }
      if |rows| != |q.seatIds| { return UnknownSeats; }
      if |Distinct(q.seatIds)| != |q.seatIds| { return DuplicateSeats; }
      var foreignSeats := set x | x in rows && seats[x].event != q.event;
      assert forall x :: x in rows && seats[x].event != q.event ==> x in foreignSeats;
      if foreignSeats != {} { return WrongEvent; }
      if Truthy(q.key) {
        var existing := ExistingBookingFor(q.user, q.key.value);
        if existing.Some? { return Existing(existing.value); }
      }
      var taken := UnavailableSeatIds(rows, now);
      if taken != {} { return SeatsTaken(taken); }
      creates := creates[t := CreateTxn(q, rows, Holding(now))];
      return Reading;
    }

    method InsertClaims(b: Id, chosen: set<Id>)
      modifies this`claims
      ensures claims == old(claims) + NewClaims(b, chosen)
    {
      var todo, done := chosen, {};
      while todo != {}
        invariant todo + done == chosen
        invariant claims == old(claims) + NewClaims(b, done)
        decreases |todo|
      {
        var x :| x in todo;
        OneMoreClaim(old(claims), b, done, x);
        claims := claims[Claim(b, x) := true];
        todo, done := todo - {x}, done + {x};
      }
      assert done == chosen;
    }

    method InsertBooking(q: CreateRequest, seatCount: nat, now: Time) returns (b: Id)
      requires q.key.Some?
      modifies this`bookings, this`nextBooking
      ensures b == old(nextBooking) && nextBooking == b + 1
      ensures bookings == old(bookings)[b := NewBooking(q, seatCount, now)]
    {
      b := nextBooking;
      bookings := bookings[b := Booking(q.user, q.event, Pending, q.price * seatCount, q.key.value, now + HOLD_PERIOD, 0)];
      nextBooking := b + 1;
    }

    /** Would the inserts break a uniqueness constraint or the NOT NULL on the key? */
    method Conflicts(t: Id) returns (conflict: bool)
      requires t in creates
      ensures conflict <==> !InsertAllowed(Now(), creates[t])
    {
      var q, chosen := creates[t].request, creates[t].seats;
      if q.key.None? { return true; }
      var duplicates := set b | b in bookings && Keyed(bookings, b, q.user, q.key.value);
      if duplicates != {} {
        var b :| b in duplicates;
        return true;
      }
      assert forall b :: b in bookings ==> b !in duplicates;
      var clashes := set c | c in claims && claims[c] && c.seat in chosen;
      if clashes != {} {
        var c :| c in clashes;
        return true;
      }
      assert forall c :: c in claims ==> c !in clashes;
      return false;
    }

    /** The inserts and the commit; an integrity error rolls them back. */
    method CommitBooking(t: Id, now: Time) returns (reply: CreateReply)
      requires t in creates
      modifies this
      ensures (Now(), reply) == FinishCreate(old(Now()), t, now)
    {
      var txn := creates[t];
      var conflict := Conflicts(t);
      if conflict {
        if Truthy(txn.request.key) {
          creates := creates[t := txn.(phase := RolledBack)];
          return IntegrityError;
        }
        creates := creates - {t};
        return Raised;
      }
      var b := InsertBooking(txn.request, |txn.seats|, now);
      InsertClaims(b, txn.seats);
      creates := creates - {t};
      return Created(b);
    }

    method LookUpAfterConflict(t: Id) returns (reply: CreateReply)
      requires UniqueKeys(bookings) && t in creates && creates[t].request.key.Some?
      modifies this`creates
      ensures (Now(), reply) == LookupExisting(old(Now()), t)
    {
      var q := creates[t].request;
      var existing := ExistingBookingFor(q.user, q.key.value);
      creates := creates - {t};
      reply := if existing.Some? then Existing(existing.value) else Raised;
    }

    // -------------------------------------------------------------- releasing, paying, expiring

    method ReleaseSeats(b: Id)
      modifies this`claims
      ensures claims == Released(old(claims), b)
    {
      claims := map c | c in claims :: if c.booking == b then false else claims[c];
    }

    method SetStatus(b: Id, status: Status)
      requires b in bookings
      modifies this`bookings
      ensures bookings == old(bookings)[b := old(bookings)[b].(status := status)]
    {
      bookings := bookings[b := bookings[b].(status := status)];
    }

    method ProcessPayment(b: Id, success: bool, now: Time) returns (reply: PayReply)
      modifies this
      ensures (Now(), reply) == Pay(old(Now()), b, success, now)
    {
      if b !in bookings { return NotFound; }
      assert b in payments ==> payments[b := payments[b]] == payments;
      if bookings[b].expiresAt < now {
        SetStatus(b, Expired);
        ReleaseSeats(b);
        return HoldExpired;
      }
      if bookings[b].retryCount >= MAX_RETRIES {
        SetStatus(b, Expired);
        ReleaseSeats(b);
        return RetryLimit;
      }
      if bookings[b].status.Confirmed? {
        assert bookings[b := bookings[b]] == bookings;
        return AlreadyConfirmed;
      }
      if b in payments && payments[b].status.Success? {
        assert bookings[b := bookings[b]] == bookings;
        return AlreadyPaid;
      }
      var payment := if b in payments then payments[b].(status := Unsettled) else Payment(bookings[b].amount, Unsettled);
      if success {
        payments := payments[b := payment.(status := Success)];
        SetStatus(b, Confirmed);
        return Charged(true, false);
      }
      var retries := bookings[b].retryCount + 1;
      var exhausted := retries >= MAX_RETRIES || bookings[b].expiresAt < now;
      payments := payments[b := payment.(status := Declined)];
      bookings := bookings[b := bookings[b].(retryCount := retries, status := if exhausted then Expired else Failed)];
      if exhausted { ReleaseSeats(b); }
      return Charged(false, exhausted);
    }

    method HandleExpiry(b: Id, now: Time)
      requires b in bookings
      modifies this
      ensures Now() == Sweep(old(Now()), b, now)
    {
      if now < bookings[b].expiresAt { return; }
      if !bookings[b].status.Open() { return; }
      SetStatus(b, Expired);
      ReleaseSeats(b);
    }

    /** `seen` is the status of the caller's object, which may be out of date. */
    method CancelBooking(b: Id, seen: Status) returns (cancelled: bool)
      requires b in bookings
      modifies this
      ensures cancelled == seen.Confirmed?
      ensures Now() == if cancelled then SetStatusAndRelease(old(Now()), b, Cancelled) else old(Now())
    {
      if !seen.Confirmed? { return false; }
      SetStatus(b, Cancelled);
      ReleaseSeats(b);
      return true;
    }

    // -------------------------------------------------------------- seat inventory

    method InsertSeats(e: Id, specs: seq<SeatSpec>)
      modifies this`seats, this`nextSeat
      ensures seats == old(seats) + AddedSeats(e, old(nextSeat), specs)
      ensures nextSeat == old(nextSeat) + |specs|
    {
      var before, first := seats, nextSeat;
      for i := 0 to |specs|
        invariant nextSeat == first + i
        invariant seats == before + AddedSeats(e, first, specs[..i])
      {
        OneMoreSeat(before, e, first, specs, i);
        seats := seats[nextSeat := Seat(e, specs[i])];
        nextSeat := nextSeat + 1;
      }
      assert specs[..|specs|] == specs;
    }

    method CreateEvent(e: Id, change: EventChange) returns (reply: EditReply)
      requires change.Update?
      modifies this
      ensures (Now(), reply) == AddEvent(old(Now()), e, change)
    {
      var total, specs := BuildSeatSpecs(TargetLayout(change), change.totalSeats);
      if change.totalSeats <= 0 || total <= 0 || change.price < 0 { return Rejected; }
      events := events[e := NewEvent(change, total)];
      InsertSeats(e, specs);
      return Saved;
    }

    /** Locks the event and the seats to go, and checks their history; what is left to write waits in `edits`. */
    method BeginUpdate(e: Id, change: EventChange) returns (reply: EditReply)
      requires e in events
      modifies this`edits
      ensures (Now(), reply) == BeginEdit(old(Now()), e, change)
    {
      var was := events[e];
      if change.Resync? && was.space.None? { return Rejected; }
      var total := RequestedTotal(was, change);
      var target, kept, removed, added := was, was.totalSeats, {}, [];
      if change.Update? {
        target := target.(price := change.price, archived := change.archived, startTime := change.startTime);
      }
      var space := if change.Update? then TargetSpace(was, change) else was.space;
      if change.Resync? || space != was.space {
        var newTotal, specs := BuildSeatSpecs(TargetLayout(change), total);
        target := target.(totalSeats := newTotal, space := space);
        kept, removed, added := 0, SeatsOf(seats, e), specs;
      } else if space.None? && total != was.totalSeats {
        target := target.(totalSeats := total);
        if total > was.totalSeats {
          added := PlainSpecs(was.totalSeats + 1, total);
        } else {
          kept, removed := total, SeatsAbove(seats, e, total);
        }
      }
      if target.totalSeats <= 0 || target.price < 0 { return Rejected; }
      if HistoryOn(removed) { return Rejected; }
      edits := edits[e := EditTxn(target, kept, removed, added, change.Update?)];
      return Editing;
    }

    predicate HistoryOn(ids: set<Id>)
      reads this`claims
      ensures HistoryOn(ids) == HasHistory(claims, ids)
    {
      exists c :: c in claims && c.seat in ids
    }

    method CommitUpdate(e: Id) returns (reply: EditReply)
      requires e in edits
      modifies this
      ensures (Now(), reply) == FinishEdit(old(Now()), e)
    {
      var txn := edits[e];
      edits := edits - {e};
      if HistoryOn(txn.removed) { return ProtectedError; }
      var clash := false;
      for i := 0 to |txn.added|
        invariant clash <==> exists k :: 0 <= k < i && NumberTaken(seats, e, txn.removed, txn.added[k].number)
      {
        if NumberTaken(seats, e, txn.removed, txn.added[i].number) { clash := true; }
      }
      if clash { return DuplicateNumber; }
      events := events[e := txn.target];
      seats := seats - txn.removed;
      InsertSeats(e, txn.added);
      return Saved;
    }

    /** The check before the deletion; it takes no lock, and a booking may come after it. */
    method HasBookingHistory(e: Id) returns (found: bool)
      ensures found <==> exists c :: c in claims && Numbered(seats, e, c.seat)
    {
      found := HistoryOn(SeatsOf(seats, e));
    }

    /** `clear` is what the check said; the database itself still protects a seat that was booked meanwhile. */
    method DeleteEvent(e: Id, clear: bool) returns (reply: EditReply)
      modifies this
      ensures !clear ==> reply.Rejected? && Now() == old(Now())
      ensures clear ==> (Now(), reply) == DestroyEvent(old(Now()), e)
    {
      if !clear { return Rejected; }
      if HistoryOn(SeatsOf(seats, e)) { return ProtectedError; }
      seats := seats - SeatsOf(seats, e);
      events := events - {e};
      return Saved;
    }

    // -------------------------------------------------------------- one step of a run

    /** The create requests of a run, by the half of the transaction they are in. */
    method RunCreate(a: Action, now: Time)
      requires UniqueKeys(bookings) && Enabled(Now(), a, now)
      requires a.FastPath? || a.OpenCreate? || a.CommitCreate? || a.LookupCreate?
      modifies this
      ensures Now() == Step(old(Now()), a, now)
    {
      match a
      case FastPath(user, key) => var _ := ExistingBookingFor(user, key);
      case OpenCreate(t, q) => var _ := BeginBooking(t, q, now);
      case CommitCreate(t) => var _ := CommitBooking(t, now);
      case LookupCreate(t) => var _ := LookUpAfterConflict(t);
    }

    method ReadBooking(b: Id)
      modifies this`stale
      ensures Now() == NoteConfirmed(old(Now()), b)
    {
      if b in bookings && bookings[b].status.Confirmed? { stale := stale + {b}; }
    }

    method RunBooking(a: Action, now: Time)
      requires Enabled(Now(), a, now)
      requires a.PayBooking? || a.SweepBooking? || a.ReadForCancel? || a.CancelBooking?
      modifies this
      ensures Now() == Step(old(Now()), a, now)
    {
      match a
      case PayBooking(b, success) => var _ := ProcessPayment(b, success, now);
      case SweepBooking(b) => HandleExpiry(b, now);
      case ReadForCancel(b) => ReadBooking(b);
      case CancelBooking(b) => var _ := CancelBooking(b, Confirmed);
    }

    method RunEvent(a: Action, now: Time)
      requires Enabled(Now(), a, now)
      requires a.InsertEvent? || a.OpenEdit? || a.CommitEdit? || a.DeleteEvent?
      modifies this
      ensures Now() == Step(old(Now()), a, now)
    {
      match a
      case InsertEvent(e, change) => var _ := CreateEvent(e, change);
      case OpenEdit(e, change) => var _ := BeginUpdate(e, change);
      case CommitEdit(e) => var _ := CommitUpdate(e);
      case DeleteEvent(e) => var _ := DeleteEvent(e, true);
    }

    /** The methods are the engine: whatever is called when it may be, the tables take that step and stay sound. */
    method Execute(a: Action, now: Time)
      requires Inv(Now()) && Enabled(Now(), a, now)
      modifies this
      ensures Now() == Apply(old(Now()), a, now)
      ensures Inv(Now())
    {
      ghost var before := Now();
      if a.FastPath? || a.OpenCreate? || a.CommitCreate? || a.LookupCreate? {
        RunCreate(a, now);
      } else if a.PayBooking? || a.SweepBooking? || a.ReadForCancel? || a.CancelBooking? {
        RunBooking(a, now);
      } else {
        RunEvent(a, now);
      }
      clock := now;
      StepKeepsInv(before, a, now, Now());
    }
  }
}
