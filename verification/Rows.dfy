/** Table rows, the transactions in flight, and the shared queries over them. */
module Rows {
  import opened Wrappers
  import opened SeatLayout

  type Id = nat

  /** Microseconds. */
  type Time = int

  const HOLD_PERIOD: int := 15 * 60 * 1_000_000
  const MAX_RETRIES: nat := 3

  datatype Status = Pending | Confirmed | Failed | Expired | Cancelled
  {
    /** Payment can still settle the booking. */
    predicate Open() { Pending? || Failed? }

    /** The booking owns its seats. */
    predicate Live() { Open() || Confirmed? }
  }

  datatype Booking = Booking(
    user: Id, event: Id, status: Status, amount: int, key: string, expiresAt: Time, retryCount: nat)
  {
    /** The time-based hold test every availability query shares. */
    predicate Held(now: Time)
    {
      status.Confirmed? || (status.Open() && expiresAt > now)
    }
  }

  datatype PaymentStatus = Unsettled | Success | Declined

  datatype Payment = Payment(amount: int, status: PaymentStatus)

  datatype Seat = Seat(event: Id, spec: SeatSpec)

  /** `space` is the foreign key; the layout behind it may change without the event. */
  datatype Event = Event(price: int, totalSeats: int, space: Option<Id>, archived: bool, startTime: Time)

  /** Key of a booking-seat row; the row's only other column is its active flag. */
  datatype Claim = Claim(booking: Id, seat: Id)

  /** `price` is that of the event object the caller loaded beforehand. */
  datatype CreateRequest = CreateRequest(user: Id, event: Id, price: int, seatIds: seq<Id>, key: Option<string>)

  datatype Phase = Holding(readAt: Time) | RolledBack

  /** A booking creation between its availability read and its commit, or after its rollback. */
  datatype CreateTxn = CreateTxn(request: CreateRequest, seats: set<Id>, phase: Phase)

  datatype SpaceRef = SpaceRef(id: Id, layout: Space)

  /** An update through the API, or the admin action that re-reads the layout of the event's space. */
  datatype EventChange =
    | Update(price: int, totalSeats: int, archived: bool, space: Option<SpaceRef>, startTime: Time)
    | Resync(layout: Space)

  /** An event edit between taking its locks and its commit: seats above `kept` go, `added` come. */
  datatype EditTxn = EditTxn(target: Event, kept: int, removed: set<Id>, added: seq<SeatSpec>, viaApi: bool)

  datatype State = State(
    events: map<Id, Event>,
    seats: map<Id, Seat>,
    nextSeat: Id,
    bookings: map<Id, Booking>,
    nextBooking: Id,
    claims: map<Claim, bool>,
    payments: map<Id, Payment>,
    creates: map<Id, CreateTxn>,
    edits: map<Id, EditTxn>,
    stale: set<Id>,
    clock: Time)

  function EmptyState(now: Time): State
  {
    State(map[], map[], 0, map[], 0, map[], map[], map[], map[], {}, now)
  }

  // ---------------------------------------------------------------- queries

  /** Python's notion of a usable idempotency key. */
  predicate Truthy(key: Option<string>) { key.Some? && key.value != "" }

  predicate Keyed(bookings: map<Id, Booking>, b: Id, user: Id, key: string)
  {
    b in bookings && bookings[b].user == user && bookings[b].key == key
  }

  ghost function ExistingBooking(bookings: map<Id, Booking>, user: Id, key: string): (r: Option<Id>)
    ensures r.Some? ==> Keyed(bookings, r.value, user, key)
    ensures r.None? ==> forall b :: !Keyed(bookings, b, user, key)
  {
    if exists b :: Keyed(bookings, b, user, key) then var b :| Keyed(bookings, b, user, key); Some(b) else None
  }

  /** The availability test on one booking-seat row; its active flag plays no part. */
  predicate Taken(bookings: map<Id, Booking>, c: Claim, now: Time)
  {
    c.booking in bookings && bookings[c.booking].Held(now)
  }

  function UnavailableSeats(bookings: map<Id, Booking>, claims: map<Claim, bool>, ids: set<Id>, now: Time): set<Id>
  {
    set c | c in claims && c.seat in ids && Taken(bookings, c, now) :: c.seat
  }

  predicate Active(claims: map<Claim, bool>, c: Claim) { c in claims && claims[c] }

  predicate Numbered(seats: map<Id, Seat>, e: Id, x: Id) { x in seats && seats[x].event == e }

  function SeatsOf(seats: map<Id, Seat>, e: Id): set<Id>
  {
    set x | x in seats && seats[x].event == e
  }

  function SeatsAbove(seats: map<Id, Seat>, e: Id, n: int): set<Id>
  {
    set x | x in seats && seats[x].event == e && seats[x].spec.number > n
  }

  predicate HasHistory(claims: map<Claim, bool>, ids: set<Id>)
  {
    exists c :: c in claims && c.seat in ids
  }

  predicate HoldsLock(creates: map<Id, CreateTxn>, t: Id) { t in creates && creates[t].phase.Holding? }
}
