/** Seat messages one by one: the sending loop, the consumer, and why they amount to the announcements of LiveSeatMap. */
module SeatChannel {
  import opened Rows
  import opened Availability
  import opened LiveSeatMap

  /** One message to the group of one event. */
  datatype SeatUpdate = SeatUpdate(event: Id, number: int, status: SeatStatus)

  /** What a client that watches event `e` shows after the messages, in order. */
  function Delivered(view: map<int, SeatStatus>, e: Id, updates: seq<SeatUpdate>): map<int, SeatStatus>
  {
    if updates == [] then view
    else
      var before, u := Delivered(view, e, updates[..|updates| - 1]), updates[|updates| - 1];
      if u.event == e then before[u.number := u.status] else before
  }

  function NumbersIn(updates: seq<SeatUpdate>): set<int>
  {
    if updates == [] then {} else NumbersIn(updates[..|updates| - 1]) + {updates[|updates| - 1].number}
  }

  predicate Uniform(updates: seq<SeatUpdate>, event: Id, status: SeatStatus)
  {
    forall i :: 0 <= i < |updates| ==> updates[i].event == event && updates[i].status == status
  }

  lemma OneMoreUpdate(updates: seq<SeatUpdate>, event: Id, number: int, status: SeatStatus)
    requires Uniform(updates, event, status)
    ensures var more := updates + [SeatUpdate(event, number, status)];
            Uniform(more, event, status) && NumbersIn(more) == NumbersIn(updates) + {number}
  {
    var more := updates + [SeatUpdate(event, number, status)];
    assert more[..|more| - 1] == updates;
  }

  /** Whatever order the seats are sent in, the client ends up with the announcement laid over its view. */
  lemma {:induction false} SpelledOut(view: map<int, SeatStatus>, e: Id, updates: seq<SeatUpdate>, event: Id, status: SeatStatus)
    requires Uniform(updates, event, status)
    ensures Delivered(view, e, updates) == Overlay(view, e, Announce(event, NumbersIn(updates), status))
  {
    if updates != [] {
      var front, u := updates[..|updates| - 1], updates[|updates| - 1];
      SpelledOut(view, e, front, event, status);
      assert u.event == event && u.status == status;
      if event == e {
        assert Delivered(view, e, front)[u.number := status] == Overlay(view, e, Announce(event, NumbersIn(updates), status));
      }
    } else {
      assert Overlay(view, e, Announce(event, {}, status)) == view;
    }
  }

  /** The group's messages in the order they were sent. */
  class ChannelLayer {
    var sent: seq<SeatUpdate>

    constructor ()
      ensures sent == []
    {
      sent := [];
    }

    method BroadcastSeatUpdate(event: Id, number: int, status: SeatStatus)
      modifies this
      ensures sent == old(sent) + [SeatUpdate(event, number, status)]
    {
      sent := sent + [SeatUpdate(event, number, status)];
    }

    method BroadcastRows(db: State, rows: set<Claim>, event: Id, status: SeatStatus) returns (ghost updates: seq<SeatUpdate>)
      requires forall c :: c in rows ==> c.seat in db.seats
      modifies this
      ensures sent == old(sent) + updates
      ensures Uniform(updates, event, status) && NumbersIn(updates) == NumbersAt(db, rows)
    {
      var todo := rows;
      updates := [];
      while todo != {}
        invariant todo <= rows
        invariant sent == old(sent) + updates && Uniform(updates, event, status)
        invariant NumbersIn(updates) == NumbersAt(db, rows - todo)
        decreases |todo|
      {
        var c :| c in todo;
        var number := db.seats[c.seat].spec.number;
        BroadcastSeatUpdate(event, number, status);
        OneMoreUpdate(updates, event, number, status);
        OneMoreRow(db, rows - todo, c);
        assert rows - (todo - {c}) == rows - todo + {c};
        updates := updates + [SeatUpdate(event, number, status)];
        todo := todo - {c};
      }
      assert rows - todo == rows;
    }

    /** One message for every row the booking ever had, released or not. */
    method BroadcastForBooking(db: State, b: Id, status: SeatStatus) returns (ghost updates: seq<SeatUpdate>)
      requires b in db.bookings
      modifies this
      ensures sent == old(sent) + updates
      ensures Uniform(updates, db.bookings[b].event, status) && NumbersIn(updates) == NumbersOf(db, b)
    {
      RowsNumbers(db, b);
      updates := BroadcastRows(db, RowsOf(db, b), db.bookings[b].event, status);
    }
  }

  function RowsOf(db: State, b: Id): set<Claim>
  {
    set c | c in db.claims && c.booking == b && c.seat in db.seats
  }

  lemma RowsNumbers(db: State, b: Id)
    ensures NumbersAt(db, RowsOf(db, b)) == NumbersOf(db, b)
  {
  }

  function NumbersAt(db: State, rows: set<Claim>): set<int>
  {
    set c | c in rows && c.seat in db.seats :: db.seats[c.seat].spec.number
  }

  lemma OneMoreRow(db: State, rows: set<Claim>, c: Claim)
    requires c.seat in db.seats
    ensures NumbersAt(db, rows + {c}) == NumbersAt(db, rows) + {db.seats[c.seat].spec.number}
  {
  }

  /** One browser tab: joined the group first, then took its snapshot, then forwards what it receives. */
  class SeatConsumer {
    const event: Id
    const joined: nat
    var received: nat
    var view: map<int, SeatStatus>

    constructor (event: Id, layer: ChannelLayer, snapshot: map<int, SeatStatus>)
      ensures this.event == event && joined == |layer.sent| && received == joined && view == snapshot
    {
      this.event := event;
      joined := |layer.sent|;
      received := |layer.sent|;
      view := snapshot;
    }

    method SeatReceived(update: SeatUpdate)
      modifies this`view
      ensures view == if update.event == event then old(view)[update.number := update.status] else old(view)
    {
      if update.event == event { view := view[update.number := update.status]; }
    }

    /** Messages arrive in order; after them the view is the old one with all of them laid over it. */
    method CatchUp(layer: ChannelLayer)
      requires received <= |layer.sent|
      modifies this
      ensures received == |layer.sent|
      ensures view == Delivered(old(view), event, layer.sent[old(received)..])
    {
      var start, updates := received, layer.sent[received..];
      while received < |layer.sent|
        invariant start == old(received) <= received <= |layer.sent| && updates == layer.sent[start..]
        invariant view == Delivered(old(view), event, updates[..received - start])
      {
        var k := received - start;
        assert updates[..k + 1][..k] == updates[..k] && updates[..k + 1][k] == updates[k] == layer.sent[received];
        SeatReceived(layer.sent[received]);
        received := received + 1;
      }
      assert updates[..|updates|] == updates;
    }
  }
}
