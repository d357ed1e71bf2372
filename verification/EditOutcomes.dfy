/** What creating, updating, re-syncing and deleting an event do to its row and its seats, said without the engine's plan. */
module EditOutcomes {
  import opened Wrappers
  import opened SeatLayout
  import opened Rows
  import opened Engine
  import opened Invariant
  import opened Preservation

  // ---------------------------------------------------------------- what an edit is to achieve

  function Capacity(layout: Space): int
  {
    match layout
    case General(capacity) => capacity
    case Labeled(rows, columns, _) => rows * columns
  }

  function NewSpace(was: Event, change: EventChange): Option<Id>
  {
    if change.Resync? then was.space else if change.space.Some? then Some(change.space.value.id) else None
  }

  function NewLayout(change: EventChange): Option<Space>
  {
    if change.Resync? then Some(change.layout) else if change.space.Some? then Some(change.space.value.layout) else None
  }

  /** All seats are made anew: the space changes, or its layout is asked for again. */
  predicate MakesAnew(was: Event, change: EventChange)
  {
    change.Resync? || NewSpace(was, change) != was.space
  }

  /** A total typed by hand counts only for an event without a space before and after. */
  function NewTotal(was: Event, change: EventChange): int
  {
    if MakesAnew(was, change) && NewLayout(change).Some? then Capacity(NewLayout(change).value)
    else if was.space.Some? || change.Resync? then was.totalSeats
    else change.totalSeats
  }

  function NewRow(was: Event, change: EventChange): Event
  {
    match change
    case Update(price, _, archived, _, startTime) => Event(price, NewTotal(was, change), NewSpace(was, change), archived, startTime)
    case Resync(_) => Event(was.price, NewTotal(was, change), was.space, was.archived, was.startTime)
  }

  /** The seat is not touched by the edit. */
  predicate Survives(seats: map<Id, Seat>, was: Event, change: EventChange, x: Id)
  {
    x in seats && !MakesAnew(was, change) && seats[x].spec.number <= NewTotal(was, change)
  }

  /** The spec of some cell of the grid, as its row and column make it. */
  ghost predicate IsCell(rows: nat, columns: nat, alpha: bool, spec: SeatSpec)
  {
    exists r: nat, c: nat :: 1 <= r <= rows && 1 <= c <= columns &&
      spec == SeatSpec((r - 1) * columns + c, Some(Position(r, c)), Some(SeatLabel(alpha, r, c)))
  }

  lemma CellIsCell(rows: nat, columns: nat, alpha: bool, i: nat)
    requires i < rows * columns
    ensures IsCell(rows, columns, alpha, CellSpec(columns, alpha, rows, i))
  {
    PositiveFactor(rows, columns);
    CellRow(rows, columns, i);
    var r, c := i / columns + 1, i % columns + 1;
    assert 1 <= r <= rows && 1 <= c <= columns;
    assert CellSpec(columns, alpha, rows, i) == SeatSpec((r - 1) * columns + c, Some(Position(r, c)), Some(SeatLabel(alpha, r, c)));
  }

  /** Seat `number` as the edit makes it: a cell of the grid, or a bare number. */
  ghost predicate MadeAs(was: Event, change: EventChange, spec: SeatSpec)
  {
    if MakesAnew(was, change) && NewLayout(change).Some? && NewLayout(change).value.Labeled? then
      var Labeled(rows, columns, alpha) := NewLayout(change).value;
      IsCell(rows, columns, alpha, spec)
    else spec == SeatSpec(spec.number, None, None)
  }

  /** Some seat the edit would delete was booked at some time. */
  ghost predicate DeletesBooked(s: State, e: Id, was: Event, change: EventChange)
  {
    exists c :: c in s.claims && Numbered(s.seats, e, c.seat) && !Survives(s.seats, was, change, c.seat)
  }

  // ---------------------------------------------------------------- the plan

  lemma PlanRow(s: State, e: Id, change: EventChange)
    requires e in s.events
    ensures PlanEdit(s, e, change).target == NewRow(s.events[e], change)
  {
  }

  lemma PlanDeletes(s: State, e: Id, change: EventChange, x: Id)
    requires InventoryOk(s) && e in s.events
    ensures x in PlanEdit(s, e, change).removed <==> Numbered(s.seats, e, x) && !Survives(s.seats, s.events[e], change, x)
  {
    var was := s.events[e];
    assert ExactNumbers(s.seats, e, was.totalSeats);
    if Numbered(s.seats, e, x) { assert s.seats[x].spec.number <= was.totalSeats; }
  }

  /** What the layout makes of its i-th seat. */
  lemma SpecForm(layout: Option<Space>, fallback: int, i: nat)
    requires i < |SeatSpecs(layout, fallback)|
    ensures var spec := SeatSpecs(layout, fallback)[i];
            if layout.Some? && layout.value.Labeled? then IsCell(layout.value.rows, layout.value.columns, layout.value.alphaNumeric, spec)
            else spec == SeatSpec(i + 1, None, None)
  {
    if layout.Some? && layout.value.Labeled? {
      var Labeled(rows, columns, alpha) := layout.value;
      assert SeatSpecs(layout, fallback)[i] == CellSpec(columns, alpha, rows, i);
      CellIsCell(rows, columns, alpha, i);
    } else {
      assert SeatSpecs(layout, fallback)[i] == PlainSpec(1 + i);
    }
  }

  lemma SpecMadeAs(was: Event, change: EventChange, fallback: int, i: nat)
    requires MakesAnew(was, change) && i < |SeatSpecs(NewLayout(change), fallback)|
    ensures MadeAs(was, change, SeatSpecs(NewLayout(change), fallback)[i])
  {
    SpecForm(NewLayout(change), fallback, i);
  }

  lemma CellRow(rows: nat, columns: nat, i: nat)
    requires i < rows * columns && columns > 0
    ensures 0 <= i / columns < rows && 0 <= i % columns < columns
  {
    var q := i / columns;
    assert i == q * columns + i % columns;
    assert (q - rows) * columns < 0 by { assert q * columns < rows * columns; }
  }

  lemma PlanMakes(s: State, e: Id, change: EventChange, i: nat)
    requires e in s.events && i < |PlanEdit(s, e, change).added|
    ensures MadeAs(s.events[e], change, PlanEdit(s, e, change).added[i])
  {
    var was := s.events[e];
    var added := PlanEdit(s, e, change).added;
    if MakesAnew(was, change) {
      assert TargetLayout(change) == NewLayout(change);
      assert added == SeatSpecs(NewLayout(change), RequestedTotal(was, change));
      SpecMadeAs(was, change, RequestedTotal(was, change), i);
    } else {
      assert added == PlainSpecs(was.totalSeats + 1, change.totalSeats);
      assert added[i] == PlainSpec(was.totalSeats + 1 + i);
    }
  }

  lemma RefusedIff(s: State, e: Id, change: EventChange)
    requires InventoryOk(s) && e in s.events
    ensures BeginEdit(s, e, change).1.Rejected? <==>
              || (change.Resync? && s.events[e].space.None?)
              || NewRow(s.events[e], change).totalSeats <= 0 || NewRow(s.events[e], change).price < 0
              || DeletesBooked(s, e, s.events[e], change)
    ensures BeginEdit(s, e, change) == if BeginEdit(s, e, change).1.Rejected? then (s, Rejected)
                                       else (s.(edits := s.edits[e := PlanEdit(s, e, change)]), Editing)
  {
    PlanRow(s, e, change);
    var plan := PlanEdit(s, e, change);
    forall x ensures x in plan.removed <==> Numbered(s.seats, e, x) && !Survives(s.seats, s.events[e], change, x) {
      PlanDeletes(s, e, change, x);
    }
    assert HasHistory(s.claims, plan.removed) <==> DeletesBooked(s, e, s.events[e], change) by {
      if HasHistory(s.claims, plan.removed) {
        var c :| c in s.claims && c.seat in plan.removed;
        assert Numbered(s.seats, e, c.seat);
      }
      if DeletesBooked(s, e, s.events[e], change) {
        var c :| c in s.claims && Numbered(s.seats, e, c.seat) && !Survives(s.seats, s.events[e], change, c.seat);
        assert c.seat in plan.removed;
      }
    }
  }

  // ---------------------------------------------------------------- while the edit is open

  /** An open edit keeps its event: the row, the seats and the plan stay until it commits. */
  ghost predicate SameEvent(s: State, s': State, e: Id)
  {
    && e in s.events && e in s'.events && s'.events[e] == s.events[e]
    && e in s.edits && e in s'.edits && s'.edits[e] == s.edits[e]
    && (forall x :: Numbered(s'.seats, e, x) <==> Numbered(s.seats, e, x))
    && (forall x :: Numbered(s.seats, e, x) ==> s'.seats[x] == s.seats[x])
  }

  lemma OtherEditKeeps(s: State, f: Id, e: Id)
    requires InventoryOk(s) && EditsOk(s) && e in s.edits && f in s.edits && e != f
    ensures SameEvent(s, FinishEdit(s, f).0, e)
  {
    assert EditOk(s, e, s.edits[e]) && EditOk(s, f, s.edits[f]);
    CommitEditShape(s, f);
    assert s.edits[f].removed == SeatsAbove(s.seats, f, s.edits[f].kept);
    forall x ensures Numbered(FinishEdit(s, f).0.seats, e, x) <==> Numbered(s.seats, e, x)
      ensures Numbered(s.seats, e, x) ==> FinishEdit(s, f).0.seats[x] == s.seats[x]
    {
      if Numbered(s.seats, e, x) { assert x !in s.edits[f].removed; }
    }
  }

  lemma OtherInsertKeeps(s: State, f: Id, change: EventChange, now: Time, s': State, e: Id)
    requires ClaimsRefer(s) && InventoryOk(s) && e in s.edits && e in s.events
    requires f !in s.events && change.Update? && now > s.clock && s' == AddEvent(s, f, change).0.(clock := now)
    ensures SameEvent(s, s', e)
  {
    if AddEvent(s, f, change).1.Saved? {
      AddEventShape(s, f, change, now, s');
      forall x: Id ensures Numbered(s'.seats, e, x) <==> Numbered(s.seats, e, x) {
        assert x in s'.seats ==> x in s.seats || s'.seats[x].event == f;
      }
    } else {
      AddEventRefused(s, f, change);
    }
  }

  lemma OtherDeleteKeeps(s: State, f: Id, e: Id)
    requires e in s.edits && e in s.events && f !in s.edits
    ensures SameEvent(s, DestroyEvent(s, f).0, e)
  {
  }

  lemma OtherEventKeeps(s: State, a: Action, now: Time, s': State, e: Id)
    requires ClaimsRefer(s) && InventoryOk(s) && EditsOk(s) && e in s.edits && Enabled(s, a, now) && s' == Apply(s, a, now)
    requires a.InsertEvent? || a.DeleteEvent?
    ensures SameEvent(s, s', e)
  {
    assert EditOk(s, e, s.edits[e]);
    match a {
      case InsertEvent(f, change) => OtherInsertKeeps(s, f, change, now, s', e);
      case DeleteEvent(f) => OtherDeleteKeeps(s, f, e);
    }
  }

  lemma SameInventoryKeeps(s: State, s': State, e: Id)
    requires e in s.events && e in s.edits && SameInventory(s, s') && e in s'.edits && s'.edits[e] == s.edits[e]
    ensures SameEvent(s, s', e)
  {
  }

  lemma OpenedKeeps(s: State, a: Action, now: Time, s': State, e: Id)
    requires EditsOk(s) && e in s.edits && Enabled(s, a, now) && s' == Apply(s, a, now) && a.OpenEdit?
    ensures SameEvent(s, s', e)
  {
    assert EditOk(s, e, s.edits[e]);
    OpenEditEffect(s, a.event, a.change);
  }

  lemma OpenEditEffect(s: State, f: Id, change: EventChange)
    requires f in s.events
    ensures BeginEdit(s, f, change).0 == s || BeginEdit(s, f, change).0 == s.(edits := s.edits[f := PlanEdit(s, f, change)])
  {
  }

  lemma BookingsKeepInventory(s: State, a: Action, now: Time, s': State)
    requires Enabled(s, a, now) && s' == Apply(s, a, now)
    requires !a.InsertEvent? && !a.DeleteEvent? && !a.CommitEdit? && !a.OpenEdit?
    ensures SameInventory(s, s') && s'.edits == s.edits
  {
    if a.CommitCreate? {
      CommitKeepsInventory(s, a.txn, now);
    } else if a.OpenCreate? {
      BeginKeepsInventory(s, a.txn, a.request, now);
    } else {
      RowStepsKeepInventory(s, a, now, s');
    }
  }

  lemma RowStepsKeepInventory(s: State, a: Action, now: Time, s': State)
    requires Enabled(s, a, now) && s' == Apply(s, a, now) && !a.CommitCreate? && !a.OpenCreate?
    requires !a.InsertEvent? && !a.DeleteEvent? && !a.CommitEdit? && !a.OpenEdit?
    ensures SameInventory(s, s') && s'.edits == s.edits
  {
  }

  lemma CommitKeepsInventory(s: State, t: Id, now: Time)
    requires t in s.creates
    ensures SameInventory(s, FinishCreate(s, t, now).0) && FinishCreate(s, t, now).0.edits == s.edits
  {
  }

  lemma BeginKeepsInventory(s: State, t: Id, q: CreateRequest, now: Time)
    ensures SameInventory(s, BeginCreate(s, t, q, now).0) && BeginCreate(s, t, q, now).0.edits == s.edits
  {
  }

  lemma StepKeepsEvent(s: State, a: Action, now: Time, s': State, e: Id)
    requires ClaimsRefer(s) && InventoryOk(s) && EditsOk(s) && e in s.edits && Enabled(s, a, now) && s' == Apply(s, a, now)
    requires a != CommitEdit(e)
    ensures SameEvent(s, s', e)
  {
    assert EditOk(s, e, s.edits[e]);
    if a.CommitEdit? {
      OtherEditKeeps(s, a.event, e);
    } else if a.InsertEvent? || a.DeleteEvent? {
      OtherEventKeeps(s, a, now, s', e);
    } else if a.OpenEdit? {
      OpenedKeeps(s, a, now, s', e);
    } else {
      BookingsKeepInventory(s, a, now, s');
      SameInventoryKeeps(s, s', e);
    }
  }

  lemma SameEventTransitive(s: State, s': State, s'': State, e: Id)
    requires SameEvent(s, s', e) && SameEvent(s', s'', e)
    ensures SameEvent(s, s'', e)
  {
  }

  ghost predicate NotCommitted(labels: seq<Label>, e: Id, lo: nat, hi: nat)
  {
    forall k: nat :: lo <= k < hi && k < |labels| ==> labels[k].action != CommitEdit(e)
  }

  lemma RunInventory(states: seq<State>, labels: seq<Label>, i: nat)
    requires IsRun(states, labels) && i < |states|
    ensures ClaimsRefer(states[i]) && InventoryOk(states[i]) && EditsOk(states[i])
  {
    RunKeepsInv(states, labels, i);
  }

  lemma EventHeldByStep(states: seq<State>, labels: seq<Label>, k: nat, e: Id)
    requires IsRun(states, labels) && k < |labels| && e in states[k].edits && labels[k].action != CommitEdit(e)
    ensures SameEvent(states[k], states[k + 1], e)
  {
    RunInventory(states, labels, k);
    assert StepAt(states, labels, k);
    StepKeepsEvent(states[k], labels[k].action, labels[k].now, states[k + 1], e);
  }

  lemma {:induction false} OpenEditHolds(states: seq<State>, labels: seq<Label>, i: nat, j: nat, e: Id)
    requires IsRun(states, labels) && i <= j <= |labels| && e in states[i].edits && NotCommitted(labels, e, i, j)
    ensures SameEvent(states[i], states[j], e)
  {
    if i < j {
      OpenEditHolds(states, labels, i, j - 1, e);
      EventHeldByStep(states, labels, j - 1, e);
      SameEventTransitive(states[i], states[j - 1], states[j], e);
    } else {
      RunInventory(states, labels, i);
      assert EditOk(states[i], e, states[i].edits[e]);
    }
  }

  // ---------------------------------------------------------------- the commit

  /** Bookings, payments and every other event with its seats are as they were. */
  ghost predicate RestUntouched(s: State, s': State, e: Id)
  {
    && s'.bookings == s.bookings && s'.claims == s.claims && s'.payments == s.payments
    && (forall f :: f != e ==> (f in s'.events <==> f in s.events))
    && (forall f :: f != e && f in s.events ==> s'.events[f] == s.events[f])
    && (forall x, f :: f != e ==> (Numbered(s'.seats, f, x) <==> Numbered(s.seats, f, x)))
    && (forall x, f :: f != e && Numbered(s.seats, f, x) ==> s'.seats[x] == s.seats[x])
  }

  lemma CommitLeavesRest(s: State, e: Id, s': State)
    requires InventoryOk(s) && e in s.edits && EditOk(s, e, s.edits[e]) && s' == FinishEdit(s, e).0.(clock := s'.clock)
    ensures RestUntouched(s, s', e)
  {
    var txn := s.edits[e];
    forall x, f | f != e
      ensures Numbered(s'.seats, f, x) <==> Numbered(s.seats, f, x)
      ensures Numbered(s.seats, f, x) ==> s'.seats[x] == s.seats[x]
    {
      assert x in txn.removed ==> Numbered(s.seats, e, x);
    }
  }

  /** The rows an edit is to leave behind. */
  ghost predicate AsEdited(s: State, s': State, e: Id, was: Event, change: EventChange)
  {
    && RestUntouched(s, s', e) && e in s'.events && s'.events[e] == NewRow(was, change)
    && ExactNumbers(s'.seats, e, NewTotal(was, change))
    && (forall x :: Numbered(s.seats, e, x) && Survives(s.seats, was, change, x) ==> x in s'.seats && s'.seats[x] == s.seats[x])
    && (forall x :: Numbered(s.seats, e, x) && !Survives(s.seats, was, change, x) ==> x !in s'.seats)
    && (forall x :: Numbered(s'.seats, e, x) && x !in s.seats ==> MadeAs(was, change, s'.seats[x].spec))
  }

  lemma CommittedSeats(s: State, e: Id)
    requires InventoryOk(s) && e in s.edits && EditOk(s, e, s.edits[e])
    ensures var s', txn := FinishEdit(s, e).0, s.edits[e];
            && e in s'.events && s'.events[e] == txn.target
            && (forall x :: x in txn.removed ==> x !in s'.seats)
            && (forall x :: Numbered(s'.seats, e, x) && x !in s.seats ==>
                  exists i :: 0 <= i < |txn.added| && s'.seats[x].spec == txn.added[i])
  {
    CommitEditSucceeds(s, e);
    var s', txn := FinishEdit(s, e).0, s.edits[e];
    forall x: Id | Numbered(s'.seats, e, x) && x !in s.seats ensures exists i :: 0 <= i < |txn.added| && s'.seats[x].spec == txn.added[i] {
      assert x in AddedSeats(e, s.nextSeat, txn.added);
      assert s'.seats[x] == Seat(e, txn.added[x - s.nextSeat]);
    }
    forall x | x in txn.removed ensures x !in s'.seats {
      assert x in s.seats && x < s.nextSeat;
    }
  }

  lemma CommitAsEdited(s0: State, s: State, e: Id, change: EventChange, s': State)
    requires InventoryOk(s0) && e in s0.events && InventoryOk(s) && e in s.edits && EditOk(s, e, s.edits[e])
    requires s.edits[e] == PlanEdit(s0, e, change)
    requires forall x :: Numbered(s.seats, e, x) <==> Numbered(s0.seats, e, x)
    requires forall x :: Numbered(s.seats, e, x) ==> s.seats[x] == s0.seats[x]
    requires s' == FinishEdit(s, e).0.(clock := s'.clock)
    ensures AsEdited(s, s', e, s0.events[e], change)
  {
    var was, plan := s0.events[e], s.edits[e];
    PlanRow(s0, e, change);
    CommitEditShape(s, e);
    CommittedSeats(s, e);
    CommitLeavesRest(s, e, s');
    forall x ensures x in plan.removed <==> Numbered(s.seats, e, x) && !Survives(s.seats, was, change, x) {
      PlanDeletes(s0, e, change, x);
    }
    forall x | Numbered(s'.seats, e, x) && x !in s.seats ensures MadeAs(was, change, s'.seats[x].spec) {
      var i :| 0 <= i < |plan.added| && s'.seats[x].spec == plan.added[i];
      PlanMakes(s0, e, change, i);
    }
  }

  lemma OpenEditStep(s: State, e: Id, change: EventChange, now: Time, s': State)
    requires Enabled(s, OpenEdit(e, change), now) && s' == Apply(s, OpenEdit(e, change), now)
    ensures e in s.events && e !in s.edits && s' == BeginEdit(s, e, change).0.(clock := now)
  {
  }

  lemma CommitEditStep(s: State, e: Id, now: Time, s': State)
    requires Enabled(s, CommitEdit(e), now) && s' == Apply(s, CommitEdit(e), now)
    ensures e in s.edits && s' == FinishEdit(s, e).0.(clock := now)
  {
  }

  /**
    When an edit is refused under its locks: a re-sync without a space, a total or price the
    database would not take, or a seat to be deleted that was ever booked. Otherwise it is
    opened, and nothing else changes.
   */
  lemma EditRefusedIff(states: seq<State>, labels: seq<Label>, i: nat, e: Id, change: EventChange)
    requires IsRun(states, labels) && i < |labels| && StepAt(states, labels, i) && labels[i].action == OpenEdit(e, change)
    ensures var s, s' := states[i], states[i + 1];
            && e in s.events
            && (e !in s'.edits <==>
                  || (change.Resync? && s.events[e].space.None?)
                  || NewRow(s.events[e], change).totalSeats <= 0 || NewRow(s.events[e], change).price < 0
                  || DeletesBooked(s, e, s.events[e], change))
            && s' == s.(edits := s'.edits, clock := labels[i].now)
  {
    RunInventory(states, labels, i);
    OpenEditStep(states[i], e, change, labels[i].now, states[i + 1]);
    RefusedIff(states[i], e, change);
  }

  lemma EditOpened(states: seq<State>, labels: seq<Label>, i: nat, e: Id, change: EventChange)
    requires IsRun(states, labels) && i < |labels| && StepAt(states, labels, i)
    requires labels[i].action == OpenEdit(e, change) && e in states[i + 1].edits
    ensures e in states[i].events && InventoryOk(states[i])
    ensures states[i + 1].edits[e] == PlanEdit(states[i], e, change) && states[i + 1].seats == states[i].seats
  {
    RunInventory(states, labels, i);
    OpenEditStep(states[i], e, change, labels[i].now, states[i + 1]);
    RefusedIff(states[i], e, change);
  }

  lemma EditCommitted(states: seq<State>, labels: seq<Label>, j: nat, e: Id)
    requires IsRun(states, labels) && j < |labels| && StepAt(states, labels, j) && labels[j].action == CommitEdit(e)
    ensures InventoryOk(states[j]) && e in states[j].edits && EditOk(states[j], e, states[j].edits[e])
    ensures states[j + 1] == FinishEdit(states[j], e).0.(clock := states[j + 1].clock)
  {
    RunInventory(states, labels, j);
    CommitEditStep(states[j], e, labels[j].now, states[j + 1]);
  }

  /**
    What an edit that was opened leaves behind when it commits, whatever bookings and other
    edits ran in between: the row with every field the change asked for, the seats it keeps
    untouched, the others gone, and new ones made as its layout says.
   */
  lemma EditOutcome(states: seq<State>, labels: seq<Label>, i: nat, j: nat, e: Id, change: EventChange)
    requires IsRun(states, labels) && i < j < |labels| && StepAt(states, labels, i) && StepAt(states, labels, j)
    requires labels[i].action == OpenEdit(e, change) && e in states[i + 1].edits
    requires labels[j].action == CommitEdit(e) && NotCommitted(labels, e, i + 1, j)
    ensures e in states[i].events && AsEdited(states[j], states[j + 1], e, states[i].events[e], change)
  {
    EditOpened(states, labels, i, e, change);
    OpenEditHolds(states, labels, i + 1, j, e);
    EditCommitted(states, labels, j, e);
    CommitAsEdited(states[i], states[j], e, change, states[j + 1]);
  }

  // ---------------------------------------------------------------- creating and deleting

  /** The total a new event gets: its space's, or the one given. */
  function FirstTotal(change: EventChange): int
    requires change.Update?
  {
    if change.space.Some? then Capacity(change.space.value.layout) else change.totalSeats
  }

  ghost predicate FirstMadeAs(change: EventChange, spec: SeatSpec)
    requires change.Update?
  {
    if change.space.Some? && change.space.value.layout.Labeled? then
      var Labeled(rows, columns, alpha) := change.space.value.layout;
      IsCell(rows, columns, alpha, spec)
    else spec == SeatSpec(spec.number, None, None)
  }

  ghost predicate AsCreated(s: State, s': State, e: Id, change: EventChange)
    requires change.Update?
  {
    && RestUntouched(s, s', e) && e in s'.events
    && s'.events[e] == Event(change.price, FirstTotal(change), if change.space.Some? then Some(change.space.value.id) else None,
                             change.archived, change.startTime)
    && ExactNumbers(s'.seats, e, FirstTotal(change))
    && (forall x :: Numbered(s'.seats, e, x) ==> FirstMadeAs(change, s'.seats[x].spec))
    && (forall x :: x in s.seats ==> x in s'.seats && s'.seats[x] == s.seats[x])
  }

  lemma FirstSpecMadeAs(change: EventChange, i: nat)
    requires change.Update? && i < |SeatSpecs(TargetLayout(change), change.totalSeats)|
    ensures FirstMadeAs(change, SeatSpecs(TargetLayout(change), change.totalSeats)[i])
  {
    SpecForm(TargetLayout(change), change.totalSeats, i);
  }

  lemma InsertLeavesRest(s: State, s': State, e: Id)
    requires EventInserted(s, s', e)
    ensures RestUntouched(s, s', e)
  {
  }

  lemma AddedRow(s: State, e: Id, change: EventChange)
    requires change.Update? && AddEvent(s, e, change).1.Saved?
    ensures var s' := AddEvent(s, e, change).0;
            && e in s'.events && s'.events[e] == NewEvent(change, FirstTotal(change))
            && s'.seats == s.seats + AddedSeats(e, s.nextSeat, SeatSpecs(TargetLayout(change), change.totalSeats))
  {
  }

  lemma AddedSeat(seats: map<Id, Seat>, e: Id, first: Id, specs: seq<SeatSpec>, x: Id)
    requires !Numbered(seats, e, x) && Numbered(seats + AddedSeats(e, first, specs), e, x)
    ensures first <= x < first + |specs| && (seats + AddedSeats(e, first, specs))[x].spec == specs[x - first]
  {
    var added := AddedSeats(e, first, specs);
    assert x in added && added[x] == Seat(e, specs[x - first]);
  }

  lemma AddedSpecs(seats: map<Id, Seat>, e: Id, first: Id, change: EventChange, seats': map<Id, Seat>)
    requires change.Update? && seats' == seats + AddedSeats(e, first, SeatSpecs(TargetLayout(change), change.totalSeats))
    requires forall x :: !Numbered(seats, e, x)
    ensures forall x :: Numbered(seats', e, x) ==> FirstMadeAs(change, seats'[x].spec)
  {
    forall x: Id | Numbered(seats', e, x) ensures FirstMadeAs(change, seats'[x].spec) {
      AddedSeat(seats, e, first, SeatSpecs(TargetLayout(change), change.totalSeats), x);
      FirstSpecMadeAs(change, x - first);
    }
  }

  lemma AddedAsCreated(s: State, e: Id, change: EventChange, now: Time, s': State)
    requires ClaimsRefer(s) && InventoryOk(s) && e !in s.events && change.Update? && now > s.clock
    requires AddEvent(s, e, change).1.Saved? && s' == AddEvent(s, e, change).0.(clock := now)
    ensures AsCreated(s, s', e, change)
  {
    AddEventShape(s, e, change, now, s');
    AddedRow(s, e, change);
    AddedSpecs(s.seats, e, s.nextSeat, change, s'.seats);
    InsertLeavesRest(s, s', e);
  }

  lemma InsertEventStep(s: State, e: Id, change: EventChange, now: Time, s': State)
    requires Enabled(s, InsertEvent(e, change), now) && s' == Apply(s, InsertEvent(e, change), now)
    ensures e !in s.events && change.Update? && now > s.clock && s' == AddEvent(s, e, change).0.(clock := now)
  {
  }

  /** A new event is stored exactly when its totals are positive and its price is not negative, with every seat of its layout. */
  lemma CreateOutcome(states: seq<State>, labels: seq<Label>, i: nat, e: Id, change: EventChange)
    requires IsRun(states, labels) && i < |labels| && StepAt(states, labels, i) && labels[i].action == InsertEvent(e, change)
    ensures change.Update?
    ensures var s, s' := states[i], states[i + 1];
            if change.totalSeats > 0 && FirstTotal(change) > 0 && change.price >= 0
            then AsCreated(s, s', e, change) else s' == s.(clock := labels[i].now)
  {
    RunInventory(states, labels, i);
    InsertEventStep(states[i], e, change, labels[i].now, states[i + 1]);
    if AddEvent(states[i], e, change).1.Saved? { AddedAsCreated(states[i], e, change, labels[i].now, states[i + 1]); }
  }

  lemma DeleteEventStep(s: State, e: Id, now: Time, s': State)
    requires Enabled(s, DeleteEvent(e), now) && s' == Apply(s, DeleteEvent(e), now)
    ensures s' == DestroyEvent(s, e).0.(clock := now)
  {
  }

  lemma DeletedRows(s: State, e: Id)
    ensures var s' := DestroyEvent(s, e).0;
            if exists c :: c in s.claims && Numbered(s.seats, e, c.seat) then s' == s
            else && s' == s.(events := s'.events, seats := s'.seats)
                 && (forall f :: f in s'.events <==> f in s.events && f != e)
                 && (forall f :: f in s'.events ==> s'.events[f] == s.events[f])
                 && (forall x :: x in s'.seats <==> x in s.seats && s.seats[x].event != e)
                 && (forall x :: x in s'.seats ==> s'.seats[x] == s.seats[x])
  {
  }

  /** An event is deleted, with its seats and nothing else, exactly when none of its seats was ever booked. */
  lemma DeleteOutcome(states: seq<State>, labels: seq<Label>, i: nat, e: Id)
    requires IsRun(states, labels) && i < |labels| && StepAt(states, labels, i) && labels[i].action == DeleteEvent(e)
    ensures var s, s' := states[i], states[i + 1];
            if exists c :: c in s.claims && Numbered(s.seats, e, c.seat) then s' == s.(clock := labels[i].now)
            else && s' == s.(events := s'.events, seats := s'.seats, clock := labels[i].now)
                 && (forall f :: f in s'.events <==> f in s.events && f != e)
                 && (forall f :: f in s'.events ==> s'.events[f] == s.events[f])
                 && (forall x :: x in s'.seats <==> x in s.seats && s.seats[x].event != e)
                 && (forall x :: x in s'.seats ==> s'.seats[x] == s.seats[x])
  {
    DeleteEventStep(states[i], e, labels[i].now, states[i + 1]);
    DeletedRows(states[i], e);
  }
}
