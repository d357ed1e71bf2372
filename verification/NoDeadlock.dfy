/** No call waits for ever: whatever transactions are open, they can all end, and then any call can run. */
module NoDeadlock {
  import opened Rows
  import opened Engine
  import opened Invariant
  import opened Preservation
  import opened LapsedHold

  // ---------------------------------------------------------------- a rolled-back creation has a key

  /** A creation without its locks waits for the lookup, which needs a usable key. */
  ghost predicate KeyedRollbacks(creates: map<Id, CreateTxn>)
  {
    forall t :: t in creates && creates[t].phase.RolledBack? ==> Truthy(creates[t].request.key)
  }

  lemma StepKeepsRollbacks(s: State, a: Action, now: Time, s': State)
    requires KeyedRollbacks(s.creates) && Enabled(s, a, now) && s' == Apply(s, a, now)
    ensures KeyedRollbacks(s'.creates)
  {
    if a.OpenCreate? {
      OpenKeepsRollbacks(s, a.txn, a.request, now);
    } else if a.CommitCreate? {
      CommitKeepsRollbacks(s, a.txn, now);
    }
  }

  lemma OpenKeepsRollbacks(s: State, t: Id, q: CreateRequest, now: Time)
    requires KeyedRollbacks(s.creates)
    ensures KeyedRollbacks(BeginCreate(s, t, q, now).0.creates)
  {
  }

  lemma CommitKeepsRollbacks(s: State, t: Id, now: Time)
    requires KeyedRollbacks(s.creates) && t in s.creates
    ensures KeyedRollbacks(FinishCreate(s, t, now).0.creates)
  {
  }

  lemma {:induction false} RunKeyedRollbacks(states: seq<State>, labels: seq<Label>, n: nat)
    requires IsRun(states, labels) && n < |states|
    ensures KeyedRollbacks(states[n].creates)
  {
    if n > 0 {
      RunKeyedRollbacks(states, labels, n - 1);
      assert StepAt(states, labels, n - 1);
      StepKeepsRollbacks(states[n - 1], labels[n - 1].action, labels[n - 1].now, states[n]);
    }
  }

  // ---------------------------------------------------------------- ending what is open

  /** The step ends a transaction, or its first half. */
  predicate Ends(a: Action) { a.CommitCreate? || a.LookupCreate? || a.CommitEdit? }

  function HoldingTxns(creates: map<Id, CreateTxn>): set<Id>
  {
    set t | t in creates && creates[t].phase.Holding?
  }

  /** Two ends for a creation that holds its locks, one for one that has rolled back and for an edit. */
  function OpenWork(creates: map<Id, CreateTxn>, edits: map<Id, EditTxn>): nat
  {
    |creates.Keys| + |HoldingTxns(creates)| + |edits.Keys|
  }

  /** What is still there for a call to work on. */
  ghost predicate StillThere(s: State, s': State)
  {
    && (forall e :: e in s'.events <==> e in s.events) && (forall b :: b in s.bookings ==> b in s'.bookings)
    && s'.stale == s.stale
  }

  lemma FewerKeys<T>(m: map<Id, T>, k: Id)
    requires k in m
    ensures (m - {k}).Keys == m.Keys - {k} && |(m - {k}).Keys| == |m.Keys| - 1
  {
  }

  lemma CommitEnds(s: State, t: Id, now: Time)
    requires t in s.creates
    ensures var s' := FinishCreate(s, t, now).0;
            && (s'.creates == s.creates - {t} || s'.creates == s.creates[t := s.creates[t].(phase := RolledBack)])
            && s'.edits == s.edits && StillThere(s, s')
  {
    if InsertAllowed(s, s.creates[t]) { InsertEnds(s, t, now); }
  }

  lemma InsertEnds(s: State, t: Id, now: Time)
    requires t in s.creates && InsertAllowed(s, s.creates[t])
    ensures var s' := FinishCreate(s, t, now).0; s'.creates == s.creates - {t} && s'.edits == s.edits && StillThere(s, s')
  {
    assert FinishCreate(s, t, now).0.bookings == s.bookings[s.nextBooking := NewBooking(s.creates[t].request, |s.creates[t].seats|, now)];
  }

  lemma FewerHolding(creates: map<Id, CreateTxn>, creates': map<Id, CreateTxn>, edits: map<Id, EditTxn>, t: Id)
    requires t in creates && creates[t].phase.Holding?
    requires creates' == creates - {t} || creates' == creates[t := creates[t].(phase := RolledBack)]
    ensures OpenWork(creates', edits) < OpenWork(creates, edits)
  {
    FewerKeys(creates, t);
    assert HoldingTxns(creates') == HoldingTxns(creates) - {t};
    if creates' != creates - {t} { assert creates'.Keys == creates.Keys; }
  }

  lemma FewerRolledBack(creates: map<Id, CreateTxn>, edits: map<Id, EditTxn>, t: Id)
    requires t in creates && creates[t].phase.RolledBack?
    ensures OpenWork(creates - {t}, edits) < OpenWork(creates, edits)
  {
    FewerKeys(creates, t);
    assert HoldingTxns(creates - {t}) == HoldingTxns(creates);
  }

  lemma EditEnds(s: State, e: Id)
    requires e in s.edits && e in s.events
    ensures var s' := FinishEdit(s, e).0; s'.creates == s.creates && s'.edits == s.edits - {e} && StillThere(s, s')
  {
  }

  /** The step that ends one open transaction. */
  ghost predicate MakesProgress(s: State, a: Action)
  {
    && Ends(a) && Enabled(s, a, s.clock + 1)
    && var s' := Apply(s, a, s.clock + 1); OpenWork(s'.creates, s'.edits) < OpenWork(s.creates, s.edits) && StillThere(s, s')
  }

  lemma CommitStep(s: State, t: Id, now: Time)
    requires Enabled(s, CommitCreate(t), now)
    ensures Apply(s, CommitCreate(t), now) == FinishCreate(s, t, now).0.(clock := now)
  {
  }

  lemma LookupStep(s: State, t: Id, now: Time)
    requires Enabled(s, LookupCreate(t), now)
    ensures Apply(s, LookupCreate(t), now) == s.(creates := s.creates - {t}, clock := now)
  {
  }

  lemma CommitMakesProgress(s: State, t: Id)
    requires HoldsLock(s.creates, t)
    ensures MakesProgress(s, CommitCreate(t))
  {
    CommitStep(s, t, s.clock + 1);
    var s' := FinishCreate(s, t, s.clock + 1).0;
    CommitEnds(s, t, s.clock + 1);
    FewerHolding(s.creates, s'.creates, s.edits, t);
  }

  lemma LookupMakesProgress(s: State, t: Id)
    requires t in s.creates && s.creates[t].phase.RolledBack? && Truthy(s.creates[t].request.key)
    ensures MakesProgress(s, LookupCreate(t))
  {
    LookupStep(s, t, s.clock + 1);
    FewerRolledBack(s.creates, s.edits, t);
  }

  lemma EditStep(s: State, e: Id, now: Time)
    requires Enabled(s, CommitEdit(e), now)
    ensures Apply(s, CommitEdit(e), now) == FinishEdit(s, e).0.(clock := now)
  {
  }

  lemma EditMakesProgress(s: State, e: Id)
    requires e in s.edits && e in s.events
    ensures MakesProgress(s, CommitEdit(e))
  {
    EditStep(s, e, s.clock + 1);
    EditEnds(s, e);
    FewerKeys(s.edits, e);
  }

  /** A step that ends a transaction and one that starts a new call are put at the end of a run in the same way. */
  lemma OneMore(states: seq<State>, labels: seq<Label>, a: Action) returns (states': seq<State>, labels': seq<Label>)
    requires IsRun(states, labels) && Enabled(states[|labels|], a, states[|labels|].clock + 1)
    ensures IsRun(states', labels') && labels' == labels + [Label(a, states[|labels|].clock + 1)]
    ensures states' == states + [Apply(states[|labels|], a, states[|labels|].clock + 1)]
  {
    var s := states[|labels|];
    Continues(states, labels, Label(a, s.clock + 1), Apply(s, a, s.clock + 1));
    states', labels' := states + [Apply(s, a, s.clock + 1)], labels + [Label(a, s.clock + 1)];
  }

  lemma SomeEnd(s: State) returns (a: Action)
    requires OpenWork(s.creates, s.edits) > 0 && KeyedRollbacks(s.creates) && forall e :: e in s.edits ==> e in s.events
    ensures MakesProgress(s, a)
  {
    if s.creates.Keys != {} {
      var t :| t in s.creates;
      a := if s.creates[t].phase.Holding? then CommitCreate(t) else LookupCreate(t);
      if s.creates[t].phase.Holding? { CommitMakesProgress(s, t); } else { LookupMakesProgress(s, t); }
    } else {
      assert HoldingTxns(s.creates) == {};
      var e :| e in s.edits.Keys;
      a := CommitEdit(e);
      EditMakesProgress(s, e);
    }
  }

  lemma RunEditsExist(states: seq<State>, labels: seq<Label>, n: nat)
    requires IsRun(states, labels) && n < |states|
    ensures forall e :: e in states[n].edits ==> e in states[n].events
  {
    RunKeepsInv(states, labels, n);
    assert forall e :: e in states[n].edits ==> EditOk(states[n], e, states[n].edits[e]);
  }

  ghost predicate EndedBy(labels: seq<Label>, labels': seq<Label>)
  {
    labels <= labels' && forall i :: |labels| <= i < |labels'| ==> Ends(labels'[i].action)
  }

  /** From every state of every run the open transactions can end one after another, until no lock is held. */
  lemma {:induction false} LocksClear(states: seq<State>, labels: seq<Label>) returns (states': seq<State>, labels': seq<Label>)
    requires IsRun(states, labels)
    ensures IsRun(states', labels') && states <= states' && EndedBy(labels, labels')
    ensures states'[|labels'|].creates == map[] && states'[|labels'|].edits == map[]
    ensures StillThere(states[|labels|], states'[|labels'|])
    decreases OpenWork(states[|labels|].creates, states[|labels|].edits)
  {
    var s := states[|labels|];
    states', labels' := states, labels;
    if OpenWork(s.creates, s.edits) == 0 {
      assert s.creates.Keys == {} && s.edits.Keys == {};
    } else {
      RunKeyedRollbacks(states, labels, |labels|);
      RunEditsExist(states, labels, |labels|);
      var a := SomeEnd(s);
      states', labels' := OneMore(states, labels, a);
      var grown := labels';
      assert EndedBy(labels, grown);
      states', labels' := LocksClear(states', labels');
    }
  }

  // ---------------------------------------------------------------- then any call can run

  /** A call that can be made: what it is about exists. */
  ghost predicate Callable(s: State, a: Action)
  {
    match a
    case FastPath(_, key) => key != ""
    case SweepBooking(b) => b in s.bookings
    case CancelBooking(b) => b in s.stale && b in s.bookings
    case InsertEvent(e, change) => e !in s.events && change.Update?
    case OpenEdit(e, _) => e in s.events
    case DeleteEvent(e) => e in s.events
    case _ => !Ends(a)
  }

  /**
    In every state of every run, for every call that can be made: nothing but the ends of
    transactions already open need come before it. Locks only ever delay.
   */
  lemma EveryCallIsServed(states: seq<State>, labels: seq<Label>, a: Action) returns (states': seq<State>, labels': seq<Label>)
    requires IsRun(states, labels) && Callable(states[|labels|], a)
    ensures IsRun(states', labels') && states <= states' && |labels'| > |labels|
    ensures EndedBy(labels, labels'[..|labels'| - 1]) && labels'[|labels'| - 1].action == a
  {
    var cleared, ends := LocksClear(states, labels);
    var s := cleared[|ends|];
    assert Enabled(s, a, s.clock + 1);
    states', labels' := OneMore(cleared, ends, a);
    assert labels'[..|labels'| - 1] == ends;
  }
}
