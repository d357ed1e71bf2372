/** The booking tool: from what the user asked for to the seats of a draft. */
module BookingTool {
  import opened Wrappers
  import opened SeatLayout

  datatype Refusal =
    | NeedsQuantity | TakesNoLabels | TooFewTickets | NeedsLabels | TakesNoQuantity | RepeatedLabel
    | UnknownLabels(labels: seq<string>) | TakenSeats(numbers: seq<int>)

  datatype Choice = Chosen(numbers: seq<int>) | Refused(reason: Refusal)

  /** Python's truth value of an optional number. */
  predicate Given(quantity: Option<int>) { quantity.Some? && quantity.value != 0 }

  predicate NoRepeats<T(==)>(s: seq<T>)
  {
    forall i, j :: 0 <= i < j < |s| ==> s[i] != s[j]
  }

  function Missing(index: map<string, int>, labels: seq<string>): seq<string>
  {
    if labels == [] then []
    else Missing(index, labels[..|labels| - 1]) + if labels[|labels| - 1] in index then [] else [labels[|labels| - 1]]
  }

  lemma {:induction false} NothingMissing(index: map<string, int>, labels: seq<string>)
    ensures Missing(index, labels) == [] <==> forall i :: 0 <= i < |labels| ==> labels[i] in index
    ensures forall x :: x in Missing(index, labels) <==> x in labels && x !in index
  {
    if labels != [] { NothingMissing(index, labels[..|labels| - 1]); }
  }

  function Lacking(numbers: seq<int>, available: seq<int>): seq<int>
  {
    if numbers == [] then []
    else Lacking(numbers[..|numbers| - 1], available) + if numbers[|numbers| - 1] in available then [] else [numbers[|numbers| - 1]]
  }

  lemma {:induction false} NothingLacking(numbers: seq<int>, available: seq<int>)
    ensures Lacking(numbers, available) == [] <==> forall i :: 0 <= i < |numbers| ==> numbers[i] in available
    ensures forall n :: n in Lacking(numbers, available) <==> n in numbers && n !in available
  {
    if numbers != [] { NothingLacking(numbers[..|numbers| - 1], available); }
  }

  /** When each refusal is the right one; no two are right together. */
  ghost predicate RightReason(
      generalAdmission: bool, index: map<string, int>, available: seq<int>, labels: seq<string>, quantity: Option<int>, reason: Refusal)
  {
    match reason
    case NeedsQuantity => generalAdmission && (quantity.None? || quantity.value <= 0)
    case TakesNoLabels => generalAdmission && quantity.Some? && quantity.value > 0 && labels != []
    case TooFewTickets => generalAdmission && quantity.Some? && quantity.value > |available| && labels == []
    case NeedsLabels => !generalAdmission && labels == []
    case TakesNoQuantity => !generalAdmission && labels != [] && Given(quantity)
    case RepeatedLabel => !generalAdmission && labels != [] && !Given(quantity) && !NoRepeats(labels)
    case UnknownLabels(unknown) =>
      && !generalAdmission && !Given(quantity) && NoRepeats(labels) && unknown != []
      && forall x :: x in unknown <==> x in labels && x !in index
    case TakenSeats(numbers) =>
      && !generalAdmission && !Given(quantity) && NoRepeats(labels) && (forall x :: x in labels ==> x in index) && numbers != []
      && forall n :: n in numbers <==> n !in available && exists x :: x in labels && x in index && index[x] == n
  }

  lemma TakenAreNamed(index: map<string, int>, available: seq<int>, labels: seq<string>, numbers: seq<int>)
    requires |numbers| == |labels| && forall i :: 0 <= i < |labels| ==> labels[i] in index && numbers[i] == index[labels[i]]
    ensures forall n :: n in Lacking(numbers, available) <==> n !in available && exists x :: x in labels && x in index && index[x] == n
  {
    NothingLacking(numbers, available);
    forall n ensures n in numbers <==> exists x :: x in labels && x in index && index[x] == n {
      if n in numbers {
        var i :| 0 <= i < |numbers| && numbers[i] == n;
        assert labels[i] in labels && index[labels[i]] == n;
      }
    }
  }

  /** Which seats a request stages; `available` lists the free seat numbers in order, `named` the event's seats. */
  method ChooseSeats(generalAdmission: bool, named: seq<(string, int)>, available: seq<int>, labels: seq<string>, quantity: Option<int>)
    returns (choice: Choice)
    ensures generalAdmission ==>
              (choice.Chosen? <==> quantity.Some? && quantity.value > 0 && labels == [] && |available| >= quantity.value)
    ensures generalAdmission && choice.Chosen? ==> |choice.numbers| == quantity.value && choice.numbers <= available
    ensures !generalAdmission ==>
              (choice.Chosen? <==> labels != [] && !Given(quantity) && NoRepeats(labels) && AllFree(LabelIndex(named), available, labels))
    ensures choice.Refused? ==> RightReason(generalAdmission, LabelIndex(named), available, labels, quantity, choice.reason)
    ensures !generalAdmission && choice.Chosen? ==>
              |choice.numbers| == |labels| && forall i :: 0 <= i < |labels| ==> choice.numbers[i] == LabelIndex(named)[labels[i]]
  {
    if generalAdmission {
      if quantity.None? || quantity.value <= 0 { return Refused(NeedsQuantity); }
      if labels != [] { return Refused(TakesNoLabels); }
      if |available| < quantity.value { return Refused(TooFewTickets); }
      return Chosen(available[..quantity.value]);
    }
    if labels == [] { return Refused(NeedsLabels); }
    if Given(quantity) { return Refused(TakesNoQuantity); }
    UniqueCount(labels);
    if |Unique(labels)| != |labels| { return Refused(RepeatedLabel); }
    choice := ChooseNamed(LabelIndex(named), available, labels, quantity);
  }

  /** Labels to numbers, and the numbers against the free seats. */
  method ChooseNamed(index: map<string, int>, available: seq<int>, labels: seq<string>, quantity: Option<int>) returns (choice: Choice)
    requires labels != [] && !Given(quantity) && NoRepeats(labels)
    ensures choice.Chosen? <==> AllFree(index, available, labels)
    ensures choice.Refused? ==> RightReason(false, index, available, labels, quantity, choice.reason)
    ensures choice.Chosen? ==>
              |choice.numbers| == |labels| && forall i :: 0 <= i < |labels| ==> choice.numbers[i] == index[labels[i]]
  {
    var missing := Missing(index, labels);
    NothingMissing(index, labels);
    if missing != [] { return Refused(UnknownLabels(missing)); }
    var numbers := seq(|labels|, i requires 0 <= i < |labels| => index[labels[i]]);
    var taken := Lacking(numbers, available);
    TakenAreNamed(index, available, labels, numbers);
    FreeIffNoneLacks(index, available, labels, numbers);
    return if taken != [] then Refused(TakenSeats(taken)) else Chosen(numbers);
  }

  lemma FreeIffNoneLacks(index: map<string, int>, available: seq<int>, labels: seq<string>, numbers: seq<int>)
    requires |numbers| == |labels| && forall i :: 0 <= i < |labels| ==> labels[i] in index && numbers[i] == index[labels[i]]
    ensures Lacking(numbers, available) == [] <==> AllFree(index, available, labels)
  {
    NothingLacking(numbers, available);
    if AllFree(index, available, labels) {
      assert forall i :: 0 <= i < |numbers| ==> numbers[i] == index[labels[i]] && numbers[i] in available;
    } else {
      var i :| 0 <= i < |labels| && !(labels[i] in index && index[labels[i]] in available);
      assert numbers[i] !in available;
    }
  }

  predicate AllFree(index: map<string, int>, available: seq<int>, labels: seq<string>)
  {
    forall i :: 0 <= i < |labels| ==> labels[i] in index && index[labels[i]] in available
  }

  function Unique(labels: seq<string>): (r: set<string>)
    ensures forall x :: x in r <==> x in labels
  {
    if labels == [] then {}
    else
      var front, last := labels[..|labels| - 1], labels[|labels| - 1];
      assert labels == front + [last];
      Unique(front) + {last}
  }

  lemma NoRepeatsSnoc(front: seq<string>, last: string)
    ensures NoRepeats(front + [last]) <==> NoRepeats(front) && last !in front
  {
    var all := front + [last];
    assert forall i :: 0 <= i < |front| ==> all[i] == front[i];
    assert all[|front|] == last;
  }

  /** Comparing lengths is a test for repeats. */
  lemma {:induction false} UniqueCount(labels: seq<string>)
    ensures |Unique(labels)| <= |labels| && (|Unique(labels)| == |labels| <==> NoRepeats(labels))
  {
    if labels != [] {
      var front, last := labels[..|labels| - 1], labels[|labels| - 1];
      UniqueCount(front);
      NoRepeatsSnoc(front, last);
      assert front + [last] == labels;
    }
  }

  /**
    On an event with a seat layout the staged seats are exactly the ones named: one number a
    label, each that of the seat shown under the label, each free, all different.
   */
  lemma ChosenAreNamed(space: Option<Space>, fallback: int, available: seq<int>, labels: seq<string>, numbers: seq<int>)
    requires var index := LabelIndex(NamedSeats(SeatSpecs(space, fallback)));
             && NoRepeats(labels) && AllFree(index, available, labels)
             && |numbers| == |labels| && forall i :: 0 <= i < |labels| ==> numbers[i] == index[labels[i]]
    ensures var named := NamedSeats(SeatSpecs(space, fallback));
            forall i :: 0 <= i < |labels| ==> (labels[i], numbers[i]) in named && numbers[i] in available
    ensures NoRepeats(numbers)
  {
    var named := NamedSeats(SeatSpecs(space, fallback));
    LabelLookupInvertible(space, fallback);
    SpecNumbers(space, fallback);
    forall i | 0 <= i < |labels| ensures (labels[i], numbers[i]) in named && numbers[i] in available {
      assert labels[i] in LabelIndex(named);
    }
    forall i, j | 0 <= i < j < |labels| ensures numbers[i] != numbers[j] {
      assert (labels[i], numbers[i]) in named && (labels[j], numbers[j]) in named;
      var p :| 0 <= p < |named| && named[p] == (labels[i], numbers[i]);
      var q :| 0 <= q < |named| && named[q] == (labels[j], numbers[j]);
    }
  }
}
