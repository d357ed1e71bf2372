/**
  Seat numbering and labelling: the row-label encoder, the seat definitions derived
  from a venue space, and the label dictionary that turns labels back into numbers.
 */
module SeatLayout {
  import opened Wrappers

  /** A venue space. Labeled spaces are a grid; general admission is only a head count. */
  datatype Space =
    | Labeled(rows: nat, columns: nat, alphaNumeric: bool)
    | General(capacity: nat)

  datatype Position = Position(row: nat, column: nat)

  datatype SeatSpec = SeatSpec(number: int, position: Option<Position>, displayLabel: Option<string>)

  // ---------------------------------------------------------------- row labels

  predicate IsLetter(c: char) { 'A' <= c <= 'Z' }

  predicate IsDigit(c: char) { '0' <= c <= '9' }

  function Letter(d: nat): (c: char)
    requires d < 26
    ensures IsLetter(c) && LetterValue(c) == d + 1
  {
    ('A' as int + d) as char
  }

  /** 'A' counts 1 and 'Z' counts 26: there is no zero digit. */
  function LetterValue(c: char): (v: nat)
    requires IsLetter(c)
    ensures 1 <= v <= 26
  {
    c as int - 'A' as int + 1
  }

  function RowLabel(n: nat): string
  {
    if n == 0 then "" else RowLabel((n - 1) / 26) + [Letter((n - 1) % 26)]
  }

  predicate IsRowLabel(text: string)
  {
    forall i :: 0 <= i < |text| ==> IsLetter(text[i])
  }

  /** Reads a label back as a base-26 number whose digits run from 1 to 26. */
  function RowNumber(text: string): nat
    requires IsRowLabel(text)
  {
    if text == "" then 0
    else 26 * RowNumber(text[..|text| - 1]) + LetterValue(text[|text| - 1])
  }

  lemma {:induction false} RowLabelRoundTrip(n: nat)
    ensures IsRowLabel(RowLabel(n)) && RowNumber(RowLabel(n)) == n
    ensures n > 0 ==> RowLabel(n) != ""
  {
    if n > 0 {
      var front := RowLabel((n - 1) / 26);
      RowLabelRoundTrip((n - 1) / 26);
      assert RowLabel(n)[..|RowLabel(n)| - 1] == front;
    }
  }

  lemma {:induction false} RowNumberRoundTrip(text: string)
    requires IsRowLabel(text)
    ensures RowLabel(RowNumber(text)) == text
  {
    if text != "" {
      var front, last := text[..|text| - 1], text[|text| - 1];
      RowNumberRoundTrip(front);
      var n := RowNumber(text);
      assert (n - 1) / 26 == RowNumber(front) && (n - 1) % 26 == LetterValue(last) - 1;
      assert text == front + [last];
    }
  }

  /** The encoder as the source runs it: peel the last letter and prepend it. */
  method AlphaRowLabel(n: int) returns (text: string)
    ensures n <= 0 ==> text == ""
    ensures n > 0 ==> IsRowLabel(text) && RowNumber(text) == n
    ensures n > 0 ==> text == RowLabel(n)
  {
    text := "";
    var rest := n;
    while rest > 0
      invariant n <= 0 ==> rest == n && text == ""
      invariant n > 0 ==> rest >= 0 && RowLabel(n) == RowLabel(rest) + text
    {
      var remainder := (rest - 1) % 26;
      rest := (rest - 1) / 26;
      text := [Letter(remainder)] + text;
    }
    if n > 0 {
      assert RowLabel(n) == text;
      RowLabelRoundTrip(n);
    }
  }

  /** The row labels the source documents. */
  lemma DocumentedRowLabels()
    ensures RowLabel(1) == "A" && RowLabel(2) == "B" && RowLabel(26) == "Z"
    ensures RowLabel(27) == "AA" && RowLabel(28) == "AB" && RowLabel(52) == "AZ" && RowLabel(53) == "BA"
  {
    assert RowLabel(0) == "" && RowLabel(1) == RowLabel(0) + [Letter(0)] && RowLabel(2) == RowLabel(0) + [Letter(1)];
    assert RowLabel(26) == RowLabel(0) + [Letter(25)] && RowLabel(27) == RowLabel(1) + [Letter(0)];
    assert RowLabel(28) == RowLabel(1) + [Letter(1)] && RowLabel(52) == RowLabel(1) + [Letter(25)] && RowLabel(53) == RowLabel(2) + [Letter(0)];
  }

  // ---------------------------------------------------------------- decimal numerals

  function Digit(d: nat): (c: char)
    requires d < 10
    ensures IsDigit(c)
  {
    ('0' as int + d) as char
  }

  function Decimal(n: nat): (s: string)
    ensures s != "" && forall i :: 0 <= i < |s| ==> IsDigit(s[i])
  {
    if n < 10 then [Digit(n)] else Decimal(n / 10) + [Digit(n % 10)]
  }

  lemma {:induction false} DecimalInjective(m: nat, n: nat)
    requires Decimal(m) == Decimal(n)
    ensures m == n
  {
    var s := Decimal(m);
    assert s[|s| - 1] == Digit(m % 10) && s[|s| - 1] == Digit(n % 10);
    if m >= 10 && n >= 10 {
      assert Decimal(m / 10) == s[..|s| - 1] && Decimal(n / 10) == s[..|s| - 1];
      DecimalInjective(m / 10, n / 10);
    }
  }

  predicate IsNumeral(text: string)
  {
    text != "" && forall i :: 0 <= i < |text| ==> IsDigit(text[i])
  }

  /** The value of a decimal numeral. */
  function NumeralValue(text: string): nat
    requires forall i :: 0 <= i < |text| ==> IsDigit(text[i])
  {
    if text == "" then 0
    else
      assert IsDigit(text[|text| - 1]);
      10 * NumeralValue(text[..|text| - 1]) + (text[|text| - 1] as int - '0' as int)
  }

  lemma {:induction false} DecimalRoundTrip(n: nat)
    ensures IsNumeral(Decimal(n)) && NumeralValue(Decimal(n)) == n
    ensures n > 0 ==> Decimal(n)[0] != '0'
  {
    var text := Decimal(n);
    if n >= 10 {
      DecimalRoundTrip(n / 10);
      assert text[..|text| - 1] == Decimal(n / 10);
      assert text[0] == Decimal(n / 10)[0];
    } else {
      assert text[..0] == "";
    }
  }

  // ---------------------------------------------------------------- seat labels

  /** "B5" for lettered rows, "2-5" for numbered ones. */
  function SeatLabel(alphaNumeric: bool, row: nat, column: nat): string
  {
    if alphaNumeric then RowLabel(row) + Decimal(column)
    else Decimal(row) + "-" + Decimal(column)
  }

  /** A string cut where its first character outside a class stands is cut in one way only. */
  lemma CutUnique(a: string, b: string, a': string, b': string, inClass: char -> bool)
    requires a + b == a' + b' && b != "" && b' != ""
    requires forall i :: 0 <= i < |a| ==> inClass(a[i])
    requires forall i :: 0 <= i < |a'| ==> inClass(a'[i])
    requires !inClass(b[0]) && !inClass(b'[0])
    ensures a == a' && b == b'
  {
    var whole := a + b;
    assert whole[|a|] == b[0] && whole[|a'|] == b'[0];
    assert forall i :: 0 <= i < |a| ==> whole[i] == a[i];
    assert forall i :: 0 <= i < |a'| ==> whole[i] == a'[i];
    assert whole[..|a|] == a && whole[..|a'|] == a' && whole[|a|..] == b && whole[|a'|..] == b';
  }

  lemma SeatLabelInjective(alphaNumeric: bool, r: nat, c: nat, r': nat, c': nat)
    requires SeatLabel(alphaNumeric, r, c) == SeatLabel(alphaNumeric, r', c')
    ensures r == r' && c == c'
  {
    if alphaNumeric {
      RowLabelRoundTrip(r);
      RowLabelRoundTrip(r');
      CutUnique(RowLabel(r), Decimal(c), RowLabel(r'), Decimal(c'), IsLetter);
    } else {
      assert Decimal(r) + "-" + Decimal(c) == Decimal(r) + ("-" + Decimal(c));
      assert Decimal(r') + "-" + Decimal(c') == Decimal(r') + ("-" + Decimal(c'));
      CutUnique(Decimal(r), "-" + Decimal(c), Decimal(r'), "-" + Decimal(c'), IsDigit);
      assert ("-" + Decimal(c))[1..] == Decimal(c) && ("-" + Decimal(c'))[1..] == Decimal(c');
      DecimalInjective(r, r');
    }
    DecimalInjective(c, c');
  }

  /** No grid label is ever mistaken for a bare seat number. */
  lemma SeatLabelIsNotANumber(alphaNumeric: bool, r: nat, c: nat, n: nat)
    requires r > 0
    ensures SeatLabel(alphaNumeric, r, c) != Decimal(n)
  {
    var text := SeatLabel(alphaNumeric, r, c);
    if alphaNumeric {
      RowLabelRoundTrip(r);
      assert text[0] == RowLabel(r)[0] && !IsDigit(text[0]);
    } else {
      assert text[|Decimal(r)|] == '-';
    }
  }

  /** The length of the longest prefix of capital letters. */
  function LetterCount(text: string): (k: nat)
    ensures k <= |text| && IsRowLabel(text[..k])
    ensures k < |text| ==> !IsLetter(text[k])
  {
    if text == "" || !IsLetter(text[0]) then 0
    else
      var k := LetterCount(text[1..]);
      assert text[..k + 1] == [text[0]] + text[1..][..k];
      k + 1
  }

  function DigitCount(text: string): (k: nat)
    ensures k <= |text| && forall i :: 0 <= i < k ==> IsDigit(text[i])
    ensures k < |text| ==> !IsDigit(text[k])
  {
    if text == "" || !IsDigit(text[0]) then 0 else DigitCount(text[1..]) + 1
  }

  /** Row and column as a reader makes them out: letters then digits, or digits, a dash, digits. */
  function ReadLabel(lettered: bool, text: string): Option<(nat, nat)>
  {
    if lettered then
      var k := LetterCount(text);
      if k > 0 && IsNumeral(text[k..]) then Some((RowNumber(text[..k]), NumeralValue(text[k..]))) else None
    else
      var k := DigitCount(text);
      if 0 < k < |text| && text[k] == '-' && IsNumeral(text[k + 1..]) then
        Some((NumeralValue(text[..k]), NumeralValue(text[k + 1..])))
      else None
  }

  lemma {:induction false} LettersEnd(letters: string, rest: string)
    requires IsRowLabel(letters) && (rest != "" ==> !IsLetter(rest[0]))
    ensures LetterCount(letters + rest) == |letters|
  {
    if letters == "" {
      assert letters + rest == rest;
    } else {
      LettersEnd(letters[1..], rest);
      assert (letters + rest)[1..] == letters[1..] + rest;
    }
  }

  lemma {:induction false} DigitsEnd(digits: string, rest: string)
    requires (forall i :: 0 <= i < |digits| ==> IsDigit(digits[i])) && (rest != "" ==> !IsDigit(rest[0]))
    ensures DigitCount(digits + rest) == |digits|
  {
    if digits == "" {
      assert digits + rest == rest;
    } else {
      DigitsEnd(digits[1..], rest);
      assert (digits + rest)[1..] == digits[1..] + rest;
    }
  }

  lemma LetteredLabel(row: nat, column: nat)
    requires row > 0
    ensures ReadLabel(true, SeatLabel(true, row, column)) == Some((row, column))
  {
    RowLabelRoundTrip(row);
    DecimalRoundTrip(column);
    LettersEnd(RowLabel(row), Decimal(column));
    var text := RowLabel(row) + Decimal(column);
    assert text[..|RowLabel(row)|] == RowLabel(row) && text[|RowLabel(row)|..] == Decimal(column);
  }

  lemma NumberedLabel(row: nat, column: nat)
    ensures ReadLabel(false, SeatLabel(false, row, column)) == Some((row, column))
  {
    DecimalRoundTrip(row);
    DecimalRoundTrip(column);
    var text := SeatLabel(false, row, column);
    assert text == Decimal(row) + ("-" + Decimal(column));
    DigitsEnd(Decimal(row), "-" + Decimal(column));
    assert text[..|Decimal(row)|] == Decimal(row) && text[|Decimal(row)| + 1..] == Decimal(column);
  }

  /** A label says which seat it is: letters for the row and a number for the column, or two numbers, by the space's style. */
  lemma LabelReadsBack(alphaNumeric: bool, row: nat, column: nat)
    requires row > 0
    ensures ReadLabel(alphaNumeric, SeatLabel(alphaNumeric, row, column)) == Some((row, column))
  {
    if alphaNumeric { LetteredLabel(row, column); } else { NumberedLabel(row, column); }
  }

  lemma OtherStyleUnread(alphaNumeric: bool, row: nat, column: nat)
    requires row > 0
    ensures ReadLabel(!alphaNumeric, SeatLabel(alphaNumeric, row, column)) == None
  {
    RowLabelRoundTrip(row);
    DecimalRoundTrip(row);
    var text := SeatLabel(alphaNumeric, row, column);
    if alphaNumeric {
      assert text[0] == RowLabel(row)[0] && IsLetter(text[0]);
    } else {
      assert text[0] == Decimal(row)[0] && IsDigit(text[0]);
    }
  }

  // ---------------------------------------------------------------- seat specifications

  function TotalSeats(space: Option<Space>, fallback: int): int
  {
    match space
    case None => fallback
    case Some(General(capacity)) => capacity
    case Some(Labeled(rows, columns, _)) => rows * columns
  }

  function PlainSpec(number: int): SeatSpec { SeatSpec(number, None, None) }

  /** Plain seats numbered from first to last; none when last < first. */
  function PlainSpecs(first: int, last: int): seq<SeatSpec>
  {
    seq(if last < first then 0 else last - first + 1, i => PlainSpec(first + i))
  }

  function GridSpec(columns: nat, alphaNumeric: bool, r: nat, c: nat): SeatSpec
    requires r >= 1
  {
    SeatSpec((r - 1) * columns + c, Some(Position(r, c)), Some(SeatLabel(alphaNumeric, r, c)))
  }

  function SeatSpecs(space: Option<Space>, fallback: int): seq<SeatSpec>
  {
    match space
    case None => PlainSpecs(1, fallback)
    case Some(General(capacity)) => PlainSpecs(1, capacity)
    case Some(Labeled(rows, columns, alpha)) =>
      seq(rows * columns, i requires 0 <= i < rows * columns => CellSpec(columns, alpha, rows, i))
  }

  /** The i-th cell of the grid in reading order. */
  function CellSpec(columns: nat, alphaNumeric: bool, rows: nat, i: nat): SeatSpec
    requires i < rows * columns
  {
    PositiveFactor(rows, columns);
    GridSpec(columns, alphaNumeric, i / columns + 1, i % columns + 1)
  }

  lemma PositiveFactor(a: nat, b: nat)
    requires a * b > 0
    ensures b > 0
  {
    assert b == 0 ==> a * b == 0;
  }

  lemma MultipleBelow(d: int, c: int)
    requires -c < c * d < c
    ensures d == 0
  {
    assert d >= 1 ==> c * d == c + c * (d - 1);
    assert d <= -1 ==> c * d == -c - c * (-d - 1);
  }

  lemma DivMod(q: nat, columns: nat, c: nat)
    requires c < columns
    ensures (q * columns + c) / columns == q && (q * columns + c) % columns == c
  {
    var x := q * columns + c;
    var d := x / columns - q;
    assert x == columns * (x / columns) + x % columns;
    assert columns * (x / columns) == columns * q + columns * d;
    assert columns * d == c - x % columns;
    MultipleBelow(d, columns);
  }

  lemma RowsBelow(r: nat, rows: nat, columns: nat, c: nat)
    requires r < rows && c < columns
    ensures r * columns + c < rows * columns
  {
    assert (rows - r - 1) * columns >= 0;
    assert rows * columns == r * columns + columns + (rows - r - 1) * columns;
  }

  /** Every layout numbers its seats 1, 2, 3, ... without gap or repetition. */
  lemma SpecNumbers(space: Option<Space>, fallback: int)
    ensures fallback >= 0 || space.Some? ==> |SeatSpecs(space, fallback)| == TotalSeats(space, fallback)
    ensures forall i :: 0 <= i < |SeatSpecs(space, fallback)| ==> SeatSpecs(space, fallback)[i].number == i + 1
  {
    var specs := SeatSpecs(space, fallback);
    forall i | 0 <= i < |specs| ensures specs[i].number == i + 1 {
      if space.Some? && space.value.Labeled? {
        var Labeled(rows, columns, alpha) := space.value;
        assert specs[i] == CellSpec(columns, alpha, rows, i);
        CellNumber(columns, alpha, rows, i);
      }
    }
  }

  lemma CellNumber(columns: nat, alphaNumeric: bool, rows: nat, i: nat)
    requires i < rows * columns
    ensures CellSpec(columns, alphaNumeric, rows, i).number == i + 1
  {
    PositiveFactor(rows, columns);
    var q, r := i / columns, i % columns;
    assert i == q * columns + r;
    assert (q + 1 - 1) * columns == q * columns;
  }

  function CellIndex(columns: nat, r: nat, c: nat): int
  {
    (r - 1) * columns + c - 1
  }

  /** Row r, column c is found at number (r-1)*columns + c: the grid is a bijection. */
  lemma GridBijection(rows: nat, columns: nat, alphaNumeric: bool, r: nat, c: nat)
    requires 1 <= r <= rows && 1 <= c <= columns
    ensures 0 <= CellIndex(columns, r, c) < rows * columns
    ensures CellSpec(columns, alphaNumeric, rows, CellIndex(columns, r, c)) == GridSpec(columns, alphaNumeric, r, c)
  {
    CellIndexInverse(rows, columns, r, c);
  }

  lemma CellIndexInverse(rows: nat, columns: nat, r: nat, c: nat)
    requires 1 <= r <= rows && 1 <= c <= columns
    ensures 0 <= CellIndex(columns, r, c) < rows * columns
    ensures CellIndex(columns, r, c) / columns == r - 1 && CellIndex(columns, r, c) % columns == c - 1
  {
    RowsBelow(r - 1, rows, columns, c - 1);
    CellIndexDivides(columns, r - 1, c - 1);
  }

  lemma CellIndexDivides(columns: nat, q: nat, d: nat)
    requires d < columns
    ensures var i := CellIndex(columns, q + 1, d + 1);
            i >= 0 && i / columns == q && i % columns == d
  {
    assert q * columns >= 0;
    DivMod(q, columns, d);
  }

  lemma CellInOrder(rows: nat, columns: nat, alphaNumeric: bool, r: nat, c: nat)
    requires 1 <= r <= rows && 1 <= c <= columns
    ensures var grid, i := SeatSpecs(Some(Labeled(rows, columns, alphaNumeric)), 0), CellIndex(columns, r, c);
            0 <= i < |grid| && grid[i] == SeatSpec(i + 1, Some(Position(r, c)), Some(SeatLabel(alphaNumeric, r, c)))
  {
    GridBijection(rows, columns, alphaNumeric, r, c);
    CellNumber(columns, alphaNumeric, rows, CellIndex(columns, r, c));
  }

  /** The seat at row r and column c of a grid, as built: its number, its position, and a label that reads back as (r, c) in the space's style only. */
  ghost predicate SeatReads(specs: seq<SeatSpec>, columns: nat, alphaNumeric: bool, r: nat, c: nat)
  {
    var i := CellIndex(columns, r, c);
    && 0 <= i < |specs| && specs[i].number == i + 1 && specs[i].position == Some(Position(r, c))
    && specs[i].displayLabel.Some?
    && ReadLabel(alphaNumeric, specs[i].displayLabel.value) == Some((r, c))
    && ReadLabel(!alphaNumeric, specs[i].displayLabel.value) == None
  }

  lemma GridReads(rows: nat, columns: nat, alphaNumeric: bool, r: nat, c: nat)
    requires 1 <= r <= rows && 1 <= c <= columns
    ensures SeatReads(SeatSpecs(Some(Labeled(rows, columns, alphaNumeric)), 0), columns, alphaNumeric, r, c)
  {
    CellInOrder(rows, columns, alphaNumeric, r, c);
    LabelReadsBack(alphaNumeric, r, c);
    OtherStyleUnread(alphaNumeric, r, c);
  }

  /** The inner loop: one row of the grid, left to right. */
  method AppendRow(rows: nat, columns: nat, alpha: bool, r: nat, specs: seq<SeatSpec>) returns (longer: seq<SeatSpec>)
    requires 1 <= r <= rows
    requires var grid := SeatSpecs(Some(Labeled(rows, columns, alpha)), 0);
             |specs| == (r - 1) * columns && |specs| <= |grid| && specs == grid[..|specs|]
    ensures var grid := SeatSpecs(Some(Labeled(rows, columns, alpha)), 0);
            |longer| == |specs| + columns && |longer| <= |grid| && longer == grid[..|longer|]
    ensures forall c: nat :: 1 <= c <= columns ==> SeatReads(longer, columns, alpha, r, c)
  {
    ghost var grid := SeatSpecs(Some(Labeled(rows, columns, alpha)), 0);
    longer := specs;
    var rowLabel;
    if alpha { rowLabel := AlphaRowLabel(r); } else { rowLabel := Decimal(r); }
    var c := 1;
    while c <= columns
      invariant 1 <= c <= columns + 1
      invariant |longer| == (r - 1) * columns + c - 1
      invariant |longer| <= |grid| && longer == grid[..|longer|]
    {
      CellInOrder(rows, columns, alpha, r, c);
      var text := if alpha then rowLabel + Decimal(c) else rowLabel + "-" + Decimal(c);
      longer := longer + [SeatSpec(|longer| + 1, Some(Position(r, c)), Some(text))];
      c := c + 1;
    }
    forall d: nat | 1 <= d <= columns ensures SeatReads(longer, columns, alpha, r, d) {
      GridReads(rows, columns, alpha, r, d);
      assert longer[CellIndex(columns, r, d)] == grid[CellIndex(columns, r, d)];
    }
  }

  /** The outer loop, and the two layouts without one; the next seat number is one more than the seats so far. */
  method BuildSeatSpecs(space: Option<Space>, fallback: int) returns (total: int, specs: seq<SeatSpec>)
    ensures total == TotalSeats(space, fallback)
    ensures specs == SeatSpecs(space, fallback)
    ensures space.Some? && space.value.Labeled? ==>
              forall r: nat, c: nat :: 1 <= r <= space.value.rows && 1 <= c <= space.value.columns ==>
                SeatReads(specs, space.value.columns, space.value.alphaNumeric, r, c)
  {
    total := TotalSeats(space, fallback);
    if space.None? {
      specs := PlainSpecs(1, fallback);
      return;
    }
    if space.value.General? {
      specs := PlainSpecs(1, space.value.capacity);
      return;
    }
    var Labeled(rows, columns, alpha) := space.value;
    ghost var grid := SeatSpecs(Some(Labeled(rows, columns, alpha)), 0);
    specs := [];
    var r := 1;
    while r <= rows
      invariant 1 <= r <= rows + 1
      invariant |specs| == (r - 1) * columns
      invariant |specs| <= |grid| && specs == grid[..|specs|]
    {
      assert r * columns == (r - 1) * columns + columns;
      specs := AppendRow(rows, columns, alpha, r, specs);
      r := r + 1;
    }
    assert |specs| == |grid| && specs == grid[..|grid|];
    forall r: nat, c: nat | 1 <= r <= rows && 1 <= c <= columns ensures SeatReads(specs, columns, alpha, r, c) {
      GridReads(rows, columns, alpha, r, c);
    }
  }

  // ---------------------------------------------------------------- the label dictionary

  /** What a user types for a seat: its label, or its number when it has none. */
  function PublicName(spec: SeatSpec): string
  {
    match spec.displayLabel
    case Some(text) => if text != "" then text else Decimal(Magnitude(spec.number))
    case None => Decimal(Magnitude(spec.number))
  }

  function Magnitude(n: int): nat { if n < 0 then -n else n }

  lemma PublicNamesDistinct(space: Option<Space>, fallback: int, i: nat, j: nat)
    requires i < |SeatSpecs(space, fallback)| && j < |SeatSpecs(space, fallback)|
    requires PublicName(SeatSpecs(space, fallback)[i]) == PublicName(SeatSpecs(space, fallback)[j])
    ensures i == j
  {
    var specs := SeatSpecs(space, fallback);
    SpecNumbers(space, fallback);
    if space.Some? && space.value.Labeled? {
      var p, q := specs[i].position.value, specs[j].position.value;
      var alpha := space.value.alphaNumeric;
      assert specs[i].displayLabel == Some(SeatLabel(alpha, p.row, p.column));
      assert specs[j].displayLabel == Some(SeatLabel(alpha, q.row, q.column));
      assert |SeatLabel(alpha, p.row, p.column)| > 0 && |SeatLabel(alpha, q.row, q.column)| > 0;
      SeatLabelInjective(alpha, p.row, p.column, q.row, q.column);
      assert specs[i].number == specs[j].number;
    } else {
      assert specs[i] == PlainSpec(i + 1) && specs[j] == PlainSpec(j + 1);
      DecimalInjective(i + 1, j + 1);
    }
  }

  /** Each seat as the seat map shows it: its public name and its number. */
  function NamedSeats(specs: seq<SeatSpec>): seq<(string, int)>
  {
    seq(|specs|, i requires 0 <= i < |specs| => (PublicName(specs[i]), specs[i].number))
  }

  /** The dictionary comprehension of the booking tool: a later seat would overwrite an earlier one. */
  function LabelIndex(named: seq<(string, int)>): map<string, int>
  {
    if named == [] then map[]
    else
      var last := named[|named| - 1];
      LabelIndex(named[..|named| - 1])[last.0 := last.1]
  }

  predicate DistinctNames(named: seq<(string, int)>)
  {
    forall i, j :: 0 <= i < j < |named| ==> named[i].0 != named[j].0
  }

  /** Every seat is found under its own name. */
  predicate FindsEachSeat(named: seq<(string, int)>, index: map<string, int>)
  {
    forall i :: 0 <= i < |named| ==> named[i].0 in index && index[named[i].0] == named[i].1
  }

  /** Every name found is that of the seat it leads to. */
  predicate FindsOnlySeats(named: seq<(string, int)>, index: map<string, int>)
  {
    forall name :: name in index ==> (name, index[name]) in named
  }

  lemma {:induction false} LabelIndexFaithful(named: seq<(string, int)>)
    requires DistinctNames(named)
    ensures FindsEachSeat(named, LabelIndex(named)) && FindsOnlySeats(named, LabelIndex(named))
  {
    if named != [] {
      var front, last := named[..|named| - 1], named[|named| - 1];
      LabelIndexFaithful(front);
      assert named == front + [last];
      assert last in named && forall pair :: pair in front ==> pair in named;
    }
  }

  /**
    For every layout an event can have, the label dictionary of the booking tool is the
    inverse of what the seat map shows: it finds each seat under its name and nothing else.
   */
  lemma LabelLookupInvertible(space: Option<Space>, fallback: int)
    ensures var named := NamedSeats(SeatSpecs(space, fallback));
            && DistinctNames(named)
            && FindsEachSeat(named, LabelIndex(named)) && FindsOnlySeats(named, LabelIndex(named))
  {
    var specs := SeatSpecs(space, fallback);
    var named := NamedSeats(specs);
    forall i, j | 0 <= i < j < |named| ensures named[i].0 != named[j].0 {
      if named[i].0 == named[j].0 { PublicNamesDistinct(space, fallback, i, j); }
    }
    LabelIndexFaithful(named);
  }
}
