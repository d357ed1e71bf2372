/** What the chunks of a document are, told from its paragraphs and whatever line endings it was typed with. */
module ChunkForms {
  import opened Chunking

  // ---------------------------------------------------------------- line endings

  /** No two-character line ending in it. */
  predicate Unix(s: string)
  {
    forall k :: 0 < k < |s| ==> !(s[k - 1] == '\r' && s[k] == '\n')
  }

  /** The text as some browser sends it: the line feeds marked in `crlf` come with a carriage return. */
  function Typed(s: string, crlf: seq<bool>): string
    requires |crlf| == |s|
  {
    if s == "" then "" else (if s[0] == '\n' && crlf[0] then "\r\n" else [s[0]]) + Typed(s[1..], crlf[1..])
  }

  lemma UnixTail(s: string)
    requires Unix(s) && s != ""
    ensures Unix(s[1..]) && (|s| > 1 && s[0] == '\r' ==> s[1] != '\n')
  {
    forall k | 0 < k < |s[1..]| ensures !(s[1..][k - 1] == '\r' && s[1..][k] == '\n') {
      assert s[1..][k] == s[k + 1] && s[1..][k - 1] == s[k];
    }
    if |s| > 1 && s[0] == '\r' { assert !(s[1 - 1] == '\r' && s[1] == '\n'); }
  }

  lemma NormalizedStep(c: char, t: string)
    requires t != "" && c == '\r' ==> t[0] != '\n'
    ensures Normalized([c] + t) == [c] + Normalized(t)
  {
    var s := [c] + t;
    assert s[1..] == t;
    if t != [] { assert s[..2] == [c, t[0]] && s[..2][0] == c && s[..2][1] == t[0]; }
  }

  lemma {:induction false} NormalizedTyped(s: string, crlf: seq<bool>)
    requires Unix(s) && |crlf| == |s|
    ensures Normalized(Typed(s, crlf)) == s
  {
    if s != "" {
      UnixTail(s);
      NormalizedTyped(s[1..], crlf[1..]);
      var rest := Typed(s[1..], crlf[1..]);
      if s[0] == '\n' && crlf[0] {
        assert ("\r\n" + rest)[2..] == rest;
      } else {
        NormalizedStep(s[0], rest);
      }
      assert s == [s[0]] + s[1..];
    }
  }

  /** However its line breaks were typed, a text is cut the same way. */
  lemma LineEndingsIgnored(s: string, one: seq<bool>, other: seq<bool>)
    requires Unix(s) && |one| == |other| == |s|
    ensures Chunks(Typed(s, one)) == Chunks(Typed(s, other))
  {
    NormalizedTyped(s, one);
    NormalizedTyped(s, other);
  }

  // ---------------------------------------------------------------- paragraphs

  /** As an author would write a paragraph: no space at its ends, no blank line inside. */
  ghost predicate IsParagraph(p: string)
  {
    p != "" && !IsSpace(p[0]) && !IsSpace(p[|p| - 1]) && Unbroken(p) && Unix(p)
  }

  ghost predicate AllParagraphs(ps: seq<string>)
  {
    forall k :: 0 <= k < |ps| ==> IsParagraph(ps[k])
  }

  lemma BreakAfter(p: string, rest: string)
    requires IsParagraph(p)
    ensures BreakAt(p) == |p| && BreakAt(p + BLANK_LINE + rest) == |p|
  {
    var s := p + BLANK_LINE + rest;
    assert s[|p|..|p| + 2] == BLANK_LINE && BreaksAt(s, |p|);
    var i := BreakAt(s);
    if i < |p| {
      assert s[i..i + 2] == BLANK_LINE && s[i] == '\n' && s[i + 1] == '\n' by { assert s[i..i + 2][0] == '\n' && s[i..i + 2][1] == '\n'; }
      if i + 2 <= |p| {
        assert p[i..i + 2] == s[i..i + 2];
        assert BreaksAt(p, i);
      }
    }
  }

  /** Joined paragraphs are split where they were joined. */
  lemma {:induction false} SplitJoin(ps: seq<string>)
    requires AllParagraphs(ps) && ps != []
    ensures Split(Join(ps)) == ps
  {
    var p, rest := ps[0], ps[1..];
    BreakAfter(p, Join(rest));
    assert ps == [p] + rest;
    if rest != [] {
      SplitJoin(rest);
      JoinCons(p, rest);
      var s := p + BLANK_LINE + Join(rest);
      assert s[..|p|] == p && s[|p| + 2..] == Join(rest);
    } else {
      assert Join(ps) == p;
    }
  }

  lemma {:induction false} NonBlankOfParagraphs(ps: seq<string>)
    requires AllParagraphs(ps)
    ensures NonBlank(ps) == ps
  {
    if ps != [] {
      NonBlankOfParagraphs(ps[1..]);
      assert IsParagraph(ps[0]) && Stripped(ps[0]) == ps[0];
    }
  }

  lemma UnixConcat(a: string, b: string)
    requires Unix(a) && Unix(b) && (a != "" ==> a[|a| - 1] != '\r')
    ensures Unix(a + b)
  {
    var s := a + b;
    forall k | 0 < k < |s| ensures !(s[k - 1] == '\r' && s[k] == '\n') {
      if k > |a| { assert s[k] == b[k - |a|] && s[k - 1] == b[k - |a| - 1]; }
    }
  }

  lemma {:induction false} UnixJoin(ps: seq<string>)
    requires AllParagraphs(ps)
    ensures Unix(Join(ps)) && (ps != [] ==> Join(ps) != "" && Join(ps)[|Join(ps)| - 1] != '\r')
  {
    if |ps| == 1 {
      assert IsParagraph(ps[0]);
    } else if |ps| > 1 {
      var n := |ps| - 1;
      UnixJoin(ps[..n]);
      assert IsParagraph(ps[n]);
      UnixConcat(Join(ps[..n]), BLANK_LINE);
      UnixConcat(Join(ps[..n]) + BLANK_LINE, ps[n]);
    }
  }

  /** Paragraphs written with blank lines between them are found again, however the line breaks were typed. */
  lemma WrittenParagraphsFound(ps: seq<string>, crlf: seq<bool>)
    requires AllParagraphs(ps) && |crlf| == |Join(ps)|
    ensures Paragraphs(Typed(Join(ps), crlf)) == ps
  {
    UnixJoin(ps);
    NormalizedTyped(Join(ps), crlf);
    if ps != [] {
      SplitJoin(ps);
      NonBlankOfParagraphs(ps);
    } else {
      assert Split("") == [""] && NonBlank([""]) == [];
    }
  }

  lemma StripsToMiddle(s: string) returns (lo: nat, hi: nat)
    ensures lo <= hi <= |s| && Stripped(s) == s[lo..hi]
    ensures Stripped(s) != "" ==> !IsSpace(Stripped(s)[0]) && !IsSpace(Stripped(s)[|Stripped(s)| - 1])
  {
    lo := LeftMiddle(s);
    var t := s[lo..];
    var n := RightMiddle(t);
    hi := lo + n;
    assert s[lo..hi] == t[..n];
  }

  lemma {:induction false} LeftMiddle(s: string) returns (lo: nat)
    ensures lo <= |s| && LeftStripped(s) == s[lo..] && (lo < |s| ==> !IsSpace(s[lo]))
  {
    lo := 0;
    if s != "" && IsSpace(s[0]) {
      var n := LeftMiddle(s[1..]);
      lo := n + 1;
      assert s[1..][n..] == s[lo..];
    }
  }

  lemma {:induction false} RightMiddle(s: string) returns (hi: nat)
    ensures hi <= |s| && RightStripped(s) == s[..hi] && (hi > 0 ==> !IsSpace(s[hi - 1]))
  {
    hi := |s|;
    assert s[..|s|] == s;
    if s != "" && IsSpace(s[|s| - 1]) {
      hi := RightMiddle(s[..|s| - 1]);
      assert s[..|s| - 1][..hi] == s[..hi];
    }
  }

  lemma SliceOfSlice(s: string, lo: nat, hi: nat, k: nat)
    requires lo + k + 2 <= hi <= |s|
    ensures s[lo..hi][k..k + 2] == s[lo + k..lo + k + 2]
  {
    var middle := s[lo..hi];
    assert middle[k] == s[lo + k] && middle[k + 1] == s[lo + k + 1];
    assert middle[k..k + 2] == [s[lo + k], s[lo + k + 1]] == s[lo + k..lo + k + 2];
  }

  lemma MiddleUnbroken(s: string, lo: nat, hi: nat)
    requires Unbroken(s) && lo <= hi <= |s|
    ensures Unbroken(s[lo..hi])
  {
    forall k | 0 <= k ensures !BreaksAt(s[lo..hi], k) {
      assert !BreaksAt(s, lo + k);
      if k + 2 <= hi - lo { SliceOfSlice(s, lo, hi, k); }
    }
  }

  ghost predicate Trimmed(p: string)
  {
    p != "" && !IsSpace(p[0]) && !IsSpace(p[|p| - 1]) && Unbroken(p)
  }

  lemma {:induction false} NonBlankTrimmed(pieces: seq<string>, k: nat)
    requires (forall i :: 0 <= i < |pieces| ==> Unbroken(pieces[i])) && k < |NonBlank(pieces)|
    ensures Trimmed(NonBlank(pieces)[k])
    decreases |pieces|
  {
    var lo, hi := StripsToMiddle(pieces[0]);
    MiddleUnbroken(pieces[0], lo, hi);
    if Stripped(pieces[0]) == "" {
      NonBlankTrimmed(pieces[1..], k);
    } else if k > 0 {
      NonBlankTrimmed(pieces[1..], k - 1);
    }
  }

  /** Whatever the text, no paragraph is blank, has space at its ends or a blank line inside. */
  lemma ParagraphsTrimmed(content: string, k: nat)
    requires k < |Paragraphs(content)|
    ensures Trimmed(Paragraphs(content)[k])
  {
    var pieces := Split(Normalized(content));
    forall i | 0 <= i < |pieces| ensures Unbroken(pieces[i]) { PiecesUnbroken(Normalized(content), i); }
    NonBlankTrimmed(pieces, k);
  }

  // ---------------------------------------------------------------- merging

  /** Cuts from the first paragraph to past the last. */
  predicate Cuts(cuts: seq<nat>, n: nat)
  {
    cuts != [] && cuts[0] == 0 && cuts[|cuts| - 1] == n && forall k :: 0 < k < |cuts| ==> cuts[k - 1] < cuts[k] <= n
  }

  /** Paragraphs `lo` up to `hi` go together: all but the last were still short together. */
  predicate MergedFrom(ps: seq<string>, lo: nat, hi: nat, piece: string)
  {
    lo < hi <= |ps| && piece == Join(ps[lo..hi]) && forall i :: lo < i < hi ==> |Join(ps[lo..i])| < MIN_CHUNK
  }

  ghost predicate MergedBy(ps: seq<string>, cuts: seq<nat>, merged: seq<string>)
  {
    && Cuts(cuts, |ps|) && |merged| == |cuts| - 1
    && (forall k :: 0 <= k < |merged| ==> MergedFrom(ps, cuts[k], cuts[k + 1], merged[k]))
    && forall k :: 0 <= k < |merged| - 1 ==> |merged[k]| >= MIN_CHUNK
  }

  lemma JoinOne(ps: seq<string>, k: nat)
    requires k < |ps|
    ensures Join(ps[k..k + 1]) == ps[k]
  {
  }

  lemma JoinMore(ps: seq<string>, lo: nat, hi: nat)
    requires lo < hi < |ps|
    ensures Join(ps[lo..hi + 1]) == Join(ps[lo..hi]) + BLANK_LINE + ps[hi]
  {
    var s := ps[lo..hi + 1];
    assert s[..|s| - 1] == ps[lo..hi];
  }

  lemma PrefixMergedFrom(ps: seq<string>, n: nat, lo: nat, hi: nat, piece: string)
    requires n <= |ps| && MergedFrom(ps[..n], lo, hi, piece)
    ensures MergedFrom(ps, lo, hi, piece)
  {
    assert ps[..n][lo..hi] == ps[lo..hi];
    forall i | lo < i < hi ensures |Join(ps[lo..i])| < MIN_CHUNK { assert ps[..n][lo..i] == ps[lo..i]; }
  }

  lemma MergedFromMore(ps: seq<string>, lo: nat, hi: nat, piece: string)
    requires MergedFrom(ps, lo, hi, piece) && hi < |ps| && |piece| < MIN_CHUNK
    ensures MergedFrom(ps, lo, hi + 1, piece + BLANK_LINE + ps[hi])
  {
    JoinMore(ps, lo, hi);
    forall i | lo < i < hi + 1 ensures |Join(ps[lo..i])| < MIN_CHUNK {
      if i == hi { assert piece == Join(ps[lo..i]); }
    }
  }

  lemma PrefixMergedBy(ps: seq<string>, n: nat, cuts: seq<nat>, merged: seq<string>, k: nat)
    requires n <= |ps| && MergedBy(ps[..n], cuts, merged) && k < |merged|
    ensures MergedFrom(ps, cuts[k], cuts[k + 1], merged[k])
  {
    PrefixMergedFrom(ps, n, cuts[k], cuts[k + 1], merged[k]);
  }

  lemma StretchGrows(ps: seq<string>, n: nat, cuts: seq<nat>, merged: seq<string>)
    requires |ps| == n + 1 && MergedBy(ps[..n], cuts, merged) && merged != [] && |merged[|merged| - 1]| < MIN_CHUNK
    ensures MergedBy(ps, cuts[..|merged|] + [n + 1], merged[|merged| - 1 := merged[|merged| - 1] + BLANK_LINE + ps[n]])
  {
    var m := |merged|;
    var cuts', merged' := cuts[..m] + [n + 1], merged[m - 1 := merged[m - 1] + BLANK_LINE + ps[n]];
    forall k | 0 <= k < m ensures MergedFrom(ps, cuts'[k], cuts'[k + 1], merged'[k]) {
      PrefixMergedBy(ps, n, cuts, merged, k);
      if k == m - 1 { MergedFromMore(ps, cuts[k], n, merged[k]); }
    }
  }

  lemma StretchStarts(ps: seq<string>, n: nat, cuts: seq<nat>, merged: seq<string>)
    requires |ps| == n + 1 && MergedBy(ps[..n], cuts, merged) && (merged == [] || |merged[|merged| - 1]| >= MIN_CHUNK)
    ensures MergedBy(ps, cuts + [n + 1], merged + [ps[n]])
  {
    var m := |merged|;
    var cuts', merged' := cuts + [n + 1], merged + [ps[n]];
    forall k | 0 <= k < m + 1 ensures MergedFrom(ps, cuts'[k], cuts'[k + 1], merged'[k]) {
      if k < m { PrefixMergedBy(ps, n, cuts, merged, k); } else { JoinOne(ps, n); }
    }
  }

  lemma StretchStep(ps: seq<string>, n: nat, cuts: seq<nat>, merged: seq<string>) returns (cuts': seq<nat>)
    requires |ps| == n + 1 && MergedBy(ps[..n], cuts, merged)
    ensures MergedBy(ps, cuts', MergedWith(merged, ps[n]))
  {
    if merged != [] && |merged[|merged| - 1]| < MIN_CHUNK {
      StretchGrows(ps, n, cuts, merged);
      cuts' := cuts[..|merged|] + [n + 1];
    } else {
      StretchStarts(ps, n, cuts, merged);
      cuts' := cuts + [n + 1];
    }
  }

  /**
    Each merged piece is the join of a stretch of paragraphs that goes on exactly as long
    as it is short; so the stretches are determined.
   */
  lemma {:induction false} MergedStretches(ps: seq<string>) returns (cuts: seq<nat>)
    ensures MergedBy(ps, cuts, Merged(ps))
  {
    if ps == [] {
      cuts := [0];
    } else {
      var n := |ps| - 1;
      var front := MergedStretches(ps[..n]);
      cuts := StretchStep(ps, n, front, Merged(ps[..n]));
    }
  }

  /** The stretches are determined: two ways to cut that both satisfy the rule agree. */
  lemma {:induction false} StretchesAgree(ps: seq<string>, cuts: seq<nat>, merged: seq<string>, cuts': seq<nat>, merged': seq<string>, k: nat)
    requires MergedBy(ps, cuts, merged) && MergedBy(ps, cuts', merged') && k < |cuts|
    ensures k < |cuts'| && cuts[k] == cuts'[k]
  {
    if k > 0 {
      StretchesAgree(ps, cuts, merged, cuts', merged', k - 1);
      StretchEndsAgree(ps, cuts, merged, cuts', merged', k - 1);
    }
  }

  lemma StretchEndsAgree(ps: seq<string>, cuts: seq<nat>, merged: seq<string>, cuts': seq<nat>, merged': seq<string>, k: nat)
    requires MergedBy(ps, cuts, merged) && MergedBy(ps, cuts', merged') && k < |merged|
    requires k < |cuts'| && cuts[k] == cuts'[k]
    ensures k < |merged'| && cuts[k + 1] == cuts'[k + 1]
  {
    assert cuts[k] < cuts[k + 1] <= |ps|;
    assert k < |merged'|;
    NoShorterStretch(ps, cuts, merged, cuts', merged', k);
    NoShorterStretch(ps, cuts', merged', cuts, merged, k);
  }

  lemma NoShorterStretch(ps: seq<string>, cuts: seq<nat>, merged: seq<string>, cuts': seq<nat>, merged': seq<string>, k: nat)
    requires MergedBy(ps, cuts, merged) && MergedBy(ps, cuts', merged') && k < |merged| && k < |merged'| && cuts[k] == cuts'[k]
    ensures cuts[k + 1] >= cuts'[k + 1]
  {
    assert MergedFrom(ps, cuts[k], cuts[k + 1], merged[k]) && MergedFrom(ps, cuts'[k], cuts'[k + 1], merged'[k]);
    var hi := cuts[k + 1];
    assert hi < |ps| ==> k < |merged| - 1;
    assert hi < |ps| ==> |Join(ps[cuts[k]..hi])| >= MIN_CHUNK;
    assert cuts'[k + 1] <= |ps|;
  }

  // ---------------------------------------------------------------- windows

  lemma {:induction false} WindowsFrom(p: string, start: nat, k: nat)
    requires k < |Windows(p, start)|
    ensures start + 850 * k < |p|
    ensures Windows(p, start)[k] == p[start + 850 * k..Smaller(start + 850 * k + 1000, |p|)]
    decreases k
  {
    if k > 0 { WindowsFrom(p, start + STRIDE, k - 1); }
  }

  /** A long paragraph's windows start every 850 characters and run for 1000, or to its end. */
  lemma WindowAt(p: string, k: nat)
    requires |p| > 1000 && k < |ChunksOf(p)|
    ensures |ChunksOf(p)| == (|p| + 849) / 850 && 850 * k < |p|
    ensures ChunksOf(p)[k] == p[850 * k..if 850 * k + 1000 < |p| then 850 * k + 1000 else |p|]
  {
    WindowCount(p, 0);
    WindowsFrom(p, 0, k);
  }

  // ---------------------------------------------------------------- end to end

  lemma {:induction false} MergedAlone(ps: seq<string>)
    requires forall k :: 0 <= k < |ps| - 1 ==> |ps[k]| >= MIN_CHUNK
    ensures Merged(ps) == ps
  {
    if ps != [] { MergedAlone(ps[..|ps| - 1]); }
  }

  lemma {:induction false} ChunksAlone(ps: seq<string>)
    requires forall k :: 0 <= k < |ps| ==> |ps[k]| <= MAX_CHUNK
    ensures AllChunks(ps) == ps
  {
    if ps != [] { ChunksAlone(ps[..|ps| - 1]); }
  }

  /**
    A document whose paragraphs all have 100 to 1000 characters (the last may be shorter) is
    cut into exactly its paragraphs, however its line breaks were typed.
   */
  lemma ChunksAreParagraphs(ps: seq<string>, crlf: seq<bool>)
    requires AllParagraphs(ps) && |crlf| == |Join(ps)|
    requires forall k :: 0 <= k < |ps| ==> (k == |ps| - 1 || |ps[k]| >= 100) && |ps[k]| <= 1000
    ensures Chunks(Typed(Join(ps), crlf)) == ps
  {
    WrittenParagraphsFound(ps, crlf);
    MergedAlone(ps);
    ChunksAlone(ps);
  }

  /** A heading never stands alone: it goes in front of the paragraph that follows it. */
  lemma HeadingJoinsNext(heading: string, body: string, crlf: seq<bool>)
    requires IsParagraph(heading) && IsParagraph(body) && |heading| < 100 && |crlf| == |heading + BLANK_LINE + body|
    ensures var text := heading + BLANK_LINE + body; Chunks(Typed(text, crlf)) == ChunksOf(text)
  {
    var ps := [heading, body];
    JoinCons(heading, [body]);
    assert [heading] + [body] == ps && Join([body]) == body;
    WrittenParagraphsFound(ps, crlf);
    assert ps[..1] == [heading] && [heading][..0] == [];
    assert Merged([]) == [] && Merged([heading]) == [heading];
    assert Merged(ps) == [heading + BLANK_LINE + body];
    assert AllChunks([heading + BLANK_LINE + body]) == ChunksOf(heading + BLANK_LINE + body);
  }
}
