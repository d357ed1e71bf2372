/** Cutting a knowledge document into chunks. */
module Chunking {

  const MAX_CHUNK: nat := 1000
  const MIN_CHUNK: nat := 100
  const OVERLAP: nat := 150
  const STRIDE: nat := MAX_CHUNK - OVERLAP
  const BLANK_LINE := "\n\n"

  // ---------------------------------------------------------------- paragraphs

  /** What Python strips from the ends of a string. */
  predicate IsSpace(c: char)
  {
    var n := c as int;
    9 <= n <= 13 || 28 <= n <= 32 || n == 0x85 || n == 0xA0 || n == 0x1680 || 0x2000 <= n <= 0x200A ||
    n == 0x2028 || n == 0x2029 || n == 0x202F || n == 0x205F || n == 0x3000
  }

  function Normalized(s: string): string
  {
    if |s| < 2 then s
    else if s[..2] == "\r\n" then "\n" + Normalized(s[2..])
    else [s[0]] + Normalized(s[1..])
  }

  predicate BreaksAt(s: string, k: int)
  {
    0 <= k && k + 2 <= |s| && s[k..k + 2] == BLANK_LINE
  }

  /** Where the first blank line starts, or the length. */
  function BreakAt(s: string): (i: nat)
    ensures i <= |s| && (i < |s| ==> BreaksAt(s, i))
    ensures forall k :: 0 <= k < i ==> !BreaksAt(s, k)
  {
    if |s| < 2 then |s|
    else if BreaksAt(s, 0) then 0
    else
      var i := BreakAt(s[1..]);
      assert forall k :: 0 < k ==> (BreaksAt(s, k) <==> BreaksAt(s[1..], k - 1)) by { BreaksShift(s); }
      i + 1
  }

  lemma BreaksShift(s: string)
    requires s != ""
    ensures forall k :: 0 < k ==> (BreaksAt(s, k) <==> BreaksAt(s[1..], k - 1))
  {
    forall k | 0 < k ensures BreaksAt(s, k) <==> BreaksAt(s[1..], k - 1) {
      if k + 2 <= |s| { assert s[k..k + 2] == s[1..][k - 1..k + 1]; }
    }
  }

  function Split(s: string): (ps: seq<string>)
    ensures ps != []
  {
    var i := BreakAt(s);
    if i == |s| then [s] else [s[..i]] + Split(s[i + 2..])
  }

  function Join(ps: seq<string>): string
  {
    if ps == [] then ""
    else if |ps| == 1 then ps[0]
    else Join(ps[..|ps| - 1]) + BLANK_LINE + ps[|ps| - 1]
  }

  lemma {:induction false} JoinCons(p: string, ps: seq<string>)
    requires ps != []
    ensures Join([p] + ps) == p + BLANK_LINE + Join(ps)
  {
    var all, n := [p] + ps, |ps|;
    assert all[..n] == [p] + ps[..n - 1];
    if n > 1 { JoinCons(p, ps[..n - 1]); }
  }

  ghost predicate Unbroken(p: string)
  {
    forall k :: 0 <= k ==> !BreaksAt(p, k)
  }

  lemma CutAtBreak(s: string, i: nat)
    requires BreaksAt(s, i)
    ensures s[..i] + BLANK_LINE + s[i + 2..] == s
  {
    assert s[..i] + s[i..i + 2] + s[i + 2..] == s;
  }

  /** Splitting is inverted by joining. */
  lemma {:induction false} JoinSplit(s: string)
    ensures Join(Split(s)) == s
    decreases |s|
  {
    var i := BreakAt(s);
    if i < |s| {
      var head, rest := s[..i], s[i + 2..];
      JoinSplit(rest);
      var pieces := Split(rest);
      assert Split(s) == [head] + pieces;
      JoinCons(head, pieces);
      CutAtBreak(s, i);
    } else {
      assert Split(s) == [s];
    }
  }

  lemma HeadUnbroken(s: string)
    ensures Unbroken(s[..BreakAt(s)])
  {
    var i := BreakAt(s);
    forall k | 0 <= k ensures !BreaksAt(s[..i], k) {
      if k + 2 <= i { assert s[..i][k..k + 2] == s[k..k + 2] && !BreaksAt(s, k); }
    }
  }

  /** Splitting leaves no blank line inside a piece. */
  lemma {:induction false} PiecesUnbroken(s: string, k: nat)
    requires k < |Split(s)|
    ensures Unbroken(Split(s)[k])
    decreases k
  {
    var i := BreakAt(s);
    if k == 0 {
      HeadUnbroken(s);
      assert s[..|s|] == s;
    } else {
      PiecesUnbroken(s[i + 2..], k - 1);
    }
  }

  function LeftStripped(s: string): string
  {
    if s != "" && IsSpace(s[0]) then LeftStripped(s[1..]) else s
  }

  function RightStripped(s: string): string
  {
    if s != "" && IsSpace(s[|s| - 1]) then RightStripped(s[..|s| - 1]) else s
  }

  function Stripped(s: string): string { RightStripped(LeftStripped(s)) }

  function NonBlank(pieces: seq<string>): seq<string>
  {
    if pieces == [] then []
    else (if Stripped(pieces[0]) == "" then [] else [Stripped(pieces[0])]) + NonBlank(pieces[1..])
  }

  function Paragraphs(content: string): seq<string> { NonBlank(Split(Normalized(content))) }

  // ---------------------------------------------------------------- merging

  function MergedWith(merged: seq<string>, p: string): seq<string>
  {
    var n := |merged|;
    if n > 0 && |merged[n - 1]| < MIN_CHUNK then merged[n - 1 := merged[n - 1] + BLANK_LINE + p] else merged + [p]
  }

  function Merged(ps: seq<string>): seq<string>
  {
    if ps == [] then [] else MergedWith(Merged(ps[..|ps| - 1]), ps[|ps| - 1])
  }

  /** Merging drops nothing and moves nothing, and only the last merged paragraph may stay short. */
  lemma {:induction false} MergeKeepsText(ps: seq<string>)
    ensures Join(Merged(ps)) == Join(ps)
    ensures (Merged(ps) == []) == (ps == [])
    ensures forall k :: 0 <= k < |Merged(ps)| - 1 ==> |Merged(ps)[k]| >= MIN_CHUNK
  {
    if ps != [] {
      var front, p := ps[..|ps| - 1], ps[|ps| - 1];
      MergeKeepsText(front);
      JoinMergedWith(Merged(front), p);
    }
  }

  lemma JoinMergedWith(merged: seq<string>, p: string)
    ensures Join(MergedWith(merged, p)) == if merged == [] then p else Join(merged) + BLANK_LINE + p
  {
    var n, all := |merged|, MergedWith(merged, p);
    if n > 0 {
      if |merged[n - 1]| < MIN_CHUNK {
        assert all[..n - 1] == merged[..n - 1];
      } else {
        assert all[..n] == merged;
      }
    }
  }

  // ---------------------------------------------------------------- windows

  function Smaller(a: nat, b: nat): nat { if a < b then a else b }

  function Windows(p: string, start: nat): seq<string>
    decreases |p| - start
  {
    if start >= |p| then [] else [p[start..Smaller(start + MAX_CHUNK, |p|)]] + Windows(p, start + STRIDE)
  }

  function ChunksOf(p: string): seq<string>
  {
    if |p| <= MAX_CHUNK then [p] else Windows(p, 0)
  }

  function AllChunks(merged: seq<string>): seq<string>
  {
    if merged == [] then [] else AllChunks(merged[..|merged| - 1]) + ChunksOf(merged[|merged| - 1])
  }

  function Chunks(content: string): seq<string> { AllChunks(Merged(Paragraphs(content))) }

  /** One window for every begun stride, none longer than a chunk and none empty. */
  lemma {:induction false} WindowCount(p: string, start: nat)
    ensures |Windows(p, start)| == if start >= |p| then 0 else (|p| - start + STRIDE - 1) / STRIDE
    ensures forall k :: 0 <= k < |Windows(p, start)| ==> 0 < |Windows(p, start)[k]| <= MAX_CHUNK
    decreases |p| - start
  {
    if start < |p| { WindowCount(p, start + STRIDE); }
  }

  function WithoutOverlap(w: string): string
  {
    if |w| <= OVERLAP then "" else w[OVERLAP..]
  }

  /** Windows from the second on, each without the characters it repeats. */
  function Continuation(ws: seq<string>): string
  {
    if ws == [] then "" else WithoutOverlap(ws[0]) + Continuation(ws[1..])
  }

  function Restored(ws: seq<string>): string
  {
    if ws == [] then "" else ws[0] + Continuation(ws[1..])
  }

  lemma {:induction false} ContinuationIsRest(p: string, start: nat)
    requires start <= |p|
    ensures Continuation(Windows(p, start)) == p[Smaller(start + OVERLAP, |p|)..]
    decreases |p| - start
  {
    if start < |p| {
      var stop := Smaller(start + MAX_CHUNK, |p|);
      var w := p[start..stop];
      assert Windows(p, start)[1..] == Windows(p, start + STRIDE);
      assert WithoutOverlap(w) == p[Smaller(start + OVERLAP, |p|)..stop];
      if start + STRIDE <= |p| {
        ContinuationIsRest(p, start + STRIDE);
        assert p[Smaller(start + OVERLAP, |p|)..stop] + p[stop..] == p[Smaller(start + OVERLAP, |p|)..];
      }
    }
  }

  /** The windows of a paragraph give it back: the first, then each later one without its overlap. */
  lemma RestoredIsParagraph(p: string)
    ensures Restored(ChunksOf(p)) == p
    ensures |p| > MAX_CHUNK ==> |ChunksOf(p)| == (|p| + STRIDE - 1) / STRIDE
    ensures forall k :: 0 <= k < |ChunksOf(p)| ==> |ChunksOf(p)[k]| <= MAX_CHUNK
  {
    if |p| > MAX_CHUNK {
      WindowCount(p, 0);
      ContinuationIsRest(p, STRIDE);
      assert Windows(p, 0)[1..] == Windows(p, STRIDE);
      assert p[..MAX_CHUNK] + p[MAX_CHUNK..] == p;
    }
  }

  function LastWindow(p: string, start: nat): string
    requires start < |p|
    decreases |p| - start
  {
    if start + STRIDE < |p| then LastWindow(p, start + STRIDE) else p[start..]
  }

  lemma {:induction false} LastWindowIsLast(p: string, start: nat)
    requires start < |p|
    ensures Windows(p, start) != [] && Windows(p, start)[|Windows(p, start)| - 1] == LastWindow(p, start)
    decreases |p| - start
  {
    var rest := Windows(p, start + STRIDE);
    if start + STRIDE < |p| {
      LastWindowIsLast(p, start + STRIDE);
      assert Windows(p, start)[|rest|] == rest[|rest| - 1];
    } else {
      assert rest == [] && p[start..|p|] == p[start..];
    }
  }

  lemma OneStrideLess(n: int)
    requires n >= STRIDE
    ensures n % STRIDE == (n - STRIDE) % STRIDE
  {
  }

  lemma {:induction false} LastWindowLength(p: string, start: nat)
    requires start < |p|
    ensures |LastWindow(p, start)| == (|p| - start - 1) % STRIDE + 1
    decreases |p| - start
  {
    if start + STRIDE < |p| {
      LastWindowLength(p, start + STRIDE);
      OneStrideLess(|p| - start - 1);
    }
  }

  /**
    The window loop's last window adds nothing, being the end of the window before it,
    exactly when at most an overlap's worth of text is left at its start.
   */
  lemma LastWindowRedundantIff(p: string)
    requires |p| > MAX_CHUNK
    ensures var ws := ChunksOf(p);
            && |ws| >= 2
            && (WithoutOverlap(ws[|ws| - 1]) == "" <==> (|p| - 1) % STRIDE < OVERLAP)
  {
    LastWindowIsLast(p, 0);
    LastWindowLength(p, 0);
    WindowCount(p, 0);
  }

  // ---------------------------------------------------------------- nothing is lost

  /** The text without its whitespace. */
  function Solid(s: string): string
  {
    if s == "" then "" else (if IsSpace(s[0]) then "" else [s[0]]) + Solid(s[1..])
  }

  function SolidChar(c: char): string { if IsSpace(c) then "" else [c] }

  lemma SolidStep(c: char, s: string)
    ensures Solid([c] + s) == SolidChar(c) + Solid(s)
  {
    assert ([c] + s)[1..] == s;
  }

  lemma ConcatAssociates(x: string, y: string, z: string)
    ensures x + (y + z) == (x + y) + z
  {
  }

  lemma SolidCons(c: char, t: string, b: string)
    requires Solid(t + b) == Solid(t) + Solid(b)
    ensures Solid([c] + (t + b)) == Solid([c] + t) + Solid(b)
  {
    SolidStep(c, t);
    SolidStep(c, t + b);
    ConcatAssociates(SolidChar(c), Solid(t), Solid(b));
  }

  lemma {:induction false} SolidConcat(a: string, b: string)
    ensures Solid(a + b) == Solid(a) + Solid(b)
  {
    if a == "" {
      assert a + b == b;
    } else {
      SolidConcat(a[1..], b);
      SolidCons(a[0], a[1..], b);
      assert [a[0]] + a[1..] == a && [a[0]] + (a[1..] + b) == a + b;
    }
  }

  lemma {:induction false} SolidNormalized(s: string)
    ensures Solid(Normalized(s)) == Solid(s)
  {
    if |s| >= 2 {
      if s[..2] == "\r\n" {
        SolidNormalized(s[2..]);
        assert s[1..][1..] == s[2..] && s[1] == '\n';
        assert Normalized(s)[1..] == Normalized(s[2..]);
      } else {
        SolidNormalized(s[1..]);
        assert Normalized(s)[1..] == Normalized(s[1..]);
      }
    }
  }

  lemma {:induction false} SolidLeft(s: string)
    ensures Solid(LeftStripped(s)) == Solid(s)
  {
    if s != "" && IsSpace(s[0]) { SolidLeft(s[1..]); }
  }

  lemma {:induction false} SolidRight(s: string)
    ensures Solid(RightStripped(s)) == Solid(s)
  {
    if s != "" && IsSpace(s[|s| - 1]) {
      SolidRight(s[..|s| - 1]);
      SolidConcat(s[..|s| - 1], s[|s| - 1..]);
      assert s == s[..|s| - 1] + s[|s| - 1..];
      assert Solid(s[|s| - 1..]) == "";
    }
  }

  lemma SolidJoin(ps: seq<string>, p: string)
    ensures Solid(Join(ps + [p])) == Solid(Join(ps)) + Solid(p)
  {
    var all := ps + [p];
    assert all[..|ps|] == ps;
    if ps != [] {
      SolidConcat(Join(ps) + BLANK_LINE, p);
      SolidConcat(Join(ps), BLANK_LINE);
      assert Solid(BLANK_LINE) == "" by { assert BLANK_LINE[1..] == "\n"; }
    }
  }

  lemma {:induction false} NonBlankSnoc(pieces: seq<string>, p: string)
    ensures NonBlank(pieces + [p]) == NonBlank(pieces) + if Stripped(p) == "" then [] else [Stripped(p)]
  {
    if pieces == [] {
      assert NonBlank([p]) == if Stripped(p) == "" then [] else [Stripped(p)];
    } else {
      NonBlankSnoc(pieces[1..], p);
      assert (pieces + [p])[1..] == pieces[1..] + [p];
    }
  }

  lemma {:induction false} SolidNonBlank(pieces: seq<string>)
    ensures Solid(Join(NonBlank(pieces))) == Solid(Join(pieces))
  {
    if pieces != [] {
      var front, p := pieces[..|pieces| - 1], pieces[|pieces| - 1];
      assert pieces == front + [p];
      SolidNonBlank(front);
      NonBlankSnoc(front, p);
      SolidJoin(front, p);
      SolidLeft(p);
      SolidRight(LeftStripped(p));
      if Stripped(p) != "" {
        SolidJoin(NonBlank(front), Stripped(p));
      } else {
        assert NonBlank(front) + [] == NonBlank(front);
      }
    }
  }

  /** Apart from whitespace the merged paragraphs are the document: nothing lost, added or moved. */
  lemma MergedKeepsSolid(content: string)
    ensures Solid(Join(Merged(Paragraphs(content)))) == Solid(content)
  {
    SolidNormalized(content);
    JoinSplit(Normalized(content));
    SolidNonBlank(Split(Normalized(content)));
    MergeKeepsText(Paragraphs(content));
  }

  /** The chunks cut back into one group per merged paragraph. */
  ghost predicate Groups(groups: seq<seq<string>>, merged: seq<string>)
  {
    |groups| == |merged| && forall k :: 0 <= k < |merged| ==> groups[k] == ChunksOf(merged[k])
  }

  function Flattened(groups: seq<seq<string>>): seq<string>
  {
    if groups == [] then [] else Flattened(groups[..|groups| - 1]) + groups[|groups| - 1]
  }

  function RestoredAll(groups: seq<seq<string>>): seq<string>
  {
    if groups == [] then [] else RestoredAll(groups[..|groups| - 1]) + [Restored(groups[|groups| - 1])]
  }

  lemma {:induction false} GroupsFlatten(groups: seq<seq<string>>, merged: seq<string>)
    requires Groups(groups, merged)
    ensures Flattened(groups) == AllChunks(merged)
  {
    if merged != [] { GroupsFlatten(groups[..|merged| - 1], merged[..|merged| - 1]); }
  }

  lemma {:induction false} EachRestored(groups: seq<seq<string>>, merged: seq<string>)
    requires |groups| == |merged| && forall k :: 0 <= k < |merged| ==> Restored(groups[k]) == merged[k]
    ensures RestoredAll(groups) == merged
  {
    if merged != [] {
      var n := |merged| - 1;
      EachRestored(groups[..n], merged[..n]);
      assert RestoredAll(groups) == merged[..n] + [merged[n]];
    }
  }

  lemma GroupsRestore(groups: seq<seq<string>>, merged: seq<string>)
    requires Groups(groups, merged)
    ensures RestoredAll(groups) == merged
  {
    forall k | 0 <= k < |merged| ensures Restored(groups[k]) == merged[k] { RestoredIsParagraph(merged[k]); }
    EachRestored(groups, merged);
  }

  lemma {:induction false} ChunksFit(merged: seq<string>, k: nat)
    requires k < |AllChunks(merged)|
    ensures |AllChunks(merged)[k]| <= MAX_CHUNK
    decreases |merged|
  {
    var n := |merged| - 1;
    var before := AllChunks(merged[..n]);
    if k < |before| { ChunksFit(merged[..n], k); } else { RestoredIsParagraph(merged[n]); }
  }

  /**
    End to end: every chunk fits, and the chunks are, group by group, enough to restore the
    document apart from whitespace.
   */
  lemma ChunksLoseNothing(content: string) returns (groups: seq<seq<string>>)
    ensures Flattened(groups) == Chunks(content)
    ensures Solid(Join(RestoredAll(groups))) == Solid(content)
    ensures forall k :: 0 <= k < |Chunks(content)| ==> |Chunks(content)[k]| <= MAX_CHUNK
  {
    var merged := Merged(Paragraphs(content));
    groups := seq(|merged|, k requires 0 <= k < |merged| => ChunksOf(merged[k]));
    GroupsFlatten(groups, merged);
    GroupsRestore(groups, merged);
    MergedKeepsSolid(content);
    forall k | 0 <= k < |Chunks(content)| ensures |Chunks(content)[k]| <= MAX_CHUNK { ChunksFit(merged, k); }
  }

  // ---------------------------------------------------------------- the loops

  method MergeShort(paragraphs: seq<string>) returns (merged: seq<string>)
    ensures merged == Merged(paragraphs)
  {
    merged := [];
    for i := 0 to |paragraphs|
      invariant merged == Merged(paragraphs[..i])
    {
      assert paragraphs[..i + 1][..i] == paragraphs[..i];
      var last := |merged| - 1;
      if merged != [] && |merged[last]| < MIN_CHUNK {
        merged := merged[last := merged[last] + BLANK_LINE + paragraphs[i]];
      } else {
        merged := merged + [paragraphs[i]];
      }
    }
    assert paragraphs[..|paragraphs|] == paragraphs;
  }

  method SlideWindow(paragraph: string) returns (windows: seq<string>)
    ensures windows == Windows(paragraph, 0)
  {
    windows := [];
    var start := 0;
    while start < |paragraph|
      invariant windows + Windows(paragraph, start) == Windows(paragraph, 0)
      decreases |paragraph| - start
    {
      var end := start + MAX_CHUNK;
      var window := paragraph[start..Smaller(end, |paragraph|)];
      assert Windows(paragraph, start) == [window] + Windows(paragraph, start + STRIDE);
      assert windows + ([window] + Windows(paragraph, start + STRIDE)) == (windows + [window]) + Windows(paragraph, start + STRIDE);
      windows := windows + [window];
      start := end - OVERLAP;
    }
    assert windows + [] == windows;
  }

  method ChunkText(content: string) returns (chunks: seq<string>)
    ensures chunks == Chunks(content)
    ensures forall k :: 0 <= k < |chunks| ==> |chunks[k]| <= MAX_CHUNK
  {
    var merged := MergeShort(Paragraphs(content));
    chunks := [];
    for i := 0 to |merged|
      invariant chunks == AllChunks(merged[..i])
    {
      assert merged[..i + 1][..i] == merged[..i];
      if |merged[i]| <= MAX_CHUNK {
        chunks := chunks + [merged[i]];
      } else {
        var windows := SlideWindow(merged[i]);
        chunks := chunks + windows;
      }
    }
    assert merged[..|merged|] == merged;
    ghost var _ := ChunksLoseNothing(content);
  }
}
