/** The caption block of the stamp: greedy word wrapping, and the size ladder. */
module Caption {
  import opened Basics

  // ---- lines as runs of words ----

  /** Words i..j joined by single spaces. */
  function Text(words: seq<string>, i: nat, j: nat): (s: string)
    requires i < j <= |words|
    decreases j
  {
    if j == i + 1 then words[i] else Text(words, i, j - 1) + " " + words[j - 1]
  }

  /** A width measure under which a contiguous sub-run is never wider than its run. */
  ghost predicate Monotone(width: string -> int, words: seq<string>) {
    forall i: nat, j: nat, k: nat, l: nat {:trigger Text(words, k, l), Text(words, i, j)} ::
      i <= k < l <= j <= |words| ==> width(Text(words, k, l)) <= width(Text(words, i, j))
  }

  /** A line is a single word, or it is no wider than the box. */
  predicate LineOk(width: string -> int, maxW: int, words: seq<string>, i: nat, j: nat) {
    i < j <= |words| && (j == i + 1 || width(Text(words, i, j)) <= maxW)
  }

  /** A wrapping, as the positions where its lines start, with the end added. */
  predicate IsWrapping(width: string -> int, maxW: int, words: seq<string>, cuts: seq<nat>) {
    && |cuts| >= 1 && cuts[0] == 0 && cuts[|cuts| - 1] == |words|
    && (forall k :: 0 <= k < |cuts| - 1 ==> LineOk(width, maxW, words, cuts[k], cuts[k + 1]))
  }

  // ---- greedy wrapping ----

  /** Where the greedy line from i ends, once it already reaches j. */
  function Extend(width: string -> int, maxW: int, words: seq<string>, i: nat, j: nat): (e: nat)
    requires i < j <= |words|
    ensures j <= e <= |words|
    decreases |words| - j
  {
    if j < |words| && width(Text(words, i, j + 1)) <= maxW then Extend(width, maxW, words, i, j + 1) else j
  }

  function LineEnd(width: string -> int, maxW: int, words: seq<string>, i: nat): (e: nat)
    requires i < |words|
    ensures i < e <= |words|
  {
    Extend(width, maxW, words, i, i + 1)
  }

  /** The greedy lines of the words from i on. */
  function LinesFrom(width: string -> int, maxW: int, words: seq<string>, i: nat): (lines: seq<string>)
    requires i <= |words|
    decreases |words| - i
  {
    if i == |words| then []
    else
      var e := LineEnd(width, maxW, words, i);
      [Text(words, i, e)] + LinesFrom(width, maxW, words, e)
  }

  /** What the wrapper returns; no words give one empty line. */
  function Wrapped(width: string -> int, maxW: int, words: seq<string>): (lines: seq<string>) {
    if words == [] then [""] else LinesFrom(width, maxW, words, 0)
  }

  /** `wrapText`, on the words of the text. */
  method WrapText(width: string -> int, maxW: int, words: seq<string>) returns (lines: seq<string>)
    ensures lines == Wrapped(width, maxW, words)
  {
    if |words| == 0 { return [""]; }
    lines := [];
    var cur := words[0];
    ghost var start: nat := 0;
    for k := 1 to |words|
      invariant start < k && cur == Text(words, start, k)
      invariant Extend(width, maxW, words, start, k) == LineEnd(width, maxW, words, start)
      invariant lines + LinesFrom(width, maxW, words, start) == LinesFrom(width, maxW, words, 0)
    {
      var w := words[k];
      if width(cur + " " + w) <= maxW {
        cur := cur + " " + w;
      } else {
        assert LinesFrom(width, maxW, words, start) == [cur] + LinesFrom(width, maxW, words, k);
        lines := lines + [cur];
        cur := w;
        start := k;
      }
    }
    assert LinesFrom(width, maxW, words, start) == [cur];
    return lines + [cur];
  }

  // ---- the wrapping is valid, complete and shortest ----

  lemma {:induction false} ExtendOk(width: string -> int, maxW: int, words: seq<string>, i: nat, j: nat)
    requires i < j <= |words| && LineOk(width, maxW, words, i, j)
    ensures LineOk(width, maxW, words, i, Extend(width, maxW, words, i, j))
    decreases |words| - j
  {
    if j < |words| && width(Text(words, i, j + 1)) <= maxW { ExtendOk(width, maxW, words, i, j + 1); }
  }

  /** The greedy line reaches at least as far as any acceptable line from the same word. */
  lemma {:induction false} ExtendReaches(width: string -> int, maxW: int, words: seq<string>, i: nat, m: nat, j: nat)
    requires Monotone(width, words) && i < m <= j <= |words| && LineOk(width, maxW, words, i, j)
    ensures Extend(width, maxW, words, i, m) >= j
    decreases j - m
  {
    if m < j {
      assert width(Text(words, i, m + 1)) <= width(Text(words, i, j));
      ExtendReaches(width, maxW, words, i, m + 1, j);
    }
  }

  /** Starting later never needs more lines. */
  lemma {:induction false} FewerWordsFewerLines(width: string -> int, maxW: int, words: seq<string>, i: nat, j: nat)
    requires Monotone(width, words) && i <= j <= |words|
    ensures |LinesFrom(width, maxW, words, j)| <= |LinesFrom(width, maxW, words, i)|
    decreases |words| - i
  {
    if i < j {
      var e := LineEnd(width, maxW, words, i);
      if e <= j {
        FewerWordsFewerLines(width, maxW, words, e, j);
      } else {
        ExtendOk(width, maxW, words, i, i + 1);
        assert width(Text(words, j, e)) <= width(Text(words, i, e));
        ExtendReaches(width, maxW, words, j, j + 1, e);
        FewerWordsFewerLines(width, maxW, words, e, LineEnd(width, maxW, words, j));
      }
    }
  }

  lemma {:induction false} NoWrappingIsShorter(width: string -> int, maxW: int, words: seq<string>, cuts: seq<nat>, k: nat)
    requires Monotone(width, words) && IsWrapping(width, maxW, words, cuts) && k < |cuts|
    requires cuts[k] <= |words|
    ensures |LinesFrom(width, maxW, words, cuts[k])| <= |cuts| - 1 - k
    decreases |cuts| - k
  {
    if k < |cuts| - 1 {
      assert LineOk(width, maxW, words, cuts[k], cuts[k + 1]);
      NoWrappingIsShorter(width, maxW, words, cuts, k + 1);
      ExtendReaches(width, maxW, words, cuts[k], cuts[k] + 1, cuts[k + 1]);
      FewerWordsFewerLines(width, maxW, words, cuts[k + 1], LineEnd(width, maxW, words, cuts[k]));
    }
  }

  /** Greedy wrapping uses the fewest lines of any wrapping whose lines are single words or fit. */
  lemma GreedyIsShortest(width: string -> int, maxW: int, words: seq<string>, cuts: seq<nat>)
    requires words != [] && Monotone(width, words) && IsWrapping(width, maxW, words, cuts)
    ensures |Wrapped(width, maxW, words)| <= |cuts| - 1
  {
    NoWrappingIsShorter(width, maxW, words, cuts, 0);
  }

  function GreedyCuts(width: string -> int, maxW: int, words: seq<string>, i: nat): (cuts: seq<nat>)
    requires i <= |words|
    ensures |cuts| >= 1 && cuts[0] == i
    decreases |words| - i
  {
    if i == |words| then [i] else [i] + GreedyCuts(width, maxW, words, LineEnd(width, maxW, words, i))
  }

  lemma {:induction false} GreedyCutsOk(width: string -> int, maxW: int, words: seq<string>, i: nat)
    requires i <= |words|
    ensures var cuts, lines := GreedyCuts(width, maxW, words, i), LinesFrom(width, maxW, words, i);
            && |cuts| == |lines| + 1 && cuts[|cuts| - 1] == |words|
            && (forall k :: 0 <= k < |lines| ==> LineOk(width, maxW, words, cuts[k], cuts[k + 1]))
            && (forall k :: 0 <= k < |lines| ==> lines[k] == Text(words, cuts[k], cuts[k + 1]))
    decreases |words| - i
  {
    if i < |words| {
      var e := LineEnd(width, maxW, words, i);
      ExtendOk(width, maxW, words, i, i + 1);
      GreedyCutsOk(width, maxW, words, e);
      var cuts, lines := GreedyCuts(width, maxW, words, i), LinesFrom(width, maxW, words, i);
      var cuts1, lines1 := GreedyCuts(width, maxW, words, e), LinesFrom(width, maxW, words, e);
      assert cuts == [i] + cuts1 && lines == [Text(words, i, e)] + lines1;
    }
  }

  /** The wrapper's lines are the runs of a wrapping: all the words, in order, each line a single word
      or no wider than the box; and no wrapping has fewer lines. */
  lemma WrappedIsBestWrapping(width: string -> int, maxW: int, words: seq<string>) returns (cuts: seq<nat>)
    requires words != []
    ensures IsWrapping(width, maxW, words, cuts)
    ensures |Wrapped(width, maxW, words)| == |cuts| - 1
    ensures forall k :: 0 <= k < |cuts| - 1 ==> Wrapped(width, maxW, words)[k] == Text(words, cuts[k], cuts[k + 1])
    ensures Monotone(width, words) ==> forall other :: IsWrapping(width, maxW, words, other) ==> |cuts| <= |other|
  {
    cuts := GreedyCuts(width, maxW, words, 0);
    GreedyCutsOk(width, maxW, words, 0);
    if Monotone(width, words) {
      forall other | IsWrapping(width, maxW, words, other) ensures |cuts| <= |other| {
        GreedyIsShortest(width, maxW, words, other);
      }
    }
  }

  /** There is always a line to draw: a text without words is one empty line, and no other text is. */
  lemma EmptyTextIff(width: string -> int, maxW: int, words: seq<string>)
    requires forall i :: 0 <= i < |words| ==> words[i] != ""
    ensures Wrapped(width, maxW, words) != []
    ensures Wrapped(width, maxW, words) == [""] <==> words == []
  {
    if words != [] {
      var e := LineEnd(width, maxW, words, 0);
      TextNotEmpty(words, 0, e);
      assert LinesFrom(width, maxW, words, 0)[0] == Text(words, 0, e);
    }
  }

  lemma {:induction false} TextNotEmpty(words: seq<string>, i: nat, j: nat)
    requires i < j <= |words| && words[i] != ""
    ensures Text(words, i, j) != ""
  {
  }

  /** Lines joined by spaces. */
  function Joined(lines: seq<string>): (s: string) {
    if lines == [] then "" else if |lines| == 1 then lines[0] else lines[0] + " " + Joined(lines[1..])
  }

  lemma {:induction false} TextSplits(words: seq<string>, i: nat, k: nat, j: nat)
    requires i < k < j <= |words|
    ensures Text(words, i, j) == Text(words, i, k) + " " + Text(words, k, j)
    decreases j
  {
    if k < j - 1 { TextSplits(words, i, k, j - 1); }
  }

  /** Undoing the line breaks gives the text back. */
  lemma {:induction false} LinesRejoin(width: string -> int, maxW: int, words: seq<string>, i: nat)
    requires i < |words|
    ensures Joined(LinesFrom(width, maxW, words, i)) == Text(words, i, |words|)
    decreases |words| - i
  {
    var e := LineEnd(width, maxW, words, i);
    var rest := LinesFrom(width, maxW, words, e);
    assert ([Text(words, i, e)] + rest)[1..] == rest;
    if e < |words| {
      LinesRejoin(width, maxW, words, e);
      TextSplits(words, i, e, |words|);
      assert |rest| >= 1;
    }
  }

  // ---- the size ladder ----

  datatype CaptionLine = CaptionLine(words: seq<string>, bold: bool)

  datatype Face = BodyFace | BoldFace | HeadFace

  datatype Placed = Placed(text: string, face: Face, baseline: int)

  /** The sizes tried: 26, 24, 22, 20, 18, 16, 14, 12, 10. */
  predicate Rung(size: nat) {
    10 <= size <= 26 && size % 2 == 0
  }

  /** Font metrics: string widths per face and size, line heights per size. */
  datatype Metrics = Metrics(width: (Face, nat) -> string -> int, height: nat -> nat)

  function FaceOf(i: nat, line: CaptionLine): (f: Face) {
    if line.bold then BoldFace else if i == 0 then HeadFace else BodyFace
  }

  function WrappedLine(m: Metrics, maxW: int, size: nat, i: nat, line: CaptionLine): (r: seq<(string, Face)>) {
    var f := FaceOf(i, line);
    InFace(Wrapped(m.width(f, size), maxW, line.words), f)
  }

  function InFace(ls: seq<string>, f: Face): (r: seq<(string, Face)>) {
    seq(|ls|, k requires 0 <= k < |ls| => (ls[k], f))
  }

  /** The block at one size: every caption line wrapped, in order. */
  function Block(m: Metrics, maxW: int, size: nat, lines: seq<CaptionLine>): (r: seq<(string, Face)>) {
    if lines == [] then []
    else
      var n := |lines| - 1;
      Block(m, maxW, size, lines[..n]) + WrappedLine(m, maxW, size, n, lines[n])
  }

  function LineHeight(m: Metrics, size: nat): (h: nat)
    ensures h > 0
  {
    m.height(size) * 4 / 3 + 1
  }

  function BlockHeight(m: Metrics, maxW: int, size: nat, lines: seq<CaptionLine>): (h: nat) {
    LineHeight(m, size) * |Block(m, maxW, size, lines)|
  }

  /** The face of a line: bold if it asks for it, the smaller heading face for a plain first line. */
  predicate InItsFace(i: nat, line: CaptionLine, f: Face) {
    && (f == BoldFace <==> line.bold)
    && (f == HeadFace <==> !line.bold && i == 0)
  }

  lemma {:induction false} BlockGrows(m: Metrics, maxW: int, size: nat, lines: seq<CaptionLine>, i: nat)
    requires i <= |lines|
    ensures Block(m, maxW, size, lines[..i]) <= Block(m, maxW, size, lines)
    decreases |lines|
  {
    if i < |lines| {
      BlockGrows(m, maxW, size, lines[..|lines| - 1], i);
      assert lines[..|lines| - 1][..i] == lines[..i];
    } else {
      assert lines[..i] == lines;
    }
  }

  /** Every caption line is in the block: its wrapped lines, in its face, right after those of the lines
      before it. */
  lemma LineInBlock(m: Metrics, maxW: int, size: nat, lines: seq<CaptionLine>, i: nat, f: Face)
    requires i < |lines| && InItsFace(i, lines[i], f)
    ensures var at, ws := |Block(m, maxW, size, lines[..i])|, Wrapped(m.width(f, size), maxW, lines[i].words);
            && |Block(m, maxW, size, lines[..i + 1])| == at + |ws| <= |Block(m, maxW, size, lines)|
            && forall k :: 0 <= k < |ws| ==> Block(m, maxW, size, lines)[at + k] == (ws[k], f)
  {
    hide Wrapped;
    BlockSnoc(m, maxW, size, lines, i);
    assert f == FaceOf(i, lines[i]);
    var front, ws := Block(m, maxW, size, lines[..i]), Wrapped(m.width(f, size), maxW, lines[i].words);
    var upTo := Block(m, maxW, size, lines[..i + 1]);
    assert upTo == front + InFace(ws, f);
    BlockGrows(m, maxW, size, lines, i + 1);
    hide Block;
    forall k | 0 <= k < |ws| ensures Block(m, maxW, size, lines)[|front| + k] == (ws[k], f) {
      assert upTo[|front| + k] == InFace(ws, f)[k];
    }
  }

  lemma BlockSnoc(m: Metrics, maxW: int, size: nat, lines: seq<CaptionLine>, i: nat)
    requires i < |lines|
    ensures Block(m, maxW, size, lines[..i + 1]) == Block(m, maxW, size, lines[..i]) + WrappedLine(m, maxW, size, i, lines[i])
  {
    hide WrappedLine;
    var upTo := lines[..i + 1];
    assert upTo[..i] == lines[..i] && upTo[i] == lines[i];
  }

  /** A line is as high as the first whole number above four thirds of the font's height. */
  lemma LineHeightIff(m: Metrics, size: nat, h: int)
    ensures h == LineHeight(m, size) <==> 3 * (h - 1) <= 4 * m.height(size) < 3 * h
  {
  }

  /** The first baseline is three quarters of a line below the top, rounded down, and each next one a line
      further. */
  lemma BaselineIff(top: int, lineH: nat, k: nat, y: int)
    ensures y == Baseline(top, lineH, k) <==> 4 * (y - top - k * lineH) <= 3 * lineH < 4 * (y - top - k * lineH) + 4
  {
  }

  /** Wraps every caption line at one size. */
  method WrapBlock(m: Metrics, maxW: int, size: nat, lines: seq<CaptionLine>) returns (ps: seq<(string, Face)>)
    ensures ps == Block(m, maxW, size, lines)
  {
    ps := [];
    for i := 0 to |lines|
      invariant ps == Block(m, maxW, size, lines[..i])
    {
      var f := FaceOf(i, lines[i]);
      var ws := WrapText(m.width(f, size), maxW, lines[i].words);
      ps := AppendLines(ps, ws, f);
      assert lines[..i + 1][..i] == lines[..i];
    }
    assert lines[..|lines|] == lines;
  }

  method AppendLines(ps: seq<(string, Face)>, ls: seq<string>, f: Face) returns (r: seq<(string, Face)>)
    ensures r == ps + InFace(ls, f)
  {
    r := ps;
    for k := 0 to |ls|
      invariant r == ps + InFace(ls, f)[..k]
    {
      r := r + [(ls[k], f)];
    }
    assert InFace(ls, f)[..|ls|] == InFace(ls, f);
  }

  /** `drawCaption`: the largest ladder size whose block fits, or the smallest size if none does; the
      block's lines one below the other; and the block inside its box exactly when some size fits. */
  method DrawCaption(m: Metrics, lines: seq<CaptionLine>, y0: int, maxW: int, maxH: int)
      returns (size: nat, top: int, placed: seq<Placed>)
    ensures Rung(size)
    ensures forall t: nat :: Rung(t) && t > size ==> BlockHeight(m, maxW, t, lines) > maxH
    ensures BlockHeight(m, maxW, size, lines) <= maxH || size == 10
    ensures |placed| == |Block(m, maxW, size, lines)|
    ensures forall k :: 0 <= k < |placed| ==>
      placed[k] == Placed(Block(m, maxW, size, lines)[k].0, Block(m, maxW, size, lines)[k].1,
                          Baseline(top, LineHeight(m, size), k))
    ensures (y0 <= top && top + BlockHeight(m, maxW, size, lines) <= y0 + maxH)
            <==> exists t: nat :: Rung(t) && BlockHeight(m, maxW, t, lines) <= maxH
    // a block that fits is centred to within a pixel; one that does not starts at the top
    ensures var h := BlockHeight(m, maxW, size, lines);
            if h <= maxH then 0 <= (y0 + maxH - (top + h)) - (top - y0) <= 1 else top == y0
  {
    hide Block, LineHeight;
    size := 26;
    var ps := WrapBlock(m, maxW, size, lines);
    while LineHeight(m, size) * |ps| > maxH && size > 10
      invariant Rung(size) && ps == Block(m, maxW, size, lines)
      invariant forall t: nat :: Rung(t) && t > size ==> BlockHeight(m, maxW, t, lines) > maxH
      decreases size
    {
      assert BlockHeight(m, maxW, size, lines) > maxH;
      size := size - 2;
      ps := WrapBlock(m, maxW, size, lines);
    }
    var total := LineHeight(m, size) * |ps|;
    assert total == BlockHeight(m, maxW, size, lines);
    top := y0;
    if total < maxH { top := top + (maxH - total) / 2; }
    placed := PlaceLines(ps, top, LineHeight(m, size));
  }

  function Baseline(top: int, lineH: nat, k: nat): (y: int) {
    top + lineH * 3 / 4 + k * lineH
  }

  /** A block that fits keeps every baseline inside the box. */
  lemma BaselinesInside(y0: int, maxH: int, top: int, lineH: nat, n: nat, k: nat)
    requires k < n && y0 <= top && top + lineH * n <= y0 + maxH
    ensures y0 <= Baseline(top, lineH, k) <= y0 + maxH
  {
    assert k * lineH + lineH <= n * lineH by { assert (n - k - 1) * lineH >= 0; }
  }

  /** Stacks the lines from the first baseline down. */
  method PlaceLines(ps: seq<(string, Face)>, top: int, lineH: nat) returns (placed: seq<Placed>)
    ensures |placed| == |ps|
    ensures forall k :: 0 <= k < |ps| ==> placed[k] == Placed(ps[k].0, ps[k].1, Baseline(top, lineH, k))
  {
    placed := [];
    var baseline := top + lineH * 3 / 4;
    for k := 0 to |ps|
      invariant |placed| == k && baseline == Baseline(top, lineH, k)
      invariant forall q :: 0 <= q < k ==> placed[q] == Placed(ps[q].0, ps[q].1, Baseline(top, lineH, q))
    {
      placed := placed + [Placed(ps[k].0, ps[k].1, baseline)];
      baseline := baseline + lineH;
    }
  }
}
