/**
 * The label fitting and slice layout of `wheelCanvas.ts`: greedy packing of a label's
 * words into lines (`wrapText`), cutting a line down to a width with an ellipsis
 * (`truncateToWidth`), searching for the largest font size at which a label fits
 * (`autoFontSize`), and the loop of `drawWheel` that lays the slices out around the
 * wheel. Text measurement is a parameter standing in for `measureText`; the canvas
 * drawing calls themselves are not part of this model.
 */
module WheelCanvas {
  import opened Wrappers
  import opened Text
  import opened OptionsCore
  import opened WheelGeometry
  import WheelMath

  /** `ctx.measureText(s).width` under the font `bold <size>px Arial`. */
  type Measure = (int, string) -> real

  // ---------------------------------------------------------------------------
  // wrapText
  // ---------------------------------------------------------------------------

  /** The state of `wrapText`'s loop: the finished lines and the line being filled. */
  datatype Packing = Packing(lines: seq<string>, current: string)

  /** The line the next word is tried on: the word after the current line and a space. */
  function TestLine(current: string, word: string): string
  {
    if current != "" then current + " " + word else word
  }

  /** One turn of the loop: a word that makes a non-empty line too wide starts a new line. */
  function PackWord(measure: Measure, size: int, maxWidth: real, st: Packing, word: string): Packing
  {
    var test := TestLine(st.current, word);
    if measure(size, test) > maxWidth && st.current != "" then Packing(st.lines + [st.current], word)
    else Packing(st.lines, test)
  }

  /** The loop state after the given words, in order. */
  function PackWords(measure: Measure, size: int, maxWidth: real, words: seq<string>): Packing
  {
    if words == [] then Packing([], "")
    else PackWord(measure, size, maxWidth, PackWords(measure, size, maxWidth, words[..|words| - 1]), words[|words| - 1])
  }

  /** The lines of packed words, with a last line that is not empty. */
  function Wrapped(measure: Measure, size: int, maxWidth: real, words: seq<string>): seq<string>
  {
    var st := PackWords(measure, size, maxWidth, words);
    if st.current != "" then st.lines + [st.current] else st.lines
  }

  /** What `wrapText(ctx, text, maxWidth, font)` returns for the font of `size`. */
  function WrapLines(measure: Measure, size: int, text: string, maxWidth: real): seq<string>
  {
    Wrapped(measure, size, maxWidth, Words(text))
  }

  /** The layout promise for one line: it fits the width, or it is a single word. */
  predicate LineOk(measure: Measure, size: int, maxWidth: real, line: string)
  {
    measure(size, line) <= maxWidth || IsWord(line)
  }

  predicate AllWords(words: seq<string>)
  {
    forall k :: 0 <= k < |words| ==> IsWord(words[k])
  }

  /** What holds after every turn of `wrapText`'s loop. */
  predicate PackingOk(measure: Measure, size: int, maxWidth: real, words: seq<string>, st: Packing)
  {
    (st.current == "" <==> words == [])
    && (words == [] ==> st.lines == [])
    && (forall k :: 0 <= k < |st.lines| ==> st.lines[k] != "" && LineOk(measure, size, maxWidth, st.lines[k]))
    && (st.current != "" ==> LineOk(measure, size, maxWidth, st.current) && Join(st.lines + [st.current]) == Join(words))
  }

  /** Extending the last of a list of lines by a word extends the joined text by that word. */
  lemma JoinExtendLast(xs: seq<string>, a: string, w: string)
    ensures Join(xs + [a + " " + w]) == Join(xs + [a]) + " " + w
  {
    if xs == [] {
      assert xs + [a + " " + w] == [a + " " + w];
      assert xs + [a] == [a];
    } else {
      JoinAppend(xs, [a + " " + w]);
      JoinAppend(xs, [a]);
    }
  }

  /** Each turn of the loop keeps `PackingOk`. */
  lemma {:induction false} PackWordsOk(measure: Measure, size: int, maxWidth: real, words: seq<string>)
    requires AllWords(words)
    ensures PackingOk(measure, size, maxWidth, words, PackWords(measure, size, maxWidth, words))
  {
    if words != [] {
      var prefix, w := words[..|words| - 1], words[|words| - 1];
      assert words == prefix + [w];
      assert AllWords(prefix) by {
        forall k | 0 <= k < |prefix| ensures IsWord(prefix[k]) {
          assert prefix[k] == words[k];
        }
      }
      PackWordsOk(measure, size, maxWidth, prefix);
      var st := PackWords(measure, size, maxWidth, prefix);
      var st' := PackWords(measure, size, maxWidth, words);
      assert IsWord(w);
      assert st' == PackWord(measure, size, maxWidth, st, w);
      if st.current == "" {
        assert prefix == [] && st.lines == [];
        assert st' == Packing([], w);
        assert [] + [w] == [w];
        assert words == [w];
      } else {
        if measure(size, TestLine(st.current, w)) > maxWidth {
          assert st' == Packing(st.lines + [st.current], w);
          JoinAppend(st.lines + [st.current], [w]);
          JoinAppend(prefix, [w]);
        } else {
          assert st' == Packing(st.lines, st.current + " " + w);
          JoinExtendLast(st.lines, st.current, w);
          JoinAppend(prefix, [w]);
        }
      }
    }
  }

  /**
   * `wrapText` never emits an empty line, its lines joined by single spaces are the
   * words of the text joined the same way, and every line fits the width unless it
   * is a single word.
   */
  lemma WrapLinesProperties(measure: Measure, size: int, text: string, maxWidth: real)
    ensures var lines := WrapLines(measure, size, text, maxWidth);
      (forall k :: 0 <= k < |lines| ==> lines[k] != "" && LineOk(measure, size, maxWidth, lines[k]))
      && Join(lines) == Join(Words(text))
      && (lines == [] <==> Words(text) == [])
  {
    var words := Words(text);
    PackWordsOk(measure, size, maxWidth, words);
  }

  /** `wrapText`, as the loop over the words it is. */
  method WrapText(measure: Measure, size: int, text: string, maxWidth: real) returns (lines: seq<string>)
    ensures lines == WrapLines(measure, size, text, maxWidth)
  {
    var words := Words(text);
    lines := [];
    var currentLine := "";
    for i := 0 to |words|
      invariant Packing(lines, currentLine) == PackWords(measure, size, maxWidth, words[..i])
    {
      var word := words[i];
      assert words[..i + 1][..i] == words[..i];
      var testLine := if currentLine != "" then currentLine + " " + word else word;
      if measure(size, testLine) > maxWidth && currentLine != "" {
        lines := lines + [currentLine];
        currentLine := word;
      } else {
        currentLine := testLine;
      }
    }
    assert words[..|words|] == words;
    if currentLine != "" {
      lines := lines + [currentLine];
    }
  }

  // ---------------------------------------------------------------------------
  // truncateToWidth
  // ---------------------------------------------------------------------------

  const Ellipsis: string := "..."

  /**
   * The length of the prefix of `text` the shrinking loop stops at, starting from the
   * first `n` characters: the longest one whose ellipsis form fits, or none.
   */
  function KeptLength(measure: Measure, size: int, text: string, maxWidth: real, n: nat): (k: nat)
    requires n <= |text|
    ensures k <= n
    ensures k > 0 ==> measure(size, text[..k] + Ellipsis) <= maxWidth
    ensures forall j :: k < j <= n ==> measure(size, text[..j] + Ellipsis) > maxWidth
  {
    if n == 0 || measure(size, text[..n] + Ellipsis) <= maxWidth then n
    else KeptLength(measure, size, text, maxWidth, n - 1)
  }

  /** What `truncateToWidth(ctx, text, maxWidth)` returns. */
  function Truncated(measure: Measure, size: int, text: string, maxWidth: real): string
  {
    if measure(size, text) <= maxWidth then text
    else
      var k := KeptLength(measure, size, text, maxWidth, |text|);
      if k > 0 then text[..k] + Ellipsis else Ellipsis
  }

  /**
   * A text that fits comes back unchanged. Otherwise the result is a prefix of the
   * text followed by `...`, the prefix is the longest one whose ellipsis form fits,
   * and the result fits unless that prefix is empty.
   */
  lemma TruncatedShape(measure: Measure, size: int, text: string, maxWidth: real)
    ensures measure(size, text) <= maxWidth ==> Truncated(measure, size, text, maxWidth) == text
    ensures measure(size, text) > maxWidth ==>
      var r := Truncated(measure, size, text, maxWidth);
      var p := r[..|r| - 3];
      |r| >= 3 && r == p + Ellipsis && |p| <= |text| && p == text[..|p|]
      && (p != "" ==> measure(size, r) <= maxWidth)
      && (forall j :: |p| < j <= |text| ==> measure(size, text[..j] + Ellipsis) > maxWidth)
  {
    if measure(size, text) > maxWidth {
      var k := KeptLength(measure, size, text, maxWidth, |text|);
      var r := Truncated(measure, size, text, maxWidth);
      assert r == text[..k] + Ellipsis;
      assert r[..|r| - 3] == text[..k];
    }
  }

  /** Every truncated line fits, except a bare `...` that does not fit either. */
  lemma TruncatedFitsOrEllipsis(measure: Measure, size: int, text: string, maxWidth: real)
    ensures var r := Truncated(measure, size, text, maxWidth);
      measure(size, r) <= maxWidth || r == Ellipsis
  {
    TruncatedShape(measure, size, text, maxWidth);
  }

  /** `truncateToWidth`, with its shrinking loop. */
  method TruncateToWidth(measure: Measure, size: int, text: string, maxWidth: real) returns (r: string)
    ensures r == Truncated(measure, size, text, maxWidth)
  {
    if measure(size, text) <= maxWidth {
      return text;
    }
    var trimmed := text;
    while |trimmed| > 0 && measure(size, trimmed + Ellipsis) > maxWidth
      invariant |trimmed| <= |text| && trimmed == text[..|trimmed|]
      invariant KeptLength(measure, size, text, maxWidth, |trimmed|) == KeptLength(measure, size, text, maxWidth, |text|)
      decreases |trimmed|
    {
      trimmed := trimmed[..|trimmed| - 1];
    }
    r := if trimmed != "" then trimmed + Ellipsis else Ellipsis;
  }

  // ---------------------------------------------------------------------------
  // autoFontSize
  // ---------------------------------------------------------------------------

  /** The size `autoFontSize` settles on and the lines it draws at that size. */
  datatype Fit = Fit(size: int, lines: seq<string>)

  predicate AllFit(measure: Measure, size: int, maxWidth: real, lines: seq<string>)
  {
    forall k :: 0 <= k < |lines| ==> measure(size, lines[k]) <= maxWidth
  }

  /** `lines.length * lineHeight`. */
  function TextHeight(count: nat, lineHeight: real): real
  {
    (count as real) * lineHeight
  }

  /** The `fits` test of the loop: few enough lines, short enough, and every line narrow enough. */
  predicate LinesFitBox(measure: Measure, size: int, maxWidth: real, maxHeight: real, maxLines: nat, lines: seq<string>)
  {
    |lines| <= maxLines
    && TextHeight(|lines|, (size as real) * 1.25) <= maxHeight
    && AllFit(measure, size, maxWidth, lines)
  }

  /** The `fits` test at one size, on the lines wrapped at that size. */
  predicate FitsAt(measure: Measure, text: string, maxWidth: real, maxHeight: real, maxLines: nat, size: int)
  {
    LinesFitBox(measure, size, maxWidth, maxHeight, maxLines, WrapLines(measure, size, text, maxWidth))
  }

  /** The loop's answer counting down from `size`: the first size that fits, if one of them does. */
  function FirstFit(measure: Measure, text: string, maxWidth: real, maxHeight: real, minSize: int, maxLines: nat, size: int): (r: Option<int>)
    ensures r.Some? ==> minSize <= r.value <= size && FitsAt(measure, text, maxWidth, maxHeight, maxLines, r.value)
    ensures r.Some? ==> forall z :: r.value < z <= size ==> !FitsAt(measure, text, maxWidth, maxHeight, maxLines, z)
    ensures r.None? ==> forall z :: minSize <= z <= size ==> !FitsAt(measure, text, maxWidth, maxHeight, maxLines, z)
    decreases size - minSize
  {
    if size < minSize then None
    else if FitsAt(measure, text, maxWidth, maxHeight, maxLines, size) then Some(size)
    else FirstFit(measure, text, maxWidth, maxHeight, minSize, maxLines, size - 1)
  }

  /** `lines.map(truncateToWidth)`. */
  function TruncateEach(measure: Measure, size: int, maxWidth: real, lines: seq<string>): (r: seq<string>)
    ensures |r| == |lines|
    ensures forall k :: 0 <= k < |lines| ==> r[k] == Truncated(measure, size, lines[k], maxWidth)
  {
    seq(|lines|, k requires 0 <= k < |lines| => Truncated(measure, size, lines[k], maxWidth))
  }

  /**
   * The kept lines before the last truncation pass: the first `maxLines` lines, and
   * when lines were cut the last kept one truncated.
   */
  function MarkedLines(measure: Measure, size: int, maxWidth: real, maxLines: nat, lines: seq<string>): (marked: seq<string>)
    ensures |marked| == if |lines| <= maxLines then |lines| else maxLines
    ensures forall k :: 0 <= k < |marked| && (|lines| <= maxLines || k < |marked| - 1) ==> marked[k] == lines[k]
    ensures |lines| > maxLines && marked != [] ==> marked[|marked| - 1] == Truncated(measure, size, lines[|marked| - 1], maxWidth)
  {
    var limited := if |lines| <= maxLines then lines else lines[..maxLines];
    if |lines| > maxLines && |limited| > 0
    then limited[|limited| - 1 := Truncated(measure, size, limited[|limited| - 1], maxWidth)]
    else limited
  }

  /**
   * The lines after the loop found no size: the lines at the smallest size, cut to
   * `maxLines`; when lines were cut the last kept one is truncated, and then every
   * kept line is truncated (so that last one twice).
   */
  function FallbackLines(measure: Measure, text: string, maxWidth: real, minSize: int, maxLines: nat): seq<string>
  {
    TruncateEach(measure, minSize, maxWidth, MarkedLines(measure, minSize, maxWidth, maxLines, WrapLines(measure, minSize, text, maxWidth)))
  }

  /** What `autoFontSize(ctx, text, maxWidth, maxHeight, startSize, minSize, maxLines)` returns. */
  function AutoFit(measure: Measure, text: string, maxWidth: real, maxHeight: real, startSize: int, minSize: int, maxLines: nat): Fit
  {
    var first := FirstFit(measure, text, maxWidth, maxHeight, minSize, maxLines, startSize);
    if first.Some? then Fit(first.value, WrapLines(measure, first.value, text, maxWidth))
    else Fit(minSize, FallbackLines(measure, text, maxWidth, minSize, maxLines))
  }

  /**
   * The fallback keeps at most `maxLines` lines, each the truncation of the wrapped
   * line at that place, and every one of them fits unless it is a bare `...`.
   */
  lemma FallbackProperties(measure: Measure, text: string, maxWidth: real, minSize: int, maxLines: nat)
    ensures var r := FallbackLines(measure, text, maxWidth, minSize, maxLines);
      var lines := WrapLines(measure, minSize, text, maxWidth);
      |r| <= maxLines && |r| <= |lines|
      && (|lines| <= maxLines ==> |r| == |lines|)
      && (forall k :: 0 <= k < |r| ==> measure(minSize, r[k]) <= maxWidth || r[k] == Ellipsis)
      && (forall k :: 0 <= k < |r| && (|lines| <= maxLines || k < |r| - 1) ==>
            r[k] == Truncated(measure, minSize, lines[k], maxWidth))
      && (|lines| > maxLines && r != [] ==>
            r[|r| - 1] == Truncated(measure, minSize, Truncated(measure, minSize, lines[|r| - 1], maxWidth), maxWidth))
  {
    var lines := WrapLines(measure, minSize, text, maxWidth);
    var marked := MarkedLines(measure, minSize, maxWidth, maxLines, lines);
    var r := TruncateEach(measure, minSize, maxWidth, marked);
    assert r == FallbackLines(measure, text, maxWidth, minSize, maxLines);
    forall k | 0 <= k < |r| ensures measure(minSize, r[k]) <= maxWidth || r[k] == Ellipsis {
      TruncatedFitsOrEllipsis(measure, minSize, marked[k], maxWidth);
    }
  }

  /**
   * `autoFontSize` settles on the largest size between `minSize` and `startSize` at
   * which the wrapped label fits, with every line fitting, no more than `maxLines`
   * lines and a height within `maxHeight`; when no size fits it falls back to
   * `minSize` and the truncated lines.
   */
  lemma AutoFitProperties(measure: Measure, text: string, maxWidth: real, maxHeight: real, startSize: int, minSize: int, maxLines: nat)
    ensures var fit := AutoFit(measure, text, maxWidth, maxHeight, startSize, minSize, maxLines);
      (FitsAt(measure, text, maxWidth, maxHeight, maxLines, fit.size) && minSize <= fit.size <= startSize ==>
         |fit.lines| <= maxLines
         && TextHeight(|fit.lines|, (fit.size as real) * 1.25) <= maxHeight
         && AllFit(measure, fit.size, maxWidth, fit.lines))
      && (minSize <= fit.size <= startSize ==>
            forall z :: fit.size < z <= startSize ==> !FitsAt(measure, text, maxWidth, maxHeight, maxLines, z))
      && (fit.size == minSize || FitsAt(measure, text, maxWidth, maxHeight, maxLines, fit.size))
      && (minSize <= startSize ==> minSize <= fit.size <= startSize)
      && |fit.lines| <= maxLines
      && (forall k :: 0 <= k < |fit.lines| ==> measure(fit.size, fit.lines[k]) <= maxWidth || fit.lines[k] == Ellipsis)
  {
    var first := FirstFit(measure, text, maxWidth, maxHeight, minSize, maxLines, startSize);
    if first.None? {
      FallbackProperties(measure, text, maxWidth, minSize, maxLines);
    }
  }

  /** `lines.every(...)`, read off as the loop it stands for. */
  method LinesFit(measure: Measure, size: int, maxWidth: real, lines: seq<string>) returns (ok: bool)
    ensures ok == AllFit(measure, size, maxWidth, lines)
  {
    for k := 0 to |lines|
      invariant AllFit(measure, size, maxWidth, lines[..k])
    {
      if measure(size, lines[k]) > maxWidth {
        return false;
      }
      assert lines[..k + 1] == lines[..k] + [lines[k]];
    }
    assert lines[..|lines|] == lines;
    return true;
  }

  /** The size loop of `autoFontSize`: the first size, counting down, that fits. */
  method FindFit(measure: Measure, text: string, maxWidth: real, maxHeight: real, startSize: int, minSize: int, maxLines: nat)
    returns (found: Option<int>)
    ensures found == FirstFit(measure, text, maxWidth, maxHeight, minSize, maxLines, startSize)
  {
    var size := startSize;
    while size >= minSize
      invariant size <= startSize
      invariant FirstFit(measure, text, maxWidth, maxHeight, minSize, maxLines, size)
        == FirstFit(measure, text, maxWidth, maxHeight, minSize, maxLines, startSize)
      decreases size - minSize + 1
    {
      var lines := WrapText(measure, size, text, maxWidth);
      var lineHeight := (size as real) * 1.25;
      var everyLine := LinesFit(measure, size, maxWidth, lines);
      var fits := |lines| <= maxLines && TextHeight(|lines|, lineHeight) <= maxHeight && everyLine;
      assert fits == LinesFitBox(measure, size, maxWidth, maxHeight, maxLines, lines);
      if fits {
        return Some(size);
      }
      size := size - 1;
    }
    return None;
  }

  /** The fallback after the size loop, with its in-place edits of `limited`. */
  method Fallback(measure: Measure, text: string, maxWidth: real, minSize: int, maxLines: nat) returns (limited: seq<string>)
    ensures limited == FallbackLines(measure, text, maxWidth, minSize, maxLines)
  {
    var lines := WrapText(measure, minSize, text, maxWidth);
    limited := if |lines| <= maxLines then lines else lines[..maxLines];
    if |lines| > maxLines && |limited| > 0 {
      var last := TruncateToWidth(measure, minSize, limited[|limited| - 1], maxWidth);
      limited := limited[|limited| - 1 := last];
    }
    assert limited == MarkedLines(measure, minSize, maxWidth, maxLines, lines);
    ghost var marked := limited;
    for i := 0 to |limited|
      invariant |limited| == |marked|
      invariant forall k :: 0 <= k < i ==> limited[k] == Truncated(measure, minSize, marked[k], maxWidth)
      invariant forall k :: i <= k < |limited| ==> limited[k] == marked[k]
    {
      var t := TruncateToWidth(measure, minSize, limited[i], maxWidth);
      limited := limited[i := t];
    }
    assert limited == TruncateEach(measure, minSize, maxWidth, marked);
  }

  /** `autoFontSize`. */
  method AutoFontSize(measure: Measure, text: string, maxWidth: real, maxHeight: real, startSize: int, minSize: int, maxLines: nat)
    returns (fit: Fit)
    ensures fit == AutoFit(measure, text, maxWidth, maxHeight, startSize, minSize, maxLines)
  {
    var found := FindFit(measure, text, maxWidth, maxHeight, startSize, minSize, maxLines);
    if found.Some? {
      var lines := WrapText(measure, found.value, text, maxWidth);
      return Fit(found.value, lines);
    }
    var limited := Fallback(measure, text, maxWidth, minSize, maxLines);
    return Fit(minSize, limited);
  }

  // ---------------------------------------------------------------------------
  // drawWheel
  // ---------------------------------------------------------------------------

  function Min(a: real, b: real): real { if a <= b then a else b }
  function Max(a: real, b: real): real { if a >= b then a else b }
  function MinInt(a: int, b: int): int { if a <= b then a else b }
  function MaxInt(a: int, b: int): int { if a >= b then a else b }

  /** `Math.round(x)`: the nearest integer, halves rounded up. */
  function Round(x: real): (n: int)
    ensures x - 0.5 < n as real <= x + 0.5
  {
    (x + 0.5).Floor
  }

  /** `Math.min(ctx.canvas.width, ctx.canvas.height)`. */
  function WheelSize(canvasWidth: nat, canvasHeight: nat): real
  {
    if canvasWidth <= canvasHeight then canvasWidth as real else canvasHeight as real
  }

  /** `Math.max(52, Math.min(112, Math.round(wheelSize * 0.22)))`. */
  function HubRadius(wheelSize: real): (r: real)
    ensures 52.0 <= r <= 112.0
    ensures 52.0 < r < 112.0 ==> r == Round(wheelSize * 0.22) as real
  {
    Max(52.0, Min(112.0, Round(wheelSize * 0.22) as real))
  }

  /** `Math.max(20, radius - innerPadding - outerPadding)`: the radial band for the label. */
  function RadialSpace(wheelSize: real): (r: real)
    ensures r >= 20.0
  {
    Max(20.0, (wheelSize / 2.0 - 10.0) - (HubRadius(wheelSize) + 14.0) - 14.0)
  }

  /** `innerPadding + radialSpace / 2`: where the label's centre sits along the slice. */
  function TextX(wheelSize: real): real
  {
    HubRadius(wheelSize) + 14.0 + RadialSpace(wheelSize) / 2.0
  }

  /** The label's width limit: the band and the arc, but never below 24. */
  function LabelMaxWidth(wheelSize: real, sliceAngle: real): (r: real)
    ensures r >= 24.0
    ensures r <= Max(24.0, RadialSpace(wheelSize))
  {
    Max(24.0, Min(RadialSpace(wheelSize), Max(24.0, sliceAngle * TextX(wheelSize) - 10.0)))
  }

  /** `Math.max(14, radialSpace * 0.85)`. */
  function LabelMaxHeight(wheelSize: real): (r: real)
    ensures r >= 14.0
  {
    Max(14.0, RadialSpace(wheelSize) * 0.85)
  }

  /** `Math.max(11, Math.min(34, Math.round(wheelSize * 0.038)))`. */
  function BaseFontSize(wheelSize: real): (n: int)
    ensures 11 <= n <= 34
  {
    MaxInt(11, MinInt(34, Round(wheelSize * 0.038)))
  }

  /** `Math.max(8, Math.round(baseFontSize * 0.55))`. */
  function MinFontSize(base: int): (n: int)
    ensures n >= 8
  {
    MaxInt(8, Round((base as real) * 0.55))
  }

  /** The smallest label font is never larger than the starting one, so the size loop runs. */
  lemma FontBoundsOrdered(wheelSize: real)
    ensures 8 <= MinFontSize(BaseFontSize(wheelSize)) <= BaseFontSize(wheelSize) <= 34
  {
    var base := BaseFontSize(wheelSize);
    assert (base as real) * 0.55 + 0.5 <= base as real;
  }

  /** How the label of one slice is drawn: font size, lines, and the position of the first line. */
  datatype Label = Label(fontSize: int, lines: seq<string>, textX: real, firstLineY: real)

  /** One slice as `drawWheel` draws it. */
  datatype SliceDrawing = SliceDrawing(start: real, angle: real, blue: bool, caption: Label)

  /** The label of a slice of angle `sliceAngle` on a wheel of size `wheelSize`. */
  function SliceLabel(measure: Measure, wheelSize: real, sliceAngle: real, text: string): Label
  {
    var base := BaseFontSize(wheelSize);
    var fit := AutoFit(measure, text, LabelMaxWidth(wheelSize, sliceAngle), LabelMaxHeight(wheelSize), base, MinFontSize(base), 3);
    var lineHeight := (fit.size as real) * 1.25;
    Label(fit.size, fit.lines, TextX(wheelSize), -TextHeight(|fit.lines|, lineHeight) / 2.0 + lineHeight / 2.0)
  }

  /** Slice `i` of the wheel turned by `rotation`. */
  function SliceAt(measure: Measure, options: seq<ResolvedOption>, rotation: real, wheelSize: real, i: nat): SliceDrawing
    requires i < |options| && Sum(WheelMath.Ratios(options)) != 0.0
  {
    var ratios := WheelMath.Ratios(options);
    SliceDrawing(rotation + SliceStart(ratios, i), SliceWidth(ratios, i), i % 2 == 1,
      SliceLabel(measure, wheelSize, SliceWidth(ratios, i), options[i].name))
  }

  /**
   * Every label is drawn at a font size between 8 and 34 with at most three lines,
   * each of which fits the label's width (at least 24) unless it is a bare `...`.
   */
  lemma SliceLabelBounds(measure: Measure, wheelSize: real, sliceAngle: real, text: string)
    ensures var l := SliceLabel(measure, wheelSize, sliceAngle, text);
      MinFontSize(BaseFontSize(wheelSize)) <= l.fontSize <= BaseFontSize(wheelSize)
      && 8 <= l.fontSize <= 34
      && |l.lines| <= 3
      && (forall k :: 0 <= k < |l.lines| ==>
            measure(l.fontSize, l.lines[k]) <= LabelMaxWidth(wheelSize, sliceAngle) || l.lines[k] == Ellipsis)
  {
    FontBoundsOrdered(wheelSize);
    var base := BaseFontSize(wheelSize);
    AutoFitProperties(measure, text, LabelMaxWidth(wheelSize, sliceAngle), LabelMaxHeight(wheelSize), base, MinFontSize(base), 3);
  }

  /**
   * The label part of the loop body of `drawWheel`: the radial band and width bounds,
   * the font bounds, the fitted lines and where the first line goes.
   */
  method LayoutLabel(measure: Measure, wheelSize: real, sliceAngle: real, text: string)
    returns (caption: Label)
    ensures caption == SliceLabel(measure, wheelSize, sliceAngle, text)
  {
    var textX := TextX(wheelSize);
    var maxWidth := LabelMaxWidth(wheelSize, sliceAngle);
    var maxTextHeight := LabelMaxHeight(wheelSize);
    var maxLines := 3;
    var baseFontSize := BaseFontSize(wheelSize);
    var minFontSize := MinFontSize(baseFontSize);
    var fit := AutoFontSize(measure, text, maxWidth, maxTextHeight, baseFontSize, minFontSize, maxLines);
    var lineHeight := (fit.size as real) * 1.25;
    var totalHeight := TextHeight(|fit.lines|, lineHeight);
    var startY := -totalHeight / 2.0 + lineHeight / 2.0;
    caption := Label(fit.size, fit.lines, textX, startY);
  }

  /**
   * The slice loop of `drawWheel(ctx, options, currentRotation)`: slice `i` starts
   * where slice `i - 1` ended, the first one at the current rotation, spans its share
   * of the turn, and odd slices are the blue ones.
   */
  method DrawWheel(measure: Measure, options: seq<ResolvedOption>, currentRotation: real, canvasWidth: nat, canvasHeight: nat)
    returns (centerHubRadius: real, slices: seq<SliceDrawing>)
    requires options == [] || Sum(WheelMath.Ratios(options)) != 0.0
    ensures centerHubRadius == HubRadius(WheelSize(canvasWidth, canvasHeight))
    ensures |slices| == |options|
    ensures forall i :: 0 <= i < |options| ==>
      slices[i] == SliceAt(measure, options, currentRotation, WheelSize(canvasWidth, canvasHeight), i)
  {
    var wheelSize := WheelSize(canvasWidth, canvasHeight);
    centerHubRadius := HubRadius(wheelSize);
    if options == [] {
      return centerHubRadius, [];
    }
    ghost var ratios := WheelMath.Ratios(options);
    var totalRatio := Sum(WheelMath.Ratios(options));
    var startAngle := currentRotation;
    slices := [];
    for index := 0 to |options|
      invariant slices == SlicesUpTo(measure, options, currentRotation, wheelSize, index)
      invariant startAngle == currentRotation + SliceStart(ratios, index)
    {
      var drawn := DrawSlice(measure, options, currentRotation, wheelSize, totalRatio, index, startAngle);
      slices := slices + [drawn];
      startAngle := startAngle + drawn.angle;
    }
  }

  /** The first `n` slices, in drawing order. */
  ghost function SlicesUpTo(measure: Measure, options: seq<ResolvedOption>, rotation: real, wheelSize: real, n: nat): (r: seq<SliceDrawing>)
    requires n <= |options| && Sum(WheelMath.Ratios(options)) != 0.0
    ensures |r| == n
    ensures forall i :: 0 <= i < n ==> r[i] == SliceAt(measure, options, rotation, wheelSize, i)
  {
    if n == 0 then [] else SlicesUpTo(measure, options, rotation, wheelSize, n - 1) + [SliceAt(measure, options, rotation, wheelSize, n - 1)]
  }

  /** One turn of `drawWheel`'s slice loop, for the slice at `index` starting at `startAngle`. */
  method DrawSlice(measure: Measure, options: seq<ResolvedOption>, currentRotation: real, wheelSize: real,
                   totalRatio: real, index: nat, startAngle: real)
    returns (drawn: SliceDrawing)
    requires index < |options| && totalRatio == Sum(WheelMath.Ratios(options)) && totalRatio != 0.0
    requires startAngle == currentRotation + SliceStart(WheelMath.Ratios(options), index)
    ensures drawn == SliceAt(measure, options, currentRotation, wheelSize, index)
    ensures drawn.start + drawn.angle == currentRotation + SliceStart(WheelMath.Ratios(options), index + 1)
  {
    var option := options[index];
    var sliceAngle := (option.ratio / totalRatio) * 2.0 * Pi;
    assert sliceAngle == SliceWidth(WheelMath.Ratios(options), index);
    var isBlueSlice := index % 2 == 1;
    var caption := LayoutLabel(measure, wheelSize, sliceAngle, option.name);
    drawn := SliceDrawing(startAngle, sliceAngle, isBlueSlice, caption);
  }

  // ---------------------------------------------------------------------------
  // The drawing and the pointer
  // ---------------------------------------------------------------------------

  /** The pointer direction 3π/2, taken `k` whole turns further, lies within [lo, hi). */
  predicate PointerWithin(lo: real, hi: real, k: int)
  {
    lo <= 1.5 * Pi + 2.0 * Pi * (k as real) < hi
  }

  /**
   * The drawn slice `i` of a wheel turned by `rotation` covers the pointer direction
   * exactly when `UnderPointer` says it is the slice under the pointer: the geometry the
   * target angle is computed with and the order `drawWheel` draws in agree.
   */
  lemma UnderPointerIsDrawnSlice(ratios: seq<real>, rotation: real, i: nat, k: int)
    requires Positive(ratios) && i < |ratios|
    ensures Sum(ratios) > 0.0
    ensures PointerWithin(rotation + SliceStart(ratios, i), rotation + SliceStart(ratios, i + 1), k)
      ==> UnderPointer(ratios, rotation, i)
    ensures UnderPointer(ratios, rotation, i) ==>
      var m := -(((1.5 * Pi - rotation) / (2.0 * Pi)).Floor);
      PointerWithin(rotation + SliceStart(ratios, i), rotation + SliceStart(ratios, i + 1), m)
  {
    SumPositive(ratios);
    SlicesOrdered(ratios, i, i + 1);
    SlicesOrdered(ratios, i + 1, |ratios|);
    if PointerWithin(rotation + SliceStart(ratios, i), rotation + SliceStart(ratios, i + 1), k) {
      var a := 1.5 * Pi + 2.0 * Pi * (k as real) - rotation;
      assert 0.0 <= a < 2.0 * Pi;
      WrapShift(a, -k);
      assert a + 2.0 * Pi * ((-k) as real) == 1.5 * Pi - rotation;
    }
  }
}
