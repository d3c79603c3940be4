/** Wrapping the status line at a separator. */
module StatusWrap {
  import opened AnsiText
  import opened StatusLine

  /** _HARDENED_SEP: no-break space, grey bar, reset, no-break space. Three columns. */
  const GREY: string := [ESC] + "[90m"
  const RESET: string := [ESC] + "[0m"
  const SEP: string := [NBSP] + GREY + ['|'] + RESET + [NBSP]

  // ----- str.split and str.join

  /** Index of the leftmost occurrence of sep, |t| when there is none. */
  function Find(t: string, sep: string): (i: nat)
    requires sep != []
    ensures i <= |t|
    ensures i < |t| ==> sep <= t[i..]
    ensures forall j | 0 <= j < i :: !(sep <= t[j..])
  {
    if t == [] then 0
    else if sep <= t then 0
    else
      var i := Find(t[1..], sep);
      assert t[0..] == t;
      assert forall j | 0 < j <= |t| :: t[j..] == t[1..][j - 1..];
      1 + i
  }

  function Split(t: string, sep: string): (segs: seq<string>)
    requires sep != []
    ensures |segs| >= 1
    decreases |t|
  {
    var i := Find(t, sep);
    if i == |t| then [t] else [t[..i]] + Split(t[i + |sep|..], sep)
  }

  function Join(segs: seq<string>, sep: string): string
    requires segs != []
  {
    if |segs| == 1 then segs[0] else segs[0] + sep + Join(segs[1..], sep)
  }

  lemma SplitOnce(t: string, sep: string)
    requires sep != [] && Find(t, sep) < |t|
    ensures var rest := t[Find(t, sep) + |sep|..];
      Split(t, sep) == [t[..Find(t, sep)]] + Split(rest, sep) && t == t[..Find(t, sep)] + (sep + rest)
  {
    hide Find;
    var i := Find(t, sep);
    assert t[i..] == sep + t[i + |sep|..];
    assert t == t[..i] + t[i..];
  }

  lemma JoinCons(x: string, rest: seq<string>, sep: string)
    requires rest != []
    ensures Join([x] + rest, sep) == x + (sep + Join(rest, sep))
  {
    assert ([x] + rest)[1..] == rest;
  }

  lemma {:induction false} JoinSplit(t: string, sep: string)
    requires sep != []
    ensures Join(Split(t, sep), sep) == t
    decreases |t|
  {
    hide Find;
    var i := Find(t, sep);
    if i < |t| {
      hide Join, Split;
      var rest := t[i + |sep|..];
      SplitOnce(t, sep);
      JoinSplit(rest, sep);
      JoinCons(t[..i], Split(rest, sep), sep);
    }
  }

  predicate FreeOf(seg: string, sep: string) {
    forall j | 0 <= j <= |seg| :: !(sep <= seg[j..])
  }

  lemma BeforeTheFirst(t: string, sep: string)
    requires sep != []
    ensures FreeOf(t[..Find(t, sep)], sep)
  {
    var i := Find(t, sep);
    forall j | 0 <= j <= i ensures !(sep <= t[..i][j..]) {
      assert t[..i][j..] <= t[j..];
    }
  }

  lemma SplitMembers(t: string, sep: string, seg: string)
    requires sep != [] && seg in Split(t, sep)
    ensures var i := Find(t, sep); seg == t[..i] || (i < |t| && seg in Split(t[i + |sep|..], sep))
  {
    hide Find;
    var i := Find(t, sep);
    assert i == |t| ==> t[..i] == t;
  }

  /** No segment holds a separator: the text is split wherever there is one. */
  lemma {:induction false} SegmentsHoldNoSep(t: string, sep: string)
    requires sep != []
    ensures forall seg | seg in Split(t, sep) :: FreeOf(seg, sep)
    decreases |t|
  {
    hide Find, Split, FreeOf;
    var i := Find(t, sep);
    BeforeTheFirst(t, sep);
    if i < |t| { SegmentsHoldNoSep(t[i + |sep|..], sep); }
    forall seg | seg in Split(t, sep) ensures FreeOf(seg, sep) { SplitMembers(t, sep, seg); }
  }

  lemma {:induction false} JoinConcat(a: seq<string>, b: seq<string>, sep: string)
    requires a != [] && b != []
    ensures Join(a + b, sep) == Join(a, sep) + sep + Join(b, sep)
  {
    if |a| == 1 {
      assert (a + b)[0] == a[0] && (a + b)[1..] == b;
    } else {
      assert (a + b)[0] == a[0] && (a + b)[1..] == a[1..] + b;
      JoinConcat(a[1..], b, sep);
    }
  }

  // ----- the separator and the segments

  lemma Escapes()
    ensures WellFormed(GREY) && Strip(GREY) == [] && WellFormed(RESET) && Strip(RESET) == []
    ensures NoVs16(GREY) && NoVs16(RESET)
  {
    ParamsLenIs(GREY[2..], 2);
    ParamsLenIs(RESET[2..], 1);
    assert MatchAnsi(GREY) == 5 && MatchAnsi(RESET) == 4;
    assert GREY[5..] == [] && RESET[4..] == [];
  }

  lemma Glue(u: Ucd, a: string, b: string)
    requires WellFormed(a) && NoVs16(a) && WellFormed(b) && NoVs16(b)
    ensures WellFormed(a + b) && NoVs16(a + b) && VisibleWidth(u, a + b) == VisibleWidth(u, a) + VisibleWidth(u, b)
  {
    WidthConcat(u, a, b);
    StripConcat(a, b);
  }

  /** The separator is well formed and three columns wide; the reset takes none. */
  lemma SepFacts(u: Ucd)
    requires UcdOk(u)
    ensures WellFormed(SEP) && NoVs16(SEP) && VisibleWidth(u, SEP) == 3
    ensures WellFormed(RESET) && NoVs16(RESET) && VisibleWidth(u, RESET) == 0
  {
    Escapes();
    assert VisibleWidth(u, GREY) == 0 && VisibleWidth(u, RESET) == 0;
    OneChar(u, NBSP);
    OneChar(u, '|');
    hide WellFormed, NoVs16, VisibleWidth;
    Glue(u, [NBSP], GREY);
    Glue(u, [NBSP] + GREY, ['|']);
    Glue(u, [NBSP] + GREY + ['|'], RESET);
    Glue(u, [NBSP] + GREY + ['|'] + RESET, [NBSP]);
  }

  lemma OneChar(u: Ucd, c: char)
    requires UcdOk(u) && (' ' <= c <= '~' || c == NBSP)
    ensures WellFormed([c]) && NoVs16([c]) && VisibleWidth(u, [c]) == 1
  {
    assert [c][1..] == [];
    assert MatchAnsi([c]) == 0 && Strip([c]) == [c];
    assert CharWidth(u, c) == 1;
    ScanIsSum(u, [c], START);
  }

  /** Cutting well-formed text at a separator leaves well-formed text on both sides. */
  lemma SepSplits(a: string, b: string)
    requires WellFormed(a + SEP + b)
    ensures WellFormed(a) && WellFormed(b)
  {
    Escapes();
    var b1 := [NBSP] + b;
    var b2 := ['|'] + (RESET + b1);
    assert a + SEP + b == a + [NBSP] + (GREY + b2);
    PlainSplit(a, NBSP, GREY + b2);
    assert ([NBSP] + (GREY + b2))[1..] == GREY + b2 && b2[1..] == RESET + b1 && b1[1..] == b;
    StripConcat(GREY, b2);
    StripConcat(RESET, b1);
  }

  predicate Plain(t: string) { WellFormed(t) && NoVs16(t) }

  predicate AllPlain(segs: seq<string>) { forall i | 0 <= i < |segs| :: Plain(segs[i]) }

  lemma {:induction false} SegmentsArePlain(t: string)
    requires Plain(t)
    ensures AllPlain(Split(t, SEP))
    decreases |t|
  {
    var i := Find(t, SEP);
    if i < |t| {
      var rest := t[i + |SEP|..];
      assert t == t[..i] + SEP + rest;
      SepSplits(t[..i], rest);
      SegmentsArePlain(rest);
    }
  }

  /** Columns of the segments joined by the separator. */
  function LineWidth(u: Ucd, segs: seq<string>): nat
    requires segs != []
  {
    if |segs| == 1 then VisibleWidth(u, segs[0])
    else LineWidth(u, segs[..|segs| - 1]) + VisibleWidth(u, SEP) + VisibleWidth(u, segs[|segs| - 1])
  }

  lemma {:induction false} JoinWidth(u: Ucd, segs: seq<string>)
    requires UcdOk(u) && segs != [] && AllPlain(segs)
    ensures Plain(Join(segs, SEP)) && VisibleWidth(u, Join(segs, SEP)) == LineWidth(u, segs)
  {
    if |segs| > 1 {
      var n := |segs| - 1;
      var front, last := segs[..n], segs[n];
      JoinWidth(u, front);
      assert segs == front + [last];
      JoinConcat(front, [last], SEP);
      SepFacts(u);
      assert Plain(last);
      hide WellFormed, NoVs16, VisibleWidth, Join;
      Glue(u, Join(front, SEP), SEP);
      Glue(u, Join(front, SEP) + SEP, last);
      OneSegment(last);
    }
  }

  lemma OneSegment(t: string)
    ensures Join([t], SEP) == t
  {}

  // ----- _wrap_output

  datatype Wrapped = OneLine(line: string) | TwoLines(first: string, second: string)

  /** How many segments go on the first line. */
  function FitCount(u: Ucd, segs: seq<string>, i: nat, width: nat, available: int): (n: nat)
    requires i <= |segs|
    ensures i <= n <= |segs|
    decreases |segs| - i
  {
    if i == |segs| then i
    else
      var next := width + VisibleWidth(u, SEP) + VisibleWidth(u, segs[i]);
      if next <= available then FitCount(u, segs, i + 1, next, available) else i
  }

  function SecondLine(u: Ucd, rest: seq<string>, available: int): string
    requires rest != []
  {
    var line := RESET + Join(rest, SEP);
    if VisibleWidth(u, line) > available then Truncated(u, line, available) else line
  }

  function WrappedOutput(u: Ucd, output: string, available: int): Wrapped {
    var segs := Split(output, SEP);
    if |segs| == 1 then OneLine(Truncated(u, output, available))
    else
      var n := FitCount(u, segs, 1, VisibleWidth(u, segs[0]), available);
      if n == |segs| then OneLine(output)
      else if LineWidth(u, segs[..n]) == 0 then OneLine(Truncated(u, output, available))
      else TwoLines(Join(segs[..n], SEP), SecondLine(u, segs[n..], available))
  }

  method WrapOutput(u: Ucd, output: string, available: int) returns (r: Wrapped)
    ensures r == WrappedOutput(u, output, available)
  {
    hide VisibleWidth, Truncated, Split, Join;
    var segs := Split(output, SEP);
    if |segs| <= 1 {
      var line := TruncateAnsi(u, output, available);
      return OneLine(line);
    }
    var sepWidth := MeasureWidth(u, SEP);
    var parts := [segs[0]];
    var width := MeasureWidth(u, segs[0]);
    ghost var goal := FitCount(u, segs, 1, width, available);
    var split := 1;
    while split < |segs|
      invariant 1 <= split <= |segs|
      invariant parts == segs[..split] && width == LineWidth(u, parts)
      invariant FitCount(u, segs, split, width, available) == goal
    {
      var segWidth := MeasureWidth(u, segs[split]);
      var newWidth := width + sepWidth + segWidth;
      if newWidth > available {
        break;
      }
      assert segs[..split + 1] == parts + [segs[split]] && (parts + [segs[split]])[..|parts|] == parts;
      parts := parts + [segs[split]];
      width := newWidth;
      split := split + 1;
    }
    assert split == goal;
    if split >= |segs| {
      return OneLine(output);
    }
    if parts == [] || width == 0 {
      var line := TruncateAnsi(u, output, available);
      return OneLine(line);
    }
    var line1 := Join(parts, SEP);
    var line2 := RESET + Join(segs[split..], SEP);
    var width2 := MeasureWidth(u, line2);
    if width2 > available {
      line2 := TruncateAnsi(u, line2, available);
    }
    return TwoLines(line1, line2);
  }

  // ----- what wrapping promises

  function Lines(r: Wrapped): seq<string> {
    match r
    case OneLine(l) => [l]
    case TwoLines(a, b) => [a, b]
  }

  /** The greedy count is the longest that fits: every number of segments from two up to it fits, one more does not. */
  lemma {:induction false} FitCountIsLongest(u: Ucd, segs: seq<string>, i: nat, available: int)
    requires 1 <= i <= |segs|
    ensures var n := FitCount(u, segs, i, LineWidth(u, segs[..i]), available);
      && (forall k | i < k <= n :: LineWidth(u, segs[..k]) <= available)
      && (forall k | n < k <= |segs| :: LineWidth(u, segs[..k]) > available)
    decreases |segs| - i
  {
    hide VisibleWidth;
    var n := FitCount(u, segs, i, LineWidth(u, segs[..i]), available);
    if i < |segs| {
      assert segs[..i + 1][..i] == segs[..i] && segs[..i + 1][i] == segs[i];
      if n > i {
        FitCountIsLongest(u, segs, i + 1, available);
      } else {
        forall k | n < k <= |segs| ensures LineWidth(u, segs[..k]) > available { LineGrows(u, segs, i + 1, k); }
      }
    }
  }

  lemma {:induction false} LineGrows(u: Ucd, segs: seq<string>, i: nat, k: nat)
    requires 1 <= i <= k <= |segs|
    ensures LineWidth(u, segs[..k]) >= LineWidth(u, segs[..i])
    decreases k
  {
    hide VisibleWidth;
    if i < k {
      assert segs[..k][..k - 1] == segs[..k - 1];
      LineGrows(u, segs, i, k - 1);
    }
  }

  lemma TruncatedFits(u: Ucd, t: string, w: int)
    requires UcdOk(u) && Plain(t) && w > 3
    ensures VisibleWidth(u, Truncated(u, t, w)) <= w
  {
    hide Cut, VisibleWidth;
    TruncationIsLongest(u, t, w);
  }

  lemma PlainParts(segs: seq<string>, n: nat)
    requires AllPlain(segs) && n <= |segs|
    ensures AllPlain(segs[..n]) && AllPlain(segs[n..])
  {}

  lemma SecondLineFits(u: Ucd, rest: seq<string>, available: int)
    requires UcdOk(u) && rest != [] && AllPlain(rest) && available > 3
    ensures VisibleWidth(u, SecondLine(u, rest, available)) <= available
  {
    JoinWidth(u, rest);
    SepFacts(u);
    hide WellFormed, NoVs16, VisibleWidth, Join, Truncated, AllPlain;
    Glue(u, RESET, Join(rest, SEP));
    var line := RESET + Join(rest, SEP);
    if VisibleWidth(u, line) > available { TruncatedFits(u, line, available); }
  }

  function FirstLineCount(u: Ucd, segs: seq<string>, available: int): nat
    requires segs != []
  {
    FitCount(u, segs, 1, VisibleWidth(u, segs[0]), available)
  }

  predicate LongestFirstLine(u: Ucd, segs: seq<string>, available: int, n: nat) {
    && 1 <= n <= |segs|
    && (n == 1 || VisibleWidth(u, Join(segs[..n], SEP)) <= available)
    && forall k | n < k <= |segs| :: VisibleWidth(u, Join(segs[..k], SEP)) > available
  }

  lemma FirstLineFacts(u: Ucd, segs: seq<string>, available: int)
    requires UcdOk(u) && segs != [] && AllPlain(segs)
    ensures var n := FirstLineCount(u, segs, available);
      && LongestFirstLine(u, segs, available, n)
      && VisibleWidth(u, Join(segs[..n], SEP)) == LineWidth(u, segs[..n]) >= VisibleWidth(u, segs[0])
      && (n == 1 ==> Join(segs[..n], SEP) == segs[0])
  {
    hide AllPlain, VisibleWidth, Join, FitCount;
    assert segs[..1] == [segs[0]];
    OneSegment(segs[0]);
    FitCountIsLongest(u, segs, 1, available);
    var n := FirstLineCount(u, segs, available);
    LineGrows(u, segs, 1, n);
    forall k | 1 <= k <= |segs| ensures VisibleWidth(u, Join(segs[..k], SEP)) == LineWidth(u, segs[..k]) {
      PlainParts(segs, k);
      JoinWidth(u, segs[..k]);
    }
  }

  /** The three ways _wrap_output ends. */
  lemma WrapCases(u: Ucd, output: string, available: int)
    ensures var segs, r := Split(output, SEP), WrappedOutput(u, output, available);
      var n := FirstLineCount(u, segs, available);
      if |segs| > 1 && n == |segs| then r == OneLine(output)
      else if |segs| == 1 || LineWidth(u, segs[..n]) == 0 then r == OneLine(Truncated(u, output, available))
      else n < |segs| && r == TwoLines(Join(segs[..n], SEP), SecondLine(u, segs[n..], available))
  {
    hide VisibleWidth, Truncated, Split, Join, FitCount, LineWidth;
  }

  /** Every output line fits if and only if there is one segment only or the first segment fits. */
  lemma EveryLineFits(u: Ucd, output: string, available: int)
    requires UcdOk(u) && Plain(output) && available > 3
    ensures (forall line | line in Lines(WrappedOutput(u, output, available)) :: VisibleWidth(u, line) <= available)
       <==> |Split(output, SEP)| == 1 || VisibleWidth(u, Split(output, SEP)[0]) <= available
  {
    hide Plain, AllPlain, VisibleWidth, Truncated, Split, Join, FirstLineCount, WrappedOutput, LineWidth, SecondLine;
    var segs := Split(output, SEP);
    var n := FirstLineCount(u, segs, available);
    SegmentsArePlain(output);
    WrapCases(u, output, available);
    TruncatedFits(u, output, available);
    FirstLineFacts(u, segs, available);
    JoinSplit(output, SEP);
    assert segs[..|segs|] == segs;
    if |segs| > 1 && n < |segs| && LineWidth(u, segs[..n]) != 0 {
      PlainParts(segs, n);
      SecondLineFits(u, segs[n..], available);
      TwoLinesAre(Join(segs[..n], SEP), SecondLine(u, segs[n..], available));
    }
  }

  lemma TwoLinesAre(a: string, b: string)
    ensures forall l :: l in Lines(TwoLines(a, b)) <==> l == a || l == b
  {}

  /** When the text is wrapped, line one is the longest run of whole segments that fits (the first segment
      whatever its width). */
  lemma FirstLineIsLongest(u: Ucd, output: string, available: int)
    requires UcdOk(u) && Plain(output) && WrappedOutput(u, output, available).TwoLines?
    ensures var segs := Split(output, SEP);
      exists n: nat :: n < |segs| && LongestFirstLine(u, segs, available, n)
        && WrappedOutput(u, output, available).first == Join(segs[..n], SEP)
  {
    hide Plain, AllPlain, VisibleWidth, Truncated, Split, Join, FirstLineCount, WrappedOutput, LineWidth,
      LongestFirstLine;
    SegmentsArePlain(output);
    WrapCases(u, output, available);
    FirstLineFacts(u, Split(output, SEP), available);
  }

  lemma Reglue(segs: seq<string>, n: nat, reset: string, sep: string)
    requires 0 < n < |segs|
    ensures Join(segs[..n], sep) + sep + (reset + Join(segs[n..], sep))[|reset|..] == Join(segs, sep)
  {
    hide Join;
    JoinConcat(segs[..n], segs[n..], sep);
    assert segs[..n] + segs[n..] == segs;
    assert (reset + Join(segs[n..], sep))[|reset|..] == Join(segs[n..], sep);
  }

  /** When line two was not truncated, putting the separator back for the newline and the reset gives the original
      text. */
  lemma LinesRejoin(u: Ucd, output: string, available: int)
    requires WrappedOutput(u, output, available).TwoLines?
    ensures var TwoLines(l1, l2) := WrappedOutput(u, output, available);
      var segs := Split(output, SEP);
      exists n | 1 <= n < |segs| ::
        && l1 == Join(segs[..n], SEP)
        && var rest := RESET + Join(segs[n..], SEP);
           && (VisibleWidth(u, rest) <= available ==> RESET <= l2 && l1 + SEP + l2[|RESET|..] == output)
           && (VisibleWidth(u, rest) > available ==> l2 == Truncated(u, rest, available))
  {
    var segs := Split(output, SEP);
    hide VisibleWidth, Truncated, Split, Join, LineWidth, FitCount;
    var n := FitCount(u, segs, 1, VisibleWidth(u, segs[0]), available);
    assert 1 <= n < |segs| && WrappedOutput(u, output, available)
      == TwoLines(Join(segs[..n], SEP), SecondLine(u, segs[n..], available));
    JoinSplit(output, SEP);
    Reglue(segs, n, RESET, SEP);
    hide WrappedOutput;
  }
}
