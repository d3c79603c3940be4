/** Truncating and wrapping the status line: bounds and optimality. */
module StatusLine {
  import opened AnsiText

  // ----- truncation

  lemma DotsWidth(u: Ucd)
    requires UcdOk(u)
    ensures WellFormed(DOTS) && NoVs16(DOTS) && VisibleWidth(u, DOTS) == 3
  {
    assert Strip(DOTS) == DOTS by {
      assert DOTS[1..] == ".." && ".."[1..] == "." && "."[1..] == "";
    }
    assert CharWidth(u, '.') == 1;
    ScanIsSum(u, DOTS, START);
    assert "."[1..] == "" && SumWidth(u, ".") == 1;
    assert ".."[1..] == "." && SumWidth(u, "..") == 2;
    assert DOTS[1..] == ".." && SumWidth(u, DOTS) == 3;
  }

  /** Every prefix that goes past the cut is too wide, even one that ends inside an escape sequence. */
  lemma PastTheCut(u: Ucd, t: string, limit: nat, j: nat)
    requires WellFormed(t) && Cut(u, t, false, START, limit) < j <= |t|
    ensures VisibleWidth(u, t[..j]) > limit
  {
    var k := Cut(u, t, false, START, limit);
    CutMeaning(u, t, START, limit);
    var a, b := t[..k], t[k..j];
    assert t[..j] == a + b && b[0] == t[k];
    StripConcat(a, b);
    ScanConcat(u, Strip(a), Strip(b), START);
    var at := ScanText(u, Strip(a), START);
    assert MatchAnsi(b) == 0 && Strip(b) == [b[0]] + Strip(b[1..]);
    ScanGrows(u, Strip(b)[1..], Step(u, at, b[0]));
  }

  /** For well-formed text without variation selectors and a width over 3: text that fits in width - 3 columns
      is returned as it is; otherwise the result is the longest prefix of at most width - 3 columns with dots
      appended, and takes width - 1 or width columns. */
  lemma TruncationIsLongest(u: Ucd, t: string, w: int)
    requires UcdOk(u) && WellFormed(t) && NoVs16(t) && w > 3
    ensures var k := Cut(u, t, false, START, w - 3);
      && (k == |t| <==> VisibleWidth(u, t) <= w - 3)
      && VisibleWidth(u, t[..k]) <= w - 3
      && (forall j | k < j <= |t| :: VisibleWidth(u, t[..j]) > w - 3)
      && (k == |t| ==> Truncated(u, t, w) == t)
      && (k < |t| ==> Truncated(u, t, w) == t[..k] + DOTS && w - 1 <= VisibleWidth(u, Truncated(u, t, w)) <= w)
  {
    var k := Cut(u, t, false, START, w - 3);
    CutMeaning(u, t, START, w - 3);
    forall j | k < j <= |t| ensures VisibleWidth(u, t[..j]) > w - 3 { PastTheCut(u, t, w - 3, j); }
    assert t[..|t|] == t;
    if k < |t| {
      DotsWidth(u);
      WidthConcat(u, t[..k], DOTS);
    }
  }

  lemma DropInside(a: string, c: char, rest: string, n: nat)
    requires n <= |a|
    ensures (a + [c] + rest)[n..] == a[n..] + [c] + rest
  {
  }

  lemma {:induction false} PlainSplit(a: string, c: char, rest: string)
    requires WellFormed(a + [c] + rest) && c != ESC && c != '[' && c != 'm' && !IsParam(c)
    ensures WellFormed(a) && WellFormed([c] + rest)
    decreases a
  {
    var t := a + [c] + rest;
    if a == [] {
      assert t == [c] + rest;
    } else if a[0] == ESC {
      var n := MatchAnsi(t);
      assert t[|a|] == c;
      assert n <= |a|;
      assert a == t[..|a|];
      PrefixMatches(t, |a|);
      DropInside(a, c, rest, n);
      PlainSplit(a[n..], c, rest);
    } else {
      assert t[0] == a[0] && t[1..] == a[1..] + [c] + rest;
      PlainSplit(a[1..], c, rest);
    }
  }

  /** Text of exactly the limit is kept whole and a following dot is not. */
  lemma CutAtDots(u: Ucd, p: string, limit: nat)
    requires UcdOk(u) && WellFormed(p) && NoVs16(p) && VisibleWidth(u, p) == limit
    ensures Cut(u, p + DOTS, false, START, limit) == |p|
  {
    hide Cut, VisibleWidth, Strip, ScanText;
    DotsWidth(u);
    var t := p + DOTS;
    StripConcat(p, DOTS);
    var k := Cut(u, t, false, START, limit);
    assert t[..|p|] == p;
    if k < |p| {
      PastTheCut(u, t, limit, |p|);
      assert false;
    }
    if k > |p| {
      var d := t[|p|..k];
      assert t[..k] == p + d && d == DOTS[..k - |p|];
      WidthConcat(u, p, d);
      SomeDots(u, k - |p|);
      CutWithinLimit(u, t, limit);
      assert false;
    }
  }

  lemma CutWithinLimit(u: Ucd, t: string, limit: nat)
    requires WellFormed(t) && NoVs16(t)
    ensures VisibleWidth(u, t[..Cut(u, t, false, START, limit)]) <= limit
  {
    CutMeaning(u, t, START, limit);
  }

  lemma SomeDots(u: Ucd, n: nat)
    requires UcdOk(u) && 0 < n <= 3
    ensures VisibleWidth(u, DOTS[..n]) > 0
  {
    var d := DOTS[..n];
    assert d[0] == '.' && CharWidth(u, '.') == 1;
    assert Strip(d) == ['.'] + Strip(d[1..]);
    ScanGrows(u, Strip(d)[1..], Step(u, START, '.'));
  }

  lemma CutGetsDotsBack(u: Ucd, t: string, w: int)
    requires UcdOk(u) && WellFormed(t) && NoVs16(t) && w > 3
    requires VisibleWidth(u, t) == w && |t| >= 3 && t[|t| - 3..] == DOTS
    ensures Truncated(u, t, w) == t
  {
    var p := t[..|t| - 3];
    assert t == p + DOTS && t == p + ['.'] + "..";
    PlainSplit(p, '.', "..");
    DotsWidth(u);
    hide VisibleWidth;
    WidthConcat(u, p, DOTS);
    CutAtDots(u, p, w - 3);
  }

  /** The result equals the text in one more case than "it fits": text exactly as wide as allowed that already
      ends in the three dots is cut before them and gets them back. */
  lemma TruncationUnchanged(u: Ucd, t: string, w: int)
    requires UcdOk(u) && WellFormed(t) && NoVs16(t) && w > 3
    ensures Truncated(u, t, w) == t
       <==> VisibleWidth(u, t) <= w - 3 || (VisibleWidth(u, t) == w && |t| >= 3 && t[|t| - 3..] == DOTS)
  {
    hide Cut, VisibleWidth, WellFormed;
    var k := Cut(u, t, false, START, w - 3);
    TruncationIsLongest(u, t, w);
    if VisibleWidth(u, t) == w && |t| >= 3 && t[|t| - 3..] == DOTS {
      CutGetsDotsBack(u, t, w);
    }
    if k < |t| && Truncated(u, t, w) == t {
      assert t[k..] == DOTS by { assert t == t[..k] + DOTS && (t[..k] + DOTS)[k..] == DOTS; }
      assert w - 3 < VisibleWidth(u, t) <= w;
      CutEndsAtLimit(u, t, w - 3);
    }
  }

  lemma CutEndsAtLimit(u: Ucd, t: string, limit: nat)
    requires UcdOk(u) && WellFormed(t) && NoVs16(t)
    requires var k := Cut(u, t, false, START, limit); k < |t| && t[k..] == DOTS
    ensures VisibleWidth(u, t) == limit + 3 && |t| >= 3 && t[|t| - 3..] == DOTS
  {
    var k := Cut(u, t, false, START, limit);
    CutMeaning(u, t, START, limit);
    DotsWidth(u);
    assert t[k] == t[k..][0] == '.' && CharWidth(u, '.') == 1;
    assert |t| - 3 == k;
    assert t == t[..k] + DOTS;
    WidthConcat(u, t[..k], DOTS);
  }

  // ----- variation selectors

  function CountVs16(t: string): nat {
    if t == [] then 0 else (if t[0] == VS16 then 1 else 0) + CountVs16(t[1..])
  }

  lemma {:induction false} CountConcat(a: string, b: string)
    ensures CountVs16(a + b) == CountVs16(a) + CountVs16(b)
  {
    if a == [] {
      assert a + b == b;
    } else {
      assert (a + b)[0] == a[0] && (a + b)[1..] == a[1..] + b;
      CountConcat(a[1..], b);
    }
  }

  function Bound(s: Scan, limit: nat, kept: string): nat {
    (if s.width > limit then s.width else limit) + CountVs16(kept)
  }

  lemma OverrunAfterEscape(u: Ucd, t: string, s: Scan, limit: nat, k: nat)
    requires MatchAnsi(t) > 0 && MatchAnsi(t) <= k <= |t|
    requires var n := MatchAnsi(t); ScanText(u, Strip(t[n..][..k - n]), s).width <= Bound(s, limit, t[n..][..k - n])
    ensures ScanText(u, Strip(t[..k]), s).width <= Bound(s, limit, t[..k])
  {
    hide MatchAnsi, ScanText;
    var n := MatchAnsi(t);
    PrefixMatches(t, k);
    assert t[..k][n..] == t[n..][..k - n];
    assert t[..k] == t[..n] + t[n..][..k - n];
    CountConcat(t[..n], t[n..][..k - n]);
  }

  lemma OverrunAfterChar(u: Ucd, t: string, s: Scan, limit: nat, k: nat)
    requires t != [] && t[0] != ESC && 1 <= k <= |t|
    requires Upgrades(s, t[0]) || s.width + CharWidth(u, t[0]) <= limit
    requires var rest, s1 := t[1..][..k - 1], Step(u, s, t[0]);
      ScanText(u, Strip(rest), s1).width <= Bound(s1, limit, rest)
    ensures ScanText(u, Strip(t[..k]), s).width <= Bound(s, limit, t[..k])
  {
    hide CharWidth;
    assert t[..k][0] == t[0] && t[..k][1..] == t[1..][..k - 1];
    assert MatchAnsi(t[..k]) == 0;
    assert Strip(t[..k]) == [t[0]] + Strip(t[1..][..k - 1]);
  }

  /** An upgrade adds its column without a bound check, so the count passes the limit by at most one column
      for each selector kept. */
  lemma {:induction false} CutOverrun(u: Ucd, t: string, s: Scan, limit: nat)
    requires WellFormed(t)
    ensures var k := Cut(u, t, false, s, limit); ScanText(u, Strip(t[..k]), s).width <= Bound(s, limit, t[..k])
    decreases t
  {
    var k := Cut(u, t, false, s, limit);
    if t == [] || k == 0 {
      assert t[..k] == [];
    } else {
      hide CharWidth, MatchAnsi, Strip, ScanText, Bound, Step, Upgrades;
      if t[0] == ESC {
        CutEscape(u, t, s, limit);
        CutOverrun(u, t[MatchAnsi(t)..], s, limit);
        OverrunAfterEscape(u, t, s, limit, k);
      } else {
        CutOverrun(u, t[1..], Step(u, s, t[0]), limit);
        OverrunAfterChar(u, t, s, limit, k);
      }
    }
  }

  /** With variation selectors the result stays within the width plus one column per selector in the text. */
  lemma TruncationOverrun(u: Ucd, t: string, w: int)
    requires UcdOk(u) && WellFormed(t) && w > 3
    ensures VisibleWidth(u, Truncated(u, t, w)) <= w + CountVs16(t)
  {
    hide WellFormed, Strip, ScanText, Cut, CharWidth;
    var k := Cut(u, t, false, START, w - 3);
    CutOverrun(u, t, START, w - 3);
    CutMeaning(u, t, START, w - 3);
    assert t[..k] + t[k..] == t && t[..|t|] == t;
    CountConcat(t[..k], t[k..]);
    if k < |t| {
      DotsAfter(u, t[..k]);
    }
  }

  lemma DotsAfter(u: Ucd, a: string)
    requires UcdOk(u) && WellFormed(a)
    ensures VisibleWidth(u, a + DOTS) == VisibleWidth(u, a) + 3
  {
    StripConcat(a, DOTS);
    ScanConcat(u, Strip(a), Strip(DOTS), START);
    DotsWidth(u);
    assert NoVs16(Strip(DOTS)) by { StripMembers(DOTS); }
    hide Strip, ScanText;
    ScanIsSum(u, Strip(DOTS), ScanText(u, Strip(a), START));
    ScanIsSum(u, Strip(DOTS), START);
  }

  // ----- exactly when the width is passed

  /** A selector, outside escapes, widens a narrow character although the count is at the limit. */
  predicate Crosses(u: Ucd, t: string, s: Scan, limit: nat, j: nat) {
    && j < |t| && WellFormed(t[..j]) && t[j] == VS16
    && var at := ScanText(u, Strip(t[..j]), s);
       at.width == limit && Upgrades(at, t[j]) && !u.wide(at.prev)
  }

  lemma CrossesAfterEscape(u: Ucd, t: string, s: Scan, limit: nat, j: nat)
    requires WellFormed(t) && MatchAnsi(t) > 0 && Crosses(u, t[MatchAnsi(t)..], s, limit, j)
    ensures Crosses(u, t, s, limit, MatchAnsi(t) + j)
  {
    hide Upgrades;
    var n := MatchAnsi(t);
    PrefixMatches(t, n + j);
    assert t[..n + j][n..] == t[n..][..j];
  }

  lemma CrossesAfterChar(u: Ucd, t: string, s: Scan, limit: nat, j: nat)
    requires t != [] && t[0] != ESC && Crosses(u, t[1..], Step(u, s, t[0]), limit, j)
    ensures Crosses(u, t, s, limit, j + 1)
  {
    hide Upgrades, CharWidth;
    PrefixAfterChar(u, t, s, j + 1);
  }

  lemma PrefixAfterChar(u: Ucd, t: string, s: Scan, j: nat)
    requires t != [] && t[0] != ESC && 0 < j <= |t|
    ensures WellFormed(t[..j]) <==> WellFormed(t[1..][..j - 1])
    ensures ScanText(u, Strip(t[..j]), s) == ScanText(u, Strip(t[1..][..j - 1]), Step(u, s, t[0]))
  {
    hide Step;
    assert t[..j][0] == t[0] && t[..j][1..] == t[1..][..j - 1];
    assert MatchAnsi(t[..j]) == 0;
    assert Strip(t[..j]) == [t[0]] + Strip(t[1..][..j - 1]);
  }

  lemma CutFirst(u: Ucd, t: string, s: Scan, limit: nat)
    requires t != [] && t[0] != ESC && WellFormed(t) && Cut(u, t, false, s, limit) > 0
    ensures Upgrades(s, t[0]) || s.width + CharWidth(u, t[0]) <= limit
    ensures Cut(u, t, false, s, limit) == 1 + Cut(u, t[1..], false, Step(u, s, t[0]), limit)
    ensures WellFormed(t[1..])
  {
    hide Step, CharWidth, Upgrades;
  }

  lemma CutEscapeFirst(u: Ucd, t: string, s: Scan, limit: nat)
    requires t != [] && t[0] == ESC && WellFormed(t)
    ensures var n, k := MatchAnsi(t), Cut(u, t, false, s, limit);
      && 0 < n <= k && WellFormed(t[n..])
      && k - n == Cut(u, t[n..], false, s, limit)
      && Strip(t[..k]) == Strip(t[n..][..k - n])
  {
    hide MatchAnsi, Step, CharWidth, Upgrades;
    var n, k := MatchAnsi(t), Cut(u, t, false, s, limit);
    CutEscape(u, t, s, limit);
    hide Cut;
    PrefixMatches(t, k);
    assert t[..k][n..] == t[n..][..k - n];
  }

  /** The count passes the limit only by crossing it. */
  lemma {:induction false} PassingIsCrossing(u: Ucd, t: string, s: Scan, limit: nat) returns (j: nat)
    requires WellFormed(t) && s.width <= limit
    requires var k := Cut(u, t, false, s, limit); ScanText(u, Strip(t[..k]), s).width > limit
    ensures Crosses(u, t, s, limit, j)
    decreases t
  {
    hide Crosses, MatchAnsi, CharWidth, Cut, Strip, ScanText, Step, Upgrades, WellFormed;
    var k := Cut(u, t, false, s, limit);
    NothingKept(u, t, s);
    if t[0] == ESC {
      CutEscapeFirst(u, t, s, limit);
      j := PassingIsCrossing(u, t[MatchAnsi(t)..], s, limit);
      CrossesAfterEscape(u, t, s, limit, j);
      j := MatchAnsi(t) + j;
    } else {
      CutFirst(u, t, s, limit);
      PrefixAfterChar(u, t, s, k);
      if Step(u, s, t[0]).width > limit {
        CrossesHere(u, t, s, limit);
        j := 0;
      } else {
        j := PassingIsCrossing(u, t[1..], Step(u, s, t[0]), limit);
        CrossesAfterChar(u, t, s, limit, j);
        j := j + 1;
      }
    }
  }

  lemma NothingKept(u: Ucd, t: string, s: Scan)
    ensures ScanText(u, Strip(t[..0]), s) == s
  {
    assert t[..0] == [];
  }

  lemma CrossesHere(u: Ucd, t: string, s: Scan, limit: nat)
    requires t != [] && s.width <= limit < Step(u, s, t[0]).width
    requires Upgrades(s, t[0]) || s.width + CharWidth(u, t[0]) <= limit
    ensures Crosses(u, t, s, limit, 0)
  {
    assert t[..0] == [];
  }

  lemma CutKeeps(u: Ucd, t: string, s: Scan, limit: nat)
    requires t != [] && t[0] != ESC && Step(u, s, t[0]).width <= limit
    ensures Cut(u, t, false, s, limit) == 1 + Cut(u, t[1..], false, Step(u, s, t[0]), limit)
  {
    StepIsKept(u, s, t[0], limit);
    hide Step, CharWidth, Upgrades;
  }

  lemma ScanFirst(u: Ucd, a: string, s: Scan)
    requires a != [] && a[0] != ESC && WellFormed(a)
    ensures WellFormed(a[1..]) && ScanText(u, Strip(a), s) == ScanText(u, Strip(a[1..]), Step(u, s, a[0]))
  {
    NoMatch(a);
    hide Step;
    assert Strip(a) == [a[0]] + Strip(a[1..]);
  }

  lemma EscapeFirst(a: string)
    requires a != [] && a[0] == ESC && WellFormed(a)
    ensures MatchAnsi(a) > 0 && WellFormed(a[MatchAnsi(a)..]) && Strip(a) == Strip(a[MatchAnsi(a)..])
  {
    hide MatchAnsi;
  }

  lemma DropFromConcat(a: string, b: string, n: nat)
    requires n <= |a|
    ensures (a + b)[n..] == a[n..] + b
  {
  }

  /** Everything of a is kept, and the cut goes on into b from where the count then is. */
  predicate Reaches(u: Ucd, a: string, b: string, s: Scan, limit: nat) {
    Cut(u, a + b, false, s, limit) == |a| + Cut(u, b, false, ScanText(u, Strip(a), s), limit)
  }

  lemma ReachesAfterEscape(u: Ucd, a: string, b: string, s: Scan, limit: nat)
    requires MatchAnsi(a) > 0 && Strip(a) == Strip(a[MatchAnsi(a)..]) && Reaches(u, a[MatchAnsi(a)..], b, s, limit)
    ensures Reaches(u, a, b, s, limit)
  {
    hide MatchAnsi, Cut, Strip, ScanText;
    MatchPrefix(a, b);
    CutEscape(u, a + b, s, limit);
    DropFromConcat(a, b, MatchAnsi(a));
  }

  lemma ReachesAfterChar(u: Ucd, a: string, b: string, s: Scan, limit: nat)
    requires a != [] && a[0] != ESC && WellFormed(a) && Step(u, s, a[0]).width <= limit
    requires Reaches(u, a[1..], b, Step(u, s, a[0]), limit)
    ensures Reaches(u, a, b, s, limit)
  {
    hide MatchAnsi, Cut, Strip, ScanText, WellFormed, Step;
    ScanFirst(u, a, s);
    DropFromConcat(a, b, 1);
    CutKeeps(u, a + b, s, limit);
  }

  /** As long as the count is within the limit everything is kept. */
  lemma {:induction false} CutReaches(u: Ucd, a: string, b: string, s: Scan, limit: nat)
    requires WellFormed(a) && ScanText(u, Strip(a), s).width <= limit
    ensures Reaches(u, a, b, s, limit)
    decreases a
  {
    if a == [] {
      assert a + b == b;
    } else {
      hide MatchAnsi, Reaches, Strip, ScanText, WellFormed, Step;
      if a[0] == ESC {
        EscapeFirst(a);
        CutReaches(u, a[MatchAnsi(a)..], b, s, limit);
        ReachesAfterEscape(u, a, b, s, limit);
      } else {
        ScanFirst(u, a, s);
        ScanGrows(u, Strip(a[1..]), Step(u, s, a[0]));
        CutReaches(u, a[1..], b, Step(u, s, a[0]), limit);
        ReachesAfterChar(u, a, b, s, limit);
      }
    }
  }

  lemma StepIsKept(u: Ucd, s: Scan, c: char, limit: nat)
    requires Step(u, s, c).width <= limit
    ensures Upgrades(s, c) || s.width + CharWidth(u, c) <= limit
  {
  }

  predicate OnlySelectors(t: string) { forall c | c in t :: c == VS16 }

  function Widening(u: Ucd): nat { if u.wide(VS16) then 0 else 1 }

  /** Past the limit only selectors and escapes are kept, and each selector goes on widening. */
  lemma {:induction false} CutPastLimit(u: Ucd, t: string, s: Scan, limit: nat)
    requires WellFormed(t) && s.width > limit && s.prev == VS16
    ensures Cut(u, t, false, s, limit) == |t| <==> OnlySelectors(Strip(t))
    ensures OnlySelectors(Strip(t)) ==> ScanText(u, Strip(t), s).width == s.width + Widening(u) * |Strip(t)|
    decreases t
  {
    hide MatchAnsi;
    if t == [] {
    } else if t[0] == ESC {
      CutEscape(u, t, s, limit);
      CutPastLimit(u, t[MatchAnsi(t)..], s, limit);
    } else {
      assert MatchAnsi(t) == 0 by { NoMatch(t); }
      var rest := Strip(t[1..]);
      assert Strip(t) == [t[0]] + rest;
      OnlySelectorsCons(t[0], rest);
      if t[0] == VS16 {
        assert Step(u, s, t[0]) == Scan(s.width + Widening(u), VS16);
        CutPastLimit(u, t[1..], Step(u, s, t[0]), limit);
        assert Strip(t)[0] == VS16 && Strip(t)[1..] == rest;
      }
    }
  }

  lemma OnlySelectorsCons(c: char, rest: string)
    ensures OnlySelectors([c] + rest) <==> c == VS16 && OnlySelectors(rest)
  {
    assert c in [c] + rest && forall d | d in rest :: d in [c] + rest;
  }

  lemma NoMatch(t: string)
    requires t != [] && t[0] != ESC
    ensures MatchAnsi(t) == 0
  {
  }

  /** What comes after a crossing adds, without dots, no more than the room for the dots. */
  predicate EndsInSelectors(u: Ucd, rest: string) {
    OnlySelectors(Strip(rest)) && Widening(u) * |Strip(rest)| <= 2
  }

  lemma CrossingDecides(u: Ucd, t: string, w: int, j: nat)
    requires UcdOk(u) && WellFormed(t) && w > 3 && Crosses(u, t, START, w - 3, j)
    ensures VisibleWidth(u, Truncated(u, t, w)) <= w <==> EndsInSelectors(u, t[j + 1..])
  {
    hide Cut, MatchAnsi, CharWidth;
    var limit: nat := w - 3;
    var k := Cut(u, t, false, START, limit);
    var at, rest := ScanText(u, Strip(t[..j]), START), t[j + 1..];
    var past := Scan(limit + 1, VS16);
    assert Step(u, at, VS16) == past;
    assert t[..j] + t[j..] == t;
    CutReaches(u, t[..j], t[j..], START, limit);
    CutCrossing(u, t, at, limit, j);
    CutMeaning(u, t, START, limit);
    assert t[j..] == [VS16] + rest;
    StripConcat(t[..j], t[j..]);
    SelectorFirst(u, t[j..], rest, at);
    CutPastLimit(u, rest, past, limit);
    ScanConcat(u, Strip(t[..j]), Strip(t[j..]), START);
    if k < |t| {
      KeptPastCrossing(u, t, limit, j, k);
      DotsAfter(u, t[..k]);
    }
  }

  lemma CutCrossing(u: Ucd, t: string, at: Scan, limit: nat, j: nat)
    requires j < |t| && t[j] == VS16 && Upgrades(at, VS16)
    ensures Cut(u, t[j..], false, at, limit) == 1 + Cut(u, t[j + 1..], false, Step(u, at, VS16), limit)
  {
    assert t[j..][0] == VS16 && t[j..][1..] == t[j + 1..];
  }

  lemma SelectorFirst(u: Ucd, t: string, rest: string, at: Scan)
    requires t == [VS16] + rest
    ensures WellFormed(t) <==> WellFormed(rest)
    ensures ScanText(u, Strip(t), at) == ScanText(u, Strip(rest), Step(u, at, VS16))
  {
    assert t[0] == VS16 && t[1..] == rest;
    NoMatch(t);
    hide Step;
  }

  /** Once crossed, the count of what is kept stays past the limit. */
  lemma KeptPastCrossing(u: Ucd, t: string, limit: nat, j: nat, k: nat)
    requires Crosses(u, t, START, limit, j) && j < k <= |t| && WellFormed(t)
    ensures VisibleWidth(u, t[..k]) > limit
  {
    var at := ScanText(u, Strip(t[..j]), START);
    assert t[..k] == t[..j] + t[j..k] && t[j..k] == [VS16] + t[j + 1..k];
    StripConcat(t[..j], t[j..k]);
    ScanConcat(u, Strip(t[..j]), Strip(t[j..k]), START);
    SelectorFirst(u, t[j..k], t[j + 1..k], at);
    ScanGrows(u, Strip(t[j + 1..k]), Step(u, at, VS16));
  }

  /** A selector crosses the limit at j, and what follows is more than the room for the dots can take. */
  predicate OverrunsAt(u: Ucd, t: string, w: int, j: nat) {
    w > 3 && Crosses(u, t, START, w - 3, j) && !EndsInSelectors(u, t[j + 1..])
  }

  /** The result keeps to the width if and only if no selector crosses the limit, or nothing but escapes and at most two
      widening selectors follow the one that does. */
  lemma TruncationBound(u: Ucd, t: string, w: int)
    requires UcdOk(u) && WellFormed(t) && w > 3
    ensures VisibleWidth(u, Truncated(u, t, w)) <= w <==> !exists j: nat :: OverrunsAt(u, t, w, j)
  {
    hide EndsInSelectors, Cut, ScanText, Strip, WellFormed, Upgrades;
    forall j: nat ensures OverrunsAt(u, t, w, j) ==> VisibleWidth(u, Truncated(u, t, w)) > w {
      if OverrunsAt(u, t, w, j) {
        CrossingDecides(u, t, w, j);
      }
    }
    if VisibleWidth(u, Truncated(u, t, w)) > w {
      var j := TooWideCrosses(u, t, w);
      CrossingDecides(u, t, w, j);
      assert OverrunsAt(u, t, w, j);
    }
  }

  lemma TooWideCrosses(u: Ucd, t: string, w: int) returns (j: nat)
    requires UcdOk(u) && WellFormed(t) && w > 3 && VisibleWidth(u, Truncated(u, t, w)) > w
    ensures Crosses(u, t, START, w - 3, j)
  {
    hide Crosses, Cut, ScanText, Strip;
    var k := Cut(u, t, false, START, w - 3);
    CutMeaning(u, t, START, w - 3);
    assert t[..|t|] == t;
    if k < |t| {
      DotsAfter(u, t[..k]);
    }
    j := PassingIsCrossing(u, t, START, w - 3);
  }

  /** Every text that fills the room before the dots and ends in a narrow character passes the width once a selector and
      any other character follow. */
  lemma OneSelectorOverruns(u: Ucd, p: string, c: char, rest: string, w: int)
    requires UcdOk(u) && WellFormed(p) && WellFormed(rest) && w > 3 && c != ESC && c != VS16
    requires var at := ScanText(u, Strip(p), START);
      at.width == w - 3 && Upgrades(at, VS16) && !u.wide(at.prev)
    ensures VisibleWidth(u, Truncated(u, p + [VS16, c] + rest, w)) > w
  {
    hide Strip, ScanText, WellFormed, Truncated, VisibleWidth, Cut, MatchAnsi, Upgrades;
    var t, tail := p + [VS16, c] + rest, [c] + rest;
    assert t == p + ([VS16] + tail) && t[..|p|] == p && t[|p| + 1..] == tail && t[|p|] == VS16;
    TailIsNotSelectors(c, rest);
    StripConcat(p, [VS16] + tail);
    SelectorFirst(u, [VS16] + tail, tail, START);
    TruncationBound(u, t, w);
    assert OverrunsAt(u, t, w, |p|);
  }

  lemma TailIsNotSelectors(c: char, rest: string)
    requires c != ESC && c != VS16 && WellFormed(rest)
    ensures WellFormed([c] + rest) && !OnlySelectors(Strip([c] + rest))
  {
    var tail := [c] + rest;
    assert tail[0] == c && tail[1..] == rest;
    NoMatch(tail);
    OnlySelectorsCons(c, Strip(rest));
  }

  /** The other way past the width: four selectors after one letter come back whole, five columns for a width of
      four. */
  lemma VariationSelectorsOverrun(u: Ucd)
    requires UcdOk(u) && !u.wide(VS16)
    ensures var t := ['a', VS16, VS16, VS16, VS16];
      WellFormed(t) && Truncated(u, t, 4) == t && VisibleWidth(u, t) == 5
  {
    var t := ['a', VS16, VS16, VS16, VS16];
    var t1, t2, t3, t4 := [VS16, VS16, VS16, VS16], [VS16, VS16, VS16], [VS16, VS16], [VS16];
    assert t[1..] == t1 && t1[1..] == t2 && t2[1..] == t3 && t3[1..] == t4 && t4[1..] == [];
    assert CharWidth(u, 'a') == 1;
    var a, b, c, d, e := Scan(1, 'a'), Scan(2, VS16), Scan(3, VS16), Scan(4, VS16), Scan(5, VS16);
    assert Step(u, START, 'a') == a && Step(u, a, VS16) == b && Step(u, b, VS16) == c && Step(u, c, VS16) == d
      && Step(u, d, VS16) == e;
    assert WellFormed(t4) && WellFormed(t3) && WellFormed(t2) && WellFormed(t1);
    assert Strip(t4) == t4 && Strip(t3) == t3 && Strip(t2) == t2 && Strip(t1) == t1 && Strip(t) == t;
    assert ScanText(u, t4, d) == e && ScanText(u, t3, c) == e && ScanText(u, t2, b) == e && ScanText(u, t1, a) == e;
    assert Cut(u, t4, false, d, 1) == 1 && Cut(u, t3, false, c, 1) == 2 && Cut(u, t2, false, b, 1) == 3
      && Cut(u, t1, false, a, 1) == 4;
  }
}
