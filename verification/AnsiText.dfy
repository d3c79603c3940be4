/** Terminal text with colour escapes: stripping, display width, truncation. */
module AnsiText {

  /** The two tables of Python's unicodedata that matter: categories M* and East Asian width W or F. */
  datatype Ucd = Ucd(mark: char -> bool, wide: char -> bool)

  const ESC := '\U{1B}'
  const NBSP := '\U{A0}'
  const VS16 := '\U{FE0F}'
  const NUL := '\U{0}'

  /** Printable ASCII and the no-break space are narrow and not marks. */
  ghost predicate UcdOk(u: Ucd) {
    forall c: char | ' ' <= c <= '~' || c == NBSP :: !u.mark(c) && !u.wide(c)
  }

  /** _char_width. */
  function CharWidth(u: Ucd, c: char): (w: nat)
    ensures w <= 2
  {
    if c in {'\U{FE0E}', VS16, '\U{200D}', '\U{200C}'} then 0
    else if u.mark(c) then 0
    else if c as int >= 0x10000 then 2
    else if u.wide(c) then 2
    else 1
  }

  // ----- the escape pattern ESC [ (digits and semicolons) m

  predicate IsParam(c: char) { '0' <= c <= '9' || c == ';' }

  function ParamsLen(t: string): (n: nat)
    ensures n <= |t| && (forall i | 0 <= i < n :: IsParam(t[i])) && (n < |t| ==> !IsParam(t[n]))
  {
    if t == [] || !IsParam(t[0]) then 0 else 1 + ParamsLen(t[1..])
  }

  /** Length of the match at the start of t, 0 for none. The final letter is no parameter, so the greedy run decides. */
  function MatchAnsi(t: string): (n: nat)
    ensures n <= |t|
    ensures n > 0 ==>
      && n >= 3 && t[0] == ESC && t[1] == '[' && t[n - 1] == 'm'
      && forall i | 2 <= i < n - 1 :: IsParam(t[i])
  {
    if |t| >= 2 && t[0] == ESC && t[1] == '[' then
      var n := ParamsLen(t[2..]);
      if n + 2 < |t| && t[n + 2] == 'm' then n + 3 else 0
    else 0
  }

  /** _ANSI_RE.sub("", text). */
  function Strip(t: string): string {
    if t == [] then []
    else if MatchAnsi(t) > 0 then Strip(t[MatchAnsi(t)..])
    else [t[0]] + Strip(t[1..])
  }

  /** Every escape character starts a complete escape sequence. */
  predicate WellFormed(t: string) {
    if t == [] then true
    else if t[0] == ESC then MatchAnsi(t) > 0 && WellFormed(t[MatchAnsi(t)..])
    else WellFormed(t[1..])
  }

  lemma {:induction false} ParamsLenIs(t: string, n: nat)
    requires n <= |t| && (forall i | 0 <= i < n :: IsParam(t[i])) && (n < |t| ==> !IsParam(t[n]))
    ensures ParamsLen(t) == n
  {}

  lemma MatchPrefix(a: string, b: string)
    requires MatchAnsi(a) > 0
    ensures MatchAnsi(a + b) == MatchAnsi(a)
  {
    var n := MatchAnsi(a) - 3;
    assert (a + b)[n + 2] == 'm' && forall i | 2 <= i < n + 2 :: IsParam((a + b)[i]);
    ParamsLenIs((a + b)[2..], n);
  }

  lemma {:induction false} StripConcat(a: string, b: string)
    requires WellFormed(a)
    ensures Strip(a + b) == Strip(a) + Strip(b)
    ensures WellFormed(a + b) <==> WellFormed(b)
  {
    hide MatchAnsi;
    if a == [] {
      assert a + b == b;
    } else if a[0] == ESC {
      var n := MatchAnsi(a);
      MatchPrefix(a, b);
      assert (a + b)[n..] == a[n..] + b;
      StripConcat(a[n..], b);
    } else {
      assert (a + b)[0] == a[0] && (a + b)[1..] == a[1..] + b;
      StripConcat(a[1..], b);
      assert Strip(a + b) == [a[0]] + (Strip(a[1..]) + Strip(b));
    }
  }

  // ----- width

  /** The running count and the last character that took a column (NUL at the start). */
  datatype Scan = Scan(width: nat, prev: char)

  const START := Scan(0, NUL)

  /** A variation selector 16 right after a character of the basic plane. */
  predicate Upgrades(s: Scan, c: char) {
    c == VS16 && s.prev != NUL && s.prev as int < 0x10000
  }

  function Step(u: Ucd, s: Scan, c: char): Scan {
    if Upgrades(s, c) then Scan(s.width + if u.wide(s.prev) then 0 else 1, c)
    else Scan(s.width + CharWidth(u, c), if CharWidth(u, c) > 0 then c else s.prev)
  }

  function ScanText(u: Ucd, t: string, s: Scan): Scan {
    if t == [] then s else ScanText(u, t[1..], Step(u, s, t[0]))
  }

  function VisibleWidth(u: Ucd, t: string): nat {
    ScanText(u, Strip(t), START).width
  }

  /** _visible_width. */
  method MeasureWidth(u: Ucd, text: string) returns (width: nat)
    ensures width == VisibleWidth(u, text)
  {
    var stripped := Strip(text);
    var prev := NUL;
    width := 0;
    for i := 0 to |stripped|
      invariant ScanText(u, stripped[i..], Scan(width, prev)) == ScanText(u, stripped, START)
    {
      var c := stripped[i];
      assert stripped[i..][0] == c && stripped[i..][1..] == stripped[i + 1..];
      if c == VS16 && prev != NUL && prev as int < 0x10000 {
        if !u.wide(prev) {
          width := width + 1;
        }
        prev := c;
        continue;
      }
      var w := CharWidth(u, c);
      width := width + w;
      if w > 0 {
        prev := c;
      }
    }
  }

  lemma {:induction false} ScanConcat(u: Ucd, a: string, b: string, s: Scan)
    ensures ScanText(u, a + b, s) == ScanText(u, b, ScanText(u, a, s))
    decreases a
  {
    if a == [] {
      assert a + b == b;
    } else {
      assert (a + b)[0] == a[0] && (a + b)[1..] == a[1..] + b;
      ScanConcat(u, a[1..], b, Step(u, s, a[0]));
    }
  }

  lemma {:induction false} ScanGrows(u: Ucd, t: string, s: Scan)
    ensures ScanText(u, t, s).width >= s.width
    decreases t
  {
    if t != [] { ScanGrows(u, t[1..], Step(u, s, t[0])); }
  }

  // ----- without variation selectors the width is a sum

  function SumWidth(u: Ucd, t: string): nat {
    if t == [] then 0 else CharWidth(u, t[0]) + SumWidth(u, t[1..])
  }

  predicate NoVs16(t: string) { VS16 !in t }

  lemma {:induction false} ScanIsSum(u: Ucd, t: string, s: Scan)
    requires NoVs16(t)
    ensures ScanText(u, t, s).width == s.width + SumWidth(u, t)
    decreases t
  {
    if t != [] {
      assert t[0] != VS16;
      ScanIsSum(u, t[1..], Step(u, s, t[0]));
    }
  }

  lemma {:induction false} StripMembers(t: string)
    ensures forall c | c in Strip(t) :: c in t
  {
    if t != [] {
      if MatchAnsi(t) > 0 { StripMembers(t[MatchAnsi(t)..]); } else { StripMembers(t[1..]); }
    }
  }

  /** Width is additive over well-formed text without variation selectors. */
  lemma WidthConcat(u: Ucd, a: string, b: string)
    requires WellFormed(a) && NoVs16(a) && NoVs16(b)
    ensures VisibleWidth(u, a + b) == VisibleWidth(u, a) + VisibleWidth(u, b)
  {
    StripConcat(a, b);
    StripMembers(a);
    StripMembers(b);
    ScanConcat(u, Strip(a), Strip(b), START);
    ScanIsSum(u, Strip(a), START);
    ScanIsSum(u, Strip(b), START);
    ScanIsSum(u, Strip(b), ScanText(u, Strip(a), START));
  }

  // ----- truncate_ansi

  /** Index of the first character that truncate_ansi drops, |t| if it keeps everything. */
  function Cut(u: Ucd, t: string, inAnsi: bool, s: Scan, limit: nat): (k: nat)
    ensures k <= |t|
    decreases t
  {
    if t == [] then 0
    else if t[0] == ESC then 1 + Cut(u, t[1..], true, s, limit)
    else if inAnsi then 1 + Cut(u, t[1..], t[0] != 'm', s, limit)
    else if Upgrades(s, t[0]) || s.width + CharWidth(u, t[0]) <= limit then
      1 + Cut(u, t[1..], false, Step(u, s, t[0]), limit)
    else 0
  }

  const DOTS := "..."

  function Truncated(u: Ucd, text: string, maxWidth: int): string {
    if maxWidth <= 3 then DOTS
    else
      var k := Cut(u, text, false, START, maxWidth - 3);
      if k == |text| then text else text[..k] + DOTS
  }

  method TruncateAnsi(u: Ucd, text: string, maxWidth: int) returns (r: string)
    ensures r == Truncated(u, text, maxWidth)
  {
    if maxWidth <= 3 {
      return DOTS;
    }
    var limit: nat := maxWidth - 3;
    var visible: nat, prev, inAnsi := 0, NUL, false;
    var result: string := [];
    for i := 0 to |text|
      invariant result == text[..i]
      invariant Cut(u, text, false, START, limit) == i + Cut(u, text[i..], inAnsi, Scan(visible, prev), limit)
    {
      var c := text[i];
      assert text[i..][0] == c && text[i..][1..] == text[i + 1..] && text[..i + 1] == text[..i] + [c];
      if c == ESC {
        inAnsi := true;
        result := result + [c];
      } else if inAnsi {
        result := result + [c];
        if c == 'm' {
          inAnsi := false;
        }
      } else {
        if c == VS16 && prev != NUL && prev as int < 0x10000 {
          if !u.wide(prev) {
            visible := visible + 1;
          }
          result := result + [c];
          prev := c;
          continue;
        }
        var w := CharWidth(u, c);
        if visible + w <= limit {
          result := result + [c];
          visible := visible + w;
          if w > 0 {
            prev := c;
          }
        } else {
          result := result + DOTS;
          return result;
        }
      }
    }
    return text;
  }

  lemma {:induction false} CutInside(u: Ucd, t: string, n: nat, s: Scan, limit: nat)
    requires n < |t| && t[n] == 'm' && forall i | 0 <= i < n :: IsParam(t[i]) || t[i] == '['
    ensures Cut(u, t, true, s, limit) == n + 1 + Cut(u, t[n + 1..], false, s, limit)
    decreases n
  {
    if n > 0 {
      CutInside(u, t[1..], n - 1, s, limit);
      assert t[1..][n..] == t[n + 1..];
    }
  }

  /** An escape sequence takes no columns and is kept whole. */
  lemma CutEscape(u: Ucd, t: string, s: Scan, limit: nat)
    requires MatchAnsi(t) > 0
    ensures Cut(u, t, false, s, limit) == MatchAnsi(t) + Cut(u, t[MatchAnsi(t)..], false, s, limit)
  {
    var n := MatchAnsi(t);
    CutInside(u, t[1..], n - 2, s, limit);
    assert t[1..][n - 1..] == t[n..];
  }

  ghost predicate CutIsRight(u: Ucd, t: string, s: Scan, limit: nat, k: nat)
    requires k <= |t|
  {
    var at := ScanText(u, Strip(t[..k]), s);
    && WellFormed(t[..k]) && WellFormed(t[k..])
    && (k < |t| ==> t[k] != ESC && !Upgrades(at, t[k]) && at.width + CharWidth(u, t[k]) > limit)
    && (NoVs16(t) && s.width <= limit ==> at.width <= limit)
  }

  lemma CutAfterEscape(u: Ucd, t: string, s: Scan, limit: nat, k: nat)
    requires WellFormed(t) && MatchAnsi(t) > 0 && MatchAnsi(t) <= k <= |t|
    requires CutIsRight(u, t[MatchAnsi(t)..], s, limit, k - MatchAnsi(t))
    ensures CutIsRight(u, t, s, limit, k)
  {
    hide MatchAnsi, Upgrades, CharWidth;
    var n := MatchAnsi(t);
    PrefixMatches(t, k);
    assert t[..k][n..] == t[n..][..k - n];
    assert t[n..][k - n..] == t[k..];
    assert NoVs16(t) ==> NoVs16(t[n..]);
  }

  lemma CutAfterChar(u: Ucd, t: string, s: Scan, limit: nat, k: nat)
    requires t != [] && t[0] != ESC && 1 <= k <= |t|
    requires Upgrades(s, t[0]) || s.width + CharWidth(u, t[0]) <= limit
    requires CutIsRight(u, t[1..], Step(u, s, t[0]), limit, k - 1)
    ensures CutIsRight(u, t, s, limit, k)
  {
    hide CharWidth;
    var s1 := Step(u, s, t[0]);
    assert t[..k][0] == t[0] && t[..k][1..] == t[1..][..k - 1];
    assert t[1..][k - 1..] == t[k..];
    assert MatchAnsi(t[..k]) == 0;
    assert Strip(t[..k]) == [t[0]] + Strip(t[1..][..k - 1]);
    assert ScanText(u, Strip(t[..k]), s) == ScanText(u, Strip(t[1..][..k - 1]), s1);
    assert NoVs16(t) ==> NoVs16(t[1..]) && t[0] != VS16;
  }

  /** The kept prefix is well formed, and the running count at the cut is its width; the next character, if
      any, is a visible one that does not fit. */
  lemma {:induction false} CutMeaning(u: Ucd, t: string, s: Scan, limit: nat)
    requires WellFormed(t)
    ensures CutIsRight(u, t, s, limit, Cut(u, t, false, s, limit))
    decreases t
  {
    hide CutIsRight, MatchAnsi, Upgrades, CharWidth, Strip, ScanText, Step;
    if t != [] {
      var k := Cut(u, t, false, s, limit);
      if t[0] == ESC {
        CutEscape(u, t, s, limit);
        CutMeaning(u, t[MatchAnsi(t)..], s, limit);
        CutAfterEscape(u, t, s, limit, k);
      } else if k > 0 {
        CutMeaning(u, t[1..], Step(u, s, t[0]), limit);
        CutAfterChar(u, t, s, limit, k);
      } else {
        CutAtStart(u, t, s, limit);
      }
    } else {
      CutOfNothing(u, t, s, limit);
    }
  }

  lemma CutOfNothing(u: Ucd, t: string, s: Scan, limit: nat)
    requires t == []
    ensures CutIsRight(u, t, s, limit, 0)
  {
    assert t[..0] == t && t[0..] == t;
  }

  lemma CutAtStart(u: Ucd, t: string, s: Scan, limit: nat)
    requires WellFormed(t) && t != [] && t[0] != ESC && !Upgrades(s, t[0]) && s.width + CharWidth(u, t[0]) > limit
    ensures CutIsRight(u, t, s, limit, 0)
  {
    assert t[..0] == [] && t[0..] == t;
  }

  lemma PrefixMatches(t: string, k: nat)
    requires MatchAnsi(t) > 0 && MatchAnsi(t) <= k <= |t|
    ensures MatchAnsi(t[..k]) == MatchAnsi(t)
  {
    var n := MatchAnsi(t) - 3;
    ParamsLenIs(t[..k][2..], n);
  }
}
