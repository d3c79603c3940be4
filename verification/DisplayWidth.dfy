/** The visible width of a text, character by character, in the words of the Unicode tables. */
module DisplayWidth {
  import opened AnsiText

  /** Variation selector 15, the joiners and all marks take no column; variation selector 16 is a case of its own. */
  predicate NoColumn(u: Ucd, c: char) {
    c != VS16 && (c in {'\U{FE0E}', '\U{200D}', '\U{200C}'} || u.mark(c))
  }

  function Columns(u: Ucd, c: char): nat {
    if NoColumn(u, c) then 0 else if c as int >= 0x10000 || u.wide(c) then 2 else 1
  }

  lemma CharacterMatchesNothing(c: char)
    requires c != ESC
    ensures WellFormed([c]) && Strip([c]) == [c]
  {
    assert [c][1..] == [];
  }

  lemma ScanOne(u: Ucd, c: char, s: Scan)
    ensures ScanText(u, [c], s) == Step(u, s, c)
  {
    assert [c][1..] == [];
  }

  /** Every character adds its own columns: none, two when it is wide or outside the basic plane, else one. */
  lemma CharacterAdds(u: Ucd, a: string, c: char)
    requires WellFormed(a) && c != ESC && c != VS16
    ensures WellFormed(a + [c]) && VisibleWidth(u, a + [c]) == VisibleWidth(u, a) + Columns(u, c)
  {
    CharacterMatchesNothing(c);
    StripConcat(a, [c]);
    ScanConcat(u, Strip(a), [c], START);
    ScanOne(u, c, ScanText(u, Strip(a), START));
  }

  lemma {:induction false} InvisibleKeepsScan(u: Ucd, zs: string, s: Scan)
    requires forall z | z in zs :: NoColumn(u, z) && z != ESC
    ensures WellFormed(zs) && Strip(zs) == zs && ScanText(u, zs, s) == s
  {
    if zs != [] {
      assert zs[0] in zs && forall z | z in zs[1..] :: z in zs;
      InvisibleKeepsScan(u, zs[1..], s);
      assert zs == [zs[0]] + zs[1..];
    }
  }

  /** A variation selector 16 makes the character before it two columns wide, whatever invisible characters stand
      between: it adds a column after a narrow one of the basic plane and none after any other. */
  lemma SelectorWidens(u: Ucd, a: string, c: char, zs: string)
    requires WellFormed(a) && c !in {ESC, VS16, NUL} && !NoColumn(u, c)
    requires forall z | z in zs :: NoColumn(u, z) && z != ESC
    ensures VisibleWidth(u, a + [c] + zs + [VS16]) == VisibleWidth(u, a) + 2
  {
    hide NoColumn, WellFormed, Strip, ScanText;
    CharacterMatchesNothing(c);
    CharacterMatchesNothing(VS16);
    StripConcat(a, [c]);
    StripConcat(a + [c], zs);
    InvisibleKeepsScan(u, zs, START);
    StripConcat(a + [c] + zs, [VS16]);
    var s0 := ScanText(u, Strip(a), START);
    ScanConcat(u, Strip(a), [c], START);
    ScanOne(u, c, s0);
    ScanConcat(u, Strip(a) + [c], zs, START);
    InvisibleKeepsScan(u, zs, Step(u, s0, c));
    ScanConcat(u, Strip(a) + [c] + zs, [VS16], START);
    ScanOne(u, VS16, Step(u, s0, c));
    SelectorStep(u, c, s0);
  }

  lemma SelectorStep(u: Ucd, c: char, s: Scan)
    requires c !in {ESC, VS16, NUL} && !NoColumn(u, c)
    ensures Step(u, Step(u, s, c), VS16).width == s.width + 2
  {
  }

  /** A colour escape takes no column, wherever it stands and whatever its parameters. */
  lemma EscapeAddsNothing(u: Ucd, a: string, params: string, b: string)
    requires WellFormed(a) && forall p | p in params :: p == ';' || '0' <= p <= '9'
    ensures var e := [ESC, '['] + params + ['m'];
      && WellFormed(a + e)
      && VisibleWidth(u, a + e + b) == VisibleWidth(u, a + b)
  {
    var e := [ESC, '['] + params + ['m'];
    EscapeMatches(params);
    hide Strip, MatchAnsi, WellFormed;
    StripConcat(a, e);
    StripConcat(a + e, b);
    StripConcat(a, b);
    assert Strip(a) + [] + Strip(b) == Strip(a) + Strip(b);
  }

  lemma EscapeMatches(params: string)
    requires forall p | p in params :: p == ';' || '0' <= p <= '9'
    ensures var e := [ESC, '['] + params + ['m'];
      MatchAnsi(e) == |e| && WellFormed(e) && Strip(e) == []
  {
    var e := [ESC, '['] + params + ['m'];
    assert e[2..] == params + ['m'];
    assert forall i | 0 <= i < |params| :: e[2..][i] == params[i] && params[i] in params;
    ParamsLenIs(e[2..], |params|);
    assert MatchAnsi(e) == |e| && e[|e|..] == [];
  }
}
