/** What merging, removing and cleaning mean for each single value of the settings, said without the words of the
    operations themselves. */
module SettingsOutcome {
  import opened Wrappers
  import opened Json
  import opened SettingsModel
  import opened SettingsRoundTrip
  import opened SettingsLaws
  import opened Ordering
  import opened SettingsTwoPaths
  import opened SettingsStore

  // ----- Python's equality

  /** A value with all its numbers and truth values read as floats. */
  function Normal(v: Json): Json {
    match v
    case Bool(b) => Float(if b then 1.0 else 0.0)
    case Int(i) => Float(i as real)
    case Arr(items) => Arr(seq(|items|, i requires 0 <= i < |items| => Normal(items[i])))
    case Obj(fields) => Obj(map k | k in fields :: Normal(fields[k]))
    case _ => v
  }

  /** `==` is identity up to the kind of number, at every depth. */
  lemma {:induction false} PyEqIsNormalIdentity(a: Json, b: Json)
    ensures PyEq(a, b) <==> Normal(a) == Normal(b)
  {
    match (a, b)
    case (Arr(xs), Arr(ys)) =>
      forall i | 0 <= i < |xs| && i < |ys| { PyEqIsNormalIdentity(xs[i], ys[i]); }
      if Normal(a) == Normal(b) {
        assert |xs| == |Normal(a).items| == |ys|;
        forall i | 0 <= i < |xs| ensures PyEq(xs[i], ys[i]) {
          assert Normal(a).items[i] == Normal(b).items[i];
        }
      }
    case (Obj(f), Obj(g)) =>
      forall k | k in f.Keys && k in g.Keys { PyEqIsNormalIdentity(f[k], g[k]); }
      if Normal(a) == Normal(b) {
        assert f.Keys == Normal(a).fields.Keys == g.Keys;
        forall k | k in f.Keys ensures PyEq(f[k], g[k]) {
          assert Normal(a).fields[k] == Normal(b).fields[k];
        }
      }
      if PyEq(a, b) { assert Normal(a).fields == Normal(b).fields; }
    case (_, _) =>
  }

  // ----- which shapes a list of the template goes into

  /** What Python finds by iterating over a value. */
  predicate Yields(v: Json, x: Json) {
    match v
    case Arr(items) => x in items
    case Str(text) => x.Str? && |x.s| == 1 && x.s[0] in text
    case Obj(fields) => x.Str? && x.s in fields
    case _ => false
  }

  lemma ElementsAreYielded(v: Json, x: Json)
    requires Elements(v).Some?
    ensures x in Elements(v).value <==> Yields(v, x)
  {
    match v
    case Str(text) =>
      var cs := seq(|text|, i requires 0 <= i < |text| => [text[i]]);
      StringsHold(cs, x);
      if x.Str? && |x.s| == 1 && x.s[0] in text {
        var i :| 0 <= i < |text| && text[i] == x.s[0];
        assert cs[i] == x.s;
      }
    case Obj(fields) => StringsHold(SortedKeys(fields.Keys), x);
    case _ =>
  }

  lemma YieldsTexts(section: Dict, t: string)
    requires t in section && (section[t].Str? || section[t].Obj?)
    ensures Elements(section[t]).Some?
    ensures forall x :: x in ListAt(section, t) <==> Yields(section[t], x)
    ensures forall x | x in ListAt(section, t) :: Hashable(x)
  {
    forall x ensures x in ListAt(section, t) <==> Yields(section[t], x) {
      ElementsAreYielded(section[t], x);
    }
    hide Elements;
    assert forall x | x in ListAt(section, t) :: Yields(section[t], x);
  }

  /** A list of the template goes into a section that has no value there, or a list, or a text or object that already
      yields everything; permissions moreover need hashable items. */
  lemma ShapesThatMerge(section: Dict, n: SectionName, t: string, values: seq<Json>)
    ensures ListFits(section, n, t, values) <==>
      || t !in section
      || (section[t].Arr? && (n == Permissions ==> forall x | x in section[t].items :: !x.Arr? && !x.Obj?))
      || ((section[t].Str? || section[t].Obj?) && forall v | v in values :: Yields(section[t], v))
  {
    if t in section && (section[t].Str? || section[t].Obj?) {
      YieldsTexts(section, t);
      hide Yields, Elements, ListAt, Hashable;
      assert Holds(ListAt(section, t), values) <==> forall v | v in values :: Yields(section[t], v);
    } else if t in section && section[t].Arr? {
      ItemsOfList(section, t);
    }
  }

  // ----- merging

  /** v is one of the values that the template asks for under one list. */
  predicate Asked(p: Preset, o: MergeOptions, n: SectionName, t: string, v: Json) {
    match n
    case Hooks => o.hooks && t in p.hooks && v in p.hooks[t]
    case Permissions =>
      o.permissions && v.Str? && ((t == "allow" && v.s in p.allow) || (t == "deny" && v.s in p.deny))
    case Env => false
  }

  lemma StringsHold(xs: seq<string>, v: Json)
    ensures v in Strings(xs) <==> v.Str? && v.s in xs
  {
    if v.Str? && v.s in xs {
      var i :| 0 <= i < |xs| && xs[i] == v.s;
      assert Strings(xs)[i] == v;
    }
  }

  lemma AskedIsListed(p: Preset, o: MergeOptions, n: SectionName, t: string, v: Json)
    requires n != Env
    ensures Asked(p, o, n, t, v) <==> t in MergedLists(p, o, n) && v in MergedLists(p, o, n)[t]
  {
    StringsHold(p.allow, v);
    StringsHold(p.deny, v);
  }

  /** A list of the settings after a merge: it holds all that the template asks for, and it is the old value, or the
      old list followed by values asked for that were not in it, each once. */
  lemma MergedListHolds(s: Settings, p: Preset, o: MergeOptions, n: SectionName, t: string)
    requires PresetOk(p) && MergeFits(s, p, o) && n != Env
    ensures var before, after := Section(s, n), Section(Merged(s, p, o), n);
      && (forall v | Asked(p, o, n, t, v) :: t in after && v in ListAt(after, t))
      && (t in before ==> t in after)
      && (t in after && !SameAt(before, after, t) ==>
            && after[t].Arr? && (t in before ==> before[t].Arr?)
            && var was := if t in before then before[t].items else [];
               && was <= after[t].items
               && NoRepeats(after[t].items[|was|..])
               && forall v | v in after[t].items[|was|..] :: Asked(p, o, n, t, v) && v !in was)
  {
    var before, after, lists := Section(s, n), Section(Merged(s, p, o), n), MergedLists(p, o, n);
    MergedSections(s, p, o);
    forall v ensures Asked(p, o, n, t, v) <==> t in lists && v in lists[t] { AskedIsListed(p, o, n, t, v); }
    if t in lists {
      MergeListsFit(s, p, o, n);
      hide Asked, MergedLists, Merged, MergeFits, PresetOk, ValuesFit, Section;
      ExtendedListHolds(n, before, lists, t);
    } else {
      ExtendedAt(before, lists, t);
    }
  }

  lemma MergedSections(s: Settings, p: Preset, o: MergeOptions)
    ensures var m := Merged(s, p, o);
      && Section(m, Hooks) == Extended(Section(s, Hooks), MergedLists(p, o, Hooks))
      && Section(m, Permissions) == Extended(Section(s, Permissions), MergedLists(p, o, Permissions))
      && Section(m, Env) == Section(s, Env) + EnvValues(p)
  {
    var h, l := MergedLists(p, o, Hooks), MergedLists(p, o, Permissions);
    MergedByPart(s, p, o);
    BothListSections(s, h, l);
    ExtendSectionParts(s, Hooks, h);
    hide Merged, MergedLists, Extended, EnvValues, ExtendSection;
    var s1 := ExtendSection(s, Hooks, h);
    assert Section(s1, Hooks) == Section(Merged(s, p, o), Hooks);
    assert Section(ExtendSection(s1, Permissions, l), Permissions) == Section(Merged(s, p, o), Permissions);
    WithEnvSection(s, EnvValues(p));
  }

  lemma WithEnvSection(s: Settings, env: Dict)
    ensures Section(WithEnv(s, env), Env) == Section(s, Env) + env
  {
    if env == map[] { assert Section(s, Env) + env == Section(s, Env); }
  }

  lemma ExtendedListHolds(n: SectionName, section: Dict, lists: map<string, seq<Json>>, t: string)
    requires t in lists && ListFits(section, n, t, lists[t])
    ensures var e := Extended(section, lists);
      && t in e && (forall v | v in lists[t] :: v in ListAt(e, t))
      && (!SameAt(section, e, t) ==>
            && e[t].Arr? && (t in section ==> section[t].Arr?)
            && var was := if t in section then section[t].items else [];
               && was <= e[t].items
               && NoRepeats(e[t].items[|was|..])
               && forall v | v in e[t].items[|was|..] :: v in lists[t] && v !in was)
  {
    var e, items := Extended(section, lists), ListAt(section, t);
    AdditionsAreNew(items, lists[t]);
    ExtendedAt(section, lists, t);
    ListAtList(section, t);
    ListAtList(e, t);
    hide ListAt, Additions, Extended, ListFits;
    if SameAt(section, e, t) { SameListAt(section, e, t); }
    if t in section && RecordedIn(section, lists, t) != [] { AppendedToList(n, section, t, lists[t]); }
  }

  /** Every variable of the template is set, and no other is touched. */
  lemma MergedEnvHolds(s: Settings, p: Preset, o: MergeOptions, k: string)
    ensures var before, after := Section(s, Env), Section(Merged(s, p, o), Env);
      if k in p.env then k in after && after[k] == Str(p.env[k]) else SameAt(after, before, k)
  {
    MergedSections(s, p, o);
    assert k in EnvValues(p) <==> k in p.env;
    hide Merged;
  }

  /** A merge raises a conflict exactly when it is not forced and would replace a status line that is there. */
  lemma ConflictIsForeignStatusLine(s: Settings, p: Preset, o: MergeOptions)
    ensures MergeConflicts(s, p, o) <==>
      && !o.force && o.statusLine && p.statusLine.Some?
      && STATUS_LINE in s.others && s.others[STATUS_LINE] != Null
      && !PyEq(s.others[STATUS_LINE], p.statusLine.value)
  {
    hide PyEq;
  }

  /** A merge sets the status line where it is asked to and the value is another; without force it keeps every status
      line that is not null. No other top-level key changes. */
  lemma MergedStatusLine(s: Settings, p: Preset, o: MergeOptions)
    ensures var m := Merged(s, p, o);
      && (forall k | k != STATUS_LINE :: SameAt(m.others, s.others, k))
      && (if o.statusLine && p.statusLine.Some? && !PyEq(Get(s.others, STATUS_LINE), p.statusLine.value)
          then STATUS_LINE in m.others && m.others[STATUS_LINE] == p.statusLine.value
          else SameAt(m.others, s.others, STATUS_LINE))
      && (!o.force && !MergeConflicts(s, p, o) && Get(s.others, STATUS_LINE) != Null ==>
            m.others == s.others)
  {
    MergedByPart(s, p, o);
    hide PyEq, Merged;
  }

  // ----- removing by entries

  /** A value of a list that the tracked entries take out: a hook that is an object other than {}, or a permission. */
  predicate TakenOut(n: SectionName, entries: seq<Entry>, t: string, x: Json) {
    exists e | e in entries && e.path == InSection(n, t) ::
      if n == Hooks then x.Obj? && x == e.value && x != Obj(map[]) else PyEq(x, e.value)
  }

  lemma {:induction false} ValuesAtMembers(entries: seq<Entry>, path: KeyPath, x: Json)
    ensures x in ValuesAt(entries, path) <==> exists e | e in entries && e.path == path :: e.value == x
  {
    if entries != [] {
      ValuesAtMembers(entries[1..], path, x);
      assert entries == [entries[0]] + entries[1..];
      if e :| e in entries && e.path == path && e.value == x {
        assert e == entries[0] || e in entries[1..];
      }
    }
  }

  lemma {:induction false} RemovableMembers(n: SectionName, xs: seq<Json>, x: Json)
    ensures x in Removable(n, xs) <==> x in xs && (n == Hooks ==> Truthy(x))
  {
    if xs != [] {
      RemovableMembers(n, xs[1..], x);
      assert xs == [xs[0]] + xs[1..];
    }
  }

  lemma TakenOutIsRemovable(n: SectionName, entries: seq<Entry>, t: string, x: Json)
    ensures TakenOut(n, entries, t, x)
       <==> !Keeps(n, x, Removable(n, ValuesAt(entries, InSection(n, t))))
  {
    var path := InSection(n, t);
    var values := ValuesAt(entries, path);
    hide PyEq, ValuesAt, Removable;
    forall y
      ensures y in values <==> exists e | e in entries && e.path == path :: e.value == y
      ensures y in Removable(n, values) <==> y in values && (n == Hooks ==> Truthy(y))
    {
      ValuesAtMembers(entries, path, y);
      RemovableMembers(n, values, y);
    }
    if n != Hooks && TakenOut(n, entries, t, x) {
      var e :| e in entries && e.path == path && PyEq(x, e.value);
      assert e.value in values && e.value in Removable(n, values);
    }
    if n != Hooks && PyIn(x, Removable(n, values)) {
      var y :| y in Removable(n, values) && PyEq(x, y);
      assert y in values;
    }
  }

  /** The fallback takes out of each list what is tracked there, with all its copies, and the rest keeps its order. */
  lemma FallbackFiltersLists(s: Settings, entries: seq<Entry>, n: SectionName, t: string)
    requires n != Env && UnmergeFits(s, entries)
    ensures var before, after := Section(s, n), Section(Unmerged(s, entries), n);
      && (t in after <==> t in before)
      && (t in before && (forall e | e in entries :: e.path != InSection(n, t)) ==> after[t] == before[t])
      && (t in before && before[t].Arr? ==>
            && after[t].Arr? && IsSubsequence(after[t].items, before[t].items)
            && forall x :: multiset(after[t].items)[x]
                 == if TakenOut(n, entries, t, x) then 0 else multiset(before[t].items)[x])
  {
    UnmergedSections(s, entries);
    if t in Section(s, n) {
      hide Unmerged;
      UntrackedListFiltered(n, Section(s, n), entries, t);
    }
  }

  lemma UntrackedListFiltered(n: SectionName, section: Dict, entries: seq<Entry>, t: string)
    requires n != Env && t in section
    ensures var after := UntrackedLists(n, section, entries);
      && t in after
      && ((forall e | e in entries :: e.path != InSection(n, t)) ==> after[t] == section[t])
      && (section[t].Arr? ==>
            && after[t].Arr? && IsSubsequence(after[t].items, section[t].items)
            && forall x :: multiset(after[t].items)[x]
                 == if TakenOut(n, entries, t, x) then 0 else multiset(section[t].items)[x])
  {
    hide Without, Keeps, TakenOut, Elements, PyEq, Removable, ValuesAt;
    if section[t].Arr? {
      var values := Removable(n, ValuesAt(entries, InSection(n, t)));
      WithoutIsFilter(n, section[t].items, values);
      ItselfIsSubsequence(section[t].items);
      forall x
        ensures TakenOut(n, entries, t, x) <==> !Keeps(n, x, values)
        ensures !Tracks(entries, InSection(n, t)) ==> !TakenOut(n, entries, t, x)
      {
        TakenOutIsRemovable(n, entries, t, x);
        if !Tracks(entries, InSection(n, t)) { NothingTakenOut(n, entries, t, x); }
      }
      ItemsOfList(section, t);
      hide IsSubsequence, Tracks;
    }
  }

  lemma ItemsOfList(section: Dict, t: string)
    requires t in section && section[t].Arr?
    ensures Elements(section[t]).Some? && ListAt(section, t) == section[t].items
  {}

  lemma NothingTakenOut(n: SectionName, entries: seq<Entry>, t: string, x: Json)
    requires !Tracks(entries, InSection(n, t))
    ensures !TakenOut(n, entries, t, x)
  {
    hide PyEq;
  }

  lemma {:induction false} ItselfIsSubsequence(xs: seq<Json>)
    ensures IsSubsequence(xs, xs)
  {
    if xs != [] { ItselfIsSubsequence(xs[1..]); }
  }

  lemma UnmergedSections(s: Settings, entries: seq<Entry>)
    ensures var r := Unmerged(s, entries);
      && Section(r, Hooks) == UntrackedLists(Hooks, Section(s, Hooks), entries)
      && Section(r, Permissions) == UntrackedLists(Permissions, Section(s, Permissions), entries)
      && Section(r, Env) == UntrackedEnv(Section(s, Env), entries)
  {
    hide UntrackedLists;
    var nothing: Dict := map[];
    assert UntrackedLists(Hooks, nothing, entries) == nothing by { NothingUntracked(Hooks, entries); }
    assert UntrackedLists(Permissions, nothing, entries) == nothing by { NothingUntracked(Permissions, entries); }
    assert UntrackedEnv(nothing, entries) == nothing;
  }

  lemma NothingUntracked(n: SectionName, entries: seq<Entry>)
    ensures UntrackedLists(n, map[], entries) == map[]
  {}

  /** The fallback takes every tracked variable and top-level key away and keeps every other as it is. */
  lemma FallbackDropsTracked(s: Settings, entries: seq<Entry>, k: string)
    ensures var r := Unmerged(s, entries);
      && (if exists e :: e in entries && e.path == InSection(Env, k)
          then k !in Section(r, Env) else SameAt(Section(r, Env), Section(s, Env), k))
      && (if exists e :: e in entries && e.path == TopLevel(k)
          then k !in r.others else SameAt(r.others, s.others, k))
  {
    UnmergedSections(s, entries);
  }

  // ----- cleaning

  /** Cleaning drops exactly the empty values of the sections, and a section with nothing left. */
  lemma CleanedHolds(s: Settings, n: SectionName, t: string)
    requires SectionsAreObjects(s)
    ensures var c, before := Cleaned(s), Section(s, n);
      && c.others == s.others
      && (t in Section(c, n) <==>
            t in before && before[t] !in {Null, Bool(false), Int(0), Float(0.0), Str(""), Arr([]), Obj(map[])})
      && (t in Section(c, n) ==> Section(c, n)[t] == before[t])
      && (Part(c, n).Some? <==> exists u :: u in Section(c, n))
  {
    var clean := CleanSection(Section(s, n));
    if clean != map[] {
      var u :| u in clean;
      assert Section(Cleaned(s), n) == clean && u in Section(Cleaned(s), n);
    }
    assert Part(Cleaned(s), n) == CleanPart(s, n);
  }

  // ----- the entries a manifest accumulates

  lemma {:induction false} NotRenewedMembers(existing: seq<Entry>, renewals: seq<Entry>, e: Entry)
    ensures e in NotRenewed(existing, renewals) <==> e in existing && !Renewed(e, renewals)
  {
    if existing != [] {
      hide Renewed;
      NotRenewedMembers(existing[1..], renewals, e);
      assert existing == [existing[0]] + existing[1..];
    }
  }

  /** All new entries are recorded; an old one stays unless a new one has its path and its stable id. So of one
      variable or top-level key only the new value is tracked, and of one list both the old and the new values. */
  lemma EntriesAfterInit(renewals: seq<Entry>, existing: seq<Entry>, e: Entry)
    requires EntriesOk(renewals) && EntriesOk(existing)
    ensures e in NextEntries(renewals, existing) <==>
      e in renewals || (e in existing && forall f | f in renewals :: f.path != e.path || f.stableId != e.stableId)
    ensures e in existing && e.path.InSection? && e.path.section != Env ==> e in NextEntries(renewals, existing)
    ensures e in NextEntries(renewals, existing) && !(e.path.InSection? && e.path.section != Env)
      ==> forall f | f in renewals && f.path == e.path :: e in renewals
  {
    NotRenewedMembers(existing, renewals, e);
    if f :| f in renewals && f.path == e.path {
      assert EntryOk(f);
      if e in existing { assert EntryOk(e); }
    }
    assert renewals <= NextEntries(renewals, existing);
    if e in existing && e.path.InSection? && e.path.section != Env && Renewed(e, renewals) {
      var f :| f in renewals && f.path == e.path && f.stableId == e.stableId;
      assert EntryOk(e) && EntryOk(f);
      assert f == e;
    }
  }
}
