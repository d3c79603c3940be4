/** What a merge promises: undoing it, repeating it, and predicting it. */
module SettingsRoundTrip {
  import opened Wrappers
  import opened Json
  import opened SettingsModel

  // ----- append-and-dedupe

  predicate NoRepeats(xs: seq<Json>) {
    forall i, j | 0 <= i < j < |xs| :: xs[i] != xs[j]
  }

  lemma NoRepeatsCons(x: Json, xs: seq<Json>)
    requires x !in xs && NoRepeats(xs)
    ensures NoRepeats([x] + xs)
  {
    var r := [x] + xs;
    assert forall i | 0 < i < |r| :: r[i] == xs[i - 1];
  }

  /** What is recorded was not there, is recorded once, and together with what was there covers the template. */
  lemma {:induction false} AdditionsAreNew(existing: seq<Json>, values: seq<Json>)
    ensures forall x | x in Additions(existing, values) :: x !in existing && x in values
    ensures forall v | v in values :: v in existing || v in Additions(existing, values)
    ensures NoRepeats(Additions(existing, values))
    decreases values
  {
    hide NoRepeats;
    if values == [] {
      assert NoRepeats([]) by { NothingRepeats(); }
    } else if values[0] in existing {
      AdditionsAreNew(existing, values[1..]);
    } else {
      AdditionsAreNew(existing + [values[0]], values[1..]);
      assert values[0] in existing + [values[0]];
      NoRepeatsCons(values[0], Additions(existing + [values[0]], values[1..]));
    }
  }

  lemma NothingRepeats()
    ensures NoRepeats([])
  {
  }

  lemma AdditionsEmpty(existing: seq<Json>, values: seq<Json>)
    ensures Additions(existing, values) == [] <==> forall v | v in values :: v in existing
  {
    AdditionsAreNew(existing, values);
    if Additions(existing, values) != [] {
      var x := Additions(existing, values)[0];
      assert x in values && x !in existing;
    }
  }

  lemma {:induction false} WithoutConcat(n: SectionName, xs: seq<Json>, ys: seq<Json>, removed: seq<Json>)
    ensures Without(n, xs + ys, removed) == Without(n, xs, removed) + Without(n, ys, removed)
  {
    hide Keeps;
    if xs == [] {
      assert xs + ys == ys;
    } else {
      var head := if Keeps(n, xs[0], removed) then [xs[0]] else [];
      assert (xs + ys)[0] == xs[0] && (xs + ys)[1..] == xs[1..] + ys;
      WithoutConcat(n, xs[1..], ys, removed);
      assert Without(n, xs + ys, removed) == head + (Without(n, xs[1..], removed) + Without(n, ys, removed));
    }
  }

  lemma {:induction false} WithoutKeepsAll(n: SectionName, xs: seq<Json>, removed: seq<Json>)
    requires forall x | x in xs :: Keeps(n, x, removed)
    ensures Without(n, xs, removed) == xs
  {
    if xs != [] { WithoutKeepsAll(n, xs[1..], removed); }
  }

  lemma {:induction false} WithoutKeepsNone(n: SectionName, xs: seq<Json>, removed: seq<Json>)
    requires forall x | x in xs :: !Keeps(n, x, removed)
    ensures Without(n, xs, removed) == []
  {
    if xs != [] { WithoutKeepsNone(n, xs[1..], removed); }
  }

  /** Filtering the additions back out of an extended list leaves exactly the old list. */
  lemma ListRestored(n: SectionName, existing: seq<Json>, values: seq<Json>)
    requires ValuesFit(n, values)
    requires n == Permissions ==> forall x | x in existing :: Hashable(x)
    requires n != Env
    ensures var a := Additions(existing, values); Without(n, existing + a, a) == existing
  {
    var a := Additions(existing, values);
    AdditionsAreNew(existing, values);
    assert forall x | x in existing :: Keeps(n, x, a) by {
      assert n == Permissions ==> forall x, y | x in existing && y in a :: !PyEq(x, y);
    }
    forall x | x in a ensures !Keeps(n, x, a) {
      PyEqReflexive(x);
    }
    WithoutConcat(n, existing, a, a);
    WithoutKeepsAll(n, existing, a);
    WithoutKeepsNone(n, a, a);
  }

  // ----- what the entries of a merge say about each path

  lemma {:induction false} ValuesAtConcat(a: seq<Entry>, b: seq<Entry>, path: KeyPath)
    ensures ValuesAt(a + b, path) == ValuesAt(a, path) + ValuesAt(b, path)
  {
    if a == [] {
      assert a + b == b;
    } else {
      var head := if a[0].path == path then [a[0].value] else [];
      assert (a + b)[0] == a[0] && (a + b)[1..] == a[1..] + b;
      ValuesAtConcat(a[1..], b, path);
      assert ValuesAt(a + b, path) == head + (ValuesAt(a[1..], path) + ValuesAt(b, path));
    }
  }

  lemma {:induction false} ValuesAtTracks(entries: seq<Entry>, path: KeyPath)
    ensures ValuesAt(entries, path) != [] <==> Tracks(entries, path)
  {
    if entries != [] {
      ValuesAtTracks(entries[1..], path);
      assert entries == [entries[0]] + entries[1..];
      if Tracks(entries, path) && entries[0].path != path {
        var e :| e in entries && e.path == path;
        assert e in entries[1..];
      }
    }
  }

  lemma DistinctTail(names: seq<string>)
    requires Distinct(names) && names != []
    ensures Distinct(names[1..]) && names[0] !in names[1..]
  {}

  lemma {:induction false} ValuesAtList(n: SectionName, name: string, values: seq<Json>, path: KeyPath)
    ensures ValuesAt(ListEntries(n, name, values), path) == if path == InSection(n, name) then values else []
    decreases values
  {
    if values != [] {
      assert ListEntries(n, name, values)[1..] == ListEntries(n, name, values[1..]);
      ValuesAtList(n, name, values[1..], path);
    }
  }

  lemma {:induction false} ValuesAtSection(
      n: SectionName, names: seq<string>, section: Dict, lists: map<string, seq<Json>>, path: KeyPath)
    requires forall t | t in names :: t in lists
    requires Distinct(names)
    ensures ValuesAt(SectionEntries(n, names, section, lists), path)
         == if path.InSection? && path.section == n && path.name in names
            then Additions(ListAt(section, path.name), lists[path.name]) else []
  {
    if names != [] {
      var first := Additions(ListAt(section, names[0]), lists[names[0]]);
      DistinctTail(names);
      ValuesAtSection(n, names[1..], section, lists, path);
      ValuesAtList(n, names[0], first, path);
      ValuesAtConcat(ListEntries(n, names[0], first), SectionEntries(n, names[1..], section, lists), path);
      assert names == [names[0]] + names[1..];
    }
  }

  lemma {:induction false} ValuesAtEnv(names: seq<string>, env: Dict, path: KeyPath)
    requires forall k | k in names :: k in env
    requires Distinct(names)
    ensures ValuesAt(EnvEntries(names, env), path)
         == if path.InSection? && path.section == Env && path.name in names then [env[path.name]] else []
  {
    if names != [] {
      assert EnvEntries(names, env)[1..] == EnvEntries(names[1..], env);
      DistinctTail(names);
      ValuesAtEnv(names[1..], env, path);
    }
  }

  function RecordedIn(section: Dict, lists: map<string, seq<Json>>, t: string): seq<Json> {
    if t in lists then Additions(ListAt(section, t), lists[t]) else []
  }

  function RecordedScalar(k: string, v: Option<Json>): seq<Json> {
    if k == STATUS_LINE && v.Some? then [v.value] else []
  }

  /** What a merge records at a path, said without the entry list. */
  function RecordedAt(s: Settings, p: Preset, o: MergeOptions, path: KeyPath): seq<Json> {
    match path
    case InSection(Env, k) => if k in p.env then [Str(p.env[k])] else []
    case InSection(n, t) => RecordedIn(Section(s, n), MergedLists(p, o, n), t)
    case TopLevel(k) => RecordedScalar(k, NewStatusLine(s, p, o))
  }

  lemma ValuesAtFour(a: seq<Entry>, b: seq<Entry>, c: seq<Entry>, d: seq<Entry>, path: KeyPath)
    ensures ValuesAt(a + b + c + d, path)
         == ValuesAt(a, path) + ValuesAt(b, path) + ValuesAt(c, path) + ValuesAt(d, path)
  {
    ValuesAtConcat(a + b + c, d, path);
    ValuesAtConcat(a + b, c, path);
    ValuesAtConcat(a, b, path);
  }

  lemma ListSectionValues(s: Settings, p: Preset, o: MergeOptions, n: SectionName, path: KeyPath)
    requires n != Env
    ensures ValuesAt(ListSectionEntries(s, p, o, n), path)
         == if path.InSection? && path.section == n then RecordedAt(s, p, o, path) else []
  {
    hide ListNames, MergedLists, SectionEntries, ValuesAt;
    var lists := MergedLists(p, o, n);
    ValuesAtSection(n, ListNames(p, o, n), Section(s, n), lists, path);
  }

  lemma ScalarEntriesValues(v: Option<Json>, path: KeyPath)
    ensures ValuesAt(ScalarEntries(STATUS_LINE, v), path) == if path.TopLevel? then RecordedScalar(path.key, v) else []
  {
    if v.Some? {
      assert ScalarEntries(STATUS_LINE, v)[1..] == [];
    }
  }

  /** The entries of a merge, path by path: exactly the additions, the new scalar, and every env value. */
  lemma MergeEntriesValues(s: Settings, p: Preset, o: MergeOptions, path: KeyPath)
    ensures ValuesAt(MergeEntries(s, p, o), path) == RecordedAt(s, p, o, path)
  {
    hide ValuesAt, ListSectionEntries, ScalarEntries, EnvEntries, EnvNames, MergedLists, NewStatusLine, RecordedIn,
      RecordedScalar;
    var sl := NewStatusLine(s, p, o);
    ValuesAtFour(ListSectionEntries(s, p, o, Hooks), ListSectionEntries(s, p, o, Permissions),
                 ScalarEntries(STATUS_LINE, sl), EnvEntries(EnvNames(p), EnvValues(p)), path);
    ListSectionValues(s, p, o, Hooks, path);
    ListSectionValues(s, p, o, Permissions, path);
    ScalarEntriesValues(sl, path);
    ValuesAtEnv(EnvNames(p), EnvValues(p), path);
  }

  lemma EntriesOkConcat(a: seq<Entry>, b: seq<Entry>)
    requires EntriesOk(a) && EntriesOk(b)
    ensures EntriesOk(a + b)
  {}

  lemma {:induction false} SectionEntriesOk(
      n: SectionName, names: seq<string>, section: Dict, lists: map<string, seq<Json>>)
    requires forall t | t in names :: t in lists && ValuesFit(n, lists[t])
    requires n != Env
    ensures EntriesOk(SectionEntries(n, names, section, lists))
  {
    if names != [] {
      var first := Additions(ListAt(section, names[0]), lists[names[0]]);
      SectionEntriesOk(n, names[1..], section, lists);
      AdditionsAreNew(ListAt(section, names[0]), lists[names[0]]);
      assert ValuesFit(n, first);
      forall e | e in ListEntries(n, names[0], first) ensures EntryOk(e) {
        assert e.value in first;
      }
      EntriesOkConcat(ListEntries(n, names[0], first), SectionEntries(n, names[1..], section, lists));
    }
  }

  lemma ListsValuesFit(p: Preset, o: MergeOptions, n: SectionName)
    requires PresetOk(p)
    ensures forall t | t in MergedLists(p, o, n) :: ValuesFit(n, MergedLists(p, o, n)[t])
  {}

  lemma ListSectionEntriesOk(s: Settings, p: Preset, o: MergeOptions, n: SectionName)
    requires PresetOk(p) && n != Env
    ensures EntriesOk(ListSectionEntries(s, p, o, n))
  {
    hide ListNames, MergedLists, ValuesFit, SectionEntries, EntryOk;
    var lists := MergedLists(p, o, n);
    ListsValuesFit(p, o, n);
    SectionEntriesOk(n, ListNames(p, o, n), Section(s, n), lists);
  }

  lemma MergeEntriesOk(s: Settings, p: Preset, o: MergeOptions)
    requires PresetOk(p)
    ensures EntriesOk(MergeEntries(s, p, o))
  {
    hide ListSectionEntries, EnvNames, NewStatusLine;
    ListSectionEntriesOk(s, p, o, Hooks);
    ListSectionEntriesOk(s, p, o, Permissions);
    assert EntriesOk(ScalarEntries(STATUS_LINE, NewStatusLine(s, p, o)));
    assert EntriesOk(EnvEntries(EnvNames(p), EnvValues(p)));
  }

  // ----- the added file, path by path

  function Last(xs: seq<Json>): Json
    requires xs != []
  {
    xs[|xs| - 1]
  }

  predicate HoldsAt(added: Settings, path: KeyPath, values: seq<Json>) {
    match path
    case InSection(Env, k) =>
      (k in Section(added, Env) <==> values != []) && (values != [] ==> Section(added, Env)[k] == Last(values))
    case InSection(n, t) =>
      (t in Section(added, n) <==> values != []) && (values != [] ==> Section(added, n)[t] == Arr(values))
    case TopLevel(k) =>
      (k in added.others <==> values != []) && (values != [] ==> added.others[k] == Last(values))
  }

  lemma AddEntryHolds(added: Settings, e: Entry, path: KeyPath, values: seq<Json>)
    requires EntryOk(e) && HoldsAt(added, path, values)
    ensures HoldsAt(AddEntry(added, e), path, if e.path == path then values + [e.value] else values)
  {}

  lemma {:induction false} AddedAt(entries: seq<Entry>, path: KeyPath)
    requires EntriesOk(entries)
    ensures HoldsAt(AddedStructure(entries), path, ValuesAt(entries, path))
  {
    if entries != [] {
      hide HoldsAt, AddEntry, EntryOk;
      var n := |entries| - 1;
      var e := entries[n];
      var before := ValuesAt(entries[..n], path);
      AddedAt(entries[..n], path);
      assert entries == entries[..n] + [e];
      ValuesAtConcat(entries[..n], [e], path);
      assert [e][1..] == [];
      assert ValuesAt(entries, path) == if e.path == path then before + [e.value] else before;
      AddEntryHolds(AddedStructure(entries[..n]), e, path, before);
    }
  }

  predicate PresentIffNonEmpty(s: Settings) {
    && SectionsAreObjects(s)
    && (s.hooks.Some? <==> Section(s, Hooks) != map[])
    && (s.permissions.Some? <==> Section(s, Permissions) != map[])
    && (s.env.Some? <==> Section(s, Env) != map[])
  }

  lemma AddEntryShape(added: Settings, e: Entry)
    requires EntryOk(e) && PresentIffNonEmpty(added)
    ensures PresentIffNonEmpty(AddEntry(added, e)) && AddEntry(added, e) != EMPTY
  {
    hide ListAt, Elements;
    var after := AddEntry(added, e);
    match e.path
    case InSection(n, t) => assert t in Section(after, n);
    case TopLevel(key) => assert key in after.others;
  }

  lemma {:induction false} AddedShape(entries: seq<Entry>)
    requires EntriesOk(entries)
    ensures PresentIffNonEmpty(AddedStructure(entries))
    ensures AddedStructure(entries) == EMPTY <==> entries == []
  {
    if entries != [] {
      hide AddEntry, PresentIffNonEmpty;
      var n := |entries| - 1;
      AddedShape(entries[..n]);
      AddEntryShape(AddedStructure(entries[..n]), entries[n]);
    }
  }

  lemma AddedIsOk(entries: seq<Entry>)
    requires EntriesOk(entries)
    ensures AddedOk(AddedStructure(entries))
  {
    AddedShape(entries);
    forall n, t | n in {Hooks, Permissions} && t in Section(AddedStructure(entries), n)
      ensures Section(AddedStructure(entries), n)[t].Arr?
    {
      AddedAt(entries, InSection(n, t));
    }
  }

  // ----- enable, then unmerge

  predicate SameAt(a: Dict, b: Dict, k: string) {
    (k in a <==> k in b) && (k in a ==> a[k] == b[k])
  }

  lemma MapsEqual(a: Dict, b: Dict)
    requires forall k :: SameAt(a, b, k)
    ensures a == b
  {
    forall k ensures k in a <==> k in b { assert SameAt(a, b, k); }
    forall k | k in a ensures a[k] == b[k] { assert SameAt(a, b, k); }
  }

  /** Cleaning compares sections by their truthy part and everything else as it is. */
  lemma CleanedEqual(a: Settings, b: Settings)
    requires SectionsAreObjects(a) && SectionsAreObjects(b)
    ensures Cleaned(a) == Cleaned(b) <==>
      (forall n :: CleanSection(Section(a, n)) == CleanSection(Section(b, n))) && a.others == b.others
  {
    assert forall n ::
      CleanPart(a, n) == CleanPart(b, n) <==> CleanSection(Section(a, n)) == CleanSection(Section(b, n));
    if Cleaned(a) == Cleaned(b) {
      assert forall n :: CleanPart(a, n) == Part(Cleaned(a), n) && CleanPart(b, n) == Part(Cleaned(b), n);
    }
  }

  lemma ExtendedByNothing(section: Dict)
    ensures Extended(section, map[]) == section
  {}

  lemma ExtendSectionParts(s: Settings, n: SectionName, lists: map<string, seq<Json>>)
    ensures var m := ExtendSection(s, n, lists);
      && (SectionsAreObjects(s) ==> SectionsAreObjects(m)) && m.others == s.others
      && Section(m, n) == Extended(Section(s, n), lists)
      && forall k | k != n :: Section(m, k) == Section(s, k)
  {
    ExtendedByNothing(Section(s, n));
  }

  lemma BothListSections(s: Settings, hooks: map<string, seq<Json>>, permissions: map<string, seq<Json>>)
    ensures var m := ExtendSection(ExtendSection(s, Hooks, hooks), Permissions, permissions);
      && (SectionsAreObjects(s) ==> SectionsAreObjects(m)) && m.others == s.others
      && Section(m, Hooks) == Extended(Section(s, Hooks), hooks)
      && Section(m, Permissions) == Extended(Section(s, Permissions), permissions)
      && Section(m, Env) == Section(s, Env)
  {
    ExtendSectionParts(s, Hooks, hooks);
    ExtendSectionParts(ExtendSection(s, Hooks, hooks), Permissions, permissions);
  }

  lemma WithEnvParts(s: Settings, env: Dict)
    ensures var m := WithEnv(s, env);
      && (SectionsAreObjects(s) ==> SectionsAreObjects(m)) && m.others == s.others
      && m.hooks == s.hooks && m.permissions == s.permissions
      && Section(m, Env) == Section(s, Env) + env
  {
    assert env == map[] ==> Section(s, Env) + env == Section(s, Env);
  }

  /** The merged settings, section by section. */
  lemma MergedParts(s: Settings, p: Preset, o: MergeOptions)
    ensures var m := Merged(s, p, o);
      && (SectionsAreObjects(s) ==> SectionsAreObjects(m))
      && Section(m, Hooks) == Extended(Section(s, Hooks), MergedLists(p, o, Hooks))
      && Section(m, Permissions) == Extended(Section(s, Permissions), MergedLists(p, o, Permissions))
      && Section(m, Env) == Section(s, Env) + EnvValues(p)
      && m.others == WithScalar(s.others, STATUS_LINE, NewStatusLine(s, p, o))
  {
    hide MergedLists, NewStatusLine, Extended, EnvValues, ExtendSection, WithEnv;
    BothListSections(s, MergedLists(p, o, Hooks), MergedLists(p, o, Permissions));
    var lists := WithLists(s, p, o);
    WithEnvParts(lists.(others := WithScalar(s.others, STATUS_LINE, NewStatusLine(s, p, o))), EnvValues(p));
  }

  predicate RecordsIn(section: Dict, lists: map<string, seq<Json>>, added: Dict, t: string) {
    && (t in added <==> RecordedIn(section, lists, t) != [])
    && (t in added ==> added[t] == Arr(RecordedIn(section, lists, t)))
  }

  lemma ListAtList(section: Dict, t: string)
    ensures t in section && section[t].Arr? ==> ListAt(section, t) == section[t].items
    ensures t !in section ==> ListAt(section, t) == []
  {
  }

  /** Something is appended only to a list. */
  lemma AppendedToList(n: SectionName, section: Dict, t: string, values: seq<Json>)
    requires ListFits(section, n, t, values) && Additions(ListAt(section, t), values) != []
    ensures t in section ==> section[t] == Arr(ListAt(section, t))
  {
    AdditionsEmpty(ListAt(section, t), values);
    ListAtList(section, t);
    hide ListAt, Additions;
  }

  lemma ExtendedAt(section: Dict, lists: map<string, seq<Json>>, t: string)
    ensures t in Extended(section, lists) <==> t in section || t in lists
    ensures t in section && (t in lists ==> RecordedIn(section, lists, t) == [])
      ==> Extended(section, lists)[t] == section[t]
    ensures t in lists && (t !in section || RecordedIn(section, lists, t) != []) ==>
      Extended(section, lists)[t] == Arr(ListAt(section, t) + RecordedIn(section, lists, t))
  {
    hide ListAt, Additions;
  }

  lemma ListRestoredAt(n: SectionName, section: Dict, lists: map<string, seq<Json>>, added: Dict, t: string)
    requires t in lists && ListFits(section, n, t, lists[t]) && ValuesFit(n, lists[t]) && n != Env
    requires RecordsIn(section, lists, added, t)
    ensures SameAt(CleanSection(UnmergedLists(n, Extended(section, lists), added)), CleanSection(section), t)
  {
    hide ListAt, Additions, Without, Extended, ListFits, ValuesFit, Truthy;
    var l, a := ListAt(section, t), RecordedIn(section, lists, t);
    ListItemsFit(n, section, t, lists[t]);
    ListRestored(n, l, lists[t]);
    ListAtList(section, t);
    ListAtList(added, t);
    ExtendedAt(section, lists, t);
    assert !Truthy(Arr([])) by { FalsyList(); }
    if a != [] {
      AppendedToList(n, section, t, lists[t]);
    }
    assert l + [] == l;
  }

  lemma FalsyList()
    ensures !Truthy(Arr([]))
  {
  }

  lemma ListItemsFit(n: SectionName, section: Dict, t: string, values: seq<Json>)
    requires ListFits(section, n, t, values)
    ensures n == Permissions ==> forall x | x in ListAt(section, t) :: Hashable(x)
  {
  }

  lemma ListSectionRestored(n: SectionName, section: Dict, lists: map<string, seq<Json>>, added: Dict)
    requires ListsFit(section, n, lists) && (forall t | t in lists :: ValuesFit(n, lists[t])) && n != Env
    requires forall t :: RecordsIn(section, lists, added, t)
    ensures CleanSection(UnmergedLists(n, Extended(section, lists), added)) == CleanSection(section)
  {
    var u := UnmergedLists(n, Extended(section, lists), added);
    forall t
      ensures SameAt(CleanSection(u), CleanSection(section), t)
    {
      hide ListAt, Additions, Without, ListFits, ValuesFit;
      if t in lists {
        ListRestoredAt(n, section, lists, added, t);
      } else {
        assert RecordsIn(section, lists, added, t);
      }
    }
    MapsEqual(CleanSection(u), CleanSection(section));
  }

  /** What cleanup leaves of an env value. */
  function Kept(v: Json): Option<Json> {
    if Truthy(v) then Some(v) else None
  }

  lemma EnvRestored(section: Dict, backup: Dict, env: Dict)
    ensures CleanSection(UnmergedEnv(section + env, backup, env)) == CleanSection(section)
       <==> forall k | k in env :: Kept(Get(backup, k)) == Kept(Get(section, k))
  {
    var a, b := CleanSection(UnmergedEnv(section + env, backup, env)), CleanSection(section);
    forall k ensures SameAt(a, b, k) <==> (k in env ==> Kept(Get(backup, k)) == Kept(Get(section, k))) {
      if k in env { PyEqReflexive(env[k]); }
    }
    if forall k | k in env :: Kept(Get(backup, k)) == Kept(Get(section, k)) {
      MapsEqual(a, b);
    } else {
      var k :| k in env && Kept(Get(backup, k)) != Kept(Get(section, k));
      assert !SameAt(a, b, k);
    }
  }

  function Lookup(s: Dict, key: string): Option<Json> {
    if key in s then Some(s[key]) else None
  }

  lemma OthersRestored(others: Dict, backup: Dict, v: Option<Json>, added: Dict)
    requires forall k :: k in added <==> k == STATUS_LINE && v.Some?
    requires v.Some? ==> added[STATUS_LINE] == v.value
    ensures UnmergedOthers(WithScalar(others, STATUS_LINE, v), backup, added) == others
       <==> (v.Some? ==> Backup(backup, STATUS_LINE) == Lookup(others, STATUS_LINE))
  {
    var u := UnmergedOthers(WithScalar(others, STATUS_LINE, v), backup, added);
    if v.Some? {
      DeepEqualsIsIdentity(v.value, v.value);
      if Backup(backup, STATUS_LINE) != Lookup(others, STATUS_LINE) {
        assert !SameAt(u, others, STATUS_LINE);
      }
    }
    if v.Some? ==> Backup(backup, STATUS_LINE) == Lookup(others, STATUS_LINE) {
      forall k ensures SameAt(u, others, k) {}
      MapsEqual(u, others);
    }
  }

  /** The added file of a merge, path by path. */
  lemma AddedByMerge(s: Settings, p: Preset, o: MergeOptions, path: KeyPath)
    requires PresetOk(p)
    ensures HoldsAt(AddedStructure(MergeEntries(s, p, o)), path, RecordedAt(s, p, o, path))
  {
    MergeEntriesOk(s, p, o);
    MergeEntriesValues(s, p, o, path);
    AddedAt(MergeEntries(s, p, o), path);
  }

  lemma AddedParts(s: Settings, p: Preset, o: MergeOptions)
    requires PresetOk(p)
    ensures var added := AddedStructure(MergeEntries(s, p, o));
      && AddedOk(added)
      && (forall n, t | n != Env :: RecordsIn(Section(s, n), MergedLists(p, o, n), Section(added, n), t))
      && Section(added, Env) == EnvValues(p)
      && (forall k :: k in added.others <==> k == STATUS_LINE && NewStatusLine(s, p, o).Some?)
      && (NewStatusLine(s, p, o).Some? ==> added.others[STATUS_LINE] == NewStatusLine(s, p, o).value)
  {
    hide MergedLists, NewStatusLine, AddedStructure, MergeEntries, AddedOk;
    var added := AddedStructure(MergeEntries(s, p, o));
    MergeEntriesOk(s, p, o);
    AddedIsOk(MergeEntries(s, p, o));
    forall n, t | n != Env ensures RecordsIn(Section(s, n), MergedLists(p, o, n), Section(added, n), t) {
      AddedByMerge(s, p, o, InSection(n, t));
    }
    forall k ensures SameAt(Section(added, Env), EnvValues(p), k) {
      AddedByMerge(s, p, o, InSection(Env, k));
    }
    MapsEqual(Section(added, Env), EnvValues(p));
    forall k ensures k in added.others <==> k == STATUS_LINE && NewStatusLine(s, p, o).Some? {
      AddedByMerge(s, p, o, TopLevel(k));
    }
    AddedByMerge(s, p, o, TopLevel(STATUS_LINE));
  }

  /** A smart unmerge touches each section on its own. */
  lemma SmartUnmergedParts(current: Settings, backup: Settings, added: Settings)
    requires SectionsAreObjects(current) && AddedOk(added)
    ensures var r := SmartUnmerged(current, backup, added);
      && SectionsAreObjects(r)
      && (forall n | n != Env :: Section(r, n) == UnmergedLists(n, Section(current, n), Section(added, n)))
      && Section(r, Env) == UnmergedEnv(Section(current, Env), Section(backup, Env), Section(added, Env))
  {}

  lemma NewStatusLineMeaning(s: Settings, p: Preset, o: MergeOptions)
    ensures NewStatusLine(s, p, o).Some? <==> SetsStatusLine(s, p, o)
    ensures SetsStatusLine(s, p, o) ==> NewStatusLine(s, p, o) == p.statusLine
  {}

  /** The backup agrees with the settings wherever the template overrode them. */
  predicate BackupServes(s: Settings, backup: Settings, p: Preset, o: MergeOptions) {
    && (forall k | k in p.env :: Kept(Get(Section(backup, Env), k)) == Kept(Get(Section(s, Env), k)))
    && (SetsStatusLine(s, p, o) ==> Backup(backup.others, STATUS_LINE) == Lookup(s.others, STATUS_LINE))
  }

  /** Enabling and then unmerging gives back the settings up to empty sections, if and only if the backup
      serves. Forced statusLine overrides and env keys the user had set are covered. */
  lemma EnableThenUnmerge(s: Settings, backup: Settings, p: Preset, o: MergeOptions)
    requires PresetOk(p) && SectionsAreObjects(s) && MergeFits(s, p, o)
    ensures var r := SmartUnmerged(Merged(s, p, o), backup, AddedStructure(MergeEntries(s, p, o)));
      SectionsAreObjects(r) && (Cleaned(r) == Cleaned(s) <==> BackupServes(s, backup, p, o))
  {
    hide MergedLists, NewStatusLine, AddedStructure, MergeEntries, Extended, UnmergedLists, UnmergedEnv, Kept, Lookup,
      Backup;
    var m, added := Merged(s, p, o), AddedStructure(MergeEntries(s, p, o));
    var r := SmartUnmerged(m, backup, added);
    MergedParts(s, p, o);
    AddedParts(s, p, o);
    SmartUnmergedParts(m, backup, added);
    forall n | n != Env ensures CleanSection(Section(r, n)) == CleanSection(Section(s, n)) {
      ListsValuesFit(p, o, n);
      ListSectionRestored(n, Section(s, n), MergedLists(p, o, n), Section(added, n));
    }
    EnvRestored(Section(s, Env), Section(backup, Env), EnvValues(p));
    CleanedEqual(r, s);
    OthersRestored(s.others, backup.others, NewStatusLine(s, p, o), added.others);
    NewStatusLineMeaning(s, p, o);
  }

  /** With the settings themselves as backup, the one case lost is a statusLine that is present but null:
      it is overwritten and not put back. */
  lemma OwnBackupServes(s: Settings, p: Preset, o: MergeOptions)
    ensures BackupServes(s, s, p, o)
       <==> !(SetsStatusLine(s, p, o) && STATUS_LINE in s.others && s.others[STATUS_LINE] == Null)
  {
    hide SetsStatusLine;
  }
}
