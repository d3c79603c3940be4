/** Uninstalling by the added file against uninstalling by the tracking entries. */
module SettingsTwoPaths {
  import opened Wrappers
  import opened Json
  import opened Ordering
  import opened SettingsModel
  import opened SettingsRoundTrip
  import opened SettingsLaws

  const EMPTY_HOOK: Json := Obj(map[])

  lemma {:induction false} RemovableMembers(n: SectionName, xs: seq<Json>)
    ensures forall x :: x in Removable(n, xs) <==> x in xs && (n == Hooks ==> Truthy(x))
  {
    hide Truthy;
    if xs != [] {
      RemovableMembers(n, xs[1..]);
      assert xs == [xs[0]] + xs[1..];
    }
  }

  lemma {:induction false} WithoutSame(n: SectionName, xs: seq<Json>, a: seq<Json>, b: seq<Json>)
    requires forall x | x in xs :: Keeps(n, x, a) <==> Keeps(n, x, b)
    ensures Without(n, xs, a) == Without(n, xs, b)
  {
    hide Keeps;
    if xs != [] {
      assert Keeps(n, xs[0], a) <==> Keeps(n, xs[0], b);
      forall x | x in xs[1..] ensures Keeps(n, x, a) <==> Keeps(n, x, b) { assert x in xs; }
      WithoutSame(n, xs[1..], a, b);
    }
  }

  lemma RemovableKeeps(n: SectionName, x: Json, values: seq<Json>)
    requires n != Env
    ensures Keeps(n, x, Removable(n, values)) <==> Keeps(n, x, values) || (n == Hooks && x == EMPTY_HOOK)
  {
    RemovableMembers(n, values);
    if n != Hooks {
      assert forall y :: y in Removable(n, values) <==> y in values;
    }
  }

  /** The two filters differ only on an empty hook entry, which unmerge leaves in place. */
  lemma FiltersAgree(n: SectionName, xs: seq<Json>, values: seq<Json>)
    requires n != Env
    ensures Without(n, xs, values) == Without(n, xs, Removable(n, values))
       <==> !(n == Hooks && EMPTY_HOOK in values && EMPTY_HOOK in xs)
  {
    var rs := Removable(n, values);
    forall x ensures Keeps(n, x, rs) <==> Keeps(n, x, values) || (n == Hooks && x == EMPTY_HOOK) {
      RemovableKeeps(n, x, values);
    }
    WithoutIsFilter(n, xs, values);
    WithoutIsFilter(n, xs, rs);
    if n == Hooks && EMPTY_HOOK in values && EMPTY_HOOK in xs {
      assert multiset(Without(n, xs, values))[EMPTY_HOOK] == 0;
      assert multiset(Without(n, xs, rs))[EMPTY_HOOK] == multiset(xs)[EMPTY_HOOK] > 0;
    } else {
      WithoutSame(n, xs, values, rs);
    }
  }

  /** Where the two removals of a list differ: an empty hook entry stays, and what is no list any more is turned
      into one. */
  predicate ListPathsDiffer(n: SectionName, section: Dict, entries: seq<Entry>, t: string) {
    && t in section && Tracks(entries, InSection(n, t))
    && if section[t].Arr?
       then n == Hooks && EMPTY_HOOK in section[t].items && EMPTY_HOOK in ValuesAt(entries, InSection(n, t))
       else Truthy(section[t])
  }

  lemma ListLeavesEmptyHook(n: SectionName, xs: seq<Json>, values: seq<Json>)
    requires n == Hooks && EMPTY_HOOK in xs && EMPTY_HOOK in values
    ensures EMPTY_HOOK in Without(n, xs, Removable(n, values)) && Without(n, xs, Removable(n, values)) != []
  {
    var rs := Removable(n, values);
    WithoutIsFilter(n, xs, rs);
    RemovableKeeps(n, EMPTY_HOOK, values);
    assert multiset(Without(n, xs, rs))[EMPTY_HOOK] > 0;
  }

  /** Something falsy has nothing to iterate over. */
  lemma FalsyHasNoElements(v: Json)
    requires !v.Arr? && Elements(v).Some? && !Truthy(v)
    ensures Elements(v).value == []
  {
    match v
    case Str(text) => assert Strings(seq(|text|, i requires 0 <= i < |text| => [text[i]])) == [];
    case Obj(fields) => assert fields.Keys == {}; assert Strings(SortedKeys({})) == [];
  }

  lemma ListPathsAgreeAt(n: SectionName, section: Dict, entries: seq<Entry>, added: Dict, t: string)
    requires n != Env
    requires t in added <==> ValuesAt(entries, InSection(n, t)) != []
    requires t in added ==> added[t] == Arr(ValuesAt(entries, InSection(n, t)))
    requires t in section && Tracks(entries, InSection(n, t)) ==> Elements(section[t]).Some?
    ensures SameAt(CleanSection(UnmergedLists(n, section, added)), CleanSection(UntrackedLists(n, section, entries)), t)
       <==> !ListPathsDiffer(n, section, entries, t)
  {
    hide Without, Removable, ValuesAt, Elements, ListAt;
    var path := InSection(n, t);
    ValuesAtTracks(entries, path);
    if t in section && t in added {
      var values := ValuesAt(entries, path);
      ListAtList(section, t);
      ListAtList(added, t);
      IteratedAt(section, t);
      if section[t].Arr? {
        FiltersAgree(n, section[t].items, values);
        if ListPathsDiffer(n, section, entries, t) {
          ListLeavesEmptyHook(n, section[t].items, values);
        }
      } else if !Truthy(section[t]) {
        FalsyHasNoElements(section[t]);
        NothingWithout(n, ListAt(section, t), Removable(n, values));
      }
    }
  }

  lemma IteratedAt(section: Dict, t: string)
    requires t in section && Elements(section[t]).Some?
    ensures ListAt(section, t) == Elements(section[t]).value
  {
  }

  lemma NothingWithout(n: SectionName, xs: seq<Json>, removed: seq<Json>)
    requires xs == []
    ensures Without(n, xs, removed) == []
  {
  }

  lemma ListPathsAgree(n: SectionName, section: Dict, entries: seq<Entry>, added: Dict)
    requires n != Env
    requires forall t ::
      && (t in added <==> ValuesAt(entries, InSection(n, t)) != [])
      && (t in added ==> added[t] == Arr(ValuesAt(entries, InSection(n, t))))
    requires TrackedListsFit(n, section, entries)
    ensures CleanSection(UnmergedLists(n, section, added)) == CleanSection(UntrackedLists(n, section, entries))
       <==> forall t | t in section :: !ListPathsDiffer(n, section, entries, t)
  {
    hide UnmergedLists, UntrackedLists, ValuesAt, ListPathsDiffer, Elements, ListAt;
    var a, b := CleanSection(UnmergedLists(n, section, added)), CleanSection(UntrackedLists(n, section, entries));
    forall t ensures SameAt(a, b, t) <==> !ListPathsDiffer(n, section, entries, t) {
      ListPathsAgreeAt(n, section, entries, added, t);
    }
    if forall t | t in section :: !ListPathsDiffer(n, section, entries, t) {
      forall t ensures SameAt(a, b, t) { NoDifferenceOutside(n, section, entries, t); }
      MapsEqual(a, b);
    }
  }

  lemma NoDifferenceOutside(n: SectionName, section: Dict, entries: seq<Entry>, t: string)
    ensures t !in section ==> !ListPathsDiffer(n, section, entries, t)
  {}

  /** What a smart unmerge leaves at a tracked env key. */
  function SmartEnvLeft(section: Dict, backup: Dict, added: Dict, k: string): Json
    requires k in section
  {
    if UntouchedEnv(section, added, k) then Get(backup, k) else section[k]
  }

  lemma EnvPathsAgree(section: Dict, backup: Dict, entries: seq<Entry>, added: Dict)
    requires forall k :: k in added <==> Tracks(entries, InSection(Env, k))
    ensures CleanSection(UnmergedEnv(section, backup, added)) == CleanSection(UntrackedEnv(section, entries))
       <==> forall k | k in section && k in added :: !Truthy(SmartEnvLeft(section, backup, added, k))
  {
    hide PyEq, Tracks;
    var a, b := CleanSection(UnmergedEnv(section, backup, added)), CleanSection(UntrackedEnv(section, entries));
    forall k
      ensures SameAt(a, b, k) <==> !(k in section && k in added && Truthy(SmartEnvLeft(section, backup, added, k)))
    {}
    if forall k | k in section && k in added :: !Truthy(SmartEnvLeft(section, backup, added, k)) {
      MapsEqual(a, b);
    }
  }

  predicate ScalarGoesAway(others: Dict, backup: Dict, added: Dict, k: string) {
    k in others && k in added ==> others[k] == added[k] && Get(backup, k) == Null
  }

  lemma OtherPathsAgree(others: Dict, backup: Dict, entries: seq<Entry>, added: Dict)
    requires forall k :: k in added <==> Tracks(entries, TopLevel(k))
    ensures UnmergedOthers(others, backup, added) == UntrackedOthers(others, entries)
       <==> forall k | k in others && k in added :: ScalarGoesAway(others, backup, added, k)
  {
    hide Tracks, DeepEquals;
    var a, b := UnmergedOthers(others, backup, added), UntrackedOthers(others, entries);
    forall k ensures SameAt(a, b, k) <==> ScalarGoesAway(others, backup, added, k) {
      if k in others && k in added { DeepEqualsIsIdentity(others[k], added[k]); }
    }
    if forall k | k in others && k in added :: ScalarGoesAway(others, backup, added, k) {
      MapsEqual(a, b);
    }
  }

  /** What must hold of the tracked values for the two paths to give the same settings: no empty hook entry is left
      behind, no tracked list has become something else, no tracked env key keeps a value, and every tracked scalar
      is untouched and not backed up. */
  predicate PathsAgreeOn(current: Settings, backup: Settings, entries: seq<Entry>) {
    var added := AddedStructure(entries);
    && (forall n, t | n != Env && t in Section(current, n) :: !ListPathsDiffer(n, Section(current, n), entries, t))
    && (forall k | k in Section(current, Env) && k in Section(added, Env) ::
          !Truthy(SmartEnvLeft(Section(current, Env), Section(backup, Env), Section(added, Env), k)))
    && (forall k | k in current.others && k in added.others ::
      ScalarGoesAway(current.others, backup.others, added.others, k))
  }

  lemma AddedTracks(entries: seq<Entry>, path: KeyPath)
    requires EntriesOk(entries)
    ensures var added := AddedStructure(entries);
      match path
      case InSection(n, t) =>
        && (t in Section(added, n) <==> Tracks(entries, path))
        && (t in Section(added, n) <==> ValuesAt(entries, path) != [])
        && (n != Env && t in Section(added, n) ==> Section(added, n)[t] == Arr(ValuesAt(entries, path)))
      case TopLevel(k) => k in added.others <==> Tracks(entries, path)
  {
    AddedAt(entries, path);
    ValuesAtTracks(entries, path);
  }

  /** For any settings, backup and entries: uninstalling by the added file and by the entries give equal
      settings after cleanup if and only if PathsAgreeOn. */
  lemma TwoPathsAgree(current: Settings, backup: Settings, entries: seq<Entry>)
    requires EntriesOk(entries) && UnmergeFits(current, entries) && SectionsAreObjects(current)
    ensures var smart := SmartUnmerged(current, backup, AddedStructure(entries));
      && SectionsAreObjects(smart) && SectionsAreObjects(Unmerged(current, entries))
      && (Cleaned(smart) == Cleaned(Unmerged(current, entries)) <==> PathsAgreeOn(current, backup, entries))
  {
    hide AddedStructure, UnmergedLists, UnmergedEnv, UnmergedOthers, UntrackedLists, UntrackedEnv, UntrackedOthers,
         ValuesAt, ListPathsDiffer, SmartEnvLeft, ScalarGoesAway, Tracks, TrackedListsFit;
    var added := AddedStructure(entries);
    var a, b := SmartUnmerged(current, backup, added), Unmerged(current, entries);
    AddedIsOk(entries);
    SmartUnmergedParts(current, backup, added);
    forall path { AddedTracks(entries, path); }
    UnmergedParts(current, entries);
    CleanedEqual(a, b);
    ListsUnmergeFit(current, entries);
    ListPathsAgree(Hooks, Section(current, Hooks), entries, Section(added, Hooks));
    ListPathsAgree(Permissions, Section(current, Permissions), entries, Section(added, Permissions));
    EnvPathsAgree(Section(current, Env), Section(backup, Env), entries, Section(added, Env));
    OtherPathsAgree(current.others, backup.others, entries, added.others);
  }

  lemma ListsUnmergeFit(s: Settings, entries: seq<Entry>)
    requires SectionsAreObjects(s)
    ensures UnmergeFits(s, entries)
       <==> (TrackedListsFit(Hooks, Section(s, Hooks), entries)
          && TrackedListsFit(Permissions, Section(s, Permissions), entries))
  {
    hide Elements, ListAt, Lacks, Tracks;
  }

  lemma UnmergedParts(s: Settings, entries: seq<Entry>)
    requires SectionsAreObjects(s)
    ensures var r := Unmerged(s, entries);
      && SectionsAreObjects(r)
      && Section(r, Hooks) == UntrackedLists(Hooks, Section(s, Hooks), entries)
      && Section(r, Permissions) == UntrackedLists(Permissions, Section(s, Permissions), entries)
      && Section(r, Env) == UntrackedEnv(Section(s, Env), entries)
      && r.others == UntrackedOthers(s.others, entries)
  {}

  // ----- enable, then the fallback

  predicate AddsEmptyHook(n: SectionName, section: Dict, lists: map<string, seq<Json>>, t: string) {
    n == Hooks && EMPTY_HOOK in RecordedIn(section, lists, t)
  }

  lemma FallbackItems(n: SectionName, l: seq<Json>, values: seq<Json>)
    requires ValuesFit(n, values) && n != Env
    requires n == Permissions ==> forall x | x in l :: Hashable(x)
    ensures var a := Additions(l, values);
      if n == Hooks && EMPTY_HOOK in a
      then EMPTY_HOOK in Without(n, l + a, Removable(n, a)) && EMPTY_HOOK !in l
      else Without(n, l + a, Removable(n, a)) == l
  {
    hide Without, Removable, Keeps;
    var a := Additions(l, values);
    ListRestored(n, l, values);
    FiltersAgree(n, l + a, a);
    AdditionsAreNew(l, values);
    if n == Hooks && EMPTY_HOOK in a {
      WithoutIsFilter(n, l + a, Removable(n, a));
      RemovableKeeps(n, EMPTY_HOOK, a);
      assert EMPTY_HOOK in l + a;
      assert multiset(Without(n, l + a, Removable(n, a)))[EMPTY_HOOK] > 0;
    }
  }

  lemma FallbackListAt(n: SectionName, section: Dict, lists: map<string, seq<Json>>, entries: seq<Entry>, t: string)
    requires ListsFit(section, n, lists) && (forall u | u in lists :: ValuesFit(n, lists[u])) && n != Env
    requires ValuesAt(entries, InSection(n, t)) == RecordedIn(section, lists, t)
    ensures SameAt(CleanSection(UntrackedLists(n, Extended(section, lists), entries)), CleanSection(section), t)
       <==> !AddsEmptyHook(n, section, lists, t)
  {
    hide Without, Removable, ValuesAt, Additions, ValuesFit, Tracks, ListAt, ListFits, Extended, Elements, Truthy;
    ValuesAtTracks(entries, InSection(n, t));
    ExtendedAt(section, lists, t);
    assert !Truthy(Arr([])) by { FalsyList(); }
    if t in lists {
      assert ValuesFit(n, lists[t]) && ListFits(section, n, t, lists[t]);
      var l, a := ListAt(section, t), Additions(ListAt(section, t), lists[t]);
      ListItemsFit(n, section, t, lists[t]);
      FallbackItems(n, l, lists[t]);
      ListAtList(section, t);
      assert l + [] == l;
      if a != [] {
        AppendedToList(n, section, t, lists[t]);
        FallbackTrackedAt(n, section, lists, entries, t, a);
      }
    }
  }

  lemma FallbackTrackedAt(n: SectionName, section: Dict, lists: map<string, seq<Json>>, entries: seq<Entry>,
      t: string, a: seq<Json>)
    requires t in lists && a == RecordedIn(section, lists, t) == ValuesAt(entries, InSection(n, t)) && a != []
    requires t in Extended(section, lists) && Extended(section, lists)[t] == Arr(ListAt(section, t) + a)
    ensures t in UntrackedLists(n, Extended(section, lists), entries)
    ensures UntrackedLists(n, Extended(section, lists), entries)[t]
      == Arr(Without(n, ListAt(section, t) + a, Removable(n, a)))
    ensures n == Hooks && EMPTY_HOOK in Without(n, ListAt(section, t) + a, Removable(n, a)) ==>
      Truthy(Arr(Without(n, ListAt(section, t) + a, Removable(n, a))))
  {
    var e := Extended(section, lists);
    ValuesAtTracks(entries, InSection(n, t));
    ListAtList(e, t);
    assert Elements(e[t]).Some?;
    hide Extended, ListAt, Without, Removable, ValuesAt, Additions, Elements;
  }

  lemma FallbackLists(n: SectionName, section: Dict, lists: map<string, seq<Json>>, entries: seq<Entry>)
    requires ListsFit(section, n, lists) && (forall u | u in lists :: ValuesFit(n, lists[u])) && n != Env
    requires forall t :: ValuesAt(entries, InSection(n, t)) == RecordedIn(section, lists, t)
    ensures CleanSection(UntrackedLists(n, Extended(section, lists), entries)) == CleanSection(section)
       <==> forall t | t in lists :: !AddsEmptyHook(n, section, lists, t)
  {
    hide UntrackedLists, Extended, ValuesAt, ValuesFit, ListsFit, Additions, ListAt;
    var a, b := CleanSection(UntrackedLists(n, Extended(section, lists), entries)), CleanSection(section);
    forall t ensures SameAt(a, b, t) <==> !AddsEmptyHook(n, section, lists, t) {
      FallbackListAt(n, section, lists, entries, t);
    }
    if forall t | t in lists :: !AddsEmptyHook(n, section, lists, t) {
      forall t ensures SameAt(a, b, t) { assert t !in lists ==> !AddsEmptyHook(n, section, lists, t); }
      MapsEqual(a, b);
    }
  }

  lemma FallbackEnv(section: Dict, env: Dict, entries: seq<Entry>)
    requires forall k :: k in env <==> Tracks(entries, InSection(Env, k))
    ensures CleanSection(UntrackedEnv(section + env, entries)) == CleanSection(section)
       <==> forall k | k in env :: !Truthy(Get(section, k))
  {
    hide Tracks;
    var a, b := CleanSection(UntrackedEnv(section + env, entries)), CleanSection(section);
    forall k ensures SameAt(a, b, k) <==> !(k in env && Truthy(Get(section, k))) {}
    if forall k | k in env :: !Truthy(Get(section, k)) {
      MapsEqual(a, b);
    }
  }

  lemma FallbackOthers(others: Dict, v: Option<Json>, entries: seq<Entry>)
    requires forall k :: Tracks(entries, TopLevel(k)) <==> k == STATUS_LINE && v.Some?
    ensures UntrackedOthers(WithScalar(others, STATUS_LINE, v), entries) == others
      <==> !(v.Some? && STATUS_LINE in others)
  {
    hide Tracks;
    var a := UntrackedOthers(WithScalar(others, STATUS_LINE, v), entries);
    forall k ensures SameAt(a, others, k) <==> !(k == STATUS_LINE && v.Some? && k in others) {}
    if !(v.Some? && STATUS_LINE in others) {
      MapsEqual(a, others);
    }
  }

  /** The fallback has no backup to restore from. */
  predicate FallbackCanRestore(s: Settings, p: Preset, o: MergeOptions) {
    && (forall t | t in MergedLists(p, o, Hooks) ::
      !AddsEmptyHook(Hooks, Section(s, Hooks), MergedLists(p, o, Hooks), t))
    && (forall k | k in p.env :: !Truthy(Get(Section(s, Env), k)))
    && !(SetsStatusLine(s, p, o) && STATUS_LINE in s.others)
  }

  lemma EntriesByPath(s: Settings, p: Preset, o: MergeOptions)
    ensures var es := MergeEntries(s, p, o);
      && (forall n, t | n != Env :: ValuesAt(es, InSection(n, t)) == RecordedIn(Section(s, n), MergedLists(p, o, n), t))
      && (forall k :: k in EnvValues(p) <==> Tracks(es, InSection(Env, k)))
      && (forall k :: Tracks(es, TopLevel(k)) <==> k == STATUS_LINE && NewStatusLine(s, p, o).Some?)
  {
    hide MergeEntries, ValuesAt, Tracks, NewStatusLine, RecordedIn, MergedLists;
    var es := MergeEntries(s, p, o);
    forall n, t | n != Env ensures ValuesAt(es, InSection(n, t)) == RecordedIn(Section(s, n), MergedLists(p, o, n), t) {
      MergeEntriesValues(s, p, o, InSection(n, t));
    }
    forall k ensures k in EnvValues(p) <==> Tracks(es, InSection(Env, k)) {
      MergeEntriesValues(s, p, o, InSection(Env, k));
      ValuesAtTracks(es, InSection(Env, k));
    }
    forall k ensures Tracks(es, TopLevel(k)) <==> k == STATUS_LINE && NewStatusLine(s, p, o).Some? {
      MergeEntriesValues(s, p, o, TopLevel(k));
      ValuesAtTracks(es, TopLevel(k));
    }
  }

  lemma FallbackSection(s: Settings, p: Preset, o: MergeOptions, n: SectionName)
    requires PresetOk(p) && MergeFits(s, p, o) && n != Env
    ensures CleanSection(UntrackedLists(n, Extended(Section(s, n), MergedLists(p, o, n)), MergeEntries(s, p, o)))
         == CleanSection(Section(s, n))
       <==> forall t | t in MergedLists(p, o, n) :: !AddsEmptyHook(n, Section(s, n), MergedLists(p, o, n), t)
  {
    assert ListsFit(Section(s, n), n, MergedLists(p, o, n));
    EntriesByPath(s, p, o);
    ListsValuesFit(p, o, n);
    hide MergeEntries, UntrackedLists, ValuesAt, MergedLists, AddsEmptyHook, Extended, RecordedIn, ListsFit,
      ValuesFit, CleanSection;
    FallbackLists(n, Section(s, n), MergedLists(p, o, n), MergeEntries(s, p, o));
  }

  /** Enabling and then unmerging by entries gives back the settings, up to empty sections, if and only if
      nothing of the user's was overridden and no empty hook entry was added. */
  lemma EnableThenFallback(s: Settings, p: Preset, o: MergeOptions)
    requires PresetOk(p) && SectionsAreObjects(s) && MergeFits(s, p, o)
    ensures var r := Unmerged(Merged(s, p, o), MergeEntries(s, p, o));
      SectionsAreObjects(Merged(s, p, o)) && SectionsAreObjects(r)
        && (Cleaned(r) == Cleaned(s) <==> FallbackCanRestore(s, p, o))
  {
    hide MergeFits, MergeEntries, Merged, UntrackedLists, UntrackedEnv, UntrackedOthers, MergedLists, NewStatusLine,
         AddsEmptyHook, Extended, RecordedIn, Tracks, EnvValues, Unmerged, CleanSection, WithScalar;
    var m, es := Merged(s, p, o), MergeEntries(s, p, o);
    MergedParts(s, p, o);
    UnmergedParts(m, es);
    CleanedEqual(Unmerged(m, es), s);
    FallbackSection(s, p, o, Hooks);
    FallbackSection(s, p, o, Permissions);
    forall t ensures !AddsEmptyHook(Permissions, Section(s, Permissions), MergedLists(p, o, Permissions), t) {
      OnlyHooksAreEmpty(Section(s, Permissions), MergedLists(p, o, Permissions), t);
    }
    EntriesByPath(s, p, o);
    EnvValuesKeys(p);
    FallbackEnv(Section(s, Env), EnvValues(p), es);
    FallbackOthers(s.others, NewStatusLine(s, p, o), es);
    NewStatusLineMeaning(s, p, o);
  }

  lemma OnlyHooksAreEmpty(section: Dict, lists: map<string, seq<Json>>, t: string)
    ensures !AddsEmptyHook(Permissions, section, lists, t)
  {}

  lemma EnvValuesKeys(p: Preset)
    ensures forall k :: k in EnvValues(p) <==> k in p.env
  {}
}
