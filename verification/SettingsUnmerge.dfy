/** The loops of entries_to_added_structure, smart_unmerge and unmerge. */
module SettingsUnmerge {
  import opened Wrappers
  import opened Json
  import opened SettingsModel
  import opened SettingsMerge
  import opened SettingsRoundTrip

  method EntriesToAddedStructure(entries: seq<Entry>) returns (added: Settings)
    ensures added == AddedStructure(entries)
  {
    added := EMPTY;
    for i := 0 to |entries|
      invariant added == AddedStructure(entries[..i])
    {
      assert entries[..i + 1][..i] == entries[..i];
      added := AddEntry(added, entries[i]);
    }
    assert entries[..|entries|] == entries;
  }

  /** The hook list with the added entries left out, item by item. */
  method FilterHooks(current: seq<Json>, addedEntries: seq<Json>) returns (kept: seq<Json>)
    ensures kept == Without(Hooks, current, addedEntries)
  {
    var removed := set e | e in addedEntries && e.Obj?;
    kept := [];
    for i := 0 to |current|
      invariant kept == Without(Hooks, current[..i], addedEntries)
    {
      assert current[..i + 1] == current[..i] + [current[i]];
      WithoutConcat(Hooks, current[..i], [current[i]], addedEntries);
      assert [current[i]][1..] == [];
      if !current[i].Obj? || current[i] !in removed {
        kept := kept + [current[i]];
      }
    }
    assert current[..|current|] == current;
  }

  method UnmergeLists(n: SectionName, current: Dict, added: Dict) returns (r: Dict)
    requires n != Env && forall t | t in added :: added[t].Arr?
    ensures r == UnmergedLists(n, current, added)
  {
    r := current;
    var todo := added.Keys;
    while todo != {}
      invariant todo <= added.Keys && r.Keys == current.Keys
      invariant forall t | t in r :: r[t] == if t in todo then current[t] else UnmergedLists(n, current, added)[t]
      decreases todo
    {
      var t :| t in todo;
      if t in r && r[t].Arr? {
        var kept;
        if n == Hooks {
          kept := FilterHooks(r[t].items, added[t].items);
        } else {
          kept := Without(n, r[t].items, added[t].items);
        }
        r := r[t := Arr(kept)];
      }
      todo := todo - {t};
    }
  }

  method UnmergeEnv(current: Dict, backup: Dict, added: Dict) returns (r: Dict)
    ensures r == UnmergedEnv(current, backup, added)
  {
    r := current;
    var todo := added.Keys;
    ghost var goal := UnmergedEnv(current, backup, added);
    while todo != {}
      invariant todo <= added.Keys
      invariant forall k :: SameAt(r, if k in todo then current else goal, k)
      decreases todo
    {
      var k :| k in todo;
      assert SameAt(r, current, k);
      if k in r {
        if PyEq(r[k], added[k]) {
          var restored := Get(backup, k);
          if restored != Null {
            r := r[k := restored];
          } else {
            r := r - {k};
          }
        }
      }
      todo := todo - {k};
    }
    MapsEqual(r, goal);
  }

  method UnmergeOthers(current: Dict, backup: Dict, added: Dict) returns (r: Dict)
    ensures r == UnmergedOthers(current, backup, added)
  {
    r := current;
    var todo := added.Keys;
    ghost var goal := UnmergedOthers(current, backup, added);
    while todo != {}
      invariant todo <= added.Keys
      invariant forall k :: SameAt(r, if k in todo then current else goal, k)
      decreases todo
    {
      var k :| k in todo;
      assert SameAt(r, current, k);
      if k in r {
        if DeepEquals(r[k], added[k]) {
          var restored := Get(backup, k);
          if restored != Null {
            r := r[k := restored];
          } else {
            r := r - {k};
          }
        }
      }
      todo := todo - {k};
    }
    MapsEqual(r, goal);
  }

  lemma NothingAdded(n: SectionName, current: Dict, backup: Dict)
    ensures UnmergedLists(n, current, map[]) == current
    ensures UnmergedEnv(current, backup, map[]) == current
  {}

  /** `current` is copied, never changed. A section that is not an object is skipped. */
  method SmartUnmerge(current: Settings, backup: Settings, added: Settings) returns (result: Settings)
    requires AddedOk(added) && IsObject(backup.env)
    ensures result == SmartUnmerged(current, backup, added)
  {
    hide UnmergedLists, UnmergedEnv, UnmergedOthers;
    result := current;
    NothingAdded(Hooks, Section(current, Hooks), map[]);
    NothingAdded(Permissions, Section(current, Permissions), map[]);
    NothingAdded(Env, Section(current, Env), Section(backup, Env));
    if added.hooks.Some? && current.hooks.Some? && current.hooks.value.Obj? {
      assert Section(added, Hooks) == added.hooks.value.fields;
      var fields := UnmergeLists(Hooks, current.hooks.value.fields, added.hooks.value.fields);
      result := result.(hooks := Some(Obj(fields)));
    }
    if added.permissions.Some? && current.permissions.Some? && current.permissions.value.Obj? {
      assert Section(added, Permissions) == added.permissions.value.fields;
      var fields := UnmergeLists(Permissions, current.permissions.value.fields, added.permissions.value.fields);
      result := result.(permissions := Some(Obj(fields)));
    }
    if added.env.Some? && current.env.Some? && current.env.value.Obj? {
      var fields := UnmergeEnv(current.env.value.fields, Section(backup, Env), added.env.value.fields);
      result := result.(env := Some(Obj(fields)));
    }
    var others := UnmergeOthers(current.others, backup.others, added.others);
    result := result.(others := others);
  }

  // ----- unmerge by tracking entries

  type Groups = map<KeyPath, seq<Json>>

  predicate GroupsOf(groups: Groups, entries: seq<Entry>, path: KeyPath) {
    (path in groups <==> ValuesAt(entries, path) != []) && (path in groups ==> groups[path] == ValuesAt(entries, path))
  }

  /** setdefault(key_path, []).append(entry), entry by entry. */
  method GroupByPath(entries: seq<Entry>) returns (groups: Groups)
    ensures forall path :: GroupsOf(groups, entries, path)
  {
    groups := map[];
    for i := 0 to |entries|
      invariant forall path :: GroupsOf(groups, entries[..i], path)
    {
      var e := entries[i];
      ghost var before := groups;
      groups := groups[e.path := (if e.path in groups then groups[e.path] else []) + [e.value]];
      ghost var prefix := entries[..i + 1];
      assert prefix == entries[..i] + [e];
      assert [e][1..] == [];
      forall path ensures GroupsOf(groups, prefix, path) {
        assert GroupsOf(before, entries[..i], path);
        ValuesAtConcat(entries[..i], [e], path);
      }
    }
    assert entries[..|entries|] == entries;
  }

  lemma GroupsTrack(groups: Groups, entries: seq<Entry>, path: KeyPath)
    requires forall q :: GroupsOf(groups, entries, q)
    ensures path in groups <==> Tracks(entries, path)
    ensures path in groups ==> groups[path] == ValuesAt(entries, path)
  {
    assert GroupsOf(groups, entries, path);
    ValuesAtTracks(entries, path);
  }

  /** One pass of unmerge over the groups of a list section. */
  method UntrackLists(n: SectionName, section: Dict, ghost entries: seq<Entry>, groups: Groups) returns (r: Dict)
    requires n != Env && forall path :: GroupsOf(groups, entries, path)
    requires TrackedListsFit(n, section, entries)
    ensures r == UntrackedLists(n, section, entries)
  {
    r := section;
    var todo := groups.Keys;
    ghost var goal := UntrackedLists(n, section, entries);
    forall t ensures InSection(n, t) in groups <==> Tracks(entries, InSection(n, t)) {
      GroupsTrack(groups, entries, InSection(n, t));
    }
    while todo != {}
      invariant todo <= groups.Keys && r.Keys == section.Keys
      invariant forall t | t in r :: r[t] == if InSection(n, t) in todo then section[t] else goal[t]
      decreases todo
    {
      hide Without, Removable, ValuesAt, Elements;
      var path :| path in todo;
      if path.InSection? && path.section == n && path.name in r {
        GroupsTrack(groups, entries, path);
        r := r[path.name := Arr(Without(n, Elements(r[path.name]).value, Removable(n, groups[path])))];
      }
      todo := todo - {path};
    }
  }

  method UntrackEnv(section: Dict, ghost entries: seq<Entry>, groups: Groups) returns (r: Dict)
    requires forall path :: GroupsOf(groups, entries, path)
    ensures r == UntrackedEnv(section, entries)
  {
    r := section;
    var todo := groups.Keys;
    forall k ensures InSection(Env, k) in groups <==> Tracks(entries, InSection(Env, k)) {
      GroupsTrack(groups, entries, InSection(Env, k));
    }
    while todo != {}
      invariant todo <= groups.Keys
      invariant r == map k | k in section && !(InSection(Env, k) in groups && InSection(Env, k) !in todo) :: section[k]
      decreases todo
    {
      var path :| path in todo;
      if path.InSection? && path.section == Env && path.name in r {
        r := r - {path.name};
      }
      todo := todo - {path};
    }
  }

  method UntrackOthers(others: Dict, ghost entries: seq<Entry>, groups: Groups) returns (r: Dict)
    requires forall path :: GroupsOf(groups, entries, path)
    ensures r == UntrackedOthers(others, entries)
  {
    r := others;
    var todo := groups.Keys;
    forall k ensures TopLevel(k) in groups <==> Tracks(entries, TopLevel(k)) {
      GroupsTrack(groups, entries, TopLevel(k));
    }
    while todo != {}
      invariant todo <= groups.Keys
      invariant r == map k | k in others && !(TopLevel(k) in groups && TopLevel(k) !in todo) :: others[k]
      decreases todo
    {
      var path :| path in todo;
      if path.TopLevel? && path.key in r {
        r := r - {path.key};
      }
      todo := todo - {path};
    }
  }

  /** The fallback for an installation without an added file. */
  method Unmerge(settings: SettingsDict, entries: seq<Entry>)
    requires EntriesOk(entries) && UnmergeFits(settings.data, entries)
    modifies settings
    ensures settings.data == Unmerged(old(settings.data), entries)
  {
    hide UntrackedLists, UntrackedEnv, UntrackedOthers, TrackedListsFit, Lacks;
    var groups := GroupByPath(entries);
    if settings.data.hooks.Some? && settings.data.hooks.value.Obj? {
      var hooks := UntrackLists(Hooks, settings.data.hooks.value.fields, entries, groups);
      settings.data := settings.data.(hooks := Some(Obj(hooks)));
    }
    if settings.data.permissions.Some? && settings.data.permissions.value.Obj? {
      var permissions := UntrackLists(Permissions, settings.data.permissions.value.fields, entries, groups);
      settings.data := settings.data.(permissions := Some(Obj(permissions)));
    }
    if settings.data.env.Some? && settings.data.env.value.Obj? {
      var env := UntrackEnv(settings.data.env.value.fields, entries, groups);
      settings.data := settings.data.(env := Some(Obj(env)));
    }
    if settings.data.env.Some? && !Truthy(settings.data.env.value) {
      settings.data := settings.data.(env := None);
    }
    var others := UntrackOthers(settings.data.others, entries, groups);
    settings.data := settings.data.(others := others);
  }
}
