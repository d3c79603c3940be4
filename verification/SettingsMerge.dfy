/** The settings operations as the code performs them: dictionaries changed in place, entry by entry. */
module SettingsMerge {
  import opened Wrappers
  import opened Json
  import opened Ordering
  import opened SettingsModel

  // ----- loop steps

  lemma {:induction false} AdditionsSnoc(existing: seq<Json>, values: seq<Json>, v: Json)
    ensures var a := Additions(existing, values);
      Additions(existing, values + [v]) == if v in existing + a then a else a + [v]
    decreases values
  {
    if values == [] {
      assert [v][1..] == [];
    } else {
      assert (values + [v])[0] == values[0] && (values + [v])[1..] == values[1..] + [v];
      if values[0] in existing {
        AdditionsSnoc(existing, values[1..], v);
      } else {
        AdditionsSnoc(existing + [values[0]], values[1..], v);
        var rest := Additions(existing + [values[0]], values[1..]);
        assert existing + [values[0]] + rest == existing + ([values[0]] + rest);
        assert [values[0]] + (rest + [v]) == [values[0]] + rest + [v];
      }
    }
  }

  function Restricted(lists: map<string, seq<Json>>, names: seq<string>): map<string, seq<Json>> {
    map t | t in lists && t in names :: lists[t]
  }

  lemma ExtendStep(s: Settings, n: SectionName, done: map<string, seq<Json>>, name: string, values: seq<Json>)
    requires name !in done
    ensures ExtendSection(ExtendSection(s, n, done), n, map[name := values])
      == ExtendSection(s, n, done[name := values])
    ensures ListAt(Section(ExtendSection(s, n, done), n), name) == ListAt(Section(s, n), name)
  {
    var s1 := ExtendSection(s, n, done);
    assert name in map[name := values] && name in done[name := values];
    assert done == map[] ==> done[name := values] == map[name := values];
    assert Extended(Section(s1, n), map[name := values]) == Extended(Section(s, n), done[name := values]);
    assert forall v :: WithPart(s1, n, v) == WithPart(s, n, v);
  }

  /** The section after one list was extended: it is put back only if it is new or grew. */
  function WithList(section: Dict, name: string, values: seq<Json>): Dict {
    var added := Additions(ListAt(section, name), values);
    if name in section && added == [] then section else section[name := Arr(ListAt(section, name) + added)]
  }

  lemma ExtendOne(s: Settings, n: SectionName, name: string, values: seq<Json>)
    ensures ExtendSection(s, n, map[name := values]) == WithPart(s, n, Some(Obj(WithList(Section(s, n), name, values))))
  {
    hide ListAt, Additions;
    var section := Section(s, n);
    assert name in map[name := values];
    assert Extended(section, map[name := values]) == WithList(section, name, values);
  }

  lemma {:induction false} SectionEntriesSnoc(n: SectionName, names: seq<string>, name: string, section: Dict,
      lists: map<string, seq<Json>>)
    requires forall t | t in names + [name] :: t in lists
    ensures SectionEntries(n, names + [name], section, lists)
         == SectionEntries(n, names, section, lists)
           + ListEntries(n, name, Additions(ListAt(section, name), lists[name]))
  {
    hide Additions, ListAt;
    if names == [] {
      assert ([] + [name])[1..] == [];
    } else {
      assert (names + [name])[0] == names[0] && (names + [name])[1..] == names[1..] + [name];
      SectionEntriesSnoc(n, names[1..], name, section, lists);
    }
  }

  lemma SeqSnoc<T>(xs: seq<T>, i: nat)
    requires i < |xs|
    ensures xs[..i + 1] == xs[..i] + [xs[i]]
  {}

  lemma StringsPrefix(xs: seq<string>, i: nat)
    requires i < |xs|
    ensures Strings(xs[..i + 1]) == Strings(xs[..i]) + [Str(xs[i])]
  {}

  lemma RestrictedSnoc(lists: map<string, seq<Json>>, names: seq<string>, i: nat)
    requires i < |names| && Distinct(names) && names[i] in lists
    ensures Restricted(lists, names[..i + 1]) == Restricted(lists, names[..i])[names[i] := lists[names[i]]]
    ensures names[i] !in Restricted(lists, names[..i])
  {
    SeqSnoc(names, i);
  }

  lemma StillFits(s: Settings, n: SectionName, lists: map<string, seq<Json>>, done: map<string, seq<Json>>,
      name: string)
    requires SectionFits(s, n, lists) && name in lists && name !in done
    ensures SectionFits(ExtendSection(s, n, done), n, map[name := lists[name]])
  {
    var s1 := ExtendSection(s, n, done);
    assert name in Section(s1, n) ==> name in Section(s, n);
    assert ListAt(Section(s1, n), name) == ListAt(Section(s, n), name);
  }

  lemma HookLoopEnds(s: Settings, p: Preset, o: MergeOptions, names: seq<string>)
    requires o.hooks && names == ListNames(p, o, Hooks)
    ensures ExtendSection(s, Hooks, Restricted(p.hooks, names[..0])) == s
    ensures SectionEntries(Hooks, names[..0], Section(s, Hooks), p.hooks) == []
    ensures names[..|names|] == names && Restricted(p.hooks, names) == p.hooks
    ensures SectionEntries(Hooks, names, Section(s, Hooks), p.hooks) == ListSectionEntries(s, p, o, Hooks)
  {
    hide ListNames;
    assert forall t | t in names :: t in p.hooks;
    assert Restricted(p.hooks, names) == p.hooks;
  }

  lemma PermissionEntriesShape(s: Settings, p: Preset, o: MergeOptions)
    requires o.permissions
    ensures var section := Section(s, Permissions);
      ListSectionEntries(s, p, o, Permissions)
      == (if p.allow == [] then [] else
            ListEntries(Permissions, "allow", Additions(ListAt(section, "allow"), Strings(p.allow))))
       + (if p.deny == [] then [] else
            ListEntries(Permissions, "deny", Additions(ListAt(section, "deny"), Strings(p.deny))))
  {
    hide Additions, ListAt, Strings;
    var section, lists := Section(s, Permissions), Lists(p, Permissions);
    var first := if p.allow == [] then [] else ["allow"];
    if p.allow != [] {
      SectionEntriesSnoc(Permissions, [], "allow", section, lists);
      assert [] + ["allow"] == ["allow"];
    }
    if p.deny != [] {
      SectionEntriesSnoc(Permissions, first, "deny", section, lists);
    }
    assert ListNames(p, o, Permissions) == first + if p.deny == [] then [] else ["deny"];
    assert p.deny == [] ==> ListNames(p, o, Permissions) == first;
  }

  lemma PermissionLists(p: Preset)
    ensures var lists := Lists(p, Permissions);
      && (p.allow != [] ==> "allow" in lists && lists["allow"] == Strings(p.allow))
      && (p.deny != [] ==> "deny" in lists && lists["deny"] == Strings(p.deny))
      && (p.allow == [] && p.deny == [] ==> lists == map[])
      && (p.allow != [] && p.deny == [] ==> lists == map["allow" := Strings(p.allow)])
      && (p.allow == [] && p.deny != [] ==> lists == map["deny" := Strings(p.deny)])
      && (p.allow != [] && p.deny != [] ==> lists == map["allow" := Strings(p.allow)]["deny" := Strings(p.deny)])
  {
  }

  function EnvUpTo(p: Preset, names: seq<string>): Dict {
    map k | k in p.env && k in names :: Str(p.env[k])
  }

  lemma EnvUpToSnoc(before: Dict, p: Preset, names: seq<string>, i: nat)
    requires i < |names| && forall k | k in names :: k in p.env
    ensures (before + EnvUpTo(p, names[..i]))[names[i] := Str(p.env[names[i]])] == before + EnvUpTo(p, names[..i + 1])
    ensures EnvEntries(names[..i + 1], EnvValues(p))
         == EnvEntries(names[..i], EnvValues(p)) + [EnvEntry(names[i], Str(p.env[names[i]]))]
  {
    SeqSnoc(names, i);
  }

  lemma EnvUpToNone(before: Dict, p: Preset, names: seq<string>)
    requires forall k | k in names :: k in p.env
    ensures before + EnvUpTo(p, names[..0]) == before && EnvEntries(names[..0], EnvValues(p)) == []
  {
  }

  lemma EnvUpToAll(p: Preset)
    ensures EnvUpTo(p, EnvNames(p)) == EnvUpTo(p, EnvNames(p)[..|EnvNames(p)|]) == EnvValues(p)
    ensures EnvNames(p)[..|EnvNames(p)|] == EnvNames(p)
    ensures p.env != map[] ==> EnvValues(p) != map[]
  {
    hide EnvNames;
    assert EnvNames(p)[..|EnvNames(p)|] == EnvNames(p);
    assert EnvUpTo(p, EnvNames(p)) == EnvValues(p);
    if p.env != map[] {
      var k :| k in p.env;
      assert k in EnvValues(p);
    }
  }

  lemma ExcludedEntries(s: Settings, p: Preset, o: MergeOptions)
    ensures !o.hooks ==>
      ListSectionEntries(s, p, o, Hooks) == [] && ExtendSection(s, Hooks, MergedLists(p, o, Hooks)) == s
    ensures !o.permissions ==> ListSectionEntries(s, p, o, Permissions) == []
  {
    var names := ListNames(p, o, Hooks);
    assert |names| > 0 ==> names[0] in names;
  }

  lemma WithListsKeepsRest(s: Settings, p: Preset, o: MergeOptions)
    ensures WithLists(s, p, o).others == s.others && WithLists(s, p, o).env == s.env
  {}

  lemma NoEnv(p: Preset)
    requires p.env == map[]
    ensures EnvNames(p) == [] && EnvValues(p) == map[] && EnvEntries(EnvNames(p), EnvValues(p)) == []
  {
    hide SortedKeys;
  }

  /** A settings dictionary held by a caller and modified in place. */
  class SettingsDict {
    var data: Settings

    constructor (initial: Settings)
      ensures data == initial
    {
      data := initial;
    }

    method MergeHooks(hookType: string, entries: seq<Json>) returns (added: seq<Entry>)
      requires SectionFits(data, Hooks, map[hookType := entries]) && ValuesFit(Hooks, entries)
      modifies this
      ensures data == ExtendSection(old(data), Hooks, map[hookType := entries])
      ensures added == ListEntries(Hooks, hookType, Additions(ListAt(Section(old(data), Hooks), hookType), entries))
    {
      hide ListAt, Extended, ExtendSection, Hashable, SectionFits;
      var hooks := Section(data, Hooks);
      var existing := ListAt(hooks, hookType);
      ghost var before := existing;
      var seen := set e | e in existing && e.Obj?;
      added := [];
      for i := 0 to |entries|
        invariant data == old(data)
        invariant existing == before + Additions(before, entries[..i])
        invariant seen == set e | e in existing && e.Obj?
        invariant added == ListEntries(Hooks, hookType, Additions(before, entries[..i]))
      {
        var entry := entries[i];
        AdditionsSnoc(before, entries[..i], entry);
        SeqSnoc(entries, i);
        assert entry in entries;
        if entry !in seen {
          existing := existing + [entry];
          seen := seen + {entry};
          added := added + [Entry(InSection(Hooks, hookType), entry, Append, entry)];
        }
      }
      assert entries[..|entries|] == entries;
      if hookType !in hooks || added != [] {
        hooks := hooks[hookType := Arr(existing)];
      }
      ExtendOne(data, Hooks, hookType, entries);
      data := WithPart(data, Hooks, Some(Obj(hooks)));
    }

    method MergePermissions(permissionType: string, entries: seq<string>) returns (added: seq<Entry>)
      requires SectionFits(data, Permissions, map[permissionType := Strings(entries)])
      modifies this
      ensures data == ExtendSection(old(data), Permissions, map[permissionType := Strings(entries)])
      ensures added == ListEntries(Permissions, permissionType,
                                   Additions(ListAt(Section(old(data), Permissions), permissionType), Strings(entries)))
    {
      hide ListAt, Extended, ExtendSection, Hashable, SectionFits;
      var permissions := Section(data, Permissions);
      var existing := ListAt(permissions, permissionType);
      ghost var before := existing;
      var seen := set x | x in existing;
      added := [];
      for i := 0 to |entries|
        invariant data == old(data)
        invariant existing == before + Additions(before, Strings(entries[..i]))
        invariant seen == set x | x in existing
        invariant added == ListEntries(Permissions, permissionType, Additions(before, Strings(entries[..i])))
      {
        var entry := Str(entries[i]);
        StringsPrefix(entries, i);
        AdditionsSnoc(before, Strings(entries[..i]), entry);
        if entry !in seen {
          existing := existing + [entry];
          seen := seen + {entry};
          added := added + [Entry(InSection(Permissions, permissionType), entry, Union, entry)];
        }
      }
      assert entries[..|entries|] == entries;
      if permissionType !in permissions || added != [] {
        permissions := permissions[permissionType := Arr(existing)];
      }
      ExtendOne(data, Permissions, permissionType, Strings(entries));
      data := WithPart(data, Permissions, Some(Obj(permissions)));
    }

    method MergeEnv(p: Preset) returns (added: seq<Entry>)
      requires IsObject(data.env) && p.env != map[]
      modifies this
      ensures data == WithEnv(old(data), EnvValues(p))
      ensures added == EnvEntries(EnvNames(p), EnvValues(p))
    {
      hide EnvNames, EnvUpTo, EnvEntries;
      var env := Section(data, Env);
      var names := EnvNames(p);
      ghost var before := env;
      added := [];
      EnvUpToNone(before, p, names);
      for i := 0 to |names|
        invariant data == old(data)
        invariant env == before + EnvUpTo(p, names[..i])
        invariant added == EnvEntries(names[..i], EnvValues(p))
      {
        EnvUpToSnoc(before, p, names, i);
        env := env[names[i] := Str(p.env[names[i]])];
        added := added + [Entry(InSection(Env, names[i]), Str(p.env[names[i]]), EnvOverride, Str(names[i]))];
      }
      EnvUpToAll(p);
      data := data.(env := Some(Obj(env)));
    }

    /** None: no change needed. Err: the conflict that set_scalar raises, with nothing changed. */
    method SetScalar(key: string, value: Json, force: bool) returns (r: Result<Option<Entry>, Conflict>)
      modifies this
      ensures r.Err? <==> !force && Get(old(data).others, key) != Null && !PyEq(Get(old(data).others, key), value)
      ensures r.Err? ==> r.error == SettingsConflict(key, Get(old(data).others, key), value) && data == old(data)
      ensures r.Ok? ==>
        var v := if PyEq(Get(old(data).others, key), value) then None else Some(value);
        && data == old(data).(others := WithScalar(old(data).others, key, v))
        && r.value == if v.Some? then Some(ScalarEntry(key, value)) else None
    {
      var current := Get(data.others, key);
      if current != Null && !PyEq(current, value) && !force {
        return Err(SettingsConflict(key, current, value));
      }
      if PyEq(current, value) {
        return Ok(None);
      }
      data := data.(others := data.others[key := value]);
      return Ok(Some(ScalarEntry(key, value)));
    }

    /** The loop of merge over the template's hook types, in sorted order. */
    method MergeHookTypes(p: Preset, o: MergeOptions) returns (added: seq<Entry>)
      requires PresetOk(p) && o.hooks && SectionFits(data, Hooks, p.hooks)
      modifies this
      ensures data == ExtendSection(old(data), Hooks, p.hooks)
      ensures added == ListSectionEntries(old(data), p, o, Hooks)
    {
      hide ListNames, Extended, ExtendSection, SectionEntries, Restricted, SectionFits, Section, ValuesFit;
      var names := ListNames(p, o, Hooks);
      ghost var before := data;
      added := [];
      HookLoopEnds(before, p, o, names);
      for i := 0 to |names|
        invariant data == ExtendSection(before, Hooks, Restricted(p.hooks, names[..i]))
        invariant forall t | t in names[..i] :: t in p.hooks
        invariant added == SectionEntries(Hooks, names[..i], Section(before, Hooks), p.hooks)
      {
        assert names[i] in names;
        ghost var done := Restricted(p.hooks, names[..i]);
        RestrictedSnoc(p.hooks, names, i);
        StillFits(before, Hooks, p.hooks, done, names[i]);
        ExtendStep(before, Hooks, done, names[i], p.hooks[names[i]]);
        SeqSnoc(names, i);
        SectionEntriesSnoc(Hooks, names[..i], names[i], Section(before, Hooks), p.hooks);
        var more := MergeHooks(names[i], p.hooks[names[i]]);
        added := added + more;
      }
    }

    /** One more permission list, after some of the others. */
    method MergeOnePermission(name: string, entries: seq<string>, ghost before: Settings,
                              ghost lists: map<string, seq<Json>>, ghost done: map<string, seq<Json>>)
      returns (added: seq<Entry>)
      requires SectionFits(before, Permissions, lists) && name in lists && name !in done
      requires lists[name] == Strings(entries) && data == ExtendSection(before, Permissions, done)
      modifies this
      ensures data == ExtendSection(before, Permissions, done[name := Strings(entries)])
      ensures added == ListEntries(Permissions, name,
                                   Additions(ListAt(Section(before, Permissions), name), Strings(entries)))
    {
      hide ExtendSection, SectionFits, ListAt, Additions, Strings, Section;
      StillFits(before, Permissions, lists, done, name);
      ExtendStep(before, Permissions, done, name, Strings(entries));
      added := MergePermissions(name, entries);
    }

    /** The allow list, then the deny list; an empty one is skipped. */
    method MergeBothPermissions(p: Preset, o: MergeOptions) returns (added: seq<Entry>)
      requires o.permissions && SectionFits(data, Permissions, Lists(p, Permissions))
      modifies this
      ensures data == ExtendSection(old(data), Permissions, Lists(p, Permissions))
      ensures added == ListSectionEntries(old(data), p, o, Permissions)
    {
      ghost var before, lists := data, Lists(p, Permissions);
      ghost var done: map<string, seq<Json>> := map[];
      assert ExtendSection(before, Permissions, done) == before;
      PermissionEntriesShape(before, p, o);
      PermissionLists(p);
      hide ExtendSection, ListSectionEntries, SectionFits, ListAt, Additions, Strings, Section, Lists;
      added := [];
      if p.allow != [] {
        added := MergeOnePermission("allow", p.allow, before, lists, done);
        done := map["allow" := Strings(p.allow)];
      }
      if p.deny != [] {
        var more := MergeOnePermission("deny", p.deny, before, lists, done);
        added := added + more;
        done := done["deny" := Strings(p.deny)];
      }
    }

    method MergeListSections(p: Preset, o: MergeOptions) returns (added: seq<Entry>)
      requires PresetOk(p) && MergeFits(data, p, o)
      modifies this
      ensures data == WithLists(old(data), p, o)
      ensures added == ListSectionEntries(old(data), p, o, Hooks) + ListSectionEntries(old(data), p, o, Permissions)
    {
      hide Extended, ListNames, SectionEntries;
      ghost var before := data;
      ExcludedEntries(before, p, o);
      added := [];
      if o.hooks {
        added := MergeHookTypes(p, o);
      }
      assert data == ExtendSection(before, Hooks, MergedLists(p, o, Hooks));
      assert added == ListSectionEntries(before, p, o, Hooks);
      if o.permissions {
        var more := MergeBothPermissions(p, o);
        added := added + more;
      }
    }

    method Merge(p: Preset, o: MergeOptions) returns (r: Result<seq<Entry>, Conflict>)
      requires PresetOk(p) && MergeFits(data, p, o)
      modifies this
      ensures r.Err? <==> MergeConflicts(old(data), p, o)
      ensures r.Err? ==> data == WithLists(old(data), p, o)
      ensures r.Ok? ==> data == Merged(old(data), p, o) && r.value == MergeEntries(old(data), p, o)
    {
      hide ExtendSection, ListSectionEntries, MergedLists, EnvNames, EnvEntries, PyEq;
      ghost var before := data;
      var entries := MergeListSections(p, o);
      ghost var lists, listEntries := data, entries;
      WithListsKeepsRest(before, p, o);
      if o.statusLine && p.statusLine.Some? {
        var outcome := SetScalar(STATUS_LINE, p.statusLine.value, o.force);
        if outcome.Err? {
          return Err(outcome.error);
        }
        if outcome.value.Some? {
          entries := entries + [outcome.value.value];
        }
      }
      ghost var scalar := NewStatusLine(before, p, o);
      assert data == lists.(others := WithScalar(before.others, STATUS_LINE, scalar));
      assert entries == listEntries + ScalarEntries(STATUS_LINE, scalar);
      if p.env != map[] {
        var more := MergeEnv(p);
        entries := entries + more;
      } else {
        NoEnv(p);
        assert entries == entries + EnvEntries(EnvNames(p), EnvValues(p));
      }
      return Ok(entries);
    }
  }
}
