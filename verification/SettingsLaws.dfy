/** Further promises of the settings code: repeating a merge changes nothing, unmerging respects what
    the user did meanwhile, and the two ways of uninstalling agree exactly when they can. */
module SettingsLaws {
  import opened Wrappers
  import opened Json
  import opened SettingsModel
  import opened SettingsRoundTrip

  // ----- merging twice

  lemma NothingToAdd(existing: seq<Json>, values: seq<Json>)
    ensures Additions(existing + Additions(existing, values), values) == []
  {
    var a := Additions(existing, values);
    AdditionsAreNew(existing, values);
    AdditionsEmpty(existing + a, values);
  }

  lemma ExtendedTwice(section: Dict, lists: map<string, seq<Json>>)
    ensures Extended(Extended(section, lists), lists) == Extended(section, lists)
    ensures forall t :: RecordedIn(Extended(section, lists), lists, t) == []
  {
    hide ListAt, Additions, ExtendedList;
    var e := Extended(section, lists);
    forall t ensures RecordedIn(e, lists, t) == [] && (t in lists ==> t in e && ExtendedList(e, t, lists[t]) == e[t]) {
      if t in lists { ExtendedListTwice(section, lists, t); }
    }
  }

  lemma ExtendedListTwice(section: Dict, lists: map<string, seq<Json>>, t: string)
    requires t in lists
    ensures var e := Extended(section, lists);
            t in e && RecordedIn(e, lists, t) == [] && ExtendedList(e, t, lists[t]) == e[t]
  {
    var e, l := Extended(section, lists), ListAt(section, t);
    NothingToAdd(l, lists[t]);
    ExtendedAt(section, lists, t);
    ListAtList(section, t);
    ListAtList(e, t);
    if SameAt(section, e, t) { SameListAt(section, e, t); }
    hide ListAt, Additions, Extended;
    assert l + [] == l;
  }

  lemma SameListAt(a: Dict, b: Dict, t: string)
    requires SameAt(a, b, t)
    ensures ListAt(a, t) == ListAt(b, t)
  {
  }

  /** A section that already carries the template's lists is left alone and records nothing. */
  lemma ExtendSettled(m: Settings, s: Settings, n: SectionName, lists: map<string, seq<Json>>)
    requires Part(m, n) == Part(ExtendSection(s, n, lists), n)
    ensures ExtendSection(m, n, lists) == m
    ensures forall t :: RecordedIn(Section(m, n), lists, t) == []
  {
    ExtendedTwice(Section(s, n), lists);
    if lists != map[] {
      assert Section(m, n) == Extended(Section(s, n), lists);
      assert WithPart(m, n, Part(m, n)) == m;
    }
  }

  lemma {:induction false} NoSectionEntries(
      n: SectionName, names: seq<string>, section: Dict, lists: map<string, seq<Json>>)
    requires forall t | t in names :: t in lists && RecordedIn(section, lists, t) == []
    ensures SectionEntries(n, names, section, lists) == []
  {
    if names != [] {
      NoSectionEntries(n, names[1..], section, lists);
      assert RecordedIn(section, lists, names[0]) == [];
    }
  }

  lemma MergedByPart(s: Settings, p: Preset, o: MergeOptions)
    ensures var m, s1 := Merged(s, p, o), ExtendSection(s, Hooks, MergedLists(p, o, Hooks));
      && m.hooks == s1.hooks
      && m.permissions == ExtendSection(s1, Permissions, MergedLists(p, o, Permissions)).permissions
      && m.env == WithEnv(s, EnvValues(p)).env
      && m.others == WithScalar(s.others, STATUS_LINE, NewStatusLine(s, p, o))
  {
    hide MergedLists, Extended, EnvValues, NewStatusLine;
  }

  lemma StatusLineSettled(s: Settings, p: Preset, o: MergeOptions)
    ensures NewStatusLine(Merged(s, p, o), p, o) == None && !MergeConflicts(Merged(s, p, o), p, o)
  {
    hide Merged;
    MergedByPart(s, p, o);
    if WantsStatusLine(p, o) {
      PyEqReflexive(p.statusLine.value);
    }
  }

  lemma EnvSettled(s: Settings, m: Settings, env: Dict)
    requires m.env == WithEnv(s, env).env
    ensures WithEnv(m, env) == m
  {
    if env != map[] {
      assert Section(m, Env) + env == Section(m, Env);
    }
  }

  /** Merging what is already merged changes nothing, cannot conflict, and records only the env values. */
  lemma MergeAgain(s: Settings, p: Preset, o: MergeOptions)
    ensures var m := Merged(s, p, o);
      && Merged(m, p, o) == m
      && !MergeConflicts(m, p, o)
      && MergeEntries(m, p, o) == EnvEntries(EnvNames(p), EnvValues(p))
  {
    var m := Merged(s, p, o);
    MergedByPart(s, p, o);
    var h, l := MergedLists(p, o, Hooks), MergedLists(p, o, Permissions);
    ExtendSettled(m, s, Hooks, h);
    ExtendSettled(m, ExtendSection(s, Hooks, h), Permissions, l);
    StatusLineSettled(s, p, o);
    EnvSettled(s, m, EnvValues(p));
    hide MergedLists, ListNames, EnvNames, EnvValues, ExtendSection, NewStatusLine, SectionEntries, RecordedIn,
      MergeConflicts;
    assert Merged(m, p, o) == m.(others := WithScalar(m.others, STATUS_LINE, None));
    NoSectionEntries(Hooks, ListNames(p, o, Hooks), Section(m, Hooks), h);
    NoSectionEntries(Permissions, ListNames(p, o, Permissions), Section(m, Permissions), l);
  }

  // ----- smart unmerge and the user's edits

  predicate IsSubsequence(xs: seq<Json>, ys: seq<Json>) {
    || xs == []
    || (ys != [] && xs[0] == ys[0] && IsSubsequence(xs[1..], ys[1..]))
    || (ys != [] && IsSubsequence(xs, ys[1..]))
  }

  /** The filtered list is the current list in its own order, every kept value with all its copies,
      every removed value with none. */
  lemma {:induction false} WithoutIsFilter(n: SectionName, xs: seq<Json>, removed: seq<Json>)
    ensures IsSubsequence(Without(n, xs, removed), xs)
    ensures forall x :: multiset(Without(n, xs, removed))[x] == if Keeps(n, x, removed) then multiset(xs)[x] else 0
  {
    hide Keeps;
    if xs != [] {
      WithoutIsFilter(n, xs[1..], removed);
      var rest := Without(n, xs[1..], removed);
      assert xs == [xs[0]] + xs[1..];
      if Keeps(n, xs[0], removed) {
        assert ([xs[0]] + rest)[1..] == rest;
      } else {
        assert [] + rest == rest;
      }
    }
  }

  /** Under any edits, a smart unmerge only takes away: no list, env key or top-level key comes back that
      the user deleted, and what `added` does not name stays as it is. */
  lemma UnmergeRespectsUser(current: Settings, backup: Settings, added: Settings, n: SectionName, t: string)
    requires AddedOk(added)
    ensures var r := SmartUnmerged(current, backup, added);
      && (Part(r, n).Some? <==> Part(current, n).Some?)
      && (t in Section(r, n) ==> t in Section(current, n))
      && (t in r.others ==> t in current.others)
      && (t !in Section(added, n) ==> SameAt(Section(r, n), Section(current, n), t))
      && (t !in added.others ==> SameAt(r.others, current.others, t))
  {
    hide Without, PyEq, DeepEquals;
  }

  /** A hook list loses the added objects and a permission list the values equal to an added one, with all their
      copies; the rest keeps its order. */
  lemma UnmergedListIsFiltered(current: Settings, backup: Settings, added: Settings, n: SectionName, t: string)
    requires AddedOk(added) && n != Env
    requires t in Section(current, n) && Section(current, n)[t].Arr? && t in Section(added, n)
    ensures var r := Section(SmartUnmerged(current, backup, added), n);
      && t in r && r[t].Arr?
      && IsSubsequence(r[t].items, Section(current, n)[t].items)
      && forall x :: multiset(r[t].items)[x]
           == if (if n == Hooks then x.Obj? && x in Section(added, n)[t].items
                  else exists y | y in Section(added, n)[t].items :: PyEq(x, y))
              then 0 else multiset(Section(current, n)[t].items)[x]
  {
    hide Without, PyEq;
    WithoutIsFilter(n, Section(current, n)[t].items, Section(added, n)[t].items);
  }

  /** An env value or scalar the user changed survives; one left alone goes back to the backup's, or away. */
  lemma UnmergedValueByOwner(current: Settings, backup: Settings, added: Settings, k: string)
    requires AddedOk(added)
    ensures var r, env := SmartUnmerged(current, backup, added), Section(current, Env);
      && (k in env ==>
            if k in Section(added, Env) && PyEq(env[k], Section(added, Env)[k])
            then (if Get(Section(backup, Env), k) == Null then k !in Section(r, Env)
                  else k in Section(r, Env) && Section(r, Env)[k] == Section(backup, Env)[k])
            else SameAt(Section(r, Env), env, k))
      && (k in current.others ==>
            if k in added.others && current.others[k] == added.others[k]
            then (if Get(backup.others, k) == Null then k !in r.others
                  else k in r.others && r.others[k] == backup.others[k])
            else SameAt(r.others, current.others, k))
  {
    hide PyEq, DeepEquals;
    if k in current.others && k in added.others {
      DeepEqualsIsIdentity(current.others[k], added.others[k]);
    }
  }

  /** The guards of smart_unmerge let a section that is not an object through, but the cleanup that follows iterates
      over it: it takes the result exactly when every section of the current settings is an object. */
  lemma GuardsDoNotReachCleanup(current: Settings, backup: Settings, added: Settings)
    requires AddedOk(added)
    ensures SectionsAreObjects(SmartUnmerged(current, backup, added)) <==> SectionsAreObjects(current)
  {
    hide UnmergedLists, UnmergedEnv;
  }
}
