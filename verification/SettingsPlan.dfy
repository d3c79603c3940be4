/** The settings half of the install plan, and how far it predicts the merge. */
module SettingsPlan {
  import opened Wrappers
  import opened Json
  import opened Ordering
  import opened SettingsModel
  import opened SettingsRoundTrip
  import opened SettingsLaws

  datatype InstallModule =
    CommandsModule | AgentsModule | SkillsModule | HooksModule | StatusLineModule | PermissionsModule

  datatype Action = Skip | Merge | Conflicting

  /** One SettingsPlan row: its action and its key path (a whole list for hooks and permissions). */
  datatype Row = Row(action: Action, path: KeyPath)

  /** init passes force and the status-line choice on; it always merges hooks and permissions. */
  function InitOptions(modules: set<InstallModule>, force: bool): MergeOptions {
    MergeOptions(force, StatusLineModule in modules, true, true)
  }

  function ModuleOf(n: SectionName): InstallModule {
    if n == Hooks then HooksModule else PermissionsModule
  }

  // ----- shapes the plan needs

  function ElementsAt(section: Dict, t: string): Option<seq<Json>> {
    if t in section then Elements(section[t]) else Some([])
  }

  /** The plan looks at the lists of the chosen modules that are not empty. */
  predicate Planned(p: Preset, modules: set<InstallModule>, n: SectionName, t: string) {
    n != Env && ModuleOf(n) in modules && t in Lists(p, n) && Lists(p, n)[t] != []
  }

  predicate PlanListFits(s: Settings, n: SectionName, t: string) {
    && IsObject(Part(s, n))
    && ElementsAt(Section(s, n), t).Some?
    && (n == Permissions ==> forall x | x in ElementsAt(Section(s, n), t).value :: Hashable(x))
  }

  predicate PlanSectionFits(s: Settings, p: Preset, modules: set<InstallModule>, n: SectionName) {
    forall t | t in Lists(p, n) && Planned(p, modules, n, t) :: PlanListFits(s, n, t)
  }

  predicate PlanFits(s: Settings, p: Preset, modules: set<InstallModule>) {
    && PlanSectionFits(s, p, modules, Hooks)
    && PlanSectionFits(s, p, modules, Permissions)
    && (p.env != map[] ==> IsObject(s.env))
  }

  // ----- the rows

  /** hooks_already_present and permissions_already_present. */
  predicate AlreadyPresent(section: Dict, t: string, values: seq<Json>)
    requires ElementsAt(section, t).Some?
  {
    forall v | v in values :: v in ElementsAt(section, t).value
  }

  function StatusLineRow(s: Settings, v: Json, force: bool): Row {
    Row(if ScalarUnchanged(s, STATUS_LINE, v) then Skip
        else if ScalarConflicts(s, STATUS_LINE, v) && !force then Conflicting
        else Merge, TopLevel(STATUS_LINE))
  }

  function StatusLineRows(s: Settings, p: Preset, modules: set<InstallModule>, force: bool): seq<Row> {
    if StatusLineModule in modules && p.statusLine.Some? then [StatusLineRow(s, p.statusLine.value, force)] else []
  }

  function ListRow(s: Settings, p: Preset, n: SectionName, t: string): Row
    requires n != Env && t in Lists(p, n) && PlanListFits(s, n, t)
  {
    Row(if AlreadyPresent(Section(s, n), t, Lists(p, n)[t]) then Skip else Merge, InSection(n, t))
  }

  predicate NamesFit(s: Settings, p: Preset, n: SectionName, names: seq<string>) {
    forall t | t in names :: t in Lists(p, n) && (Lists(p, n)[t] != [] ==> PlanListFits(s, n, t))
  }

  function ListRows(s: Settings, p: Preset, n: SectionName, names: seq<string>): seq<Row>
    requires n != Env && NamesFit(s, p, n, names)
  {
    if names == [] then []
    else
      assert names[0] in names && NamesFit(s, p, n, names[1..]);
      (if Lists(p, n)[names[0]] == [] then [] else [ListRow(s, p, n, names[0])]) + ListRows(s, p, n, names[1..])
  }

  /** The names of a section in the order plan and merge visit them. */
  function AllNames(p: Preset, n: SectionName): (r: seq<string>)
    ensures Distinct(r) && forall t :: t in r <==> t in Lists(p, n)
  {
    ListNames(p, MergeOptions(false, false, true, true), n)
  }

  function SectionRows(s: Settings, p: Preset, modules: set<InstallModule>, n: SectionName): seq<Row>
    requires n != Env && PlanSectionFits(s, p, modules, n)
  {
    if ModuleOf(n) in modules then ListRows(s, p, n, AllNames(p, n)) else []
  }

  function EnvRow(s: Settings, p: Preset, k: string): Row
    requires k in p.env
  {
    Row(if PyEq(Get(Section(s, Env), k), Str(p.env[k])) then Skip else Merge, InSection(Env, k))
  }

  function EnvRows(s: Settings, p: Preset, names: seq<string>): seq<Row>
    requires forall k | k in names :: k in p.env
  {
    if names == [] then [] else [EnvRow(s, p, names[0])] + EnvRows(s, p, names[1..])
  }

  function SettingsRows(s: Settings, p: Preset, modules: set<InstallModule>, force: bool): seq<Row>
    requires PlanFits(s, p, modules)
  {
    StatusLineRows(s, p, modules, force) + SectionRows(s, p, modules, Hooks) + SectionRows(s, p, modules, Permissions) +
    EnvRows(s, p, EnvNames(p))
  }

  // ----- _plan_settings

  lemma ListRowsFrom(s: Settings, p: Preset, n: SectionName, names: seq<string>, i: nat)
    requires n != Env && i < |names| && NamesFit(s, p, n, names[i..])
    ensures names[i] in Lists(p, n) && (Lists(p, n)[names[i]] != [] ==> PlanListFits(s, n, names[i]))
    ensures NamesFit(s, p, n, names[i + 1..])
    ensures ListRows(s, p, n, names[i..])
         == (if Lists(p, n)[names[i]] == [] then [] else [ListRow(s, p, n, names[i])])
           + ListRows(s, p, n, names[i + 1..])
  {
    hide ListRow, PlanListFits;
    assert names[i..][0] == names[i] && names[i..][1..] == names[i + 1..];
    assert names[i] in names[i..];
  }

  lemma SectionRowsAre(s: Settings, p: Preset, modules: set<InstallModule>, n: SectionName)
    requires n != Env && PlanSectionFits(s, p, modules, n)
    ensures ModuleOf(n) !in modules ==> SectionRows(s, p, modules, n) == []
    ensures ModuleOf(n) in modules ==>
      && NamesFit(s, p, n, AllNames(p, n))
      && SectionRows(s, p, modules, n) == ListRows(s, p, n, AllNames(p, n))
  {}

  method PlanSection(s: Settings, p: Preset, modules: set<InstallModule>, n: SectionName) returns (rows: seq<Row>)
    requires n != Env && PlanSectionFits(s, p, modules, n)
    ensures rows == SectionRows(s, p, modules, n)
  {
    hide SectionRows, AllNames, NamesFit, PlanListFits, PlanSectionFits, ListRow, ListRows, Lists, ModuleOf, Distinct;
    SectionRowsAre(s, p, modules, n);
    rows := [];
    if ModuleOf(n) in modules {
      var names := AllNames(p, n);
      assert names[0..] == names;
      for i := 0 to |names|
        invariant NamesFit(s, p, n, names[i..])
        invariant rows + ListRows(s, p, n, names[i..]) == ListRows(s, p, n, names)
      {
        ListRowsFrom(s, p, n, names, i);
        if Lists(p, n)[names[i]] == [] {
          continue;
        }
        rows := rows + [ListRow(s, p, n, names[i])];
      }
      NoRows(s, p, n, names);
    }
  }

  lemma NoRows(s: Settings, p: Preset, n: SectionName, names: seq<string>)
    requires n != Env
    ensures NamesFit(s, p, n, names[|names|..]) && ListRows(s, p, n, names[|names|..]) == []
  {}

  method PlanEnv(s: Settings, p: Preset) returns (rows: seq<Row>)
    ensures rows == EnvRows(s, p, EnvNames(p))
  {
    hide PyEq, EnvNames;
    rows := [];
    var names := EnvNames(p);
    for i := 0 to |names|
      invariant rows + EnvRows(s, p, names[i..]) == EnvRows(s, p, names)
    {
      assert names[i..][0] == names[i] && names[i..][1..] == names[i + 1..];
      assert names[i] in names;
      var present := PyEq(Get(Section(s, Env), names[i]), Str(p.env[names[i]]));
      rows := rows + [Row(if present then Skip else Merge, InSection(Env, names[i]))];
    }
  }

  method PlanSettings(s: Settings, p: Preset, modules: set<InstallModule>, force: bool) returns (rows: seq<Row>)
    requires PlanFits(s, p, modules)
    ensures rows == SettingsRows(s, p, modules, force)
  {
    rows := [];
    if StatusLineModule in modules && p.statusLine.Some? {
      var current, wanted := Get(s.others, STATUS_LINE), p.statusLine.value;
      if PyEq(current, wanted) {
        rows := [Row(Skip, TopLevel(STATUS_LINE))];
      } else if current != Null && !PyEq(current, wanted) && !force {
        rows := [Row(Conflicting, TopLevel(STATUS_LINE))];
      } else {
        rows := [Row(Merge, TopLevel(STATUS_LINE))];
      }
    }
    hide PyEq, SectionRows, EnvRows, PlanSectionFits;
    var hooks := PlanSection(s, p, modules, Hooks);
    var permissions := PlanSection(s, p, modules, Permissions);
    var env := PlanEnv(s, p);
    rows := rows + hooks + permissions + env;
  }

  // ----- what the rows say about the merge

  predicate IsListRow(s: Settings, p: Preset, n: SectionName, names: seq<string>, row: Row)
    requires n != Env && NamesFit(s, p, n, names)
  {
    && row.path.InSection? && row.path.section == n && row.path.name in names
    && Lists(p, n)[row.path.name] != []
    && row == ListRow(s, p, n, row.path.name)
  }

  lemma ListRowPath(s: Settings, p: Preset, n: SectionName, t: string)
    requires n != Env && t in Lists(p, n) && PlanListFits(s, n, t)
    ensures ListRow(s, p, n, t).path == InSection(n, t)
  {}

  lemma {:induction false} ListRowsMembers(s: Settings, p: Preset, n: SectionName, names: seq<string>, row: Row)
    requires n != Env && NamesFit(s, p, n, names)
    ensures row in ListRows(s, p, n, names) <==> IsListRow(s, p, n, names, row)
  {
    if names != [] {
      hide ListRow, PlanListFits, Lists;
      assert names[0] in names && NamesFit(s, p, n, names[1..]);
      ListRowsMembers(s, p, n, names[1..], row);
      assert names == [names[0]] + names[1..];
      if Lists(p, n)[names[0]] != [] { ListRowPath(s, p, n, names[0]); }
    }
  }

  lemma {:induction false} EnvRowsMembers(s: Settings, p: Preset, names: seq<string>, row: Row)
    requires forall k | k in names :: k in p.env
    ensures row in EnvRows(s, p, names)
       <==> (row.path.InSection? && row.path.section == Env && row.path.name in names
          && row == EnvRow(s, p, row.path.name))
  {
    if names != [] {
      hide PyEq;
      EnvRowsMembers(s, p, names[1..], row);
      assert names == [names[0]] + names[1..];
    }
  }

  /** Which rows a plan has: one per non-empty list of a chosen module, one per env value, and the status line. */
  lemma RowsOfPlan(s: Settings, p: Preset, modules: set<InstallModule>, force: bool, row: Row)
    requires PlanFits(s, p, modules)
    ensures row in SettingsRows(s, p, modules, force) <==>
      match row.path
      case TopLevel(k) =>
        StatusLineModule in modules && p.statusLine.Some? && row == StatusLineRow(s, p.statusLine.value, force)
      case InSection(Env, k) => k in p.env && row == EnvRow(s, p, k)
      case InSection(n, t) =>
        && (if n == Hooks then HooksModule in modules else PermissionsModule in modules)
        && t in Lists(p, n) && Lists(p, n)[t] != []
        && row == ListRow(s, p, n, t)
  {
    hide PyEq, ListRow, PlanListFits, EnvNames, AllNames, ListRows, EnvRows, Lists;
    SectionRowsAre(s, p, modules, Hooks);
    SectionRowsAre(s, p, modules, Permissions);
    if HooksModule in modules { ListRowsMembers(s, p, Hooks, AllNames(p, Hooks), row); }
    if PermissionsModule in modules { ListRowsMembers(s, p, Permissions, AllNames(p, Permissions), row); }
    EnvRowsMembers(s, p, EnvNames(p), row);
  }

  lemma FitForSection(s: Settings, p: Preset, modules: set<InstallModule>, n: SectionName)
    requires n != Env && SectionFits(s, n, Lists(p, n))
    ensures PlanSectionFits(s, p, modules, n)
  {
    hide Lists;
    forall t | t in Lists(p, n) && Planned(p, modules, n, t) ensures PlanListFits(s, n, t) {
      assert t in Section(s, n) ==> Elements(Section(s, n)[t]) == Some(ListAt(Section(s, n), t));
    }
  }

  /** Settings that the merge accepts, the plan accepts. */
  lemma MergeableIsPlannable(s: Settings, p: Preset, modules: set<InstallModule>, force: bool)
    requires MergeFits(s, p, InitOptions(modules, force))
    ensures PlanFits(s, p, modules)
  {
    hide Lists, SectionFits, PlanSectionFits;
    FitForSection(s, p, modules, Hooks);
    FitForSection(s, p, modules, Permissions);
  }

  /** What stops the merge of one list although the plan was made: for a list the plan looked at, new values and no list
      to append them to; for one it did not look at, any shape that does not fit. */
  predicate MissedByPlan(s: Settings, p: Preset, modules: set<InstallModule>, n: SectionName, t: string)
    requires t in Lists(p, n)
  {
    if Planned(p, modules, n, t) then
      t in Section(s, n) && !Section(s, n)[t].Arr? && !Holds(ListAt(Section(s, n), t), Lists(p, n)[t])
    else
      !IsObject(Part(s, n)) || !ListFits(Section(s, n), n, t, Lists(p, n)[t])
  }

  lemma PlannedListFits(s: Settings, p: Preset, modules: set<InstallModule>, n: SectionName, t: string)
    requires n != Env && PlanSectionFits(s, p, modules, n) && t in Lists(p, n)
    ensures !MissedByPlan(s, p, modules, n, t)
       <==> IsObject(Part(s, n)) && ListFits(Section(s, n), n, t, Lists(p, n)[t])
  {
    hide Lists, Holds, Elements, Hashable;
    if Planned(p, modules, n, t) {
      assert PlanListFits(s, n, t);
    }
  }

  lemma PlannedSectionFits(s: Settings, p: Preset, modules: set<InstallModule>, n: SectionName)
    requires n != Env && PlanSectionFits(s, p, modules, n)
    ensures SectionFits(s, n, Lists(p, n)) <==> forall t | t in Lists(p, n) :: !MissedByPlan(s, p, modules, n, t)
  {
    hide Lists, ListFits, MissedByPlan, PlanSectionFits;
    forall t | t in Lists(p, n)
      ensures !MissedByPlan(s, p, modules, n, t)
         <==> IsObject(Part(s, n)) && ListFits(Section(s, n), n, t, Lists(p, n)[t])
    {
      PlannedListFits(s, p, modules, n, t);
    }
    if Lists(p, n) != map[] {
      var t :| t in Lists(p, n);
      assert !MissedByPlan(s, p, modules, n, t) ==> IsObject(Part(s, n));
    }
  }

  /** Once the plan was made, the merge can still stop on a shape, after the files are written, exactly when the plan
      missed one. */
  lemma PlanGap(s: Settings, p: Preset, modules: set<InstallModule>, force: bool)
    requires PlanFits(s, p, modules)
    ensures MergeFits(s, p, InitOptions(modules, force))
       <==> forall n, t | n != Env && t in Lists(p, n) :: !MissedByPlan(s, p, modules, n, t)
  {
    hide Lists, SectionFits, MissedByPlan, PlanSectionFits;
    PlannedSectionFits(s, p, modules, Hooks);
    PlannedSectionFits(s, p, modules, Permissions);
  }

  /** First input: without the hooks module the plan never looks at a hooks section that is null. */
  lemma PlanMissesShape(t: string, entry: Json)
    requires entry.Obj?
    ensures var s, p := EMPTY.(hooks := Some(Null)), Preset(map[t := [entry]], [], [], None, map[]);
      && PlanFits(s, p, {CommandsModule})
      && SettingsRows(s, p, {CommandsModule}, false) == []
      && !MergeFits(s, p, InitOptions({CommandsModule}, false))
  {
    var s, p := EMPTY.(hooks := Some(Null)), Preset(map[t := [entry]], [], [], None, map[]);
    assert t in p.hooks;
    assert SectionRows(s, p, {CommandsModule}, Hooks) == [] && SectionRows(s, p, {CommandsModule}, Permissions) == [];
    assert EnvNames(p) == [];
  }

  /** Second input, with the module chosen: the plan reads the letters of a text where a hook list should be, announces
      a merge, and the merge has nothing to append to. */
  lemma PlanMissesText(t: string, entry: Json, text: string, modules: set<InstallModule>)
    requires entry.Obj? && HooksModule in modules
    ensures var s, p := EMPTY.(hooks := Some(Obj(map[t := Str(text)]))), Preset(map[t := [entry]], [], [], None, map[]);
      && PlanFits(s, p, modules)
      && Row(Merge, InSection(Hooks, t)) in SettingsRows(s, p, modules, false)
      && !MergeFits(s, p, InitOptions(modules, false))
  {
    var s, p := EMPTY.(hooks := Some(Obj(map[t := Str(text)]))), Preset(map[t := [entry]], [], [], None, map[]);
    TextIsMissed(t, entry, text, s, p, modules);
    hide Lists, PlanFits, MergeFits, SettingsRows, MissedByPlan, PlanListFits, ListRow;
    PlanGap(s, p, modules, false);
    RowsOfPlan(s, p, modules, false, Row(Merge, InSection(Hooks, t)));
  }

  lemma TextIsMissed(t: string, entry: Json, text: string, s: Settings, p: Preset, modules: set<InstallModule>)
    requires entry.Obj? && HooksModule in modules
    requires s == EMPTY.(hooks := Some(Obj(map[t := Str(text)]))) && p == Preset(map[t := [entry]], [], [], None, map[])
    ensures PlanFits(s, p, modules) && Planned(p, modules, Hooks, t) && t in Lists(p, Hooks)
      && PlanListFits(s, Hooks, t)
    ensures MissedByPlan(s, p, modules, Hooks, t) && ListRow(s, p, Hooks, t) == Row(Merge, InSection(Hooks, t))
  {
    assert entry in p.hooks[t] && p.hooks[t] != [];
    assert forall v | v in ListAt(Section(s, Hooks), t) :: v.Str?;
    assert Lists(p, Permissions) == map[];
  }

  lemma InitMergesAllLists(s: Settings, p: Preset, modules: set<InstallModule>, force: bool, n: SectionName)
    ensures MergedLists(p, InitOptions(modules, force), n) == Lists(p, n)
    ensures n != Env && MergeFits(s, p, InitOptions(modules, force)) ==> ListsFit(Section(s, n), n, Lists(p, n))
  {
    hide Lists;
  }

  lemma ElementsOfList(section: Dict, t: string)
    requires ElementsAt(section, t).Some?
    ensures ElementsAt(section, t) == Some(ListAt(section, t))
  {}

  /** A list row says skip exactly when the merge records nothing for that list. */
  lemma ListRowPredicts(s: Settings, p: Preset, modules: set<InstallModule>, force: bool, n: SectionName, t: string)
    requires n != Env && t in Lists(p, n) && MergeFits(s, p, InitOptions(modules, force)) && PlanListFits(s, n, t)
    ensures ListRow(s, p, n, t).action == Skip
       <==> ValuesAt(MergeEntries(s, p, InitOptions(modules, force)), InSection(n, t)) == []
  {
    hide Lists, MergeEntries, MergedLists, MergeFits, ValuesAt, InitOptions, ElementsAt;
    var o := InitOptions(modules, force);
    InitMergesAllLists(s, p, modules, force, n);
    MergeEntriesValues(s, p, o, InSection(n, t));
    ElementsOfList(Section(s, n), t);
    AdditionsEmpty(ListAt(Section(s, n), t), Lists(p, n)[t]);
    hide Additions;
  }

  lemma EnvRowPredicts(s: Settings, p: Preset, o: MergeOptions, k: string)
    requires k in p.env
    ensures EnvRow(s, p, k).action == Skip <==> SameAt(Section(Merged(s, p, o), Env), Section(s, Env), k)
  {
    MergedByPart(s, p, o);
    assert k in EnvValues(p);
    hide Merged;
    var cur := Get(Section(s, Env), k);
    assert PyEq(cur, Str(p.env[k])) <==> cur == Str(p.env[k]);
  }

  /** On settings the merge accepts: a conflict row is exactly a merge that raises; a hook, permission or
      status-line row is skip exactly when the merge records no entry for it; an env row is skip exactly
      when the merge leaves that value as it is. */
  lemma PlanPredictsMerge(s: Settings, p: Preset, modules: set<InstallModule>, force: bool, row: Row)
    requires MergeFits(s, p, InitOptions(modules, force))
    requires PlanFits(s, p, modules) && row in SettingsRows(s, p, modules, force)
    ensures var o := InitOptions(modules, force);
      match row.path
      case TopLevel(_) =>
        && (row.action == Conflicting <==> MergeConflicts(s, p, o))
        && (row.action == Skip <==> ValuesAt(MergeEntries(s, p, o), row.path) == [])
      case InSection(Env, k) => row.action == Skip <==> SameAt(Section(Merged(s, p, o), Env), Section(s, Env), k)
      case InSection(_, _) => row.action == Skip <==> ValuesAt(MergeEntries(s, p, o), row.path) == []
  {
    var o := InitOptions(modules, force);
    RowsOfPlan(s, p, modules, force, row);
    hide SettingsRows, MergeEntries, Merged, MergeFits, PlanFits, Lists, ListRow, EnvRow, Planned;
    match row.path
    case TopLevel(_) =>
      MergeEntriesValues(s, p, o, row.path);
      NewStatusLineMeaning(s, p, o);
    case InSection(Env, k) =>
      EnvRowPredicts(s, p, o, k);
    case InSection(n, t) =>
      PlannedFits(s, p, modules, n, t);
      ListRowPredicts(s, p, modules, force, n, t);
  }

  lemma PlannedFits(s: Settings, p: Preset, modules: set<InstallModule>, n: SectionName, t: string)
    requires PlanFits(s, p, modules) && Planned(p, modules, n, t)
    ensures t in Lists(p, n) && PlanListFits(s, n, t)
  {
    hide Lists, PlanListFits;
  }

  /** A plan without a conflict row means the merge cannot raise a conflict, and conversely. */
  lemma ConflictFreePlanMerges(s: Settings, p: Preset, modules: set<InstallModule>, force: bool)
    requires PlanFits(s, p, modules)
    ensures (exists row | row in SettingsRows(s, p, modules, force) :: row.action == Conflicting)
       <==> MergeConflicts(s, p, InitOptions(modules, force))
  {
    hide SettingsRows, PlanFits, PlanListFits, Lists, PyEq;
    forall row { RowsOfPlan(s, p, modules, force, row); }
    if MergeConflicts(s, p, InitOptions(modules, force)) {
      var row := StatusLineRow(s, p.statusLine.value, force);
      assert row.action == Conflicting && row.path == TopLevel(STATUS_LINE);
      assert row in SettingsRows(s, p, modules, force);
    }
  }

  /** A plan without a conflict row means that the merge goes through, exactly when the plan missed no shape. */
  lemma ConflictFreePlanIsSafe(s: Settings, p: Preset, modules: set<InstallModule>, force: bool)
    requires PlanFits(s, p, modules)
    requires forall row | row in SettingsRows(s, p, modules, force) :: row.action != Conflicting
    ensures MergeFits(s, p, InitOptions(modules, force)) && !MergeConflicts(s, p, InitOptions(modules, force))
       <==> forall n, t | n != Env && t in Lists(p, n) :: !MissedByPlan(s, p, modules, n, t)
  {
    hide SettingsRows, PlanFits, MergeFits, Lists, MissedByPlan;
    PlanGap(s, p, modules, force);
    ConflictFreePlanMerges(s, p, modules, force);
  }

  /** What the plan does not announce: an entry the merge records has no row at all exactly when it is a
      hook or permission of a module that was not chosen. */
  lemma UnannouncedEntries(s: Settings, p: Preset, modules: set<InstallModule>, force: bool, path: KeyPath)
    requires PlanFits(s, p, modules)
    requires ValuesAt(MergeEntries(s, p, InitOptions(modules, force)), path) != []
    ensures (forall row | row in SettingsRows(s, p, modules, force) :: row.path != path)
       <==> path.InSection? && ((path.section == Hooks && HooksModule !in modules)
                               || (path.section == Permissions && PermissionsModule !in modules))
  {
    var o := InitOptions(modules, force);
    MergeEntriesValues(s, p, o, path);
    hide SettingsRows, PlanListFits, MergeEntries, PyEq, Lists;
    forall row { RowsOfPlan(s, p, modules, force, row); }
    match path
    case TopLevel(k) =>
      NewStatusLineMeaning(s, p, o);
      var row := StatusLineRow(s, p.statusLine.value, force);
      assert row in SettingsRows(s, p, modules, force) && row.path == path;
    case InSection(Env, k) =>
      var row := EnvRow(s, p, k);
      assert row in SettingsRows(s, p, modules, force) && row.path == path;
    case InSection(n, t) =>
      if ModuleOf(n) in modules {
        PlannedFits(s, p, modules, n, t);
        var row := ListRow(s, p, n, t);
        assert row in SettingsRows(s, p, modules, force) && row.path == path;
      }
  }
}
