/** What the settings operations compute, on values. The methods of SettingsMerge are proved
    against these definitions; SettingsRoundTrip proves what the definitions guarantee. */
module SettingsModel {
  import opened Wrappers
  import opened Json
  import opened Ordering

  datatype SectionName = Hooks | Permissions | Env

  /** A settings object: its three sections, when present, and every other key. */
  datatype Settings = Settings(hooks: Option<Json>, permissions: Option<Json>, env: Option<Json>, others: Dict)

  const EMPTY: Settings := Settings(None, None, None, map[])
  const STATUS_LINE: string := "statusLine"

  /** A tracking key, "hooks.PreToolUse" say, split at its first dot. */
  datatype KeyPath = InSection(section: SectionName, name: string) | TopLevel(key: string)

  datatype MergeType = Append | Union | EnvOverride | Scalar

  /** stableId of a hook is the canonical text of the entry; the entry itself stands for it. */
  datatype Entry = Entry(path: KeyPath, value: Json, mergeType: MergeType, stableId: Json)

  /** The settings template. An absent section is the empty one: the merge treats both alike. */
  datatype Preset = Preset(
    hooks: map<string, seq<Json>>,
    allow: seq<string>,
    deny: seq<string>,
    statusLine: Option<Json>,
    env: map<string, string>)

  datatype MergeOptions = MergeOptions(force: bool, statusLine: bool, hooks: bool, permissions: bool)

  datatype Conflict = SettingsConflict(key: string, current: Json, wanted: Json)

  // ----- reading and replacing parts

  function Part(s: Settings, n: SectionName): Option<Json> {
    match n
    case Hooks => s.hooks
    case Permissions => s.permissions
    case Env => s.env
  }

  function WithPart(s: Settings, n: SectionName, v: Option<Json>): (r: Settings)
    ensures Part(r, n) == v && r.others == s.others && forall m | m != n :: Part(r, m) == Part(s, m)
  {
    match n
    case Hooks => s.(hooks := v)
    case Permissions => s.(permissions := v)
    case Env => s.(env := v)
  }

  function Section(s: Settings, n: SectionName): Dict {
    match Part(s, n)
    case Some(Obj(fields)) => fields
    case _ => map[]
  }

  /** What Python iterates over: a list's items, a string's characters, an object's keys. */
  function Elements(v: Json): Option<seq<Json>> {
    match v
    case Arr(items) => Some(items)
    case Str(s) => Some(Strings(seq(|s|, i requires 0 <= i < |s| => [s[i]])))
    case Obj(fields) => Some(Strings(SortedKeys(fields.Keys)))
    case _ => None
  }

  /** The items found under a name; the empty list that setdefault would put there. */
  function ListAt(section: Dict, name: string): seq<Json> {
    if name in section && Elements(section[name]).Some? then Elements(section[name]).value else []
  }

  /** dict.get(key): None, which is JSON's null, when the key is absent. */
  function Get(s: Dict, key: string): Json {
    if key in s then s[key] else Null
  }

  function Strings(xs: seq<string>): (r: seq<Json>)
    ensures |r| == |xs| && forall i | 0 <= i < |xs| :: r[i] == Str(xs[i])
  {
    seq(|xs|, i requires 0 <= i < |xs| => Str(xs[i]))
  }

  /** The lists of one section of the template; `if allow := ...` skips an empty permission list. */
  function Lists(p: Preset, n: SectionName): map<string, seq<Json>> {
    match n
    case Hooks => p.hooks
    case Permissions =>
      (if p.allow == [] then map[] else map["allow" := Strings(p.allow)]) +
      (if p.deny == [] then map[] else map["deny" := Strings(p.deny)])
    case Env => map[]
  }

  predicate Included(o: MergeOptions, n: SectionName) {
    match n
    case Hooks => o.hooks
    case Permissions => o.permissions
    case Env => true
  }

  function MergedLists(p: Preset, o: MergeOptions, n: SectionName): map<string, seq<Json>> {
    if Included(o, n) then Lists(p, n) else map[]
  }

  function EnvValues(p: Preset): Dict {
    map k | k in p.env :: Str(p.env[k])
  }

  /** Hook entries are objects and permission entries are strings. */
  predicate ValuesFit(n: SectionName, values: seq<Json>) {
    forall v | v in values :: if n == Hooks then v.Obj? else v.Str?
  }

  predicate PresetOk(p: Preset) {
    forall t | t in p.hooks :: ValuesFit(Hooks, p.hooks[t])
  }

  // ----- shapes: what the code indexes without checking

  predicate IsObject(v: Option<Json>) {
    v.Some? ==> v.value.Obj?
  }

  predicate SectionsAreObjects(s: Settings) {
    IsObject(s.hooks) && IsObject(s.permissions) && IsObject(s.env)
  }

  predicate Holds(items: seq<Json>, values: seq<Json>) {
    forall v | v in values :: v in items
  }

  /** Only a list can be appended to; anything that can be iterated over will do when nothing is appended. */
  predicate ListFits(section: Dict, n: SectionName, t: string, values: seq<Json>) {
    && (t in section && !section[t].Arr? ==> Elements(section[t]).Some? && Holds(ListAt(section, t), values))
    && (n == Permissions ==> forall x | x in ListAt(section, t) :: Hashable(x))
  }

  predicate ListsFit(section: Dict, n: SectionName, lists: map<string, seq<Json>>) {
    forall t | t in lists :: ListFits(section, n, t, lists[t])
  }

  predicate SectionFits(s: Settings, n: SectionName, lists: map<string, seq<Json>>) {
    (lists != map[] ==> IsObject(Part(s, n))) && ListsFit(Section(s, n), n, lists)
  }

  predicate MergeFits(s: Settings, p: Preset, o: MergeOptions) {
    && SectionFits(s, Hooks, MergedLists(p, o, Hooks))
    && SectionFits(s, Permissions, MergedLists(p, o, Permissions))
    && (p.env != map[] ==> IsObject(s.env))
  }

  // ----- merge

  /** The values of `values` that append-and-dedupe adds to `existing`, in order. */
  function Additions(existing: seq<Json>, values: seq<Json>): seq<Json>
    decreases values
  {
    if values == [] then []
    else if values[0] in existing then Additions(existing, values[1..])
    else [values[0]] + Additions(existing + [values[0]], values[1..])
  }

  function ExtendedList(section: Dict, name: string, values: seq<Json>): Json {
    var added := Additions(ListAt(section, name), values);
    if name in section && added == [] then section[name] else Arr(ListAt(section, name) + added)
  }

  function Extended(section: Dict, lists: map<string, seq<Json>>): Dict {
    map t | t in section.Keys + lists.Keys :: if t in lists then ExtendedList(section, t, lists[t]) else section[t]
  }

  /** Extends every list of one section; an empty template section is not even created. */
  function ExtendSection(s: Settings, n: SectionName, lists: map<string, seq<Json>>): Settings {
    if lists == map[] then s else WithPart(s, n, Some(Obj(Extended(Section(s, n), lists))))
  }

  function WithEnv(s: Settings, env: Dict): Settings {
    if env == map[] then s else s.(env := Some(Obj(Section(s, Env) + env)))
  }

  predicate ScalarConflicts(s: Settings, key: string, v: Json) {
    Get(s.others, key) != Null && !PyEq(Get(s.others, key), v)
  }

  predicate ScalarUnchanged(s: Settings, key: string, v: Json) {
    PyEq(Get(s.others, key), v)
  }

  predicate WantsStatusLine(p: Preset, o: MergeOptions) {
    o.statusLine && p.statusLine.Some?
  }

  predicate MergeConflicts(s: Settings, p: Preset, o: MergeOptions) {
    WantsStatusLine(p, o) && !o.force && ScalarConflicts(s, STATUS_LINE, p.statusLine.value)
  }

  predicate SetsStatusLine(s: Settings, p: Preset, o: MergeOptions) {
    WantsStatusLine(p, o) && !ScalarUnchanged(s, STATUS_LINE, p.statusLine.value)
  }

  function WithLists(s: Settings, p: Preset, o: MergeOptions): Settings {
    ExtendSection(ExtendSection(s, Hooks, MergedLists(p, o, Hooks)), Permissions, MergedLists(p, o, Permissions))
  }

  function NewStatusLine(s: Settings, p: Preset, o: MergeOptions): Option<Json> {
    if SetsStatusLine(s, p, o) then p.statusLine else None
  }

  function WithScalar(others: Dict, key: string, v: Option<Json>): Dict {
    if v.Some? then others[key := v.value] else others
  }

  function Merged(s: Settings, p: Preset, o: MergeOptions): Settings {
    var lists := WithLists(s, p, o);
    WithEnv(lists.(others := WithScalar(s.others, STATUS_LINE, NewStatusLine(s, p, o))), EnvValues(p))
  }

  // ----- the tracking entries of a merge

  function MergeTypeOf(n: SectionName): MergeType {
    match n
    case Hooks => Append
    case Permissions => Union
    case Env => EnvOverride
  }

  function ListEntries(n: SectionName, name: string, values: seq<Json>): (r: seq<Entry>)
    ensures |r| == |values|
    ensures forall i | 0 <= i < |r| :: r[i] == Entry(InSection(n, name), values[i], MergeTypeOf(n), values[i])
  {
    seq(|values|, i requires 0 <= i < |values| => Entry(InSection(n, name), values[i], MergeTypeOf(n), values[i]))
  }

  function SectionEntries(n: SectionName, names: seq<string>, section: Dict, lists: map<string, seq<Json>>): seq<Entry>
    requires forall t | t in names :: t in lists
  {
    if names == [] then [] else
    ListEntries(n, names[0], Additions(ListAt(section, names[0]), lists[names[0]])) +
    SectionEntries(n, names[1..], section, lists)
  }

  predicate Distinct(names: seq<string>) {
    forall i, j | 0 <= i < j < |names| :: names[i] != names[j]
  }

  /** The order in which a merge visits the lists of a section. */
  function ListNames(p: Preset, o: MergeOptions, n: SectionName): (r: seq<string>)
    ensures Distinct(r)
    ensures forall t :: t in r <==> t in MergedLists(p, o, n)
  {
    match n
    case Hooks =>
      var r := SortedKeys(MergedLists(p, o, n).Keys);
      AscendingDistinct(r);
      r
    case Permissions =>
      if !o.permissions then [] else
      (if p.allow == [] then [] else ["allow"]) + (if p.deny == [] then [] else ["deny"])
    case Env => []
  }

  function ListSectionEntries(s: Settings, p: Preset, o: MergeOptions, n: SectionName): seq<Entry> {
    SectionEntries(n, ListNames(p, o, n), Section(s, n), MergedLists(p, o, n))
  }

  function EnvEntry(name: string, v: Json): Entry {
    Entry(InSection(Env, name), v, EnvOverride, Str(name))
  }

  function EnvEntries(names: seq<string>, env: Dict): (r: seq<Entry>)
    requires forall k | k in names :: k in env
    ensures |r| == |names| && forall i | 0 <= i < |r| :: r[i] == EnvEntry(names[i], env[names[i]])
  {
    seq(|names|, i requires 0 <= i < |names| => EnvEntry(names[i], env[names[i]]))
  }

  function ScalarEntry(key: string, v: Json): Entry {
    Entry(TopLevel(key), v, Scalar, Str(key))
  }

  function ScalarEntries(key: string, v: Option<Json>): seq<Entry> {
    if v.Some? then [ScalarEntry(key, v.value)] else []
  }

  function EnvNames(p: Preset): (r: seq<string>)
    ensures Distinct(r)
    ensures forall k :: k in r <==> k in p.env
    ensures |r| == |p.env|
  {
    var r := SortedKeys(p.env.Keys);
    AscendingDistinct(r);
    r
  }

  function MergeEntries(s: Settings, p: Preset, o: MergeOptions): seq<Entry> {
    ListSectionEntries(s, p, o, Hooks) + ListSectionEntries(s, p, o, Permissions) +
    ScalarEntries(STATUS_LINE, NewStatusLine(s, p, o)) + EnvEntries(EnvNames(p), EnvValues(p))
  }

  // ----- the added file

  function AppendAt(added: Settings, n: SectionName, name: string, v: Json): Settings {
    var section := Section(added, n);
    WithPart(added, n, Some(Obj(section[name := Arr(ListAt(section, name) + [v])])))
  }

  /** One step of entries_to_added_structure. */
  function AddEntry(added: Settings, e: Entry): Settings {
    match e.path
    case InSection(Env, name) => added.(env := Some(Obj(Section(added, Env)[name := e.value])))
    case InSection(n, name) => AppendAt(added, n, name, e.value)
    case TopLevel(key) => if e.mergeType == Scalar then added.(others := added.others[key := e.value]) else added
  }

  function AddedStructure(entries: seq<Entry>): Settings {
    if entries == [] then EMPTY else AddEntry(AddedStructure(entries[..|entries| - 1]), entries[|entries| - 1])
  }

  // ----- smart unmerge

  /** Hooks go by canonical text and only when they are objects; permissions by `==`. */
  predicate Keeps(n: SectionName, x: Json, removed: seq<Json>) {
    if n == Hooks then !x.Obj? || x !in removed else !PyIn(x, removed)
  }

  function Without(n: SectionName, xs: seq<Json>, removed: seq<Json>): seq<Json> {
    if xs == [] then []
    else (if Keeps(n, xs[0], removed) then [xs[0]] else []) + Without(n, xs[1..], removed)
  }

  function UnmergedLists(n: SectionName, current: Dict, added: Dict): Dict {
    map t | t in current ::
      if t in added && current[t].Arr? then Arr(Without(n, current[t].items, ListAt(added, t))) else current[t]
  }

  function Backup(backup: Dict, key: string): Option<Json> {
    if key in backup && backup[key] != Null then Some(backup[key]) else None
  }

  predicate UntouchedEnv(current: Dict, added: Dict, k: string) {
    k in current && k in added && PyEq(current[k], added[k])
  }

  /** Values Forge set and nobody changed go back to the backup's, or away. */
  function UnmergedEnv(current: Dict, backup: Dict, added: Dict): Dict {
    map k | k in current && (UntouchedEnv(current, added, k) ==> Backup(backup, k).Some?) ::
      if UntouchedEnv(current, added, k) then Backup(backup, k).value else current[k]
  }

  predicate UntouchedScalar(current: Dict, added: Dict, k: string) {
    k in current && k in added && DeepEquals(current[k], added[k])
  }

  function UnmergedOthers(current: Dict, backup: Dict, added: Dict): Dict {
    map k | k in current && (UntouchedScalar(current, added, k) ==> Backup(backup, k).Some?) ::
      if UntouchedScalar(current, added, k) then Backup(backup, k).value else current[k]
  }

  /** A section that is not an object is left alone. */
  function UnmergedSection(n: SectionName, current: Settings, backup: Settings, added: Settings): Option<Json> {
    match Part(current, n)
    case Some(Obj(fields)) =>
      Some(Obj(if n == Env then UnmergedEnv(fields, Section(backup, n), Section(added, n))
               else UnmergedLists(n, fields, Section(added, n))))
    case other => other
  }

  function SmartUnmerged(current: Settings, backup: Settings, added: Settings): Settings {
    Settings(
      UnmergedSection(Hooks, current, backup, added),
      UnmergedSection(Permissions, current, backup, added),
      UnmergedSection(Env, current, backup, added),
      UnmergedOthers(current.others, backup.others, added.others))
  }

  /** What save_added_settings writes: sections are objects, hook and permission values are lists. */
  predicate AddedOk(added: Settings) {
    && SectionsAreObjects(added)
    && forall n, t | n in {Hooks, Permissions} && t in Section(added, n) :: Section(added, n)[t].Arr?
  }

  // ----- cleanup

  function CleanSection(section: Dict): Dict {
    map t | t in section && Truthy(section[t]) :: section[t]
  }

  function CleanPart(s: Settings, n: SectionName): Option<Json> {
    var clean := CleanSection(Section(s, n));
    if clean == map[] then None else Some(Obj(clean))
  }

  /** cleanup_empty_settings; it iterates over each section that is present, so each must be an object. */
  function Cleaned(s: Settings): Settings
    requires SectionsAreObjects(s)
  {
    Settings(CleanPart(s, Hooks), CleanPart(s, Permissions), CleanPart(s, Env), s.others)
  }

  // ----- the older unmerge

  /** What merge records; nothing else ever reaches the manifest. */
  predicate EntryOk(e: Entry) {
    match e.path
    case InSection(Hooks, _) => e.mergeType == Append && e.value.Obj? && e.stableId == e.value
    case InSection(Permissions, _) => e.mergeType == Union && e.value.Str? && e.stableId == e.value
    case InSection(Env, name) => e.mergeType == EnvOverride && e.value.Str? && e.stableId == Str(name)
    case TopLevel(key) => e.mergeType == Scalar && e.stableId == Str(key)
  }

  predicate EntriesOk(entries: seq<Entry>) { forall e | e in entries :: EntryOk(e) }

  predicate Tracks(entries: seq<Entry>, path: KeyPath) {
    exists e | e in entries :: e.path == path
  }

  /** The values recorded under one path, in order. */
  function ValuesAt(entries: seq<Entry>, path: KeyPath): seq<Json> {
    if entries == [] then []
    else (if entries[0].path == path then [entries[0].value] else []) + ValuesAt(entries[1..], path)
  }

  /** unmerge ignores a tracked hook whose value is the empty object. */
  function Removable(n: SectionName, xs: seq<Json>): seq<Json> {
    if xs == [] then []
    else (if n == Hooks && !Truthy(xs[0]) then [] else [xs[0]]) + Removable(n, xs[1..])
  }

  /** A tracked list is iterated over, whatever it is by now; permissions are looked up in a set. */
  predicate TrackedListsFit(n: SectionName, section: Dict, entries: seq<Entry>) {
    forall t | t in section && Tracks(entries, InSection(n, t)) ::
      && Elements(section[t]).Some?
      && (n == Permissions ==> forall x | x in ListAt(section, t) :: Hashable(x))
  }

  predicate Occurs(part: string, whole: string) {
    part <= whole || (whole != [] && Occurs(part, whole[1..]))
  }

  /** `name not in v` for a value that is no object: texts and lists can answer, numbers and null cannot. */
  predicate Lacks(v: Json, name: string) {
    match v
    case Str(text) => !Occurs(name, text)
    case Arr(items) => Str(name) !in items
    case _ => false
  }

  /** unmerge asks a section for its tracked names only; what is found in something that is no object cannot be
      taken out. */
  predicate SectionUnmergeFits(s: Settings, n: SectionName, entries: seq<Entry>) {
    match Part(s, n)
    case None => true
    case Some(Obj(fields)) => n != Env ==> TrackedListsFit(n, fields, entries)
    case Some(v) => forall e | e in entries && e.path.InSection? && e.path.section == n :: Lacks(v, e.path.name)
  }

  predicate UnmergeFits(s: Settings, entries: seq<Entry>) {
    && SectionUnmergeFits(s, Hooks, entries)
    && SectionUnmergeFits(s, Permissions, entries)
    && SectionUnmergeFits(s, Env, entries)
  }

  function UntrackedLists(n: SectionName, section: Dict, entries: seq<Entry>): Dict {
    map t | t in section ::
      if Tracks(entries, InSection(n, t)) && Elements(section[t]).Some? then
        Arr(Without(n, ListAt(section, t), Removable(n, ValuesAt(entries, InSection(n, t)))))
      else section[t]
  }

  function UntrackedEnv(section: Dict, entries: seq<Entry>): Dict {
    map k | k in section && !Tracks(entries, InSection(Env, k)) :: section[k]
  }

  function UntrackedOthers(others: Dict, entries: seq<Entry>): Dict {
    map k | k in others && !Tracks(entries, TopLevel(k)) :: others[k]
  }

  /** A section that is no object stays as it is. */
  function UntrackedSection(s: Settings, n: SectionName, entries: seq<Entry>): Option<Json> {
    match Part(s, n)
    case Some(Obj(fields)) =>
      Some(Obj(if n == Env then UntrackedEnv(fields, entries) else UntrackedLists(n, fields, entries)))
    case other => other
  }

  /** Tracked values go; a tracked scalar is deleted, not restored; an env section with nothing in it goes too. */
  function Unmerged(s: Settings, entries: seq<Entry>): Settings {
    var env := UntrackedSection(s, Env, entries);
    Settings(
      UntrackedSection(s, Hooks, entries),
      UntrackedSection(s, Permissions, entries),
      if env.Some? && !Truthy(env.value) then None else env,
      UntrackedOthers(s.others, entries))
  }
}
