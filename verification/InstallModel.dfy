/** What plan, init, update and uninstall do to files, manifest and settings, on values. */
module InstallModel {
  import opened Wrappers
  import opened SettingsModel
  import opened SettingsStore
  import opened SettingsPlan
  import opened FileSystem

  datatype Profile = Minimal | Standard | Full

  function Rank(p: Profile): nat {
    match p
    case Minimal => 0
    case Standard => 1
    case Full => 2
  }

  /** SKILL_PROFILE_REQUIREMENTS. */
  function RequiredProfile(skill: string): Option<Profile> {
    if skill == "qa" then Some(Full) else None
  }

  function ModuleDir(m: InstallModule): Option<string> {
    match m
    case CommandsModule => Some("commands")
    case AgentsModule => Some("agents")
    case SkillsModule => Some("skills")
    case _ => None
  }

  /** A tracked file. The checksum identifies the content, so the content stands for it. */
  datatype Record = Record(target: Path, checksum: Content)

  datatype Installation = Installation(modules: set<InstallModule>, profile: Profile, files: seq<Record>,
      entries: seq<Entry>)

  datatype World = World(fs: FS, manifest: Option<Installation>, store: Store)

  /** One call of init: the source tree (module directory first in each path) and the arguments. */
  datatype Request = Request(sources: map<Path, Content>, preset: Preset, modules: set<InstallModule>,
      profile: Profile, force: bool, now: Timestamp)

  /** The sources are the regular files of one tree, so none lies below another. */
  predicate RequestOk(req: Request) {
    && (forall r | r in req.sources :: |r| >= 2)
    && PrefixFree(req.sources.Keys)
    && PresetOk(req.preset)
  }

  // ----- which files are wanted

  function Targets(m: Option<Installation>): set<Path> {
    if m.Some? then set i | 0 <= i < |m.value.files| :: m.value.files[i].target else {}
  }

  predicate Within(root: Path, p: Path) { |root| <= |p| && p[..|root|] == root }

  /** skills/<name>/... under the target root. */
  predicate BelongsToSkill(root: Path, target: Path, skill: string) {
    Within(root, target) && |target| >= |root| + 3 && target[|root|] == "skills" && target[|root| + 1] == skill
  }

  predicate SkillInstalled(root: Path, m: Option<Installation>, skill: string) {
    exists t | t in Targets(m) :: BelongsToSkill(root, t, skill)
  }

  predicate SkillAllowed(root: Path, m: Option<Installation>, profile: Profile, skill: string) {
    var required := RequiredProfile(skill);
    required.None? || Rank(required.value) <= Rank(profile) || SkillInstalled(root, m, skill)
  }

  predicate ModuleChosen(modules: set<InstallModule>, dir: string) {
    exists m | m in modules :: ModuleDir(m) == Some(dir)
  }

  predicate Selected(root: Path, m: Option<Installation>, req: Request, rel: Path)
    requires |rel| >= 2
  {
    && ModuleChosen(req.modules, rel[0])
    && (rel[0] == "skills" ==> SkillAllowed(root, m, req.profile, rel[1]))
  }

  /** Target path to source content, for every file the plan mentions. */
  function Wanted(root: Path, m: Option<Installation>, req: Request): map<Path, Content>
    requires RequestOk(req)
  {
    map t | t in (set r | r in req.sources :: root + r) && Selected(root, m, req, t[|root|..]) ::
      req.sources[t[|root|..]]
  }

  lemma WantedAt(root: Path, m: Option<Installation>, req: Request, rel: Path)
    requires RequestOk(req) && |rel| >= 2
    ensures root + rel in Wanted(root, m, req) <==> rel in req.sources && Selected(root, m, req, rel)
    ensures root + rel in Wanted(root, m, req) ==> Wanted(root, m, req)[root + rel] == req.sources[rel]
  {
    assert (root + rel)[|root|..] == rel;
    if root + rel in Wanted(root, m, req) {
      var r :| r in req.sources && root + r == root + rel;
      assert (root + r)[|root|..] == r;
    }
  }

  lemma AboveUnder(root: Path, a: Path, b: Path)
    ensures Above(root + a, root + b) <==> Above(a, b)
  {
    if |a| < |b| {
      assert (root + b)[..|root + a|] == root + b[..|a|];
      assert root + a == root + b[..|a|] <==> a == b[..|a|] by {
        assert (root + a)[|root|..] == a && (root + b[..|a|])[|root|..] == b[..|a|];
      }
    }
  }

  lemma WantedBelowRoot(root: Path, m: Option<Installation>, req: Request)
    requires RequestOk(req)
    ensures forall t | t in Wanted(root, m, req) :: Within(root, t) && |t| >= |root| + 2
    ensures PrefixFree(Wanted(root, m, req).Keys)
  {
    forall p, q | p in Wanted(root, m, req) && q in Wanted(root, m, req) ensures !Above(p, q) {
      var a :| a in req.sources && root + a == p;
      var b :| b in req.sources && root + b == q;
      AboveUnder(root, a, b);
    }
  }

  // ----- _plan_file

  datatype FileAction = Install | Update | SkipFile | ConflictFile

  function PlanFile(fs: FS, tracked: set<Path>, target: Path, content: Content, force: bool): FileAction {
    if !Exists(fs, target) then Install
    else if target in tracked then
      if target in fs.files && fs.files[target] == content then SkipFile else Update
    else if force then Install
    else ConflictFile
  }

  predicate Writes(a: FileAction) { a == Install || a == Update }

  predicate FileConflicts(fs: FS, tracked: set<Path>, wanted: map<Path, Content>, force: bool) {
    exists t | t in wanted :: PlanFile(fs, tracked, t, wanted[t], force) == ConflictFile
  }

  /** The files an install writes. */
  function ToWrite(fs: FS, tracked: set<Path>, wanted: map<Path, Content>, force: bool): map<Path, Content> {
    map t | t in wanted && Writes(PlanFile(fs, tracked, t, wanted[t], force)) :: wanted[t]
  }

  predicate AllWritable(fs: FS, writes: map<Path, Content>) {
    forall t | t in writes :: Writable(fs, t)
  }

  // ----- stale files

  /** _is_forge_owned for copies: the file is there and still what was installed. */
  predicate Owned(fs: FS, r: Record) { r.target in fs.files && fs.files[r.target] == r.checksum }

  predicate StaleRecord(root: Path, fs: FS, planned: set<Path>, r: Record) {
    r.target !in planned && Within(root, r.target) && Owned(fs, r)
  }

  function Stale(root: Path, fs: FS, planned: set<Path>, files: seq<Record>): set<Path> {
    set i | 0 <= i < |files| && StaleRecord(root, fs, planned, files[i]) :: files[i].target
  }

  /** The directories strictly below the root on the way to p. */
  function Parents(root: Path, p: Path): set<Path> {
    set d | d in Ancestors(p) && Above(root, d)
  }

  function ParentsOf(root: Path, ps: set<Path>): (r: set<Path>)
    ensures forall d :: d in r <==> exists p | p in ps :: d in Parents(root, p)
  {
    set p, d | p in ps && d in Parents(root, p) :: d
  }

  function RemoveAndPrune(root: Path, fs: FS, gone: set<Path>, visited: set<Path>): FS {
    Pruned(FS(fs.files - gone, fs.dirs), ParentsOf(root, visited))
  }

  function AfterInstall(root: Path, w: World, wanted: map<Path, Content>, force: bool): FS {
    var written := WrittenAll(w.fs, ToWrite(w.fs, Targets(w.manifest), wanted, force));
    var stale := Stale(root, written, wanted.Keys, TrackedFiles(w.manifest));
    RemoveAndPrune(root, written, stale, stale)
  }

  // ----- the manifest

  /** Skipped tracked files whose source still exists. */
  function KeptRecords(files: seq<Record>, planned: set<Path>, written: set<Path>): seq<Record> {
    if files == [] then [] else
    var first := if files[0].target in planned && files[0].target !in written then [files[0]] else [];
    first + KeptRecords(files[1..], planned, written)
  }

  function RecordTargets(files: seq<Record>): set<Path> {
    set i | 0 <= i < |files| :: files[i].target
  }

  predicate DistinctTargets(files: seq<Record>) {
    forall i, j | 0 <= i < j < |files| :: files[i].target != files[j].target
  }

  /** The records of an install: exactly one per written file. */
  predicate RecordsOf(installed: seq<Record>, writes: map<Path, Content>) {
    && DistinctTargets(installed)
    && RecordTargets(installed) == writes.Keys
    && forall i | 0 <= i < |installed| ::
         installed[i].target in writes && installed[i].checksum == writes[installed[i].target]
  }

  function TrackedFiles(m: Option<Installation>): seq<Record> {
    if m.Some? then m.value.files else []
  }

  function TrackedEntries(m: Option<Installation>): seq<Entry> {
    if m.Some? then m.value.entries else []
  }

  // ----- init

  datatype Outcome =
    | Done
    | Conflicted     // the plan had conflicts: returned without executing
    | NotInstalled
    | Raised         // a Python exception ended the run half-way

  predicate HasConflicts(root: Path, w: World, req: Request)
    requires RequestOk(req) && PlanFits(Read(w.store), req.preset, req.modules)
  {
    || FileConflicts(w.fs, Targets(w.manifest), Wanted(root, w.manifest, req), req.force)
    || exists row | row in SettingsRows(Read(w.store), req.preset, req.modules, req.force) :: row.action == Conflicting
  }

  function BackedUp(st: Store, now: Timestamp): Store {
    if st.file.Some? then st.(backups := st.backups[now := st.file.value]) else st
  }

  function Only(writes: map<Path, Content>, done: set<Path>): map<Path, Content> {
    map t | t in writes && t in done :: writes[t]
  }

  /** Some of the files were written before the run stopped. */
  ghost predicate PartlyWritten(before: FS, after: FS, writes: map<Path, Content>) {
    exists done :: AllWritable(before, Only(writes, done)) && after == WrittenAll(before, Only(writes, done))
  }

  /** What init may do from w, and how it ends. */
  ghost predicate InitResult(root: Path, w: World, req: Request, after: World, outcome: Outcome)
    requires RequestOk(req)
  {
    var s := Read(w.store);
    var wanted := Wanted(root, w.manifest, req);
    var writes := ToWrite(w.fs, Targets(w.manifest), wanted, req.force);
    var o := InitOptions(req.modules, req.force);
    if !PlanFits(s, req.preset, req.modules) then
      outcome == Raised && after == w
    else if HasConflicts(root, w, req) && !req.force then
      outcome == Conflicted && after == w
    else if !AllWritable(w.fs, writes) then
      && outcome == Raised
      && after == World(after.fs, w.manifest, BackedUp(w.store, req.now))
      && PartlyWritten(w.fs, after.fs, writes)
    else if !MergeFits(s, req.preset, o) then
      outcome == Raised && after == World(WrittenAll(w.fs, writes), w.manifest, BackedUp(w.store, req.now))
    else
      && outcome == Done
      && after.fs == AfterInstall(root, w, wanted, req.force)
      && after.store == Enabled(w.store, req.preset, o, req.now)
      && after.manifest.Some?
      && after.manifest.value.modules == req.modules
      && after.manifest.value.profile == req.profile
      && after.manifest.value.entries == NextEntries(MergeEntries(s, req.preset, o), TrackedEntries(w.manifest))
      && exists installed :: RecordsOf(installed, writes)
           && after.manifest.value.files == installed + KeptRecords(TrackedFiles(w.manifest), wanted.Keys, writes.Keys)
  }

  /** update is init with the recorded modules and profile. */
  function UpdateRequest(m: Installation, req: Request): Request {
    req.(modules := m.modules, profile := m.profile)
  }

  ghost predicate UpdateResult(root: Path, w: World, req: Request, after: World, outcome: Outcome)
    requires RequestOk(req)
  {
    if w.manifest.None? then outcome == NotInstalled && after == w
    else InitResult(root, w, UpdateRequest(w.manifest.value, req), after, outcome)
  }

  // ----- uninstall

  /** The file loop gets through: every record is inside the root and none is a directory now. */
  predicate Deletable(root: Path, fs: FS, files: seq<Record>) {
    forall i | 0 <= i < |files| :: Within(root, files[i].target) && files[i].target !in fs.dirs
  }

  ghost predicate UninstallResult(root: Path, w: World, after: World, outcome: Outcome) {
    if w.manifest.None? then outcome == NotInstalled && after == w
    else
      var files, entries := w.manifest.value.files, w.manifest.value.entries;
      if !Deletable(root, w.fs, files) then
        && outcome == Raised
        && after == w.(fs := after.fs)
        && after.fs.dirs == w.fs.dirs
        && exists done | done <= RecordTargets(files) :: after.fs.files == w.fs.files - done
      else if !UninstallFits(w.store, entries) then
        && outcome == Raised
        && after == w.(fs := RemoveAndPrune(root, w.fs, RecordTargets(files), RecordTargets(files)))
      else
        && outcome == Done
        && after == World(RemoveAndPrune(root, w.fs, RecordTargets(files), RecordTargets(files)),
                          None, Uninstalled(w.store, entries))
  }
}
