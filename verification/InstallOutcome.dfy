/** What init, update and uninstall mean for each source file, each file of the user's and the settings, said without
    the words of the plan. */
module InstallOutcome {
  import opened Wrappers
  import opened Json
  import opened SettingsModel
  import opened SettingsRoundTrip
  import opened SettingsStore
  import opened SettingsPlan
  import opened SettingsOutcome
  import opened FileSystem
  import opened InstallModel
  import opened InstallLaws
  import opened InstallRuns

  // ----- which sources are installed

  /** The skill that needs the full profile is installed: some tracked file lies below its directory. */
  predicate QaInstalled(root: Path, tracked: set<Path>) {
    exists t | t in tracked :: |t| >= |root| + 3 && t[..|root| + 2] == root + ["skills", "qa"]
  }

  /** A source file is meant to be installed: its module is chosen, and "qa" needs the full profile unless it is
      installed already. */
  predicate Meant(root: Path, tracked: set<Path>, modules: set<InstallModule>, profile: Profile, r: Path) {
    && |r| >= 2
    && (|| (r[0] == "commands" && CommandsModule in modules)
        || (r[0] == "agents" && AgentsModule in modules)
        || (r[0] == "skills" && SkillsModule in modules
            && (r[1] == "qa" ==> profile == Full || QaInstalled(root, tracked))))
  }

  lemma ModuleDirs(modules: set<InstallModule>, dir: string)
    ensures ModuleChosen(modules, dir) <==>
      || (dir == "commands" && CommandsModule in modules)
      || (dir == "agents" && AgentsModule in modules)
      || (dir == "skills" && SkillsModule in modules)
  {
    assert ModuleDir(CommandsModule) == Some("commands") && ModuleDir(AgentsModule) == Some("agents");
    assert ModuleDir(SkillsModule) == Some("skills");
  }

  lemma QaIsTheGatedSkill(root: Path, m: Option<Installation>)
    ensures SkillInstalled(root, m, "qa") <==> QaInstalled(root, Targets(m))
  {
    hide Targets;
    forall t
      ensures BelongsToSkill(root, t, "qa") <==> |t| >= |root| + 3 && t[..|root| + 2] == root + ["skills", "qa"]
    {
      if |t| >= |root| + 3 {
        assert t[..|root| + 2] == t[..|root|] + [t[|root|], t[|root| + 1]];
      }
    }
    if QaInstalled(root, Targets(m)) {
      var t :| t in Targets(m) && |t| >= |root| + 3 && t[..|root| + 2] == root + ["skills", "qa"];
      assert BelongsToSkill(root, t, "qa");
    }
  }

  lemma MeantIsSelected(root: Path, m: Option<Installation>, req: Request, r: Path)
    requires |r| >= 2
    ensures Selected(root, m, req, r) <==> Meant(root, Targets(m), req.modules, req.profile, r)
  {
    ModuleDirs(req.modules, r[0]);
    QaIsTheGatedSkill(root, m);
    hide SkillInstalled, QaInstalled, ModuleChosen, Targets;
  }

  /** The plan mentions exactly the sources that are meant to be installed, each at its place below the root. */
  lemma PlannedIsMeant(root: Path, m: Option<Installation>, req: Request)
    requires RequestOk(req)
    ensures var wanted := Wanted(root, m, req);
      && (forall r | r in req.sources ::
            root + r in wanted <==> Meant(root, Targets(m), req.modules, req.profile, r))
      && (forall r | r in req.sources && root + r in wanted :: wanted[root + r] == req.sources[r])
      && (forall t | t in wanted :: Within(root, t) && t[|root|..] in req.sources)
  {
    hide Selected, Meant, Targets;
    forall r | r in req.sources
      ensures root + r in Wanted(root, m, req) <==> Meant(root, Targets(m), req.modules, req.profile, r)
      ensures root + r in Wanted(root, m, req) ==> Wanted(root, m, req)[root + r] == req.sources[r]
    {
      WantedAt(root, m, req, r);
      MeantIsSelected(root, m, req, r);
    }
    forall t | t in Wanted(root, m, req) ensures Within(root, t) && t[|root|..] in req.sources {
      var r :| r in req.sources && root + r == t;
      assert t[|root|..] == r && t[..|root|] == root;
    }
  }

  /** After an init that ran to its end a source file is tracked and in place if and only if it was meant to be, and
      nothing else is tracked. */
  lemma InstalledIsMeant(root: Path, w: World, req: Request, after: World)
    requires RequestOk(req) && InitResult(root, w, req, after, Done)
    ensures forall r | r in req.sources ::
      root + r in Targets(after.manifest) <==> Meant(root, Targets(w.manifest), req.modules, req.profile, r)
    ensures forall r | r in req.sources && Meant(root, Targets(w.manifest), req.modules, req.profile, r) ::
      root + r in after.fs.files && after.fs.files[root + r] == req.sources[r]
    ensures forall t | t in Targets(after.manifest) :: Within(root, t) && t[|root|..] in req.sources
  {
    PlannedIsMeant(root, w.manifest, req);
    InstalledAsPlanned(root, w, req, after);
    hide InitResult, Wanted, Targets, Meant, StillOurs;
  }

  // ----- conflicts

  /** A file that is to be installed would replace something that Forge does not track. */
  predicate InTheWay(root: Path, w: World, req: Request, r: Path) {
    && r in req.sources && Meant(root, Targets(w.manifest), req.modules, req.profile, r)
    && root + r !in Targets(w.manifest) && (root + r in w.fs.files || root + r in w.fs.dirs)
  }

  /** The settings hold a status line of the user's that a chosen preset would replace. */
  predicate ForeignStatusLine(s: Settings, req: Request) {
    && StatusLineModule in req.modules && req.preset.statusLine.Some?
    && STATUS_LINE in s.others && s.others[STATUS_LINE] != Null
    && !PyEq(s.others[STATUS_LINE], req.preset.statusLine.value)
  }

  lemma FileConflictsAre(root: Path, w: World, req: Request)
    requires RequestOk(req) && !req.force
    ensures FileConflicts(w.fs, Targets(w.manifest), Wanted(root, w.manifest, req), false)
       <==> exists r :: InTheWay(root, w, req, r)
  {
    PlannedIsMeant(root, w.manifest, req);
    hide Meant, Targets, Wanted;
    var wanted := Wanted(root, w.manifest, req);
    if t :| t in wanted && PlanFile(w.fs, Targets(w.manifest), t, wanted[t], false) == ConflictFile {
      assert root + t[|root|..] == t;
      assert InTheWay(root, w, req, t[|root|..]);
    }
    if r :| InTheWay(root, w, req, r) {
      assert PlanFile(w.fs, Targets(w.manifest), root + r, wanted[root + r], false) == ConflictFile;
    }
  }

  /** When init gives up over conflicts: exactly when it is not forced and would replace an untracked file or directory,
      or a status line of the user's. */
  lemma InitConflictsExactly(root: Path, w: World, req: Request, after: World, outcome: Outcome)
    requires RequestOk(req) && PlanFits(Read(w.store), req.preset, req.modules)
    requires InitResult(root, w, req, after, outcome)
    ensures outcome == Conflicted <==>
      !req.force && ((exists r :: InTheWay(root, w, req, r)) || ForeignStatusLine(Read(w.store), req))
  {
    var s := Read(w.store);
    ConflictFreePlanMerges(s, req.preset, req.modules, req.force);
    ConflictIsForeignStatusLine(s, req.preset, InitOptions(req.modules, req.force));
    if !req.force { FileConflictsAre(root, w, req); }
    hide PlanFits, MergeFits, MergeConflicts, SettingsRows, FileConflicts, InTheWay, Wanted, Targets, ToWrite, PyEq;
  }

  // ----- the user's status line

  predicate SameStatusLine(a: World, b: World) {
    SameAt(Read(a.store).others, Read(b.store).others, STATUS_LINE)
  }

  predicate HasStatusLine(w: World) { Get(Read(w.store).others, STATUS_LINE) != Null }

  lemma StatusLineSurvivesInit(root: Path, w: World, req: Request, after: World, outcome: Outcome)
    requires RequestOk(req) && InitResult(root, w, req, after, outcome) && !req.force && HasStatusLine(w)
    ensures SameStatusLine(after, w)
  {
    var s, o := Read(w.store), InitOptions(req.modules, req.force);
    if outcome == Done {
      ConflictFreePlanMerges(s, req.preset, req.modules, req.force);
      MergedStatusLine(s, req.preset, o);
      hide PlanFits, MergeFits, MergeConflicts, SettingsRows, FileConflicts, Wanted, Targets, ToWrite, Merged,
        MergeEntries, PyEq;
      assert after.store.file == Some(Merged(s, req.preset, o));
    }
  }

  /** However many inits and updates run without --force, a status line of the user's stays what it is. */
  lemma {:induction false} StatusLineSurvivesRun(root: Path, ws: seq<World>, steps: seq<Step>, outcomes: seq<Outcome>,
      i: nat)
    requires IsRun(root, ws, steps, outcomes) && i <= |steps| && HasStatusLine(ws[0])
    requires forall j | 0 <= j < i ::
      && NonForced(steps[j]) && !steps[j].UninstallStep?
      && (steps[j].EditStep? ==> SameStatusLine(ws[j + 1], ws[j]))
    ensures SameStatusLine(ws[i], ws[0])
  {
    if i > 0 {
      StatusLineSurvivesRun(root, ws, steps, outcomes, i - 1);
      var w, after, step, outcome := ws[i - 1], ws[i - 1 + 1], steps[i - 1], outcomes[i - 1];
      assert Next(root, w, step, after, outcome) && NonForced(step);
      hide IsRun, InitResult, UninstallResult, RequestOk, Targets;
      match step
      case InitStep(req) => StatusLineSurvivesInit(root, w, req, after, outcome);
      case UpdateStep(req) =>
        if w.manifest.Some? {
          UpdateRequestOk(w.manifest.value, req);
          StatusLineSurvivesInit(root, w, UpdateRequest(w.manifest.value, req), after, outcome);
        }
      case EditStep =>
    }
  }

  // ----- files whose source is gone

  /** What becomes of a tracked file whose source is gone: it is deleted if and only if it lies inside the root and is
      still what was installed, and it is no longer tracked. */
  lemma FateOfStaleFile(root: Path, w: World, req: Request, after: World, r: Record)
    requires RequestOk(req) && InitResult(root, w, req, after, Done)
    requires DistinctTargets(TrackedFiles(w.manifest)) && r in TrackedFiles(w.manifest)
    requires !(exists s | s in req.sources ::
      root + s == r.target && Meant(root, Targets(w.manifest), req.modules, req.profile, s))
    ensures r.target !in Targets(after.manifest)
    ensures r.target in after.fs.files
       <==> r.target in w.fs.files
            && !(Within(root, r.target) && w.fs.files[r.target] == r.checksum)
    ensures r.target in after.fs.files ==> SameFile(after.fs, w.fs, r.target)
  {
    PlannedIsMeant(root, w.manifest, req);
    InstalledAsPlanned(root, w, req, after);
    hide InitResult, Wanted, Targets, Meant;
    assert StillOurs(root, w, r.target) <==> Within(root, r.target) && Owned(w.fs, r);
  }

  lemma RecordOfWritten(root: Path, w: World, req: Request, after: World, s: Path)
    requires RequestOk(req) && InitResult(root, w, req, after, Done)
    requires s in req.sources && Meant(root, Targets(w.manifest), req.modules, req.profile, s)
    requires root + s !in w.fs.files || w.fs.files[root + s] != req.sources[s]
    ensures Record(root + s, req.sources[s]) in TrackedFiles(after.manifest)
  {
    DoneParts(root, w, req, after);
    PlannedIsMeant(root, w.manifest, req);
    hide InitResult, Wanted, Targets, Meant, KeptRecords, AfterInstall, PlanFits, MergeFits, AllWritable, RecordsOf,
      ToWrite, FileConflicts;
    var wanted, t := Wanted(root, w.manifest, req), root + s;
    var writes := ToWrite(w.fs, Targets(w.manifest), wanted, req.force);
    var installed :| RecordsOf(installed, writes)
      && after.manifest.value.files == installed + KeptRecords(TrackedFiles(w.manifest), wanted.Keys, writes.Keys);
    WritesSplit(w.fs, Targets(w.manifest), wanted, req.force);
    WritesAsWanted(w.fs, Targets(w.manifest), wanted, req.force);
    assert t in writes && writes[t] == req.sources[s];
    WrittenIsRecorded(installed, writes, t);
    FilesOf(after.manifest);
  }

  lemma WritesAsWanted(fs: FS, tracked: set<Path>, wanted: map<Path, Content>, force: bool)
    ensures forall t | t in ToWrite(fs, tracked, wanted, force) ::
      t in wanted && ToWrite(fs, tracked, wanted, force)[t] == wanted[t]
  {}

  lemma WrittenIsRecorded(installed: seq<Record>, writes: map<Path, Content>, t: Path)
    requires RecordsOf(installed, writes) && t in writes
    ensures Record(t, writes[t]) in installed
  {
    assert t in RecordTargets(installed);
    var i :| 0 <= i < |installed| && installed[i].target == t;
    assert installed[i] == Record(t, writes[t]);
  }

  /** A file that one init wrote and nobody changed is gone after the next init that no longer has its source, whatever
      else was edited in between. */
  lemma WrittenThenDropped(root: Path, w: World, first: Request, w1: World, edited: World, next: Request, after: World,
      s: Path)
    requires RequestOk(first) && InitResult(root, w, first, w1, Done)
    requires s in first.sources && Meant(root, Targets(w.manifest), first.modules, first.profile, s)
    requires root + s !in w.fs.files || w.fs.files[root + s] != first.sources[s]
    requires edited.manifest == w1.manifest && SameFile(edited.fs, w1.fs, root + s)
    requires RequestOk(next) && InitResult(root, edited, next, after, Done) && s !in next.sources
    ensures root + s !in after.fs.files && root + s !in Targets(after.manifest)
  {
    RecordOfWritten(root, w, first, w1, s);
    InstalledIsMeant(root, w, first, w1);
    PlannedIsMeant(root, edited.manifest, next);
    InstalledAsPlanned(root, edited, next, after);
    hide InitResult, Wanted, Targets, Meant;
    var t := root + s;
    assert t[|root|..] == s && t[..|root|] == root;
    var r := Record(t, first.sources[s]);
    assert r in TrackedFiles(edited.manifest) && Owned(edited.fs, r);
    assert StillOurs(root, edited, t);
  }

  // ----- the settings file and its backups

  /** After an init that ran to its end the settings file is the merge of what it was; what it was is the backup of that
      time, and all other backups and added files are as before. */
  lemma SettingsAfterInit(root: Path, w: World, req: Request, after: World, outcome: Outcome)
    requires RequestOk(req) && InitResult(root, w, req, after, outcome)
    ensures outcome != Done ==> after.store.file == w.store.file && after.store.added == w.store.added
    ensures outcome == Done ==>
      && after.store.file == Some(Merged(Read(w.store), req.preset, InitOptions(req.modules, req.force)))
      && (w.store.file.Some? ==> req.now in after.store.backups && after.store.backups[req.now] == w.store.file.value)
    ensures forall t | t != req.now || w.store.file.None? ::
      && (t in after.store.backups <==> t in w.store.backups)
      && (t in w.store.backups ==> after.store.backups[t] == w.store.backups[t])
    ensures forall t | t != req.now ::
      && (t in after.store.added <==> t in w.store.added)
      && (t in w.store.added ==> after.store.added[t] == w.store.added[t])
  {
    hide PlanFits, MergeFits, Wanted, Targets, ToWrite, Merged, MergeEntries, AfterInstall, HasConflicts, RecordsOf,
      KeptRecords, AllWritable, PartlyWritten, NextEntries;
  }

  /** Uninstall keeps every backup and, once it succeeds, deletes every added file. When the newest added file is
      missing or empty it always leaves a settings file, with every hook and permission list still there. */
  lemma SettingsAfterUninstall(root: Path, w: World, after: World, outcome: Outcome)
    requires UninstallResult(root, w, after, outcome)
    ensures after.store.backups == w.store.backups
    ensures outcome != Done ==> after.store == w.store && after.manifest == w.manifest
    ensures outcome == Done ==> after.store.added == map[] && after.manifest == None
    ensures outcome == Done && Newest(w.store.added) == EMPTY ==>
      && after.store.file.Some?
      && forall n, t | n != Env && t in Section(Read(w.store), n) :: t in Section(after.store.file.value, n)
  {
    if outcome == Done {
      UnmergedSections(Read(w.store), w.manifest.value.entries);
      hide RemoveAndPrune, Unmerged, SmartUnmerged, UnmergeFits, Deletable, CleanPart;
    }
  }

  /** A step that may write a backup under this time. */
  predicate WritesBackup(step: Step, t: Timestamp) {
    match step
    case InitStep(req) => req.now == t
    case UpdateStep(req) => req.now == t
    case _ => false
  }

  /** The backup of one time. */
  function BackupAt(w: World, t: Timestamp): Option<Settings> {
    if t in w.store.backups then Some(w.store.backups[t]) else None
  }

  /** No run ever loses a backup: it stays as it is until the user edits it or an init of the same time writes anew. */
  lemma {:induction false} BackupSurvivesRun(root: Path, ws: seq<World>, steps: seq<Step>, outcomes: seq<Outcome>,
      t: Timestamp, i: nat)
    requires IsRun(root, ws, steps, outcomes) && i <= |steps|
    requires forall j | 0 <= j < i ::
      !WritesBackup(steps[j], t) && (steps[j].EditStep? ==> BackupAt(ws[j + 1], t) == BackupAt(ws[j], t))
    ensures BackupAt(ws[i], t) == BackupAt(ws[0], t)
  {
    if i > 0 {
      BackupSurvivesRun(root, ws, steps, outcomes, t, i - 1);
      var w, after, step, outcome := ws[i - 1], ws[i - 1 + 1], steps[i - 1], outcomes[i - 1];
      assert Next(root, w, step, after, outcome) && !WritesBackup(step, t);
      hide IsRun, InitResult, UninstallResult, RequestOk;
      match step
      case InitStep(req) => SettingsAfterInit(root, w, req, after, outcome);
      case UpdateStep(req) =>
        if w.manifest.Some? {
          UpdateRequestOk(w.manifest.value, req);
          SettingsAfterInit(root, w, UpdateRequest(w.manifest.value, req), after, outcome);
        }
      case UninstallStep => SettingsAfterUninstall(root, w, after, outcome);
      case EditStep =>
    }
  }
}
