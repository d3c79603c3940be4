/** Install followed by uninstall, install followed by update, and skill gating. */
module InstallRoundTrip {
  import opened Wrappers
  import opened Json
  import opened SettingsModel
  import opened SettingsRoundTrip
  import opened SettingsLaws
  import opened SettingsStore
  import opened SettingsPlan
  import opened FileSystem
  import opened InstallModel
  import opened InstallLaws
  import opened InstallRuns

  predicate OnTheWay(d: Path, targets: set<Path>) {
    exists t | t in targets :: Above(d, t)
  }

  // ----- install, then uninstall

  lemma NothingExisted(root: Path, w: World, req: Request)
    requires RequestOk(req) && w.manifest.None? && !req.force
    requires !FileConflicts(w.fs, Targets(w.manifest), Wanted(root, w.manifest, req), false)
    ensures forall t | t in Wanted(root, w.manifest, req) :: !Exists(w.fs, t)
    ensures ToWrite(w.fs, Targets(w.manifest), Wanted(root, w.manifest, req), false) == Wanted(root, w.manifest, req)
  {
    hide Wanted;
    var wanted := Wanted(root, w.manifest, req);
    forall t | t in wanted ensures !Exists(w.fs, t) {
      assert PlanFile(w.fs, Targets(w.manifest), t, wanted[t], false) != ConflictFile;
    }
  }

  /** The state a first, non-forced init leaves. */
  lemma FirstInit(root: Path, w: World, req: Request, after: World)
    requires RequestOk(req) && Fresh(w) && !req.force && InitResult(root, w, req, after, Done)
    ensures var wanted := Wanted(root, w.manifest, req);
      && (forall t | t in wanted :: !Exists(w.fs, t))
      && after.fs == WrittenAll(w.fs, wanted)
      && Targets(after.manifest) == wanted.Keys
      && after.manifest.value.entries == MergeEntries(Read(w.store), req.preset, InitOptions(req.modules, false))
      && after.store == Enabled(w.store, req.preset, InitOptions(req.modules, false), req.now)
      && WellFormed(after.fs)
  {
    DoneParts(root, w, req, after);
    ManifestAfterInit(root, w, req, after);
    InitKeepsDisk(root, w, req, after, Done);
    NothingExisted(root, w, req);
    var entries := MergeEntries(Read(w.store), req.preset, InitOptions(req.modules, false));
    assert NextEntries(entries, []) == entries by { assert NotRenewed([], entries) == []; }
    hide Wanted, ToWrite, PlanFits, MergeFits, MergeEntries, Enabled, RecordsOf, KeptRecords, HasConflicts,
      NextEntries, WellFormed;
    var written := WrittenAll(w.fs, Wanted(root, w.manifest, req));
    assert Stale(root, written, Wanted(root, w.manifest, req).Keys, []) == {};
    NothingPruned(root, written);
  }

  lemma NothingPruned(root: Path, fs: FS)
    ensures RemoveAndPrune(root, fs, {}, {}) == fs
  {
    assert fs.files - {} == fs.files;
    assert ParentsOf(root, {}) == {};
  }

  lemma TrackedAreDeletable(root: Path, w: World)
    requires WellFormed(w.fs) && forall t | t in Targets(w.manifest) :: Within(root, t) && t in w.fs.files
    ensures Deletable(root, w.fs, TrackedFiles(w.manifest))
  {
    var files := TrackedFiles(w.manifest);
    TrackedTargets(w.manifest);
    forall i | 0 <= i < |files| ensures Within(root, files[i].target) && files[i].target !in w.fs.dirs {
      assert files[i].target in RecordTargets(files);
    }
  }

  lemma UninstalledFiles(root: Path, w: World, after: World, outcome: Outcome)
    requires UninstallResult(root, w, after, outcome) && w.manifest.Some?
      && Deletable(root, w.fs, TrackedFiles(w.manifest))
    ensures after.fs == RemoveAndPrune(root, w.fs, Targets(w.manifest), Targets(w.manifest))
    ensures UninstallFits(w.store, w.manifest.value.entries) ==>
      outcome == Done && after.manifest.None? && after.store == Uninstalled(w.store, w.manifest.value.entries)
  {
    TrackedTargets(w.manifest);
    hide Deletable, UninstallFits, Uninstalled;
  }

  lemma FirstInitDeletable(root: Path, w: World, req: Request, w1: World)
    requires RequestOk(req) && Fresh(w) && !req.force && InitResult(root, w, req, w1, Done)
    ensures w1.manifest.Some? && Deletable(root, w1.fs, TrackedFiles(w1.manifest))
  {
    hide Wanted, MergeEntries, Enabled, InitResult, Deletable, WellFormed, RequestOk, AfterInstall, PlanFits, MergeFits;
    DoneParts(root, w, req, w1);
    FirstInit(root, w, req, w1);
    WantedBelowRoot(root, w.manifest, req);
    TrackedAreDeletable(root, w1);
  }

  lemma UninstallAfterFirst(root: Path, w: World, req: Request, w1: World, w2: World, outcome: Outcome)
    requires RequestOk(req) && Fresh(w) && !req.force
    requires InitResult(root, w, req, w1, Done) && UninstallResult(root, w1, w2, outcome)
    ensures var wanted := Wanted(root, w.manifest, req);
      && (forall t | t in wanted :: !Exists(w.fs, t))
      && w2.fs == Pruned(FS(w.fs.files, WrittenAll(w.fs, wanted).dirs), ParentsOf(root, wanted.Keys))
  {
    hide Wanted, MergeEntries, Enabled, UninstallFits, InitResult, UninstallResult, Deletable, WellFormed, Targets,
      Pruned, ParentsOf, AllAncestors;
    FirstInit(root, w, req, w1);
    FirstInitDeletable(root, w, req, w1);
    UninstalledFiles(root, w1, w2, outcome);
    var wanted := Wanted(root, w.manifest, req);
    assert (w.fs.files + wanted) - wanted.Keys == w.fs.files;
  }

  lemma ParentsOfIs(root: Path, ps: set<Path>)
    ensures forall d :: d in ParentsOf(root, ps) <==> Above(root, d) && OnTheWay(d, ps)
  {
    forall d ensures d in ParentsOf(root, ps) <==> Above(root, d) && OnTheWay(d, ps) {
      if Above(root, d) && OnTheWay(d, ps) {
        var t :| t in ps && Above(d, t);
        assert d in Parents(root, t);
      }
    }
  }

  /** A first non-forced init followed at once by uninstall: the files are exactly what they were, no directory is
      left below the root that was not there, and no directory is lost that held anything or lay off the installed
      paths. */
  lemma InstallThenUninstallFiles(root: Path, w: World, req: Request, w1: World, w2: World, outcome: Outcome)
    requires RequestOk(req) && Fresh(w) && !req.force
    requires InitResult(root, w, req, w1, Done) && UninstallResult(root, w1, w2, outcome)
    ensures w2.fs.files == w.fs.files
    ensures forall d | d in w2.fs.dirs && Above(root, d) :: d in w.fs.dirs
    ensures forall d | d in w.fs.dirs ::
      d in w2.fs.dirs <==>
        !(Above(root, d)
          && OnTheWay(d, Wanted(root, w.manifest, req).Keys)
          && (forall p | p in w.fs.files :: !Above(d, p))
          && (forall e | e in w.fs.dirs && Above(d, e) :: OnTheWay(e, Wanted(root, w.manifest, req).Keys)))
  {
    hide InitResult, UninstallResult, Wanted, RequestOk;
    UninstallAfterFirst(root, w, req, w1, w2, outcome);
    var wanted := Wanted(root, w.manifest, req);
    ParentsOfIs(root, wanted.Keys);
    OwnDirectoriesGo(root, w.fs, wanted);
    PrunedAsStated(root, w.fs, wanted);
  }

  /** Directories created below the root lie on installed paths only, so they all go again. */
  lemma OwnDirectoriesGo(root: Path, fs: FS, wanted: map<Path, Content>)
    requires WellFormed(fs) && forall t | t in wanted :: !Exists(fs, t)
    requires forall d :: d in ParentsOf(root, wanted.Keys) <==> Above(root, d) && OnTheWay(d, wanted.Keys)
    ensures var bare := FS(fs.files, WrittenAll(fs, wanted).dirs);
      forall d | d in Pruned(bare, ParentsOf(root, wanted.Keys)).dirs && Above(root, d) :: d in fs.dirs
  {
    var bare := FS(fs.files, WrittenAll(fs, wanted).dirs);
    var cands := ParentsOf(root, wanted.Keys);
    hide ParentsOf;
    forall d | d in bare.dirs && Above(root, d) && d !in fs.dirs ensures Prunable(bare, cands, d) {
      forall p | p in fs.files ensures !Above(d, p) { assert Ancestors(p) <= fs.dirs; }
      forall e | e in bare.dirs && Above(d, e) ensures e in cands {
        assert e !in fs.dirs;
        var t :| t in wanted && e in Ancestors(t);
        assert Above(root, e) && Above(e, t);
      }
      var t :| t in wanted && d in Ancestors(t);
    }
  }

  lemma PrunedAsStated(root: Path, fs: FS, wanted: map<Path, Content>)
    requires WellFormed(fs) && forall t | t in wanted :: !Exists(fs, t)
    requires forall d :: d in ParentsOf(root, wanted.Keys) <==> Above(root, d) && OnTheWay(d, wanted.Keys)
    ensures var bare := FS(fs.files, WrittenAll(fs, wanted).dirs);
      forall d | d in fs.dirs ::
        d in Pruned(bare, ParentsOf(root, wanted.Keys)).dirs <==>
          !(Above(root, d)
            && OnTheWay(d, wanted.Keys)
            && (forall p | p in fs.files :: !Above(d, p))
            && (forall e | e in fs.dirs && Above(d, e) :: OnTheWay(e, wanted.Keys)))
  {
    var bare := FS(fs.files, WrittenAll(fs, wanted).dirs);
    var cands := ParentsOf(root, wanted.Keys);
    hide ParentsOf;
    forall d, e | Above(root, d) && Above(d, e) ensures Above(root, e) {}
    forall e | e in bare.dirs && e !in fs.dirs ensures OnTheWay(e, wanted.Keys) {}
    forall d | d in fs.dirs ensures Prunable(bare, cands, d) <==>
          (Above(root, d)
            && OnTheWay(d, wanted.Keys)
            && (forall p | p in fs.files :: !Above(d, p))
            && (forall e | e in fs.dirs && Above(d, e) :: OnTheWay(e, wanted.Keys))) {}
  }

  /** The same with the settings: the whole first install is undone. Uninstall ends normally, and the settings come
      back up to empty sections if and only if the backup it reads serves. */
  lemma InstallThenUninstall(root: Path, w: World, req: Request, w1: World, w2: World, outcome: Outcome)
    requires RequestOk(req) && Fresh(w) && !req.force
    requires InitResult(root, w, req, w1, Done) && UninstallResult(root, w1, w2, outcome)
    requires NotBefore(req.now, w.store) && SectionsAreObjects(Read(w.store)) && SectionsAreObjects(BackupRead(w.store))
    ensures outcome == Done && w2.manifest.None? && w2.fs.files == w.fs.files
    ensures var s, o := Read(w.store), InitOptions(req.modules, false);
      && SectionsAreObjects(Read(w2.store))
      && (Cleaned(Read(w2.store)) == Cleaned(s) <==> BackupServes(s, BackupRead(w.store), req.preset, o))
      && (MergeEntries(s, req.preset, o) != [] && BackupServes(s, BackupRead(w.store), req.preset, o) ==>
            w2.store.file ==
              if Cleaned(s) == EMPTY && Cleaned(BackupRead(w.store)) == EMPTY then None else Some(Cleaned(s)))
  {
    hide MergeEntries, Merged, Enabled, UninstallFits, Uninstalled, MergeFits, BackupServes, BackupRead, Read,
      NotBefore, Cleaned,
         SectionsAreObjects, Wanted;
    InstallThenUninstallFiles(root, w, req, w1, w2, outcome);
    FirstInit(root, w, req, w1);
    DoneParts(root, w, req, w1);
    WantedBelowRoot(root, w.manifest, req);
    TrackedAreDeletable(root, w1);
    hide InitResult;
    UninstalledFiles(root, w1, w2, outcome);
    EnableThenUninstall(w.store, req.preset, InitOptions(req.modules, false), req.now);
  }

  // ----- skills

  lemma SkillSourceSelected(root: Path, m: Option<Installation>, req: Request, a: Path, b: Path)
    requires |a| >= 2 && |b| >= 2 && a[0] == "skills" && b[0] == "skills" && a[1] == b[1]
    ensures Selected(root, m, req, a) <==> Selected(root, m, req, b)
  {}

  /** A skill is planned whole or not at all. */
  lemma SkillsAreWhole(root: Path, m: Option<Installation>, req: Request, a: Path, b: Path)
    requires RequestOk(req) && a in req.sources && b in req.sources
    requires a[0] == "skills" && b[0] == "skills" && a[1] == b[1]
    ensures root + a in Wanted(root, m, req) <==> root + b in Wanted(root, m, req)
  {
    WantedAt(root, m, req, a);
    WantedAt(root, m, req, b);
    SkillSourceSelected(root, m, req, a, b);
  }

  /** With the skills module chosen, a skill is left out exactly when it needs a higher profile and no file of it is
      installed. */
  lemma SkillGate(root: Path, m: Option<Installation>, req: Request, a: Path)
    requires RequestOk(req) && a in req.sources && a[0] == "skills" && SkillsModule in req.modules
    ensures root + a in Wanted(root, m, req)
       <==> a[1] != "qa" || req.profile == Full || SkillInstalled(root, m, a[1])
  {
    WantedAt(root, m, req, a);
    assert ModuleChosen(req.modules, "skills") by { assert ModuleDir(SkillsModule) == Some("skills"); }
  }

  /** An installed gated skill stays installed under any lower profile, as long as it still has a source file. */
  lemma GatedSkillStays(root: Path, w: World, req: Request, after: World, a: Path)
    requires RequestOk(req) && InitResult(root, w, req, after, Done)
    requires a in req.sources && a[0] == "skills" && |a| >= 3 && SkillsModule in req.modules
      && SkillInstalled(root, w.manifest, a[1])
    ensures SkillInstalled(root, after.manifest, a[1])
  {
    ManifestAfterInit(root, w, req, after);
    SkillGate(root, w.manifest, req, a);
    hide InitResult, Wanted;
    assert root + a in Targets(after.manifest);
    assert (root + a)[|root|] == a[0] && (root + a)[|root| + 1] == a[1] && (root + a)[..|root|] == root;
    assert BelongsToSkill(root, root + a, a[1]);
  }

  // ----- install, then update

  /** A source that is a file, not a directory, under the name of a gated skill, and that is installed under too low a
      profile only because an older form of that skill was tracked. */
  predicate LetThrough(root: Path, m: Option<Installation>, req: Request, rel: Path) {
    && rel in req.sources && |rel| == 2 && rel[0] == "skills" && ModuleChosen(req.modules, "skills")
    && SkillInstalled(root, m, rel[1]) && !SkillAllowed(root, None, req.profile, rel[1])
  }

  predicate LetsFileThrough(root: Path, m: Option<Installation>, req: Request) {
    exists rel | rel in req.sources :: LetThrough(root, m, req, rel)
  }

  lemma WantedSkillAllowed(root: Path, m: Option<Installation>, req: Request, t: Path, skill: string)
    requires RequestOk(req) && t in Wanted(root, m, req) && BelongsToSkill(root, t, skill)
    ensures SkillAllowed(root, m, req.profile, skill)
  {
    var r :| r in req.sources && root + r == t;
    WantedAt(root, m, req, r);
    assert t[|root|] == r[0] && t[|root| + 1] == r[1];
  }

  /** Once the new tree is tracked, a source stays selected unless it was let through. */
  lemma SelectionAfter(root: Path, w: World, req: Request, m1: Option<Installation>, rel: Path)
    requires RequestOk(req) && rel in req.sources
    requires Targets(m1) == Wanted(root, w.manifest, req).Keys
    ensures Selected(root, m1, req, rel)
      <==> Selected(root, w.manifest, req, rel) && !LetThrough(root, w.manifest, req, rel)
  {
    hide Wanted, Targets, SkillAllowed, BelongsToSkill, SkillInstalled;
    WantedAt(root, w.manifest, req, rel);
    NothingInstalled(root, req.profile, rel[1], w.manifest, m1);
    if rel[0] == "skills" && Selected(root, w.manifest, req, rel) {
      if |rel| >= 3 {
        OwnSkillInstalled(root, m1, rel);
      } else {
        NothingBelowFile(root, w, req, m1, rel);
      }
    }
    if rel[0] == "skills" && SkillInstalled(root, m1, rel[1]) {
      InstalledWasAllowed(root, w, req, m1, rel[1]);
    }
  }

  lemma OwnSkillInstalled(root: Path, m1: Option<Installation>, rel: Path)
    requires |rel| >= 3 && rel[0] == "skills" && root + rel in Targets(m1)
    ensures SkillInstalled(root, m1, rel[1])
  {
    OwnSkill(root, rel);
  }

  lemma NothingBelowFile(root: Path, w: World, req: Request, m1: Option<Installation>, rel: Path)
    requires RequestOk(req) && Targets(m1) == Wanted(root, w.manifest, req).Keys
    requires |rel| == 2 && rel[0] == "skills" && root + rel in Wanted(root, w.manifest, req)
    ensures !SkillInstalled(root, m1, rel[1])
  {
    hide Wanted, Targets;
    WantedBelowRoot(root, w.manifest, req);
    forall t ensures BelongsToSkill(root, t, rel[1]) ==> Above(root + rel, t) { SkillFileBelow(root, rel, t); }
  }

  lemma SkillFileBelow(root: Path, rel: Path, t: Path)
    requires |rel| == 2 && rel[0] == "skills"
    ensures BelongsToSkill(root, t, rel[1]) ==> Above(root + rel, t)
  {
    if BelongsToSkill(root, t, rel[1]) {
      assert t[..|root| + 2] == root + rel;
    }
  }

  lemma InstalledWasAllowed(root: Path, w: World, req: Request, m1: Option<Installation>, skill: string)
    requires RequestOk(req) && Targets(m1) == Wanted(root, w.manifest, req).Keys && SkillInstalled(root, m1, skill)
    ensures SkillAllowed(root, w.manifest, req.profile, skill)
  {
    hide Wanted, Targets, BelongsToSkill, SkillAllowed;
    var t :| t in Targets(m1) && BelongsToSkill(root, t, skill);
    WantedSkillAllowed(root, w.manifest, req, t, skill);
  }

  /** What lets a skill in: its profile, or an installed file of it. */
  lemma NothingInstalled(root: Path, profile: Profile, skill: string, m: Option<Installation>, m1: Option<Installation>)
    ensures SkillAllowed(root, m, profile, skill)
      <==> SkillAllowed(root, None, profile, skill) || SkillInstalled(root, m, skill)
    ensures SkillAllowed(root, m1, profile, skill)
      <==> SkillAllowed(root, None, profile, skill) || SkillInstalled(root, m1, skill)
  {
    assert Targets(None) == {};
  }

  lemma OwnSkill(root: Path, rel: Path)
    requires |rel| >= 3 && rel[0] == "skills"
    ensures BelongsToSkill(root, root + rel, rel[1])
  {
    assert (root + rel)[|root|] == rel[0] && (root + rel)[|root| + 1] == rel[1] && (root + rel)[..|root|] == root;
  }

  /** The next plan has the same targets, but for the files that were let through. */
  lemma WantedAfter(root: Path, w: World, req: Request, m1: Option<Installation>)
    requires RequestOk(req)
    requires Targets(m1) == Wanted(root, w.manifest, req).Keys
    ensures forall t | t in Wanted(root, m1, req) ::
      t in Wanted(root, w.manifest, req) && Wanted(root, m1, req)[t] == Wanted(root, w.manifest, req)[t]
    ensures Wanted(root, m1, req).Keys == Wanted(root, w.manifest, req).Keys
      <==> !LetsFileThrough(root, w.manifest, req)
  {
    hide Selected, LetThrough, Targets;
    var a, b := Wanted(root, m1, req), Wanted(root, w.manifest, req);
    forall t | t in a || t in b
      ensures exists r ::
        r in req.sources && root + r == t && (t in a <==> t in b && !LetThrough(root, w.manifest, req, r))
      ensures t in a ==> t in b && a[t] == b[t]
    {
      var r :| r in req.sources && root + r == t;
      WantedSourceAfter(root, w, req, m1, r);
    }
    forall r | LetThrough(root, w.manifest, req, r) ensures root + r in b && root + r !in a {
      LetThroughIsSelected(root, w.manifest, req, r);
      WantedSourceAfter(root, w, req, m1, r);
    }
  }

  lemma LetThroughIsSelected(root: Path, m: Option<Installation>, req: Request, rel: Path)
    requires RequestOk(req) && LetThrough(root, m, req, rel)
    ensures rel in req.sources && root + rel in Wanted(root, m, req)
  {
    WantedAt(root, m, req, rel);
  }

  lemma WantedSourceAfter(root: Path, w: World, req: Request, m1: Option<Installation>, rel: Path)
    requires RequestOk(req) && rel in req.sources
    requires Targets(m1) == Wanted(root, w.manifest, req).Keys
    ensures root + rel in Wanted(root, m1, req) <==>
      root + rel in Wanted(root, w.manifest, req) && !LetThrough(root, w.manifest, req, rel)
    ensures root + rel in Wanted(root, m1, req) ==>
      Wanted(root, m1, req)[root + rel] == Wanted(root, w.manifest, req)[root + rel]
  {
    WantedAt(root, m1, req, rel);
    WantedAt(root, w.manifest, req, rel);
    SelectionAfter(root, w, req, m1, rel);
    hide Wanted, Selected, LetThrough, Targets;
  }

  // ----- fixpoint

  lemma SettledFiles(fs: FS, tracked: set<Path>, wanted: map<Path, Content>, force: bool)
    requires forall t | t in wanted :: t in tracked && t in fs.files && fs.files[t] == wanted[t]
    ensures forall t | t in wanted :: PlanFile(fs, tracked, t, wanted[t], force) == SkipFile
    ensures !FileConflicts(fs, tracked, wanted, force) && ToWrite(fs, tracked, wanted, force) == map[]
  {
    assert forall t :: t !in ToWrite(fs, tracked, wanted, force);
  }

  lemma NothingToWrite(root: Path, w: World, req: Request, after: World, force: bool)
    requires RequestOk(req) && InitResult(root, w, req, after, Done)
    ensures var wanted := Wanted(root, w.manifest, req);
      && !FileConflicts(after.fs, Targets(after.manifest), wanted, force)
      && ToWrite(after.fs, Targets(after.manifest), wanted, force) == map[]
      && forall t | t in wanted :: PlanFile(after.fs, Targets(after.manifest), t, wanted[t], force) == SkipFile
  {
    hide InitResult, Wanted, Targets, ToWrite, FileConflicts, PlanFile, StillOurs;
    InstalledAsPlanned(root, w, req, after);
    SettledFiles(after.fs, Targets(after.manifest), Wanted(root, w.manifest, req), force);
  }

  lemma NoStale(root: Path, fs: FS, planned: set<Path>, files: seq<Record>)
    requires RecordTargets(files) <= planned
    ensures Stale(root, fs, planned, files) == {}
  {
    forall i | 0 <= i < |files| ensures files[i].target in planned { assert files[i].target in RecordTargets(files); }
  }

  lemma {:induction false} AllKept(files: seq<Record>, planned: set<Path>)
    requires forall r | r in files :: r.target in planned
    ensures KeptRecords(files, planned, {}) == files
  {
    if files != [] { AllKept(files[1..], planned); }
  }

  /** A section that took the template's lists has room for them again. */
  lemma SectionFitsAgain(s: Settings, m: Settings, n: SectionName, lists: map<string, seq<Json>>)
    requires SectionFits(s, n, lists) && (forall t | t in lists :: ValuesFit(n, lists[t])) && n != Env
    requires Part(m, n) == Part(ExtendSection(s, n, lists), n)
    ensures SectionFits(m, n, lists)
  {
    hide ListFits, ValuesFit, Extended;
    if lists != map[] {
      ListsFitAgain(Section(s, n), n, lists);
    }
  }

  lemma ListsFitAgain(section: Dict, n: SectionName, lists: map<string, seq<Json>>)
    requires ListsFit(section, n, lists) && (forall t | t in lists :: ValuesFit(n, lists[t])) && n != Env
    ensures ListsFit(Extended(section, lists), n, lists)
  {
    hide ListFits, ValuesFit, Extended, ListAt;
    var e := Extended(section, lists);
    forall t | t in lists ensures ListFits(e, n, t, lists[t]) {
      ExtendedAt(section, lists, t);
      if RecordedIn(section, lists, t) != [] {
        ExtendedItemsFit(n, section, lists, t);
        ListFitsList(e, n, t, lists[t]);
      } else if t in section {
        SameFit(section, e, n, t, lists[t]);
      } else {
        assert e[t] == Arr([]) by { ListAtList(section, t); }
        ListAtList(e, t);
        ListFitsList(e, n, t, lists[t]);
      }
    }
  }

  lemma ListFitsList(section: Dict, n: SectionName, t: string, values: seq<Json>)
    requires t in section && section[t].Arr? && (n == Permissions ==> forall x | x in ListAt(section, t) :: Hashable(x))
    ensures ListFits(section, n, t, values)
  {
  }

  lemma SameFit(a: Dict, b: Dict, n: SectionName, t: string, values: seq<Json>)
    requires SameAt(a, b, t) && ListFits(a, n, t, values)
    ensures ListFits(b, n, t, values)
  {
  }

  lemma MergeFitsAgain(s: Settings, p: Preset, o: MergeOptions)
    requires PresetOk(p) && MergeFits(s, p, o)
    ensures MergeFits(Merged(s, p, o), p, o)
  {
    var m, h, l := Merged(s, p, o), MergedLists(p, o, Hooks), MergedLists(p, o, Permissions);
    MergedByPart(s, p, o);
    ListsValuesFit(p, o, Hooks);
    ListsValuesFit(p, o, Permissions);
    assert IsObject(s.env) ==> IsObject(WithEnv(s, EnvValues(p)).env);
    hide Merged, MergedLists, ListsFit, PresetOk, EnvValues, ValuesFit;
    SectionFitsAgain(s, m, Hooks, h);
    assert SectionFits(ExtendSection(s, Hooks, h), Permissions, l);
    SectionFitsAgain(ExtendSection(s, Hooks, h), m, Permissions, l);
  }

  /** Same modules and profile, as update uses them. */
  predicate SameSource(a: Request, b: Request) {
    b.sources == a.sources && b.preset == a.preset
  }

  lemma UpdateUsesSame(root: Path, w: World, req: Request, after: World, again: Request)
    requires RequestOk(req) && InitResult(root, w, req, after, Done) && SameSource(req, again) && RequestOk(again)
    ensures after.manifest.Some?
    ensures UpdateRequest(after.manifest.value, again) == req.(force := again.force, now := again.now)
    ensures after.manifest.value.modules == req.modules
    ensures Read(after.store) == Merged(Read(w.store), req.preset, InitOptions(req.modules, req.force))
    ensures after.store.file.Some?
  {
    hide PlanFits, MergeFits, HasConflicts, Merged, MergeEntries, Wanted, ToWrite, RecordsOf, KeptRecords, AfterInstall;
  }

  lemma WantedIgnoresForce(root: Path, m: Option<Installation>, a: Request, b: Request)
    requires RequestOk(a) && b == a.(force := b.force, now := b.now)
    ensures RequestOk(b) && Wanted(root, m, b) == Wanted(root, m, a)
  {
    assert forall r: Path | |r| >= 2 :: Selected(root, m, a, r) == Selected(root, m, b, r);
  }

  /** The settings rows of a plan on settings that are already merged: none would merge or conflict. */
  lemma SettledRows(s: Settings, p: Preset, modules: set<InstallModule>, force: bool, again: bool, row: Row)
    requires PresetOk(p) && MergeFits(s, p, InitOptions(modules, force))
    requires PlanFits(Merged(s, p, InitOptions(modules, force)), p, modules)
    requires row in SettingsRows(Merged(s, p, InitOptions(modules, force)), p, modules, again)
    ensures row.action == Skip
  {
    var o, o2 := InitOptions(modules, force), InitOptions(modules, again);
    var m := Merged(s, p, o);
    MergeFitsAgain(s, p, o);
    SameButForce(s, p, o, o2);
    MergeAgain(s, p, o2);
    hide Merged, MergeFits, MergeEntries, PlanFits, SettingsRows, MergeConflicts, EnvEntries;
    FitsIgnoreForce(m, p, o, o2);
    PlanPredictsMerge(m, p, modules, again, row);
    RepeatValues(p, row.path);
    match row.path
    case TopLevel(_) =>
    case InSection(Env, k) =>
    case InSection(n, t) =>
  }

  lemma SameButForce(s: Settings, p: Preset, o: MergeOptions, o2: MergeOptions)
    requires o2 == o.(force := o2.force)
    ensures Merged(s, p, o) == Merged(s, p, o2)
  {
    hide ExtendSection, Lists;
  }

  lemma FitsIgnoreForce(s: Settings, p: Preset, o: MergeOptions, o2: MergeOptions)
    requires o2 == o.(force := o2.force)
    ensures MergeFits(s, p, o) <==> MergeFits(s, p, o2)
  {
    hide ListsFit, Lists;
  }

  lemma RepeatValues(p: Preset, path: KeyPath)
    ensures !(path.InSection? && path.section == Env) ==> ValuesAt(EnvEntries(EnvNames(p), EnvValues(p)), path) == []
  {
    ValuesAtEnv(EnvNames(p), EnvValues(p), path);
  }

  lemma UpdateSkipsFiles(root: Path, w: World, req: Request, w1: World, again: Request, next: Request)
    requires RequestOk(req) && RequestOk(again) && SameSource(req, again)
    requires InitResult(root, w, req, w1, Done) && w1.manifest.Some? && next == UpdateRequest(w1.manifest.value, again)
    ensures RequestOk(next)
    ensures forall t | t in Wanted(root, w1.manifest, next) ::
      PlanFile(w1.fs, Targets(w1.manifest), t, Wanted(root, w1.manifest, next)[t], next.force) == SkipFile
  {
    hide InitResult, Wanted, Targets, PlanFile, ToWrite, FileConflicts, RequestOk, LetsFileThrough, UpdateRequest,
      SkillInstalled;
    UpdateUsesSame(root, w, req, w1, again);
    UpdateRequestOk(w1.manifest.value, again);
    ManifestAfterInit(root, w, req, w1);
    NothingToWrite(root, w, req, w1, again.force);
    WantedAfter(root, w, req, w1.manifest);
    WantedIgnoresForce(root, w1.manifest, req, next);
  }

  lemma MergedPlansSkips(s: Settings, p: Preset, modules: set<InstallModule>, force: bool, again: bool)
    requires PresetOk(p) && MergeFits(s, p, InitOptions(modules, force))
    ensures var m := Merged(s, p, InitOptions(modules, force));
      && PlanFits(m, p, modules)
      && forall row | row in SettingsRows(m, p, modules, again) :: row.action == Skip
  {
    var o := InitOptions(modules, force);
    MergeFitsAgain(s, p, o);
    hide Merged, MergeFits, PlanFits, SettingsRows, PresetOk;
    FitsIgnoreForce(Merged(s, p, o), p, o, InitOptions(modules, again));
    MergeableIsPlannable(Merged(s, p, o), p, modules, again);
    forall row | row in SettingsRows(Merged(s, p, o), p, modules, again) ensures row.action == Skip {
      SettledRows(s, p, modules, force, again, row);
    }
  }

  /** Update right after an init that ran to the end, with the sources and preset unchanged, plans nothing but skips. */
  lemma UpdateAfterInitPlansSkips(root: Path, w: World, req: Request, w1: World, again: Request)
    requires RequestOk(req) && RequestOk(again) && SameSource(req, again)
    requires InitResult(root, w, req, w1, Done)
    ensures w1.manifest.Some?
    ensures var next := UpdateRequest(w1.manifest.value, again);
      && RequestOk(next)
      && (forall t | t in Wanted(root, w1.manifest, next) ::
            PlanFile(w1.fs, Targets(w1.manifest), t, Wanted(root, w1.manifest, next)[t], next.force) == SkipFile)
      && PlanFits(Read(w1.store), next.preset, next.modules)
      && (forall row | row in SettingsRows(Read(w1.store), next.preset, next.modules, next.force) :: row.action == Skip)
  {
    UpdateUsesSame(root, w, req, w1, again);
    DoneParts(root, w, req, w1);
    UpdateSkipsFiles(root, w, req, w1, again, UpdateRequest(w1.manifest.value, again));
    hide InitResult, Wanted, Targets, PlanFile, SettingsRows, PlanFits, MergeFits, Merged;
    MergedPlansSkips(Read(w.store), req.preset, req.modules, req.force, again.force);
  }

  predicate Unchanged(w1: World, w2: World, outcome: Outcome) {
    && outcome == Done
    && w2.fs == w1.fs && w2.store.file == w1.store.file
    && w1.manifest.Some? && w2.manifest.Some? && w2.manifest.value.files == w1.manifest.value.files
  }

  lemma NothingToUpdate(root: Path, w: World, req: Request, w1: World, again: Request, next: Request)
    requires RequestOk(req) && RequestOk(again) && SameSource(req, again)
    requires InitResult(root, w, req, w1, Done) && !LetsFileThrough(root, w.manifest, req)
    requires w1.manifest.Some? && next == UpdateRequest(w1.manifest.value, again)
    ensures RequestOk(next)
    ensures var wanted := Wanted(root, w1.manifest, next);
      && wanted.Keys == Targets(w1.manifest)
      && !FileConflicts(w1.fs, Targets(w1.manifest), wanted, next.force)
      && ToWrite(w1.fs, Targets(w1.manifest), wanted, next.force) == map[]
  {
    hide InitResult, LetsFileThrough, Wanted, Targets, ToWrite, FileConflicts, PlanFile, RequestOk, UpdateRequest;
    UpdateUsesSame(root, w, req, w1, again);
    UpdateRequestOk(w1.manifest.value, again);
    ManifestAfterInit(root, w, req, w1);
    NothingToWrite(root, w, req, w1, again.force);
    WantedAfter(root, w, req, w1.manifest);
    assert Wanted(root, w1.manifest, req) == Wanted(root, w.manifest, req);
    WantedIgnoresForce(root, w1.manifest, req, next);
  }

  /** On settings that are already merged the next merge fits, conflicts with nothing and changes nothing. */
  lemma NothingToMerge(s: Settings, p: Preset, modules: set<InstallModule>, force: bool, again: bool)
    requires PresetOk(p) && MergeFits(s, p, InitOptions(modules, force))
    ensures var m := Merged(s, p, InitOptions(modules, force));
      && PlanFits(m, p, modules) && MergeFits(m, p, InitOptions(modules, again))
      && (forall row | row in SettingsRows(m, p, modules, again) :: row.action != Conflicting)
      && Merged(m, p, InitOptions(modules, again)) == m
  {
    hide Merged, MergeFits, PlanFits, SettingsRows, MergeEntries, MergeConflicts, PresetOk, EnvEntries;
    var o, o2 := InitOptions(modules, force), InitOptions(modules, again);
    MergeFitsAgain(s, p, o);
    SameButForce(s, p, o, o2);
    FitsIgnoreForce(Merged(s, p, o), p, o, o2);
    MergeableIsPlannable(Merged(s, p, o), p, modules, again);
    MergeAgain(s, p, o2);
    ConflictFreePlanMerges(Merged(s, p, o), p, modules, again);
  }

  lemma WrittenNothing(root: Path, w: World, wanted: map<Path, Content>, force: bool)
    requires ToWrite(w.fs, Targets(w.manifest), wanted, force) == map[] && Targets(w.manifest) <= wanted.Keys
    ensures AfterInstall(root, w, wanted, force) == w.fs
  {
    hide ToWrite, Stale, RemoveAndPrune, WrittenAll, Targets, RecordTargets;
    var files := TrackedFiles(w.manifest);
    TrackedTargets(w.manifest);
    WrittenAllNothing(w.fs);
    NoStale(root, w.fs, wanted.Keys, files);
    NothingPruned(root, w.fs);
  }

  lemma KeptAll(files: seq<Record>, wanted: set<Path>, installed: seq<Record>, writes: map<Path, Content>)
    requires RecordTargets(files) <= wanted && RecordsOf(installed, writes) && writes == map[]
    ensures installed + KeptRecords(files, wanted, writes.Keys) == files
  {
    NoRecords(installed);
    TargetsAre(files);
    hide RecordTargets, KeptRecords;
    AllKept(files, wanted);
    assert writes.Keys == {};
  }

  lemma UpdateKeepsAll(root: Path, w: World, req: Request, w1: World, again: Request, w2: World, outcome: Outcome)
    requires RequestOk(req) && RequestOk(again) && SameSource(req, again)
    requires InitResult(root, w, req, w1, Done) && !LetsFileThrough(root, w.manifest, req)
    requires UpdateResult(root, w1, again, w2, outcome)
    ensures Unchanged(w1, w2, outcome)
  {
    hide LetsFileThrough, Wanted, Targets, ToWrite, FileConflicts, RequestOk, PlanFits, MergeFits, Merged,
         SettingsRows, AfterInstall, RecordTargets, RecordsOf, KeptRecords, MergeEntries, NextEntries, AllWritable;
    UpdateUsesSame(root, w, req, w1, again);
    DoneParts(root, w, req, w1);
    var next := UpdateRequest(w1.manifest.value, again);
    NothingToUpdate(root, w, req, w1, again, next);
    assert PresetOk(req.preset) by { PresetIsOk(req); }
    NothingToMerge(Read(w.store), req.preset, req.modules, req.force, again.force);
    hide InitResult;
    SettledUpdate(root, w1, next, w2, outcome);
  }

  lemma PresetIsOk(req: Request)
    requires RequestOk(req)
    ensures PresetOk(req.preset)
  {
  }

  lemma SettledUpdate(root: Path, w1: World, next: Request, w2: World, outcome: Outcome)
    requires RequestOk(next) && InitResult(root, w1, next, w2, outcome) && w1.manifest.Some? && w1.store.file.Some?
    requires var wanted := Wanted(root, w1.manifest, next);
      && wanted.Keys == Targets(w1.manifest)
      && !FileConflicts(w1.fs, Targets(w1.manifest), wanted, next.force)
      && ToWrite(w1.fs, Targets(w1.manifest), wanted, next.force) == map[]
    requires var s, o := Read(w1.store), InitOptions(next.modules, next.force);
      && PlanFits(s, next.preset, next.modules) && MergeFits(s, next.preset, o)
      && (forall row | row in SettingsRows(s, next.preset, next.modules, next.force) :: row.action != Conflicting)
      && Merged(s, next.preset, o) == s
    ensures Unchanged(w1, w2, outcome)
  {
    hide Wanted, Targets, ToWrite, FileConflicts, RequestOk, PlanFits, MergeFits, Merged, SettingsRows, AfterInstall,
         RecordTargets, RecordsOf, KeptRecords, MergeEntries, NextEntries;
    var wanted, files := Wanted(root, w1.manifest, next), w1.manifest.value.files;
    assert AllWritable(w1.fs, map[]);
    NothingStopsInit(root, w1, next, w2, outcome);
    WrittenNothing(root, w1, wanted, next.force);
    TrackedTargets(w1.manifest);
    var writes := ToWrite(w1.fs, Targets(w1.manifest), wanted, next.force);
    var installed :| RecordsOf(installed, writes)
      && w2.manifest.value.files == installed + KeptRecords(files, wanted.Keys, writes.Keys);
    KeptAll(files, wanted.Keys, installed, writes);
  }

  /** A file that was let through is not planned again, so the update stops tracking it. */
  lemma UpdateDropsFile(root: Path, w: World, req: Request, w1: World, again: Request, w2: World, outcome: Outcome)
    requires RequestOk(req) && RequestOk(again) && SameSource(req, again)
    requires InitResult(root, w, req, w1, Done) && LetsFileThrough(root, w.manifest, req)
    requires UpdateResult(root, w1, again, w2, outcome)
    ensures outcome == Done ==> Targets(w2.manifest) != Targets(w1.manifest)
  {
    hide InitResult, Wanted, Targets, LetsFileThrough, RequestOk;
    UpdateUsesSame(root, w, req, w1, again);
    UpdateRequestOk(w1.manifest.value, again);
    ManifestAfterInit(root, w, req, w1);
    WantedAfter(root, w, req, w1.manifest);
    var next := UpdateRequest(w1.manifest.value, again);
    WantedIgnoresForce(root, w1.manifest, req, next);
    if outcome == Done {
      ManifestAfterInit(root, w1, next, w2);
    }
  }

  /** Update right after an init that ran to the end, with the sources and preset unchanged, ends normally and leaves
      files, directories, tracked records and settings as they were, exactly when the init let no file through. */
  lemma UpdateAfterInitChangesNothing(root: Path, w: World, req: Request, w1: World, again: Request, w2: World,
      outcome: Outcome)
    requires RequestOk(req) && RequestOk(again) && SameSource(req, again)
    requires InitResult(root, w, req, w1, Done)
    requires UpdateResult(root, w1, again, w2, outcome)
    ensures Unchanged(w1, w2, outcome) <==> !LetsFileThrough(root, w.manifest, req)
  {
    hide InitResult, UpdateResult, LetsFileThrough, RequestOk;
    if LetsFileThrough(root, w.manifest, req) {
      UpdateDropsFile(root, w, req, w1, again, w2, outcome);
    } else {
      UpdateKeepsAll(root, w, req, w1, again, w2, outcome);
    }
  }

  /** One file of a gated skill is tracked; the user has deleted it. */
  function OldSkill(root: Path, content: Content): World {
    var record := Record(root + ["skills", "qa", "x"], content);
    World(FS(map[], {}), Some(Installation({SkillsModule}, Standard, [record], [])), Store(None, map[], map[]))
  }

  /** The skill has become a single file of the same name. */
  function NewSkill(content: Content, now: Timestamp): Request {
    Request(map[["skills", "qa"] := content], Preset(map[], [], [], None, map[]), {SkillsModule}, Standard, false, now)
  }

  lemma NothingStopsInit(root: Path, w: World, req: Request, after: World, outcome: Outcome)
    requires RequestOk(req) && InitResult(root, w, req, after, outcome)
    requires PlanFits(Read(w.store), req.preset, req.modules) && !HasConflicts(root, w, req)
    requires AllWritable(w.fs, ToWrite(w.fs, Targets(w.manifest), Wanted(root, w.manifest, req), req.force))
    requires MergeFits(Read(w.store), req.preset, InitOptions(req.modules, req.force))
    ensures outcome == Done
  {
    hide PlanFits, HasConflicts, AllWritable, ToWrite, Wanted, MergeFits, Read, Targets, RequestOk, AfterInstall,
         KeptRecords, RecordsOf, Merged, MergeEntries, Enabled;
  }

  lemma EmptyPresetFits(modules: set<InstallModule>)
    ensures var p := Preset(map[], [], [], None, map[]);
      && PresetOk(p) && PlanFits(EMPTY, p, modules) && MergeFits(EMPTY, p, InitOptions(modules, false))
      && SettingsRows(EMPTY, p, modules, false) == []
  {
    var p := Preset(map[], [], [], None, map[]);
    assert Lists(p, Permissions) == map[] && EnvNames(p) == [];
    HeadIsMember(AllNames(p, Hooks));
  }

  lemma HeadIsMember(xs: seq<string>)
    ensures xs != [] ==> xs[0] in xs
  {
  }

  lemma NewSkillIsLetThrough(root: Path, before: Content, content: Content, now: Timestamp)
    ensures RequestOk(NewSkill(content, now))
    ensures LetsFileThrough(root, OldSkill(root, before).manifest, NewSkill(content, now))
  {
    var w, req, rel := OldSkill(root, before), NewSkill(content, now), ["skills", "qa"];
    var t := root + ["skills", "qa", "x"];
    assert w.manifest.value.files[0].target == t && t in Targets(w.manifest);
    assert t[|root|] == "skills" && t[|root| + 1] == "qa" && t[..|root|] == root;
    assert BelongsToSkill(root, t, "qa");
    assert ModuleDir(SkillsModule) == Some("skills");
    assert Targets(None) == {};
    assert rel in req.sources && LetThrough(root, w.manifest, req, rel);
  }

  lemma NothingInTheWay(root: Path, before: Content, content: Content, now: Timestamp)
    requires RequestOk(NewSkill(content, now))
    ensures var w, req := OldSkill(root, before), NewSkill(content, now);
      var wanted := Wanted(root, w.manifest, req);
      !FileConflicts(w.fs, Targets(w.manifest), wanted, false)
        && AllWritable(w.fs, ToWrite(w.fs, Targets(w.manifest), wanted, false))
  {
    var w, req := OldSkill(root, before), NewSkill(content, now);
    WantedBelowRoot(root, w.manifest, req);
    hide Wanted, Targets, WellFormed;
  }

  /** An input for the other case: init runs to its end and installs the file, which the next update will drop. */
  lemma AFileIsLetThrough(root: Path, before: Content, content: Content, now: Timestamp)
    ensures var w, req := OldSkill(root, before), NewSkill(content, now);
      && WellFormed(w.fs) && RequestOk(req) && LetsFileThrough(root, w.manifest, req)
      && forall after, outcome | InitResult(root, w, req, after, outcome) :: outcome == Done
  {
    hide InitResult, LetsFileThrough, Wanted, Targets, PlanFits, MergeFits, SettingsRows, AllWritable, ToWrite,
      FileConflicts, RequestOk;
    var w, req := OldSkill(root, before), NewSkill(content, now);
    NewSkillIsLetThrough(root, before, content, now);
    EmptyPresetFits({SkillsModule});
    NothingInTheWay(root, before, content, now);
    assert Read(w.store) == EMPTY;
    assert !HasConflicts(root, w, req);
    forall after, outcome | InitResult(root, w, req, after, outcome) ensures outcome == Done {
      NothingStopsInit(root, w, req, after, outcome);
    }
  }

  lemma NoRecords(installed: seq<Record>)
    ensures RecordsOf(installed, map[]) ==> installed == []
  {
    if installed != [] {
      assert installed[0].target in RecordTargets(installed);
    }
  }
}
