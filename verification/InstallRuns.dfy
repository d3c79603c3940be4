/** Safety over whole runs: init, update and uninstall mixed with arbitrary edits by the user. */
module InstallRuns {
  import opened Wrappers
  import opened Json
  import opened SettingsModel
  import opened SettingsRoundTrip
  import opened SettingsLaws
  import opened SettingsStore
  import opened SettingsPlan
  import opened FileSystem
  import opened InstallModel
  import opened InstallLaws

  /** What every reachable state satisfies: a consistent disk, and a manifest whose targets are distinct and
      lie inside a module directory of the target root. */
  predicate Inv(root: Path, w: World) {
    && WellFormed(w.fs)
    && DistinctTargets(TrackedFiles(w.manifest))
    && (forall t | t in Targets(w.manifest) :: Within(root, t) && |t| >= |root| + 2)
    && EntriesOk(TrackedEntries(w.manifest))
  }

  datatype Step = InitStep(req: Request) | UpdateStep(req: Request) | UninstallStep | EditStep

  /** One step. An edit changes anything but the manifest, and leaves a possible disk behind. */
  ghost predicate Next(root: Path, w: World, step: Step, after: World, outcome: Outcome) {
    match step
    case InitStep(req) => RequestOk(req) && InitResult(root, w, req, after, outcome)
    case UpdateStep(req) => RequestOk(req) && UpdateResult(root, w, req, after, outcome)
    case UninstallStep => UninstallResult(root, w, after, outcome)
    case EditStep => after.manifest == w.manifest && WellFormed(after.fs)
  }

  lemma PartlyWrittenWellFormed(before: FS, after: FS, writes: map<Path, Content>)
    requires WellFormed(before) && PrefixFree(writes.Keys) && PartlyWritten(before, after, writes)
    ensures WellFormed(after)
  {
    var done :| AllWritable(before, Only(writes, done)) && after == WrittenAll(before, Only(writes, done));
    WrittenAllWellFormed(before, Only(writes, done));
  }

  lemma RemovedWellFormed(root: Path, fs: FS, gone: set<Path>, visited: set<Path>)
    requires WellFormed(fs)
    ensures WellFormed(RemoveAndPrune(root, fs, gone, visited))
  {
    PrunedWellFormed(FS(fs.files - gone, fs.dirs), ParentsOf(root, visited));
  }

  lemma {:induction false} NotRenewedOk(existing: seq<Entry>, renewals: seq<Entry>)
    requires EntriesOk(existing)
    ensures EntriesOk(NotRenewed(existing, renewals))
  {
    if existing != [] { NotRenewedOk(existing[1..], renewals); }
  }

  lemma InitKeepsDisk(root: Path, w: World, req: Request, after: World, outcome: Outcome)
    requires RequestOk(req) && InitResult(root, w, req, after, outcome) && WellFormed(w.fs)
    ensures WellFormed(after.fs)
  {
    var wanted := Wanted(root, w.manifest, req);
    var writes := ToWrite(w.fs, Targets(w.manifest), wanted, req.force);
    WantedBelowRoot(root, w.manifest, req);
    assert PrefixFree(writes.Keys);
    hide Wanted, ToWrite, PlanFits, MergeFits, HasConflicts, WellFormed, Targets, RecordsOf, KeptRecords;
    if AllWritable(w.fs, writes) {
      WrittenAllWellFormed(w.fs, writes);
      var written := WrittenAll(w.fs, writes);
      var stale := Stale(root, written, wanted.Keys, TrackedFiles(w.manifest));
      RemovedWellFormed(root, written, stale, stale);
    } else if after != w {
      PartlyWrittenWellFormed(w.fs, after.fs, writes);
    }
  }

  lemma InitKeepsManifest(root: Path, w: World, req: Request, after: World)
    requires RequestOk(req) && InitResult(root, w, req, after, Done) && Inv(root, w)
    ensures DistinctTargets(TrackedFiles(after.manifest))
    ensures forall t | t in Targets(after.manifest) :: Within(root, t) && |t| >= |root| + 2
    ensures EntriesOk(TrackedEntries(after.manifest))
  {
    InstalledAsPlanned(root, w, req, after);
    WantedBelowRoot(root, w.manifest, req);
    DoneParts(root, w, req, after);
    var o := InitOptions(req.modules, req.force);
    MergeEntriesOk(Read(w.store), req.preset, o);
    NotRenewedOk(TrackedEntries(w.manifest), MergeEntries(Read(w.store), req.preset, o));
    EntriesOkConcat(MergeEntries(Read(w.store), req.preset, o),
                    NotRenewed(TrackedEntries(w.manifest), MergeEntries(Read(w.store), req.preset, o)));
    var wanted := Wanted(root, w.manifest, req);
    var writes := ToWrite(w.fs, Targets(w.manifest), wanted, req.force);
    var files := TrackedFiles(w.manifest);
    assert after.manifest.value.entries == NextEntries(MergeEntries(Read(w.store), req.preset, o),
      TrackedEntries(w.manifest));
    hide InitResult, Wanted, ToWrite, MergeEntries, PlanFits, MergeFits, EntriesOk, NotRenewed, RecordsOf,
      AfterInstall, FileConflicts;
    var kept := KeptRecords(files, wanted.Keys, writes.Keys);
    var installed :| RecordsOf(installed, writes) && after.manifest.value.files == installed + kept;
    RecordsCover(installed, writes);
    KeptDistinct(files, wanted.Keys, writes.Keys);
    KeptMembers(files, wanted.Keys, writes.Keys);
    DistinctConcat(installed, KeptRecords(files, wanted.Keys, writes.Keys), writes.Keys);
  }

  lemma DistinctConcat(a: seq<Record>, b: seq<Record>, written: set<Path>)
    requires DistinctTargets(a) && DistinctTargets(b) && RecordTargets(a) == written
    requires forall r | r in b :: r.target !in written
    ensures DistinctTargets(a + b)
  {
    forall i, j | 0 <= i < |a| <= j < |a + b| ensures (a + b)[i].target != (a + b)[j].target {
      assert a[i].target in RecordTargets(a);
      assert (a + b)[j] in b;
    }
  }

  lemma InitKeepsInv(root: Path, w: World, req: Request, after: World, outcome: Outcome)
    requires RequestOk(req) && InitResult(root, w, req, after, outcome) && Inv(root, w)
    ensures Inv(root, after)
  {
    InitKeepsDisk(root, w, req, after, outcome);
    if outcome == Done {
      InitKeepsManifest(root, w, req, after);
    } else {
      hide Wanted, ToWrite, PlanFits, MergeFits, HasConflicts, WellFormed, EntriesOk, PartlyWritten;
      assert after.manifest == w.manifest;
    }
  }

  lemma UninstallKeepsInv(root: Path, w: World, after: World, outcome: Outcome)
    requires UninstallResult(root, w, after, outcome) && Inv(root, w)
    ensures Inv(root, after)
  {
    if w.manifest.Some? {
      var targets := RecordTargets(w.manifest.value.files);
      RemovedWellFormed(root, w.fs, targets, targets);
    }
  }

  /** Every step keeps the invariant. */
  lemma NextKeepsInv(root: Path, w: World, step: Step, after: World, outcome: Outcome)
    requires Next(root, w, step, after, outcome) && Inv(root, w)
    ensures Inv(root, after)
  {
    hide Inv, InitResult, UninstallResult, RequestOk;
    match step
    case InitStep(req) => InitKeepsInv(root, w, req, after, outcome);
    case UpdateStep(req) =>
      if w.manifest.Some? {
        UpdateRequestOk(w.manifest.value, req);
        InitKeepsInv(root, w, UpdateRequest(w.manifest.value, req), after, outcome);
      }
    case UninstallStep => UninstallKeepsInv(root, w, after, outcome);
    case EditStep => EditKeepsInv(root, w, after);
  }

  lemma UpdateRequestOk(m: Installation, req: Request)
    requires RequestOk(req)
    ensures RequestOk(UpdateRequest(m, req))
  {}

  lemma EditKeepsInv(root: Path, w: World, after: World)
    requires Inv(root, w) && after.manifest == w.manifest && WellFormed(after.fs)
    ensures Inv(root, after)
  {}

  // ----- runs

  ghost predicate IsRun(root: Path, ws: seq<World>, steps: seq<Step>, outcomes: seq<Outcome>) {
    && |ws| == |steps| + 1 && |outcomes| == |steps|
    && forall i | 0 <= i < |steps| :: Next(root, ws[i], steps[i], ws[i + 1], outcomes[i])
  }

  /** Before the first install: nothing tracked. */
  predicate Fresh(w: World) { WellFormed(w.fs) && w.manifest.None? }

  lemma FreshInv(root: Path, w: World)
    requires Fresh(w)
    ensures Inv(root, w)
  {}

  lemma {:induction false} RunKeepsInv(root: Path, ws: seq<World>, steps: seq<Step>, outcomes: seq<Outcome>, i: nat)
    requires IsRun(root, ws, steps, outcomes) && Fresh(ws[0]) && i <= |steps|
    ensures Inv(root, ws[i])
  {
    hide Next, Inv, Fresh;
    if i == 0 {
      FreshInv(root, ws[0]);
    } else {
      RunKeepsInv(root, ws, steps, outcomes, i - 1);
      assert Next(root, ws[i - 1], steps[i - 1], ws[i - 1 + 1], outcomes[i - 1]);
      NextKeepsInv(root, ws[i - 1], steps[i - 1], ws[i], outcomes[i - 1]);
    }
  }

  /** In no run does an uninstall meet a record outside the root: it gets through its files unless the user put
      a directory where a tracked file was. */
  lemma UninstallNeverLeavesRoot(root: Path, ws: seq<World>, steps: seq<Step>, outcomes: seq<Outcome>, i: nat)
    requires IsRun(root, ws, steps, outcomes) && Fresh(ws[0]) && i <= |steps|
    ensures forall t | t in Targets(ws[i].manifest) :: Within(root, t)
    ensures Deletable(root, ws[i].fs, TrackedFiles(ws[i].manifest))
       <==> forall t | t in Targets(ws[i].manifest) :: t !in ws[i].fs.dirs
  {
    RunKeepsInv(root, ws, steps, outcomes, i);
    hide IsRun, Fresh;
    var files := TrackedFiles(ws[i].manifest);
    TrackedTargets(ws[i].manifest);
    assert forall j | 0 <= j < |files| :: files[j].target in RecordTargets(files);
  }

  /** Steps that never pass --force. */
  predicate NonForced(step: Step) {
    match step
    case InitStep(req) => !req.force
    case UpdateStep(req) => !req.force
    case _ => true
  }

  lemma UninstallLeavesUntracked(root: Path, w: World, after: World, outcome: Outcome, p: Path)
    requires UninstallResult(root, w, after, outcome) && p !in Targets(w.manifest)
    ensures SameFile(after.fs, w.fs, p) && p !in Targets(after.manifest)
  {
    TrackedTargets(w.manifest);
  }

  /** A file of the user's that no edit touches survives every run without --force. */
  lemma {:induction false} UserFileSurvivesRun(root: Path, ws: seq<World>, steps: seq<Step>, outcomes: seq<Outcome>,
      p: Path, i: nat)
    requires IsRun(root, ws, steps, outcomes) && i <= |steps|
    requires p in ws[0].fs.files && p !in Targets(ws[0].manifest)
    requires forall j | 0 <= j < i ::
      NonForced(steps[j]) && (steps[j].EditStep? ==> SameFile(ws[j + 1].fs, ws[j].fs, p))
    ensures SameFile(ws[i].fs, ws[0].fs, p) && p !in Targets(ws[i].manifest)
  {
    if i > 0 {
      UserFileSurvivesRun(root, ws, steps, outcomes, p, i - 1);
      var w, after, step, outcome := ws[i - 1], ws[i - 1 + 1], steps[i - 1], outcomes[i - 1];
      assert Next(root, w, step, after, outcome) && NonForced(step);
      hide IsRun, InitResult, UninstallResult, RequestOk, Targets;
      match step
      case InitStep(req) => UntrackedFileSurvivesInit(root, w, req, after, outcome, p);
      case UpdateStep(req) =>
        if w.manifest.Some? {
          UpdateRequestOk(w.manifest.value, req);
          UntrackedFileSurvivesInit(root, w, UpdateRequest(w.manifest.value, req), after, outcome, p);
        }
      case UninstallStep => UninstallLeavesUntracked(root, w, after, outcome, p);
      case EditStep =>
    }
  }
}
