/** The installer as the code runs it: loops over files that change the disk, the manifest and the settings. */
module Installer {
  import opened Wrappers
  import opened SettingsModel
  import opened SettingsMerge
  import opened SettingsUnmerge
  import opened SettingsStore
  import opened SettingsPlan
  import opened SettingsRoundTrip
  import opened SettingsLaws
  import opened FileSystem
  import opened InstallModel

  datatype FilePlan = FilePlan(action: FileAction, target: Path, content: Content)

  function PlanTargets(plans: seq<FilePlan>): set<Path> {
    set i | 0 <= i < |plans| :: plans[i].target
  }

  /** One plan per wanted file, in any order. */
  predicate PlansFor(plans: seq<FilePlan>, fs: FS, tracked: set<Path>, wanted: map<Path, Content>, force: bool) {
    && DistinctPlans(plans)
    && (forall i | 0 <= i < |plans| ::
          && plans[i].target in wanted
          && plans[i] == FilePlan(PlanFile(fs, tracked, plans[i].target, wanted[plans[i].target], force),
                                  plans[i].target, wanted[plans[i].target]))
    && PlanTargets(plans) == wanted.Keys
  }

  predicate DistinctPlans(plans: seq<FilePlan>) {
    forall i, j | 0 <= i < j < |plans| :: plans[i].target != plans[j].target
  }

  /** What the plans write. */
  function PlannedWrites(plans: seq<FilePlan>): map<Path, Content> {
    if plans == [] then map[] else
    var n := |plans| - 1;
    var before := PlannedWrites(plans[..n]);
    if Writes(plans[n].action) then before[plans[n].target := plans[n].content] else before
  }

  predicate WritesPlan(plans: seq<FilePlan>, i: int, t: Path) {
    0 <= i < |plans| && Writes(plans[i].action) && plans[i].target == t
  }

  lemma {:induction false} PlannedWritesMembers(plans: seq<FilePlan>)
    requires DistinctPlans(plans)
    ensures forall t :: t in PlannedWrites(plans) <==> exists i :: WritesPlan(plans, i, t)
    ensures forall t, i | WritesPlan(plans, i, t) :: PlannedWrites(plans)[t] == plans[i].content
  {
    if plans != [] {
      var n := |plans| - 1;
      var before := plans[..n];
      PlannedWritesMembers(before);
      forall t, i
        ensures WritesPlan(plans, i, t) <==> WritesPlan(before, i, t) || (i == n && WritesPlan(plans, n, t))
      {}
      forall t ensures t in PlannedWrites(plans) <==> exists i :: WritesPlan(plans, i, t) {
        if t in PlannedWrites(before) {
          var i :| WritesPlan(before, i, t);
          assert WritesPlan(plans, i, t);
        }
        assert t == plans[n].target && Writes(plans[n].action) ==> WritesPlan(plans, n, t);
      }
    }
  }

  /** A prefix of the plans writes part of what all of them write, and nothing at the next target. */
  lemma PlannedWritesPrefix(plans: seq<FilePlan>, i: nat)
    requires DistinctPlans(plans) && i < |plans|
    ensures PlannedWrites(plans[..i + 1])
         == if Writes(plans[i].action) then PlannedWrites(plans[..i])[plans[i].target := plans[i].content]
            else PlannedWrites(plans[..i])
    ensures plans[i].target !in PlannedWrites(plans[..i])
    ensures forall t | t in PlannedWrites(plans[..i]) ::
      t in PlannedWrites(plans) && PlannedWrites(plans[..i])[t] == PlannedWrites(plans)[t]
    ensures Writes(plans[i].action) ==> plans[i].target in PlannedWrites(plans)
  {
    assert plans[..i + 1][..i] == plans[..i];
    PlannedWritesMembers(plans[..i]);
    PlannedWritesMembers(plans);
    forall t, j | WritesPlan(plans[..i], j, t) ensures WritesPlan(plans, j, t) {}
    assert Writes(plans[i].action) ==> WritesPlan(plans, i, plans[i].target);
  }

  lemma PlannedWritesAre(plans: seq<FilePlan>, fs: FS, tracked: set<Path>, wanted: map<Path, Content>, force: bool)
    requires PlansFor(plans, fs, tracked, wanted, force)
    ensures PlannedWrites(plans) == ToWrite(fs, tracked, wanted, force)
  {
    var a, b := PlannedWrites(plans), ToWrite(fs, tracked, wanted, force);
    PlannedWritesMembers(plans);
    forall t | t in b ensures t in a && a[t] == b[t] {
      assert t in PlanTargets(plans);
      var i :| 0 <= i < |plans| && plans[i].target == t;
      assert WritesPlan(plans, i, t);
    }
    forall t | t in a ensures t in b {
      var i :| WritesPlan(plans, i, t);
    }
    assert a == b;
  }

  lemma RecordsOfSnoc(installed: seq<Record>, writes: map<Path, Content>, t: Path, c: Content)
    requires RecordsOf(installed, writes) && t !in writes
    ensures RecordsOf(installed + [Record(t, c)], writes[t := c])
  {
    var r := installed + [Record(t, c)];
    forall u | u in writes[t := c] ensures u in RecordTargets(r) {
      if u == t {
        assert r[|installed|].target == t;
      } else {
        assert u in RecordTargets(installed);
        var i :| 0 <= i < |installed| && installed[i].target == u;
        assert r[i].target == u;
      }
    }
    forall i, j | 0 <= i < j < |r| ensures r[i].target != r[j].target {
      assert installed[i].target in RecordTargets(installed);
    }
  }

  lemma StaleSnoc(root: Path, fs: FS, planned: set<Path>, files: seq<Record>, i: nat)
    requires i < |files|
    ensures Stale(root, fs, planned, files[..i + 1])
         == Stale(root, fs, planned, files[..i])
          + (if StaleRecord(root, fs, planned, files[i]) then {files[i].target} else {})
  {
    var a, b := Stale(root, fs, planned, files[..i]), Stale(root, fs, planned, files[..i + 1]);
    forall t | t in a ensures t in b {
      var j :| 0 <= j < i && StaleRecord(root, fs, planned, files[..i][j]) && files[..i][j].target == t;
      assert files[..i + 1][j] == files[j];
    }
    assert files[..i + 1][i] == files[i];
    forall t | t in b ensures t in a || (StaleRecord(root, fs, planned, files[i]) && t == files[i].target) {
      var j :| 0 <= j < i + 1 && StaleRecord(root, fs, planned, files[..i + 1][j]) && files[..i + 1][j].target == t;
      if j < i { assert files[..i][j] == files[j]; }
    }
  }

  lemma NoFilesNoStale(root: Path, fs: FS, planned: set<Path>)
    ensures Stale(root, fs, planned, []) == {}
  {}

  lemma OwnedUnlessGone(root: Path, before: FS, now: FS, planned: set<Path>, gone: set<Path>, r: Record)
    requires now == FS(before.files - gone, before.dirs)
    ensures r.target in planned || !Within(root, r.target) ==> !StaleRecord(root, before, planned, r)
    ensures !Owned(now, r) ==> r.target in gone || !StaleRecord(root, before, planned, r)
    ensures r.target !in planned && Within(root, r.target) && Owned(now, r) ==> StaleRecord(root, before, planned, r)
  {}

  lemma ParentsOfPlus(root: Path, ps: set<Path>, p: Path)
    ensures ParentsOf(root, ps + {p}) == ParentsOf(root, ps) + Parents(root, p)
    ensures ParentsOf(root, {}) == {}
  {}

  lemma RemovingKeepsWellFormed(fs: FS, gone: set<Path>)
    requires WellFormed(fs)
    ensures WellFormed(FS(fs.files - gone, fs.dirs))
  {}

  lemma RecordTargetsSnoc(files: seq<Record>, i: nat)
    requires i < |files|
    ensures RecordTargets(files[..i + 1]) == RecordTargets(files[..i]) + {files[i].target}
    ensures RecordTargets(files[..i]) <= RecordTargets(files)
    ensures RecordTargets(files[..0]) == {}
  {
    forall t | t in RecordTargets(files[..i]) ensures t in RecordTargets(files[..i + 1]) && t in RecordTargets(files) {
      var j :| 0 <= j < i && files[..i][j].target == t;
      assert files[..i + 1][j] == files[j] && files[j].target == t;
    }
    assert files[..i + 1][i] == files[i];
    forall t | t in RecordTargets(files[..i + 1]) ensures t in RecordTargets(files[..i]) || t == files[i].target {
      var j :| 0 <= j < i + 1 && files[..i + 1][j].target == t;
      if j < i { assert files[..i][j] == files[j]; }
    }
  }

  lemma WritesArePrefixFree(root: Path, w: World, req: Request)
    requires RequestOk(req)
    ensures PrefixFree(ToWrite(w.fs, Targets(w.manifest), Wanted(root, w.manifest, req), req.force).Keys)
  {
    WantedBelowRoot(root, w.manifest, req);
  }

  lemma WrittenIsWellFormed(root: Path, w: World, req: Request)
    requires RequestOk(req) && WellFormed(w.fs)
    requires AllWritable(w.fs, ToWrite(w.fs, Targets(w.manifest), Wanted(root, w.manifest, req), req.force))
    ensures var writes := ToWrite(w.fs, Targets(w.manifest), Wanted(root, w.manifest, req), req.force);
      WellFormed(WrittenAll(w.fs, writes))
  {
    WritesArePrefixFree(root, w, req);
    WrittenAllWellFormed(w.fs, ToWrite(w.fs, Targets(w.manifest), Wanted(root, w.manifest, req), req.force));
  }

  lemma ReadBackedUp(st: Store, now: Timestamp)
    ensures Read(BackedUp(st, now)) == Read(st) && BackedUp(st, now).file == st.file
      && BackedUp(st, now).added == st.added
  {}

  lemma ForceNeverConflicts(s: Settings, p: Preset, o: MergeOptions)
    ensures o.force ==> !MergeConflicts(s, p, o)
  {}

  lemma RecordedTargets(installed: seq<Record>, writes: map<Path, Content>)
    ensures RecordsOf(installed, writes) ==> RecordTargets(installed) == writes.Keys
  {}

  predicate IsPlanFor(plan: FilePlan, fs: FS, tracked: set<Path>, wanted: map<Path, Content>, force: bool) {
    && plan.target in wanted
    && var content := wanted[plan.target];
       plan == FilePlan(PlanFile(fs, tracked, plan.target, content, force), plan.target, content)
  }

  /** The plans made once the sources outside `todo` have been looked at. */
  ghost predicate PlansSoFar(plans: seq<FilePlan>, fs: FS, tracked: set<Path>, wanted: map<Path, Content>,
      force: bool, root: Path, todo: set<Path>) {
    && DistinctPlans(plans)
    && (forall i | 0 <= i < |plans| :: IsPlanFor(plans[i], fs, tracked, wanted, force))
    && (forall t :: t in PlanTargets(plans) <==> t in wanted && |t| >= |root| && t[|root|..] !in todo)
  }

  lemma DistinctSnoc(plans: seq<FilePlan>, plan: FilePlan)
    requires DistinctPlans(plans) && plan.target !in PlanTargets(plans)
    ensures DistinctPlans(plans + [plan])
  {
    var more := plans + [plan];
    forall i, j | 0 <= i < j < |more| ensures more[i].target != more[j].target {
      assert plans[i].target in PlanTargets(plans);
    }
  }

  lemma PlansStep(plans: seq<FilePlan>, fs: FS, tracked: set<Path>, wanted: map<Path, Content>, force: bool,
      root: Path, todo: set<Path>, rel: Path)
    requires PlansSoFar(plans, fs, tracked, wanted, force, root, todo) && rel in todo
    requires forall t | t in wanted :: Within(root, t)
    ensures var t := root + rel;
      PlansSoFar(
        if t in wanted then plans + [FilePlan(PlanFile(fs, tracked, t, wanted[t], force), t, wanted[t])] else plans,
        fs, tracked, wanted, force, root, todo - {rel})
  {
    hide PlanFile, PlanTargets, DistinctPlans;
    var target := root + rel;
    assert target[|root|..] == rel && target !in PlanTargets(plans);
    forall t | t in wanted && t[|root|..] == rel ensures t == target { assert t == t[..|root|] + t[|root|..]; }
    if target in wanted {
      var plan := FilePlan(PlanFile(fs, tracked, target, wanted[target], force), target, wanted[target]);
      DistinctSnoc(plans, plan);
      PlanTargetsSnoc(plans, plan);
      hide IsPlanFor;
      assert IsPlanFor(plan, fs, tracked, wanted, force) by { PlanIsPlan(fs, tracked, wanted, force, target); }
    }
  }

  lemma PlanIsPlan(fs: FS, tracked: set<Path>, wanted: map<Path, Content>, force: bool, t: Path)
    requires t in wanted
    ensures IsPlanFor(FilePlan(PlanFile(fs, tracked, t, wanted[t], force), t, wanted[t]), fs, tracked, wanted, force)
  {}

  lemma PlanTargetsSnoc(plans: seq<FilePlan>, plan: FilePlan)
    ensures PlanTargets(plans + [plan]) == PlanTargets(plans) + {plan.target}
  {
    var more := plans + [plan];
    assert more[|plans|] == plan;
    forall t | t in PlanTargets(plans) ensures t in PlanTargets(more) {
      var i :| 0 <= i < |plans| && plans[i].target == t;
      assert more[i].target == t;
    }
  }

  lemma PlansComplete(plans: seq<FilePlan>, fs: FS, tracked: set<Path>, wanted: map<Path, Content>, force: bool,
      root: Path)
    requires PlansSoFar(plans, fs, tracked, wanted, force, root, {}) && forall t | t in wanted :: Within(root, t)
    ensures PlansFor(plans, fs, tracked, wanted, force)
    ensures FileConflicts(fs, tracked, wanted, force)
      <==> exists i | 0 <= i < |plans| :: plans[i].action == ConflictFile
  {
    hide PlanFile;
    assert PlanTargets(plans) == wanted.Keys;
    if FileConflicts(fs, tracked, wanted, force) {
      var t :| t in wanted && PlanFile(fs, tracked, t, wanted[t], force) == ConflictFile;
      assert t in PlanTargets(plans);
      var i :| 0 <= i < |plans| && plans[i].target == t;
      assert IsPlanFor(plans[i], fs, tracked, wanted, force);
    }
    forall i | 0 <= i < |plans| ensures plans[i].target in wanted
        && plans[i].action == PlanFile(fs, tracked, plans[i].target, wanted[plans[i].target], force) {
      assert IsPlanFor(plans[i], fs, tracked, wanted, force);
    }
  }

  lemma KeptFrom(files: seq<Record>, i: nat, planned: set<Path>, written: set<Path>)
    requires i < |files|
    ensures KeptRecords(files[i..], planned, written)
         == (if files[i].target in planned && files[i].target !in written then [files[i]] else [])
          + KeptRecords(files[i + 1..], planned, written)
  {
    assert files[i..][0] == files[i] && files[i..][1..] == files[i + 1..];
  }

  lemma KeptWhole(files: seq<Record>, planned: set<Path>, written: set<Path>)
    ensures KeptRecords(files[0..], planned, written) == KeptRecords(files, planned, written)
    ensures KeptRecords(files[|files|..], planned, written) == []
  {
    assert files[0..] == files;
  }

  class Installer {
    const root: Path
    var fs: FS
    var manifest: Option<Installation>
    var store: Store

    constructor (root: Path, w: World)
      ensures this.root == root && State() == w
    {
      this.root := root;
      fs, manifest, store := w.fs, w.manifest, w.store;
    }

    function State(): World
      reads this
    {
      World(fs, manifest, store)
    }

    /** The file half of plan(): one _plan_file per selected source file. */
    method PlanFiles(req: Request) returns (plans: seq<FilePlan>, conflicts: bool)
      requires RequestOk(req)
      ensures PlansFor(plans, fs, Targets(manifest), Wanted(root, manifest, req), req.force)
      ensures conflicts == FileConflicts(fs, Targets(manifest), Wanted(root, manifest, req), req.force)
    {
      var tracked := Targets(manifest);
      ghost var wanted := Wanted(root, manifest, req);
      WantedBelowRoot(root, manifest, req);
      plans, conflicts := [], false;
      var todo := req.sources.Keys;
      while todo != {}
        invariant todo <= req.sources.Keys
        invariant PlansSoFar(plans, fs, tracked, wanted, req.force, root, todo)
        invariant conflicts <==> exists i | 0 <= i < |plans| :: plans[i].action == ConflictFile
        decreases todo
      {
        hide PlansSoFar, Wanted, Selected, PlanFile;
        var rel :| rel in todo;
        var target := root + rel;
        assert target[|root|..] == rel;
        WantedAt(root, manifest, req, rel);
        ghost var before := plans;
        if Selected(root, manifest, req, rel) {
          var plan := FilePlan(PlanFile(fs, tracked, target, req.sources[rel], req.force), target, req.sources[rel]);
          plans := plans + [plan];
          assert plans[|before|] == plan;
          if plan.action == ConflictFile {
            conflicts := true;
          }
          assert forall i | 0 <= i < |before| :: plans[i] == before[i];
        }
        PlansStep(before, fs, tracked, wanted, req.force, root, todo, rel);
        todo := todo - {rel};
      }
      PlansComplete(plans, fs, tracked, wanted, req.force, root);
    }

    /** Execute the install and update plans in order; false when an exception stopped the loop. */
    method ExecuteFiles(plans: seq<FilePlan>, ghost writes: map<Path, Content>)
        returns (ok: bool, installed: seq<Record>)
      requires DistinctPlans(plans) && PlannedWrites(plans) == writes && PrefixFree(writes.Keys)
      modifies this`fs
      ensures ok <==> AllWritable(old(fs), writes)
      ensures ok ==> fs == WrittenAll(old(fs), writes) && RecordsOf(installed, writes)
      ensures !ok ==> PartlyWritten(old(fs), fs, writes)
    {
      installed := [];
      ghost var before := fs;
      WrittenAllNothing(before);
      for i := 0 to |plans|
        invariant fs == WrittenAll(before, PlannedWrites(plans[..i]))
        invariant RecordsOf(installed, PlannedWrites(plans[..i]))
        invariant PlannedWrites(plans[..i]).Keys <= writes.Keys && AllWritable(before, PlannedWrites(plans[..i]))
      {
        var plan := plans[i];
        ghost var sofar := PlannedWrites(plans[..i]);
        PlannedWritesPrefix(plans, i);
        if Writes(plan.action) {
          assert PrefixFree(sofar.Keys + {plan.target});
          StillWritable(before, sofar, plan.target);
          if !Writable(fs, plan.target) {
            assert plan.target in writes && !Writable(before, plan.target);
            assert sofar == Only(writes, sofar.Keys);
            return false, installed;
          }
          WrittenAllStep(before, sofar, plan.target, plan.content);
          RecordsOfSnoc(installed, sofar, plan.target, plan.content);
          fs := Written(fs, plan.target, plan.content);
          installed := installed + [Record(plan.target, plan.content)];
        }
      }
      assert plans[..|plans|] == plans;
      return true, installed;
    }

    /** Delete tracked files whose source is gone and that are still ours, then prune the directories left empty. */
    method RemoveStale(files: seq<Record>, planned: set<Path>)
      requires WellFormed(fs)
      modifies this`fs
      ensures var stale := Stale(root, old(fs), planned, files);
        fs == RemoveAndPrune(root, old(fs), stale, stale)
    {
      hide StaleRecord, Parents, ParentsOf, WellFormed, Pruned;
      ghost var before := fs;
      NoFilesNoStale(root, before, planned);
      ParentsOfPlus(root, {}, []);
      var dirsToClean: set<Path> := {};
      for i := 0 to |files|
        invariant fs == FS(before.files - Stale(root, before, planned, files[..i]), before.dirs)
        invariant dirsToClean == ParentsOf(root, Stale(root, before, planned, files[..i]))
      {
        var r := files[i];
        ghost var sofar := Stale(root, before, planned, files[..i]);
        StaleSnoc(root, before, planned, files, i);
        ParentsOfPlus(root, sofar, r.target);
        OwnedUnlessGone(root, before, fs, planned, sofar, r);
        if r.target in planned {
          continue;
        }
        if !Within(root, r.target) {
          continue;
        }
        if !Owned(fs, r) {
          assert sofar + {r.target} == sofar || !StaleRecord(root, before, planned, r);
          continue;
        }
        fs := fs.(files := fs.files - {r.target});
        dirsToClean := dirsToClean + Parents(root, r.target);
      }
      assert files[..|files|] == files;
      RemovingKeepsWellFormed(before, Stale(root, before, planned, files));
      fs := PruneDeepestFirst(fs, dirsToClean);
    }

    /** Drop skipped records that are not planned any more and keep the others. */
    method KeepSkipped(files: seq<Record>, planned: set<Path>, written: set<Path>) returns (kept: seq<Record>)
      ensures kept == KeptRecords(files, planned, written)
    {
      hide KeptRecords;
      KeptWhole(files, planned, written);
      kept := [];
      for i := 0 to |files|
        invariant kept + KeptRecords(files[i..], planned, written) == KeptRecords(files, planned, written)
      {
        KeptFrom(files, i, planned, written);
        if files[i].target in planned && files[i].target !in written {
          kept := kept + [files[i]];
        }
      }
    }

    method NextSettingsEntries(renewals: seq<Entry>, existing: seq<Entry>) returns (entries: seq<Entry>)
      ensures entries == NextEntries(renewals, existing)
    {
      entries := renewals;
      for i := 0 to |existing|
        invariant entries + NotRenewed(existing[i..], renewals) == NextEntries(renewals, existing)
      {
        assert existing[i..][0] == existing[i] && existing[i..][1..] == existing[i + 1..];
        if !Renewed(existing[i], renewals) {
          entries := entries + [existing[i]];
        }
      }
    }

    /** Merge the preset into the settings file and remember what was added. */
    method MergeSettings(req: Request) returns (entries: seq<Entry>)
      requires PresetOk(req.preset)
      requires MergeFits(Read(store), req.preset, InitOptions(req.modules, req.force))
      requires !MergeConflicts(Read(store), req.preset, InitOptions(req.modules, req.force))
      modifies this`store
      ensures var o := InitOptions(req.modules, req.force);
        && store.file == Some(Merged(Read(old(store)), req.preset, o))
        && store.backups == old(store).backups
        && store.added == old(store).added[req.now := AddedStructure(MergeEntries(Read(old(store)), req.preset, o))]
        && entries == MergeEntries(Read(old(store)), req.preset, o)
    {
      hide MergeFits, MergeConflicts, Merged, MergeEntries, AddedStructure, PresetOk;
      var o := InitOptions(req.modules, req.force);
      var dict := new SettingsDict(Read(store));
      var r := dict.Merge(req.preset, o);
      assert r.Ok?;
      entries := r.value;
      var added := EntriesToAddedStructure(entries);
      store := store.(file := Some(dict.data), added := store.added[req.now := added]);
    }

    method Init(req: Request) returns (outcome: Outcome)
      requires RequestOk(req) && WellFormed(fs)
      modifies this
      ensures InitResult(root, old(State()), req, State(), outcome)
    {
      hide PlanFits, MergeFits, SettingsRows, MergeConflicts, Merged, MergeEntries, AddedStructure, Wanted, ToWrite,
           PlanFile, Stale, RemoveAndPrune, RecordsOf, KeptRecords, NextEntries, PartlyWritten, Read, PrefixFree,
           FileConflicts, AllWritable, WellFormed;
      ghost var w := State();
      ghost var wanted := Wanted(root, manifest, req);
      ghost var writes := ToWrite(fs, Targets(manifest), wanted, req.force);
      var o := InitOptions(req.modules, req.force);
      if !PlanFits(Read(store), req.preset, req.modules) {
        return Raised;
      }
      var plans, fileConflicts := PlanFiles(req);
      var rows := PlanSettings(Read(store), req.preset, req.modules, req.force);
      var settingsConflicts := exists row | row in rows :: row.action == Conflicting;
      if (fileConflicts || settingsConflicts) && !req.force {
        return Conflicted;
      }
      var existing := manifest;
      store := BackedUp(store, req.now);
      WritesArePrefixFree(root, w, req);
      PlannedWritesAre(plans, fs, Targets(manifest), wanted, req.force);
      var ok, installed := ExecuteFiles(plans, writes);
      if !ok {
        return Raised;
      }
      ReadBackedUp(w.store, req.now);
      if !MergeFits(Read(store), req.preset, o) {
        return Raised;
      }
      ConflictFreePlanMerges(Read(store), req.preset, req.modules, req.force);
      ForceNeverConflicts(Read(store), req.preset, o);
      var entries := MergeSettings(req);
      WrittenIsWellFormed(root, w, req);
      RemoveStale(TrackedFiles(existing), PlanTargets(plans));
      var kept := KeepSkipped(TrackedFiles(existing), PlanTargets(plans), RecordTargets(installed));
      var finalEntries := NextSettingsEntries(entries, TrackedEntries(existing));
      manifest := Some(Installation(req.modules, req.profile, installed + kept, finalEntries));
      RecordedTargets(installed, writes);
      return Done;
    }

    method UpdateInstallation(req: Request) returns (outcome: Outcome)
      requires RequestOk(req) && WellFormed(fs)
      modifies this
      ensures UpdateResult(root, old(State()), req, State(), outcome)
    {
      hide InitResult;
      if manifest.None? {
        return NotInstalled;
      }
      outcome := Init(UpdateRequest(manifest.value, req));
    }

    /** Delete every tracked file; false when a record was outside the root or had become a directory. */
    method DeleteTracked(files: seq<Record>) returns (ok: bool, dirsToClean: set<Path>)
      modifies this`fs
      ensures ok <==> Deletable(root, old(fs), files)
      ensures ok ==> fs == FS(old(fs).files - RecordTargets(files), old(fs).dirs)
      ensures ok ==> dirsToClean == ParentsOf(root, RecordTargets(files))
      ensures !ok ==>
        fs.dirs == old(fs).dirs && exists done | done <= RecordTargets(files) :: fs.files == old(fs).files - done
    {
      ghost var before := fs;
      dirsToClean := {};
      for i := 0 to |files|
        invariant Deletable(root, before, files[..i])
        invariant fs == FS(before.files - RecordTargets(files[..i]), before.dirs)
        invariant dirsToClean == ParentsOf(root, RecordTargets(files[..i]))
      {
        var target := files[i].target;
        RecordTargetsSnoc(files, i);
        ParentsOfPlus(root, RecordTargets(files[..i]), target);
        if !Within(root, target) {
          return false, dirsToClean;
        }
        if target in fs.dirs {
          return false, dirsToClean;
        }
        if target in fs.files {
          fs := fs.(files := fs.files - {target});
        }
        dirsToClean := dirsToClean + Parents(root, target);
        assert files[..i + 1] == files[..i] + [files[i]];
      }
      assert files[..|files|] == files;
      return true, dirsToClean;
    }

    /** Take our settings back out; false when a shape stopped the code with a type error. */
    method RestoreSettings(entries: seq<Entry>) returns (ok: bool)
      modifies this`store
      ensures ok <==> UninstallFits(old(store), entries)
      ensures store == if ok then Uninstalled(old(store), entries) else old(store)
    {
      hide SmartUnmerged, Unmerged, UnmergeFits, AddedOk, EntriesOk, Newest, Cleaned;
      if !UninstallFits(store, entries) {
        return false;
      }
      var current, backup, added := Read(store), Newest(store.backups), Newest(store.added);
      if added != EMPTY {
        GuardsDoNotReachCleanup(current, backup, added);
        var result := SmartUnmerge(current, backup, added);
        result := Cleaned(result);
        var backupCleaned := Cleaned(backup);
        CleanedTwice(backup);
        CleanedTwice(SmartUnmerged(current, backup, added));
        if SettingsEqual(result, backupCleaned) {
          if store.backups != map[] && backupCleaned != EMPTY {
            store := store.(file := Some(backupCleaned));
          } else {
            store := store.(file := None);
          }
        } else {
          store := store.(file := Some(result));
        }
      } else {
        var dict := new SettingsDict(current);
        Unmerge(dict, entries);
        store := store.(file := Some(dict.data));
      }
      store := store.(added := map[]);
      return true;
    }

    method Uninstall() returns (outcome: Outcome)
      requires WellFormed(fs)
      modifies this
      ensures UninstallResult(root, old(State()), State(), outcome)
    {
      hide UninstallFits, Uninstalled, Deletable;
      if manifest.None? {
        return NotInstalled;
      }
      ghost var before := fs;
      var files := manifest.value.files;
      var ok, dirsToClean := DeleteTracked(files);
      if !ok {
        return Raised;
      }
      RemovingKeepsWellFormed(before, RecordTargets(files));
      fs := PruneDeepestFirst(fs, dirsToClean);
      var restored := RestoreSettings(manifest.value.entries);
      if !restored {
        return Raised;
      }
      manifest := None;
      return Done;
    }
  }
}
