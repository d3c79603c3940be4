/** What single runs of the installer promise about files, manifest and settings. */
module InstallLaws {
  import opened Wrappers
  import opened Json
  import opened SettingsModel
  import opened SettingsRoundTrip
  import opened SettingsLaws
  import opened SettingsStore
  import opened SettingsPlan
  import opened FileSystem
  import opened InstallModel

  // ----- the manifest after an install

  lemma {:induction false} KeptMembers(files: seq<Record>, planned: set<Path>, written: set<Path>)
    ensures forall r ::
      r in KeptRecords(files, planned, written) <==> r in files && r.target in planned && r.target !in written
  {
    if files != [] {
      KeptMembers(files[1..], planned, written);
      assert files == [files[0]] + files[1..];
    }
  }

  lemma {:induction false} KeptDistinct(files: seq<Record>, planned: set<Path>, written: set<Path>)
    requires DistinctTargets(files)
    ensures DistinctTargets(KeptRecords(files, planned, written))
  {
    if files != [] {
      assert DistinctTargets(files[1..]);
      KeptDistinct(files[1..], planned, written);
      KeptMembers(files[1..], planned, written);
      forall r | r in KeptRecords(files[1..], planned, written) ensures r.target != files[0].target {
        assert r in files[1..];
      }
    }
  }

  lemma TargetsAre(files: seq<Record>)
    ensures forall t :: t in RecordTargets(files) <==> exists r | r in files :: r.target == t
  {}

  lemma TargetsOfConcat(a: seq<Record>, b: seq<Record>)
    ensures RecordTargets(a + b) == RecordTargets(a) + RecordTargets(b)
  {
    TargetsAre(a);
    TargetsAre(b);
    TargetsAre(a + b);
    hide RecordTargets;
    forall t ensures t in RecordTargets(a + b) <==> t in RecordTargets(a) || t in RecordTargets(b) {
      if t in RecordTargets(a + b) {
        var r :| r in a + b && r.target == t;
        assert r in a || r in b;
      }
      if t in RecordTargets(a) {
        var r :| r in a && r.target == t;
        assert r in a + b;
      }
      if t in RecordTargets(b) {
        var r :| r in b && r.target == t;
        assert r in a + b;
      }
    }
  }

  lemma TrackedTargets(m: Option<Installation>)
    ensures Targets(m) == RecordTargets(TrackedFiles(m))
  {}

  lemma KeptTargets(files: seq<Record>, planned: set<Path>, written: set<Path>)
    ensures RecordTargets(KeptRecords(files, planned, written)) == RecordTargets(files) * planned - written
  {
    KeptMembers(files, planned, written);
    TargetsAre(files);
    TargetsAre(KeptRecords(files, planned, written));
    hide RecordTargets, KeptRecords;
    forall t
      ensures t in RecordTargets(KeptRecords(files, planned, written))
         <==> t in RecordTargets(files) * planned - written
    {
      if t in RecordTargets(files) * planned - written {
        var r :| r in files && r.target == t;
        assert r in KeptRecords(files, planned, written);
      }
    }
  }

  // ----- plan and writes

  lemma WritesSplit(fs: FS, tracked: set<Path>, wanted: map<Path, Content>, force: bool)
    requires !FileConflicts(fs, tracked, wanted, force) || force
    ensures var writes := ToWrite(fs, tracked, wanted, force);
      && writes.Keys <= wanted.Keys
      && (forall t | t in wanted && t !in writes :: t in tracked && t in fs.files && fs.files[t] == wanted[t])
      && (forall t | t in wanted :: (fs.files + writes)[t] == wanted[t])
  {
    forall t | t in wanted ensures PlanFile(fs, tracked, t, wanted[t], force) != ConflictFile {}
  }

  /** The branch of InitResult that ran to the end. */
  lemma DoneParts(root: Path, w: World, req: Request, after: World)
    requires RequestOk(req) && InitResult(root, w, req, after, Done)
    ensures var wanted := Wanted(root, w.manifest, req);
      var writes := ToWrite(w.fs, Targets(w.manifest), wanted, req.force);
      && PlanFits(Read(w.store), req.preset, req.modules)
      && MergeFits(Read(w.store), req.preset, InitOptions(req.modules, req.force))
      && (!FileConflicts(w.fs, Targets(w.manifest), wanted, req.force) || req.force)
      && AllWritable(w.fs, writes)
      && after.fs == AfterInstall(root, w, wanted, req.force)
      && after.manifest.Some?
      && exists installed :: RecordsOf(installed, writes)
           && after.manifest.value.files == installed + KeptRecords(TrackedFiles(w.manifest), wanted.Keys, writes.Keys)
  {}

  lemma RecordsCover(installed: seq<Record>, writes: map<Path, Content>)
    requires RecordsOf(installed, writes)
    ensures RecordTargets(installed) == writes.Keys && DistinctTargets(installed)
  {}

  lemma StaleIs(root: Path, fs: FS, planned: set<Path>, files: seq<Record>)
    ensures forall p ::
      p in Stale(root, fs, planned, files)
      <==> exists r | r in files :: r.target == p && StaleRecord(root, fs, planned, r)
  {
    forall p, r | r in files && r.target == p && StaleRecord(root, fs, planned, r)
      ensures p in Stale(root, fs, planned, files) {
      var i :| 0 <= i < |files| && files[i] == r;
    }
  }

  /** The records of an install and the kept ones together cover the plan. */
  lemma RecordsOfPlan(installed: seq<Record>, files: seq<Record>, fs: FS, wanted: map<Path, Content>, force: bool)
    requires RecordsOf(installed, ToWrite(fs, RecordTargets(files), wanted, force))
    requires !FileConflicts(fs, RecordTargets(files), wanted, force) || force
    ensures var writes := ToWrite(fs, RecordTargets(files), wanted, force);
      RecordTargets(installed + KeptRecords(files, wanted.Keys, writes.Keys)) == wanted.Keys
  {
    hide ToWrite, RecordsOf, KeptRecords, RecordTargets, FileConflicts;
    var writes := ToWrite(fs, RecordTargets(files), wanted, force);
    WritesSplit(fs, RecordTargets(files), wanted, force);
    TargetsOfConcat(installed, KeptRecords(files, wanted.Keys, writes.Keys));
    KeptTargets(files, wanted.Keys, writes.Keys);
    RecordsCover(installed, writes);
  }

  lemma ManifestAfterInit(root: Path, w: World, req: Request, after: World)
    requires RequestOk(req) && InitResult(root, w, req, after, Done)
    ensures Targets(after.manifest) == Wanted(root, w.manifest, req).Keys
  {
    DoneParts(root, w, req, after);
    hide *;
    var wanted := Wanted(root, w.manifest, req);
    var writes := ToWrite(w.fs, Targets(w.manifest), wanted, req.force);
    var files := TrackedFiles(w.manifest);
    var kept := KeptRecords(files, wanted.Keys, writes.Keys);
    TrackedTargets(w.manifest);
    TrackedTargets(after.manifest);
    var installed :| RecordsOf(installed, writes) && after.manifest.value.files == installed + kept;
    RecordsOfPlan(installed, files, w.fs, wanted, req.force);
    FilesOf(after.manifest);
  }

  lemma FilesOf(m: Option<Installation>)
    ensures m.Some? ==> TrackedFiles(m) == m.value.files
  {
  }

  /** A tracked file outside the plan that is still what was installed. */
  predicate StillOurs(root: Path, w: World, p: Path) {
    exists r | r in TrackedFiles(w.manifest) :: r.target == p && Within(root, p) && Owned(w.fs, r)
  }

  lemma FilesAfterInit(root: Path, w: World, req: Request, after: World)
    requires RequestOk(req) && InitResult(root, w, req, after, Done)
    ensures var wanted := Wanted(root, w.manifest, req);
      && (forall t | t in wanted :: t in after.fs.files && after.fs.files[t] == wanted[t])
      && (forall p | p !in wanted ::
            && (p in after.fs.files <==> p in w.fs.files && !StillOurs(root, w, p))
            && (p in after.fs.files ==> after.fs.files[p] == w.fs.files[p]))
  {
    DoneParts(root, w, req, after);
    hide InitResult, Wanted, ToWrite, RecordsOf, KeptRecords, PlanFits, MergeFits, AllWritable, Targets, Stale,
      ParentsOf, FileConflicts;
    var wanted := Wanted(root, w.manifest, req);
    var writes := ToWrite(w.fs, Targets(w.manifest), wanted, req.force);
    var files := TrackedFiles(w.manifest);
    WritesSplit(w.fs, Targets(w.manifest), wanted, req.force);
    var written := WrittenAll(w.fs, writes);
    var stale := Stale(root, written, wanted.Keys, files);
    StaleIs(root, written, wanted.Keys, files);
    assert after.fs.files == (w.fs.files + writes) - stale;
    forall p | p !in wanted ensures p in stale <==> StillOurs(root, w, p) {
      forall r | r in files && r.target == p
        ensures StaleRecord(root, written, wanted.Keys, r) <==> Within(root, p) && Owned(w.fs, r)
      {}
    }
  }

  /** After an init that ran to the end the manifest tracks exactly the planned targets, each target holds its
      source's content, and every other path is as before, except that stale files that were still ours are gone. */
  lemma InstalledAsPlanned(root: Path, w: World, req: Request, after: World)
    requires RequestOk(req) && InitResult(root, w, req, after, Done)
    ensures var wanted := Wanted(root, w.manifest, req);
      && Targets(after.manifest) == wanted.Keys
      && (forall t | t in wanted :: t in after.fs.files && after.fs.files[t] == wanted[t])
      && (forall p | p !in wanted ::
            && (p in after.fs.files <==> p in w.fs.files && !StillOurs(root, w, p))
            && (p in after.fs.files ==> after.fs.files[p] == w.fs.files[p]))
  {
    hide InitResult, Wanted, Targets, StillOurs;
    ManifestAfterInit(root, w, req, after);
    FilesAfterInit(root, w, req, after);
  }

  // ----- the user's files

  predicate SameFile(a: FS, b: FS, p: Path) {
    (p in a.files <==> p in b.files) && (p in a.files ==> a.files[p] == b.files[p])
  }

  lemma NotOverwritten(root: Path, w: World, req: Request, p: Path)
    requires RequestOk(req) && !req.force && p in w.fs.files && p !in Targets(w.manifest)
    requires !FileConflicts(w.fs, Targets(w.manifest), Wanted(root, w.manifest, req), false)
    ensures p !in Wanted(root, w.manifest, req)
  {
    hide Wanted;
    var wanted := Wanted(root, w.manifest, req);
    assert p in wanted ==> PlanFile(w.fs, Targets(w.manifest), p, wanted[p], false) == ConflictFile;
  }

  /** However a non-forced init ends, a file that was there and not tracked is untouched and stays untracked. */
  lemma UntrackedFileSurvivesInit(root: Path, w: World, req: Request, after: World, outcome: Outcome, p: Path)
    requires RequestOk(req) && InitResult(root, w, req, after, outcome)
    requires !req.force && p in w.fs.files && p !in Targets(w.manifest)
    ensures SameFile(after.fs, w.fs, p) && p !in Targets(after.manifest)
  {
    if outcome == Done {
      InstalledAsPlanned(root, w, req, after);
      DoneParts(root, w, req, after);
      NotOverwritten(root, w, req, p);
      hide InitResult, Wanted;
      TargetsAre(TrackedFiles(w.manifest));
      TrackedTargets(w.manifest);
    } else if after != w {
      hide Wanted, PlanFits, MergeFits;
      assert !HasConflicts(root, w, req);
      NotOverwritten(root, w, req, p);
      assert p !in ToWrite(w.fs, Targets(w.manifest), Wanted(root, w.manifest, req), req.force);
    }
  }

  /** A tracked file whose source is gone and whose content the user changed is kept, and only dropped from the
      manifest. */
  lemma ModifiedStaleFileIsKept(root: Path, w: World, req: Request, after: World, r: Record)
    requires RequestOk(req) && InitResult(root, w, req, after, Done)
    requires DistinctTargets(TrackedFiles(w.manifest)) && r in TrackedFiles(w.manifest)
    requires r.target in w.fs.files && w.fs.files[r.target] != r.checksum && r.target !in Wanted(root, w.manifest, req)
    ensures SameFile(after.fs, w.fs, r.target) && r.target !in Targets(after.manifest)
  {
    InstalledAsPlanned(root, w, req, after);
    hide InitResult, Wanted;
    assert !StillOurs(root, w, r.target);
  }
}
