/** The backend registry and the installation manifest: two state files kept by locked read-modify-write. */
module Registries {
  import opened Attempts
  import opened Wrappers
  import opened LockedUpdates

  // ----- backends

  datatype Status = Healthy | Unhealthy | Stopped | Unknown

  datatype Backend = Backend(backendId: string, adapterType: string, port: int, pid: Option<int>, status: Status,
      createdAt: Option<string>)

  type Backends = map<string, Backend>

  /** Only a process that Forge started, and that no longer runs, makes an entry stale. */
  predicate Stale(b: Backend, alive: int -> bool) {
    b.pid.Some? && !alive(b.pid.value)
  }

  function Pruned(r: Backends, alive: int -> bool): Backends {
    map id | id in r && !Stale(r[id], alive) :: r[id]
  }

  class BackendRegistryStore {
    var file: File<Backends>

    /** A missing file heals to an empty registry; a corrupt one is never taken for one. */
    method Read() returns (r: Attempt<Backends>)
      ensures r.Raised? <==> file.Corrupt?
      ensures r.Returned? ==> if file.Missing? then r.value == map[] else file == Holds(r.value)
    {
      match file
      case Missing => return Returned(map[]);
      case Corrupt => return Raised;
      case Holds(v) => return Returned(v);
    }

    /** `granted` says whether the lock came within the timeout. */
    method Update(granted: bool, mutate: Backends -> Attempt<Backends>) returns (r: Attempt<Backends>)
      modifies this
      ensures !granted ==> file == old(file) && r.Raised?
      ensures granted ==> (file, r) == UpdatedFile(old(file), map[], mutate)
      ensures r.Returned? <==>
        granted && !old(file).Corrupt? && mutate(if old(file).Missing? then map[] else old(file).value).Returned?
      ensures r.Returned? ==>
        file == Holds(r.value) && r == mutate(if old(file).Missing? then map[] else old(file).value)
      ensures r.Raised? ==> file == old(file)
    {
      if !granted {
        return Raised;
      }
      var registry := Read();
      if registry.Raised? {
        return Raised;
      }
      var mutated := mutate(registry.value);
      if mutated.Raised? {
        return Raised;
      }
      file := Holds(mutated.value);
      return mutated;
    }

    /** An entry goes, and is reported, exactly when it has a pid and that process does not run any more. */
    method PruneDeadPids(granted: bool, alive: int -> bool) returns (r: Attempt<seq<string>>)
      modifies this
      ensures r.Raised? <==> !granted || old(file).Corrupt?
      ensures r.Raised? || r.value == [] ==> file == old(file)
      ensures r.Returned? ==>
        && ReadFile(file, map[]) == Returned(Pruned(ReadFile(old(file), map[]).value, alive))
        && (forall j, k | 0 <= j < k < |r.value| :: r.value[j] != r.value[k])
        && var before, after := ReadFile(old(file), map[]).value, ReadFile(file, map[]).value;
           && (forall id :: id in r.value <==>
                 id in before && before[id].pid.Some? && !alive(before[id].pid.value))
           && (forall id :: id in after <==> id in before && id !in r.value)
           && (forall id | id in after :: after[id] == before[id])
    {
      if !granted {
        return Raised;
      }
      var found := Read();
      if found.Raised? {
        return Raised;
      }
      var registry, staleIds, todo := found.value, [], found.value.Keys;
      while todo != {}
        invariant todo <= found.value.Keys
        invariant forall id :: id in registry <==> id in found.value && (id in todo || !Stale(found.value[id], alive))
        invariant forall id | id in registry :: registry[id] == found.value[id]
        invariant forall id :: id in staleIds <==> id in found.value && id !in todo && Stale(found.value[id], alive)
        invariant forall j, k | 0 <= j < k < |staleIds| :: staleIds[j] != staleIds[k]
      {
        var id :| id in todo;
        todo := todo - {id};
        var entry := found.value[id];
        if entry.pid.Some? {
          if !alive(entry.pid.value) {
            registry := registry - {id};
            staleIds := staleIds + [id];
          }
        }
      }
      assert registry == Pruned(found.value, alive);
      if staleIds != [] {
        file := Holds(registry);
      } else {
        assert forall id | id in found.value :: id !in staleIds && id in registry;
        assert registry == found.value;
      }
      return Returned(staleIds);
    }
  }

  /** What an update returned is what the next read gives; an update that raised leaves the next read as it was. */
  lemma ReadAfterUpdate(file: File<Backends>, mutate: Backends -> Attempt<Backends>)
    ensures var (after, r) := UpdatedFile(file, map[], mutate);
      ReadFile(after, map[]) == if r.Returned? then r else ReadFile(file, map[])
  {
  }

  /** The entry was not started by Forge, or its process runs. */
  predicate Running(b: Backend, alive: int -> bool) {
    b.pid.Some? ==> alive(b.pid.value)
  }

  /** A pass of the pruner that finds the entry's process alive, or an update of some other entry. */
  ghost predicate Spares(m: Backends -> Attempt<Backends>, id: string, b: Backend) {
    || (exists alive: int -> bool :: Running(b, alive) && PrunesBy(m, alive))
    || (exists key :: key != id && LocalTo(m, key))
  }

  ghost predicate PrunesBy(m: Backends -> Attempt<Backends>, alive: int -> bool) {
    forall r :: m(r) == Returned(Pruned(r, alive))
  }

  lemma {:induction false} FoldSparesRunning(v: Backends, log: seq<Completed<Backends>>, id: string)
    requires id in v
    requires forall c | c in log :: Spares(c.mutate, id, v[id])
    ensures Entry(Fold(v, log), id) == Some(v[id])
  {
    if log != [] {
      var n := |log| - 1;
      FoldSparesRunning(v, log[..n], id);
      assert Spares(log[n].mutate, id, v[id]);
      var u := Fold(v, log[..n]);
      if alive: int -> bool :| Running(v[id], alive) && PrunesBy(log[n].mutate, alive) {
        assert log[n].mutate(u) == Returned(Pruned(u, alive));
      }
    }
  }

  /** A backend stays as it was through every run in which every prune finds its process alive and all updates are of
      other backends. */
  lemma RunningNeverPruned(file: File<Backends>, steps: seq<Step<Backends>>, id: string)
    requires ReadFile(file, map[]).Returned? && id in ReadFile(file, map[]).value
    requires forall c | c in Run(Start(file, map[]), steps).log ::
      Spares(c.mutate, id, ReadFile(file, map[]).value[id])
    ensures var now := ReadFile(Run(Start(file, map[]), steps).file, map[]);
            now.Returned? && Entry(now.value, id) == Some(ReadFile(file, map[]).value[id])
  {
    hide Run, Spares;
    EveryRunIsSerial(file, map[], steps);
    FoldSparesRunning(ReadFile(file, map[]).value, Run(Start(file, map[]), steps).log, id);
  }

  /** A pass of the pruner, whatever processes it finds alive, or an update of some other entry. */
  ghost predicate SparesPidless(m: Backends -> Attempt<Backends>, id: string) {
    || (exists alive: int -> bool :: PrunesBy(m, alive))
    || (exists key :: key != id && LocalTo(m, key))
  }

  /** So a backend without a pid stays whatever the prunes find. */
  lemma PidlessNeverPruned(file: File<Backends>, steps: seq<Step<Backends>>, id: string)
    requires ReadFile(file, map[]).Returned? && Entry(ReadFile(file, map[]).value, id).Some?
      && ReadFile(file, map[]).value[id].pid.None?
    requires forall c | c in Run(Start(file, map[]), steps).log :: SparesPidless(c.mutate, id)
    ensures var now := ReadFile(Run(Start(file, map[]), steps).file, map[]);
            now.Returned? && Entry(now.value, id) == Entry(ReadFile(file, map[]).value, id)
  {
    hide Run, PrunesBy;
    var b := ReadFile(file, map[]).value[id];
    forall c | c in Run(Start(file, map[]), steps).log ensures Spares(c.mutate, id, b) {
      assert SparesPidless(c.mutate, id);
      if alive: int -> bool :| PrunesBy(c.mutate, alive) { assert Running(b, alive); }
    }
    RunningNeverPruned(file, steps, id);
  }

  // ----- installation keys

  const USER: string := "user"

  function MakeKey(scope: string, projectPath: Option<string>): Attempt<string> {
    if scope == USER then Returned(USER)
    else if projectPath.None? || projectPath.value == "" then Raised
    else Returned(scope + ":" + projectPath.value)
  }

  function FirstColon(s: string): (n: nat)
    ensures n <= |s| && ':' !in s[..n] && (n < |s| ==> s[n] == ':')
  {
    if s == "" || s[0] == ':' then 0 else
    var n := FirstColon(s[1..]) + 1;
    assert s[..n] == [s[0]] + s[1..][..n - 1];
    n
  }

  function ParseKey(key: string): (string, Option<string>) {
    var n := FirstColon(key);
    if key == USER then (USER, None)
    else if n < |key| then (key[..n], Some(key[n + 1..]))
    else (key, None)
  }

  lemma {:induction false} ColonIsUnique(s: string, n: nat)
    requires n < |s| && s[n] == ':' && ':' !in s[..n]
    ensures FirstColon(s) == n
  {
    if s[0] != ':' {
      assert s[1..][..n - 1] == s[..n][1..];
      ColonIsUnique(s[1..], n - 1);
    }
  }

  /** A key parses back to the scope and project it was made from exactly when the scope holds no colon. */
  lemma KeyRoundTrip(scope: string, projectPath: Option<string>)
    requires MakeKey(scope, projectPath).Returned?
    ensures ParseKey(MakeKey(scope, projectPath).value) == (scope, if scope == USER then None else projectPath)
      <==> ':' !in scope
  {
    if scope != USER {
      var key := scope + ":" + projectPath.value;
      assert key[|scope|] == ':' && key[..|scope|] == scope && key[|scope| + 1..] == projectPath.value;
      assert ':' !in USER && key != USER;
      if ':' !in scope {
        ColonIsUnique(key, |scope|);
      }
      assert ':' !in key[..FirstColon(key)];
    }
  }

  lemma MadeFromParts(scope: string, path: string)
    ensures MakeKey(scope, Some(path)) == Returned(scope + ":" + path) <==> scope != USER && path != ""
  {
    if scope == USER {
      assert |scope + ":" + path| > |USER|;
    }
  }

  lemma OtherKeyMakes(key: string, n: nat)
    requires key != USER && n < |key| && key[n] == ':'
    ensures MakeKey(key[..n], Some(key[n + 1..])) == Returned(key) <==> n + 1 < |key| && key[..n] != USER
  {
    hide MakeKey;
    MadeFromParts(key[..n], key[n + 1..]);
    assert key == key[..n] + ":" + key[n + 1..];
    assert |key[n + 1..]| == |key| - n - 1;
    if key[..n] == USER { UserKey(Some(key[n + 1..])); }
  }

  lemma UserKey(projectPath: Option<string>)
    ensures MakeKey(USER, projectPath) == Returned(USER)
  {
  }

  /** A key is made again from its parts exactly when it is the user key, or names another scope and a project. */
  lemma ParsedKeyMakes(key: string)
    ensures MakeKey(ParseKey(key).0, ParseKey(key).1) == Returned(key)
       <==> key == USER || (FirstColon(key) + 1 < |key| && key[..FirstColon(key)] != USER)
  {
    hide FirstColon, MakeKey;
    var n := FirstColon(key);
    if key == USER {
      UserKey(None);
    } else if n < |key| {
      OtherKeyMakes(key, n);
    } else {
      NoProject(key);
    }
  }

  lemma NoProject(scope: string)
    ensures MakeKey(scope, None).Returned? <==> scope == USER
  {
  }

  /** Two scope and project pairs name one installation. */
  predicate SameInstallation(a: string, p: Option<string>, b: string, q: Option<string>) {
    a == b && (a == USER || p == q)
  }

  /** Different installations have different keys. */
  lemma KeysAreInjective(a: string, p: Option<string>, b: string, q: Option<string>)
    requires ':' !in a && ':' !in b
    requires MakeKey(a, p).Returned? && MakeKey(b, q).Returned?
    ensures MakeKey(a, p) == MakeKey(b, q) <==> SameInstallation(a, p, b, q)
  {
    hide MakeKey;
    KeyRoundTrip(a, p);
    KeyRoundTrip(b, q);
    hide ParseKey;
    if SameInstallation(a, p, b, q) { SameKey(a, p, q); }
  }

  lemma SameKey(a: string, p: Option<string>, q: Option<string>)
    requires a == USER || p == q
    ensures MakeKey(a, p) == MakeKey(a, q)
  {
  }

  // ----- the installation manifest

  datatype Tracked<I> = Tracked(projectPath: Option<string>, record: I)

  /** What a manifest file records for one installation. */
  function Recorded<I>(file: File<map<string, Tracked<I>>>, scope: string,
      projectPath: Option<string>): Attempt<Option<Tracked<I>>> {
    if MakeKey(scope, projectPath).Raised? || file.Corrupt? then Raised
    else Returned(Entry(ReadFile(file, map[]).value, MakeKey(scope, projectPath).value))
  }

  class TrackingStore<I> {
    var file: File<map<string, Tracked<I>>>

    method GetInstallation(scope: string, projectPath: Option<string>) returns (r: Attempt<Option<Tracked<I>>>)
      ensures r == Recorded(file, scope, projectPath)
      ensures r.Returned? && file.Missing? ==> r.value == None
    {
      var key := MakeKey(scope, projectPath);
      var manifest := ReadFile(file, map[]);
      if key.Raised? || manifest.Raised? {
        return Raised;
      }
      return Returned(if key.value in manifest.value then Some(manifest.value[key.value]) else None);
    }

    /** Recording one installation disturbs no other; a failure disturbs nothing. */
    method SetInstallation(granted: bool, scope: string, installation: I, projectPath: Option<string>)
        returns (ok: bool)
      requires ':' !in scope
      modifies this
      ensures ok <==> granted && !old(file).Corrupt? && MakeKey(scope, projectPath).Returned?
      ensures !ok ==> file == old(file)
      ensures ok ==> Recorded(file, scope, projectPath) == Returned(Some(Tracked(projectPath, installation)))
      ensures ok ==>
        file == Holds(AfterRecording(Record(scope, projectPath, installation), ReadFile(old(file), map[]).value))
      ensures forall b, q | ':' !in b && !SameInstallation(scope, projectPath, b, q) ::
        Recorded(file, b, q) == Recorded(old(file), b, q)
    {
      hide MakeKey;
      var key := MakeKey(scope, projectPath);
      if key.Raised? || !granted {
        return false;
      }
      var manifest := ReadFile(file, map[]);
      if manifest.Raised? {
        return false;
      }
      file := Holds(manifest.value[key.value := Tracked(projectPath, installation)]);
      forall b, q | ':' !in b && MakeKey(b, q).Returned?
        ensures MakeKey(scope, projectPath) == MakeKey(b, q) <==> SameInstallation(scope, projectPath, b, q)
      {
        KeysAreInjective(scope, projectPath, b, q);
      }
      return true;
    }

    /** Removing one installation disturbs no other, and tells whether it was there. */
    method RemoveInstallation(granted: bool, scope: string, projectPath: Option<string>) returns (r: Attempt<bool>)
      requires ':' !in scope
      modifies this
      ensures r.Returned? <==> granted && !old(file).Corrupt? && MakeKey(scope, projectPath).Returned?
      ensures r != Returned(true) ==> file == old(file)
      ensures r.Returned? ==>
        && r.value == Recorded(old(file), scope, projectPath).value.Some?
        && Recorded(file, scope, projectPath) == Returned(None)
        && ReadFile(file, map[]) ==
           Returned(AfterRecording(Recording<I>.Forget(scope, projectPath), ReadFile(old(file), map[]).value))
      ensures forall b, q | ':' !in b && !SameInstallation(scope, projectPath, b, q) ::
        Recorded(file, b, q) == Recorded(old(file), b, q)
    {
      hide MakeKey;
      var key := MakeKey(scope, projectPath);
      if key.Raised? || !granted {
        return Raised;
      }
      var manifest := ReadFile(file, map[]);
      if manifest.Raised? {
        return Raised;
      }
      if key.value !in manifest.value {
        assert manifest.value - {key.value} == manifest.value;
        return Returned(false);
      }
      file := Holds(manifest.value - {key.value});
      forall b, q | ':' !in b && MakeKey(b, q).Returned?
        ensures MakeKey(scope, projectPath) == MakeKey(b, q) <==> SameInstallation(scope, projectPath, b, q)
      {
        KeysAreInjective(scope, projectPath, b, q);
      }
      return Returned(true);
    }
  }

  // ----- the manifest under concurrent commands

  /** What one command does to the manifest while it holds the lock. */
  datatype Recording<I> =
    | Record(scope: string, projectPath: Option<string>, installation: I)
    | Forget(scope: string, projectPath: Option<string>)

  predicate HasKey<I>(op: Recording<I>) {
    ':' !in op.scope && MakeKey(op.scope, op.projectPath).Returned?
  }

  function AfterRecording<I>(op: Recording<I>, v: map<string, Tracked<I>>): map<string, Tracked<I>>
    requires HasKey(op)
  {
    var key := MakeKey(op.scope, op.projectPath).value;
    if op.Record? then v[key := Tracked(op.projectPath, op.installation)] else v - {key}
  }

  ghost predicate Does<I>(m: Completed<map<string, Tracked<I>>>, op: Recording<I>, v: map<string, Tracked<I>>) {
    HasKey(op) && m.mutate(v) == Returned(AfterRecording(op, v))
  }

  /** The last word spoken about one installation. */
  function LastWord<I>(ops: seq<Recording<I>>, scope: string, projectPath: Option<string>,
      before: Option<Tracked<I>>): Option<Tracked<I>> {
    if ops == [] then before else
    var op := ops[|ops| - 1];
    if !SameInstallation(scope, projectPath, op.scope, op.projectPath) then
      LastWord(ops[..|ops| - 1], scope, projectPath, before)
    else if op.Record? then Some(Tracked(op.projectPath, op.installation))
    else None
  }

  lemma {:induction false} FoldSaysLastWord<I(!new)>(
      v: map<string, Tracked<I>>, log: seq<Completed<map<string, Tracked<I>>>>, ops: seq<Recording<I>>,
      scope: string, projectPath: Option<string>)
    requires |log| == |ops| && forall k, u | 0 <= k < |log| :: Does(log[k], ops[k], u)
    requires ':' !in scope && MakeKey(scope, projectPath).Returned?
    ensures Entry(Fold(v, log), MakeKey(scope, projectPath).value)
         == LastWord(ops, scope, projectPath, Entry(v, MakeKey(scope, projectPath).value))
  {
    hide MakeKey;
    if log != [] {
      var n := |log| - 1;
      FoldSaysLastWord(v, log[..n], ops[..n], scope, projectPath);
      assert Does(log[n], ops[n], Fold(v, log[..n]));
      KeysAreInjective(scope, projectPath, ops[n].scope, ops[n].projectPath);
    }
  }

  /** Whatever the interleaving of recording and forgetting commands, an installation's record is the last one
      completed for it. */
  lemma LastRecordingWins<I(!new)>(
      file: File<map<string, Tracked<I>>>, steps: seq<Step<map<string, Tracked<I>>>>, ops: seq<Recording<I>>,
      scope: string, projectPath: Option<string>)
    requires !file.Corrupt? && ':' !in scope && MakeKey(scope, projectPath).Returned?
    requires var log := Run(Start(file, map[]), steps).log;
             |log| == |ops| && forall k, u | 0 <= k < |log| :: Does(log[k], ops[k], u)
    ensures Recorded(Run(Start(file, map[]), steps).file, scope, projectPath)
         == Returned(LastWord(ops, scope, projectPath, Recorded(file, scope, projectPath).value))
  {
    hide Run, MakeKey, Does;
    EveryRunIsSerial(file, map[], steps);
    FoldSaysLastWord(ReadFile(file, map[]).value, Run(Start(file, map[]), steps).log, ops, scope, projectPath);
  }
}
