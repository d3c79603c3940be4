/** Proxies that share a port, and who may stop the server behind it. */
module ProxyDelete {
  import opened Wrappers

  datatype Status = Healthy | Starting | Stopped | Other(text: Option<string>)

  datatype Proxy = Proxy(port: int, pid: Option<int>, status: Status)

  type Registry = map<string, Proxy>

  predicate Live(p: Proxy) { p.status.Healthy? || p.status.Starting? }

  /** The other proxies with a listener on the port. */
  function LiveOthers(r: Registry, id: string, port: int): set<string> {
    set k | k in r && k != id && r[k].port == port && Live(r[k])
  }

  function LiveOn(r: Registry, port: int): set<string> {
    set k | k in r && r[k].port == port && Live(r[k])
  }

  // ----- stopping

  /** The registry after a stop: the proxy, and everything on its port, is stopped. */
  function ClearedEntry(id: string, port: int, k: string, p: Proxy): Proxy {
    if k == id || (p.port == port && p.status != Stopped) then p.(pid := None, status := Stopped) else p
  }

  function Cleared(r: Registry, id: string, port: int): Registry {
    map k | k in r :: ClearedEntry(id, port, k, r[k])
  }

  /** After a stop nothing on the port counts as live: the proxy, and whatever was not stopped on its port, is stopped
      and has no pid. Nothing else is touched. */
  lemma StopLeavesNoneLive(r: Registry, id: string, port: int)
    requires id in r ==> r[id].port == port
    ensures LiveOn(Cleared(r, id, port), port) == {}
    ensures Cleared(r, id, port).Keys == r.Keys
    ensures forall k | k in r && (k == id || (r[k].port == port && r[k].status != Stopped)) ::
      Cleared(r, id, port)[k] == Proxy(r[k].port, None, Stopped)
    ensures forall k | k in r && (r[k].port != port || (k != id && r[k].status == Stopped)) ::
      Cleared(r, id, port)[k] == r[k]
    ensures Cleared(Cleared(r, id, port), id, port) == Cleared(r, id, port)
  {
    var c := Cleared(r, id, port);
    forall k | k in r ensures Cleared(c, id, port)[k] == c[k] {
      assert c[k] == ClearedEntry(id, port, k, r[k]);
    }
  }

  // ----- the registry as the commands change it, each under the lock

  class ProxyRegistry {
    var proxies: Registry

    /** The mutator of a stop; also says which other proxies it marked. */
    method ClearPid(id: string, port: int) returns (stoppedSiblings: set<string>)
      modifies this
      ensures proxies == Cleared(old(proxies), id, port)
      ensures forall k :: k in stoppedSiblings <==>
        k in old(proxies) && k != id && old(proxies)[k].port == port && old(proxies)[k].status != Stopped
    {
      ghost var reg := proxies;
      stoppedSiblings := {};
      if id in proxies {
        proxies := proxies[id := proxies[id].(pid := None, status := Stopped)];
      }
      var todo := proxies.Keys;
      while todo != {}
        invariant todo <= reg.Keys && proxies.Keys == reg.Keys
        invariant forall k | k in reg ::
          proxies[k] == if k in todo && k != id then reg[k] else ClearedEntry(id, port, k, reg[k])
        invariant forall k :: k in stoppedSiblings <==>
          k in reg && k !in todo && k != id && reg[k].port == port && reg[k].status != Stopped
      {
        var k :| k in todo;
        todo := todo - {k};
        if k != id && proxies[k].port == port && proxies[k].status != Stopped {
          proxies := proxies[k := proxies[k].(pid := None, status := Stopped)];
          stoppedSiblings := stoppedSiblings + {k};
        }
      }
    }

    /** The mutator of a delete: the entry goes, and nobody live may be left on its port for the server to be
        stopped. */
    method RemoveAndCheck(id: string, port: int) returns (shouldKill: bool, remainingAliases: set<string>)
      modifies this
      ensures proxies == old(proxies) - {id}
      ensures remainingAliases == LiveOn(proxies, port)
      ensures shouldKill <==>
        forall k | k in proxies && proxies[k].port == port :: proxies[k].status !in {Healthy, Starting}
    {
      proxies := proxies - {id};
      remainingAliases := LiveOthers(proxies, id, port);
      shouldKill := false;
      if remainingAliases == {} {
        shouldKill := true;
      }
      assert forall k :: k in remainingAliases <==> k in proxies && proxies[k].port == port && Live(proxies[k]);
    }

    /** Undoes a removal: nothing is overwritten, and an undisturbed registry comes back as it was. */
    method Restore(id: string, entry: Proxy)
      modifies this
      ensures proxies == if id in old(proxies) then old(proxies) else old(proxies)[id := entry]
      ensures forall r: Registry | id in r && r[id] == entry && old(proxies) == r - {id} :: proxies == r
    {
      if id !in proxies {
        proxies := proxies[id := entry];
      }
      assert forall r: Registry | id in r && r[id] == entry && old(proxies) == r - {id} ::
        old(proxies)[id := entry] == r;
    }
  }

  // ----- deleting, by any number of commands at once

  datatype Phase =
    | Fresh
    /** The user has been shown, and has confirmed, what the unlocked read found. */
    | Confirmed(found: Option<Proxy>)
    /** The locked removal has decided; `since` collects what others have put back after that. */
    | Removed(entry: Option<Proxy>, shouldKill: bool, since: set<string>)
    | DirGone(entry: Option<Proxy>, shouldKill: bool, since: set<string>)
    | DirStuck(entry: Option<Proxy>)
    | Deleted
    | Failed

  /** One attempt to stop a server, with the registry as it was then and what had been put back since the decision. */
  datatype Kill = Kill(deleter: nat, port: int, registry: Registry, since: set<string>)

  datatype System = System(
    registry: Registry,
    dirs: set<string>,
    targets: seq<string>,
    noKill: seq<bool>,
    phases: seq<Phase>,
    kills: seq<Kill>)
  {
    predicate Ok() { |targets| == |noKill| == |phases| }

    function At(i: nat, p: Phase): System
      requires i < |phases|
    {
      this.(phases := phases[i := p])
    }
  }

  datatype Step =
    | Look(i: nat)
    | Cancel(i: nat)
    | Remove(i: nat)
    | LockFails(i: nat)
    | RemoveDir(i: nat)
    | RemoveDirFails(i: nat)
    | Restore(i: nat)
    | RestoreFails(i: nat)
    | Finish(i: nat)

  function Target(s: System, i: nat): string
    requires s.Ok() && i < |s.phases|
  {
    s.targets[i]
  }

  /** A deleter waiting to act on its decision learns that an entry is back. */
  function Noted(p: Phase, id: string): Phase {
    if p.Removed? || p.DirGone? then p.(since := p.since + {id}) else p
  }

  function NotedAll(ps: seq<Phase>, id: string): (r: seq<Phase>)
    ensures |r| == |ps| && forall j | 0 <= j < |ps| :: r[j] == Noted(ps[j], id)
  {
    seq(|ps|, j requires 0 <= j < |ps| => Noted(ps[j], id))
  }

  /** The entry goes back in, unless one of that name is there again. */
  function PutBack(s: System, id: string, p: Proxy): System {
    if id in s.registry then s
    else s.(registry := s.registry[id := p], phases := NotedAll(s.phases, id))
  }

  /** One step of one deleter; a step that is not enabled changes nothing. */
  function Apply(s: System, step: Step): (r: System)
    requires s.Ok()
    ensures r.Ok() && r.targets == s.targets && r.noKill == s.noKill
  {
    if step.i >= |s.phases| then s else
    var i, id, phase := step.i, Target(s, step.i), s.phases[step.i];
    match step
    case Look(_) =>
      if !phase.Fresh? then s
      else if id in s.registry then s.At(i, Confirmed(Some(s.registry[id])))
      else s.At(i, if id in s.dirs then Confirmed(None) else Failed)
    case Cancel(_) => if phase.Confirmed? then s.At(i, Failed) else s
    case Remove(_) =>
      if !phase.Confirmed? then s
      else if phase.found.None? then s.At(i, Removed(None, false, {}))
      else
        var left := s.registry - {id};
        s.At(i, Removed(phase.found, LiveOthers(left, id, phase.found.value.port) == {}, {})).(registry := left)
    case LockFails(_) => if phase.Confirmed? && phase.found.Some? then s.At(i, Failed) else s
    case RemoveDir(_) =>
      if phase.Removed? then s.At(i, DirGone(phase.entry, phase.shouldKill, phase.since)).(dirs := s.dirs - {id}) else s
    case RemoveDirFails(_) =>
      if phase.Removed? && id in s.dirs then s.At(i, DirStuck(phase.entry)) else s
    case Restore(_) =>
      if !phase.DirStuck? then s
      else
        var r := if phase.entry.Some? then PutBack(s, id, phase.entry.value) else s;
        r.At(i, Failed)
    case RestoreFails(_) => if phase.DirStuck? && phase.entry.Some? then s.At(i, Failed) else s
    case Finish(_) =>
      if !phase.DirGone? then s
      else if phase.entry.Some? && phase.shouldKill && !s.noKill[i]
      then s.At(i, Deleted).(kills := s.kills + [Kill(i, phase.entry.value.port, s.registry, phase.since)])
      else s.At(i, Deleted)
  }

  function Run(s: System, steps: seq<Step>): (r: System)
    requires s.Ok()
    ensures r.Ok() && r.targets == s.targets && r.noKill == s.noKill
  {
    if steps == [] then s else Apply(Run(s, steps[..|steps| - 1]), steps[|steps| - 1])
  }

  predicate AtStart(s: System) {
    s.Ok() && s.kills == [] && forall p | p in s.phases :: p == Fresh
  }

  predicate Decided(p: Phase) { (p.Removed? || p.DirGone?) && p.entry.Some? && p.shouldKill }

  // ----- safety

  /** Whoever means to stop a server knows every live proxy on its port as one put back after the decision. */
  predicate DecisionsHold(s: System) {
    && (forall p | p in s.phases && Decided(p) :: LiveOn(s.registry, p.entry.value.port) <= p.since)
    && (forall k | k in s.kills :: LiveOn(k.registry, k.port) <= k.since)
  }

  lemma ShrinkingKeepsDecisions(s: System, r: System)
    requires DecisionsHold(s) && r.kills == s.kills
    requires forall k | k in r.registry :: k in s.registry && r.registry[k] == s.registry[k]
    requires forall p | p in r.phases && Decided(p) ::
      (exists q :: q in s.phases && Decided(q) && q.entry == p.entry && q.since == p.since)
        || LiveOn(r.registry, p.entry.value.port) == {}
    ensures DecisionsHold(r)
  {
    forall port ensures LiveOn(r.registry, port) <= LiveOn(s.registry, port) {}
  }

  lemma RemoveDecides(r: Registry, id: string, port: int)
    ensures LiveOthers(r - {id}, id, port) == LiveOn(r - {id}, port)
  {
  }

  lemma PutBackKeepsDecisions(s: System, id: string, p: Proxy)
    requires s.Ok() && DecisionsHold(s)
    ensures DecisionsHold(PutBack(s, id, p)) && PutBack(s, id, p).Ok()
  {
    var r := PutBack(s, id, p);
    if id !in s.registry {
      forall j | 0 <= j < |r.phases| && Decided(r.phases[j])
        ensures LiveOn(r.registry, r.phases[j].entry.value.port) <= r.phases[j].since
      {
        assert r.phases[j] == Noted(s.phases[j], id) && s.phases[j] in s.phases && Decided(s.phases[j]);
        var port := r.phases[j].entry.value.port;
        assert LiveOn(r.registry, port) <= LiveOn(s.registry, port) + {id};
      }
    }
  }

  lemma StepKeepsDecisions(s: System, step: Step)
    requires s.Ok() && DecisionsHold(s)
    ensures DecisionsHold(Apply(s, step))
  {
    hide LiveOn, LiveOthers;
    var r := Apply(s, step);
    if step.i < |s.phases| {
      var i, phase := step.i, s.phases[step.i];
      assert phase in s.phases;
      if step.Restore? && phase.DirStuck? {
        if phase.entry.Some? {
          PutBackKeepsDecisions(s, s.targets[i], phase.entry.value);
        }
      } else if step.Remove? && phase.Confirmed? && phase.found.Some? {
        RemoveDecides(s.registry, s.targets[i], phase.found.value.port);
        ShrinkingKeepsDecisions(s, r);
      }
    }
  }

  lemma {:induction false} RunKeepsDecisions(s: System, steps: seq<Step>)
    requires AtStart(s)
    ensures DecisionsHold(Run(s, steps))
  {
    hide DecisionsHold, Apply;
    if steps == [] {
      NothingDecided(s);
    } else {
      RunKeepsDecisions(s, steps[..|steps| - 1]);
      StepKeepsDecisions(Run(s, steps[..|steps| - 1]), steps[|steps| - 1]);
    }
  }

  lemma NothingDecided(s: System)
    requires AtStart(s)
    ensures DecisionsHold(s)
  {
  }

  /** A healthy or starting proxy is registered on the port of the server at the stop. */
  predicate HitsProxy(k: Kill, id: string) {
    id in k.registry && k.registry[id].port == k.port && k.registry[id].status in {Healthy, Starting}
  }

  /** One that was put back after the decision to stop it. */
  predicate HitsPutBack(k: Kill) {
    exists id | id in k.since :: HitsProxy(k, id)
  }

  /** In every interleaving, a server is stopped under a live proxy of its port exactly when one was put back after the
      decision and is there at the stop. */
  lemma KillsSpareTheLive(s: System, steps: seq<Step>)
    requires AtStart(s)
    ensures forall k | k in Run(s, steps).kills ::
      && (forall id | HitsProxy(k, id) :: id in k.since)
      && ((exists id :: HitsProxy(k, id)) <==> HitsPutBack(k))
  {
    hide Run;
    RunKeepsDecisions(s, steps);
    forall k, id | k in Run(s, steps).kills ensures HitsProxy(k, id) <==> id in LiveOn(k.registry, k.port) {
      HitsTheLive(k, id);
    }
  }

  lemma HitsTheLive(k: Kill, id: string)
    ensures HitsProxy(k, id) <==> id in LiveOn(k.registry, k.port)
  {
  }

  predicate NothingPutBack(s: System) {
    && (forall p | p in s.phases :: !p.DirStuck? && ((p.Removed? || p.DirGone?) ==> p.since == {}))
    && (forall k | k in s.kills :: k.since == {})
  }

  lemma {:induction false} DirsGoSmoothly(s: System, steps: seq<Step>)
    requires AtStart(s) && forall t | t in steps :: !t.RemoveDirFails?
    ensures NothingPutBack(Run(s, steps))
  {
    if steps != [] {
      var before := steps[..|steps| - 1];
      DirsGoSmoothly(s, before);
      SmoothStep(Run(s, before), steps[|steps| - 1]);
    }
  }

  lemma SmoothStep(s: System, step: Step)
    requires s.Ok() && NothingPutBack(s) && !step.RemoveDirFails?
    ensures NothingPutBack(Apply(s, step))
  {
    if step.i < |s.phases| {
      assert s.phases[step.i] in s.phases;
    }
  }

  /** While no directory removal fails, a server is stopped only when no healthy or starting proxy of its port is
      registered. */
  lemma KillOnlyTheLast(s: System, steps: seq<Step>)
    requires AtStart(s) && forall t | t in steps :: !t.RemoveDirFails?
    ensures forall k, id | k in Run(s, steps).kills :: !HitsProxy(k, id)
  {
    hide Run, HitsProxy;
    KillsSpareTheLive(s, steps);
    DirsGoSmoothly(s, steps);
  }

  lemma {:induction false} RunConcat(s: System, a: seq<Step>, b: seq<Step>)
    requires s.Ok()
    ensures Run(s, a + b) == Run(Run(s, a), b)
  {
    hide Apply;
    if b == [] {
      assert a + b == a;
    } else {
      var n := |b| - 1;
      RunConcat(s, a, b[..n]);
      assert (a + b)[..|a| + n] == a + b[..n] && (a + b)[|a| + n] == b[n];
    }
  }

  lemma TwoSteps(s: System, t: Step, u: Step)
    requires s.Ok()
    ensures Run(s, [t, u]) == Apply(Apply(s, t), u)
  {
    hide Apply;
    assert [t, u][..1] == [t] && [t][..0] == [];
    assert Run(s, [t]) == Apply(s, t);
  }

  /** Two proxies of one port and their deleters, in the given phases. */
  function Pair(a: string, b: string, r: Registry, dirs: set<string>, x: Phase, y: Phase, kills: seq<Kill>): System {
    System(r, dirs, [a, b], [false, false], [x, y], kills)
  }

  lemma BothLook(a: string, b: string, p: Proxy, r: Registry)
    requires r == map[a := p, b := p]
    ensures Run(Pair(a, b, r, {a, b}, Fresh, Fresh, []), [Look(0), Look(1)])
      == Pair(a, b, r, {a, b}, Confirmed(Some(p)), Confirmed(Some(p)), [])
  {
    TwoSteps(Pair(a, b, r, {a, b}, Fresh, Fresh, []), Look(0), Look(1));
  }

  lemma BothRemove(a: string, b: string, p: Proxy, r: Registry)
    requires r == map[a := p, b := p] && a != b && Live(p)
    ensures Run(Pair(a, b, r, {a, b}, Confirmed(Some(p)), Confirmed(Some(p)), []), [Remove(0), Remove(1)])
         == Pair(a, b, map[], {a, b}, Removed(Some(p), false, {}), Removed(Some(p), true, {}), [])
  {
    TwoSteps(Pair(a, b, r, {a, b}, Confirmed(Some(p)), Confirmed(Some(p)), []), Remove(0), Remove(1));
    assert b in LiveOthers(r - {a}, a, p.port);
    assert r - {a} - {b} == map[] && LiveOthers(map[], b, p.port) == {};
  }

  lemma OneSticks(a: string, b: string, p: Proxy)
    requires a != b
    ensures Run(Pair(a, b, map[], {a, b}, Removed(Some(p), false, {}), Removed(Some(p), true, {}), []),
      [RemoveDir(1), RemoveDirFails(0)])
         == Pair(a, b, map[], {a, b} - {b}, DirStuck(Some(p)), DirGone(Some(p), true, {}), [])
  {
    var s := Pair(a, b, map[], {a, b}, Removed(Some(p), false, {}), Removed(Some(p), true, {}), []);
    TwoSteps(s, RemoveDir(1), RemoveDirFails(0));
  }

  lemma BackAndKilled(a: string, b: string, p: Proxy, dirs: set<string>)
    ensures Run(Pair(a, b, map[], dirs, DirStuck(Some(p)), DirGone(Some(p), true, {}), []), [Restore(0), Finish(1)])
         == Pair(a, b, map[a := p], dirs, Failed, Deleted, [Kill(1, p.port, map[a := p], {a})])
  {
    var s := Pair(a, b, map[], dirs, DirStuck(Some(p)), DirGone(Some(p), true, {}), []);
    TwoSteps(s, Restore(0), Finish(1));
    var none: set<string> := {};
    assert none + {a} == {a};
    assert NotedAll(s.phases, a) == [DirStuck(Some(p)), DirGone(Some(p), true, {a})];
    assert Apply(s, Restore(0)) == Pair(a, b, map[a := p], dirs, Failed, DirGone(Some(p), true, {a}), []);
  }

  /** Two proxies on one port, both deleted at once, one with a directory that will not go: the server dies under a
      live proxy. */
  lemma FailedRemovalRacesKill(a: string, b: string, p: Proxy)
    requires a != b && Live(p)
    ensures var s := Pair(a, b, map[a := p, b := p], {a, b}, Fresh, Fresh, []);
            var first, last := [Look(0), Look(1)] + [Remove(0), Remove(1)], [Restore(0), Finish(1)];
            var r := Run(s, first + [RemoveDir(1), RemoveDirFails(0)] + last);
            AtStart(s) && |r.kills| == 1 && a in LiveOn(r.kills[0].registry, r.kills[0].port)
  {
    var r: Registry := map[a := p, b := p];
    var s := Pair(a, b, r, {a, b}, Fresh, Fresh, []);
    assert AtStart(s);
    BothLook(a, b, p, r);
    BothRemove(a, b, p, r);
    OneSticks(a, b, p);
    BackAndKilled(a, b, p, {a, b} - {b});
    hide Run;
    var t1, t2 := [Look(0), Look(1)], [Remove(0), Remove(1)];
    var t3, t4 := [RemoveDir(1), RemoveDirFails(0)], [Restore(0), Finish(1)];
    RunConcat(s, t1, t2);
    RunConcat(s, t1 + t2, t3);
    RunConcat(s, t1 + t2 + t3, t4);
  }

  // ----- the last reference does stop the server

  /** The port has been left by a deleter that means to stop, or did stop, its server. */
  predicate SomeoneStops(s: System, port: int) {
    || (exists i :: 0 <= i < |s.phases| && Decided(s.phases[i]) && s.phases[i].entry.value.port == port)
    || (exists k :: k in s.kills && k.port == port)
  }

  /** What a deleter found is still what was registered at first. */
  predicate FoundIsTrue(r0: Registry, s: System) {
    && (forall k | k in s.registry :: k in r0 && r0[k] == s.registry[k])
    && (forall i | 0 <= i < |s.phases| && s.phases[i].Confirmed? && s.phases[i].found.Some? ::
          s.Ok() && s.targets[i] in r0 && r0[s.targets[i]] == s.phases[i].found.value)
  }

  predicate StopInv(r0: Registry, s: System, port: int) {
    && s.Ok()
    && NothingPutBack(s)
    && (forall b | b in s.noKill :: !b)
    && FoundIsTrue(r0, s)
    && (LiveOn(s.registry, port) == {} ==> SomeoneStops(s, port))
  }

  lemma StillSomeone(s: System, r: System, step: Step, port: int)
    requires s.Ok() && SomeoneStops(s, port) && r == Apply(s, step) && !step.RemoveDirFails?
    requires forall b | b in s.noKill :: !b
    ensures SomeoneStops(r, port)
  {
    hide LiveOn, LiveOthers;
    if k :| k in s.kills && k.port == port {
      assert k in r.kills;
    } else {
      var i :| 0 <= i < |s.phases| && Decided(s.phases[i]) && s.phases[i].entry.value.port == port;
      StopperAdvances(s, step, i, port);
    }
  }

  lemma StopperAdvances(s: System, step: Step, i: nat, port: int)
    requires s.Ok() && i < |s.phases| && Decided(s.phases[i]) && s.phases[i].entry.value.port == port
    requires (forall b | b in s.noKill :: !b) && !step.RemoveDirFails?
    ensures SomeoneStops(Apply(s, step), port)
  {
    hide LiveOn, LiveOthers;
    var r := Apply(s, step);
    if step.Finish? && step.i == i && s.phases[i].DirGone? {
      assert s.noKill[i] in s.noKill;
      assert r.kills[|s.kills|] in r.kills && r.kills[|s.kills|].port == port;
    } else {
      assert Decided(r.phases[i]) && r.phases[i].entry.value.port == port;
    }
  }

  lemma StopStep(r0: Registry, s: System, step: Step, port: int)
    requires StopInv(r0, s, port) && !step.RemoveDirFails?
    ensures StopInv(r0, Apply(s, step), port)
  {
    hide LiveOn, LiveOthers;
    var r := Apply(s, step);
    SmoothStep(s, step);
    if LiveOn(s.registry, port) == {} {
      StillSomeone(s, r, step, port);
    } else if step.i < |s.phases| && step.Remove? && s.phases[step.i].Confirmed? && s.phases[step.i].found.Some?
      && LiveOn(r.registry, port) == {} {
      RemovalDecides(r0, s, step.i, port);
    }
    FoundStep(r0, s, step);
  }

  lemma FoundStep(r0: Registry, s: System, step: Step)
    requires s.Ok() && FoundIsTrue(r0, s) && NothingPutBack(s)
    ensures FoundIsTrue(r0, Apply(s, step))
  {
    hide LiveOn, LiveOthers;
    if step.i < |s.phases| {
      assert s.phases[step.i] in s.phases;
    }
  }

  /** Taking the last live proxy off the port makes its deleter the one to stop the server. */
  lemma RemovalDecides(r0: Registry, s: System, i: nat, port: int)
    requires s.Ok() && i < |s.phases| && s.phases[i].Confirmed? && s.phases[i].found.Some?
    requires FoundIsTrue(r0, s) && LiveOn(s.registry, port) != {}
    requires LiveOn(Apply(s, Remove(i)).registry, port) == {}
    ensures SomeoneStops(Apply(s, Remove(i)), port)
  {
    var id, found := s.targets[i], s.phases[i].found.value;
    var k :| k in LiveOn(s.registry, port);
    assert k !in LiveOn(s.registry - {id}, port);
    assert k == id;
    RemoveDecides(s.registry, id, port);
    assert Decided(Apply(s, Remove(i)).phases[i]);
  }

  lemma {:induction false} RunStops(s: System, steps: seq<Step>, port: int)
    requires AtStart(s) && LiveOn(s.registry, port) != {}
    requires (forall t | t in steps :: !t.RemoveDirFails?) && (forall b | b in s.noKill :: !b)
    ensures StopInv(s.registry, Run(s, steps), port)
  {
    hide LiveOn;
    if steps == [] {
      assert forall i | 0 <= i < |s.phases| :: s.phases[i] in s.phases;
    } else {
      hide Apply, StopInv;
      RunStops(s, steps[..|steps| - 1], port);
      StopStep(s.registry, Run(s, steps[..|steps| - 1]), steps[|steps| - 1], port);
    }
  }

  predicate Settled(p: Phase) { p.Fresh? || p.Confirmed? || p.Deleted? || p.Failed? }

  /** Once the live proxies of a port are all gone and no deleter is half-way, the server has been stopped. */
  lemma LastOneStops(s: System, steps: seq<Step>, port: int)
    requires AtStart(s) && LiveOn(s.registry, port) != {}
    requires (forall t | t in steps :: !t.RemoveDirFails?) && (forall b | b in s.noKill :: !b)
    requires LiveOn(Run(s, steps).registry, port) == {}
    requires forall p | p in Run(s, steps).phases :: Settled(p)
    ensures exists k :: k in Run(s, steps).kills && k.port == port
  {
    hide Run, LiveOn;
    RunStops(s, steps, port);
    var r := Run(s, steps);
    forall i | 0 <= i < |r.phases| ensures !Decided(r.phases[i]) {
      assert r.phases[i] in r.phases;
    }
  }

  /** A lone deleter whose directory will not go leaves the registry as it was and stops nothing. */
  lemma FailedDeleteChangesNothing(s: System, i: nat)
    requires s.Ok() && i < |s.phases| && s.phases[i].Fresh? && s.targets[i] in s.dirs
    ensures var r := Run(s, [Look(i), Remove(i), RemoveDirFails(i), Restore(i)]);
            r.registry == s.registry && r.dirs == s.dirs && r.kills == s.kills && r.phases[i] == Failed
  {
    hide LiveOthers, Run;
    FourSteps(s, Look(i), Remove(i), RemoveDirFails(i), Restore(i));
    var id := s.targets[i];
    if id in s.registry {
      FailedDeleteSteps(s, i, s.registry[id]);
    }
  }

  lemma FourSteps(s: System, a: Step, b: Step, c: Step, d: Step)
    requires s.Ok()
    ensures Run(s, [a, b, c, d]) == Apply(Apply(Apply(Apply(s, a), b), c), d)
  {
    hide Apply, Run;
    TwoSteps(s, a, b);
    TwoSteps(Run(s, [a, b]), c, d);
    assert [a, b] + [c, d] == [a, b, c, d];
    RunConcat(s, [a, b], [c, d]);
  }

  lemma FailedDeleteSteps(s: System, i: nat, p: Proxy)
    requires s.Ok() && i < |s.phases| && s.phases[i].Fresh? && s.targets[i] in s.dirs
    requires s.targets[i] in s.registry && s.registry[s.targets[i]] == p
    ensures var r := Apply(Apply(Apply(Apply(s, Look(i)), Remove(i)), RemoveDirFails(i)), Restore(i));
            r.registry == s.registry && r.dirs == s.dirs && r.kills == s.kills && r.phases[i] == Failed
  {
    hide LiveOthers;
    var id := s.targets[i];
    var s3 := Apply(Apply(Apply(s, Look(i)), Remove(i)), RemoveDirFails(i));
    assert s3.phases[i] == DirStuck(Some(p)) && s3.registry == s.registry - {id} && s3.dirs == s.dirs
      && s3.kills == s.kills;
    assert (s.registry - {id})[id := p] == s.registry;
  }
}
