/** Many short-lived hook processes against one long-lived engine, and the laws of composition. */
module PolicyRuns {
  import opened Attempts
  import opened Wrappers
  import opened Json
  import opened PolicyModel
  import opened PolicyEngine

  // ----- one hook process: a fresh engine, restored, asked once, and persisted

  function RestoredStates<C, S>(ps: seq<Policy<C, S>>, persisted: Option<map<string, Dict>>): (r: seq<S>)
    ensures |r| == |ps| && forall i | 0 <= i < |ps| :: r[i] == RestoredState(ps[i], ps[i].initial, persisted)
  {
    seq(|ps|, i requires 0 <= i < |ps| => RestoredState(ps[i], ps[i].initial, persisted))
  }

  function Persisted(manifest: Option<PolicyState>): Option<map<string, Dict>> {
    if manifest.Some? then Some(manifest.value.policyStates) else None
  }

  function HookDecision<C, S>(ps: seq<Policy<C, S>>, closed: bool, manifest: Option<PolicyState>,
      c: C): CompositeDecision {
    Composed(AllDecisions(ps, RestoredStates(ps, Persisted(manifest)), c, closed))
  }

  function HookState<C, S>(ps: seq<Policy<C, S>>, closed: bool, manifest: Option<PolicyState>, c: C): PolicyState {
    StateUpdate(HookDecision(ps, closed, manifest, c), Collected(ps, RestoredStates(ps, Persisted(manifest)), c),
      manifest)
  }

  method Hook<C, S>(policies: seq<Policy<C, S>>, closed: bool, manifest: Option<PolicyState>, c: C)
    returns (result: CompositeDecision, updated: PolicyState)
    ensures result == HookDecision(policies, closed, manifest, c)
    ensures updated == HookState(policies, closed, manifest, c)
  {
    hide Composed, AllDecisions, Collected, StateUpdate, LogGrew, StatesRenewed;
    var engine := new Engine(policies, closed);
    engine.RestoreState(Persisted(manifest));
    assert engine.states == RestoredStates(policies, Persisted(manifest));
    ghost var ss := engine.states;
    result := engine.Evaluate(c);
    assert engine.collected == Collected(policies, ss, c);
    updated := BuildPolicyStateUpdate(result, engine.collected, manifest);
    UpdateIsDetermined(result, engine.collected, manifest, updated);
  }

  // ----- runs

  /** The decisions of a run of hooks, oldest first. */
  function HookDecisions<C, S>(ps: seq<Policy<C, S>>, closed: bool, cs: seq<C>): (r: seq<CompositeDecision>)
    ensures |r| == |cs|
  {
    if cs == [] then [] else
    var n := |cs| - 1;
    HookDecisions(ps, closed, cs[..n]) + [HookDecision(ps, closed, Manifest(ps, closed, cs[..n]), cs[n])]
  }

  /** The manifest's policy section after a run of hooks. */
  function Manifest<C, S>(ps: seq<Policy<C, S>>, closed: bool, cs: seq<C>): Option<PolicyState> {
    if cs == [] then None else
    var n := |cs| - 1;
    Some(HookState(ps, closed, Manifest(ps, closed, cs[..n]), cs[n]))
  }

  /** The policy objects of one engine that lives through the whole run. */
  function LongStates<C, S>(ps: seq<Policy<C, S>>, cs: seq<C>): (r: seq<S>)
    ensures |r| == |ps|
  {
    if cs == [] then InitialStates(ps) else
    var n := |cs| - 1;
    NextStates(ps, LongStates(ps, cs[..n]), cs[n])
  }

  function LongDecisions<C, S>(ps: seq<Policy<C, S>>, closed: bool, cs: seq<C>): (r: seq<CompositeDecision>)
    ensures |r| == |cs|
  {
    if cs == [] then [] else
    var n := |cs| - 1;
    LongDecisions(ps, closed, cs[..n]) + [Composed(AllDecisions(ps, LongStates(ps, cs[..n]), cs[n], closed))]
  }

  function LongCollected<C, S>(ps: seq<Policy<C, S>>, cs: seq<C>): map<string, Dict> {
    if cs == [] then map[] else
    var n := |cs| - 1;
    LongCollected(ps, cs[..n]) + Collected(ps, LongStates(ps, cs[..n]), cs[n])
  }

  /** One engine, kept alive and asked once per action, does what the Long functions say. */
  method LongLived<C, S>(policies: seq<Policy<C, S>>, closed: bool, cs: seq<C>)
    returns (decisions: seq<CompositeDecision>, states: seq<S>, collected: map<string, Dict>)
    ensures decisions == LongDecisions(policies, closed, cs)
    ensures states == LongStates(policies, cs) && collected == LongCollected(policies, cs)
  {
    hide Composed, AllDecisions, Collected, NextStates;
    var engine := new Engine(policies, closed);
    decisions := [];
    for k := 0 to |cs|
      invariant engine.Valid() && fresh(engine) && engine.policies == policies && engine.closed == closed
      invariant decisions == LongDecisions(policies, closed, cs[..k])
      invariant engine.states == LongStates(policies, cs[..k]) && engine.collected == LongCollected(policies, cs[..k])
    {
      assert cs[..k + 1][..k] == cs[..k];
      var r := engine.Evaluate(cs[k]);
      decisions := decisions + [r];
    }
    assert cs[..|cs|] == cs;
    return decisions, engine.states, engine.collected;
  }

  // ----- the two agree

  ghost predicate UndoesGet<C, S(!new)>(p: Policy<C, S>) {
    forall s :: p.setState(p.getState(s)) == s
  }

  ghost predicate KeepsNoMemory<C(!new), S(!new)>(p: Policy<C, S>) {
    forall s, c :: NextState(p, s, c) == s
  }

  predicate DistinctIds<C, S>(ps: seq<Policy<C, S>>) {
    forall i, j | 0 <= i < j < |ps| && ps[i].stateful && ps[j].stateful :: ps[i].id != ps[j].id
  }

  /** What a set of policies promises: stateful ones can be saved under their own name, the others have nothing to
      save. */
  ghost predicate Restorable<C(!new), S(!new)>(ps: seq<Policy<C, S>>) {
    && DistinctIds(ps)
    && (forall p | p in ps && p.stateful :: UndoesGet(p))
    && (forall p | p in ps && !p.stateful :: KeepsNoMemory(p))
  }

  predicate Collects<C, S>(p: Policy<C, S>, s: S, c: C) { p.stateful && Runs(p, s, c) }

  /** An id is collected only for a stateful policy of that id that ran. */
  lemma {:induction false} CollectedFrom<C, S>(ps: seq<Policy<C, S>>, ss: seq<S>, c: C, id: string) returns (i: nat)
    requires |ps| == |ss| && id in Collected(ps, ss, c)
    ensures i < |ps| && ps[i].id == id && Collects(ps[i], ss[i], c)
  {
    hide Runs, NextState;
    i := |ps| - 1;
    if !(ps[i].id == id && Collects(ps[i], ss[i], c)) {
      i := CollectedFrom(ps[..i], ss[..i], c, id);
    }
  }

  /** With distinct ids, what a stateful policy that ran left is what is collected under its id. */
  lemma {:induction false} CollectedAt<C, S>(ps: seq<Policy<C, S>>, ss: seq<S>, c: C, i: nat)
    requires |ps| == |ss| && DistinctIds(ps) && i < |ps| && Collects(ps[i], ss[i], c)
    ensures ps[i].id in Collected(ps, ss, c)
    ensures Collected(ps, ss, c)[ps[i].id] == ps[i].getState(NextState(ps[i], ss[i], c))
  {
    hide Runs, NextState;
    var n := |ps| - 1;
    if i < n {
      assert ps[i].stateful && (ps[n].stateful ==> ps[i].id != ps[n].id);
      CollectedAt(ps[..n], ss[..n], c, i);
    }
  }

  /** The collected states are exactly those of the stateful policies that ran. */
  lemma CollectedOf<C, S>(ps: seq<Policy<C, S>>, ss: seq<S>, c: C, i: nat)
    requires |ps| == |ss| && DistinctIds(ps) && i < |ps| && ps[i].stateful
    ensures ps[i].id in Collected(ps, ss, c) <==> Runs(ps[i], ss[i], c)
    ensures Runs(ps[i], ss[i], c) ==> Collected(ps, ss, c)[ps[i].id] == ps[i].getState(NextState(ps[i], ss[i], c))
  {
    hide Runs, NextState, Collected;
    if Runs(ps[i], ss[i], c) {
      CollectedAt(ps, ss, c, i);
    } else if ps[i].id in Collected(ps, ss, c) {
      var j := CollectedFrom(ps, ss, c, ps[i].id);
      assert false;
    }
  }

  /** Persisting after an action and restoring later gives the states the action left. */
  lemma RestoreAfterPersist<C(!new), S(!new)>(ps: seq<Policy<C, S>>, persisted: Option<map<string, Dict>>, ss: seq<S>,
      c: C)
    requires Restorable(ps) && ss == RestoredStates(ps, persisted)
    ensures RestoredStates(ps, Some((if persisted.Some? then persisted.value else map[]) + Collected(ps, ss, c)))
      == NextStates(ps, ss, c)
  {
    hide Collected, Runs, DistinctIds;
    var merged := (if persisted.Some? then persisted.value else map[]) + Collected(ps, ss, c);
    forall i | 0 <= i < |ps| ensures RestoredState(ps[i], ps[i].initial, Some(merged)) == NextState(ps[i], ss[i], c) {
      var p := ps[i];
      if !p.stateful {
        assert KeepsNoMemory(p);
      } else {
        CollectedOf(ps, ss, c, i);
        assert UndoesGet(p);
        assert !Runs(p, ss[i], c) ==> NextState(p, ss[i], c) == ss[i];
      }
    }
  }

  /** A run of short-lived hooks decides what one long-lived engine decides, and would restore the states it holds. */
  lemma {:induction false} HooksAreOneEngine<C(!new), S(!new)>(ps: seq<Policy<C, S>>, closed: bool, cs: seq<C>)
    requires Restorable(ps)
    ensures HookDecisions(ps, closed, cs) == LongDecisions(ps, closed, cs)
    ensures RestoredStates(ps, Persisted(Manifest(ps, closed, cs))) == LongStates(ps, cs)
    ensures cs != [] ==> Manifest(ps, closed, cs).value.policyStates == LongCollected(ps, cs)
  {
    if cs == [] {
    } else {
      hide Restorable, Composed, AllDecisions, Collected, NextStates, LastOf;
      var n := |cs| - 1;
      HooksAreOneEngine(ps, closed, cs[..n]);
      var m := Manifest(ps, closed, cs[..n]);
      var ss := RestoredStates(ps, Persisted(m));
      RestoreAfterPersist(ps, Persisted(m), ss, cs[n]);
    }
  }

  lemma LastOfSnoc<T>(xs: seq<T>, x: T, n: nat)
    requires n > 0
    ensures LastOf(LastOf(xs, n) + [x], n) == LastOf(xs + [x], n)
  {
  }

  /** The persisted log is the last hundred decisions, in the order they were made. */
  lemma {:induction false} LogIsRecentDecisions<C, S>(ps: seq<Policy<C, S>>, closed: bool, cs: seq<C>)
    ensures Existing(Manifest(ps, closed, cs)).decisions == LastOf(HookDecisions(ps, closed, cs), MAX_DECISION_LOG)
    ensures |Existing(Manifest(ps, closed, cs)).decisions| == if |cs| < 100 then |cs| else 100
  {
    if cs != [] {
      hide HookDecision, Collected;
      var n := |cs| - 1;
      LogIsRecentDecisions(ps, closed, cs[..n]);
      LastOfSnoc(HookDecisions(ps, closed, cs[..n]), HookDecision(ps, closed, Manifest(ps, closed, cs[..n]), cs[n]),
        MAX_DECISION_LOG);
    }
  }

  /** A policy that allows its first call and denies the rest, and does not apply to one kind of action. */
  function OnceOnly(id: string, ignored: int): Policy<int, bool> {
    Policy(id, true, false,
           (s, c) => Returned(c != ignored),
           (s, c) => Returned((PolicyDecision(if s then Deny else Allow, id, [], []), true)),
           s => if s then map[id := Null] else map[],
           d => id in d)
  }

  lemma OnceOnlyWorks(id: string, ignored: int, s: bool, c: int)
    ensures var p := OnceOnly(id, ignored);
            && UndoesGet(p) && p.stateful && p.id == id && p.initial == false
            && (Runs(p, s, c) <==> c != ignored)
            && NextState(p, s, c) == (s || c != ignored)
            && DecisionsOf(p, s, c, false)
            == if c != ignored then [PolicyDecision(if s then Deny else Allow, id, [], [])] else []
  {
  }

  /** The twins after the first action: one has used its call, and the shared entry says so. */
  lemma AfterFirst(id: string)
    ensures var ps := [OnceOnly(id, 2), OnceOnly(id, 1)];
            && LongStates(ps, [1]) == [true, false]
            && RestoredStates(ps, Persisted(Manifest(ps, false, [1]))) == [true, true]
  {
    hide OnceOnly, Runs, NextState, DecisionsOf, Composed, UndoesGet;
    var p, q := OnceOnly(id, 2), OnceOnly(id, 1);
    var ps := [p, q];
    OnceOnlyWorks(id, 2, false, 1);
    OnceOnlyWorks(id, 1, false, 1);
    assert [1][..0] == [];
    var s0 := RestoredStates(ps, None);
    assert s0 == InitialStates(ps) == [false, false];
    assert ps[..1] == [p] && s0[..1] == [false] && [p][..0] == [];
    assert Manifest(ps, false, []).None?;
    var kept := p.getState(true);
    assert Collected([p], [false], 1) == map[id := kept];
    assert Collected(ps, s0, 1) == map[id := kept];
    assert Manifest(ps, false, [1]).value.policyStates == map[id := kept];
    assert UndoesGet(p) && p.setState(kept) && q.setState(kept) by { TwinStates(id); }
  }

  lemma TwinStates(id: string)
    ensures var p, q := OnceOnly(id, 2), OnceOnly(id, 1);
            UndoesGet(p) && p.setState(p.getState(true)) && q.setState(p.getState(true))
  {
  }

  lemma SecondActionBy(id: string, s: bool)
    ensures Final(AllDecisions([OnceOnly(id, 2), OnceOnly(id, 1)], [true, s], 2, false)) == if s then Deny else Allow
  {
    hide OnceOnly, DecisionsOf;
    var p, q := OnceOnly(id, 2), OnceOnly(id, 1);
    OnceOnlyWorks(id, 2, true, 2);
    OnceOnlyWorks(id, 1, s, 2);
    assert [p, q][1..] == [q] && [true, s][1..] == [s] && [q][1..] == [] && [s][1..] == [];
    var d := PolicyDecision(if s then Deny else Allow, id, [], []);
    assert AllDecisions([q], [s], 2, false) == [d] + [];
    assert AllDecisions([p, q], [true, s], 2, false) == [d];
    assert d in [d];
  }

  /** Two stateful policies under one id: the hooks hand one policy the other's state, and deny where the engine
      allows. */
  lemma SharedIdsBreakIt(id: string)
    ensures var ps := [OnceOnly(id, 2), OnceOnly(id, 1)];
            && (forall p | p in ps :: p.stateful && UndoesGet(p))
            && LongDecisions(ps, false, [1, 2])[1].finalDecision == Allow
            && HookDecisions(ps, false, [1, 2])[1].finalDecision == Deny
  {
    hide OnceOnly, AllDecisions, Final, UndoesGet, LongStates, Manifest, RestoredStates;
    OnceOnlyWorks(id, 2, true, 2);
    OnceOnlyWorks(id, 1, true, 2);
    AfterFirst(id);
    SecondActionBy(id, true);
    SecondActionBy(id, false);
    assert [1, 2][..1] == [1];
  }

  // ----- composition

  /** The composed verdict does not depend on the order in which policies are registered. */
  lemma FinalIgnoresOrder(a: seq<PolicyDecision>, b: seq<PolicyDecision>)
    requires multiset(a) == multiset(b)
    ensures Final(a) == Final(b)
  {
    assert forall d :: d in a <==> d in multiset(a);
    assert forall d :: d in b <==> d in multiset(b);
  }

  /** Policies with their states, in registration order. */
  ghost function Paired<C, S>(ps: seq<Policy<C, S>>, ss: seq<S>): (r: seq<(Policy<C, S>, S)>)
    requires |ps| == |ss|
    ensures |r| == |ps|
  {
    seq(|ps|, i requires 0 <= i < |ps| => (ps[i], ss[i]))
  }

  lemma {:induction false} AllDecisionsConcat<C, S>(ps: seq<Policy<C, S>>, ss: seq<S>, qs: seq<Policy<C, S>>,
      ts: seq<S>, c: C, closed: bool)
    requires |ps| == |ss| && |qs| == |ts|
    ensures AllDecisions(ps + qs, ss + ts, c, closed)
         == AllDecisions(ps, ss, c, closed) + AllDecisions(qs, ts, c, closed)
    decreases ps
  {
    hide DecisionsOf;
    if ps == [] {
      assert ps + qs == qs && ss + ts == ts;
    } else {
      assert (ps + qs)[1..] == ps[1..] + qs && (ss + ts)[1..] == ss[1..] + ts;
      AllDecisionsConcat(ps[1..], ss[1..], qs, ts, c, closed);
    }
  }

  lemma OneAsked<C, S>(p: Policy<C, S>, s: S, c: C, closed: bool)
    ensures AllDecisions([p], [s], c, closed) == DecisionsOf(p, s, c, closed)
  {
    hide DecisionsOf;
    assert [p][1..] == [] && [s][1..] == [];
  }

  /** The decisions of the policies before one, its own, and those of the policies after it. */
  lemma AskedAt<C, S>(ps: seq<Policy<C, S>>, ss: seq<S>, c: C, closed: bool, j: nat)
    requires |ps| == |ss| && j < |ps|
    ensures AllDecisions(ps, ss, c, closed)
         == AllDecisions(ps[..j], ss[..j], c, closed) + DecisionsOf(ps[j], ss[j], c, closed)
          + AllDecisions(ps[j + 1..], ss[j + 1..], c, closed)
  {
    hide DecisionsOf, AllDecisions;
    var a, b, d, e := ps[..j], ss[..j], ps[j + 1..], ss[j + 1..];
    assert ps == a + [ps[j]] + d && ss == b + [ss[j]] + e;
    OneAsked(ps[j], ss[j], c, closed);
    AllDecisionsConcat(a, b, [ps[j]], [ss[j]], c, closed);
    AllDecisionsConcat(a + [ps[j]], b + [ss[j]], d, e, c, closed);
  }

  /** A policy can be taken from its place and asked first. */
  lemma AskedFirst<C, S>(ps: seq<Policy<C, S>>, ss: seq<S>, c: C, closed: bool, j: nat)
    requires |ps| == |ss| && j < |ps|
    ensures multiset(AllDecisions(ps, ss, c, closed))
         == multiset(DecisionsOf(ps[j], ss[j], c, closed))
          + multiset(AllDecisions(ps[..j] + ps[j + 1..], ss[..j] + ss[j + 1..], c, closed))
  {
    hide DecisionsOf, AllDecisions;
    AskedAt(ps, ss, c, closed, j);
    AllDecisionsConcat(ps[..j], ss[..j], ps[j + 1..], ss[j + 1..], c, closed);
  }

  lemma PairedWithout<C, S>(ps: seq<Policy<C, S>>, ss: seq<S>, j: nat)
    requires |ps| == |ss| && j < |ps|
    ensures multiset(Paired(ps, ss))
         == multiset{(ps[j], ss[j])} + multiset(Paired(ps[..j] + ps[j + 1..], ss[..j] + ss[j + 1..]))
  {
    var all, rest := Paired(ps, ss), Paired(ps[..j] + ps[j + 1..], ss[..j] + ss[j + 1..]);
    assert all == all[..j] + [(ps[j], ss[j])] + all[j + 1..];
    assert rest == all[..j] + all[j + 1..];
  }

  lemma Cancelled<T>(x: T, a: multiset<T>, b: multiset<T>)
    requires multiset{x} + a == multiset{x} + b
    ensures a == b
  {
    forall y ensures a[y] == b[y] {
      assert (multiset{x} + a)[y] == (multiset{x} + b)[y];
    }
  }

  /** The first of some policies, found among the same policies in another order. */
  lemma FirstAmong<C, S>(ps: seq<Policy<C, S>>, ss: seq<S>, qs: seq<Policy<C, S>>, ts: seq<S>) returns (j: nat)
    requires |ps| == |ss| > 0 && |qs| == |ts| && multiset(Paired(ps, ss)) == multiset(Paired(qs, ts))
    ensures j < |qs| && qs[j] == ps[0] && ts[j] == ss[0]
    ensures multiset(Paired(ps[1..], ss[1..])) == multiset(Paired(qs[..j] + qs[j + 1..], ts[..j] + ts[j + 1..]))
  {
    var first := (ps[0], ss[0]);
    assert Paired(ps, ss)[0] == first && first in multiset(Paired(ps, ss));
    assert first in Paired(qs, ts);
    j :| 0 <= j < |qs| && Paired(qs, ts)[j] == first;
    PairedWithout(ps, ss, 0);
    PairedWithout(qs, ts, j);
    assert ps[..0] + ps[1..] == ps[1..] && ss[..0] + ss[1..] == ss[1..];
    hide Paired;
    Cancelled(first, multiset(Paired(ps[1..], ss[1..])),
      multiset(Paired(qs[..j] + qs[j + 1..], ts[..j] + ts[j + 1..])));
  }

  lemma SameNumber<C, S>(ps: seq<Policy<C, S>>, ss: seq<S>, qs: seq<Policy<C, S>>, ts: seq<S>)
    requires |ps| == |ss| && |qs| == |ts| && multiset(Paired(ps, ss)) == multiset(Paired(qs, ts))
    ensures |ps| == |qs|
  {
    assert |Paired(ps, ss)| == |multiset(Paired(ps, ss))| && |Paired(qs, ts)| == |multiset(Paired(qs, ts))|;
  }

  /** The same policies in the same states make the same decisions, whatever the order they are asked in. */
  lemma {:induction false} DecisionsIgnoreOrder<C, S>(
      ps: seq<Policy<C, S>>, ss: seq<S>, qs: seq<Policy<C, S>>, ts: seq<S>, c: C, closed: bool)
    requires |ps| == |ss| && |qs| == |ts| && multiset(Paired(ps, ss)) == multiset(Paired(qs, ts))
    ensures multiset(AllDecisions(ps, ss, c, closed)) == multiset(AllDecisions(qs, ts, c, closed))
    decreases |ps|
  {
    SameNumber(ps, ss, qs, ts);
    if ps != [] {
      hide DecisionsOf, Paired;
      var j := FirstAmong(ps, ss, qs, ts);
      DecisionsIgnoreOrder(ps[1..], ss[1..], qs[..j] + qs[j + 1..], ts[..j] + ts[j + 1..], c, closed);
      AskedFirst(qs, ts, c, closed, j);
    }
  }

  /** Registering the same policies in another order gives the same verdict. */
  lemma VerdictIgnoresOrder<C, S>(ps: seq<Policy<C, S>>, ss: seq<S>, qs: seq<Policy<C, S>>, ts: seq<S>, c: C,
      closed: bool)
    requires |ps| == |ss| && |qs| == |ts| && multiset(Paired(ps, ss)) == multiset(Paired(qs, ts))
    ensures Composed(AllDecisions(ps, ss, c, closed)).finalDecision
      == Composed(AllDecisions(qs, ts, c, closed)).finalDecision
  {
    hide Final, AllDecisions;
    DecisionsIgnoreOrder(ps, ss, qs, ts, c, closed);
    FinalIgnoresOrder(AllDecisions(ps, ss, c, closed), AllDecisions(qs, ts, c, closed));
  }

  lemma HasConcat(a: seq<PolicyDecision>, b: seq<PolicyDecision>, v: Verdict)
    ensures Has(a + b, v) <==> Has(a, v) || Has(b, v)
  {
    assert forall d :: d in a + b <==> d in a || d in b;
  }

  lemma ResolvedConcat(a: seq<PolicyDecision>, b: seq<PolicyDecision>)
    ensures ReviewResolved(a + b) <==> ReviewResolved(a) || ReviewResolved(b)
  {
    assert forall d :: d in a + b <==> d in a || d in b;
  }

  /** Fail-closed: a policy that raises, anywhere, blocks the action. */
  lemma {:induction false} FailClosedDenies<C, S>(ps: seq<Policy<C, S>>, ss: seq<S>, c: C)
    requires |ps| == |ss|
    requires exists i | 0 <= i < |ps| :: Raises(ps[i], ss[i], c)
    ensures Final(AllDecisions(ps, ss, c, true)) == Deny
  {
    var mine, rest := DecisionsOf(ps[0], ss[0], c, true), AllDecisions(ps[1..], ss[1..], c, true);
    HasConcat(mine, rest, Deny);
    if Raises(ps[0], ss[0], c) {
      assert mine[0] in mine && mine[0].decision == Deny;
    } else {
      var i :| 0 <= i < |ps| && Raises(ps[i], ss[i], c);
      assert Raises(ps[1..][i - 1], ss[1..][i - 1], c);
      FailClosedDenies(ps[1..], ss[1..], c);
    }
  }

  /** The decisions of the policies that do not raise. */
  function SoundDecisions<C, S>(ps: seq<Policy<C, S>>, ss: seq<S>, c: C): seq<PolicyDecision>
    requires |ps| == |ss|
  {
    if ps == [] then [] else
    (if Raises(ps[0], ss[0], c) then [] else DecisionsOf(ps[0], ss[0], c, false)) + SoundDecisions(ps[1..], ss[1..], c)
  }

  /** The supervisor takes part and raises. */
  predicate SupervisorFails<C, S>(ps: seq<Policy<C, S>>, ss: seq<S>, c: C)
    requires |ps| == |ss|
  {
    exists i | 0 <= i < |ps| :: ps[i].id == SUPERVISOR && Applies(ps[i], ss[i], c) && ps[i].evaluate(ss[i], c).Raised?
  }

  lemma SupervisorFailsStep<C, S>(ps: seq<Policy<C, S>>, ss: seq<S>, c: C)
    requires |ps| == |ss| > 0
    ensures SupervisorFails(ps, ss, c) <==>
      (ps[0].id == SUPERVISOR && Applies(ps[0], ss[0], c) && ps[0].evaluate(ss[0], c).Raised?)
        || SupervisorFails(ps[1..], ss[1..], c)
  {
    hide Applies;
    if SupervisorFails(ps[1..], ss[1..], c) {
      var i :| 0 <= i < |ps[1..]| && ps[1..][i].id == SUPERVISOR && Applies(ps[1..][i], ss[1..][i], c)
        && ps[1..][i].evaluate(ss[1..][i], c).Raised?;
      assert ps[i + 1] == ps[1..][i] && ss[i + 1] == ss[1..][i];
    }
    if i :| 0 <= i < |ps| && ps[i].id == SUPERVISOR && Applies(ps[i], ss[i], c) && ps[i].evaluate(ss[i], c).Raised? {
      if i > 0 {
        assert ps[1..][i - 1] == ps[i] && ss[1..][i - 1] == ss[i];
      }
    }
  }

  lemma {:induction false} FailOpenDecisions<C, S>(ps: seq<Policy<C, S>>, ss: seq<S>, c: C)
    requires |ps| == |ss|
    ensures forall v | v != Allow :: Has(AllDecisions(ps, ss, c, false), v) <==> Has(SoundDecisions(ps, ss, c), v)
    ensures ReviewResolved(AllDecisions(ps, ss, c, false))
      <==> ReviewResolved(SoundDecisions(ps, ss, c)) || SupervisorFails(ps, ss, c)
  {
    if ps != [] {
      FailOpenDecisions(ps[1..], ss[1..], c);
      SupervisorFailsStep(ps, ss, c);
      var mine, rest := DecisionsOf(ps[0], ss[0], c, false), AllDecisions(ps[1..], ss[1..], c, false);
      var kept := if Raises(ps[0], ss[0], c) then [] else mine;
      var sound := SoundDecisions(ps[1..], ss[1..], c);
      forall v
        ensures Has(mine + rest, v) <==> Has(mine, v) || Has(rest, v)
        ensures Has(kept + sound, v) <==> Has(kept, v) || Has(sound, v)
      {
        HasConcat(mine, rest, v);
        HasConcat(kept, sound, v);
      }
      ResolvedConcat(mine, rest);
      ResolvedConcat(kept, sound);
      FailOpenOne(ps[0], ss[0], c);
    }
  }

  lemma FailOpenOne<C, S>(p: Policy<C, S>, s: S, c: C)
    ensures !Raises(p, s, c) ==> !(Applies(p, s, c) && p.evaluate(s, c).Raised?)
    ensures Raises(p, s, c) ==>
      && (forall v | v != Allow :: !Has(DecisionsOf(p, s, c, false), v))
      && (ReviewResolved(DecisionsOf(p, s, c, false))
        <==> p.id == SUPERVISOR && Applies(p, s, c) && p.evaluate(s, c).Raised?)
  {
    if Raises(p, s, c) && p.applies(s, c).Returned? {
      assert DecisionsOf(p, s, c, false)[0] in DecisionsOf(p, s, c, false);
    }
  }

  /** Fail-open: raising policies count for nothing, unless it is the supervisor that raises and only a review is
      left to settle. */
  lemma FailOpenDropsRaising<C, S>(ps: seq<Policy<C, S>>, ss: seq<S>, c: C)
    requires |ps| == |ss|
    ensures Final(AllDecisions(ps, ss, c, false)) == Final(SoundDecisions(ps, ss, c))
       <==> !(SupervisorFails(ps, ss, c) && Final(SoundDecisions(ps, ss, c)) == NeedsReview)
  {
    hide Has, ReviewResolved, SupervisorFails;
    FailOpenDecisions(ps, ss, c);
  }
}
