/** The policy engine as an object: it restores, evaluates and collects, policy by policy. */
module PolicyEngine {
  import opened Attempts
  import opened Wrappers
  import opened Json
  import opened PolicyModel

  function RestoredState<C, S>(p: Policy<C, S>, s: S, persisted: Option<map<string, Dict>>): S {
    if persisted.Some? && p.stateful && p.id in persisted.value then p.setState(persisted.value[p.id]) else s
  }

  lemma {:induction false} AllDecisionsSnoc<C, S>(ps: seq<Policy<C, S>>, ss: seq<S>, c: C, closed: bool, i: nat)
    requires |ps| == |ss| && i < |ps|
    ensures AllDecisions(ps[..i + 1], ss[..i + 1], c, closed)
         == AllDecisions(ps[..i], ss[..i], c, closed) + DecisionsOf(ps[i], ss[i], c, closed)
    decreases i
  {
    hide DecisionsOf;
    if i == 0 {
      assert AllDecisions(ps[..1][1..], ss[..1][1..], c, closed) == [];
    } else {
      assert ps[..i + 1][1..] == ps[1..][..i] && ss[..i + 1][1..] == ss[1..][..i];
      assert ps[..i][1..] == ps[1..][..i - 1] && ss[..i][1..] == ss[1..][..i - 1];
      AllDecisionsSnoc(ps[1..], ss[1..], c, closed, i - 1);
    }
  }

  /** The verdict after some of the decisions, before the review is looked at. */
  function Tentative(ds: seq<PolicyDecision>): Verdict {
    if Has(ds, Deny) then Deny else if Has(ds, Warn) then Warn else Allow
  }

  lemma BlockingConcat(a: seq<PolicyDecision>, b: seq<PolicyDecision>)
    ensures Blocking(a + b) == Blocking(a) + Blocking(b) && Warnings(a + b) == Warnings(a) + Warnings(b)
  {
    if a == [] {
      assert a + b == b;
    } else {
      assert (a + b)[0] == a[0] && (a + b)[1..] == a[1..] + b;
      BlockingConcat(a[1..], b);
    }
  }

  lemma HasSnoc(ds: seq<PolicyDecision>, d: PolicyDecision, v: Verdict)
    ensures Has(ds + [d], v) <==> Has(ds, v) || d.decision == v
  {
    if Has(ds, v) {
      var e :| e in ds && e.decision == v;
      assert e in ds + [d];
    }
    assert d in ds + [d];
  }

  /** What one more decision does to each part of the result. */
  lemma ComposeStep(ds: seq<PolicyDecision>, d: PolicyDecision)
    ensures Tentative(ds + [d])
         == if d.decision == Deny then Deny
            else if d.decision == Warn && Tentative(ds) == Allow then Warn else Tentative(ds)
    ensures Has(ds + [d], NeedsReview) <==> Has(ds, NeedsReview) || d.decision == NeedsReview
    ensures Blocking(ds + [d]) == if d.decision == Deny then Blocking(ds) + d.violations else Blocking(ds)
    ensures Warnings(ds + [d]) == Warnings(ds) + d.warnings
  {
    HasSnoc(ds, d, Deny);
    HasSnoc(ds, d, Warn);
    HasSnoc(ds, d, NeedsReview);
    hide Has;
    BlockingConcat(ds, [d]);
    assert [d][1..] == [] && Blocking(ds) + [] == Blocking(ds);
  }

  /** The compose half of evaluate(). */
  method Compose(decisions: seq<PolicyDecision>) returns (r: CompositeDecision)
    ensures r == Composed(decisions)
  {
    var final, needsReview := Allow, false;
    var blocking: seq<string>, warnings: seq<string> := [], [];
    for i := 0 to |decisions|
      invariant final == Tentative(decisions[..i]) && needsReview == Has(decisions[..i], NeedsReview)
      invariant blocking == Blocking(decisions[..i]) && warnings == Warnings(decisions[..i])
    {
      hide Has, Tentative, Blocking, Warnings;
      var d := decisions[i];
      assert decisions[..i + 1] == decisions[..i] + [d];
      ComposeStep(decisions[..i], d);
      warnings := warnings + d.warnings;
      if d.decision == Deny {
        final := Deny;
        blocking := blocking + d.violations;
      } else if d.decision == NeedsReview {
        needsReview := true;
      } else if d.decision == Warn && final == Allow {
        final := Warn;
      }
    }
    assert decisions[..|decisions|] == decisions;
    if needsReview && !ReviewResolved(decisions) && final != Deny {
      final := NeedsReview;
    }
    return CompositeDecision(final, decisions, blocking, warnings);
  }

  /** What the evaluation loop knows after i policies. */
  ghost predicate EvaluatedUpTo<C, S>(ps: seq<Policy<C, S>>, before: seq<S>, now: seq<S>, was: map<string, Dict>,
      col: map<string, Dict>,
                                      ds: seq<PolicyDecision>, c: C, closed: bool, i: nat)
    requires |ps| == |before| == |now| && i <= |ps|
  {
    && now == NextStates(ps[..i], before[..i], c) + before[i..]
    && ds == AllDecisions(ps[..i], before[..i], c, closed)
    && col == was + Collected(ps[..i], before[..i], c)
  }

  lemma NothingEvaluated<C, S>(ps: seq<Policy<C, S>>, before: seq<S>, was: map<string, Dict>, c: C, closed: bool)
    requires |ps| == |before|
    ensures EvaluatedUpTo(ps, before, before, was, was, [], c, closed, 0)
  {
    assert NextStates(ps[..0], before[..0], c) == [];
  }

  /** The turn of policy i carries what the loop knows from i to i + 1. */
  lemma OneEvaluated<C, S>(ps: seq<Policy<C, S>>, before: seq<S>, now: seq<S>, was: map<string, Dict>,
      col: map<string, Dict>,
                           ds: seq<PolicyDecision>, c: C, closed: bool, i: nat)
    requires |ps| == |before| == |now| && i < |ps|
    requires EvaluatedUpTo(ps, before, now, was, col, ds, c, closed, i)
    ensures now[i] == before[i]
    ensures EvaluatedUpTo(ps, before, now[i := NextState(ps[i], now[i], c)], was, CollectedWith(col, ps[i], now[i], c),
                          ds + DecisionsOf(ps[i], now[i], c, closed), c, closed, i + 1)
  {
    hide DecisionsOf, NextState, Runs, AllDecisions;
    AllDecisionsSnoc(ps, before, c, closed, i);
    assert ps[..i + 1][..i] == ps[..i] && before[..i + 1][..i] == before[..i];
    assert now[i := NextState(ps[i], now[i], c)] == NextStates(ps[..i + 1], before[..i + 1], c) + before[i + 1..];
    assert CollectedWith(was + Collected(ps[..i], before[..i], c), ps[i], before[i], c)
        == was + CollectedWith(Collected(ps[..i], before[..i], c), ps[i], before[i], c);
  }

  lemma AllEvaluated<C, S>(ps: seq<Policy<C, S>>, before: seq<S>, now: seq<S>, was: map<string, Dict>,
      col: map<string, Dict>,
                           ds: seq<PolicyDecision>, c: C, closed: bool)
    requires |ps| == |before| == |now|
    requires EvaluatedUpTo(ps, before, now, was, col, ds, c, closed, |ps|)
    ensures now == NextStates(ps, before, c) && ds == AllDecisions(ps, before, c, closed)
    ensures col == was + Collected(ps, before, c)
  {
    hide AllDecisions, Collected;
    assert ps[..|ps|] == ps && before[..|ps|] == before;
  }

  class Engine<!C, !S> {
    var policies: seq<Policy<C, S>>
    var states: seq<S>
    var closed: bool
    var collected: map<string, Dict>

    /** A fresh engine: every policy object in its initial state, nothing collected. */
    constructor (policies: seq<Policy<C, S>>, closed: bool)
      ensures Valid() && this.policies == policies && this.closed == closed && collected == map[]
      ensures states == InitialStates(policies)
    {
      this.policies, this.closed, this.collected := policies, closed, map[];
      this.states := InitialStates(policies);
    }

    predicate Valid()
      reads this
    {
      |states| == |policies|
    }

    method RestoreState(persisted: Option<map<string, Dict>>)
      requires Valid()
      modifies this`states
      ensures Valid()
      ensures forall i | 0 <= i < |states| :: states[i] == RestoredState(policies[i], old(states)[i], persisted)
    {
      if persisted.None? {
        return;
      }
      for i := 0 to |policies|
        invariant |states| == |policies|
        invariant forall j | 0 <= j < |states| ::
          states[j] == if j < i then RestoredState(policies[j], old(states)[j], persisted) else old(states)[j]
      {
        if policies[i].stateful && policies[i].id in persisted.value {
          states := states[i := policies[i].setState(persisted.value[policies[i].id])];
        }
      }
    }

    /** One turn of the evaluation loop: what policy i contributes. */
    method EvaluatePolicy(i: nat, c: C) returns (decisions: seq<PolicyDecision>)
      requires Valid() && i < |policies|
      modifies this`states, this`collected
      ensures decisions == DecisionsOf(policies[i], old(states)[i], c, closed)
      ensures states == old(states)[i := NextState(policies[i], old(states)[i], c)]
      ensures collected == CollectedWith(old(collected), policies[i], old(states)[i], c)
    {
      var policy := policies[i];
      var applies := policy.applies(states[i], c);
      if applies.Raised? {
        return if closed then [PolicyDecision(Deny, policy.id, [], ["applies_to failed"])] else [];
      }
      if !applies.value {
        return [];
      }
      var evaluated := policy.evaluate(states[i], c);
      if evaluated.Raised? {
        if !closed {
          return [PolicyDecision(Allow, policy.id, [], ["evaluation failed"])];
        } else {
          return [PolicyDecision(Deny, policy.id, [], ["evaluation failed"])];
        }
      }
      states := states[i := evaluated.value.1];
      if policy.stateful {
        collected := collected[policy.id := policy.getState(states[i])];
      }
      return [evaluated.value.0];
    }

    method Evaluate(c: C) returns (r: CompositeDecision)
      requires Valid()
      modifies this`states, this`collected
      ensures Valid()
      ensures r == Composed(AllDecisions(policies, old(states), c, closed))
      ensures states == NextStates(policies, old(states), c)
      ensures collected == old(collected) + Collected(policies, old(states), c)
    {
      hide EvaluatedUpTo, AllDecisions, DecisionsOf, NextStates, NextState, Collected, CollectedWith, Composed;
      var decisions: seq<PolicyDecision> := [];
      ghost var before, was := states, collected;
      NothingEvaluated(policies, before, was, c, closed);
      for i := 0 to |policies|
        invariant |states| == |policies|
        invariant EvaluatedUpTo(policies, before, states, was, collected, decisions, c, closed, i)
      {
        ghost var ss, col := states, collected;
        OneEvaluated(policies, before, ss, was, col, decisions, c, closed, i);
        var more := EvaluatePolicy(i, c);
        decisions := decisions + more;
      }
      AllEvaluated(policies, before, states, was, collected, decisions, c, closed);
      r := Compose(decisions);
    }
  }

  function InitialStates<C, S>(ps: seq<Policy<C, S>>): (r: seq<S>)
    ensures |r| == |ps| && forall i | 0 <= i < |r| :: r[i] == ps[i].initial
  {
    seq(|ps|, i requires 0 <= i < |ps| => ps[i].initial)
  }

  /** The new log is the end of the old one and the new decision: all of it, or the last hundred. */
  predicate LogGrew<T(==)>(before: seq<T>, result: T, after: seq<T>) {
    && |after| == (if |before| < 100 then |before| + 1 else 100)
    && exists dropped | 0 <= dropped <= |before| :: before[dropped..] + [result] == after
  }

  /** Policies that ran get their new state; those that did not keep theirs; no other appears. */
  predicate StatesRenewed(before: map<string, Dict>, collected: map<string, Dict>, after: map<string, Dict>) {
    && after.Keys == before.Keys + collected.Keys
    && (forall id | id in collected :: id in after && after[id] == collected[id])
    && (forall id | id in before && id !in collected :: id in after && after[id] == before[id])
  }

  lemma DropBoth<T>(before: seq<T>, result: T, k: nat)
    requires k <= |before|
    ensures (before + [result])[k..] == before[k..] + [result]
  {
  }

  method AppendBounded<T(==)>(before: seq<T>, result: T) returns (log: seq<T>)
    ensures LogGrew(before, result, log)
  {
    log := before + [result];
    DropBoth(before, result, 0);
    if |log| > MAX_DECISION_LOG {
      DropBoth(before, result, |log| - MAX_DECISION_LOG);
      log := log[|log| - MAX_DECISION_LOG..];
    } else {
      assert log == before[0..] + [result];
    }
  }

  method UpdateStates(before: map<string, Dict>, collected: map<string, Dict>) returns (states: map<string, Dict>)
    ensures StatesRenewed(before, collected, states)
  {
    states := before;
    states := states + collected;
  }

  /** build_policy_state_update, for the log and the policy states. */
  method BuildPolicyStateUpdate(result: CompositeDecision, collected: map<string, Dict>, existing: Option<PolicyState>)
    returns (r: PolicyState)
    ensures LogGrew(Existing(existing).decisions, result, r.decisions)
    ensures StatesRenewed(Existing(existing).policyStates, collected, r.policyStates)
  {
    hide LogGrew, StatesRenewed;
    var e := if existing.Some? then existing.value else NO_STATE;
    var log := AppendBounded(e.decisions, result);
    var states := UpdateStates(e.policyStates, collected);
    return PolicyState(log, states);
  }

  lemma GrownLog<T>(before: seq<T>, result: T, after: seq<T>)
    requires LogGrew(before, result, after)
    ensures after == LastOf(before + [result], MAX_DECISION_LOG)
  {
    var dropped :| 0 <= dropped <= |before| && before[dropped..] + [result] == after;
    DropBoth(before, result, dropped);
    assert |before| + 1 - |after| == dropped;
  }

  lemma RenewedStates(before: map<string, Dict>, collected: map<string, Dict>, after: map<string, Dict>)
    requires StatesRenewed(before, collected, after)
    ensures after == before + collected
  {
  }

  /** These two promises leave one possible update. */
  lemma UpdateIsDetermined(
      result: CompositeDecision, collected: map<string, Dict>, existing: Option<PolicyState>, r: PolicyState)
    requires LogGrew(Existing(existing).decisions, result, r.decisions)
    requires StatesRenewed(Existing(existing).policyStates, collected, r.policyStates)
    ensures r == StateUpdate(result, collected, existing)
  {
    hide LogGrew, StatesRenewed, LastOf;
    GrownLog(Existing(existing).decisions, result, r.decisions);
    RenewedStates(Existing(existing).policyStates, collected, r.policyStates);
  }
}
