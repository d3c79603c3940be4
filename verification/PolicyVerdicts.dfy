/** The composed verdict in terms of the policies themselves: who decided what, who broke, and what it comes to. */
module PolicyVerdicts {
  import opened Attempts
  import opened Json
  import opened PolicyModel
  import opened PolicyEngine
  import opened PolicyRuns

  /** The policy applies to the action and evaluates it. */
  predicate Judges<C, S>(p: Policy<C, S>, s: S, c: C) {
    p.applies(s, c) == Returned(true) && p.evaluate(s, c).Returned?
  }

  function JudgementOf<C, S>(p: Policy<C, S>, s: S, c: C): PolicyDecision
    requires Judges(p, s, c)
  {
    p.evaluate(s, c).value.0
  }

  /** The policy applies, and its evaluation raises. */
  predicate BreaksDown<C, S>(p: Policy<C, S>, s: S, c: C) {
    p.applies(s, c) == Returned(true) && p.evaluate(s, c).Raised?
  }

  predicate SomeoneSays<C, S>(ps: seq<Policy<C, S>>, ss: seq<S>, c: C, v: Verdict)
    requires |ps| == |ss|
  {
    exists i | 0 <= i < |ps| :: Judges(ps[i], ss[i], c) && JudgementOf(ps[i], ss[i], c).decision == v
  }

  predicate SomeoneRaises<C, S>(ps: seq<Policy<C, S>>, ss: seq<S>, c: C)
    requires |ps| == |ss|
  {
    exists i | 0 <= i < |ps| :: ps[i].applies(ss[i], c).Raised? || BreaksDown(ps[i], ss[i], c)
  }

  /** A decision under the supervisor's name that is no request for review settles one; so does a supervisor that breaks
      down. */
  predicate SupervisorSettles<C, S>(ps: seq<Policy<C, S>>, ss: seq<S>, c: C)
    requires |ps| == |ss|
  {
    exists i | 0 <= i < |ps| ::
      || (Judges(ps[i], ss[i], c) && JudgementOf(ps[i], ss[i], c).policyId == SUPERVISOR
          && JudgementOf(ps[i], ss[i], c).decision != NeedsReview)
      || (BreaksDown(ps[i], ss[i], c) && ps[i].id == SUPERVISOR)
  }

  // ----- where each policy's decision is

  /** What one policy contributes: the decision it makes; when its evaluation raises, or its applies_to under
      fail-closed, one decision in its name; otherwise nothing. */
  ghost predicate Contributes<C, S>(p: Policy<C, S>, s: S, c: C, closed: bool, mine: seq<PolicyDecision>) {
    if Judges(p, s, c) then mine == [JudgementOf(p, s, c)]
    else if BreaksDown(p, s, c) || (closed && p.applies(s, c).Raised?) then
      && |mine| == 1 && mine[0].policyId == p.id && mine[0].violations == []
      && mine[0].decision == if closed then Deny else Allow
    else mine == []
  }

  lemma DecisionsAreContributed<C, S>(p: Policy<C, S>, s: S, c: C, closed: bool)
    ensures Contributes(p, s, c, closed, DecisionsOf(p, s, c, closed))
  {}

  /** The decisions are those before policy i, then its own, then those after it: every policy's contribution is there,
      in registration order. */
  lemma InRegistrationOrder<C, S>(ps: seq<Policy<C, S>>, ss: seq<S>, c: C, closed: bool, i: nat)
    requires |ps| == |ss| && i < |ps|
    ensures exists mine | Contributes(ps[i], ss[i], c, closed, mine) ::
      AllDecisions(ps, ss, c, closed)
      == AllDecisions(ps[..i], ss[..i], c, closed) + mine + AllDecisions(ps[i + 1..], ss[i + 1..], c, closed)
  {
    hide DecisionsOf, Contributes;
    AskedAt(ps, ss, c, closed, i);
    DecisionsAreContributed(ps[i], ss[i], c, closed);
  }

  // ----- the verdict

  lemma {:induction false} DecidedBySomeone<C, S>(ps: seq<Policy<C, S>>, ss: seq<S>, c: C, closed: bool,
      d: PolicyDecision)
    requires |ps| == |ss|
    ensures d in AllDecisions(ps, ss, c, closed)
       <==> exists i | 0 <= i < |ps| :: d in DecisionsOf(ps[i], ss[i], c, closed)
  {
    hide DecisionsOf;
    if ps != [] {
      DecidedBySomeone(ps[1..], ss[1..], c, closed, d);
      if i :| 0 <= i < |ps[1..]| && d in DecisionsOf(ps[1..][i], ss[1..][i], c, closed) {
        assert d in DecisionsOf(ps[i + 1], ss[i + 1], c, closed);
      }
      if i :| 0 < i < |ps| && d in DecisionsOf(ps[i], ss[i], c, closed) {
        assert d in DecisionsOf(ps[1..][i - 1], ss[1..][i - 1], c, closed);
      }
    }
  }

  lemma HasBySomeone<C, S>(ps: seq<Policy<C, S>>, ss: seq<S>, c: C, closed: bool, v: Verdict)
    requires |ps| == |ss| && v != Allow
    ensures Has(AllDecisions(ps, ss, c, closed), v)
       <==> SomeoneSays(ps, ss, c, v) || (v == Deny && closed && SomeoneRaises(ps, ss, c))
  {
    hide AllDecisions, Judges, BreaksDown, DecisionsOf;
    var all := AllDecisions(ps, ss, c, closed);
    if d :| d in all && d.decision == v {
      DecidedBySomeone(ps, ss, c, closed, d);
      var i :| 0 <= i < |ps| && d in DecisionsOf(ps[i], ss[i], c, closed);
      DecisionsAreContributed(ps[i], ss[i], c, closed);
    }
    forall i | 0 <= i < |ps| && (if Judges(ps[i], ss[i], c) then JudgementOf(ps[i], ss[i], c).decision == v
      else v == Deny && closed && (ps[i].applies(ss[i], c).Raised? || BreaksDown(ps[i], ss[i], c)))
      ensures Has(all, v)
    {
      DecisionsAreContributed(ps[i], ss[i], c, closed);
      var d := DecisionsOf(ps[i], ss[i], c, closed)[0];
      assert d in DecisionsOf(ps[i], ss[i], c, closed);
      DecidedBySomeone(ps, ss, c, closed, d);
    }
    if closed && v == Deny && SomeoneRaises(ps, ss, c) {
      var i :| 0 <= i < |ps| && (ps[i].applies(ss[i], c).Raised? || BreaksDown(ps[i], ss[i], c));
      NotBoth(ps[i], ss[i], c);
    }
  }

  lemma NotBoth<C, S>(p: Policy<C, S>, s: S, c: C)
    ensures p.applies(s, c).Raised? || BreaksDown(p, s, c) ==> !Judges(p, s, c)
  {}

  lemma ResolvedBySomeone<C, S>(ps: seq<Policy<C, S>>, ss: seq<S>, c: C, closed: bool)
    requires |ps| == |ss| && !(closed && SomeoneRaises(ps, ss, c))
    ensures ReviewResolved(AllDecisions(ps, ss, c, closed)) <==> SupervisorSettles(ps, ss, c)
  {
    hide AllDecisions, Judges, BreaksDown, DecisionsOf;
    var all := AllDecisions(ps, ss, c, closed);
    if d :| d in all && d.policyId == SUPERVISOR && d.decision != NeedsReview {
      DecidedBySomeone(ps, ss, c, closed, d);
      var i :| 0 <= i < |ps| && d in DecisionsOf(ps[i], ss[i], c, closed);
      DecisionsAreContributed(ps[i], ss[i], c, closed);
    }
    forall i | 0 <= i < |ps| && (if Judges(ps[i], ss[i], c)
      then JudgementOf(ps[i], ss[i], c).policyId == SUPERVISOR && JudgementOf(ps[i], ss[i], c).decision != NeedsReview
      else BreaksDown(ps[i], ss[i], c) && ps[i].id == SUPERVISOR)
      ensures ReviewResolved(all)
    {
      DecisionsAreContributed(ps[i], ss[i], c, closed);
      var d := DecisionsOf(ps[i], ss[i], c, closed)[0];
      assert d in DecisionsOf(ps[i], ss[i], c, closed);
      DecidedBySomeone(ps, ss, c, closed, d);
    }
    forall i | 0 <= i < |ps| ensures BreaksDown(ps[i], ss[i], c) ==> !Judges(ps[i], ss[i], c) {
      NotBoth(ps[i], ss[i], c);
    }
  }

  /** The verdict: deny if some policy denies, or raises under fail-closed; else review if some policy asks for one and
      the supervisor settles none; else warn if some policy warns; else allow. */
  lemma VerdictOfPolicies<C, S>(ps: seq<Policy<C, S>>, ss: seq<S>, c: C, closed: bool)
    requires |ps| == |ss|
    ensures Composed(AllDecisions(ps, ss, c, closed)).finalDecision
      == if SomeoneSays(ps, ss, c, Deny) || (closed && SomeoneRaises(ps, ss, c)) then Deny
         else if SomeoneSays(ps, ss, c, NeedsReview) && !SupervisorSettles(ps, ss, c) then NeedsReview
         else if SomeoneSays(ps, ss, c, Warn) then Warn
         else Allow
  {
    HasBySomeone(ps, ss, c, closed, Deny);
    HasBySomeone(ps, ss, c, closed, NeedsReview);
    HasBySomeone(ps, ss, c, closed, Warn);
    hide AllDecisions, Has, ReviewResolved, SomeoneSays, SomeoneRaises, SupervisorSettles;
    if !(closed && SomeoneRaises(ps, ss, c)) { ResolvedBySomeone(ps, ss, c, closed); }
  }

  // ----- the texts

  lemma {:induction false} BlockingMembers(ds: seq<PolicyDecision>, text: string)
    ensures text in Blocking(ds) <==> exists d | d in ds :: d.decision == Deny && text in d.violations
    ensures text in Warnings(ds) <==> exists d | d in ds :: text in d.warnings
  {
    if ds != [] {
      BlockingMembers(ds[1..], text);
      assert ds == [ds[0]] + ds[1..];
    }
  }

  /** The blocking violations are those of the policies that deny, and no warning of a policy that judges is lost. */
  lemma TextsOfPolicies<C, S>(ps: seq<Policy<C, S>>, ss: seq<S>, c: C, closed: bool, text: string)
    requires |ps| == |ss|
    ensures var r := Composed(AllDecisions(ps, ss, c, closed));
      && (text in r.blockingViolations <==>
            exists i | 0 <= i < |ps| :: Judges(ps[i], ss[i], c) && JudgementOf(ps[i], ss[i], c).decision == Deny
              && text in JudgementOf(ps[i], ss[i], c).violations)
      && forall i | 0 <= i < |ps| && Judges(ps[i], ss[i], c) && text in JudgementOf(ps[i], ss[i], c).warnings ::
           text in r.allWarnings
  {
    hide AllDecisions, Judges, BreaksDown, DecisionsOf, Blocking, Warnings;
    var all := AllDecisions(ps, ss, c, closed);
    BlockingMembers(all, text);
    forall i | 0 <= i < |ps| && Judges(ps[i], ss[i], c) ensures JudgementOf(ps[i], ss[i], c) in all {
      DecisionsAreContributed(ps[i], ss[i], c, closed);
      var d := JudgementOf(ps[i], ss[i], c);
      assert d in DecisionsOf(ps[i], ss[i], c, closed);
      DecidedBySomeone(ps, ss, c, closed, d);
    }
    if d :| d in all && d.decision == Deny && text in d.violations {
      DecidedBySomeone(ps, ss, c, closed, d);
      var i :| 0 <= i < |ps| && d in DecisionsOf(ps[i], ss[i], c, closed);
      DecisionsAreContributed(ps[i], ss[i], c, closed);
    }
  }

  // ----- the states

  /** A policy that judged is left in the state its evaluation returned, and that is what is collected if it keeps
      state; every other policy is left as it was and not collected. */
  lemma StatesOfPolicies<C, S>(ps: seq<Policy<C, S>>, ss: seq<S>, c: C, i: nat)
    requires |ps| == |ss| && DistinctIds(ps) && i < |ps|
    ensures NextStates(ps, ss, c)[i] == if Judges(ps[i], ss[i], c) then ps[i].evaluate(ss[i], c).value.1 else ss[i]
    ensures ps[i].stateful ==> (ps[i].id in Collected(ps, ss, c) <==> Judges(ps[i], ss[i], c))
    ensures ps[i].stateful && Judges(ps[i], ss[i], c) ==>
      Collected(ps, ss, c)[ps[i].id] == ps[i].getState(ps[i].evaluate(ss[i], c).value.1)
  {
    hide DistinctIds, Collected;
    if ps[i].stateful { CollectedOf(ps, ss, c, i); }
  }
}
