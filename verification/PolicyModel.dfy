/** Policies, their decisions, and how decisions compose. */
module PolicyModel {
  import opened Attempts
  import opened Wrappers
  import opened Json

  datatype Verdict = Allow | Deny | Warn | NeedsReview

  datatype PolicyDecision = PolicyDecision(decision: Verdict, policyId: string, violations: seq<string>,
      warnings: seq<string>)

  datatype CompositeDecision = CompositeDecision(
    finalDecision: Verdict,
    decisions: seq<PolicyDecision>,
    blockingViolations: seq<string>,
    allWarnings: seq<string>)

  /** A policy object: its class's behaviour as functions of its state. A call that raises leaves the state alone. */
  datatype Policy<!C, !S> = Policy(
    id: string,
    stateful: bool,
    initial: S,
    applies: (S, C) -> Attempt<bool>,
    evaluate: (S, C) -> Attempt<(PolicyDecision, S)>,
    getState: S -> Dict,
    setState: Dict -> S)

  const SUPERVISOR: string := "semantic.supervisor"

  // ----- one policy on one action

  predicate Applies<C, S>(p: Policy<C, S>, s: S, c: C) { p.applies(s, c) == Returned(true) }

  predicate Raises<C, S>(p: Policy<C, S>, s: S, c: C) {
    p.applies(s, c).Raised? || (Applies(p, s, c) && p.evaluate(s, c).Raised?)
  }

  predicate Runs<C, S>(p: Policy<C, S>, s: S, c: C) {
    Applies(p, s, c) && p.evaluate(s, c).Returned?
  }

  /** What the policy contributes: nothing, its own decision, or the decision its failure stands for. */
  function DecisionsOf<C, S>(p: Policy<C, S>, s: S, c: C, closed: bool): seq<PolicyDecision> {
    match p.applies(s, c)
    case Raised => if closed then [PolicyDecision(Deny, p.id, [], ["applies_to failed"])] else []
    case Returned(applies) =>
      if !applies then [] else
      match p.evaluate(s, c)
      case Raised => [PolicyDecision(if closed then Deny else Allow, p.id, [], ["evaluation failed"])]
      case Returned((d, _)) => [d]
  }

  function NextState<C, S>(p: Policy<C, S>, s: S, c: C): S {
    if Runs(p, s, c) then p.evaluate(s, c).value.1 else s
  }

  // ----- all policies on one action

  function AllDecisions<C, S>(ps: seq<Policy<C, S>>, ss: seq<S>, c: C, closed: bool): seq<PolicyDecision>
    requires |ps| == |ss|
  {
    if ps == [] then [] else DecisionsOf(ps[0], ss[0], c, closed) + AllDecisions(ps[1..], ss[1..], c, closed)
  }

  function NextStates<C, S>(ps: seq<Policy<C, S>>, ss: seq<S>, c: C): (r: seq<S>)
    requires |ps| == |ss|
    ensures |r| == |ss| && forall i | 0 <= i < |r| :: r[i] == NextState(ps[i], ss[i], c)
  {
    seq(|ss|, i requires 0 <= i < |ss| => NextState(ps[i], ss[i], c))
  }

  /** The turn of one policy records its new state, if it keeps one and ran. */
  function CollectedWith<C, S>(col: map<string, Dict>, p: Policy<C, S>, s: S, c: C): map<string, Dict> {
    if p.stateful && Runs(p, s, c) then col[p.id := p.getState(NextState(p, s, c))] else col
  }

  /** The states collected in one evaluation; of policies sharing an id, the last one stays. */
  function Collected<C, S>(ps: seq<Policy<C, S>>, ss: seq<S>, c: C): map<string, Dict>
    requires |ps| == |ss|
  {
    if ps == [] then map[] else
    var n := |ps| - 1;
    CollectedWith(Collected(ps[..n], ss[..n], c), ps[n], ss[n], c)
  }

  // ----- composition

  predicate Has(ds: seq<PolicyDecision>, v: Verdict) { exists d | d in ds :: d.decision == v }

  predicate ReviewResolved(ds: seq<PolicyDecision>) {
    exists d | d in ds :: d.policyId == SUPERVISOR && d.decision != NeedsReview
  }

  /** Any deny blocks; an unresolved review escalates; a warning warns. */
  function Final(ds: seq<PolicyDecision>): Verdict {
    if Has(ds, Deny) then Deny
    else if Has(ds, NeedsReview) && !ReviewResolved(ds) then NeedsReview
    else if Has(ds, Warn) then Warn
    else Allow
  }

  function Blocking(ds: seq<PolicyDecision>): seq<string> {
    if ds == [] then [] else (if ds[0].decision == Deny then ds[0].violations else []) + Blocking(ds[1..])
  }

  function Warnings(ds: seq<PolicyDecision>): seq<string> {
    if ds == [] then [] else ds[0].warnings + Warnings(ds[1..])
  }

  function Composed(ds: seq<PolicyDecision>): CompositeDecision {
    CompositeDecision(Final(ds), ds, Blocking(ds), Warnings(ds))
  }

  // ----- persistence

  const MAX_DECISION_LOG: nat := 100

  datatype PolicyState = PolicyState(decisions: seq<CompositeDecision>, policyStates: map<string, Dict>)

  const NO_STATE := PolicyState([], map[])

  function Existing(e: Option<PolicyState>): PolicyState {
    if e.Some? then e.value else NO_STATE
  }

  function LastOf<T>(xs: seq<T>, n: nat): seq<T> {
    if |xs| <= n then xs else xs[|xs| - n..]
  }

  function StateUpdate(result: CompositeDecision, collected: map<string, Dict>,
      existing: Option<PolicyState>): PolicyState {
    var e := Existing(existing);
    PolicyState(LastOf(e.decisions + [result], MAX_DECISION_LOG), e.policyStates + collected)
  }
}
