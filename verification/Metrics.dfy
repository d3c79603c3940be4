/** Request metrics of one proxy: counters kept in step by every recorded request. */
module Metrics {
  import opened Wrappers

  datatype Request = Request(
    tier: string, model: string,
    input: int, output: int, cached: int,
    latency: real, streaming: bool, failed: bool,
    errorType: Option<string>, at: string)

  datatype Tokens = Tokens(input: int, output: int, cached: int, latency: real, count: int)

  const NONE := Tokens(0, 0, 0, 0.0, 0)

  function Plus(t: Tokens, r: Request): Tokens {
    Tokens(t.input + r.input, t.output + r.output, t.cached + r.cached, t.latency + r.latency, t.count + 1)
  }

  function Counted(m: map<string, int>, key: string): map<string, int> {
    m[key := (if key in m then m[key] else 0) + 1]
  }

  function Credited(m: map<string, Tokens>, key: string, r: Request): map<string, Tokens> {
    m[key := Plus(if key in m then m[key] else NONE, r)]
  }

  datatype Totals = Totals(
    requests: int, streaming: int, failures: int,
    input: int, output: int, cached: int,
    failedInput: int, failedOutput: int,
    lastRequestAt: Option<string>)

  datatype Breakdown = Breakdown(counts: map<string, int>, tokens: map<string, Tokens>)

  datatype State = State(totals: Totals, byTier: Breakdown, byModel: Breakdown, failuresByType: map<string, int>)

  const ZERO_TOTALS := Totals(0, 0, 0, 0, 0, 0, 0, 0, None)

  const EMPTY := Breakdown(map[], map[])

  const ZERO := State(ZERO_TOTALS, EMPTY, EMPTY, map[])

  predicate Classified(r: Request) { r.failed && r.errorType.Some? && r.errorType.value != "" }

  function Totalled(t: Totals, r: Request): Totals {
    Totals(
      t.requests + 1, t.streaming + (if r.streaming then 1 else 0), t.failures + (if r.failed then 1 else 0),
      t.input + r.input, t.output + r.output, t.cached + r.cached,
      t.failedInput + (if r.failed then r.input else 0), t.failedOutput + (if r.failed then r.output else 0),
      Some(r.at))
  }

  function Entered(b: Breakdown, key: string, r: Request): Breakdown {
    Breakdown(Counted(b.counts, key), Credited(b.tokens, key, r))
  }

  function FailuresWith(m: map<string, int>, r: Request): map<string, int> {
    if Classified(r) then Counted(m, r.errorType.value) else m
  }

  function Recorded(s: State, r: Request): State {
    State(Totalled(s.totals, r), Entered(s.byTier, r.tier, r), Entered(s.byModel, r.model, r),
          FailuresWith(s.failuresByType, r))
  }

  // ----- the object

  class TierTokens {
    var inputTokens: int
    var outputTokens: int
    var cachedTokens: int
    var totalLatencyMs: real
    var requestCount: int

    constructor ()
      ensures Value() == NONE
    {
      inputTokens, outputTokens, cachedTokens, totalLatencyMs, requestCount := 0, 0, 0, 0.0, 0;
    }

    function Value(): Tokens
      reads this
    {
      Tokens(inputTokens, outputTokens, cachedTokens, totalLatencyMs, requestCount)
    }

    method Add(r: Request)
      modifies this
      ensures Value() == Plus(old(Value()), r)
    {
      inputTokens := inputTokens + r.input;
      outputTokens := outputTokens + r.output;
      cachedTokens := cachedTokens + r.cached;
      totalLatencyMs := totalLatencyMs + r.latency;
      requestCount := requestCount + 1;
    }
  }

  ghost function Values(m: map<string, TierTokens>): map<string, Tokens>
    reads m.Values
  {
    map k | k in m :: m[k].Value()
  }

  ghost predicate Distinct(m: map<string, TierTokens>) {
    forall j, k | j in m && k in m && j != k :: m[j] != m[k]
  }

  ghost predicate Apart(m: map<string, TierTokens>, n: map<string, TierTokens>) {
    forall j, k | j in m && k in n :: m[j] != n[k]
  }

  twostate predicate OldOrFresh(m: map<string, TierTokens>, new n: map<string, TierTokens>) {
    && (forall k | k in m :: k in n && n[k] == m[k])
    && (forall k | k in n && k !in m :: fresh(n[k]))
  }

  lemma Swapped(m: map<string, TierTokens>, n: map<string, TierTokens>)
    ensures Apart(m, n) <==> Apart(n, m)
  {
  }

  lemma OneApart(m: map<string, TierTokens>, n: map<string, TierTokens>, k: string)
    requires Apart(m, n)
    ensures k in m ==> m[k] !in n.Values
  {
  }

  /** Records added to one breakdown are none of the other's. */
  lemma StillApart(m: map<string, TierTokens>, n: map<string, TierTokens>, others: map<string, TierTokens>)
    requires Apart(m, others)
    requires forall k | k in n :: if k in m then n[k] == m[k] else n[k] !in others.Values
    ensures Apart(n, others) && Apart(others, n)
  {
  }

  lemma NoRecords(m: map<string, TierTokens>)
    requires m == map[]
    ensures Values(m) == map[] && Distinct(m) && m.Values == {}
  {
  }

  /** The record under a key, made on first use, takes one request. */
  method Credit(m: map<string, TierTokens>, key: string, r: Request) returns (n: map<string, TierTokens>)
    requires Distinct(m)
    modifies if key in m then {m[key]} else {}
    ensures Distinct(n) && Values(n) == Credited(old(Values(m)), key, r)
    ensures n.Keys == m.Keys + {key} && OldOrFresh(m, n)
  {
    hide Plus;
    n := m;
    if key !in n {
      var made := new TierTokens();
      n := n[key := made];
    }
    n[key].Add(r);
  }

  class ProxyMetrics {
    var totalRequests: int
    var totalStreaming: int
    var totalFailures: int
    var totalInputTokens: int
    var totalOutputTokens: int
    var totalCachedTokens: int
    var failedInputTokens: int
    var failedOutputTokens: int
    var requestsByTier: map<string, int>
    var tokensByTier: map<string, TierTokens>
    var requestsByModel: map<string, int>
    var tokensByModel: map<string, TierTokens>
    var failuresByType: map<string, int>
    var lastRequestAt: Option<string>

    ghost predicate Valid()
      reads `tokensByTier, `tokensByModel
    {
      Distinct(tokensByTier) && Distinct(tokensByModel) && Apart(tokensByTier, tokensByModel)
    }

    ghost function CurrentTotals(): Totals
      reads `totalRequests, `totalStreaming, `totalFailures, `totalInputTokens, `totalOutputTokens, `totalCachedTokens
      reads `failedInputTokens, `failedOutputTokens, `lastRequestAt
    {
      Totals(totalRequests, totalStreaming, totalFailures,
             totalInputTokens, totalOutputTokens, totalCachedTokens,
             failedInputTokens, failedOutputTokens, lastRequestAt)
    }

    ghost function ByTier(): Breakdown
      reads `requestsByTier, `tokensByTier, tokensByTier.Values
    {
      Breakdown(requestsByTier, Values(tokensByTier))
    }

    ghost function ByModel(): Breakdown
      reads `requestsByModel, `tokensByModel, tokensByModel.Values
    {
      Breakdown(requestsByModel, Values(tokensByModel))
    }

    ghost function Current(): State
      reads this, tokensByTier.Values, tokensByModel.Values
    {
      State(CurrentTotals(), ByTier(), ByModel(), failuresByType)
    }

    constructor ()
      ensures Valid() && Current() == ZERO
    {
      totalRequests, totalStreaming, totalFailures := 0, 0, 0;
      totalInputTokens, totalOutputTokens, totalCachedTokens, failedInputTokens, failedOutputTokens := 0, 0, 0, 0, 0;
      requestsByTier, tokensByTier, requestsByModel, tokensByModel := map[], map[], map[], map[];
      failuresByType, lastRequestAt := map[], None;
    }

    method RecordRequest(r: Request)
      requires Valid()
      modifies this, tokensByTier.Values, tokensByModel.Values
      ensures Valid()
      ensures OldOrFresh(old(tokensByTier), tokensByTier) && OldOrFresh(old(tokensByModel), tokensByModel)
      ensures Current() == Recorded(old(Current()), r)
    {
      hide Counted, Totalled, Entered, Valid, CurrentTotals, ByTier, ByModel;
      RecordTotals(r);
      RecordBreakdowns(r);
      RecordFailure(r);
    }

    method RecordBreakdowns(r: Request)
      requires Valid()
      modifies `requestsByTier, `tokensByTier, `requestsByModel, `tokensByModel, tokensByTier.Values,
        tokensByModel.Values
      ensures Valid()
      ensures OldOrFresh(old(tokensByTier), tokensByTier) && OldOrFresh(old(tokensByModel), tokensByModel)
      ensures ByTier() == Entered(old(ByTier()), r.tier, r) && ByModel() == Entered(old(ByModel()), r.model, r)
    {
      hide Entered, Valid, ByTier, ByModel;
      RecordTier(r);
      RecordModel(r);
    }

    method RecordFailure(r: Request)
      modifies `failuresByType
      ensures failuresByType == FailuresWith(old(failuresByType), r)
    {
      if r.failed && r.errorType.Some? && r.errorType.value != "" {
        failuresByType := Count(failuresByType, r.errorType.value);
      }
    }

    method RecordTotals(r: Request)
      modifies `totalRequests, `totalStreaming, `totalFailures, `totalInputTokens, `totalOutputTokens,
        `totalCachedTokens
      modifies `failedInputTokens, `failedOutputTokens, `lastRequestAt
      ensures CurrentTotals() == Totalled(old(CurrentTotals()), r)
    {
      totalRequests := totalRequests + 1;
      if r.streaming {
        totalStreaming := totalStreaming + 1;
      }
      totalInputTokens := totalInputTokens + r.input;
      totalOutputTokens := totalOutputTokens + r.output;
      totalCachedTokens := totalCachedTokens + r.cached;
      if r.failed {
        totalFailures := totalFailures + 1;
        failedInputTokens := failedInputTokens + r.input;
        failedOutputTokens := failedOutputTokens + r.output;
      }
      lastRequestAt := Some(r.at);
    }

    method RecordTier(r: Request)
      requires Valid()
      modifies `requestsByTier, `tokensByTier, tokensByTier.Values
      ensures Valid() && OldOrFresh(old(tokensByTier), tokensByTier)
      ensures ByTier() == Entered(old(ByTier()), r.tier, r) && ByModel() == old(ByModel())
    {
      hide Counted, Credited, Values, Distinct, Apart;
      requestsByTier := Count(requestsByTier, r.tier);
      assert r.tier in tokensByTier ==> tokensByTier[r.tier] in tokensByTier.Values;
      assert r.tier in tokensByTier ==> tokensByTier[r.tier] !in tokensByModel.Values by {
        OneApart(tokensByTier, tokensByModel, r.tier);
      }
      var tokens := Credit(tokensByTier, r.tier, r);
      assert Values(tokensByModel) == old(Values(tokensByModel));
      StillApart(tokensByTier, tokens, tokensByModel);
      tokensByTier := tokens;
    }

    method RecordModel(r: Request)
      requires Valid()
      modifies `requestsByModel, `tokensByModel, tokensByModel.Values
      ensures Valid() && OldOrFresh(old(tokensByModel), tokensByModel)
      ensures ByModel() == Entered(old(ByModel()), r.model, r) && ByTier() == old(ByTier())
    {
      hide Counted, Credited, Values, Distinct, Apart;
      requestsByModel := Count(requestsByModel, r.model);
      assert r.model in tokensByModel ==> tokensByModel[r.model] in tokensByModel.Values;
      assert Apart(tokensByModel, tokensByTier) by { Swapped(tokensByTier, tokensByModel); }
      assert r.model in tokensByModel ==> tokensByModel[r.model] !in tokensByTier.Values by {
        OneApart(tokensByModel, tokensByTier, r.model);
      }
      var tokens := Credit(tokensByModel, r.model, r);
      assert Values(tokensByTier) == old(Values(tokensByTier));
      StillApart(tokensByModel, tokens, tokensByTier);
      tokensByModel := tokens;
    }

    static method Count(m: map<string, int>, key: string) returns (n: map<string, int>)
      ensures n == Counted(m, key)
    {
      n := m[key := (if key in m then m[key] else 0) + 1];
    }

    method Reset()
      requires Valid()
      modifies this
      ensures Valid() && Current() == ZERO
    {
      hide Valid, CurrentTotals, ByTier, ByModel;
      ResetTotals();
      ResetBreakdowns();
      failuresByType := map[];
    }

    method ResetTotals()
      modifies `totalRequests, `totalStreaming, `totalFailures, `totalInputTokens, `totalOutputTokens,
        `totalCachedTokens
      modifies `failedInputTokens, `failedOutputTokens, `lastRequestAt
      ensures CurrentTotals() == ZERO_TOTALS
    {
      totalRequests, totalStreaming, totalFailures := 0, 0, 0;
      totalInputTokens, totalOutputTokens, totalCachedTokens := 0, 0, 0;
      failedInputTokens, failedOutputTokens := 0, 0;
      lastRequestAt := None;
    }

    method ResetBreakdowns()
      modifies `requestsByTier, `tokensByTier, `requestsByModel, `tokensByModel
      ensures Valid() && ByTier() == EMPTY && ByModel() == EMPTY
    {
      hide Values, Distinct;
      requestsByTier, tokensByTier, requestsByModel, tokensByModel := map[], map[], map[], map[];
      NoRecords(tokensByTier);
      NoRecords(tokensByModel);
    }
  }

  // ----- runs

  datatype Event = Record(r: Request) | Reset

  function Run(events: seq<Event>): State {
    if events == [] then ZERO else
    var before, e := Run(events[..|events| - 1]), events[|events| - 1];
    if e.Record? then Recorded(before, e.r) else ZERO
  }

  /** The requests recorded since the last reset. */
  function Since(events: seq<Event>): seq<Request> {
    if events == [] then [] else
    var before, e := Since(events[..|events| - 1]), events[|events| - 1];
    if e.Record? then before + [e.r] else []
  }

  /** How requests are broken down; a request without a key is not counted. */
  datatype Axis = ByTier | ByModel | ByType | ByFailure | ByStreaming

  function KeyOf(axis: Axis, r: Request): Option<string> {
    match axis
    case ByTier => Some(r.tier)
    case ByModel => Some(r.model)
    case ByType => if Classified(r) then r.errorType else None
    case ByFailure => if r.failed then Some("") else None
    case ByStreaming => if r.streaming then Some("") else None
  }

  function Of(axis: Axis, rs: seq<Request>, key: string): seq<Request> {
    if rs == [] then [] else
    var n := |rs| - 1;
    Of(axis, rs[..n], key) + if KeyOf(axis, rs[n]) == Some(key) then [rs[n]] else []
  }

  function Tally(rs: seq<Request>): Tokens {
    if rs == [] then NONE else Plus(Tally(rs[..|rs| - 1]), rs[|rs| - 1])
  }

  lemma OfSnoc(axis: Axis, rs: seq<Request>, r: Request, key: string)
    ensures Of(axis, rs + [r], key)
         == if KeyOf(axis, r) == Some(key) then Of(axis, rs, key) + [r] else Of(axis, rs, key)
  {
    assert (rs + [r])[..|rs|] == rs;
  }

  lemma TallySnoc(rs: seq<Request>, r: Request)
    ensures Tally(rs + [r]) == Plus(Tally(rs), r)
  {
    assert (rs + [r])[..|rs|] == rs;
  }

  /** The totals speak of exactly these requests. */
  predicate TotalsOf(s: Totals, rs: seq<Request>) {
    && s.requests == |rs| && s.streaming == |Of(ByStreaming, rs, "")| && s.failures == |Of(ByFailure, rs, "")|
    && s.input == Tally(rs).input && s.output == Tally(rs).output && s.cached == Tally(rs).cached
    && s.failedInput == Tally(Of(ByFailure, rs, "")).input && s.failedOutput == Tally(Of(ByFailure, rs, "")).output
    && s.lastRequestAt == if rs == [] then None else Some(rs[|rs| - 1].at)
  }

  /** A count for each key that occurs, and no other. */
  ghost predicate CountsOf(counts: map<string, int>, axis: Axis, rs: seq<Request>) {
    && (forall k :: k in counts <==> Of(axis, rs, k) != [])
    && (forall k | k in counts :: counts[k] == |Of(axis, rs, k)|)
  }

  ghost predicate TokensOf(tokens: map<string, Tokens>, axis: Axis, rs: seq<Request>) {
    && (forall k :: k in tokens <==> Of(axis, rs, k) != [])
    && (forall k | k in tokens :: tokens[k] == Tally(Of(axis, rs, k)))
  }

  ghost predicate Exact(s: State, rs: seq<Request>) {
    && TotalsOf(s.totals, rs)
    && CountsOf(s.byTier.counts, ByTier, rs) && TokensOf(s.byTier.tokens, ByTier, rs)
    && CountsOf(s.byModel.counts, ByModel, rs) && TokensOf(s.byModel.tokens, ByModel, rs)
    && CountsOf(s.failuresByType, ByType, rs)
  }

  lemma TotalsStep(s: Totals, rs: seq<Request>, r: Request)
    requires TotalsOf(s, rs)
    ensures TotalsOf(Totalled(s, r), rs + [r])
  {
    OfSnoc(ByFailure, rs, r, "");
    OfSnoc(ByStreaming, rs, r, "");
    TallySnoc(rs, r);
    TallySnoc(Of(ByFailure, rs, ""), r);
    hide Of, Tally, Counted, Credited;
  }

  lemma CountsStep(counts: map<string, int>, axis: Axis, rs: seq<Request>, r: Request)
    requires CountsOf(counts, axis, rs)
    ensures CountsOf(if KeyOf(axis, r).Some? then Counted(counts, KeyOf(axis, r).value) else counts, axis, rs + [r])
  {
    hide Of, KeyOf;
    forall k
      ensures Of(axis, rs + [r], k) == if KeyOf(axis, r) == Some(k) then Of(axis, rs, k) + [r] else Of(axis, rs, k)
    {
      OfSnoc(axis, rs, r, k);
    }
  }

  lemma TokensAt(tokens: map<string, Tokens>, axis: Axis, rs: seq<Request>, r: Request, key: string, k: string)
    requires TokensOf(tokens, axis, rs) && KeyOf(axis, r) == Some(key)
    ensures k in Credited(tokens, key, r) <==> Of(axis, rs + [r], k) != []
    ensures k in Credited(tokens, key, r) ==> Credited(tokens, key, r)[k] == Tally(Of(axis, rs + [r], k))
  {
    OfSnoc(axis, rs, r, k);
    if k == key {
      TallySnoc(Of(axis, rs, k), r);
      if Of(axis, rs, k) == [] { EmptyTally(Of(axis, rs, k)); }
    }
    hide Of, KeyOf, Tally, Plus;
  }

  lemma TokensStep(tokens: map<string, Tokens>, axis: Axis, rs: seq<Request>, r: Request)
    requires TokensOf(tokens, axis, rs) && KeyOf(axis, r).Some?
    ensures TokensOf(Credited(tokens, KeyOf(axis, r).value, r), axis, rs + [r])
  {
    hide Of, KeyOf, Tally, Credited;
    forall k
      ensures k in Credited(tokens, KeyOf(axis, r).value, r) <==> Of(axis, rs + [r], k) != []
      ensures k in Credited(tokens, KeyOf(axis, r).value, r)
        ==> Credited(tokens, KeyOf(axis, r).value, r)[k] == Tally(Of(axis, rs + [r], k))
    {
      TokensAt(tokens, axis, rs, r, KeyOf(axis, r).value, k);
    }
  }

  lemma EmptyTally(rs: seq<Request>)
    requires rs == []
    ensures Tally(rs) == NONE
  {
  }

  lemma ExactStep(s: State, rs: seq<Request>, r: Request)
    requires Exact(s, rs)
    ensures Exact(Recorded(s, r), rs + [r])
  {
    hide TotalsOf, CountsOf, TokensOf, Counted, Credited, Totalled;
    TotalsStep(s.totals, rs, r);
    CountsStep(s.byTier.counts, ByTier, rs, r);
    CountsStep(s.byModel.counts, ByModel, rs, r);
    CountsStep(s.failuresByType, ByType, rs, r);
    TokensStep(s.byTier.tokens, ByTier, rs, r);
    TokensStep(s.byModel.tokens, ByModel, rs, r);
  }

  lemma NothingIsExact(rs: seq<Request>)
    requires rs == []
    ensures Exact(ZERO, rs)
  {
    assert forall axis, k :: Of(axis, rs, k) == [];
    EmptyTally(rs);
    hide Of, Tally;
  }

  /** After any run, every counter says what the requests since the last reset say. */
  lemma {:induction false} MetricsAreExact(events: seq<Event>)
    ensures Exact(Run(events), Since(events))
  {
    hide Exact;
    NothingIsExact([]);
    if events != [] {
      var n := |events| - 1;
      MetricsAreExact(events[..n]);
      if events[n].Record? {
        ExactStep(Run(events[..n]), Since(events[..n]), events[n].r);
      }
      hide Recorded;
    }
  }

  /** A request belongs to a key of a breakdown. */
  predicate Belongs(axis: Axis, r: Request, key: string) {
    match axis
    case ByTier => r.tier == key
    case ByModel => r.model == key
    case ByType => r.failed && r.errorType == Some(key) && key != ""
    case ByFailure => r.failed && key == ""
    case ByStreaming => r.streaming && key == ""
  }

  /** What is counted under a key are the requests that belong to it, each as often as it was recorded. */
  lemma {:induction false} OfBelongs(axis: Axis, rs: seq<Request>, key: string, r: Request)
    ensures multiset(Of(axis, rs, key))[r] == if Belongs(axis, r, key) then multiset(rs)[r] else 0
  {
    if rs != [] {
      var n := |rs| - 1;
      OfBelongs(axis, rs[..n], key, r);
      assert rs == rs[..n] + [rs[n]];
    }
  }

  /** A tally adds up every figure of its requests and counts them. */
  lemma {:induction false} TallyAdds(a: seq<Request>, r: Request, b: seq<Request>)
    ensures var all, rest := Tally(a + [r] + b), Tally(a + b);
      && all.input == rest.input + r.input && all.output == rest.output + r.output
      && all.cached == rest.cached + r.cached && all.latency == rest.latency + r.latency
      && all.count == rest.count + 1 == |a| + |b| + 1
    decreases b
  {
    if b == [] {
      assert a + b == a && a + [r] + b == a + [r];
      TallySnoc(a, r);
      TallyCounts(a);
    } else {
      var n := |b| - 1;
      TallyAdds(a, r, b[..n]);
      assert a + b == (a + b[..n]) + [b[n]] && a + [r] + b == (a + [r] + b[..n]) + [b[n]];
      TallySnoc(a + b[..n], b[n]);
      TallySnoc(a + [r] + b[..n], b[n]);
    }
  }

  lemma {:induction false} TallyCounts(rs: seq<Request>)
    ensures Tally(rs).count == |rs|
  {
    if rs != [] { TallyCounts(rs[..|rs| - 1]); }
  }

  // ----- conservation

  ghost function Sum<T>(m: map<string, T>, f: T -> int): int
    decreases |m|
  {
    if m == map[] then 0 else
    var k :| k in m;
    f(m[k]) + Sum(m - {k}, f)
  }

  lemma {:induction false} SumWithout<T>(m: map<string, T>, f: T -> int, k: string)
    requires k in m
    ensures Sum(m, f) == f(m[k]) + Sum(m - {k}, f)
    decreases |m|
  {
    var j :| j in m && Sum(m, f) == f(m[j]) + Sum(m - {j}, f);
    if j != k {
      assert m - {j} - {k} == m - {k} - {j};
      SumWithout(m - {j}, f, k);
      SumWithout(m - {k}, f, j);
    }
  }

  lemma SumUpdate<T>(m: map<string, T>, f: T -> int, k: string, v: T)
    ensures Sum(m[k := v], f) == Sum(m, f) + f(v) - if k in m then f(m[k]) else 0
  {
    var n := m[k := v];
    SumWithout(n, f, k);
    if k in m {
      SumWithout(m, f, k);
      assert n - {k} == m - {k};
    } else {
      assert n - {k} == m;
    }
  }

  function Id(n: int): int { n }

  ghost predicate SumsTo(t: Totals, b: Breakdown) {
    && Sum(b.counts, Id) == t.requests
    && Sum(b.tokens, (t: Tokens) => t.input) == t.input
    && Sum(b.tokens, (t: Tokens) => t.output) == t.output
    && Sum(b.tokens, (t: Tokens) => t.cached) == t.cached
  }

  /** Each key's request count is the one in its token record. */
  predicate Balanced(b: Breakdown) {
    && b.counts.Keys == b.tokens.Keys
    && (forall k | k in b.counts :: b.counts[k] == b.tokens[k].count)
  }

  ghost predicate Conserved(s: State) {
    && SumsTo(s.totals, s.byTier) && Balanced(s.byTier)
    && SumsTo(s.totals, s.byModel) && Balanced(s.byModel)
    && Sum(s.failuresByType, Id) <= s.totals.failures <= s.totals.requests
  }

  lemma SumsStep(t: Totals, b: Breakdown, key: string, r: Request)
    requires Balanced(b) && SumsTo(t, b)
    ensures SumsTo(Totalled(t, r), Entered(b, key, r)) && Balanced(Entered(b, key, r))
  {
    var tokens := Plus(if key in b.tokens then b.tokens[key] else NONE, r);
    SumUpdate(b.counts, Id, key, (if key in b.counts then b.counts[key] else 0) + 1);
    SumUpdate(b.tokens, (t: Tokens) => t.input, key, tokens);
    SumUpdate(b.tokens, (t: Tokens) => t.output, key, tokens);
    SumUpdate(b.tokens, (t: Tokens) => t.cached, key, tokens);
  }

  lemma ConservedStep(s: State, r: Request)
    requires Conserved(s)
    ensures Conserved(Recorded(s, r))
  {
    hide SumsTo, Balanced, Entered;
    SumsStep(s.totals, s.byTier, r.tier, r);
    SumsStep(s.totals, s.byModel, r.model, r);
    if Classified(r) {
      var e, m := r.errorType.value, s.failuresByType;
      SumUpdate(m, Id, e, (if e in m then m[e] else 0) + 1);
    }
  }

  /** After any run the totals are the sums over the tiers and over the models, and the counts agree with the token
      records. */
  lemma {:induction false} EveryRunConserves(events: seq<Event>)
    ensures Conserved(Run(events))
  {
    if events == [] {
    } else {
      var n := |events| - 1;
      EveryRunConserves(events[..n]);
      if events[n].Record? {
        ConservedStep(Run(events[..n]), events[n].r);
      }
    }
  }

  predicate NonNegative(r: Request) { r.input >= 0 && r.output >= 0 && r.cached >= 0 }

  /** With non-negative inputs the failed tokens never exceed the totals. */
  lemma {:induction false} FailedWithinTotals(events: seq<Event>)
    requires forall e | e in events && e.Record? :: NonNegative(e.r)
    ensures var t := Run(events).totals; 0 <= t.failedInput <= t.input && 0 <= t.failedOutput <= t.output
  {
    if events != [] {
      FailedWithinTotals(events[..|events| - 1]);
      assert events[|events| - 1] in events;
    }
  }
}
