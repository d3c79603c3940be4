/** The tier-aware client cache: a double-checked cache with a time to live, used by many tasks. */
module ClientCache {
  import opened Attempts
  import opened Wrappers

  datatype Key = Key(model: string, tier: string)

  datatype Client = Client(model: string, tier: string, maxTokens: int)

  datatype Cached = Cached(client: Client, fetchTime: real)

  type Cache = map<Key, Cached>

  const DEFAULT_TIER: string := "sonnet"

  /** The tier in the cache key: the caller's, else the one its model is configured for, else a default. */
  function ResolveTier(tier: Option<string>, detected: Option<string>): string {
    if tier.Some? then tier.value else if detected.Some? && detected.value != "" then detected.value else DEFAULT_TIER
  }

  /** The catalog's limit is a hard cap: without a request it is used, above it or without a model there is no
      client. */
  method EnforceMaxOutputTokensCap(caps: map<string, int>, model: string, requested: Option<int>)
      returns (r: Attempt<int>)
    ensures r.Returned? <==> model in caps && (requested.Some? ==> requested.value <= caps[model])
    ensures r.Returned? ==>
      r.value <= caps[model] && r.value == if requested.Some? then requested.value else caps[model]
    ensures r == EnforcedCap(caps, model, requested)
  {
    if model !in caps {
      return Raised;
    }
    var cap := caps[model];
    if requested.None? {
      return Returned(cap);
    }
    if requested.value > cap {
      return Raised;
    }
    return Returned(requested.value);
  }

  function EnforcedCap(caps: map<string, int>, model: string, requested: Option<int>): Attempt<int> {
    if model !in caps then Raised
    else if requested.None? then Returned(caps[model])
    else if requested.value > caps[model] then Raised
    else Returned(requested.value)
  }

  /** A client of the right kind, within the catalog. */
  predicate Fits(caps: map<string, int>, key: Key, c: Client) {
    c.model == key.model && c.tier == key.tier && key.model in caps && c.maxTokens <= caps[key.model]
  }

  predicate Young(cache: Cache, key: Key, now: real, ttl: real) {
    key in cache && now - cache[key].fetchTime < ttl
  }

  /** One whole call with nobody else around, and the four times it looks at the clock. */
  function Alone(caps: map<string, int>, cache: Cache, key: Key, requested: Option<int>,
                 ttl: real, t0: real, t1: real, t2: real): (Cache, Attempt<Client>) {
    if Young(cache, key, t0, ttl) then (cache, Returned(cache[key].client))
    else if Young(cache, key, t1, ttl) then (cache, Returned(cache[key].client))
    else
      match EnforcedCap(caps, key.model, requested)
      case Raised => (cache, Raised)
      case Returned(n) =>
        var client := Client(key.model, key.tier, n);
        (cache[key := Cached(client, t2)], Returned(client))
  }

  /** From a cache whose clients fit their keys, a call gives the caller a client of the model and tier asked for: the
      caller's own tier, else the one configured for the model, else the default. */
  lemma CallersTierWins(caps: map<string, int>, cache: Cache, model: string, tier: Option<string>,
      detected: Option<string>, requested: Option<int>, ttl: real, t0: real, t1: real, t2: real)
    requires forall k | k in cache :: cache[k].client.model == k.model && cache[k].client.tier == k.tier
    ensures var r := Alone(caps, cache, Key(model, ResolveTier(tier, detected)), requested, ttl, t0, t1, t2).1;
      r.Returned? ==>
        && r.value.model == model
        && match (tier, detected)
           case (Some(t), _) => r.value.tier == t
           case (None, Some(d)) => r.value.tier == if d != "" then d else "sonnet"
           case (None, None) => r.value.tier == "sonnet"
  {
  }

  /** A client younger than the time to live is answered from the cache, whatever the catalog says; an older one, or
      none, leads to a new client or a refusal. */
  lemma YoungIsServed(caps: map<string, int>, cache: Cache, key: Key, requested: Option<int>, ttl: real, now: real)
    ensures var (after, r) := Alone(caps, cache, key, requested, ttl, now, now, now);
      if key in cache && now - cache[key].fetchTime < ttl then after == cache && r == Returned(cache[key].client)
      else r.Returned? ==> key in after && after[key] == Cached(r.value, now)
  {
  }

  class TierClientFactory {
    const caps: map<string, int>
    const ttl: real
    var cache: Cache

    constructor (caps: map<string, int>, ttl: real)
      ensures this.caps == caps && this.ttl == ttl && cache == map[]
    {
      this.caps, this.ttl, this.cache := caps, ttl, map[];
    }

    method GetClient(model: string, tier: Option<string>, detected: Option<string>, requested: Option<int>,
                     t0: real, t1: real, t2: real)
      returns (r: Attempt<Client>)
      modifies this`cache
      ensures (cache, r) == Alone(caps, old(cache), Key(model, ResolveTier(tier, detected)), requested, ttl, t0, t1, t2)
      ensures r.Raised? ==> cache == old(cache)
    {
      var resolved := DEFAULT_TIER;
      if tier.Some? {
        resolved := tier.value;
      } else if detected.Some? && detected.value != "" {
        resolved := detected.value;
      }
      var key := Key(model, resolved);
      if key in cache {
        var entry := cache[key];
        if t0 - entry.fetchTime < ttl {
          return Returned(entry.client);
        }
      }
      if key in cache {
        var entry := cache[key];
        if t1 - entry.fetchTime < ttl {
          return Returned(entry.client);
        }
      }
      var maxTokens := EnforceMaxOutputTokensCap(caps, model, requested);
      if maxTokens.Raised? {
        return Raised;
      }
      var client := Client(model, key.tier, maxTokens.value);
      cache := cache[key := Cached(client, t2)];
      return Returned(client);
    }

    method ClearCache()
      modifies this`cache
      ensures cache == map[]
    {
      cache := map[];
    }
  }

  // ----- many tasks

  datatype Phase =
    | Idle
    | Waiting(key: Key)
    | Inside(key: Key)
    | Missed(key: Key, checkedAt: real, era: nat)
    | Built(key: Key, checkedAt: real, era: nat, client: Client)
    /** Invalidation, waiting inside the lock for the lock. */
    | Stuck

  /** One construction: when the cache was last found wanting, when the client went in, and in which eras (clearings
      so far). */
  datatype Construction = Construction(key: Key, checkedAt: real, checkedIn: nat, storedAt: real, storedIn: nat)

  /** What a call gave back; a client from the cache comes with its age at the check. */
  datatype Answer = FromCache(key: Key, client: Client, age: real) | Fresh(key: Key, client: Client) | Refused(key: Key)

  datatype System = System(
    caps: map<string, int>,
    ttl: real,
    now: real,
    cache: Cache,
    era: nat,
    holder: Option<nat>,
    phases: map<nat, Phase>,
    built: seq<Construction>,
    answers: seq<Answer>)
  {
    function PhaseOf(i: nat): Phase { if i in phases then phases[i] else Idle }

    function At(i: nat, p: Phase): System { this.(phases := phases[i := p]) }

    function Answers(a: Answer): System { this.(answers := answers + [a]) }
  }

  datatype Step =
    | Tick(d: real)
    | Call(i: nat, key: Key)
    | Acquire(i: nat)
    | Recheck(i: nat)
    | Build(i: nat, requested: Option<int>)
    | Store(i: nat)
    | Clear
    | Invalidate(i: nat, model: string, tier: Option<string>)

  predicate Hit(s: System, key: Key) { Young(s.cache, key, s.now, s.ttl) }

  function Answered(s: System, key: Key): Answer
    requires Hit(s, key)
  {
    FromCache(key, s.cache[key].client, s.now - s.cache[key].fetchTime)
  }

  predicate Dropped(k: Key, model: string, tier: Option<string>) {
    k.model == model && (tier.Some? ==> k.tier == tier.value)
  }

  /** One step; a step that is not enabled changes nothing. */
  function Apply(s: System, step: Step): System {
    match step
    case Tick(d) => if d >= 0.0 then s.(now := s.now + d) else s
    case Call(i, key) =>
      if !s.PhaseOf(i).Idle? then s
      else if Hit(s, key) then s.Answers(Answered(s, key))
      else s.At(i, Waiting(key))
    case Acquire(i) =>
      if s.PhaseOf(i).Waiting? && s.holder.None? then s.At(i, Inside(s.PhaseOf(i).key)).(holder := Some(i)) else s
    case Recheck(i) =>
      if !s.PhaseOf(i).Inside? then s
      else
        var key := s.PhaseOf(i).key;
        if Hit(s, key) then s.At(i, Idle).(holder := None).Answers(Answered(s, key))
        else s.At(i, Missed(key, s.now, s.era))
    case Build(i, requested) =>
      (match s.PhaseOf(i)
       case Missed(key, t, era) =>
         (match EnforcedCap(s.caps, key.model, requested)
          case Raised => s.At(i, Idle).(holder := None).Answers(Refused(key))
          case Returned(n) => s.At(i, Built(key, t, era, Client(key.model, key.tier, n))))
       case _ => s)
    case Store(i) =>
      (match s.PhaseOf(i)
       case Built(key, t, era, client) =>
         s.At(i, Idle).(holder := None,
                        cache := s.cache[key := Cached(client, s.now)],
                        built := s.built + [Construction(key, t, era, s.now, s.era)],
                        answers := s.answers + [Fresh(key, client)])
       case _ => s)
    case Clear => s.(cache := map[], era := s.era + 1)
    case Invalidate(i, model, tier) =>
      if s.PhaseOf(i).Idle? && s.holder.None? then
        s.At(i, Stuck).(holder := Some(i), era := s.era + 1,
                        cache := map k | k in s.cache && !Dropped(k, model, tier) :: s.cache[k])
      else s
  }

  function Run(s: System, steps: seq<Step>): System {
    if steps == [] then s else Apply(Run(s, steps[..|steps| - 1]), steps[|steps| - 1])
  }

  function Start(caps: map<string, int>, ttl: real, now: real): System {
    System(caps, ttl, now, map[], 0, None, map[], [], [])
  }

  // ----- invariants

  predicate Holding(p: Phase) { p.Inside? || p.Missed? || p.Built? || p.Stuck? }

  predicate LockIsExclusive(s: System) {
    && (forall i | i in s.phases :: Holding(s.phases[i]) ==> s.holder == Some(i))
    && (s.holder.Some? ==> Holding(s.PhaseOf(s.holder.value)))
  }

  predicate CacheFits(s: System) {
    && (forall k | k in s.cache :: Fits(s.caps, k, s.cache[k].client) && s.cache[k].fetchTime <= s.now)
    && (forall i | i in s.phases && s.phases[i].Built? :: Fits(s.caps, s.phases[i].key, s.phases[i].client))
  }

  predicate AnswerFits(s: System, a: Answer) {
    match a
    case FromCache(k, c, age) => Fits(s.caps, k, c) && age < s.ttl
    case Fresh(k, c) => Fits(s.caps, k, c)
    case Refused(_) => true
  }

  predicate AnswersFit(s: System) { forall a | a in s.answers :: AnswerFits(s, a) }

  /** What was built for a key in this era is in the cache, or older than what is. */
  predicate BuiltIsCached(s: System) {
    forall b | b in s.built && b.storedIn == s.era ::
      b.key in s.cache && b.storedAt <= s.cache[b.key].fetchTime
  }

  predicate StoredBefore(s: System) { forall b | b in s.built :: b.storedIn <= s.era }

  /** A task that found nothing young for its key: everything built for it in that era was a time-to-live old. */
  predicate MissIsOld(s: System, key: Key, checkedAt: real, era: nat) {
    && era <= s.era
    && forall b | b in s.built && b.key == key && b.storedIn == era :: checkedAt - b.storedAt >= s.ttl
  }

  predicate MissesAreOld(s: System) {
    forall i | i in s.phases && (s.phases[i].Missed? || s.phases[i].Built?) ::
      MissIsOld(s, s.phases[i].key, s.phases[i].checkedAt, s.phases[i].era)
  }

  predicate Apart(s: System) {
    forall j, k | 0 <= j < k < |s.built| && s.built[j].key == s.built[k].key
      && s.built[j].storedIn == s.built[k].checkedIn ::
      s.built[k].checkedAt - s.built[j].storedAt >= s.ttl
  }

  predicate Inv(s: System) {
    LockIsExclusive(s) && CacheFits(s) && AnswersFit(s) && BuiltIsCached(s) && StoredBefore(s) && MissesAreOld(s)
      && Apart(s)
  }

  lemma StepKeepsLock(s: System, step: Step)
    requires LockIsExclusive(s)
    ensures LockIsExclusive(Apply(s, step))
  {
    hide Hit, EnforcedCap;
  }

  lemma StepKeepsCacheFit(s: System, step: Step)
    requires CacheFits(s)
    ensures CacheFits(Apply(s, step))
  {
    hide Hit;
  }

  lemma StepKeepsAnswersFit(s: System, step: Step)
    requires CacheFits(s) && AnswersFit(s)
    ensures AnswersFit(Apply(s, step))
  {
    hide EnforcedCap, Fits;
  }

  lemma StepKeepsBuilt(s: System, step: Step)
    requires CacheFits(s) && BuiltIsCached(s) && StoredBefore(s)
    ensures BuiltIsCached(Apply(s, step)) && StoredBefore(Apply(s, step))
  {
    hide Hit, EnforcedCap, Fits;
  }

  lemma RecheckFindsOld(s: System, key: Key)
    requires BuiltIsCached(s) && !Hit(s, key)
    ensures MissIsOld(s, key, s.now, s.era)
  {
  }

  lemma StepKeepsMisses(s: System, step: Step)
    requires Inv(s)
    ensures MissesAreOld(Apply(s, step))
  {
    hide CacheFits, AnswersFit, Apart, EnforcedCap, Hit, BuiltIsCached, StoredBefore;
    if step.Recheck? && s.PhaseOf(step.i).Inside? && !Hit(s, s.PhaseOf(step.i).key) {
      RecheckFindsOld(s, s.PhaseOf(step.i).key);
    }
  }

  lemma StepKeepsApart(s: System, step: Step)
    requires Inv(s)
    ensures Apart(Apply(s, step))
  {
    hide CacheFits, AnswersFit, LockIsExclusive, EnforcedCap, Hit, BuiltIsCached, StoredBefore;
    if step.Store? && s.PhaseOf(step.i).Built? {
      var p := s.PhaseOf(step.i);
      assert MissIsOld(s, p.key, p.checkedAt, p.era);
      assert forall j | 0 <= j < |s.built| :: s.built[j] in s.built;
    }
  }

  lemma StepKeepsInv(s: System, step: Step)
    requires Inv(s)
    ensures Inv(Apply(s, step))
  {
    StepKeepsLock(s, step);
    StepKeepsCacheFit(s, step);
    StepKeepsAnswersFit(s, step);
    StepKeepsBuilt(s, step);
    StepKeepsMisses(s, step);
    StepKeepsApart(s, step);
    hide LockIsExclusive, CacheFits, AnswersFit, BuiltIsCached, StoredBefore, MissesAreOld, Apart, Apply;
  }

  lemma StepKeepsSettings(s: System, step: Step)
    ensures Apply(s, step).caps == s.caps && Apply(s, step).ttl == s.ttl
  {
    hide Hit, EnforcedCap;
  }

  lemma {:induction false} RunKeepsInv(s: System, steps: seq<Step>)
    requires Inv(s)
    ensures Inv(Run(s, steps)) && Run(s, steps).caps == s.caps && Run(s, steps).ttl == s.ttl
  {
    hide Inv, Apply;
    if steps != [] {
      StepKeepsSettings(Run(s, steps[..|steps| - 1]), steps[|steps| - 1]);
      RunKeepsInv(s, steps[..|steps| - 1]);
      StepKeepsInv(Run(s, steps[..|steps| - 1]), steps[|steps| - 1]);
    }
  }

  /** In every interleaving: entries fit their keys and the catalog, cached answers are younger than the time to
      live, and rebuilding waits that long. */
  lemma EveryRunIsSafe(caps: map<string, int>, ttl: real, now: real, steps: seq<Step>)
    ensures var s := Run(Start(caps, ttl, now), steps);
            && (forall k | k in s.cache :: Fits(caps, k, s.cache[k].client))
            && (forall a | a in s.answers && a.FromCache? :: Fits(caps, a.key, a.client) && a.age < ttl)
            && (forall a | a in s.answers && a.Fresh? :: Fits(caps, a.key, a.client))
            && (forall j, k | 0 <= j < k < |s.built| && s.built[j].key == s.built[k].key
              && s.built[j].storedIn == s.built[k].checkedIn ::
                  s.built[k].checkedAt - s.built[j].storedAt >= ttl)
  {
    hide Run, Fits;
    RunKeepsInv(Start(caps, ttl, now), steps);
    var s := Run(Start(caps, ttl, now), steps);
    assert forall a | a in s.answers :: AnswerFits(s, a);
  }

  /** The history agrees with the clock: a client is stored no earlier than the check that found none, after the start
      and never in the future. */
  predicate TimesInOrder(s: System, start: real) {
    && start <= s.now
    && (forall i | i in s.phases && (s.phases[i].Missed? || s.phases[i].Built?) ::
          start <= s.phases[i].checkedAt <= s.now)
    && (forall b | b in s.built :: start <= b.checkedAt <= b.storedAt <= s.now)
  }

  lemma StepKeepsTimes(s: System, step: Step, start: real)
    requires TimesInOrder(s, start)
    ensures TimesInOrder(Apply(s, step), start)
  {
    hide Hit, EnforcedCap;
  }

  lemma {:induction false} RunKeepsTimes(s: System, steps: seq<Step>, start: real)
    requires TimesInOrder(s, start)
    ensures TimesInOrder(Run(s, steps), start)
  {
    hide TimesInOrder, Apply;
    if steps != [] {
      RunKeepsTimes(s, steps[..|steps| - 1], start);
      StepKeepsTimes(Run(s, steps[..|steps| - 1]), steps[|steps| - 1], start);
    }
  }

  /** In every interleaving, two clients of one key between which nothing was cleared are stored at least a time to
      live apart. */
  lemma ConstructionsAreSpaced(caps: map<string, int>, ttl: real, now: real, steps: seq<Step>)
    ensures var s := Run(Start(caps, ttl, now), steps);
            && s.now >= now
            && forall j, k | 0 <= j < k < |s.built| && s.built[j].key == s.built[k].key
                 && s.built[j].storedIn == s.built[k].checkedIn ::
                 now <= s.built[j].storedAt && s.built[j].storedAt + ttl <= s.built[k].storedAt <= s.now
  {
    hide Run;
    EveryRunIsSafe(caps, ttl, now, steps);
    RunKeepsTimes(Start(caps, ttl, now), steps, now);
  }

  /** A refused construction leaves the cache, and the record of what was built, as they were. */
  lemma RefusalChangesNothing(s: System, i: nat, requested: Option<int>)
    requires s.PhaseOf(i).Missed?
    ensures Apply(s, Build(i, requested)).cache == s.cache && Apply(s, Build(i, requested)).built == s.built
    ensures Apply(s, Build(i, requested)).PhaseOf(i).Idle?
       <==> s.PhaseOf(i).key.model !in s.caps || (requested.Some? && requested.value > s.caps[s.PhaseOf(i).key.model])
  {
  }

  /** Invalidation asks for the lock it holds: from then on nothing is ever built again, and only what is cached is
      answered. */
  lemma {:induction false} InvalidationBlocks(s: System, i: nat, steps: seq<Step>)
    requires LockIsExclusive(s) && s.PhaseOf(i).Stuck?
    ensures var r := Run(s, steps);
            && LockIsExclusive(r) && r.PhaseOf(i).Stuck?
            && r.built == s.built
            && s.answers <= r.answers && (forall k | |s.answers| <= k < |r.answers| :: r.answers[k].FromCache?)
  {
    if steps != [] {
      var n := |steps| - 1;
      InvalidationBlocks(s, i, steps[..n]);
      StepKeepsLock(Run(s, steps[..n]), steps[n]);
      StuckStep(Run(s, steps[..n]), i, steps[n]);
      hide Apply;
    }
  }

  lemma StuckStep(s: System, i: nat, step: Step)
    requires LockIsExclusive(s) && s.PhaseOf(i).Stuck?
    ensures var r := Apply(s, step);
            && r.PhaseOf(i).Stuck? && r.built == s.built
            && (r.answers == s.answers || exists a: Answer :: a.FromCache? && r.answers == s.answers + [a])
  {
    hide Hit, EnforcedCap;
    if step.Call? && Hit(s, step.key) {
      assert Answered(s, step.key).FromCache?;
    }
  }

  /** Invalidating a model drops its clients of the given tier, or of every tier, and no other. */
  lemma InvalidationDrops(s: System, i: nat, model: string, tier: Option<string>, k: Key)
    requires s.PhaseOf(i).Idle? && s.holder.None?
    ensures var r := Apply(s, Invalidate(i, model, tier));
      && (k in r.cache <==>
            k in s.cache && !(k.model == model && match tier case None => true case Some(t) => k.tier == t))
      && (k in r.cache ==> r.cache[k] == s.cache[k])
  {
  }

  /** A task left alone does in steps what one call does. */
  lemma AloneIsItsSteps(s: System, i: nat, key: Key, requested: Option<int>, wait: real, work: real)
    requires s.PhaseOf(i).Idle? && s.holder.None? && wait >= 0.0 && work >= 0.0
    ensures var hit := Apply(s, Call(i, key));
            var r := if hit.PhaseOf(i).Idle? then hit
                     else
                       var missed := Apply(Apply(Apply(hit, Tick(wait)), Acquire(i)), Recheck(i));
                       Apply(Apply(Apply(missed, Build(i, requested)), Tick(work)), Store(i));
            var call := Alone(s.caps, s.cache, key, requested, s.ttl, s.now, s.now + wait, s.now + wait + work);
            && r.cache == call.0 && r.PhaseOf(i).Idle? && r.holder.None?
            && |r.answers| == |s.answers| + 1
            && (match r.answers[|s.answers|]
                case Refused(_) => call.1.Raised?
                case FromCache(_, c, _) => call.1 == Returned(c)
                case Fresh(_, c) => call.1 == Returned(c))
  {
    hide EnforcedCap;
    var s1 := Apply(s, Call(i, key));
    if s1.PhaseOf(i).Waiting? {
      var s3 := Apply(Apply(s1, Tick(wait)), Acquire(i));
      assert s3.PhaseOf(i) == Inside(key) && s3.cache == s.cache && s3.now == s.now + wait && s3.holder == Some(i)
        && s3.answers == s.answers;
      var s4 := Apply(s3, Recheck(i));
      if s4.PhaseOf(i).Missed? {
        AloneBuilds(s4, i, key, requested, work);
        hide Apply;
      }
    }
  }

  lemma AloneBuilds(s: System, i: nat, key: Key, requested: Option<int>, work: real)
    requires s.PhaseOf(i).Missed? && s.PhaseOf(i).key == key && work >= 0.0
    ensures var r := Apply(Apply(Apply(s, Build(i, requested)), Tick(work)), Store(i));
            && r.PhaseOf(i).Idle? && r.holder.None?
            && (match EnforcedCap(s.caps, key.model, requested)
                case Raised => r.cache == s.cache && r.answers == s.answers + [Refused(key)]
                case Returned(n) =>
                  && r.cache == s.cache[key := Cached(Client(key.model, key.tier, n), s.now + work)]
                  && r.answers == s.answers + [Fresh(key, Client(key.model, key.tier, n))])
  {
    hide EnforcedCap;
  }
}
