/** Locked read-modify-write of one state file, as the interleaved steps of any number of processes. */
module LockedUpdates {
  import opened Attempts
  import opened Wrappers

  datatype File<+V> = Missing | Corrupt | Holds(value: V)

  /** A missing file reads as the empty value; a corrupt one raises. */
  function ReadFile<V>(file: File<V>, empty: V): Attempt<V> {
    match file
    case Missing => Returned(empty)
    case Corrupt => Raised
    case Holds(v) => Returned(v)
  }

  /** The file after one whole update, and what the caller gets. */
  function UpdatedFile<V>(file: File<V>, empty: V, mutate: V -> Attempt<V>): (File<V>, Attempt<V>) {
    match ReadFile(file, empty)
    case Raised => (file, Raised)
    case Returned(v) =>
      match mutate(v)
      case Raised => (file, Raised)
      case Returned(w) => (Holds(w), Returned(w))
  }

  /** Where a process stands in its update; a ticket is its place in the order of lock grants. */
  datatype Phase<!V> =
    | Idle
    | Waiting(mutate: V -> Attempt<V>)
    | Locked(mutate: V -> Attempt<V>, ticket: nat)
    | HasRead(mutate: V -> Attempt<V>, ticket: nat, seen: V)
    | Mutated(mutate: V -> Attempt<V>, ticket: nat, seen: V, made: V)
    | Finished

  datatype Completed<!V> = Completed(ticket: nat, mutate: V -> Attempt<V>)

  /** What a reader without the lock saw, and how many updates were complete then. */
  datatype View<!V> = View(complete: nat, seen: Attempt<V>)

  datatype System<!V> = System(
    empty: V,
    file: File<V>,
    holder: Option<nat>,
    phases: map<nat, Phase<V>>,
    tickets: nat,
    log: seq<Completed<V>>,
    views: seq<View<V>>)
  {
    function PhaseOf(i: nat): Phase<V> {
      if i in phases then phases[i] else Idle
    }

    function At(i: nat, p: Phase<V>): System<V> {
      this.(phases := phases[i := p])
    }
  }

  datatype Step<!V> =
    | Call(i: nat, mutate: V -> Attempt<V>)
    | Acquire(i: nat)
    | TimeOut(i: nat)
    | Read(i: nat)
    | Mutate(i: nat)
    | Write(i: nat)
    | WriteFails(i: nat)
    | KeepFile(i: nat)
    | Release(i: nat)
    | Crash(i: nat)
    | Look

  /** One step of one process; a step that is not enabled changes nothing. The system drops a dead process's lock. */
  function Apply<V(==)>(s: System<V>, step: Step<V>): System<V> {
    match step
    case Call(i, m) => if s.PhaseOf(i).Idle? then s.At(i, Waiting(m)) else s
    case Acquire(i) =>
      if s.PhaseOf(i).Waiting? && s.holder.None? then
        s.At(i, Locked(s.PhaseOf(i).mutate, s.tickets)).(holder := Some(i), tickets := s.tickets + 1)
      else s
    case TimeOut(i) => if s.PhaseOf(i).Waiting? then s.At(i, Idle) else s
    case Read(i) =>
      (match s.PhaseOf(i)
       case Locked(m, t) =>
         (match ReadFile(s.file, s.empty)
          case Returned(v) => s.At(i, HasRead(m, t, v))
          case Raised => s.At(i, Finished))
       case _ => s)
    case Mutate(i) =>
      (match s.PhaseOf(i)
       case HasRead(m, t, v) =>
         (match m(v)
          case Returned(w) => s.At(i, Mutated(m, t, v, w))
          case Raised => s.At(i, Finished))
       case _ => s)
    case Write(i) =>
      (match s.PhaseOf(i)
       case Mutated(m, t, _, w) => s.At(i, Finished).(file := Holds(w), log := s.log + [Completed(t, m)])
       case _ => s)
    case WriteFails(i) => if s.PhaseOf(i).Mutated? then s.At(i, Finished) else s
    case KeepFile(i) =>
      (match s.PhaseOf(i)
       case Mutated(m, t, v, w) => if w == v then s.At(i, Finished).(log := s.log + [Completed(t, m)]) else s
       case _ => s)
    case Release(i) => if s.PhaseOf(i).Finished? then s.At(i, Idle).(holder := None) else s
    case Crash(i) => s.At(i, Idle).(holder := if s.holder == Some(i) then None else s.holder)
    case Look => s.(views := s.views + [View(|s.log|, ReadFile(s.file, s.empty))])
  }

  function Run<V(==)>(s: System<V>, steps: seq<Step<V>>): System<V> {
    if steps == [] then s else Apply(Run(s, steps[..|steps| - 1]), steps[|steps| - 1])
  }

  function Start<V>(file: File<V>, empty: V): System<V> {
    System(empty, file, None, map[], 0, [], [])
  }

  // ----- the sequential meaning

  function Mutation<V>(v: V, mutate: V -> Attempt<V>): V {
    match mutate(v)
    case Returned(w) => w
    case Raised => v
  }

  /** The completed mutators, one after the other. */
  function Fold<V>(v: V, log: seq<Completed<V>>): V {
    if log == [] then v else Mutation(Fold(v, log[..|log| - 1]), log[|log| - 1].mutate)
  }

  /** What reading the file gives once these updates, and no others, are complete. */
  function Serial<V>(file: File<V>, empty: V, log: seq<Completed<V>>): Attempt<V> {
    match ReadFile(file, empty)
    case Raised => Raised
    case Returned(v) => Returned(Fold(v, log))
  }

  predicate Holding<V>(p: Phase<V>) { p.Locked? || p.HasRead? || p.Mutated? || p.Finished? }

  /** A process inside its critical section has the latest ticket, and what it has seen is still what the file holds. */
  predicate Current<V(==)>(s: System<V>, p: Phase<V>) {
    match p
    case Locked(_, t) => t + 1 == s.tickets
    case HasRead(_, t, v) => t + 1 == s.tickets && ReadFile(s.file, s.empty) == Returned(v)
    case Mutated(m, t, v, w) => t + 1 == s.tickets && ReadFile(s.file, s.empty) == Returned(v) && m(v) == Returned(w)
    case _ => true
  }

  predicate LogInLockOrder<V>(log: seq<Completed<V>>) {
    forall j, k | 0 <= j < k < |log| :: log[j].ticket < log[k].ticket
  }

  ghost predicate ViewsArePrefixes<V>(file: File<V>, s: System<V>) {
    && (forall k | 0 <= k < |s.views| ::
          && s.views[k].complete <= |s.log|
          && s.views[k].seen == Serial(file, s.empty, s.log[..s.views[k].complete]))
    && (forall j, k | 0 <= j < k < |s.views| :: s.views[j].complete <= s.views[k].complete)
  }

  predicate LockIsExclusive<V>(s: System<V>) {
    && (forall i | i in s.phases :: Holding(s.phases[i]) ==> s.holder == Some(i))
    && (s.holder.Some? ==> Holding(s.PhaseOf(s.holder.value)))
  }

  predicate TicketsAreUsedOnce<V>(s: System<V>) {
    && LogInLockOrder(s.log)
    && (s.log != [] ==> s.log[|s.log| - 1].ticket < s.tickets)
    && (s.holder.Some? && !s.PhaseOf(s.holder.value).Finished? && s.log != []
      ==> s.log[|s.log| - 1].ticket + 1 < s.tickets)
  }

  ghost predicate Inv<V>(file: File<V>, s: System<V>) {
    && ReadFile(s.file, s.empty) == Serial(file, s.empty, s.log)
    && LockIsExclusive(s)
    && (forall i | i in s.phases :: Current(s, s.phases[i]))
    && TicketsAreUsedOnce(s)
    && ViewsArePrefixes(file, s)
  }

  lemma ViewsSurvive<V>(file: File<V>, s: System<V>, r: System<V>)
    requires ViewsArePrefixes(file, s) && r.views == s.views && r.empty == s.empty && s.log <= r.log
    ensures ViewsArePrefixes(file, r)
  {
    hide Serial;
    assert forall k | 0 <= k <= |s.log| :: r.log[..k] == s.log[..k];
  }

  lemma CompletedKeepsSerial<V>(file: File<V>, s: System<V>, i: nat)
    requires Inv(file, s) && s.PhaseOf(i).Mutated?
    ensures Serial(file, s.empty, s.log + [Completed(s.PhaseOf(i).ticket, s.PhaseOf(i).mutate)])
      == Returned(s.PhaseOf(i).made)
  {
    var p := s.PhaseOf(i);
    assert Current(s, p);
    assert (s.log + [Completed(p.ticket, p.mutate)])[..|s.log|] == s.log;
  }

  lemma CompletedKeepsTickets<V>(file: File<V>, s: System<V>, i: nat)
    requires Inv(file, s) && s.PhaseOf(i).Mutated?
    ensures LogInLockOrder(s.log + [Completed(s.PhaseOf(i).ticket, s.PhaseOf(i).mutate)])
    ensures s.holder == Some(i) && s.PhaseOf(i).ticket < s.tickets
  {
    hide Serial, ViewsArePrefixes;
    assert Current(s, s.PhaseOf(i)) && Holding(s.phases[i]);
  }

  lemma StepKeepsLock<V>(s: System<V>, step: Step<V>)
    requires LockIsExclusive(s)
    ensures LockIsExclusive(Apply(s, step))
  {
    hide ReadFile;
  }

  lemma StepKeepsSeen<V>(s: System<V>, step: Step<V>)
    requires LockIsExclusive(s)
    requires forall i | i in s.phases :: Current(s, s.phases[i])
    ensures forall i | i in Apply(s, step).phases :: Current(Apply(s, step), Apply(s, step).phases[i])
  {
    hide ReadFile;
    var r := Apply(s, step);
    if step.Acquire? || step.Write? || step.KeepFile? {
      assert forall j | j in r.phases && j != step.i :: j in s.phases && r.phases[j] == s.phases[j];
    }
  }

  lemma StepKeepsTickets<V>(file: File<V>, s: System<V>, step: Step<V>)
    requires Inv(file, s)
    ensures TicketsAreUsedOnce(Apply(s, step))
  {
    hide Serial, ViewsArePrefixes, ReadFile, LogInLockOrder;
    if (step.Write? || step.KeepFile?) && s.PhaseOf(step.i).Mutated? {
      CompletedKeepsTickets(file, s, step.i);
    } else if !step.Look? {
      assert step.i in s.phases ==> Current(s, s.phases[step.i]);
    }
  }

  lemma StepKeepsInv<V>(file: File<V>, s: System<V>, step: Step<V>)
    requires Inv(file, s)
    ensures Inv(file, Apply(s, step))
  {
    StepKeepsLock(s, step);
    StepKeepsSeen(s, step);
    StepKeepsTickets(file, s, step);
    StepKeepsFile(file, s, step);
    hide Serial, ViewsArePrefixes, LogInLockOrder, LockIsExclusive, TicketsAreUsedOnce, Current, Apply;
  }

  lemma StepKeepsFile<V>(file: File<V>, s: System<V>, step: Step<V>)
    requires Inv(file, s)
    ensures ReadFile(Apply(s, step).file, Apply(s, step).empty)
      == Serial(file, Apply(s, step).empty, Apply(s, step).log)
    ensures ViewsArePrefixes(file, Apply(s, step))
  {
    hide Serial, ViewsArePrefixes, LogInLockOrder, LockIsExclusive, TicketsAreUsedOnce;
    if step.Look? {
      LookKeepsViews(file, s);
    } else {
      ViewsSurvive(file, s, Apply(s, step));
      if (step.Write? || step.KeepFile?) && s.PhaseOf(step.i).Mutated? {
        CompletedKeepsSerial(file, s, step.i);
        assert Current(s, s.PhaseOf(step.i));
      }
    }
  }

  lemma LookKeepsViews<V>(file: File<V>, s: System<V>)
    requires Inv(file, s)
    ensures ViewsArePrefixes(file, Apply(s, Look))
  {
    hide Serial;
    assert s.log[..|s.log|] == s.log;
  }

  lemma {:induction false} RunKeepsInv<V>(file: File<V>, empty: V, steps: seq<Step<V>>)
    ensures Inv(file, Run(Start(file, empty), steps)) && Run(Start(file, empty), steps).empty == empty
  {
    if steps != [] {
      hide Inv;
      RunKeepsInv(file, empty, steps[..|steps| - 1]);
      StepKeepsInv(file, Run(Start(file, empty), steps[..|steps| - 1]), steps[|steps| - 1]);
    } else {
      assert Inv(file, Start(file, empty));
    }
  }

  /** Every interleaving, with time-outs, raising mutators, failed writes and crashes, amounts to the completed
      mutators in lock order; unlocked readers see prefixes of that. */
  lemma EveryRunIsSerial<V>(file: File<V>, empty: V, steps: seq<Step<V>>)
    ensures var s := Run(Start(file, empty), steps);
            && ReadFile(s.file, empty) == Serial(file, empty, s.log)
            && (forall j, k | 0 <= j < k < |s.log| :: s.log[j].ticket < s.log[k].ticket)
            && (forall i, j | i in s.phases && j in s.phases && Holding(s.phases[i]) && Holding(s.phases[j]) :: i == j)
            && (forall k | 0 <= k < |s.views| ::
                  && s.views[k].complete <= |s.log|
                  && s.views[k].seen == Serial(file, empty, s.log[..s.views[k].complete]))
            && (forall j, k | 0 <= j < k < |s.views| :: s.views[j].complete <= s.views[k].complete)
  {
    hide Serial;
    RunKeepsInv(file, empty, steps);
  }

  lemma SixSteps<V>(s: System<V>, a: Step<V>, b: Step<V>, c: Step<V>, d: Step<V>, e: Step<V>, f: Step<V>)
    ensures Run(s, [a, b, c, d, e, f]) == Apply(Apply(Apply(Apply(Apply(Apply(s, a), b), c), d), e), f)
  {
    hide Apply;
    assert [a][..0] == [] && [a, b][..1] == [a] && [a, b, c][..2] == [a, b];
    assert [a, b, c, d][..3] == [a, b, c] && [a, b, c, d, e][..4] == [a, b, c, d]
      && [a, b, c, d, e, f][..5] == [a, b, c, d, e];
    assert Run(s, [a]) == Apply(s, a);
    assert Run(s, [a, b]) == Apply(Apply(s, a), b);
    assert Run(s, [a, b, c]) == Apply(Apply(Apply(s, a), b), c);
    assert Run(s, [a, b, c, d, e]) == Apply(Run(s, [a, b, c, d]), e);
  }

  /** A process left alone does in steps what an update does in one call. */
  lemma AloneIsUpdate<V>(s: System<V>, i: nat, m: V -> Attempt<V>)
    requires s.PhaseOf(i).Idle? && s.holder.None?
    ensures var r := Run(s, [Call(i, m), Acquire(i), Read(i), Mutate(i), Write(i), Release(i)]);
            && r.file == UpdatedFile(s.file, s.empty, m).0
            && r.holder.None? && r.PhaseOf(i).Idle?
            && r.log == s.log + if UpdatedFile(s.file, s.empty, m).1.Returned? then [Completed(s.tickets, m)] else []
  {
    hide Run;
    SixSteps(s, Call(i, m), Acquire(i), Read(i), Mutate(i), Write(i), Release(i));
    var s2 := Apply(Apply(s, Call(i, m)), Acquire(i));
    assert s2.PhaseOf(i) == Locked(m, s.tickets) && s2.file == s.file && s2.log == s.log && s2.empty == s.empty;
    LockedIsUpdate(s2, i, m, s.tickets);
    hide Apply;
  }

  lemma LockedIsUpdate<V>(s: System<V>, i: nat, m: V -> Attempt<V>, ticket: nat)
    requires s.PhaseOf(i) == Locked(m, ticket)
    ensures var r := Apply(Apply(Apply(Apply(s, Read(i)), Mutate(i)), Write(i)), Release(i));
            && r.file == UpdatedFile(s.file, s.empty, m).0
            && r.holder.None? && r.PhaseOf(i).Idle?
            && r.log == s.log + if UpdatedFile(s.file, s.empty, m).1.Returned? then [Completed(ticket, m)] else []
  {
    var s4 := Apply(Apply(s, Read(i)), Mutate(i));
    assert s4.log == s.log && s4.file == s.file;
    assert if UpdatedFile(s.file, s.empty, m).1.Returned?
           then s4.PhaseOf(i).Mutated? && s4.PhaseOf(i).mutate == m && s4.PhaseOf(i).ticket == ticket
             && Holds(s4.PhaseOf(i).made) == UpdatedFile(s.file, s.empty, m).0
           else s4.PhaseOf(i) == Finished;
  }

  // ----- mutators that touch one key

  function Entry<E>(v: map<string, E>, key: string): Option<E> {
    if key in v then Some(v[key]) else None
  }

  /** A mutator that reads and writes the entry of one key. */
  ghost predicate LocalTo<E(!new)>(m: map<string, E> -> Attempt<map<string, E>>, key: string) {
    && (forall v, k | k != key && m(v).Returned? :: Entry(m(v).value, k) == Entry(v, k))
    && (forall v, u | Entry(v, key) == Entry(u, key) ::
          m(v).Returned? == m(u).Returned? && (m(v).Returned? ==> Entry(m(v).value, key) == Entry(m(u).value, key)))
  }

  /** The updates of one key. */
  function OnlyKey<E>(log: seq<Completed<map<string, E>>>, keys: seq<string>, key: string)
    : seq<Completed<map<string, E>>>
    requires |log| == |keys|
  {
    if log == [] then [] else
    var n := |log| - 1;
    OnlyKey(log[..n], keys[..n], key) + if keys[n] == key then [log[n]] else []
  }

  lemma LocalStep<E(!new)>(u: map<string, E>, own: map<string, E>, m: map<string, E> -> Attempt<map<string, E>>,
      at: string, key: string)
    requires LocalTo(m, at) && Entry(u, key) == Entry(own, key)
    ensures Entry(Mutation(u, m), key) == Entry(if at == key then Mutation(own, m) else own, key)
  {
    hide Entry;
  }

  lemma FoldSnoc<V>(v: V, log: seq<Completed<V>>, c: Completed<V>)
    ensures Fold(v, log + [c]) == Mutation(Fold(v, log), c.mutate)
  {
    assert (log + [c])[..|log|] == log;
  }

  /** What a key holds in the end is what its own updates, alone and in their order, would have left there. */
  lemma {:induction false} NoUpdateIsLost<E(!new)>(v: map<string, E>, log: seq<Completed<map<string, E>>>,
      keys: seq<string>, key: string)
    requires |log| == |keys| && forall k | 0 <= k < |log| :: LocalTo(log[k].mutate, keys[k])
    ensures Entry(Fold(v, log), key) == Entry(Fold(v, OnlyKey(log, keys, key)), key)
  {
    if log != [] {
      hide LocalTo, Entry, Mutation;
      var n := |log| - 1;
      NoUpdateIsLost(v, log[..n], keys[..n], key);
      var own := OnlyKey(log[..n], keys[..n], key);
      LocalStep(Fold(v, log[..n]), Fold(v, own), log[n].mutate, keys[n], key);
      FoldSnoc(v, own, log[n]);
      assert own + [] == own;
    }
  }
}
