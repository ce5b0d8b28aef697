/** The tokenizer thread budget. The tokenizer library builds one global pool, lazily, from an
    environment variable it reads once; the pool can never be resized. Parallelism stays on only
    while no pool that may exist can exceed the budget. */
module NativeCompute {
  import opened Wrappers

  /** `parse` reads a stripped, non-blank value as an integer. */
  function CanonicalThreads(raw: string, parse: string -> Option<int>): Option<int> {
    if raw == "" then Some(2)
    else if parse(raw).Some? && parse(raw).value > 0 then parse(raw)
    else None
  }

  datatype Compute = Compute(initialized: bool, bound: Option<int>, serial: bool)

  /** Recording a budget; `imported` is whether the library was loaded when first checked. */
  function Configured(s: Compute, threads: int, imported: bool): Compute {
    var bound :=
      if !s.initialized then (if imported then None else Some(threads))
      else if s.bound.Some? && s.bound.value < threads then Some(threads)
      else s.bound;
    Compute(true, bound, s.serial || bound.None? || threads == 1 || threads < bound.value)
  }

  const COLD := Compute(false, None, false)
  const FORKED := Compute(true, None, true)

  /** The module's state and the two variables it publishes. */
  class ComputeState {
    var initialized: bool
    var bound: Option<int>
    var serial: bool
    var rayonThreads: Option<int>
    var tokenizersParallelism: Option<string>

    constructor (rayonThreads: Option<int>, tokenizersParallelism: Option<string>)
      ensures Snapshot() == Compute(false, None, false) && this.rayonThreads == rayonThreads && this.tokenizersParallelism == tokenizersParallelism
    {
      initialized, bound, serial := false, None, false;
      this.rayonThreads, this.tokenizersParallelism := rayonThreads, tokenizersParallelism;
    }

    function Snapshot(): Compute
      reads this
    {
      Compute(initialized, bound, serial)
    }

    method ConfigureTokenizers(threads: int, imported: bool)
      modifies this
      ensures Snapshot() == Configured(old(Snapshot()), threads, imported)
      ensures rayonThreads == Some(threads)
      ensures tokenizersParallelism == if serial then Some("false") else None
    {
      if !initialized {
        rayonThreads := Some(threads);
        bound := if imported then None else Some(threads);
        initialized := true;
      } else if bound.Some? {
        bound := Some(if bound.value < threads then threads else bound.value);
      }
      serial := serial || bound.None? || threads == 1 || threads < bound.value;
      rayonThreads := Some(threads);
      tokenizersParallelism := if serial then Some("false") else None;
    }

    method AfterFork()
      modifies this
      ensures Snapshot() == Compute(true, None, true) && tokenizersParallelism == Some("false") && rayonThreads == old(rayonThreads)
    {
      initialized, bound, serial := true, None, true;
      tokenizersParallelism := Some("false");
    }

    /** An invalid value is refused before anything changes. */
    method Configure(raw: string, parse: string -> Option<int>, imported: bool) returns (threads: Option<int>)
      modifies this
      ensures threads == if raw == "" then Some(2) else if parse(raw).Some? && parse(raw).value >= 1 then parse(raw) else None
      ensures threads.Some? ==> threads.value > 0 && Snapshot() == Configured(old(Snapshot()), threads.value, imported)
                                && rayonThreads == threads && tokenizersParallelism == if serial then Some("false") else None
      ensures threads.None? ==> Snapshot() == old(Snapshot()) && rayonThreads == old(rayonThreads)
                                && tokenizersParallelism == old(tokenizersParallelism)
    {
      threads := CanonicalThreads(raw, parse);
      if threads.Some? {
        ConfigureTokenizers(threads.value, imported);
      }
    }
  }

  // ----- the process, with imports and pools happening at any moment -----------------------------------

  /** The first configuration publishes the bound, and only then looks whether the library is
      loaded; other threads run between the two. */
  datatype Phase = Idle | Published(threads: int)

  datatype Process = Process(
    registered: bool,
    compute: Compute,
    rayon: Option<int>,
    imported: bool,
    pool: Option<int>,
    phase: Phase,
    // what no variable keeps
    budgets: seq<int>,
    warm: bool,
    forked: bool)

  /** `Enter` is a thread taking up the state, which registers the fork hook before anything else.
      `PoolBuilt` is the library's first parallel call; `processors` is its size when no bound is published. */
  datatype Event = Enter | Configure(threads: int) | Check | Import | PoolBuilt(processors: int) | Fork

  function Next(p: Process, e: Event): Process {
    match e
    case Enter => p.(registered := true)
    case Configure(threads) =>
      if p.phase.Published? || !p.registered then p
      else if !p.compute.initialized then p.(rayon := Some(threads), phase := Published(threads))
      else p.(compute := Configured(p.compute, threads, p.imported), rayon := Some(threads), budgets := p.budgets + [threads])
    case Check =>
      if p.phase.Idle? then p
      else p.(compute := Configured(p.compute, p.phase.threads, p.imported), rayon := Some(p.phase.threads),
              phase := Idle, budgets := [p.phase.threads], warm := p.imported)
    case Import => p.(imported := true)
    case PoolBuilt(processors) =>
      if !p.imported || p.pool.Some? then p
      else p.(pool := Some(if p.rayon.Some? then p.rayon.value else processors))
    case Fork =>
      if p.registered then p.(compute := FORKED, phase := Idle, forked := true) else p
  }

  predicate Possible(e: Event) {
    e.Configure? ==> e.threads > 0
  }

  function Run(p: Process, events: seq<Event>): Process
    decreases |events|
  {
    if events == [] then p else Run(Next(p, events[0]), events[1..])
  }

  /** A process before its first configuration; the library and its pool may already be there. */
  predicate Fresh(p: Process) {
    !p.registered && p.compute == COLD && p.phase.Idle? && p.budgets == [] && !p.warm && !p.forked && (p.pool.Some? ==> p.imported)
  }

  predicate Steady(budgets: seq<int>) {
    && (forall i :: 0 <= i < |budgets| ==> budgets[i] >= 2)
    && (forall i, j :: 0 <= i < j < |budgets| ==> budgets[i] <= budgets[j])
  }

  predicate Invariant(p: Process) {
    && (p.pool.Some? ==> p.imported)
    && (p.compute.initialized || p.phase.Published? ==> p.registered)
    && (p.phase.Published? ==> !p.compute.initialized && p.rayon == Some(p.phase.threads) && p.phase.threads > 0)
    && (!p.compute.initialized ==> p.compute == COLD && !p.forked && p.budgets == [])
    && (forall i :: 0 <= i < |p.budgets| ==> p.budgets[i] > 0)
    && (p.forked ==> p.compute.serial && p.compute.bound.None?)
    && (p.compute.initialized && !p.forked ==>
          && p.budgets != [] && p.rayon == Some(p.budgets[|p.budgets| - 1])
          && (p.compute.bound.None? <==> p.warm)
          && (p.compute.serial <==> p.warm || !Steady(p.budgets))
          && (!p.warm ==>
                && p.compute.bound.value in p.budgets
                && (forall i :: 0 <= i < |p.budgets| ==> p.budgets[i] <= p.compute.bound.value)
                && (p.pool.Some? ==> p.pool.value in p.budgets)))
  }

  lemma SteadyStep(budgets: seq<int>, threads: int, bound: int)
    requires budgets != [] && threads > 0
    requires bound in budgets && forall i :: 0 <= i < |budgets| ==> budgets[i] <= bound
    ensures Steady(budgets + [threads]) <==> Steady(budgets) && threads >= 2 && bound <= threads
  {
    var grown := budgets + [threads];
    var b :| 0 <= b < |budgets| && budgets[b] == bound;
    assert grown[b] == bound && grown[|budgets|] == threads;
    assert forall i :: 0 <= i < |budgets| ==> grown[i] == budgets[i];
  }

  lemma NextInvariant(p: Process, e: Event)
    requires Invariant(p) && Possible(e)
    ensures Invariant(Next(p, e))
  {
    if e.Configure? && p.phase.Idle? && p.compute.initialized && !p.forked {
      if !p.warm {
        SteadyStep(p.budgets, e.threads, p.compute.bound.value);
      }
    }
  }

  lemma {:induction false} RunInvariant(p: Process, events: seq<Event>)
    requires Invariant(p) && forall e :: e in events ==> Possible(e)
    ensures Invariant(Run(p, events))
    decreases |events|
  {
    if events != [] {
      NextInvariant(p, events[0]);
      RunInvariant(Next(p, events[0]), events[1..]);
    }
  }

  /** After any run from a fresh process, parallelism is on exactly when the process has not
      forked since a thread first took up the state, the library was not loaded when first checked, and
      the configured budgets never decreased and were never one. */
  lemma ParallelIff(p: Process, events: seq<Event>)
    requires Fresh(p) && forall e :: e in events ==> Possible(e)
    requires Run(p, events).compute.initialized
    ensures var q := Run(p, events);
            !q.compute.serial <==> !q.forked && !q.warm && Steady(q.budgets)
  {
    RunInvariant(p, events);
  }

  /** While parallelism is on, a pool built at any earlier moment is no larger than the budget
      in force, which is also what a pool built next would get. */
  lemma PoolWithinBudget(p: Process, events: seq<Event>)
    requires Fresh(p) && forall e :: e in events ==> Possible(e)
    requires Run(p, events).compute.initialized && !Run(p, events).compute.serial
    ensures var q := Run(p, events);
            && q.budgets != [] && q.rayon == Some(q.budgets[|q.budgets| - 1])
            && q.compute.bound == q.rayon
            && (q.pool.Some? ==> q.pool.value <= q.rayon.value)
  {
    RunInvariant(p, events);
    var q := Run(p, events);
    var b :| 0 <= b < |q.budgets| && q.budgets[b] == q.compute.bound.value;
    assert q.budgets[b] <= q.budgets[|q.budgets| - 1];
  }

  /** Once serial, serial until the process ends. */
  lemma {:induction false} SerialForever(p: Process, events: seq<Event>)
    requires Invariant(p) && p.compute.initialized && p.compute.serial && forall e :: e in events ==> Possible(e)
    ensures Run(p, events).compute.initialized && Run(p, events).compute.serial
    decreases |events|
  {
    if events != [] {
      NextInvariant(p, events[0]);
      SerialForever(Next(p, events[0]), events[1..]);
    }
  }
}
