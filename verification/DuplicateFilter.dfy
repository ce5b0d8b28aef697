/** The log filter that drops repeats of a template inside a window and forgets stale templates
    to stay small. Its memory is compared with the whole log of arrivals, which forgets nothing. */
module DuplicateFilter {
  import opened Wrappers

  /** Logger name and message template. */
  datatype Key = Key(logger: string, template: string)

  /** A record is dropped, or passes carrying how many like it were dropped before it. */
  datatype Decision = Drop | Pass(dropped: nat)

  /** One call: the clock as read before taking the lock, and what was decided under it. */
  datatype Arrival = Arrival(key: Key, now: real, decision: Decision)

  const EVICTION_SIZE := 200

  // ----- the specification: nothing is ever forgotten -------------------------------------------

  function LastPass(log: seq<Arrival>, key: Key): Option<real> {
    if log == [] then None
    else
      var a := log[|log| - 1];
      if a.key == key && a.decision.Pass? then Some(a.now) else LastPass(log[..|log| - 1], key)
  }

  /** Drops of this key since it last passed. */
  function DropsSince(log: seq<Arrival>, key: Key): nat {
    if log == [] then 0
    else
      var a, rest := log[|log| - 1], log[..|log| - 1];
      if a.key != key then DropsSince(rest, key)
      else if a.decision.Pass? then 0
      else DropsSince(rest, key) + 1
  }

  function Plain(log: seq<Arrival>, key: Key, now: real, window: real): Decision {
    var last := LastPass(log, key);
    if last.Some? && now - last.value < window then Drop else Pass(DropsSince(log, key))
  }

  // ----- the filter --------------------------------------------------------------------------------

  datatype Memory = Memory(recent: map<Key, real>, suppressed: map<Key, nat>)

  function Kept(recent: map<Key, real>, now: real, window: real): map<Key, real> {
    if |recent| > EVICTION_SIZE then map k | k in recent && recent[k] >= now - window :: recent[k] else recent
  }

  function Count(suppressed: map<Key, nat>, key: Key): nat {
    if key in suppressed then suppressed[key] else 0
  }

  function Decide(m: Memory, key: Key, now: real, window: real): Decision {
    var recent := Kept(m.recent, now, window);
    if key in recent && now - recent[key] < window then Drop else Pass(Count(m.suppressed, key))
  }

  function Step(m: Memory, key: Key, now: real, window: real): Memory {
    var recent := Kept(m.recent, now, window);
    if Decide(m, key, now, window).Drop?
    then Memory(recent, m.suppressed[key := Count(m.suppressed, key) + 1])
    else Memory(recent[key := now], m.suppressed - {key})
  }

  /** The latest clock reading so far. */
  function Horizon(log: seq<Arrival>, start: real): real {
    if log == [] then start
    else
      var before := Horizon(log[..|log| - 1], start);
      if before < log[|log| - 1].now then log[|log| - 1].now else before
  }

  /** The memory against the log: counts are exact, remembered times are exact, and a time that
      was forgotten was outside the window at some reading already made. */
  ghost predicate Remembers(m: Memory, log: seq<Arrival>, window: real, start: real) {
    && (forall key :: Count(m.suppressed, key) == DropsSince(log, key))
    && (forall key :: key in m.recent ==> LastPass(log, key) == Some(m.recent[key]))
    && (forall key :: key !in m.recent && LastPass(log, key).Some? ==> LastPass(log, key).value < Horizon(log, start) - window)
  }

  lemma StepRemembers(m: Memory, log: seq<Arrival>, key: Key, now: real, window: real, start: real)
    requires Remembers(m, log, window, start)
    ensures Remembers(Step(m, key, now, window), log + [Arrival(key, now, Decide(m, key, now, window))], window, start)
  {
    var grown := log + [Arrival(key, now, Decide(m, key, now, window))];
    assert grown[..|log|] == log;
    forall k
      ensures LastPass(grown, k) == if k == key && Decide(m, key, now, window).Pass? then Some(now) else LastPass(log, k)
    {
    }
    assert Horizon(grown, start) >= Horizon(log, start) && Horizon(grown, start) >= now;
  }

  /** When eviction shows: exactly when the key's last pass was forgotten although this clock
      reading still falls inside its window. That takes a reading older than one already used. */
  lemma EvictionShowsIff(m: Memory, log: seq<Arrival>, key: Key, now: real, window: real, start: real)
    requires Remembers(m, log, window, start)
    ensures Decide(m, key, now, window) != Plain(log, key, now, window) <==>
            key !in m.recent && LastPass(log, key).Some? && now - LastPass(log, key).value < window
    ensures Decide(m, key, now, window) != Plain(log, key, now, window) ==>
            now < Horizon(log, start) && Plain(log, key, now, window).Drop?
    ensures Horizon(log, start) <= now ==> Decide(m, key, now, window) == Plain(log, key, now, window)
  {
    assert Count(m.suppressed, key) == DropsSince(log, key);
  }

  lemma KeptIs(recent: map<Key, real>, now: real, window: real)
    ensures var kept := Kept(recent, now, window);
            && (forall k :: k in kept <==> k in recent && (|recent| <= 200 || now - recent[k] <= window))
            && (forall k :: k in kept ==> kept[k] == recent[k])
            && (forall k :: k in recent && now - recent[k] < window ==> k in kept)
  {
  }

  /** What one call does, on the dictionaries: drop exactly a key that passed less than a window
      ago; forget what passed longer ago, once more than 200 are remembered. */
  lemma StepIs(m: Memory, key: Key, now: real, window: real)
    ensures var decision, after := Decide(m, key, now, window), Step(m, key, now, window);
            && (decision.Drop? <==> key in m.recent && now - m.recent[key] < window)
            && (decision.Pass? ==> decision.dropped == (if key in m.suppressed then m.suppressed[key] else 0))
            && (forall k :: k in after.recent <==>
                  (k == key && decision.Pass?) || (k in m.recent && (|m.recent| <= 200 || now - m.recent[k] <= window)))
            && (forall k :: k in after.recent ==> after.recent[k] == if k == key && decision.Pass? then now else m.recent[k])
            && after.suppressed == if decision.Pass? then m.suppressed - {key}
                                   else m.suppressed[key := 1 + if key in m.suppressed then m.suppressed[key] else 0]
  {
    hide Kept;
    KeptIs(m.recent, now, window);
  }

  lemma ForgetThenDecide(m: Memory, key: Key, now: real, window: real)
    ensures var recent := Kept(m.recent, now, window);
            if key in recent && now - recent[key] < window
            then Decide(m, key, now, window) == Drop
                 && Step(m, key, now, window) == Memory(recent, m.suppressed[key := Count(m.suppressed, key) + 1])
            else Decide(m, key, now, window) == Pass(Count(m.suppressed, key))
                 && Step(m, key, now, window) == Memory(recent[key := now], m.suppressed - {key})
  {
  }

  class LogFilter {
    const window: real
    ghost const start: real
    var recent: map<Key, real>
    var suppressed: map<Key, nat>
    ghost var log: seq<Arrival>

    ghost predicate Valid()
      reads this
    {
      Remembers(Memory(recent, suppressed), log, window, start)
    }

    constructor (window: real, ghost start: real)
      ensures Valid() && log == [] && this.window == window && this.start == start
    {
      this.window, this.start := window, start;
      recent, suppressed, log := map[], map[], [];
    }

    method EvictStale(now: real)
      modifies `recent
      ensures recent == Kept(old(recent), now, window)
      ensures recent == if |old(recent)| > 200 then map k | k in old(recent) && now - old(recent)[k] <= window :: old(recent)[k] else old(recent)
    {
      if |recent| > EVICTION_SIZE {
        var cutoff := now - window;
        recent := map k | k in recent && recent[k] >= cutoff :: recent[k];
      }
    }

    /** With a clock that never runs behind one already used, the decision is the one the whole
        log gives. */
    method Filter(key: Key, now: real) returns (decision: Decision)
      requires Valid()
      modifies this
      ensures Valid() && log == old(log) + [Arrival(key, now, decision)]
      ensures Memory(recent, suppressed) == Step(old(Memory(recent, suppressed)), key, now, window)
      ensures decision == Decide(old(Memory(recent, suppressed)), key, now, window)
      ensures Horizon(old(log), start) <= now ==> decision == Plain(old(log), key, now, window)
      ensures decision.Drop? <==> key in old(recent) && now - old(recent)[key] < window
      ensures decision.Pass? ==> decision.dropped == (if key in old(suppressed) then old(suppressed)[key] else 0)
      ensures forall k :: k in recent <==>
                (k == key && decision.Pass?) || (k in old(recent) && (|old(recent)| <= 200 || now - old(recent)[k] <= window))
      ensures forall k :: k in recent ==> recent[k] == if k == key && decision.Pass? then now else old(recent)[k]
      ensures suppressed == if decision.Pass? then old(suppressed) - {key}
                            else old(suppressed)[key := 1 + if key in old(suppressed) then old(suppressed)[key] else 0]
    {
      hide Remembers, Plain, Horizon, Step, Decide;
      StepIs(Memory(recent, suppressed), key, now, window);
      StepRemembers(Memory(recent, suppressed), log, key, now, window, start);
      EvictionShowsIff(Memory(recent, suppressed), log, key, now, window, start);
      log := log + [Arrival(key, now, Decide(Memory(recent, suppressed), key, now, window))];
      ForgetThenDecide(Memory(recent, suppressed), key, now, window);
      hide Kept;
      EvictStale(now);
      if key in recent && now - recent[key] < window {
        suppressed := suppressed[key := Count(suppressed, key) + 1];
        return Drop;
      }
      recent := recent[key := now];
      decision := Pass(Count(suppressed, key));
      suppressed := suppressed - {key};
    }
  }

  // ----- what the log then looks like -------------------------------------------------------------------

  function Run(m: Memory, calls: seq<(Key, real)>, window: real): seq<Arrival> {
    if calls == [] then []
    else
      var (key, now) := calls[|calls| - 1];
      var before := MemoryAfter(m, calls[..|calls| - 1], window);
      Run(m, calls[..|calls| - 1], window) + [Arrival(key, now, Decide(before, key, now, window))]
  }

  function MemoryAfter(m: Memory, calls: seq<(Key, real)>, window: real): Memory {
    if calls == [] then m
    else Step(MemoryAfter(m, calls[..|calls| - 1], window), calls[|calls| - 1].0, calls[|calls| - 1].1, window)
  }

  const EMPTY := Memory(map[], map[])

  /** Calls whose clock readings do not go back. */
  predicate InOrder(calls: seq<(Key, real)>) {
    forall i, j :: 0 <= i < j < |calls| ==> calls[i].1 <= calls[j].1
  }

  lemma {:induction false} RunRemembers(calls: seq<(Key, real)>, window: real, start: real)
    ensures Remembers(MemoryAfter(EMPTY, calls, window), Run(EMPTY, calls, window), window, start)
    ensures |Run(EMPTY, calls, window)| == |calls|
    decreases |calls|
  {
    if calls != [] {
      var rest := calls[..|calls| - 1];
      RunRemembers(rest, window, start);
      StepRemembers(MemoryAfter(EMPTY, rest, window), Run(EMPTY, rest, window), calls[|calls| - 1].0, calls[|calls| - 1].1, window, start);
    }
  }

  lemma {:induction false} HorizonIsLast(calls: seq<(Key, real)>, window: real)
    requires InOrder(calls) && calls != []
    ensures Horizon(Run(EMPTY, calls, window), calls[0].1) == calls[|calls| - 1].1
    decreases |calls|
  {
    hide Decide, Step;
    var n := |calls| - 1;
    var log := Run(EMPTY, calls, window);
    assert log[..|log| - 1] == Run(EMPTY, calls[..n], window);
    if n > 0 {
      HorizonIsLast(calls[..n], window);
    }
  }

  /** The decisions of a run in clock order are those of a filter that forgets nothing. */
  lemma {:induction false} EvictionInvisible(calls: seq<(Key, real)>, window: real, i: nat)
    requires InOrder(calls) && i < |calls|
    ensures var log := Run(EMPTY, calls, window);
            |log| == |calls| && log[i] == Arrival(calls[i].0, calls[i].1, Plain(log[..i], calls[i].0, calls[i].1, window))
    decreases |calls|
  {
    hide Decide, Step, Plain;
    var n := |calls| - 1;
    var log, rest := Run(EMPTY, calls, window), Run(EMPTY, calls[..n], window);
    RunRemembers(calls, window, calls[0].1);
    RunRemembers(calls[..n], window, calls[0].1);
    if i < n {
      EvictionInvisible(calls[..n], window, i);
      assert log[..i] == rest[..i];
    } else {
      assert log[..n] == rest;
      if n > 0 {
        HorizonIsLast(calls[..n], window);
      }
      EvictionShowsIff(MemoryAfter(EMPTY, calls[..n], window), rest, calls[n].0, calls[n].1, window, calls[0].1);
    }
  }

  lemma {:induction false} LastPassIsLatest(log: seq<Arrival>, key: Key, i: nat)
    requires i < |log| && log[i].key == key && log[i].decision.Pass?
    requires forall j, k :: 0 <= j < k < |log| ==> log[j].now <= log[k].now
    ensures LastPass(log, key).Some? && LastPass(log, key).value >= log[i].now
    decreases |log|
  {
    var n := |log| - 1;
    if !(log[n].key == key && log[n].decision.Pass?) {
      LastPassIsLatest(log[..n], key, i);
    }
  }

  lemma RunTimes(calls: seq<(Key, real)>, window: real)
    requires InOrder(calls)
    ensures var log := Run(EMPTY, calls, window);
            && |log| == |calls|
            && (forall k :: 0 <= k < |calls| ==> log[k].key == calls[k].0 && log[k].now == calls[k].1)
  {
    hide Run, Plain;
    RunRemembers(calls, window, 0.0);
    forall k | 0 <= k < |calls|
      ensures Run(EMPTY, calls, window)[k].key == calls[k].0 && Run(EMPTY, calls, window)[k].now == calls[k].1
    {
      EvictionInvisible(calls, window, k);
    }
  }

  lemma PassIsSpaced(log: seq<Arrival>, key: Key, now: real, window: real, i: nat)
    requires i < |log| && log[i].key == key && log[i].decision.Pass?
    requires forall j, k :: 0 <= j < k < |log| ==> log[j].now <= log[k].now
    requires Plain(log, key, now, window).Pass?
    ensures now - log[i].now >= window
  {
    LastPassIsLatest(log, key, i);
  }

  /** Two records of one key that pass are at least the window apart. */
  lemma PassesAreSpaced(calls: seq<(Key, real)>, window: real, i: nat, j: nat)
    requires InOrder(calls) && i < j < |calls| && calls[i].0 == calls[j].0
    requires |Run(EMPTY, calls, window)| == |calls|
    requires Run(EMPTY, calls, window)[i].decision.Pass? && Run(EMPTY, calls, window)[j].decision.Pass?
    ensures calls[j].1 - calls[i].1 >= window
  {
    hide Run, Plain;
    var log := Run(EMPTY, calls, window);
    RunTimes(calls, window);
    EvictionInvisible(calls, window, j);
    PassIsSpaced(log[..j], calls[j].0, calls[j].1, window, i);
  }

  function Arrivals(log: seq<Arrival>, key: Key): nat {
    if log == [] then 0 else Arrivals(log[..|log| - 1], key) + if log[|log| - 1].key == key then 1 else 0
  }

  /** Records that passed and records they said were dropped. */
  function Reported(log: seq<Arrival>, key: Key): nat {
    if log == [] then 0
    else
      var a := log[|log| - 1];
      Reported(log[..|log| - 1], key) + if a.key == key && a.decision.Pass? then 1 + a.decision.dropped else 0
  }

  /** Suppression is conserved, in any clock order: every arrival of a key has passed, or has
      been reported by the one that passed next, or is counted for the one that will. */
  lemma {:induction false} SuppressionConserved(calls: seq<(Key, real)>, window: real, key: Key)
    ensures var log := Run(EMPTY, calls, window);
            Arrivals(log, key) == Reported(log, key) + Count(MemoryAfter(EMPTY, calls, window).suppressed, key)
    decreases |calls|
  {
    if calls != [] {
      var n := |calls| - 1;
      var log := Run(EMPTY, calls, window);
      assert log[..|log| - 1] == Run(EMPTY, calls[..n], window);
      SuppressionConserved(calls[..n], window, key);
      hide Kept, Run, MemoryAfter;
    }
  }

  // ----- out of order -----------------------------------------------------------------------------------

  function Template(n: nat): Key {
    Key("", seq(n, _ => 'x'))
  }

  /** `n` different templates, all logged at time zero. */
  function Burst(n: nat): seq<(Key, real)> {
    seq(n, i requires 0 <= i < n => (Template(i), 0.0))
  }

  lemma NewTemplate(m: Memory, key: Key, now: real, window: real)
    requires |m.recent| <= EVICTION_SIZE && key !in m.recent
    ensures Step(m, key, now, window).recent == m.recent[key := now]
  {
  }

  predicate HoldsBurst(recent: map<Key, real>, n: nat) {
    && |recent| == n && (forall k :: k in recent ==> recent[k] == 0.0 && |k.template| < n)
    && (forall i :: 0 <= i < n ==> Template(i) in recent)
  }

  lemma BurstGrows(recent: map<Key, real>, n: nat)
    requires HoldsBurst(recent, n)
    ensures Template(n) !in recent && HoldsBurst(recent[Template(n) := 0.0], n + 1)
  {
    assert |Template(n).template| == n;
  }

  lemma {:induction false} BurstRemembered(n: nat)
    requires n <= EVICTION_SIZE + 1
    ensures HoldsBurst(MemoryAfter(EMPTY, Burst(n), 5.0).recent, n)
    decreases n
  {
    if n > 0 {
      hide HoldsBurst, Step, Template;
      BurstRemembered(n - 1);
      assert Burst(n)[..n - 1] == Burst(n - 1);
      var m := MemoryAfter(EMPTY, Burst(n - 1), 5.0);
      BurstGrows(m.recent, n - 1);
      BurstSize(m.recent, n - 1);
      NewTemplate(m, Template(n - 1), 0.0, 5.0);
    }
  }

  lemma BurstSize(recent: map<Key, real>, n: nat)
    requires HoldsBurst(recent, n)
    ensures |recent| == n
    ensures forall k :: k in recent ==> recent[k] == 0.0
  {
  }

  lemma AllStale(m: Memory, key: Key, now: real, window: real)
    requires |m.recent| > EVICTION_SIZE && forall k :: k in m.recent ==> m.recent[k] < now - window
    ensures Step(m, key, now, window).recent == map[key := now]
  {
    assert Kept(m.recent, now, window) == map[];
  }

  lemma LateReadingAfter(calls: seq<(Key, real)>, key: Key, other: Key)
    requires var m := MemoryAfter(EMPTY, calls, 5.0);
             |m.recent| > EVICTION_SIZE && key in m.recent && forall k :: k in m.recent ==> m.recent[k] == 0.0
    requires key != other
    ensures var later := calls + [(other, 10.0)];
            Decide(MemoryAfter(EMPTY, later, 5.0), key, 1.0, 5.0).Pass? && Plain(Run(EMPTY, later, 5.0), key, 1.0, 5.0).Drop?
  {
    hide Step, Kept, Remembers, Decide;
    var later := calls + [(other, 10.0)];
    var before, rest := MemoryAfter(EMPTY, calls, 5.0), Run(EMPTY, calls, 5.0);
    assert later[..|later| - 1] == calls;
    AllStale(before, other, 10.0, 5.0);
    RunRemembers(calls, 5.0, 0.0);
    Remembered(before, rest, key);
    LatePass(MemoryAfter(EMPTY, later, 5.0), key);
    var log := Run(EMPTY, later, 5.0);
    assert log[..|log| - 1] == rest;
  }

  /** The clock is read before the lock is taken, so a reading can reach the filter after a
      later one that evicted: the repeat of a template one second after it passed gets through. */
  lemma LateReadingPasses()
    ensures var calls := Burst(201) + [(Key("other", ""), 10.0)];
            Decide(MemoryAfter(EMPTY, calls, 5.0), Template(7), 1.0, 5.0).Pass?
            && Plain(Run(EMPTY, calls, 5.0), Template(7), 1.0, 5.0).Drop?
  {
    hide MemoryAfter, Run, Burst, Plain, Decide;
    BurstRemembered(201);
    BurstSize(MemoryAfter(EMPTY, Burst(201), 5.0).recent, 201);
    LateReadingAfter(Burst(201), Template(7), Key("other", ""));
  }

  lemma Remembered(m: Memory, log: seq<Arrival>, key: Key)
    requires Remembers(m, log, 5.0, 0.0) && key in m.recent
    ensures LastPass(log, key) == Some(m.recent[key])
  {
  }

  lemma LatePass(m: Memory, key: Key)
    requires key !in m.recent
    ensures Decide(m, key, 1.0, 5.0).Pass?
  {
  }
}
