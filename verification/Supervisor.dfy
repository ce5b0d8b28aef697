/** The service supervisor: crashed services come back after a delay, unless they crash too
    often inside a sliding window. The decisions use a pruned failure list; the theorems are
    about the whole history of failures and launches. */
module Supervisor {

  type Name = string

  const HEALTHY_WINDOW: real := 30.0
  const MAX_RAPID_FAILURES := 5
  const RESPAWN_DELAY: real := 2.0

  /** What asking the system for a process gives: a child, nothing, or a child whose output
      thread could not start and which is terminated again. */
  datatype Launch = Spawned(pid: nat) | NotSpawned | Abandoned(pid: nat)

  /** The supervisor's dictionaries, and the stop markers on disk. */
  datatype State = State(
    processes: map<Name, nat>,
    recent: map<Name, seq<real>>,
    pending: map<Name, real>,
    shuttingDown: bool,
    markers: set<Name>)

  datatype Event =
    | Start(name: Name, pid: nat, at: real)
    | Exit(name: Name, ret: int, at: real)
    | Respawn(name: Name, launch: Launch, at: real)
    | Mark(name: Name)
    | Unmark(name: Name)
    | Shutdown

  /** The failures still inside the window. */
  function Window(failures: seq<real>, now: real): seq<real> {
    if failures == [] then []
    else if now - failures[0] <= HEALTHY_WINDOW then [failures[0]] + Window(failures[1..], now)
    else Window(failures[1..], now)
  }

  function Known(m: map<Name, seq<real>>, name: Name): seq<real> {
    if name in m then m[name] else []
  }

  function HandleExit(s: State, name: Name, ret: int, now: real): State {
    var left := s.(processes := s.processes - {name}, pending := s.pending - {name});
    if ret == 0 || s.shuttingDown || name in s.markers then
      left.(recent := s.recent - {name}, markers := s.markers - {name})
    else
      var failures := Window(Known(s.recent, name), now) + [now];
      if |failures| >= MAX_RAPID_FAILURES then left.(recent := s.recent[name := failures])
      else left.(recent := s.recent[name := failures], pending := left.pending[name := now + RESPAWN_DELAY])
  }

  predicate Due(s: State, name: Name, now: real) {
    !s.shuttingDown && name in s.pending && s.pending[name] <= now
  }

  function RespawnOne(s: State, name: Name, launch: Launch, now: real): State {
    if s.shuttingDown then s.(pending := s.pending - {name})
    else if !Due(s, name, now) then s
    else if name in s.markers then s.(pending := s.pending - {name}, markers := s.markers - {name})
    else s.(pending := s.pending - {name},
            processes := if launch.Spawned? then s.processes[name := launch.pid] else s.processes - {name})
  }

  function Step(s: State, e: Event): State {
    match e
    case Start(name, pid, _) => s.(processes := s.processes[name := pid])
    case Exit(name, ret, at) => HandleExit(s, name, ret, at)
    case Respawn(name, launch, at) => RespawnOne(s, name, launch, at)
    case Mark(name) => s.(markers := s.markers + {name})
    case Unmark(name) => s.(markers := s.markers - {name})
    case Shutdown => s.(shuttingDown := true)
  }

  function Steps(s: State, events: seq<Event>): State
    decreases |events|
  {
    if events == [] then s else Steps(Step(s, events[0]), events[1..])
  }

  lemma {:induction false} StepsAppend(s: State, events: seq<Event>, e: Event)
    ensures Steps(s, events + [e]) == Step(Steps(s, events), e)
    decreases |events|
  {
    if events == [] {
      assert (events + [e])[1..] == [];
    } else {
      assert (events + [e])[1..] == events[1..] + [e];
      StepsAppend(Step(s, events[0]), events[1..], e);
    }
  }

  lemma {:induction false} StepsConcat(s: State, first: seq<Event>, second: seq<Event>)
    ensures Steps(s, first + second) == Steps(Steps(s, first), second)
    decreases |first|
  {
    if first == [] {
      assert first + second == second;
    } else {
      assert (first + second)[1..] == first[1..] + second;
      StepsConcat(Step(s, first[0]), first[1..], second);
    }
  }

  // ----- the whole history -----------------------------------------------------------------------

  /** The state together with what no dictionary keeps: every failure that was neither clean,
      requested nor part of a shutdown, every launch, and the children not yet gone. */
  datatype Traced = Traced(
    state: State,
    failures: map<Name, seq<real>>,
    launches: map<Name, seq<real>>,
    live: map<nat, Name>,
    clock: real)

  function Init(markers: set<Name>, clock: real): Traced {
    Traced(State(map[], map[], map[], false, markers), map[], map[], map[], clock)
  }

  predicate Failure(s: State, e: Event) {
    e.Exit? && e.ret != 0 && !s.shuttingDown && e.name !in s.markers
  }

  predicate Launches(s: State, e: Event) {
    e.Start? || (e.Respawn? && Due(s, e.name, e.at) && e.name !in s.markers && e.launch.Spawned?)
  }

  function NewPid(e: Event): nat
    requires e.Start? || (e.Respawn? && e.launch.Spawned?)
  {
    if e.Start? then e.pid else e.launch.pid
  }

  function Next(t: Traced, e: Event): Traced {
    var s := t.state;
    Traced(
      Step(s, e),
      if Failure(s, e) then t.failures[e.name := Known(t.failures, e.name) + [e.at]] else t.failures,
      if Launches(s, e) then t.launches[e.name := Known(t.launches, e.name) + [e.at]] else t.launches,
      if Launches(s, e) then t.live[NewPid(e) := e.name]
      else if e.Exit? && e.name in s.processes then t.live - {s.processes[e.name]}
      else t.live,
      if e.Start? || e.Exit? || e.Respawn? then e.at else t.clock)
  }

  /** What can happen: the clock never goes back, the system hands out a process number no
      live child has, each service is first started once, only a registered child exits. */
  predicate Possible(t: Traced, e: Event) {
    && (e.Start? || e.Exit? || e.Respawn? ==> t.clock <= e.at)
    && (Launches(t.state, e) ==> NewPid(e) !in t.live)
    && (e.Start? ==> e.name !in t.launches)
    && (e.Exit? ==> e.name in t.state.processes)
  }

  function Run(t: Traced, events: seq<Event>): Traced
    decreases |events|
  {
    if events == [] then t else Run(Next(t, events[0]), events[1..])
  }

  predicate PossibleRun(t: Traced, events: seq<Event>)
    decreases |events|
  {
    events != [] ==> Possible(t, events[0]) && PossibleRun(Next(t, events[0]), events[1..])
  }

  // ----- the pruned list against the whole history ------------------------------------------------

  lemma {:induction false} WindowAppend(f: seq<real>, g: seq<real>, now: real)
    ensures Window(f + g, now) == Window(f, now) + Window(g, now)
  {
    if f == [] {
      assert f + g == g;
    } else {
      assert (f + g)[1..] == f[1..] + g;
      WindowAppend(f[1..], g, now);
      assert [f[0]] + (Window(f[1..], now) + Window(g, now)) == [f[0]] + Window(f[1..], now) + Window(g, now);
    }
  }

  /** What was pruned earlier is outside every later window. */
  lemma {:induction false} PrunedStaysOut(f: seq<real>, earlier: real, now: real)
    requires earlier <= now
    ensures Window(Window(f, earlier), now) == Window(f, now)
  {
    if f != [] {
      PrunedStaysOut(f[1..], earlier, now);
      if earlier - f[0] <= HEALTHY_WINDOW {
        var kept := [f[0]] + Window(f[1..], earlier);
        assert kept[1..] == Window(f[1..], earlier);
      }
    }
  }

  predicate Ascending(f: seq<real>) {
    forall i, j :: 0 <= i < j < |f| ==> f[i] <= f[j]
  }

  lemma {:induction false} WholeWindow(f: seq<real>, now: real)
    requires Ascending(f) && f != [] && now - f[0] <= HEALTHY_WINDOW
    ensures Window(f, now) == f
  {
    if |f| > 1 {
      assert f[0] <= f[1];
      WholeWindow(f[1..], now);
    }
    assert f == [f[0]] + f[1..];
  }

  /** Counting the window is looking at one old failure. */
  lemma {:induction false} WindowCount(f: seq<real>, now: real, n: nat)
    requires Ascending(f) && n > 0
    ensures |Window(f, now)| >= n <==> |f| >= n && now - f[|f| - n] <= 30.0
  {
    if f != [] {
      if now - f[0] <= HEALTHY_WINDOW {
        WholeWindow(f, now);
        assert |f| >= n ==> f[0] <= f[|f| - n];
      } else {
        WindowCount(f[1..], now, n);
        assert |f| > n ==> f[1..][|f| - 1 - n] == f[|f| - n];
        assert |Window(f[1..], now)| == |Window(f, now)|;
      }
    }
  }

  /** Failure `i` is the fifth inside one window. */
  predicate Fifth(f: seq<real>, i: int)
    requires i < |f|
  {
    i >= 4 && f[i] - f[i - 4] <= 30.0
  }

  // ----- what every reachable state keeps -------------------------------------------------------------

  predicate Accounted(t: Traced, name: Name) {
    var f, l := Known(t.failures, name), Known(t.launches, name);
    var running, waiting := name in t.state.processes, name in t.state.pending;
    && !(running && waiting)
    && Ascending(f) && (forall i :: 0 <= i < |f| ==> f[i] <= t.clock)
    && |f| <= |l| <= |f| + 1
    && (running ==> |l| == |f| + 1)
    && (waiting ==> |l| == |f| && f != [] && t.state.pending[name] == f[|f| - 1] + RESPAWN_DELAY && !Fifth(f, |f| - 1))
    && (forall i :: 0 <= i && i + 1 < |l| ==> f[i] + RESPAWN_DELAY <= l[i + 1] && !Fifth(f, i))
    && (f == [] ==> name !in t.state.recent)
    && ((running || waiting) && f != [] ==> name in t.state.recent && t.state.recent[name] == Window(f, f[|f| - 1]))
  }

  ghost predicate Invariant(t: Traced) {
    && (forall name :: Accounted(t, name))
    && (forall name :: name in t.launches <==> Known(t.launches, name) != [])
    && (forall pid :: pid in t.live ==> t.live[pid] in t.state.processes && t.state.processes[t.live[pid]] == pid)
  }

  lemma OthersAccounted(t: Traced, e: Event, name: Name)
    requires Accounted(t, name) && Possible(t, e)
    requires e.Shutdown? || e.name != name || e.Mark? || e.Unmark?
    ensures Accounted(Next(t, e), name)
  {
    hide Window, Fifth, Ascending;
  }

  lemma AscendingAppend(f: seq<real>, x: real)
    requires Ascending(f) && forall i :: 0 <= i < |f| ==> f[i] <= x
    ensures Ascending(f + [x]) && (f + [x])[|f|] == x
    ensures forall i :: 0 <= i < |f| ==> (f + [x])[i] == f[i] && (Fifth(f + [x], i) <==> Fifth(f, i))
  {
  }

  /** The pruned list and the new failure are the window over the whole history. */
  lemma FailureWindow(f: seq<real>, recent: seq<real>, now: real)
    requires Ascending(f) && (forall i :: 0 <= i < |f| ==> f[i] <= now)
    requires recent == if f == [] then [] else Window(f, f[|f| - 1])
    ensures Window(recent, now) + [now] == Window(f + [now], now)
    ensures |Window(f + [now], now)| >= 5 <==> Fifth(f + [now], |f|)
  {
    AscendingAppend(f, now);
    WindowAppend(f, [now], now);
    WindowCount(f + [now], now, 5);
    if f != [] {
      PrunedStaysOut(f, f[|f| - 1], now);
    }
  }

  lemma FailureAccounted(t: Traced, e: Event)
    requires e.Exit? && Accounted(t, e.name) && Possible(t, e) && Failure(t.state, e)
    ensures Accounted(Next(t, e), e.name)
    ensures var f := Known(t.failures, e.name) + [e.at];
            && Next(t, e).state.recent[e.name] == Window(f, e.at)
            && (e.name in Next(t, e).state.pending <==> !Fifth(f, |f| - 1))
  {
    hide Window, Fifth, Ascending;
    var f := Known(t.failures, e.name);
    FailureWindow(f, Known(t.state.recent, e.name), e.at);
    AscendingAppend(f, e.at);
    var u := Next(t, e);
    assert Known(u.failures, e.name) == f + [e.at] && Known(u.launches, e.name) == Known(t.launches, e.name);
    assert e.name !in u.state.processes && u.state.recent[e.name] == Window(f + [e.at], e.at);
  }

  lemma CleanExitAccounted(t: Traced, e: Event)
    requires e.Exit? && Accounted(t, e.name) && Possible(t, e) && !Failure(t.state, e)
    ensures Accounted(Next(t, e), e.name)
  {
    hide Window, Fifth, Ascending;
  }

  lemma ExitAccounted(t: Traced, e: Event)
    requires e.Exit? && Accounted(t, e.name) && Possible(t, e)
    ensures Accounted(Next(t, e), e.name)
    ensures Failure(t.state, e) ==>
              var f := Known(t.failures, e.name) + [e.at];
              && Next(t, e).state.recent[e.name] == Window(f, e.at)
              && (e.name in Next(t, e).state.pending <==> !Fifth(f, |f| - 1))
  {
    hide Accounted, Next, Window, Fifth;
    if Failure(t.state, e) {
      FailureAccounted(t, e);
    } else {
      CleanExitAccounted(t, e);
    }
  }

  lemma LaunchAccounted(t: Traced, e: Event)
    requires (e.Start? || e.Respawn?) && Accounted(t, e.name) && Possible(t, e)
    requires e.name in t.launches <==> Known(t.launches, e.name) != []
    ensures Accounted(Next(t, e), e.name)
  {
    hide Window;
  }

  lemma LiveKept(t: Traced, e: Event)
    requires Invariant(t) && Possible(t, e)
    ensures forall pid :: pid in Next(t, e).live ==>
              Next(t, e).live[pid] in Next(t, e).state.processes && Next(t, e).state.processes[Next(t, e).live[pid]] == pid
    ensures forall name :: name in Next(t, e).launches <==> Known(Next(t, e).launches, name) != []
  {
    hide Window, Fifth, Ascending;
    if !e.Shutdown? {
      assert Accounted(t, e.name);
    }
  }

  lemma NextInvariant(t: Traced, e: Event)
    requires Invariant(t) && Possible(t, e)
    ensures Invariant(Next(t, e))
  {
    hide Accounted, Next;
    LiveKept(t, e);
    forall name
      ensures Accounted(Next(t, e), name)
    {
      assert Accounted(t, name);
      if e.Shutdown? || e.Mark? || e.Unmark? || e.name != name {
        OthersAccounted(t, e, name);
      } else if e.Exit? {
        ExitAccounted(t, e);
      } else {
        LaunchAccounted(t, e);
      }
    }
  }

  lemma {:induction false} RunInvariant(t: Traced, events: seq<Event>)
    requires Invariant(t) && PossibleRun(t, events)
    ensures Invariant(Run(t, events))
    decreases |events|
  {
    hide Invariant, Next;
    if events != [] {
      NextInvariant(t, events[0]);
      RunInvariant(Next(t, events[0]), events[1..]);
    }
  }

  lemma Reachable(markers: set<Name>, clock: real, events: seq<Event>)
    requires PossibleRun(Init(markers, clock), events)
    ensures Invariant(Run(Init(markers, clock), events))
  {
    RunInvariant(Init(markers, clock), events);
  }

  // ----- theorems over every run -------------------------------------------------------------------------

  /** A service is running, or waiting to run, never both; and no service ever has two live
      children. */
  lemma OneChildPerService(markers: set<Name>, clock: real, events: seq<Event>, pid: nat, other: nat)
    requires PossibleRun(Init(markers, clock), events)
    ensures var t := Run(Init(markers, clock), events);
            && t.state.processes.Keys !! t.state.pending.Keys
            && (pid in t.live && other in t.live && t.live[pid] == t.live[other] ==> pid == other)
  {
    hide Run, PossibleRun, Init;
    Reachable(markers, clock, events);
    Disjoint(Run(Init(markers, clock), events));
  }

  /** The restart budget, on the whole history: launch i+1 follows failure i by at least the
      delay, and there is one only if failure i is more than thirty seconds after the fourth
      failure before it. */
  lemma RestartBudget(markers: set<Name>, clock: real, events: seq<Event>, name: Name, i: nat)
    requires PossibleRun(Init(markers, clock), events)
    requires i + 1 < |Known(Run(Init(markers, clock), events).launches, name)|
    ensures var t := Run(Init(markers, clock), events);
            var f, l := Known(t.failures, name), Known(t.launches, name);
            && i < |f|
            && f[i] + 2.0 <= l[i + 1]
            && (i >= 4 ==> f[i] - f[i - 4] > 30.0)
  {
    hide Run, PossibleRun, Init;
    Reachable(markers, clock, events);
    assert Accounted(Run(Init(markers, clock), events), name);
  }

  lemma FourSteps(f: seq<real>)
    requires |f| >= 5 && forall i :: 0 <= i && i + 1 < |f| ==> f[i + 1] - f[i] <= 7.5
    ensures f[4] - f[0] <= 30.0
  {
    assert f[3 + 1] - f[3] <= 7.5 && f[2 + 1] - f[2] <= 7.5 && f[1 + 1] - f[1] <= 7.5 && f[0 + 1] - f[0] <= 7.5;
  }

  /** A service whose failures come at most 7.5 seconds apart is started at most five times. */
  lemma RapidFailuresStop(markers: set<Name>, clock: real, events: seq<Event>, name: Name)
    requires PossibleRun(Init(markers, clock), events)
    requires var f := Known(Run(Init(markers, clock), events).failures, name);
             forall i :: 0 <= i && i + 1 < |f| ==> f[i + 1] - f[i] <= 7.5
    ensures |Known(Run(Init(markers, clock), events).launches, name)| <= 5
  {
    hide Run, PossibleRun, Init;
    var t := Run(Init(markers, clock), events);
    if |Known(t.launches, name)| > 5 {
      RestartBudget(markers, clock, events, name, 4);
      FourSteps(Known(t.failures, name));
    }
  }

  /** The pruned list decides as the whole history would: after a failure, the kept list is the
      window over every failure ever, and a respawn is scheduled exactly when that failure is
      not the fifth inside one window. */
  lemma PruningInvisible(markers: set<Name>, clock: real, events: seq<Event>, e: Event)
    requires PossibleRun(Init(markers, clock), events)
    requires Possible(Run(Init(markers, clock), events), e) && Failure(Run(Init(markers, clock), events).state, e)
    ensures var t := Run(Init(markers, clock), events);
            var f := Known(t.failures, e.name) + [e.at];
            && Known(Next(t, e).state.recent, e.name) == Window(f, e.at)
            && (e.name in Next(t, e).state.pending <==> !Fifth(f, |f| - 1))
  {
    hide Run, PossibleRun, Init, Window, Fifth;
    Reachable(markers, clock, events);
    var t := Run(Init(markers, clock), events);
    assert Accounted(t, e.name);
    ExitAccounted(t, e);
  }

  /** Started once, and now neither running nor waiting. */
  predicate Retired(t: Traced, name: Name) {
    name in t.launches && name !in t.state.processes && name !in t.state.pending
  }

  /** Every way a service leaves the supervisor for good: a clean exit, any exit during a
      shutdown or under a stop marker, the fifth rapid failure, a stop marker found instead of a
      respawn, a respawn that fails, a shutdown that drops what was waiting. */
  lemma RetiresWhen(t: Traced, e: Event)
    requires Invariant(t) && Possible(t, e)
    ensures e.Exit? ==>
              (Retired(Next(t, e), e.name) <==>
                 || e.ret == 0 || t.state.shuttingDown || e.name in t.state.markers
                 || (|Known(t.failures, e.name)| >= 4 && e.at - Known(t.failures, e.name)[|Known(t.failures, e.name)| - 4] <= 30.0))
    ensures e.Respawn? && e.name in t.state.pending ==>
              (Retired(Next(t, e), e.name) <==>
                 || t.state.shuttingDown
                 || (t.state.pending[e.name] <= e.at && (e.name in t.state.markers || !e.launch.Spawned?)))
  {
    hide Window, Ascending;
    if e.Exit? || e.Respawn? {
      assert Accounted(t, e.name);
      if e.Exit? {
        ExitAccounted(t, e);
      }
    }
  }

  /** Nothing ever starts such a service again. */
  lemma {:induction false} RetiredForever(t: Traced, events: seq<Event>, name: Name)
    requires Retired(t, name) && PossibleRun(t, events)
    ensures Retired(Run(t, events), name)
    ensures Run(t, events).launches[name] == t.launches[name]
    decreases |events|
  {
    hide Window;
    if events != [] {
      RetiredForever(Next(t, events[0]), events[1..], name);
    }
  }

  // ----- every scheduled respawn is carried out -----------------------------------------------------------

  /** What a pass at `now` does to a service that was waiting, on the dictionaries before and
      after: not yet due, it waits on; due, it waits no more, and it is running with the child's
      number exactly when no stop marker stood and the launch spawned one. */
  predicate Attended(s: State, u: State, name: Name, now: real, launch: Launch)
    requires name in s.pending
  {
    if s.pending[name] > now then
      && name in u.pending && u.pending[name] == s.pending[name] && name !in u.processes
      && (name in u.markers <==> name in s.markers)
    else
      && name !in u.pending && name !in u.markers
      && (name in u.processes <==> name !in s.markers && launch.Spawned?)
      && (name in u.processes ==> u.processes[name] == launch.pid)
  }

  predicate Untouched(s: State, u: State, name: Name) {
    && (name in u.pending <==> name in s.pending) && (name in s.pending ==> u.pending[name] == s.pending[name])
    && (name in u.processes <==> name in s.processes) && (name in s.processes ==> u.processes[name] == s.processes[name])
    && (name in u.markers <==> name in s.markers)
  }

  /** One pass over waiting services with distinct names, service by service. */
  lemma {:induction false} PassAttends(t: Traced, names: seq<Name>, now: real, launch: Name -> Launch, name: Name)
    requires !t.state.shuttingDown
    requires forall i, j :: 0 <= i < j < |names| ==> names[i] != names[j]
    requires name in names ==> name in t.state.pending && name !in t.state.processes
    ensures var u := Run(t, RespawnEvents(names, now, launch));
            && !u.state.shuttingDown && u.state.recent == t.state.recent && u.failures == t.failures
            && (name in names ==> Attended(t.state, u.state, name, now, launch(name)))
            && (name !in names ==> Untouched(t.state, u.state, name))
            && Known(u.launches, name) == Known(t.launches, name)
               + if name in names && t.state.pending[name] <= now && name !in t.state.markers && launch(name).Spawned? then [now] else []
    decreases |names|
  {
    var events := RespawnEvents(names, now, launch);
    if names != [] {
      assert events[1..] == RespawnEvents(names[1..], now, launch);
      var u := Next(t, events[0]);
      FirstAttended(t, names[0], now, launch, name);
      assert names == [names[0]] + names[1..];
      PassAttends(u, names[1..], now, launch, name);
    }
  }

  lemma FirstAttended(t: Traced, first: Name, now: real, launch: Name -> Launch, name: Name)
    requires !t.state.shuttingDown
    requires name == first ==> name in t.state.pending && name !in t.state.processes
    ensures var u := Next(t, Respawn(first, launch(first), now));
            && !u.state.shuttingDown && u.state.recent == t.state.recent && u.failures == t.failures
            && (name == first ==> Attended(t.state, u.state, name, now, launch(name)))
            && (name != first ==> Untouched(t.state, u.state, name))
            && Known(u.launches, name) == Known(t.launches, name)
               + if name == first && t.state.pending[name] <= now && name !in t.state.markers && launch(name).Spawned? then [now] else []
  {
  }

  /** Nothing but its own due respawn, a stop marker or a shutdown takes a waiting service out. */
  predicate LeftToWait(events: seq<Event>, name: Name, due: real) {
    forall i :: 0 <= i < |events| ==>
      !events[i].Shutdown? && events[i] != Mark(name) && (events[i].Respawn? && events[i].name == name ==> events[i].at < due)
  }

  lemma {:induction false} StillWaiting(t: Traced, events: seq<Event>, name: Name)
    requires Invariant(t) && PossibleRun(t, events)
    requires !t.state.shuttingDown && name !in t.state.markers && name in t.state.pending && LeftToWait(events, name, t.state.pending[name])
    ensures var u := Run(t, events);
            && Invariant(u) && !u.state.shuttingDown && name !in u.state.markers
            && name in u.state.pending && u.state.pending[name] == t.state.pending[name]
            && Known(u.launches, name) == Known(t.launches, name)
    decreases |events|
  {
    if events != [] {
      var e := events[0];
      var u := Next(t, e);
      assert Accounted(t, name);
      WaitsOn(t, e, name);
      NextInvariant(t, e);
      hide Invariant, Next, Accounted;
      assert LeftToWait(events[1..], name, t.state.pending[name]) by {
        assert forall i :: 0 <= i < |events[1..]| ==> events[1..][i] == events[i + 1];
      }
      StillWaiting(u, events[1..], name);
    }
  }

  lemma WaitsOn(t: Traced, e: Event, name: Name)
    requires Accounted(t, name) && (name in t.launches <==> Known(t.launches, name) != []) && Possible(t, e)
    requires !t.state.shuttingDown && name !in t.state.markers && name in t.state.pending
    requires !e.Shutdown? && e != Mark(name) && (e.Respawn? && e.name == name ==> e.at < t.state.pending[name])
    ensures var u := Next(t, e);
            && !u.state.shuttingDown && name !in u.state.markers
            && name in u.state.pending && u.state.pending[name] == t.state.pending[name]
            && Known(u.launches, name) == Known(t.launches, name)
  {
    hide Window, Fifth, Ascending;
  }

  /** The other half of the budget, over every run: after a failure at `at` that is not the fifth
      within thirty seconds, and whatever else happens short of a stop marker for the service, a
      shutdown or an earlier round at or after `at + 2.0`, the first round of the monitor at or
      after `at + 2.0` asks for the service; it is running with the child's number, and has one
      more launch, exactly when the system spawned one, and it waits no more either way. */
  lemma RespawnCarriedOut(markers: set<Name>, clock: real, events: seq<Event>, name: Name, ret: int, at: real, between: seq<Event>,
                          waiting: seq<Name>, now: real, launch: Name -> Launch)
    requires PossibleRun(Init(markers, clock), events)
    requires var t := Run(Init(markers, clock), events);
             var f := Known(t.failures, name) + [at];
             var u := Next(t, Exit(name, ret, at));
             && Possible(t, Exit(name, ret, at))
             && ret != 0 && !t.state.shuttingDown && name !in t.state.markers
             && (|f| < 5 || f[|f| - 1] - f[|f| - 5] > 30.0)
             && PossibleRun(u, between) && LeftToWait(between, name, at + 2.0)
             && now >= at + 2.0
             && (forall x :: x in waiting <==> x in Run(u, between).state.pending)
             && (forall i, j :: 0 <= i < j < |waiting| ==> waiting[i] != waiting[j])
    ensures var t := Run(Init(markers, clock), events);
            var u := Run(Next(t, Exit(name, ret, at)), between);
            var after := Run(u, RespawnEvents(waiting, now, launch));
            && name in u.state.pending && u.state.pending[name] == at + 2.0 && name !in u.state.processes
            && Known(u.launches, name) == Known(t.launches, name)
            && name !in after.state.pending
            && (name in after.state.processes <==> launch(name).Spawned?)
            && (launch(name).Spawned? ==> after.state.processes[name] == launch(name).pid)
            && Known(after.launches, name) == Known(t.launches, name) + if launch(name).Spawned? then [now] else []
  {
    hide Invariant, Accounted, Init, Run, PossibleRun, Window;
    var t := Run(Init(markers, clock), events);
    Reachable(markers, clock, events);
    FailureWaits(t, name, ret, at);
    var e := Exit(name, ret, at);
    NextInvariant(t, e);
    StillWaiting(Next(t, e), between, name);
    var u := Run(Next(t, e), between);
    NotRunning(u, name);
    PassAttends(u, waiting, now, launch, name);
  }

  lemma FailureWaits(t: Traced, name: Name, ret: int, at: real)
    requires Invariant(t) && Possible(t, Exit(name, ret, at))
    requires ret != 0 && !t.state.shuttingDown && name !in t.state.markers
    requires var f := Known(t.failures, name) + [at]; |f| < 5 || f[|f| - 1] - f[|f| - 5] > 30.0
    ensures var u := Next(t, Exit(name, ret, at));
            && name in u.state.pending && u.state.pending[name] == at + 2.0 && !u.state.shuttingDown && name !in u.state.markers
            && Known(u.launches, name) == Known(t.launches, name)
  {
    hide Window, Ascending;
    assert Accounted(t, name);
    ExitAccounted(t, Exit(name, ret, at));
  }

  lemma NotRunning(t: Traced, name: Name)
    requires Invariant(t) && name in t.state.pending
    ensures name !in t.state.processes
  {
    assert Accounted(t, name);
  }

  // ----- the supervisor object ---------------------------------------------------------------------------

  function SetOf(names: seq<Name>): set<Name> {
    set name | name in names
  }

  function RespawnEvents(names: seq<Name>, now: real, launch: Name -> Launch): (events: seq<Event>)
    ensures |events| == |names|
  {
    seq(|names|, i requires 0 <= i < |names| => Respawn(names[i], launch(names[i]), now))
  }

  /** The exits a polling pass sees, each handled at its own reading of the clock. */
  function ExitEvents(names: seq<Name>, poll: Name -> (bool, int), at: seq<real>): seq<Event>
    requires |at| == |names|
  {
    if names == [] then []
    else
      var n := |names| - 1;
      ExitEvents(names[..n], poll, at[..n])
      + if poll(names[n]).0 then [Exit(names[n], poll(names[n]).1, at[n])] else []
  }

  class ServiceSupervisor {
    var processes: map<Name, nat>
    var recentFailures: map<Name, seq<real>>
    var pendingRespawns: map<Name, real>
    var shuttingDown: bool
    var markers: set<Name>

    constructor ()
      ensures Snapshot() == State(map[], map[], map[], false, {})
    {
      processes, recentFailures, pendingRespawns, shuttingDown, markers := map[], map[], map[], false, {};
    }

    function Snapshot(): State
      reads this
    {
      State(processes, recentFailures, pendingRespawns, shuttingDown, markers)
    }

    method StartService(name: Name, launch: Launch) returns (started: bool)
      modifies `processes
      ensures started == launch.Spawned?
      ensures launch.Spawned? ==> processes == old(processes)[name := launch.pid]
      ensures launch.NotSpawned? ==> processes == old(processes)
      ensures launch.Abandoned? ==> processes == old(processes) - {name}
    {
      match launch
      case NotSpawned => return false;
      case Spawned(pid) => processes := processes[name := pid]; return true;
      case Abandoned(pid) =>
        processes := processes[name := pid];
        processes := processes - {name};
        return false;
    }

    method HandleServiceExit(name: Name, ret: int, now: real)
      requires name in processes
      modifies this
      ensures Snapshot() == Step(old(Snapshot()), Exit(name, ret, now))
      ensures processes == old(processes) - {name} && shuttingDown == old(shuttingDown)
      ensures if ret == 0 || shuttingDown || name in old(markers) then
                && pendingRespawns == old(pendingRespawns) - {name}
                && recentFailures == old(recentFailures) - {name}
                && markers == old(markers) - {name}
              else
                var failures := Window(Known(old(recentFailures), name), now) + [now];
                && recentFailures == old(recentFailures)[name := failures]
                && pendingRespawns == (if |failures| < 5 then old(pendingRespawns)[name := now + 2.0] else old(pendingRespawns) - {name})
                && markers == old(markers)
    {
      processes := processes - {name};
      var stopRequested := name in markers;
      pendingRespawns := pendingRespawns - {name};
      if ret == 0 || shuttingDown || stopRequested {
        recentFailures := recentFailures - {name};
        markers := markers - {name};
        return;
      }
      var previous := Known(recentFailures, name);
      var failures := [];
      for i := 0 to |previous|
        invariant failures + Window(previous[i..], now) == Window(previous, now)
      {
        if now - previous[i] <= HEALTHY_WINDOW {
          failures := failures + [previous[i]];
        }
        assert previous[i..][1..] == previous[i + 1..];
      }
      assert failures == Window(previous, now);
      failures := failures + [now];
      recentFailures := recentFailures[name := failures];
      if |failures| >= MAX_RAPID_FAILURES { return; }
      pendingRespawns := pendingRespawns[name := now + RESPAWN_DELAY];
    }

    /** One waiting service, at the moment the pass reached it. */
    method RespawnService(name: Name, respawnAt: real, now: real, launch: Launch)
      requires !shuttingDown && name in pendingRespawns && pendingRespawns[name] == respawnAt && name !in processes
      modifies this
      ensures Snapshot() == Step(old(Snapshot()), Respawn(name, launch, now))
      ensures !shuttingDown
    {
      if respawnAt > now { return; }
      pendingRespawns := pendingRespawns - {name};
      if name in markers {
        markers := markers - {name};
        return;
      }
      var started := StartService(name, launch);
      if !started {
        processes := processes - {name};
      }
    }

    /** One pass over a snapshot of what is waiting, in whatever order the dictionary gives. */
    method RespawnDueServices(names: seq<Name>, now: real, launch: Name -> Launch)
      requires forall name :: name in names <==> name in pendingRespawns
      requires forall i, j :: 0 <= i < j < |names| ==> names[i] != names[j]
      requires processes.Keys !! pendingRespawns.Keys
      modifies this
      ensures Snapshot() == Steps(old(Snapshot()), RespawnEvents(names, now, launch))
      ensures recentFailures == old(recentFailures) && shuttingDown == old(shuttingDown)
      ensures shuttingDown ==> pendingRespawns == map[] && processes == old(processes) && markers == old(markers)
      ensures !shuttingDown ==>
                && (forall name :: name in old(pendingRespawns) ==> Attended(old(Snapshot()), Snapshot(), name, now, launch(name)))
                && (forall name :: name !in old(pendingRespawns) ==> Untouched(old(Snapshot()), Snapshot(), name))
    {
      hide Step, Steps, Attended, Untouched;
      ghost var events := RespawnEvents(names, now, launch);
      ghost var before := Snapshot();
      assert events[..|names|] == events;
      if shuttingDown {
        pendingRespawns := map[];
        DroppedAll(before, names, now, launch, |names|);
        assert names[..|names|] == names;
        assert before.pending - SetOf(names) == map[];
        return;
      }
      PassOnDictionaries(before, names, now, launch);
      var scheduled := pendingRespawns;
      assert Steps(before, events[..0]) == before by { NoSteps(before, events[..0]); }
      for i := 0 to |names|
        invariant Snapshot() == Steps(before, events[..i])
        invariant !shuttingDown
        invariant forall j :: i <= j < |names| ==>
                    names[j] in pendingRespawns && pendingRespawns[names[j]] == scheduled[names[j]] && names[j] !in processes
      {
        ghost var here := Snapshot();
        assert events[..i + 1] == events[..i] + [events[i]];
        StepsAppend(before, events[..i], events[i]);
        forall j | i < j < |names| {
          OthersWait(here, names[i], launch(names[i]), now, names[j]);
        }
        RespawnService(names[i], scheduled[names[i]], now, launch(names[i]));
      }
    }

    method RequestShutdown()
      modifies `shuttingDown
      ensures shuttingDown
    {
      shuttingDown := true;
    }

    /** One round of the monitor: respawn what is due, then reap every child that has exited. */
    method MonitorRound(waiting: seq<Name>, now: real, launch: Name -> Launch, children: seq<Name>, poll: Name -> (bool, int), at: seq<real>)
      requires forall name :: name in waiting <==> name in pendingRespawns
      requires forall i, j :: 0 <= i < j < |waiting| ==> waiting[i] != waiting[j]
      requires processes.Keys !! pendingRespawns.Keys
      requires |at| == |children| && forall i, j :: 0 <= i < j < |children| ==> children[i] != children[j]
      requires forall name :: name in children <==>
                 name in Steps(Snapshot(), RespawnEvents(waiting, now, launch)).processes
      modifies this
      ensures Snapshot() == Steps(old(Snapshot()), RespawnEvents(waiting, now, launch) + ExitEvents(children, poll, at))
    {
      hide Step, Steps, ExitEvents;
      ghost var before := Snapshot();
      RespawnDueServices(waiting, now, launch);
      ghost var respawned := Snapshot();
      NoExits(respawned, children[..0], poll, at[..0]);
      for i := 0 to |children|
        invariant Snapshot() == Steps(respawned, ExitEvents(children[..i], poll, at[..i]))
        invariant forall j :: i <= j < |children| ==> children[j] in processes
      {
        ghost var here := Snapshot();
        var (exited, ret) := poll(children[i]);
        NextExit(respawned, children, poll, at, i);
        if exited {
          forall j | i < j < |children| {
            OthersRun(here, children[i], ret, at[i], children[j]);
          }
          HandleServiceExit(children[i], ret, at[i]);
        }
      }
      assert children[..|children|] == children && at[..|at|] == at;
      StepsConcat(before, RespawnEvents(waiting, now, launch), ExitEvents(children, poll, at));
    }
  }

  /** The same pass without the history. */
  lemma PassOnDictionaries(s: State, names: seq<Name>, now: real, launch: Name -> Launch)
    requires !s.shuttingDown && s.processes.Keys !! s.pending.Keys
    requires forall name :: name in names <==> name in s.pending
    requires forall i, j :: 0 <= i < j < |names| ==> names[i] != names[j]
    ensures var u := Steps(s, RespawnEvents(names, now, launch));
            && !u.shuttingDown && u.recent == s.recent
            && (forall name :: name in s.pending ==> Attended(s, u, name, now, launch(name)))
            && (forall name :: name !in s.pending ==> Untouched(s, u, name))
  {
    hide Attended, Untouched, Next;
    var t := Traced(s, map[], map[], map[], now);
    var events := RespawnEvents(names, now, launch);
    RunIsSteps(t, events);
    forall name
      ensures name in s.pending ==> Attended(s, Steps(s, events), name, now, launch(name))
      ensures name !in s.pending ==> Untouched(s, Steps(s, events), name)
      ensures !Steps(s, events).shuttingDown && Steps(s, events).recent == s.recent
    {
      PassAttends(t, names, now, launch, name);
    }
    PassAttends(t, names, now, launch, "");
  }

  /** The reaping half of a round: exactly the children that have exited, in their order, each with
      its own code and clock reading. */
  lemma {:induction false} ExitsAreSeen(names: seq<Name>, poll: Name -> (bool, int), at: seq<real>)
    requires |at| == |names|
    ensures var events := ExitEvents(names, poll, at);
            && (forall i :: 0 <= i < |names| && poll(names[i]).0 ==> Exit(names[i], poll(names[i]).1, at[i]) in events)
            && (forall e :: e in events ==>
                  exists i :: 0 <= i < |names| && poll(names[i]).0 && e == Exit(names[i], poll(names[i]).1, at[i]))
    decreases |names|
  {
    if names != [] {
      var n := |names| - 1;
      ExitsAreSeen(names[..n], poll, at[..n]);
      var earlier := ExitEvents(names[..n], poll, at[..n]);
      forall e | e in earlier
        ensures exists i :: 0 <= i < |names| && poll(names[i]).0 && e == Exit(names[i], poll(names[i]).1, at[i])
      {
        var i :| 0 <= i < |names[..n]| && poll(names[..n][i]).0 && e == Exit(names[..n][i], poll(names[..n][i]).1, at[..n][i]);
        assert names[i] == names[..n][i];
      }
      forall i | 0 <= i < |names| && poll(names[i]).0
        ensures Exit(names[i], poll(names[i]).1, at[i]) in ExitEvents(names, poll, at)
      {
        if i < n { assert names[..n][i] == names[i] && at[..n][i] == at[i]; }
      }
    }
  }

  lemma NoSteps(s: State, events: seq<Event>)
    requires events == []
    ensures Steps(s, events) == s
  {
  }

  lemma NoExits(s: State, names: seq<Name>, poll: Name -> (bool, int), at: seq<real>)
    requires names == [] && at == []
    ensures Steps(s, ExitEvents(names, poll, at)) == s
  {
  }

  lemma NextExit(s: State, names: seq<Name>, poll: Name -> (bool, int), at: seq<real>, i: nat)
    requires |at| == |names| && i < |names|
    ensures var so := Steps(s, ExitEvents(names[..i], poll, at[..i]));
            Steps(s, ExitEvents(names[..i + 1], poll, at[..i + 1]))
            == if poll(names[i]).0 then Step(so, Exit(names[i], poll(names[i]).1, at[i])) else so
  {
    hide Step;
    var earlier := ExitEvents(names[..i], poll, at[..i]);
    assert names[..i + 1][..i] == names[..i] && at[..i + 1][..i] == at[..i];
    StepsAppend(s, earlier, Exit(names[i], poll(names[i]).1, at[i]));
    assert earlier + [] == earlier;
  }

  lemma OthersWait(s: State, name: Name, launch: Launch, now: real, other: Name)
    requires other != name && other in s.pending && other !in s.processes && !s.shuttingDown
    ensures var t := Step(s, Respawn(name, launch, now));
            other in t.pending && t.pending[other] == s.pending[other] && other !in t.processes && !t.shuttingDown
  {
  }

  lemma OthersRun(s: State, name: Name, ret: int, now: real, other: Name)
    requires other != name && other in s.processes
    ensures other in Step(s, Exit(name, ret, now)).processes
  {
  }

  lemma {:induction false} DroppedAll(s: State, names: seq<Name>, now: real, launch: Name -> Launch, n: nat)
    requires s.shuttingDown && n <= |names|
    ensures Steps(s, RespawnEvents(names, now, launch)[..n]) == s.(pending := s.pending - SetOf(names[..n]))
    decreases n
  {
    var events := RespawnEvents(names, now, launch);
    if n == 0 {
      assert s.pending - SetOf(names[..0]) == s.pending;
    } else {
      DroppedAll(s, names, now, launch, n - 1);
      assert events[..n] == events[..n - 1] + [events[n - 1]];
      StepsAppend(s, events[..n - 1], events[n - 1]);
      assert names[..n] == names[..n - 1] + [names[n - 1]];
      assert s.pending - SetOf(names[..n - 1]) - {names[n - 1]} == s.pending - SetOf(names[..n]);
    }
  }

  // ----- a monitor round is a possible run -----------------------------------------------------------------

  lemma {:induction false} RunIsSteps(t: Traced, events: seq<Event>)
    ensures Run(t, events).state == Steps(t.state, events)
    decreases |events|
  {
    if events != [] {
      RunIsSteps(Next(t, events[0]), events[1..]);
    }
  }

  lemma {:induction false} PossibleConcat(t: Traced, first: seq<Event>, second: seq<Event>)
    ensures Run(t, first + second) == Run(Run(t, first), second)
    ensures PossibleRun(t, first + second) <==> PossibleRun(t, first) && PossibleRun(Run(t, first), second)
    decreases |first|
  {
    hide Next, Possible;
    if first == [] {
      assert first + second == second;
    } else {
      assert (first + second)[1..] == first[1..] + second;
      PossibleConcat(Next(t, first[0]), first[1..], second);
    }
  }

  /** The system gives each new child a number of its own. */
  predicate FreshPids(t: Traced, names: seq<Name>, launch: Name -> Launch) {
    && (forall i :: 0 <= i < |names| && launch(names[i]).Spawned? ==> launch(names[i]).pid !in t.live)
    && (forall i, j :: 0 <= i < j < |names| && launch(names[i]).Spawned? && launch(names[j]).Spawned? ==>
                         launch(names[i]).pid != launch(names[j]).pid)
  }

  lemma {:induction false} RespawnsPossible(t: Traced, names: seq<Name>, now: real, launch: Name -> Launch)
    requires t.clock <= now && FreshPids(t, names, launch)
    ensures PossibleRun(t, RespawnEvents(names, now, launch))
    ensures Run(t, RespawnEvents(names, now, launch)).clock <= now
    decreases |names|
  {
    var events := RespawnEvents(names, now, launch);
    if names != [] {
      hide Step;
      assert events[1..] == RespawnEvents(names[1..], now, launch);
      var u := Next(t, events[0]);
      assert FreshPids(u, names[1..], launch);
      RespawnsPossible(u, names[1..], now, launch);
    }
  }

  lemma OneExit(t: Traced, events: seq<Event>)
    requires events == [] || (|events| == 1 && events[0].Exit? && events[0].name in t.state.processes && t.clock <= events[0].at)
    ensures PossibleRun(t, events)
    ensures events == [] ==> Run(t, events) == t
    ensures events != [] ==>
              && Run(t, events).clock == events[0].at
              && forall name :: name != events[0].name && name in t.state.processes ==> name in Run(t, events).state.processes
  {
    hide Window;
    if events != [] {
      assert events[1..] == [];
    }
  }

  lemma {:induction false} ExitsPossible(t: Traced, names: seq<Name>, poll: Name -> (bool, int), at: seq<real>)
    requires |at| == |names| && Ascending(at) && (forall i :: 0 <= i < |at| ==> t.clock <= at[i])
    requires forall i, j :: 0 <= i < j < |names| ==> names[i] != names[j]
    requires forall i :: 0 <= i < |names| ==> names[i] in t.state.processes
    ensures PossibleRun(t, ExitEvents(names, poll, at))
    ensures var u := Run(t, ExitEvents(names, poll, at));
            && (forall name :: name !in names && name in t.state.processes ==> name in u.state.processes)
            && (if names == [] then u == t else u.clock <= at[|at| - 1])
    decreases |names|
  {
    if names != [] {
      hide Window, Step, Next, Possible;
      var n := |names| - 1;
      ExitsPossible(t, names[..n], poll, at[..n]);
      assert names[n] !in names[..n];
      var before := ExitEvents(names[..n], poll, at[..n]);
      var last := if poll(names[n]).0 then [Exit(names[n], poll(names[n]).1, at[n])] else [];
      PossibleConcat(t, before, last);
      assert names == names[..n] + [names[n]];
      var u := Run(t, before);
      assert names[n] in u.state.processes && u.clock <= at[n];
      OneExit(u, last);
    }
  }

  /** What a round of the monitor does to the dictionaries is a possible run from any state the
      invariant allows, so every theorem above holds of the running supervisor. */
  lemma MonitorRoundPossible(t: Traced, waiting: seq<Name>, now: real, launch: Name -> Launch,
                             children: seq<Name>, poll: Name -> (bool, int), at: seq<real>)
    requires Invariant(t) && t.clock <= now && FreshPids(t, waiting, launch)
    requires |at| == |children| && Ascending(at) && (forall i :: 0 <= i < |at| ==> now <= at[i])
    requires forall i, j :: 0 <= i < j < |children| ==> children[i] != children[j]
    requires forall name :: name in children <==> name in Steps(t.state, RespawnEvents(waiting, now, launch)).processes
    ensures t.state.processes.Keys !! t.state.pending.Keys
    ensures var events := RespawnEvents(waiting, now, launch) + ExitEvents(children, poll, at);
            && PossibleRun(t, events)
            && Invariant(Run(t, events))
            && Run(t, events).state == Steps(t.state, events)
  {
    hide Invariant, Accounted, Step, Next, Possible;
    var first, second := RespawnEvents(waiting, now, launch), ExitEvents(children, poll, at);
    RespawnsPossible(t, waiting, now, launch);
    RunIsSteps(t, first);
    ExitsPossible(Run(t, first), children, poll, at);
    PossibleConcat(t, first, second);
    RunIsSteps(t, first + second);
    RunInvariant(t, first + second);
    Disjoint(t);
  }

  lemma Disjoint(t: Traced)
    requires Invariant(t)
    ensures t.state.processes.Keys !! t.state.pending.Keys
  {
    forall name
      ensures !(name in t.state.processes && name in t.state.pending)
    {
      assert Accounted(t, name);
    }
  }
}
