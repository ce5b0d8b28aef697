/** The benchmark's phase runner: every task is a coroutine that waits for a worker from a
    bounded queue, runs, is recorded, and gives the worker back on every way out. Tasks
    interleave arbitrarily at their awaits, and may fail at any of them. */
module WorkerPool {

  type Worker = nat
  type Status = string

  datatype AgentResult = AgentResult(status: Status, tokens: int)

  datatype Record = Record(task: nat, worker: Worker, status: Status, tokens: int)

  /** Where one task's coroutine stands. A failed task may have been recorded before. */
  datatype Stage =
    | Waiting
    | Holding(worker: Worker)
    | Running(worker: Worker)
    | Resetting(worker: Worker)
    | Evaluating(worker: Worker, result: AgentResult)
    | Recorded(worker: Worker)
    | Finished
    | Failed(recorded: bool)

  /** `lost` keeps what was counted for a record that could not be written. */
  datatype State = State(
    queue: seq<Worker>, tasks: seq<Stage>, tokens: int, counts: map<Status, nat>, records: seq<Record>, lost: seq<Record>)

  datatype Action = Take | Launch | Return(result: AgentResult) | TimeOut | Reset | Write | WriteFails | Complete | Raise

  const TIMEOUT := AgentResult("timeout", 0)

  predicate Holds(s: Stage) {
    s.Holding? || s.Running? || s.Resetting? || s.Evaluating? || s.Recorded?
  }

  predicate HasRecord(s: Stage) {
    s.Recorded? || s.Finished? || (s.Failed? && s.recorded)
  }

  predicate Enabled(s: State, task: nat, action: Action) {
    && task < |s.tasks|
    && match action
       case Take => s.tasks[task].Waiting? && s.queue != []
       case Launch => s.tasks[task].Holding?
       case Return(_) => s.tasks[task].Running?
       case TimeOut => s.tasks[task].Running?
       case Reset => s.tasks[task].Resetting?
       case Write => s.tasks[task].Evaluating?
       case WriteFails => s.tasks[task].Evaluating?
       case Complete => s.tasks[task].Recorded?
       case Raise => !s.tasks[task].Finished? && !s.tasks[task].Failed?
  }

  function CountOf(counts: map<Status, nat>, status: Status): nat {
    if status in counts then counts[status] else 0
  }

  function Counted(s: State, result: AgentResult): State {
    s.(tokens := s.tokens + result.tokens, counts := s.counts[result.status := CountOf(s.counts, result.status) + 1])
  }

  function Released(s: State, task: nat, stage: Stage): State
    requires task < |s.tasks|
  {
    s.(queue := if Holds(s.tasks[task]) then s.queue + [s.tasks[task].worker] else s.queue, tasks := s.tasks[task := stage])
  }

  /** One atomic piece of one task, from one await to the next. */
  function Step(s: State, task: nat, action: Action): State
    requires Enabled(s, task, action)
  {
    var here := s.tasks[task];
    match action
    case Take => s.(queue := s.queue[1..], tasks := s.tasks[task := Holding(s.queue[0])])
    case Launch => s.(tasks := s.tasks[task := Running(here.worker)])
    case Return(result) => s.(tasks := s.tasks[task := Evaluating(here.worker, result)])
    case TimeOut => s.(tasks := s.tasks[task := Resetting(here.worker)])
    case Reset => s.(tasks := s.tasks[task := Evaluating(here.worker, TIMEOUT)])
    case Write =>
      Counted(s, here.result).(records := s.records + [Record(task, here.worker, here.result.status, here.result.tokens)],
                               tasks := s.tasks[task := Recorded(here.worker)])
    case WriteFails =>
      Released(Counted(s, here.result).(lost := s.lost + [Record(task, here.worker, here.result.status, here.result.tokens)]),
               task, Failed(false))
    case Complete => Released(s, task, Finished)
    case Raise => Released(s, task, Failed(here.Recorded?))
  }

  function Init(workers: seq<Worker>, tasks: nat): State {
    State(workers, seq(tasks, _ => Waiting), 0, map[], [], [])
  }

  predicate Possible(s: State, schedule: seq<(nat, Action)>)
    decreases |schedule|
  {
    schedule != [] ==>
      Enabled(s, schedule[0].0, schedule[0].1) && Possible(Step(s, schedule[0].0, schedule[0].1), schedule[1..])
  }

  function Run(s: State, schedule: seq<(nat, Action)>): State
    requires Possible(s, schedule)
    decreases |schedule|
  {
    if schedule == [] then s else Run(Step(s, schedule[0].0, schedule[0].1), schedule[1..])
  }

  // ----- sums over tasks and records ---------------------------------------------------------------

  predicate HoldsWorker(stage: Stage, w: Worker) {
    Holds(stage) && stage.worker == w
  }

  /** How many tasks hold this worker. */
  function Holders(tasks: seq<Stage>, w: Worker): nat {
    if tasks == [] then 0 else Holders(tasks[..|tasks| - 1], w) + if HoldsWorker(tasks[|tasks| - 1], w) then 1 else 0
  }

  function HoldingTasks(tasks: seq<Stage>): nat {
    if tasks == [] then 0 else HoldingTasks(tasks[..|tasks| - 1]) + if Holds(tasks[|tasks| - 1]) then 1 else 0
  }

  function RecordedTasks(tasks: seq<Stage>): nat {
    if tasks == [] then 0 else RecordedTasks(tasks[..|tasks| - 1]) + if HasRecord(tasks[|tasks| - 1]) then 1 else 0
  }

  function RunningTasks(tasks: seq<Stage>): nat {
    if tasks == [] then 0 else RunningTasks(tasks[..|tasks| - 1]) + if tasks[|tasks| - 1].Running? then 1 else 0
  }

  function TokensOf(records: seq<Record>): int {
    if records == [] then 0 else TokensOf(records[..|records| - 1]) + records[|records| - 1].tokens
  }

  function WithStatus(records: seq<Record>, status: Status): nat {
    if records == [] then 0
    else WithStatus(records[..|records| - 1], status) + if records[|records| - 1].status == status then 1 else 0
  }

  function OfTask(records: seq<Record>, task: nat): nat {
    if records == [] then 0 else OfTask(records[..|records| - 1], task) + if records[|records| - 1].task == task then 1 else 0
  }

  lemma RecordAppended(records: seq<Record>, record: Record)
    ensures TokensOf(records + [record]) == TokensOf(records) + record.tokens
    ensures forall status :: WithStatus(records + [record], status) == WithStatus(records, status) + if record.status == status then 1 else 0
    ensures forall task :: OfTask(records + [record], task) == OfTask(records, task) + if record.task == task then 1 else 0
  {
    assert (records + [record])[..|records|] == records;
  }

  lemma {:induction false} StageChanged(tasks: seq<Stage>, task: nat, stage: Stage)
    requires task < |tasks|
    ensures HoldingTasks(tasks[task := stage]) + (if Holds(tasks[task]) then 1 else 0)
         == HoldingTasks(tasks) + if Holds(stage) then 1 else 0
    ensures RecordedTasks(tasks[task := stage]) + (if HasRecord(tasks[task]) then 1 else 0)
         == RecordedTasks(tasks) + if HasRecord(stage) then 1 else 0
    decreases |tasks|
  {
    var n := |tasks| - 1;
    var changed := tasks[task := stage];
    if task == n {
      assert changed[..n] == tasks[..n];
    } else {
      assert changed[..n] == tasks[..n][task := stage];
      StageChanged(tasks[..n], task, stage);
    }
  }

  lemma {:induction false} HoldersChanged(tasks: seq<Stage>, task: nat, stage: Stage, w: Worker)
    requires task < |tasks|
    ensures Holders(tasks[task := stage], w) + (if HoldsWorker(tasks[task], w) then 1 else 0)
         == Holders(tasks, w) + if HoldsWorker(stage, w) then 1 else 0
    decreases |tasks|
  {
    var n := |tasks| - 1;
    var changed := tasks[task := stage];
    if task == n {
      assert changed[..n] == tasks[..n];
    } else {
      assert changed[..n] == tasks[..n][task := stage];
      HoldersChanged(tasks[..n], task, stage, w);
    }
  }

  // ----- what every interleaving keeps -----------------------------------------------------------------

  /** Every worker is queued or held, as often as the phase has it. */
  ghost predicate Conserved(s: State, workers: seq<Worker>) {
    && (forall w :: multiset(s.queue)[w] + Holders(s.tasks, w) == multiset(workers)[w])
    && |s.queue| + HoldingTasks(s.tasks) == |workers|
  }

  ghost predicate Booked(s: State) {
    && |s.records| == RecordedTasks(s.tasks)
    && (forall i :: 0 <= i < |s.tasks| ==> OfTask(s.records, i) == if HasRecord(s.tasks[i]) then 1 else 0)
    && (forall i :: 0 <= i < |s.lost| ==> s.lost[i].task < |s.tasks| && s.tasks[s.lost[i].task] == Failed(false))
    && s.tokens == TokensOf(s.records) + TokensOf(s.lost)
    && (forall status :: CountOf(s.counts, status) == WithStatus(s.records, status) + WithStatus(s.lost, status))
  }

  ghost predicate Invariant(s: State, workers: seq<Worker>) {
    Conserved(s, workers) && Booked(s)
  }

  lemma {:induction false} InitInvariant(workers: seq<Worker>, tasks: nat)
    ensures Invariant(Init(workers, tasks), workers)
    decreases tasks
  {
    if tasks > 0 {
      InitInvariant(workers, tasks - 1);
      assert Init(workers, tasks).tasks[..tasks - 1] == Init(workers, tasks - 1).tasks;
    }
  }

  /** What a step takes from the queue it puts into a hand, and the other way round. */
  lemma StepMoves(s: State, task: nat, action: Action, w: Worker)
    requires Enabled(s, task, action)
    ensures var next := Step(s, task, action);
            && next.tasks == s.tasks[task := next.tasks[task]]
            && multiset(next.queue)[w] + (if HoldsWorker(next.tasks[task], w) then 1 else 0)
               == multiset(s.queue)[w] + (if HoldsWorker(s.tasks[task], w) then 1 else 0)
            && |next.queue| + (if Holds(next.tasks[task]) then 1 else 0) == |s.queue| + (if Holds(s.tasks[task]) then 1 else 0)
  {
    if action.Take? {
      assert s.queue == [s.queue[0]] + s.queue[1..];
    }
  }

  lemma StepConserves(s: State, workers: seq<Worker>, task: nat, action: Action)
    requires Conserved(s, workers) && Enabled(s, task, action)
    ensures Conserved(Step(s, task, action), workers)
  {
    hide Holders, HoldingTasks, RecordedTasks, Step, Holds, HoldsWorker, HasRecord;
    var next := Step(s, task, action);
    StepMoves(s, task, action, 0);
    StageChanged(s.tasks, task, next.tasks[task]);
    forall w
      ensures multiset(next.queue)[w] + Holders(next.tasks, w) == multiset(workers)[w]
    {
      StepMoves(s, task, action, w);
      HoldersChanged(s.tasks, task, next.tasks[task], w);
    }
  }

  lemma StepBooks(s: State, task: nat, action: Action)
    requires Booked(s) && Enabled(s, task, action)
    ensures Booked(Step(s, task, action))
  {
    hide HoldingTasks, RecordedTasks, OfTask, TokensOf, WithStatus;
    var next := Step(s, task, action);
    StageChanged(s.tasks, task, next.tasks[task]);
    if action.Write? {
      RecordAppended(s.records, next.records[|s.records|]);
    }
    if action.WriteFails? {
      RecordAppended(s.lost, next.lost[|s.lost|]);
    }
  }

  lemma StepInvariant(s: State, workers: seq<Worker>, task: nat, action: Action)
    requires Invariant(s, workers) && Enabled(s, task, action)
    ensures Invariant(Step(s, task, action), workers)
  {
    hide Conserved, Booked;
    StepConserves(s, workers, task, action);
    StepBooks(s, task, action);
  }

  lemma {:induction false} RunInvariant(s: State, workers: seq<Worker>, schedule: seq<(nat, Action)>)
    requires Invariant(s, workers) && Possible(s, schedule)
    ensures Invariant(Run(s, schedule), workers)
    ensures |Run(s, schedule).tasks| == |s.tasks|
    decreases |schedule|
  {
    hide Invariant;
    if schedule != [] {
      StepInvariant(s, workers, schedule[0].0, schedule[0].1);
      RunInvariant(Step(s, schedule[0].0, schedule[0].1), workers, schedule[1..]);
    }
  }

  lemma Reachable(workers: seq<Worker>, tasks: nat, schedule: seq<(nat, Action)>)
    requires Possible(Init(workers, tasks), schedule)
    ensures Invariant(Run(Init(workers, tasks), schedule), workers)
    ensures |Run(Init(workers, tasks), schedule).tasks| == tasks
  {
    InitInvariant(workers, tasks);
    RunInvariant(Init(workers, tasks), workers, schedule);
  }

  lemma {:induction false} HeldBy(tasks: seq<Stage>, i: nat, w: Worker)
    requires i < |tasks| && HoldsWorker(tasks[i], w)
    ensures Holders(tasks, w) >= 1
    ensures forall j :: 0 <= j < i && HoldsWorker(tasks[j], w) ==> Holders(tasks, w) >= 2
    decreases |tasks|
  {
    var n := |tasks| - 1;
    if i < n {
      HeldBy(tasks[..n], i, w);
    } else {
      forall j | 0 <= j < i && HoldsWorker(tasks[j], w)
        ensures Holders(tasks, w) >= 2
      {
        HeldBy(tasks[..n], j, w);
      }
    }
  }

  lemma {:induction false} RunningAreHeld(tasks: seq<Stage>)
    ensures RunningTasks(tasks) <= HoldingTasks(tasks)
    decreases |tasks|
  {
    if tasks != [] {
      RunningAreHeld(tasks[..|tasks| - 1]);
    }
  }

  predicate Distinct(workers: seq<Worker>) {
    forall i, j :: 0 <= i < j < |workers| ==> workers[i] != workers[j]
  }

  lemma {:induction false} DistinctOnce(workers: seq<Worker>, w: Worker)
    requires Distinct(workers)
    ensures multiset(workers)[w] <= 1
    decreases |workers|
  {
    if workers != [] {
      assert workers == [workers[0]] + workers[1..];
      DistinctOnce(workers[1..], w);
      assert workers[0] !in workers[1..];
    }
  }

  /** At every moment of every interleaving: queued and held workers are together exactly the
      phase's workers, no worker is held by two tasks or queued while held, and at most as many
      tasks run as there are workers. */
  lemma WorkersConserved(workers: seq<Worker>, tasks: nat, schedule: seq<(nat, Action)>)
    requires Possible(Init(workers, tasks), schedule)
    ensures var s := Run(Init(workers, tasks), schedule);
            && (forall w :: multiset(s.queue)[w] + Holders(s.tasks, w) == multiset(workers)[w])
            && RunningTasks(s.tasks) <= |workers|
            && (Distinct(workers) ==>
                  forall i, j :: 0 <= j < i < |s.tasks| && Holds(s.tasks[i]) && Holds(s.tasks[j]) ==>
                    s.tasks[i].worker != s.tasks[j].worker)
            && (Distinct(workers) ==> forall i :: 0 <= i < |s.tasks| && Holds(s.tasks[i]) ==> s.tasks[i].worker !in s.queue)
  {
    hide Run, Possible, Holders, HoldingTasks, RunningTasks, Booked;
    Reachable(workers, tasks, schedule);
    var s := Run(Init(workers, tasks), schedule);
    RunningAreHeld(s.tasks);
    if Distinct(workers) {
      forall i | 0 <= i < |s.tasks| && Holds(s.tasks[i])
        ensures forall j :: 0 <= j < i && Holds(s.tasks[j]) ==> s.tasks[i].worker != s.tasks[j].worker
        ensures s.tasks[i].worker !in s.queue
      {
        var w := s.tasks[i].worker;
        HeldBy(s.tasks, i, w);
        DistinctOnce(workers, w);
        assert multiset(s.queue)[w] + Holders(s.tasks, w) <= 1;
        assert w !in multiset(s.queue);
        forall j | 0 <= j < i && Holds(s.tasks[j])
          ensures s.tasks[j].worker != w
        {
          assert !HoldsWorker(s.tasks[j], w);
        }
      }
    }
  }

  /** No task ever has two records, and the totals are the records' and those of writes that
      failed; when every task finished, there is exactly one record for each and the totals are
      the sums over the records. */
  lemma RecordsExact(workers: seq<Worker>, tasks: nat, schedule: seq<(nat, Action)>)
    requires Possible(Init(workers, tasks), schedule)
    ensures var s := Run(Init(workers, tasks), schedule);
            && |s.tasks| == tasks
            && (forall i :: 0 <= i < |s.tasks| ==> OfTask(s.records, i) <= 1)
            && (forall i :: 0 <= i < |s.tasks| && s.tasks[i].Finished? ==> OfTask(s.records, i) == 1)
            && s.tokens == TokensOf(s.records) + TokensOf(s.lost)
            && ((forall i :: 0 <= i < |s.tasks| ==> s.tasks[i].Finished?) ==>
                  && |s.records| == tasks
                  && s.tokens == TokensOf(s.records)
                  && (forall status :: CountOf(s.counts, status) == WithStatus(s.records, status))
                  && multiset(s.queue) == multiset(workers))
  {
    hide Run, Possible, OfTask;
    Reachable(workers, tasks, schedule);
    var s := Run(Init(workers, tasks), schedule);
    if forall i :: 0 <= i < |s.tasks| ==> s.tasks[i].Finished? {
      LostMeansFailed(s);
      AllFinished(s.tasks);
      assert forall w :: multiset(s.queue)[w] == multiset(workers)[w];
    }
  }

  lemma LostMeansFailed(s: State)
    requires Booked(s)
    ensures s.lost != [] ==> exists i :: 0 <= i < |s.tasks| && s.tasks[i] == Failed(false)
  {
    if s.lost != [] {
      assert s.tasks[s.lost[0].task] == Failed(false);
    }
  }

  lemma {:induction false} AllFinished(tasks: seq<Stage>)
    requires forall i :: 0 <= i < |tasks| ==> tasks[i].Finished?
    ensures RecordedTasks(tasks) == |tasks| && forall w :: Holders(tasks, w) == 0
    decreases |tasks|
  {
    if tasks != [] {
      AllFinished(tasks[..|tasks| - 1]);
    }
  }

  // ----- where a record comes from -------------------------------------------------------------------------

  /** The task took this worker from the head of the queue, or had it from the start. */
  ghost predicate WorkerFrom(s: State, schedule: seq<(nat, Action)>, task: nat, worker: Worker) {
    || (task < |s.tasks| && Holds(s.tasks[task]) && s.tasks[task].worker == worker)
    || exists i :: 0 <= i < |schedule| && schedule[i] == (task, Take) && Possible(s, schedule[..i])
                   && Run(s, schedule[..i]).queue != [] && Run(s, schedule[..i]).queue[0] == worker
  }

  /** The adapter returned this result for the task, or it timed out. */
  ghost predicate ResultFrom(s: State, schedule: seq<(nat, Action)>, task: nat, status: Status, tokens: int) {
    || (task < |s.tasks| && s.tasks[task].Evaluating? && s.tasks[task].result == AgentResult(status, tokens))
    || (task < |s.tasks| && s.tasks[task].Resetting? && status == "timeout" && tokens == 0)
    || (exists i :: 0 <= i < |schedule| && schedule[i] == (task, Return(AgentResult(status, tokens))))
    || (status == "timeout" && tokens == 0 && exists i :: 0 <= i < |schedule| && schedule[i] == (task, TimeOut))
  }

  lemma {:induction false} RecordOrigin(s: State, schedule: seq<(nat, Action)>, r: Record)
    requires Possible(s, schedule) && r in Run(s, schedule).records + Run(s, schedule).lost
    ensures r in s.records + s.lost || (WorkerFrom(s, schedule, r.task, r.worker) && ResultFrom(s, schedule, r.task, r.status, r.tokens))
    decreases |schedule|
  {
    if schedule != [] {
      var next := Step(s, schedule[0].0, schedule[0].1);
      RecordOrigin(next, schedule[1..], r);
      if r !in s.records + s.lost {
        if r !in next.records + next.lost {
          WorkerStep(s, schedule, r.task, r.worker);
          ResultStep(s, schedule, r.task, r.status, r.tokens);
        }
      }
    }
  }

  lemma WorkerStep(s: State, schedule: seq<(nat, Action)>, task: nat, worker: Worker)
    requires schedule != [] && Possible(s, schedule)
    requires WorkerFrom(Step(s, schedule[0].0, schedule[0].1), schedule[1..], task, worker)
    ensures WorkerFrom(s, schedule, task, worker)
  {
    var next := Step(s, schedule[0].0, schedule[0].1);
    if task < |next.tasks| && Holds(next.tasks[task]) && next.tasks[task].worker == worker {
      if schedule[0] == (task, Take) {
        assert schedule[..0] == [] && Run(s, schedule[..0]) == s;
      }
    } else {
      var i :| 0 <= i < |schedule[1..]| && schedule[1..][i] == (task, Take) && Possible(next, schedule[1..][..i])
               && Run(next, schedule[1..][..i]).queue != [] && Run(next, schedule[1..][..i]).queue[0] == worker;
      assert schedule[..i + 1][1..] == schedule[1..][..i];
      assert schedule[i + 1] == (task, Take) && Run(s, schedule[..i + 1]) == Run(next, schedule[1..][..i]);
    }
  }

  lemma ResultStep(s: State, schedule: seq<(nat, Action)>, task: nat, status: Status, tokens: int)
    requires schedule != [] && Possible(s, schedule)
    requires ResultFrom(Step(s, schedule[0].0, schedule[0].1), schedule[1..], task, status, tokens)
    ensures ResultFrom(s, schedule, task, status, tokens)
  {
    assert forall i :: 0 <= i < |schedule[1..]| ==> schedule[1..][i] == schedule[i + 1];
    assert schedule[0] in schedule;
  }

  /** Whatever the interleaving: a record, written or lost, names the worker its task took from the
      head of the queue, and the status and tokens the adapter returned for that task, or a timeout
      without tokens when it timed out. */
  lemma RecordsTellReturns(workers: seq<Worker>, tasks: nat, schedule: seq<(nat, Action)>, r: Record)
    requires Possible(Init(workers, tasks), schedule)
    requires r in Run(Init(workers, tasks), schedule).records + Run(Init(workers, tasks), schedule).lost
    ensures exists i :: 0 <= i < |schedule| && schedule[i] == (r.task, Take) && Possible(Init(workers, tasks), schedule[..i])
              && Run(Init(workers, tasks), schedule[..i]).queue != [] && Run(Init(workers, tasks), schedule[..i]).queue[0] == r.worker
    ensures (exists i :: 0 <= i < |schedule| && schedule[i] == (r.task, Return(AgentResult(r.status, r.tokens))))
            || (r.status == "timeout" && r.tokens == 0 && exists i :: 0 <= i < |schedule| && schedule[i] == (r.task, TimeOut))
  {
    hide Run, Possible;
    RecordOrigin(Init(workers, tasks), schedule, r);
  }

  // ----- every schedule ends, and ends with every task over ------------------------------------------------

  function Rank(stage: Stage): nat {
    match stage
    case Waiting => 6
    case Holding(_) => 5
    case Running(_) => 4
    case Resetting(_) => 3
    case Evaluating(_, _) => 2
    case Recorded(_) => 1
    case _ => 0
  }

  function Remaining(tasks: seq<Stage>): nat {
    if tasks == [] then 0 else Remaining(tasks[..|tasks| - 1]) + Rank(tasks[|tasks| - 1])
  }

  lemma {:induction false} RankChanged(tasks: seq<Stage>, task: nat, stage: Stage)
    requires task < |tasks|
    ensures Remaining(tasks[task := stage]) + Rank(tasks[task]) == Remaining(tasks) + Rank(stage)
    decreases |tasks|
  {
    var n := |tasks| - 1;
    if task == n {
      assert tasks[task := stage][..n] == tasks[..n];
    } else {
      assert tasks[task := stage][..n] == tasks[..n][task := stage];
      RankChanged(tasks[..n], task, stage);
    }
  }

  lemma StepRank(s: State, task: nat, action: Action)
    requires Enabled(s, task, action)
    ensures Step(s, task, action).tasks == s.tasks[task := Step(s, task, action).tasks[task]]
    ensures Rank(Step(s, task, action).tasks[task]) < Rank(s.tasks[task])
  {
  }

  lemma {:induction false} ScheduleBounded(s: State, schedule: seq<(nat, Action)>)
    requires Possible(s, schedule)
    ensures |schedule| + Remaining(Run(s, schedule).tasks) <= Remaining(s.tasks)
    decreases |schedule|
  {
    if schedule != [] {
      var next := Step(s, schedule[0].0, schedule[0].1);
      StepRank(s, schedule[0].0, schedule[0].1);
      hide Remaining, Step, Rank, Enabled;
      RankChanged(s.tasks, schedule[0].0, next.tasks[schedule[0].0]);
      ScheduleBounded(next, schedule[1..]);
    }
  }

  lemma {:induction false} InitRank(workers: seq<Worker>, tasks: nat)
    ensures Remaining(Init(workers, tasks).tasks) == 6 * tasks
    decreases tasks
  {
    if tasks > 0 {
      InitRank(workers, tasks - 1);
      assert Init(workers, tasks).tasks[..tasks - 1] == Init(workers, tasks - 1).tasks;
    }
  }

  /** The action a task that is not over can take next on its own, without failing. */
  function Onward(stage: Stage): Action {
    match stage
    case Waiting => Take
    case Holding(_) => Launch
    case Running(_) => Return(AgentResult("success", 0))
    case Resetting(_) => Reset
    case Evaluating(_, _) => Write
    case _ => Complete
  }

  lemma {:induction false} HolderExists(tasks: seq<Stage>)
    requires HoldingTasks(tasks) > 0
    ensures exists i :: 0 <= i < |tasks| && Holds(tasks[i])
    decreases |tasks|
  {
    var n := |tasks| - 1;
    if !Holds(tasks[n]) {
      HolderExists(tasks[..n]);
      var i :| 0 <= i < n && Holds(tasks[..n][i]);
      assert Holds(tasks[i]);
    }
  }

  /** With at least one worker the phase never deadlocks: a run takes at most six steps a task,
      and as long as some task is not over, some task can take a step without failing. */
  lemma NeverStuck(workers: seq<Worker>, tasks: nat, schedule: seq<(nat, Action)>)
    requires Possible(Init(workers, tasks), schedule) && workers != []
    ensures |schedule| <= 6 * tasks
    ensures var s := Run(Init(workers, tasks), schedule);
            (exists i :: 0 <= i < |s.tasks| && Rank(s.tasks[i]) > 0) ==>
              exists i :: 0 <= i < |s.tasks| && Rank(s.tasks[i]) > 0 && Enabled(s, i, Onward(s.tasks[i]))
  {
    hide Run, Possible, HoldingTasks;
    InitRank(workers, tasks);
    ScheduleBounded(Init(workers, tasks), schedule);
    Reachable(workers, tasks, schedule);
    var s := Run(Init(workers, tasks), schedule);
    if exists i :: 0 <= i < |s.tasks| && Rank(s.tasks[i]) > 0 {
      var i :| 0 <= i < |s.tasks| && Rank(s.tasks[i]) > 0;
      if s.queue == [] {
        HolderExists(s.tasks);
        var h :| 0 <= h < |s.tasks| && Holds(s.tasks[h]);
        assert Enabled(s, h, Onward(s.tasks[h]));
      } else {
        assert Enabled(s, i, Onward(s.tasks[i]));
      }
    }
  }

  // ----- the pieces that change shared state ---------------------------------------------------------------

  class Phase {
    var queue: seq<Worker>
    var tasks: seq<Stage>
    var tokens: int
    var counts: map<Status, nat>
    var records: seq<Record>
    ghost var lost: seq<Record>

    constructor (workers: seq<Worker>, taskCount: nat)
      ensures Snapshot() == Init(workers, taskCount)
    {
      queue, tasks, tokens, counts, records, lost := workers, seq(taskCount, _ => Waiting), 0, map[], [], [];
    }

    ghost function Snapshot(): State
      reads this
    {
      State(queue, tasks, tokens, counts, records, lost)
    }

    method TakeWorker(task: nat)
      requires Enabled(Snapshot(), task, Take)
      modifies this
      ensures Snapshot() == Step(old(Snapshot()), task, Take)
      ensures old(queue) == [old(queue)[0]] + queue && tasks == old(tasks)[task := Holding(old(queue)[0])]
    {
      var worker := queue[0];
      queue := queue[1..];
      tasks := tasks[task := Holding(worker)];
    }

    /** Under the results lock: totals first, then the record, whose write may fail. */
    method RecordResult(task: nat, appended: bool)
      requires Enabled(Snapshot(), task, Write)
      modifies this
      ensures Snapshot() == Step(old(Snapshot()), task, if appended then Write else WriteFails)
      ensures var stage := old(tasks)[task];
              && tokens == old(tokens) + stage.result.tokens
              && CountOf(counts, stage.result.status) == CountOf(old(counts), stage.result.status) + 1
              && (forall status :: status != stage.result.status ==> CountOf(counts, status) == CountOf(old(counts), status))
              && records == old(records) + (if appended then [Record(task, stage.worker, stage.result.status, stage.result.tokens)] else [])
              && queue == old(queue) + (if appended then [] else [stage.worker])
    {
      var worker, result := tasks[task].worker, tasks[task].result;
      tokens := tokens + result.tokens;
      counts := counts[result.status := CountOf(counts, result.status) + 1];
      var record := Record(task, worker, result.status, result.tokens);
      if appended {
        records := records + [record];
        tasks := tasks[task := Recorded(worker)];
      } else {
        lost := lost + [record];
        ReleaseWorker(task, Failed(false));
      }
    }

    method ReleaseWorker(task: nat, over: Stage)
      requires task < |tasks|
      modifies this
      ensures Snapshot() == Released(old(Snapshot()), task, over)
      ensures tasks == old(tasks)[task := over]
      ensures queue == old(queue) + (if old(tasks)[task].Waiting? || old(tasks)[task].Finished? || old(tasks)[task].Failed? then []
                                     else [old(tasks)[task].worker])
    {
      if Holds(tasks[task]) {
        queue := queue + [tasks[task].worker];
      }
      tasks := tasks[task := over];
    }
  }
}
