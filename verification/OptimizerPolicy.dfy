/** The optimizer section passes seven rules. This module gives their joint effect field by
    field, so that theorems about the section need not replay the seven steps. */
module OptimizerPolicy {
  import opened Wrappers
  import opened Json
  import opened SectionRules

  predicate HasUserSwitch(f: Fields) { OPTIMIZE_USER_PLAYBOOKS in f || AUTO_UPDATE_USER_PLAYBOOKS in f }

  predicate HasAgentSwitch(f: Fields) { OPTIMIZE_AGENT_PLAYBOOKS in f || AUTO_UPDATE_PENDING_AGENT_PLAYBOOKS in f }

  predicate HasWorkSwitch(f: Fields) { ENABLED in f || MAX_METRIC_CALLS in f }

  function Switch(a: Adapters, f: Fields, k: Key, default: bool): Option<bool> {
    a.boolean(Get(f, k, Bool(default)))
  }

  function Limit(a: Adapters, f: Fields): Option<int> {
    a.positive(Get(f, MAX_METRIC_CALLS, Int(20)))
  }

  function MergeCap(a: Adapters, f: Fields): Option<int> {
    a.nonNegative(Get(f, MAX_MERGE_INVOCATIONS, Int(5)))
  }

  function Scheduling(f: Fields): Fields {
    map k | k in f && (k == ABORT_COOLDOWN_THRESHOLD || k == COOLDOWN_AFTER_ABORTS_SECONDS) :: f[k]
  }

  predicate SchedulingAccepted(a: Adapters, f: Fields) {
    ABORT_COOLDOWN_THRESHOLD in f || COOLDOWN_AFTER_ABORTS_SECONDS in f ==> a.schedulingOk(Scheduling(f))
  }

  predicate TransportAccepted(a: Adapters, f: Fields) {
    && (SCHEDULER_JITTER_SECONDS in f ==> a.jitterOk(f[SCHEDULER_JITTER_SECONDS]))
    && (WEBHOOK_MAX_RETRIES in f ==> a.nonNegative(f[WEBHOOK_MAX_RETRIES]).Some?)
    && (WEBHOOK_BACKOFF_BASE_SECONDS in f ==> a.backoffOk(f[WEBHOOK_BACKOFF_BASE_SECONDS]))
    && SchedulingAccepted(a, f)
  }

  predicate UserAccepted(a: Adapters, f: Fields) {
    HasUserSwitch(f) ==>
      Switch(a, f, OPTIMIZE_USER_PLAYBOOKS, false).Some? && Switch(a, f, AUTO_UPDATE_USER_PLAYBOOKS, false).Some?
  }

  predicate AgentAccepted(a: Adapters, f: Fields) {
    HasAgentSwitch(f) ==>
      Switch(a, f, OPTIMIZE_AGENT_PLAYBOOKS, false).Some? && Switch(a, f, AUTO_UPDATE_PENDING_AGENT_PLAYBOOKS, true).Some?
  }

  predicate WorkAccepted(a: Adapters, f: Fields) {
    && (USE_MERGE in f ==> a.boolean(f[USE_MERGE]).Some? && MergeCap(a, f).Some?)
    && (EARLY_STOP_SCORE in f ==> a.stopScoreOk(f[EARLY_STOP_SCORE]) && Switch(a, f, ENABLED, false).Some?)
    && (HasWorkSwitch(f) ==> METRIC_CALL_BUDGET !in f && Switch(a, f, ENABLED, false).Some? && Limit(a, f).Some?)
  }

  predicate Accepted(a: Adapters, f: Fields) {
    TransportAccepted(a, f) && UserAccepted(a, f) && AgentAccepted(a, f) && WorkAccepted(a, f)
  }

  predicate Retired(k: Key) {
    || k == SCHEDULER_JITTER_SECONDS || k == WEBHOOK_MAX_RETRIES || k == WEBHOOK_BACKOFF_BASE_SECONDS
    || k == OPTIMIZE_USER_PLAYBOOKS || k == AUTO_UPDATE_USER_PLAYBOOKS || k == OPTIMIZE_AGENT_PLAYBOOKS
    || k == AUTO_UPDATE_PENDING_AGENT_PLAYBOOKS || k == USE_MERGE || k == EARLY_STOP_SCORE
    || k == ENABLED || k == MAX_METRIC_CALLS
  }

  function UserGate(a: Adapters, f: Fields): Option<Json>
    requires UserAccepted(a, f)
  {
    if USER_PLAYBOOKS_ENABLED in f || !HasUserSwitch(f) then Lookup(f, USER_PLAYBOOKS_ENABLED)
    else Some(Bool(Switch(a, f, OPTIMIZE_USER_PLAYBOOKS, false).value && Switch(a, f, AUTO_UPDATE_USER_PLAYBOOKS, false).value))
  }

  function AgentGate(a: Adapters, f: Fields): Option<Json>
    requires AgentAccepted(a, f)
  {
    if AGENT_PLAYBOOKS_ENABLED in f || !HasAgentSwitch(f) then Lookup(f, AGENT_PLAYBOOKS_ENABLED)
    else Some(Bool(Switch(a, f, OPTIMIZE_AGENT_PLAYBOOKS, false).value
                   && Switch(a, f, AUTO_UPDATE_PENDING_AGENT_PLAYBOOKS, true).value))
  }

  function MergeBudget(a: Adapters, f: Fields): Option<Json>
    requires WorkAccepted(a, f)
  {
    if USE_MERGE !in f then Lookup(f, MAX_MERGE_INVOCATIONS)
    else Some(Int(if a.boolean(f[USE_MERGE]).value then MergeCap(a, f).value else 0))
  }

  function WorkBudget(a: Adapters, f: Fields): Option<Json>
    requires WorkAccepted(a, f)
  {
    if !HasWorkSwitch(f) then Lookup(f, METRIC_CALL_BUDGET)
    else Some(Int(if Switch(a, f, ENABLED, false).value then Limit(a, f).value else 0))
  }

  /** The joint effect of the seven rules on the field `k` of an accepted section. */
  function At(a: Adapters, f: Fields, k: Key): Option<Json>
    requires Accepted(a, f)
  {
    if Retired(k) then None
    else if k == USER_PLAYBOOKS_ENABLED then UserGate(a, f)
    else if k == AGENT_PLAYBOOKS_ENABLED then AgentGate(a, f)
    else if k == MAX_MERGE_INVOCATIONS then MergeBudget(a, f)
    else if k == METRIC_CALL_BUDGET then WorkBudget(a, f)
    else Lookup(f, k)
  }

  // ----- one rule at a time ----------------------------------------------------------------

  lemma SchedulingIs(a: Adapters, f: Fields)
    ensures CheckScheduling(a, f) <==> SchedulingAccepted(a, f)
  {
    assert Restrict(f, SCHEDULING_FIELDS) == Scheduling(f);
    assert ABORT_COOLDOWN_THRESHOLD in f ==> ABORT_COOLDOWN_THRESHOLD in Scheduling(f);
    assert COOLDOWN_AFTER_ABORTS_SECONDS in f ==> COOLDOWN_AFTER_ABORTS_SECONDS in Scheduling(f);
  }

  lemma TransportSteps(a: Adapters, f: Fields, k: Key)
    ensures (RetireJitter(a, f).Ok? && RetireReplay(a, RetireJitter(a, f).value).Ok? && CheckScheduling(a, f))
       <==> TransportAccepted(a, f)
    ensures TransportAccepted(a, f) ==>
              Lookup(RetireReplay(a, RetireJitter(a, f).value).value, k) ==
              if k == SCHEDULER_JITTER_SECONDS || k == WEBHOOK_MAX_RETRIES || k == WEBHOOK_BACKOFF_BASE_SECONDS
              then None else Lookup(f, k)
  {
    SchedulingIs(a, f);
    hide CheckScheduling, SchedulingAccepted;
  }

  lemma FoldStep(a: Adapters, f: Fields, work: Key, adopt: Key, adoptDefault: bool, current: Key, rule: Rule, k: Key)
    requires work != current && adopt != current
    ensures FoldSwitches(a, f, work, adopt, adoptDefault, current, rule).Ok? <==>
            (work in f || adopt in f ==> Switch(a, f, work, false).Some? && Switch(a, f, adopt, adoptDefault).Some?)
    ensures FoldSwitches(a, f, work, adopt, adoptDefault, current, rule).Ok? ==>
              Lookup(FoldSwitches(a, f, work, adopt, adoptDefault, current, rule).value, k) ==
              if k == work || k == adopt then None
              else if k == current && current !in f && (work in f || adopt in f)
              then Some(Bool(Switch(a, f, work, false).value && Switch(a, f, adopt, adoptDefault).value))
              else Lookup(f, k)
  {
  }

  lemma MergeStep(a: Adapters, f: Fields, k: Key)
    ensures CanonicalizeMerge(a, f).Ok? <==> (USE_MERGE in f ==> a.boolean(f[USE_MERGE]).Some? && MergeCap(a, f).Some?)
    ensures CanonicalizeMerge(a, f).Ok? ==>
              Lookup(CanonicalizeMerge(a, f).value, k) ==
              if k == USE_MERGE then None
              else if k == MAX_MERGE_INVOCATIONS && USE_MERGE in f
              then Some(Int(if a.boolean(f[USE_MERGE]).value then MergeCap(a, f).value else 0))
              else Lookup(f, k)
  {
  }

  lemma StopStep(a: Adapters, f: Fields, k: Key)
    ensures RetireStopScore(a, f).Ok? <==>
            (EARLY_STOP_SCORE in f ==> a.stopScoreOk(f[EARLY_STOP_SCORE]) && Switch(a, f, ENABLED, false).Some?)
    ensures RetireStopScore(a, f).Ok? ==>
              Lookup(RetireStopScore(a, f).value, k) == if k == EARLY_STOP_SCORE then None else Lookup(f, k)
  {
  }

  lemma BudgetStep(a: Adapters, f: Fields, k: Key)
    ensures CanonicalizeWorkBudget(a, f).Ok? <==>
            (HasWorkSwitch(f) ==> METRIC_CALL_BUDGET !in f && Switch(a, f, ENABLED, false).Some? && Limit(a, f).Some?)
    ensures CanonicalizeWorkBudget(a, f).Ok? ==>
              Lookup(CanonicalizeWorkBudget(a, f).value, k) ==
              if k == ENABLED || k == MAX_METRIC_CALLS then None
              else if k == METRIC_CALL_BUDGET && HasWorkSwitch(f)
              then Some(Int(if Switch(a, f, ENABLED, false).value then Limit(a, f).value else 0))
              else Lookup(f, k)
  {
  }

  lemma UserAndAgentSteps(a: Adapters, f: Fields, g: Fields, k: Key)
    requires forall x :: x != SCHEDULER_JITTER_SECONDS && x != WEBHOOK_MAX_RETRIES && x != WEBHOOK_BACKOFF_BASE_SECONDS ==>
                           Lookup(g, x) == Lookup(f, x)
    ensures (CanonicalizeUserSwitches(a, g).Ok? && CanonicalizeAgentSwitches(a, CanonicalizeUserSwitches(a, g).value).Ok?)
       <==> UserAccepted(a, f) && AgentAccepted(a, f)
    ensures UserAccepted(a, f) && AgentAccepted(a, f) ==>
              Lookup(CanonicalizeAgentSwitches(a, CanonicalizeUserSwitches(a, g).value).value, k) ==
              if k == OPTIMIZE_USER_PLAYBOOKS || k == AUTO_UPDATE_USER_PLAYBOOKS
                 || k == OPTIMIZE_AGENT_PLAYBOOKS || k == AUTO_UPDATE_PENDING_AGENT_PLAYBOOKS then None
              else if k == USER_PLAYBOOKS_ENABLED then UserGate(a, f)
              else if k == AGENT_PLAYBOOKS_ENABLED then AgentGate(a, f)
              else Lookup(g, k)
  {
    hide FoldSwitches;
    assert Lookup(g, OPTIMIZE_USER_PLAYBOOKS) == Lookup(f, OPTIMIZE_USER_PLAYBOOKS);
    assert Lookup(g, AUTO_UPDATE_USER_PLAYBOOKS) == Lookup(f, AUTO_UPDATE_USER_PLAYBOOKS);
    assert Lookup(g, USER_PLAYBOOKS_ENABLED) == Lookup(f, USER_PLAYBOOKS_ENABLED);
    forall x {
      FoldStep(a, g, OPTIMIZE_USER_PLAYBOOKS, AUTO_UPDATE_USER_PLAYBOOKS, false, USER_PLAYBOOKS_ENABLED, OptimizerUserSwitches, x);
    }
    if CanonicalizeUserSwitches(a, g).Ok? {
      var h := CanonicalizeUserSwitches(a, g).value;
      assert Lookup(h, OPTIMIZE_AGENT_PLAYBOOKS) == Lookup(f, OPTIMIZE_AGENT_PLAYBOOKS);
      assert Lookup(h, AUTO_UPDATE_PENDING_AGENT_PLAYBOOKS) == Lookup(f, AUTO_UPDATE_PENDING_AGENT_PLAYBOOKS);
      assert Lookup(h, AGENT_PLAYBOOKS_ENABLED) == Lookup(f, AGENT_PLAYBOOKS_ENABLED);
      FoldStep(a, h, OPTIMIZE_AGENT_PLAYBOOKS, AUTO_UPDATE_PENDING_AGENT_PLAYBOOKS, true, AGENT_PLAYBOOKS_ENABLED, AgentSwitches, k);
    }
  }

  lemma WorkSteps(a: Adapters, f: Fields, h: Fields, k: Key)
    requires Lookup(h, USE_MERGE) == Lookup(f, USE_MERGE)
    requires Lookup(h, MAX_MERGE_INVOCATIONS) == Lookup(f, MAX_MERGE_INVOCATIONS)
    requires Lookup(h, EARLY_STOP_SCORE) == Lookup(f, EARLY_STOP_SCORE)
    requires Lookup(h, ENABLED) == Lookup(f, ENABLED)
    requires Lookup(h, MAX_METRIC_CALLS) == Lookup(f, MAX_METRIC_CALLS)
    requires Lookup(h, METRIC_CALL_BUDGET) == Lookup(f, METRIC_CALL_BUDGET)
    ensures (CanonicalizeMerge(a, h).Ok? && RetireStopScore(a, CanonicalizeMerge(a, h).value).Ok?
             && CanonicalizeWorkBudget(a, RetireStopScore(a, CanonicalizeMerge(a, h).value).value).Ok?)
       <==> WorkAccepted(a, f)
    ensures WorkAccepted(a, f) ==>
              Lookup(CanonicalizeWorkBudget(a, RetireStopScore(a, CanonicalizeMerge(a, h).value).value).value, k) ==
              if k == USE_MERGE || k == EARLY_STOP_SCORE || k == ENABLED || k == MAX_METRIC_CALLS then None
              else if k == MAX_MERGE_INVOCATIONS then MergeBudget(a, f)
              else if k == METRIC_CALL_BUDGET then WorkBudget(a, f)
              else Lookup(h, k)
  {
    hide CanonicalizeMerge, RetireStopScore, CanonicalizeWorkBudget;
    forall x { MergeStep(a, h, x); }
    if CanonicalizeMerge(a, h).Ok? {
      var h1 := CanonicalizeMerge(a, h).value;
      assert Lookup(h1, EARLY_STOP_SCORE) == Lookup(f, EARLY_STOP_SCORE);
      assert Lookup(h1, ENABLED) == Lookup(f, ENABLED);
      assert Lookup(h1, MAX_METRIC_CALLS) == Lookup(f, MAX_METRIC_CALLS);
      assert Lookup(h1, METRIC_CALL_BUDGET) == Lookup(f, METRIC_CALL_BUDGET);
      forall x { StopStep(a, h1, x); }
      if RetireStopScore(a, h1).Ok? {
        var h2 := RetireStopScore(a, h1).value;
        assert Lookup(h2, ENABLED) == Lookup(f, ENABLED);
        assert Lookup(h2, MAX_METRIC_CALLS) == Lookup(f, MAX_METRIC_CALLS);
        assert Lookup(h2, METRIC_CALL_BUDGET) == Lookup(f, METRIC_CALL_BUDGET);
        BudgetStep(a, h2, k);
      }
    }
  }

  /** The seven rules accept a section exactly when each condition on the original holds, and
      then leave, at every field, what `At` says of the original. */
  lemma Closed(a: Adapters, f: Fields)
    ensures NormalizeOptimizer(a, f).Ok? <==> Accepted(a, f)
    ensures Accepted(a, f) ==> forall k :: Lookup(NormalizeOptimizer(a, f).value, k) == At(a, f, k)
  {
    hide RetireJitter, RetireReplay, CanonicalizeUserSwitches, CanonicalizeAgentSwitches, CanonicalizeMerge,
         RetireStopScore, CanonicalizeWorkBudget, UserAccepted, AgentAccepted, WorkAccepted, TransportAccepted,
         UserGate, AgentGate, MergeBudget, WorkBudget, Lookup, CheckScheduling;
    TransportSteps(a, f, ENABLED);
    forall x { TransportSteps(a, f, x); }
    if TransportAccepted(a, f) {
      var g := RetireReplay(a, RetireJitter(a, f).value).value;
      UserAndAgentSteps(a, f, g, ENABLED);
      forall x { UserAndAgentSteps(a, f, g, x); }
      if UserAccepted(a, f) && AgentAccepted(a, f) {
        var h := CanonicalizeAgentSwitches(a, CanonicalizeUserSwitches(a, g).value).value;
        WorkSteps(a, f, h, ENABLED);
        forall x { WorkSteps(a, f, h, x); }
      }
    }
  }
}
