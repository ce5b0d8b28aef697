/** Which documents of which generation the upgrade takes, and what each becomes: a condition and
    a result on the document alone, with every generation, field and default written out. */
module UpgradeAcceptance {
  import opened Wrappers
  import opened Json
  import opened SectionRules
  import opened Canonicalizer
  import opened FileFormat
  import opened ConvertedExtractors
  import opened ConvertedDocument

  // ----- acceptance ----------------------------------------------------------------------------------

  /** No current name stands in a file whose own schema ignored it. */
  predicate NoLaterName(d: Fields, version: nat) {
    && (version < 9 ==> Get(Section(d, LLM_CONFIG), GENERATION_MAX_OUTPUT_TOKENS, Null) == Null)
    && (version < 5 ==> METRIC_CALL_BUDGET !in Section(d, PLAYBOOK_OPTIMIZER_CONFIG))
    && (version < 3 ==> AUDIT_EVENTS_MAX_AGE_DAYS !in Section(d, GOVERNANCE_RETENTION))
    && (version < 2 ==> CANDIDATE_POOL_SIZE !in Section(d, RETRIEVAL_FLOOR))
    && (version < 1 ==> AGENT_PLAYBOOKS_ENABLED !in Section(d, PLAYBOOK_OPTIMIZER_CONFIG))
  }

  predicate HasAgentNames(f: Fields) {
    OPTIMIZE_AGENT_PLAYBOOKS in f || AUTO_UPDATE_PENDING_AGENT_PLAYBOOKS in f
  }

  predicate HasWorkNames(f: Fields) {
    ENABLED in f || MAX_METRIC_CALLS in f
  }

  predicate AgentReadable(a: Adapters, f: Fields) {
    HasAgentNames(f) ==>
      a.boolean(Get(f, OPTIMIZE_AGENT_PLAYBOOKS, Bool(false))).Some? && a.boolean(Get(f, AUTO_UPDATE_PENDING_AGENT_PLAYBOOKS, Bool(true))).Some?
  }

  predicate WorkReadable(a: Adapters, f: Fields) {
    HasWorkNames(f) ==> a.boolean(Get(f, ENABLED, Bool(false))).Some? && a.positive(Get(f, MAX_METRIC_CALLS, Int(20))).Some?
  }

  predicate JitterReadable(a: Adapters, f: Fields) {
    SCHEDULER_JITTER_SECONDS in f ==> a.jitterOk(f[SCHEDULER_JITTER_SECONDS])
  }

  predicate ReplayReadable(a: Adapters, f: Fields) {
    && (WEBHOOK_MAX_RETRIES in f ==> a.nonNegative(f[WEBHOOK_MAX_RETRIES]).Some?)
    && (WEBHOOK_BACKOFF_BASE_SECONDS in f ==> a.backoffOk(f[WEBHOOK_BACKOFF_BASE_SECONDS]))
  }

  predicate OptimizerReadable(a: Adapters, f: Fields, version: nat) {
    && (version < 1 ==> AgentReadable(a, f))
    && (version < 5 ==> WorkReadable(a, f))
    && (version < 6 ==> JitterReadable(a, f))
    && (version < 7 ==> ReplayReadable(a, f))
  }

  predicate GraceReadable(a: Adapters, f: Fields) {
    a.boolean(Get(f, ENABLED, Bool(true))).Some? && a.positive(Get(f, TOMBSTONE_GRACE_WINDOW_DAYS, Int(90))).Some?
  }

  predicate CallsReadable(a: Adapters, f: Fields, version: nat) {
    && (version < 11 && RESUME_POLL_INTERVAL_SECONDS in f ==> a.pollOk(f[RESUME_POLL_INTERVAL_SECONDS]))
    && (version < 11 && RESUME_CLAIM_TTL_SECONDS in f ==> a.claimOk(f[RESUME_CLAIM_TTL_SECONDS]))
    && (version < 13 ==> a.boolean(Get(f, ENABLED, Bool(false))).Some? && a.positive(Get(f, PENDING_TTL_SECONDS, Int(86_400))).Some?)
  }

  /** Whatever the document holds under `k` that its own generation owned can be read. */
  predicate OwnedReadable(a: Adapters, d: Fields, version: nat, k: Key) {
    if k == PLAYBOOK_OPTIMIZER_CONFIG then HasSection(d, k) ==> OptimizerReadable(a, Section(d, k), version)
    else if k == RETRIEVAL_FLOOR then version < 2 && HasSection(d, k) ==> FloorReadable(a, Section(d, k))
    else if k == GOVERNANCE_RETENTION then version < 3 && HasSection(d, k) ==> AuditReadable(a, Section(d, k))
    else if k == USER_PLAYBOOK_EXTRACTOR_CONFIG then version < 8 && HasSection(d, k) ==> StrategyKnown(Section(d, k))
    else if k == LINEAGE_GC then version < 12 && HasSection(d, k) ==> GraceReadable(a, Section(d, k))
    else if k == PENDING_TOOL_CALL_CONFIG then HasSection(d, k) ==> CallsReadable(a, Section(d, k), version)
    else if k == API_KEY_CONFIG || k == LLM_CONFIG then EndpointReadable(a, d)
    else true
  }

  predicate Upgradable(a: Adapters, d: Fields, version: nat) {
    version == 13
    || (&& NoLaterName(d, version)
        && OwnedReadable(a, d, version, PLAYBOOK_OPTIMIZER_CONFIG)
        && OwnedReadable(a, d, version, RETRIEVAL_FLOOR)
        && OwnedReadable(a, d, version, GOVERNANCE_RETENTION)
        && OwnedReadable(a, d, version, USER_PLAYBOOK_EXTRACTOR_CONFIG)
        && OwnedReadable(a, d, version, LINEAGE_GC)
        && OwnedReadable(a, d, version, PENDING_TOOL_CALL_CONFIG)
        && OwnedReadable(a, d, version, API_KEY_CONFIG))
  }

  // ----- the result, field by field ---------------------------------------------------------------------

  function AgentSwitch(a: Adapters, f: Fields): Json
    requires AgentReadable(a, f) && HasAgentNames(f)
  {
    Bool(a.boolean(Get(f, OPTIMIZE_AGENT_PLAYBOOKS, Bool(false))).value
         && a.boolean(Get(f, AUTO_UPDATE_PENDING_AGENT_PLAYBOOKS, Bool(true))).value)
  }

  function WorkLimit(a: Adapters, f: Fields): Json
    requires WorkReadable(a, f) && HasWorkNames(f)
  {
    Int(if a.boolean(Get(f, ENABLED, Bool(false))).value then a.positive(Get(f, MAX_METRIC_CALLS, Int(20))).value else 0)
  }

  function OptimizerField(a: Adapters, f: Fields, version: nat, x: Key): Option<Json>
    requires OptimizerReadable(a, f, version)
  {
    if version < 1 && (x == OPTIMIZE_AGENT_PLAYBOOKS || x == AUTO_UPDATE_PENDING_AGENT_PLAYBOOKS) then None
    else if version < 5 && (x == ENABLED || x == MAX_METRIC_CALLS) then None
    else if version < 6 && x == SCHEDULER_JITTER_SECONDS then None
    else if version < 7 && (x == WEBHOOK_MAX_RETRIES || x == WEBHOOK_BACKOFF_BASE_SECONDS) then None
    else if version < 1 && x == AGENT_PLAYBOOKS_ENABLED && HasAgentNames(f) then Some(AgentSwitch(a, f))
    else if version < 5 && x == METRIC_CALL_BUDGET && HasWorkNames(f) then Some(WorkLimit(a, f))
    else Lookup(f, x)
  }

  function GraceField(a: Adapters, f: Fields, x: Key): Option<Json>
    requires GraceReadable(a, f)
  {
    if x == ENABLED then None
    else if x == TOMBSTONE_GRACE_WINDOW_DAYS && ENABLED in f then
      Some(Int(if a.boolean(f[ENABLED]).value then a.positive(Get(f, TOMBSTONE_GRACE_WINDOW_DAYS, Int(90))).value else 0))
    else Lookup(f, x)
  }

  function CallsField(a: Adapters, f: Fields, version: nat, x: Key): Option<Json>
    requires CallsReadable(a, f, version) && version < 13
  {
    if x == ENABLED then None
    else if version < 11 && (x == RESUME_POLL_INTERVAL_SECONDS || x == RESUME_CLAIM_TTL_SECONDS) then None
    else if x == PENDING_TTL_SECONDS then
      Some(Int(if a.boolean(Get(f, ENABLED, Bool(false))).value then a.positive(Get(f, PENDING_TTL_SECONDS, Int(86_400))).value else 0))
    else Lookup(f, x)
  }

  function StrategyField(f: Fields, x: Key): Option<Json> {
    if x == DEDUPLICATION_CONFIG && HasSection(f, x) then Some(Obj(Section(f, x) - {STRATEGY})) else Lookup(f, x)
  }

  function EndpointField(keys: Fields, x: Key): Option<Json> {
    if x == CUSTOM_ENDPOINT && HasSection(keys, x) then Some(Obj(Section(keys, x) - {MODEL})) else Lookup(keys, x)
  }

  /** What an upgraded document holds under `k`. */
  ghost predicate UpgradedHolds(a: Adapters, d: Fields, version: nat, k: Key, o: Option<Json>)
    requires version < 13 && OwnedReadable(a, d, version, k)
  {
    if k == LLM_CONFIG && MODEL in Endpoint(d) then
      o.Some? && o.value.Obj? && forall x :: Lookup(o.value.fields, x) == ModelField(a, d, x)
    else if !HasSection(d, k) then o == Lookup(d, k)
    else
      var f := Section(d, k);
      if k == PLAYBOOK_OPTIMIZER_CONFIG then o.Some? && o.value.Obj? && forall x :: Lookup(o.value.fields, x) == OptimizerField(a, f, version, x)
      else if k == RETRIEVAL_FLOOR && version < 2 then o.Some? && o.value.Obj? && forall x :: Lookup(o.value.fields, x) == FloorField(a, f, x)
      else if k == GOVERNANCE_RETENTION && version < 3 then o.Some? && o.value.Obj? && forall x :: Lookup(o.value.fields, x) == AuditField(a, f, x)
      else if k == USER_PLAYBOOK_EXTRACTOR_CONFIG && version < 8 then o.Some? && o.value.Obj? && forall x :: Lookup(o.value.fields, x) == StrategyField(f, x)
      else if k == LINEAGE_GC && version < 12 then o.Some? && o.value.Obj? && forall x :: Lookup(o.value.fields, x) == GraceField(a, f, x)
      else if k == PENDING_TOOL_CALL_CONFIG then o.Some? && o.value.Obj? && forall x :: Lookup(o.value.fields, x) == CallsField(a, f, version, x)
      else if k == API_KEY_CONFIG then o.Some? && o.value.Obj? && forall x :: Lookup(o.value.fields, x) == EndpointField(f, x)
      else o == Some(d[k])
  }

  // ----- one section at a time -----------------------------------------------------------------------------

  lemma GateAccepts(a: Adapters, d: Fields, version: nat, since: nat, section: Key, rw: Rewrite)
    ensures Gate(a, d, version, since, section, rw).Ok? <==> GateValue(a, version, since, rw, Lookup(d, section)).Ok?
  {
    hide RewriteValue;
  }

  lemma GraceRule(a: Adapters, f: Fields)
    ensures CanonicalizeLineage(a, f, true).Ok? <==> GraceReadable(a, f)
    ensures GraceReadable(a, f) ==> forall x :: Lookup(CanonicalizeLineage(a, f, true).value, x) == GraceField(a, f, x)
  {
  }

  lemma StrategyRule(f: Fields)
    ensures RetireConsolidationStrategy(f).Ok? <==> StrategyKnown(f)
    ensures StrategyKnown(f) ==> forall x :: Lookup(RetireConsolidationStrategy(f).value, x) == StrategyField(f, x)
  {
    if HasSection(f, DEDUPLICATION_CONFIG) && STRATEGY !in Section(f, DEDUPLICATION_CONFIG) {
      assert Section(f, DEDUPLICATION_CONFIG) - {STRATEGY} == Section(f, DEDUPLICATION_CONFIG);
    }
  }

  lemma EndpointKeysRule(keys: Fields)
    ensures forall x :: Lookup(WithoutEndpointModel(keys), x) == EndpointField(keys, x)
  {
  }

  /** Consent on fields that have or have not lost their timing. */
  lemma CallsFields(a: Adapters, f: Fields, g: Fields, version: nat, x: Key)
    requires version < 13
    requires forall y :: Lookup(g, y) ==
               if version < 11 && (y == RESUME_POLL_INTERVAL_SECONDS || y == RESUME_CLAIM_TTL_SECONDS) then None else Lookup(f, y)
    ensures CanonicalizePending(a, g, true).Ok? <==> ConsentReadable(a, f, version)
    ensures CallsReadable(a, f, version) ==>
              CanonicalizePending(a, g, true).Ok? && Lookup(CanonicalizePending(a, g, true).value, x) == CallsField(a, f, version, x)
  {
    hide CanonicalizePending, Lookup;
    SameConsent(a, f, g, version);
    assert (version < 13) == true;
    ConsentRule(a, g, version, x);
  }

  lemma CallsRule(a: Adapters, f: Fields, version: nat)
    requires version < 13
    ensures PendingUpgrade(a, version, Some(Obj(f))).Ok? <==> CallsReadable(a, f, version)
    ensures CallsReadable(a, f, version) ==>
              var o := PendingUpgrade(a, version, Some(Obj(f))).value;
              o.Some? && o.value.Obj? && forall x :: Lookup(o.value.fields, x) == CallsField(a, f, version, x)
  {
    hide StripPendingTiming, CanonicalizePending, Lookup, CallsField, CallsReadable, ConsentReadable;
    CallsNeed(a, f, version);
    if version < 11 {
      TimingRule(a, f, ENABLED);
      if StripPendingTiming(a, f).Ok? {
        forall x { TimingRule(a, f, x); }
        var g := StripPendingTiming(a, f).value;
        forall x { CallsFields(a, f, g, version, x); }
        CallsFields(a, f, g, version, ENABLED);
      }
    } else {
      forall x { CallsFields(a, f, f, version, x); }
      CallsFields(a, f, f, version, ENABLED);
    }
  }

  lemma CallsNeed(a: Adapters, f: Fields, version: nat)
    requires version < 13
    ensures CallsReadable(a, f, version) <==>
            ConsentReadable(a, f, version)
            && (version < 11 ==>
                  && (RESUME_POLL_INTERVAL_SECONDS in f ==> a.pollOk(f[RESUME_POLL_INTERVAL_SECONDS]))
                  && (RESUME_CLAIM_TTL_SECONDS in f ==> a.claimOk(f[RESUME_CLAIM_TTL_SECONDS])))
  {
  }

  lemma Unsectioned(a: Adapters, version: nat, o: Option<Json>)
    requires o.None? || !o.value.Obj?
    ensures OptimizerUpgrade(a, version, o) == Ok(o) && PendingUpgrade(a, version, o) == Ok(o)
  {
  }

  // ----- the optimizer, rule after rule ----------------------------------------------------------------------

  lemma AgentStep(a: Adapters, f: Fields, x: Key)
    requires AGENT_PLAYBOOKS_ENABLED !in f
    ensures CanonicalizeAgentSwitches(a, f).Ok? <==> AgentReadable(a, f)
    ensures AgentReadable(a, f) ==>
              Lookup(CanonicalizeAgentSwitches(a, f).value, x) ==
              if x == OPTIMIZE_AGENT_PLAYBOOKS || x == AUTO_UPDATE_PENDING_AGENT_PLAYBOOKS then None
              else if x == AGENT_PLAYBOOKS_ENABLED && HasAgentNames(f) then Some(AgentSwitch(a, f))
              else Lookup(f, x)
  {
  }

  lemma WorkStep(a: Adapters, f: Fields, x: Key)
    requires METRIC_CALL_BUDGET !in f
    ensures CanonicalizeWorkBudget(a, f).Ok? <==> WorkReadable(a, f)
    ensures WorkReadable(a, f) ==>
              Lookup(CanonicalizeWorkBudget(a, f).value, x) ==
              if x == ENABLED || x == MAX_METRIC_CALLS then None
              else if x == METRIC_CALL_BUDGET && HasWorkNames(f) then Some(WorkLimit(a, f))
              else Lookup(f, x)
  {
  }

  lemma TransportStep(a: Adapters, f: Fields, x: Key)
    ensures RetireJitter(a, f).Ok? <==> JitterReadable(a, f)
    ensures JitterReadable(a, f) ==> Lookup(RetireJitter(a, f).value, x) == if x == SCHEDULER_JITTER_SECONDS then None else Lookup(f, x)
    ensures RetireReplay(a, f).Ok? <==> ReplayReadable(a, f)
    ensures ReplayReadable(a, f) ==>
              Lookup(RetireReplay(a, f).value, x) == if x == WEBHOOK_MAX_RETRIES || x == WEBHOOK_BACKOFF_BASE_SECONDS then None else Lookup(f, x)
  {
  }

  lemma SameWork(a: Adapters, f: Fields, g: Fields)
    requires Lookup(g, ENABLED) == Lookup(f, ENABLED) && Lookup(g, MAX_METRIC_CALLS) == Lookup(f, MAX_METRIC_CALLS)
    ensures WorkReadable(a, g) == WorkReadable(a, f) && HasWorkNames(g) == HasWorkNames(f)
    ensures WorkReadable(a, f) && HasWorkNames(f) ==> WorkLimit(a, g) == WorkLimit(a, f)
  {
  }

  lemma SameTransport(a: Adapters, f: Fields, g: Fields)
    ensures Lookup(g, SCHEDULER_JITTER_SECONDS) == Lookup(f, SCHEDULER_JITTER_SECONDS) ==> JitterReadable(a, g) == JitterReadable(a, f)
    ensures Lookup(g, WEBHOOK_MAX_RETRIES) != Lookup(f, WEBHOOK_MAX_RETRIES)
            || Lookup(g, WEBHOOK_BACKOFF_BASE_SECONDS) != Lookup(f, WEBHOOK_BACKOFF_BASE_SECONDS)
            || ReplayReadable(a, g) == ReplayReadable(a, f)
  {
  }

  /** The fields after the first two gates. */
  function WorkedField(a: Adapters, f: Fields, version: nat, x: Key): Option<Json>
    requires version < 1 ==> AgentReadable(a, f)
    requires version < 5 ==> WorkReadable(a, f)
  {
    if version < 1 && (x == OPTIMIZE_AGENT_PLAYBOOKS || x == AUTO_UPDATE_PENDING_AGENT_PLAYBOOKS) then None
    else if version < 5 && (x == ENABLED || x == MAX_METRIC_CALLS) then None
    else if version < 1 && x == AGENT_PLAYBOOKS_ENABLED && HasAgentNames(f) then Some(AgentSwitch(a, f))
    else if version < 5 && x == METRIC_CALL_BUDGET && HasWorkNames(f) then Some(WorkLimit(a, f))
    else Lookup(f, x)
  }

  function Worked(a: Adapters, f: Fields, version: nat): Result<Fields> {
    var g :- if version < 1 then CanonicalizeAgentSwitches(a, f) else Ok(f);
    if version < 5 then CanonicalizeWorkBudget(a, g) else Ok(g)
  }

  function Transported(a: Adapters, f: Fields, version: nat): Result<Fields> {
    var g :- if version < 6 then RetireJitter(a, f) else Ok(f);
    if version < 7 then RetireReplay(a, g) else Ok(g)
  }

  lemma GateObject(a: Adapters, version: nat, since: nat, rw: Rewrite, f: Fields)
    ensures GateValue(a, version, since, rw, Some(Obj(f))) ==
            if version >= since then Ok(Some(Obj(f)))
            else match RewriteFields(a, rw, f) case Ok(g) => Ok(Some(Obj(g))) case Refused(rule) => Refused(rule)
  {
    hide RewriteFields;
  }

  lemma OptimizerStages(a: Adapters, f: Fields, version: nat)
    ensures var w := Worked(a, f, version);
            var t := if w.Ok? then Transported(a, w.value, version) else w;
            var r := OptimizerUpgrade(a, version, Some(Obj(f)));
            && (r.Ok? <==> t.Ok?)
            && (t.Ok? ==> r.value == Some(Obj(t.value)))
  {
    hide CanonicalizeAgentSwitches, CanonicalizeWorkBudget, RetireJitter, RetireReplay, GateValue;
    GateObject(a, version, 1, ToAgentSwitches, f);
    var g := if version < 1 then CanonicalizeAgentSwitches(a, f) else Ok(f);
    if g.Ok? { GateObject(a, version, 5, ToWorkBudget, g.value); }
    if Worked(a, f, version).Ok? {
      var w := Worked(a, f, version).value;
      GateObject(a, version, 6, ToNoJitter, w);
      var h := if version < 6 then RetireJitter(a, w) else Ok(w);
      if h.Ok? { GateObject(a, version, 7, ToNoReplay, h.value); }
    }
  }

  lemma WorkedAt(a: Adapters, f: Fields, version: nat)
    requires version < 1 ==> AGENT_PLAYBOOKS_ENABLED !in f
    requires version < 5 ==> METRIC_CALL_BUDGET !in f
    ensures Worked(a, f, version).Ok? <==> (version < 1 ==> AgentReadable(a, f)) && (version < 5 ==> WorkReadable(a, f))
    ensures Worked(a, f, version).Ok? ==> forall x :: Lookup(Worked(a, f, version).value, x) == WorkedField(a, f, version, x)
  {
    hide CanonicalizeAgentSwitches, CanonicalizeWorkBudget, AgentReadable, WorkReadable, AgentSwitch, WorkLimit, HasAgentNames, HasWorkNames;
    var g := f;
    if version < 1 {
      AgentStep(a, f, ENABLED);
      if CanonicalizeAgentSwitches(a, f).Ok? {
        g := CanonicalizeAgentSwitches(a, f).value;
        forall x { AgentStep(a, f, x); }
      }
    }
    if version < 5 && (version < 1 ==> CanonicalizeAgentSwitches(a, f).Ok?) {
      assert Lookup(g, METRIC_CALL_BUDGET) == Lookup(f, METRIC_CALL_BUDGET);
      SameWork(a, f, g);
      WorkStep(a, g, ENABLED);
      forall x { WorkStep(a, g, x); }
    }
  }

  lemma TransportedAt(a: Adapters, f: Fields, version: nat)
    ensures Transported(a, f, version).Ok? <==> (version < 6 ==> JitterReadable(a, f)) && (version < 7 ==> ReplayReadable(a, f))
    ensures Transported(a, f, version).Ok? ==>
              forall x :: Lookup(Transported(a, f, version).value, x) ==
                if version < 6 && x == SCHEDULER_JITTER_SECONDS then None
                else if version < 7 && (x == WEBHOOK_MAX_RETRIES || x == WEBHOOK_BACKOFF_BASE_SECONDS) then None
                else Lookup(f, x)
  {
    hide RetireJitter, RetireReplay, JitterReadable, ReplayReadable;
    TransportStep(a, f, ENABLED);
    forall x { TransportStep(a, f, x); }
    if version < 6 && RetireJitter(a, f).Ok? {
      var g := RetireJitter(a, f).value;
      SameTransport(a, f, g);
      TransportStep(a, g, ENABLED);
      forall x { TransportStep(a, g, x); }
    }
  }

  lemma OptimizerRule(a: Adapters, f: Fields, version: nat)
    requires version < 1 ==> AGENT_PLAYBOOKS_ENABLED !in f
    requires version < 5 ==> METRIC_CALL_BUDGET !in f
    ensures OptimizerUpgrade(a, version, Some(Obj(f))).Ok? <==> OptimizerReadable(a, f, version)
    ensures OptimizerReadable(a, f, version) ==>
              var o := OptimizerUpgrade(a, version, Some(Obj(f))).value;
              o.Some? && o.value.Obj? && forall x :: Lookup(o.value.fields, x) == OptimizerField(a, f, version, x)
  {
    hide OptimizerUpgrade, Worked, Transported, AgentReadable, WorkReadable, JitterReadable, ReplayReadable, AgentSwitch, WorkLimit,
         HasAgentNames, HasWorkNames;
    OptimizerStages(a, f, version);
    WorkedAt(a, f, version);
    if Worked(a, f, version).Ok? {
      var g := Worked(a, f, version).value;
      SameTransport(a, f, g);
      TransportedAt(a, g, version);
    }
  }

  // ----- whole documents --------------------------------------------------------------------------------------

  lemma NothingLater(d: Fields, version: nat)
    ensures NoLaterName(d, version) <==> !AmbiguousPolicy(d, version)
  {
  }

  lemma SectionOutcome(a: Adapters, d: Fields, version: nat, k: Key)
    requires version < 13 && NoLaterName(d, version) && k != API_KEY_CONFIG && k != LLM_CONFIG
    ensures UpgradedAt(a, d, version, k).Ok? <==> OwnedReadable(a, d, version, k)
    ensures OwnedReadable(a, d, version, k) ==> UpgradedHolds(a, d, version, k, UpgradedAt(a, d, version, k).value)
  {
    hide OptimizerUpgrade, PendingUpgrade, OptimizerReadable, CallsReadable, FloorReadable, AuditReadable, GraceReadable, StrategyKnown,
         CanonicalizeFloor, CanonicalizeAudit, CanonicalizeLineage, RetireConsolidationStrategy;
    if HasSection(d, k) {
      var f := Section(d, k);
      if k == PLAYBOOK_OPTIMIZER_CONFIG { OptimizerRule(a, f, version); }
      if k == PENDING_TOOL_CALL_CONFIG { CallsRule(a, f, version); }
      if k == RETRIEVAL_FLOOR { FloorRule(a, f); }
      if k == GOVERNANCE_RETENTION { AuditRule(a, f); }
      if k == LINEAGE_GC { GraceRule(a, f); }
      if k == USER_PLAYBOOK_EXTRACTOR_CONFIG { StrategyRule(f); }
    } else {
      Unsectioned(a, version, Lookup(d, k));
    }
  }

  lemma EndpointOutcome(a: Adapters, d: Fields, version: nat, k: Key)
    requires version < 13 && (k == API_KEY_CONFIG || k == LLM_CONFIG)
    ensures UpgradedAt(a, d, version, k).Ok? <==> OwnedReadable(a, d, version, k)
    ensures OwnedReadable(a, d, version, k) ==> UpgradedHolds(a, d, version, k, UpgradedAt(a, d, version, k).value)
  {
    hide EndpointReadable, EndpointAccepted, HasEndpointModel, WithoutEndpointModel, WithTextModels, EndpointModel, ModelField, EndpointField;
    EndpointRule(a, d);
    HasKeys(d);
    if HasSection(d, API_KEY_CONFIG) {
      var keys := Section(d, API_KEY_CONFIG);
      EndpointKeysRule(keys);
      if MODEL !in Endpoint(d) { NothingToDrop(keys); }
    }
  }

  lemma HasKeys(d: Fields)
    ensures HasEndpointModel(d) ==> HasSection(d, API_KEY_CONFIG)
  {
  }

  lemma NothingToDrop(keys: Fields)
    requires MODEL !in Section(keys, CUSTOM_ENDPOINT)
    ensures WithoutEndpointModel(keys) == keys
  {
    if HasSection(keys, CUSTOM_ENDPOINT) {
      assert Section(keys, CUSTOM_ENDPOINT) - {MODEL} == Section(keys, CUSTOM_ENDPOINT);
      assert keys[CUSTOM_ENDPOINT := keys[CUSTOM_ENDPOINT]] == keys;
    }
  }

  lemma OutcomeOf(a: Adapters, d: Fields, version: nat, k: Key)
    requires version < 13 && NoLaterName(d, version)
    ensures UpgradedAt(a, d, version, k).Ok? <==> OwnedReadable(a, d, version, k)
    ensures OwnedReadable(a, d, version, k) ==> UpgradedHolds(a, d, version, k, UpgradedAt(a, d, version, k).value)
  {
    hide UpgradedAt, OwnedReadable, UpgradedHolds;
    if k == API_KEY_CONFIG || k == LLM_CONFIG { EndpointOutcome(a, d, version, k); } else { SectionOutcome(a, d, version, k); }
  }

  /** No step of the first half refuses when every key's own rule accepts. */
  lemma PoliciesAccept(a: Adapters, d: Fields, version: nat)
    requires UpgradedAt(a, d, version, PLAYBOOK_OPTIMIZER_CONFIG).Ok? && UpgradedAt(a, d, version, RETRIEVAL_FLOOR).Ok?
    requires UpgradedAt(a, d, version, GOVERNANCE_RETENTION).Ok? && UpgradedAt(a, d, version, API_KEY_CONFIG).Ok?
    ensures UpgradePolicies(a, d, version).Ok?
  {
    hide Gate, GateValue, Lookup, CanonicalizeCustomEndpoint, PendingUpgrade;
    GateAccepts(a, d, version, 1, PLAYBOOK_OPTIMIZER_CONFIG, ToAgentSwitches);
    var d1 := Gate(a, d, version, 1, PLAYBOOK_OPTIMIZER_CONFIG, ToAgentSwitches).value;
    forall k { GateAt(a, d, version, 1, PLAYBOOK_OPTIMIZER_CONFIG, ToAgentSwitches, k); }
    GateAccepts(a, d1, version, 2, RETRIEVAL_FLOOR, ToFloor);
    var d2 := Gate(a, d1, version, 2, RETRIEVAL_FLOOR, ToFloor).value;
    forall k { GateAt(a, d1, version, 2, RETRIEVAL_FLOOR, ToFloor, k); }
    GateAccepts(a, d2, version, 3, GOVERNANCE_RETENTION, ToAudit);
    var d3 := Gate(a, d2, version, 3, GOVERNANCE_RETENTION, ToAudit).value;
    forall k { GateAt(a, d2, version, 3, GOVERNANCE_RETENTION, ToAudit, k); }
    EndpointAcceptsFrame(a, d, d3);
  }

  lemma EndpointAcceptsFrame(a: Adapters, d: Fields, e: Fields)
    requires Lookup(d, API_KEY_CONFIG) == Lookup(e, API_KEY_CONFIG) && Lookup(d, LLM_CONFIG) == Lookup(e, LLM_CONFIG)
    requires CanonicalizeCustomEndpoint(a, d).Ok?
    ensures CanonicalizeCustomEndpoint(a, e).Ok?
  {
  }

  lemma MechanismsAccept(a: Adapters, d: Fields, version: nat)
    requires UpgradePolicies(a, d, version).Ok?
    requires UpgradedAt(a, d, version, PLAYBOOK_OPTIMIZER_CONFIG).Ok? && UpgradedAt(a, d, version, USER_PLAYBOOK_EXTRACTOR_CONFIG).Ok?
    requires UpgradedAt(a, d, version, LINEAGE_GC).Ok? && UpgradedAt(a, d, version, PENDING_TOOL_CALL_CONFIG).Ok?
    ensures var e := UpgradePolicies(a, d, version).value;
            && UpgradeMechanisms(a, e, version).Ok?
            && PreparePendingCreation(a, UpgradeMechanisms(a, e, version).value, version).Ok?
  {
    hide Gate, GateValue, Lookup, UpgradePolicies;
    var e := UpgradePolicies(a, d, version).value;
    forall k { PoliciesAt(a, d, version, k); }
    GateAccepts(a, e, version, 5, PLAYBOOK_OPTIMIZER_CONFIG, ToWorkBudget);
    var d1 := Gate(a, e, version, 5, PLAYBOOK_OPTIMIZER_CONFIG, ToWorkBudget).value;
    forall k { GateAt(a, e, version, 5, PLAYBOOK_OPTIMIZER_CONFIG, ToWorkBudget, k); }
    GateAccepts(a, d1, version, 6, PLAYBOOK_OPTIMIZER_CONFIG, ToNoJitter);
    var d2 := Gate(a, d1, version, 6, PLAYBOOK_OPTIMIZER_CONFIG, ToNoJitter).value;
    forall k { GateAt(a, d1, version, 6, PLAYBOOK_OPTIMIZER_CONFIG, ToNoJitter, k); }
    GateAccepts(a, d2, version, 7, PLAYBOOK_OPTIMIZER_CONFIG, ToNoReplay);
    var d3 := Gate(a, d2, version, 7, PLAYBOOK_OPTIMIZER_CONFIG, ToNoReplay).value;
    forall k { GateAt(a, d2, version, 7, PLAYBOOK_OPTIMIZER_CONFIG, ToNoReplay, k); }
    GateAccepts(a, d3, version, 8, USER_PLAYBOOK_EXTRACTOR_CONFIG, ToNoStrategy);
    var d4 := Gate(a, d3, version, 8, USER_PLAYBOOK_EXTRACTOR_CONFIG, ToNoStrategy).value;
    forall k { GateAt(a, d3, version, 8, USER_PLAYBOOK_EXTRACTOR_CONFIG, ToNoStrategy, k); }
    GateAccepts(a, d4, version, SINGLE_OWNER_EXECUTION_VERSION, PENDING_TOOL_CALL_CONFIG, ToTiming);
    var d5 := Gate(a, d4, version, SINGLE_OWNER_EXECUTION_VERSION, PENDING_TOOL_CALL_CONFIG, ToTiming).value;
    forall k { GateAt(a, d4, version, SINGLE_OWNER_EXECUTION_VERSION, PENDING_TOOL_CALL_CONFIG, ToTiming, k); }
    GateAccepts(a, d5, version, LINEAGE_RETENTION_VERSION, LINEAGE_GC, ToLineage(true));
    var d6 := Gate(a, d5, version, LINEAGE_RETENTION_VERSION, LINEAGE_GC, ToLineage(true)).value;
    forall k { GateAt(a, d5, version, LINEAGE_RETENTION_VERSION, LINEAGE_GC, ToLineage(true), k); }
    GateAccepts(a, d6, version, PENDING_CREATION_VERSION, PENDING_TOOL_CALL_CONFIG, ToCreation);
  }

  /** For every generation: the upgrade takes a document exactly when it holds no name its schema
      ignored and every old field its generation owned can be read; and then each key holds the
      value, default and spelling written out above. */
  lemma UpgradeIs(a: Adapters, d: Fields, version: nat)
    requires version <= 13
    ensures PrepareDocument(a, d, version).Ok? <==> Upgradable(a, d, version)
    ensures version == 13 ==> PrepareDocument(a, d, version) == Ok(d)
    ensures version < 13 && Upgradable(a, d, version) ==>
              forall k :: OwnedReadable(a, d, version, k)
                          && UpgradedHolds(a, d, version, k, Lookup(PrepareDocument(a, d, version).value, k))
  {
    hide UpgradePolicies, UpgradeMechanisms, PreparePendingCreation, AmbiguousPolicy, UpgradedAt, OwnedReadable, UpgradedHolds, NoLaterName,
         Lookup;
    if version < 13 {
      NothingLater(d, version);
      if NoLaterName(d, version) {
        forall k { OutcomeOf(a, d, version, k); }
        if Upgradable(a, d, version) {
          PoliciesAccept(a, d, version);
          MechanismsAccept(a, d, version);
        }
        if PrepareDocument(a, d, version).Ok? {
          forall k
            ensures OwnedReadable(a, d, version, k) && UpgradedHolds(a, d, version, k, Lookup(PrepareDocument(a, d, version).value, k))
          {
            UpgradedLookup(a, d, version, k);
          }
        }
      }
    }
  }
}
