/** An older file can reach the current spelling by two routes: the generation-gated upgrade
    followed by the broad converter, or the broad converter on the original. They agree. */
module RouteConvergence {
  import opened Wrappers
  import opened Json
  import opened SectionRules
  import opened Canonicalizer
  import opened CanonicalForm
  import opened FileFormat
  import OptimizerPolicy

  // ----- optimizer: the converter absorbs each upgrade rule -----------------------------------

  ghost predicate SameTransport(a: Adapters, f: Fields, g: Fields) {
    OptimizerPolicy.TransportAccepted(a, f) == OptimizerPolicy.TransportAccepted(a, g)
  }

  ghost predicate SameUser(a: Adapters, f: Fields, g: Fields) {
    && OptimizerPolicy.UserAccepted(a, f) == OptimizerPolicy.UserAccepted(a, g)
    && (OptimizerPolicy.UserAccepted(a, f) ==> OptimizerPolicy.UserGate(a, f) == OptimizerPolicy.UserGate(a, g))
  }

  ghost predicate SameAgent(a: Adapters, f: Fields, g: Fields) {
    && OptimizerPolicy.AgentAccepted(a, f) == OptimizerPolicy.AgentAccepted(a, g)
    && (OptimizerPolicy.AgentAccepted(a, f) ==> OptimizerPolicy.AgentGate(a, f) == OptimizerPolicy.AgentGate(a, g))
  }

  ghost predicate SameWork(a: Adapters, f: Fields, g: Fields) {
    && OptimizerPolicy.WorkAccepted(a, f) == OptimizerPolicy.WorkAccepted(a, g)
    && (OptimizerPolicy.WorkAccepted(a, f) ==>
          && OptimizerPolicy.MergeBudget(a, f) == OptimizerPolicy.MergeBudget(a, g)
          && OptimizerPolicy.WorkBudget(a, f) == OptimizerPolicy.WorkBudget(a, g))
  }

  predicate Computed(k: Key) {
    || k == USER_PLAYBOOKS_ENABLED || k == AGENT_PLAYBOOKS_ENABLED || k == MAX_MERGE_INVOCATIONS || k == METRIC_CALL_BUDGET
  }

  lemma AbsorbOptimizer(a: Adapters, f: Fields, g: Fields)
    requires SameTransport(a, f, g) && SameUser(a, f, g) && SameAgent(a, f, g) && SameWork(a, f, g)
    requires forall k :: OptimizerPolicy.Retired(k) || Computed(k) || Lookup(f, k) == Lookup(g, k)
    ensures SameOutcome(NormalizeOptimizer(a, f), NormalizeOptimizer(a, g))
  {
    hide NormalizeOptimizer, OptimizerPolicy.TransportAccepted, OptimizerPolicy.UserAccepted, OptimizerPolicy.AgentAccepted,
         OptimizerPolicy.WorkAccepted, OptimizerPolicy.UserGate, OptimizerPolicy.AgentGate, OptimizerPolicy.MergeBudget,
         OptimizerPolicy.WorkBudget, Lookup;
    OptimizerPolicy.Closed(a, f);
    OptimizerPolicy.Closed(a, g);
    if OptimizerPolicy.Accepted(a, f) {
      forall k
        ensures OptimizerPolicy.At(a, f, k) == OptimizerPolicy.At(a, g, k)
      {
        assert OptimizerPolicy.Retired(k) || Computed(k) || Lookup(f, k) == Lookup(g, k);
      }
      SameLookups(NormalizeOptimizer(a, f).value, NormalizeOptimizer(a, g).value);
    }
  }

  lemma TransportFrame(a: Adapters, f: Fields, g: Fields)
    requires Lookup(f, SCHEDULER_JITTER_SECONDS) == Lookup(g, SCHEDULER_JITTER_SECONDS)
    requires Lookup(f, WEBHOOK_MAX_RETRIES) == Lookup(g, WEBHOOK_MAX_RETRIES)
    requires Lookup(f, WEBHOOK_BACKOFF_BASE_SECONDS) == Lookup(g, WEBHOOK_BACKOFF_BASE_SECONDS)
    requires Lookup(f, ABORT_COOLDOWN_THRESHOLD) == Lookup(g, ABORT_COOLDOWN_THRESHOLD)
    requires Lookup(f, COOLDOWN_AFTER_ABORTS_SECONDS) == Lookup(g, COOLDOWN_AFTER_ABORTS_SECONDS)
    ensures SameTransport(a, f, g)
  {
    assert OptimizerPolicy.Scheduling(f) == OptimizerPolicy.Scheduling(g);
  }

  lemma UserFrame(a: Adapters, f: Fields, g: Fields)
    requires Lookup(f, OPTIMIZE_USER_PLAYBOOKS) == Lookup(g, OPTIMIZE_USER_PLAYBOOKS)
    requires Lookup(f, AUTO_UPDATE_USER_PLAYBOOKS) == Lookup(g, AUTO_UPDATE_USER_PLAYBOOKS)
    requires Lookup(f, USER_PLAYBOOKS_ENABLED) == Lookup(g, USER_PLAYBOOKS_ENABLED)
    ensures SameUser(a, f, g)
  {
  }

  lemma AgentFrame(a: Adapters, f: Fields, g: Fields)
    requires Lookup(f, OPTIMIZE_AGENT_PLAYBOOKS) == Lookup(g, OPTIMIZE_AGENT_PLAYBOOKS)
    requires Lookup(f, AUTO_UPDATE_PENDING_AGENT_PLAYBOOKS) == Lookup(g, AUTO_UPDATE_PENDING_AGENT_PLAYBOOKS)
    requires Lookup(f, AGENT_PLAYBOOKS_ENABLED) == Lookup(g, AGENT_PLAYBOOKS_ENABLED)
    ensures SameAgent(a, f, g)
  {
  }

  lemma WorkFrame(a: Adapters, f: Fields, g: Fields)
    requires Lookup(f, USE_MERGE) == Lookup(g, USE_MERGE)
    requires Lookup(f, MAX_MERGE_INVOCATIONS) == Lookup(g, MAX_MERGE_INVOCATIONS)
    requires Lookup(f, EARLY_STOP_SCORE) == Lookup(g, EARLY_STOP_SCORE)
    requires Lookup(f, ENABLED) == Lookup(g, ENABLED)
    requires Lookup(f, MAX_METRIC_CALLS) == Lookup(g, MAX_METRIC_CALLS)
    requires Lookup(f, METRIC_CALL_BUDGET) == Lookup(g, METRIC_CALL_BUDGET)
    ensures SameWork(a, f, g)
  {
  }

  lemma AbsorbAgent(a: Adapters, f: Fields)
    requires CanonicalizeAgentSwitches(a, f).Ok?
    ensures SameOutcome(NormalizeOptimizer(a, CanonicalizeAgentSwitches(a, f).value), NormalizeOptimizer(a, f))
  {
    hide NormalizeOptimizer, FoldSwitches, SameTransport, SameUser, SameWork;
    var g := CanonicalizeAgentSwitches(a, f).value;
    forall k {
      OptimizerPolicy.FoldStep(a, f, OPTIMIZE_AGENT_PLAYBOOKS, AUTO_UPDATE_PENDING_AGENT_PLAYBOOKS, true,
                               AGENT_PLAYBOOKS_ENABLED, AgentSwitches, k);
    }
    OptimizerPolicy.FoldStep(a, f, OPTIMIZE_AGENT_PLAYBOOKS, AUTO_UPDATE_PENDING_AGENT_PLAYBOOKS, true,
                             AGENT_PLAYBOOKS_ENABLED, AgentSwitches, ENABLED);
    TransportFrame(a, g, f);
    UserFrame(a, g, f);
    WorkFrame(a, g, f);
    assert Lookup(g, OPTIMIZE_AGENT_PLAYBOOKS) == None && Lookup(g, AUTO_UPDATE_PENDING_AGENT_PLAYBOOKS) == None;
    assert Lookup(g, AGENT_PLAYBOOKS_ENABLED) == OptimizerPolicy.AgentGate(a, f);
    AbsorbOptimizer(a, g, f);
  }

  /** The old default of the switch is read again once it is retired, so it must be readable. */
  lemma AbsorbBudget(a: Adapters, f: Fields)
    requires Lawful(a)
    requires CanonicalizeWorkBudget(a, f).Ok? && METRIC_CALL_BUDGET !in f
    ensures SameOutcome(NormalizeOptimizer(a, CanonicalizeWorkBudget(a, f).value), NormalizeOptimizer(a, f))
  {
    hide NormalizeOptimizer, CanonicalizeWorkBudget, SameTransport, SameUser, SameAgent;
    var g := CanonicalizeWorkBudget(a, f).value;
    forall k { OptimizerPolicy.BudgetStep(a, f, k); }
    OptimizerPolicy.BudgetStep(a, f, ENABLED);
    TransportFrame(a, g, f);
    UserFrame(a, g, f);
    AgentFrame(a, g, f);
    assert a.boolean(Bool(false)) == Some(false);
    BudgetWork(a, f, g);
    AbsorbOptimizer(a, g, f);
  }

  lemma BudgetWork(a: Adapters, f: Fields, g: Fields)
    requires a.boolean(Bool(false)) == Some(false) && METRIC_CALL_BUDGET !in f
    requires CanonicalizeWorkBudget(a, f) == Ok(g)
    ensures SameWork(a, f, g)
  {
    assert Lookup(g, USE_MERGE) == Lookup(f, USE_MERGE);
    assert Lookup(g, MAX_MERGE_INVOCATIONS) == Lookup(f, MAX_MERGE_INVOCATIONS);
    assert Lookup(g, EARLY_STOP_SCORE) == Lookup(f, EARLY_STOP_SCORE);
    assert ENABLED !in g && MAX_METRIC_CALLS !in g;
  }

  lemma JitterTransport(a: Adapters, f: Fields)
    requires RetireJitter(a, f).Ok?
    ensures SameTransport(a, RetireJitter(a, f).value, f)
  {
    assert OptimizerPolicy.Scheduling(RetireJitter(a, f).value) == OptimizerPolicy.Scheduling(f);
  }

  lemma JitterAt(a: Adapters, f: Fields, k: Key)
    requires RetireJitter(a, f).Ok?
    ensures Lookup(RetireJitter(a, f).value, k) == if k == SCHEDULER_JITTER_SECONDS then None else Lookup(f, k)
  {
  }

  lemma AbsorbJitter(a: Adapters, f: Fields)
    requires RetireJitter(a, f).Ok?
    ensures SameOutcome(NormalizeOptimizer(a, RetireJitter(a, f).value), NormalizeOptimizer(a, f))
  {
    hide NormalizeOptimizer, SameTransport, SameUser, SameAgent, SameWork, RetireJitter, Lookup;
    var g := RetireJitter(a, f).value;
    JitterTransport(a, f);
    forall k { JitterAt(a, f, k); }
    UserFrame(a, g, f);
    AgentFrame(a, g, f);
    WorkFrame(a, g, f);
    AbsorbOptimizer(a, g, f);
  }

  lemma ReplayTransport(a: Adapters, f: Fields)
    requires RetireReplay(a, f).Ok?
    ensures SameTransport(a, RetireReplay(a, f).value, f)
  {
    assert OptimizerPolicy.Scheduling(RetireReplay(a, f).value) == OptimizerPolicy.Scheduling(f);
  }

  lemma ReplayAt(a: Adapters, f: Fields, k: Key)
    requires RetireReplay(a, f).Ok?
    ensures Lookup(RetireReplay(a, f).value, k) ==
            if k == WEBHOOK_MAX_RETRIES || k == WEBHOOK_BACKOFF_BASE_SECONDS then None else Lookup(f, k)
  {
  }

  lemma AbsorbReplay(a: Adapters, f: Fields)
    requires RetireReplay(a, f).Ok?
    ensures SameOutcome(NormalizeOptimizer(a, RetireReplay(a, f).value), NormalizeOptimizer(a, f))
  {
    hide NormalizeOptimizer, SameTransport, SameUser, SameAgent, SameWork, RetireReplay, Lookup;
    var g := RetireReplay(a, f).value;
    ReplayTransport(a, f);
    forall k { ReplayAt(a, f, k); }
    UserFrame(a, g, f);
    AgentFrame(a, g, f);
    WorkFrame(a, g, f);
    AbsorbOptimizer(a, g, f);
  }

  predicate OptimizerStep(rw: Rewrite) {
    rw.ToAgentSwitches? || rw.ToWorkBudget? || rw.ToNoJitter? || rw.ToNoReplay?
  }

  predicate NoBudget(o: Option<Json>) {
    o.Some? && o.value.Obj? ==> METRIC_CALL_BUDGET !in o.value.fields
  }

  lemma AbsorbStep(a: Adapters, rw: Rewrite, o: Option<Json>)
    requires Lawful(a) && OptimizerStep(rw) && OptionRewrite(a, rw, o).Ok?
    requires rw.ToWorkBudget? ==> NoBudget(o)
    ensures SameOutcome(OptionRewrite(a, ToOptimizer, OptionRewrite(a, rw, o).value), OptionRewrite(a, ToOptimizer, o))
    ensures rw.ToAgentSwitches? && NoBudget(o) ==> NoBudget(OptionRewrite(a, rw, o).value)
  {
    hide NormalizeOptimizer, CanonicalizeWorkBudget, RetireJitter, RetireReplay;
    if o.Some? && o.value.Obj? {
      var f := o.value.fields;
      match rw
      case ToAgentSwitches => AbsorbAgent(a, f);
      case ToWorkBudget => AbsorbBudget(a, f);
      case ToNoJitter => AbsorbJitter(a, f);
      case ToNoReplay => AbsorbReplay(a, f);
      case _ =>
    }
  }

  lemma AbsorbGate(a: Adapters, version: nat, since: nat, rw: Rewrite, o: Option<Json>)
    requires Lawful(a) && OptimizerStep(rw) && GateValue(a, version, since, rw, o).Ok?
    requires rw.ToWorkBudget? && version < since ==> NoBudget(o)
    ensures SameOutcome(OptionRewrite(a, ToOptimizer, GateValue(a, version, since, rw, o).value), OptionRewrite(a, ToOptimizer, o))
    ensures rw.ToAgentSwitches? && NoBudget(o) ==> NoBudget(GateValue(a, version, since, rw, o).value)
  {
    hide OptionRewrite, NoBudget;
    if version < since {
      AbsorbStep(a, rw, o);
    }
  }

  lemma OptimizerAbsorbed(a: Adapters, version: nat, o: Option<Json>)
    requires Lawful(a) && OptimizerUpgrade(a, version, o).Ok?
    requires version < 5 ==> NoBudget(o)
    ensures SameOutcome(OptionRewrite(a, ToOptimizer, OptimizerUpgrade(a, version, o).value), OptionRewrite(a, ToOptimizer, o))
  {
    hide OptionRewrite, GateValue, NoBudget;
    var o1 := GateValue(a, version, 1, ToAgentSwitches, o).value;
    var o2 := GateValue(a, version, 5, ToWorkBudget, o1).value;
    var o3 := GateValue(a, version, 6, ToNoJitter, o2).value;
    AbsorbGate(a, version, 1, ToAgentSwitches, o);
    AbsorbGate(a, version, 5, ToWorkBudget, o1);
    AbsorbGate(a, version, 6, ToNoJitter, o2);
    AbsorbGate(a, version, 7, ToNoReplay, o3);
  }

  // ----- the other sections -----------------------------------------------------------------------

  /** Floor and audit: the upgrade runs the converter's own rule early. */
  lemma SectionAbsorbed(a: Adapters, version: nat, since: nat, rw: Rewrite, o: Option<Json>)
    requires Documented(rw) && GateValue(a, version, since, rw, o).Ok?
    ensures SameOutcome(OptionRewrite(a, rw, GateValue(a, version, since, rw, o).value), OptionRewrite(a, rw, o))
  {
    hide RewriteFields, NormalSection;
    if version < since && o.Some? && o.value.Obj? {
      SectionOutput(a, rw, o.value.fields);
      SectionFixed(a, rw, RewriteFields(a, rw, o.value.fields).value);
    }
  }

  lemma PendingFieldsAbsorbed(a: Adapters, f: Fields)
    requires StripPendingTiming(a, f).Ok? && CanonicalizePending(a, StripPendingTiming(a, f).value, true).Ok?
    ensures CanonicalizePending(a, f, true).Ok?
    ensures NormalizePending(a, CanonicalizePending(a, StripPendingTiming(a, f).value, true).value)
         == NormalizePending(a, CanonicalizePending(a, f, true).value)
  {
    hide StripFollowups;
    var g := CanonicalizePending(a, StripPendingTiming(a, f).value, true).value;
    var h := CanonicalizePending(a, f, true).value;
    assert h - TIMING_FIELDS == g;
    assert g - TIMING_FIELDS == g;
  }

  lemma PendingAbsorbed(a: Adapters, version: nat, o: Option<Json>)
    requires PendingUpgrade(a, version, o).Ok?
    ensures GateValue(a, version, PENDING_CREATION_VERSION, ToCreation, o).Ok?
    ensures OptionRewrite(a, ToPending, PendingUpgrade(a, version, o).value)
         == OptionRewrite(a, ToPending, GateValue(a, version, PENDING_CREATION_VERSION, ToCreation, o).value)
  {
    hide NormalizePending, StripPendingTiming, CanonicalizePending;
    if version < SINGLE_OWNER_EXECUTION_VERSION && o.Some? && o.value.Obj? {
      PendingFieldsAbsorbed(a, o.value.fields);
    }
  }

  /** The lineage rule under the old schema's checks, then the cadence and the plain rule, is
      the cadence and the plain rule. */
  lemma LineageAbsorbed(a: Adapters, j: Json)
    requires RewriteValue(a, ToLineage(true), j).Ok?
    ensures SameOutcome(LineageOutcome(a, RewriteValue(a, ToLineage(true), j).value), LineageOutcome(a, j))
  {
    if j.Obj? {
      var f := j.fields;
      var g := CanonicalizeLineage(a, f, true).value;
      if POLL_INTERVAL_SECONDS in f && a.dailyCadence(f[POLL_INTERVAL_SECONDS]) && ENABLED in f {
        assert (g - {POLL_INTERVAL_SECONDS}) == CanonicalizeLineage(a, f - {POLL_INTERVAL_SECONDS}, false).value;
      }
    }
  }

  function LineageOutcome(a: Adapters, j: Json): Result<Option<Json>> {
    var x :- StripCadence(a, j);
    OptionRewrite(a, ToLineage(false), Some(x))
  }

  // ----- the playbook extractor -----------------------------------------------------------------

  lemma {:induction false} MigrateUpdate(f: Fields, names: Renames, k: Key, j: Json)
    requires !names.Retires(k) && !names.Targets(k)
    ensures Migrate(f[k := j], names) == Migrate(f, names)[k := j]
    decreases names
  {
    match names
    case End =>
    case Rename(former, current, rest) =>
      assert MigrateOne(f[k := j], former, current) == MigrateOne(f, former, current)[k := j];
      MigrateUpdate(MigrateOne(f, former, current), rest, k, j);
  }

  lemma PlaybookWithPolicy(f: Fields, policy: Fields)
    requires STRATEGY in policy && (policy[STRATEGY] == Str("legacy") || policy[STRATEGY] == Str("audited"))
    ensures NormalizePlaybook(f[DEDUPLICATION_CONFIG := Obj(policy)])
         == NormalizePlaybook(f[DEDUPLICATION_CONFIG := Obj(policy - {STRATEGY})])
  {
    hide Migrate;
    MigrateUpdate(f, PLAYBOOK_NAMES, DEDUPLICATION_CONFIG, Obj(policy));
    MigrateUpdate(Migrate(f, PLAYBOOK_NAMES), OVERRIDE_NAMES, DEDUPLICATION_CONFIG, Obj(policy));
    MigrateUpdate(f, PLAYBOOK_NAMES, DEDUPLICATION_CONFIG, Obj(policy - {STRATEGY}));
    MigrateUpdate(Migrate(f, PLAYBOOK_NAMES), OVERRIDE_NAMES, DEDUPLICATION_CONFIG, Obj(policy - {STRATEGY}));
    var g := Migrate(Migrate(f, PLAYBOOK_NAMES), OVERRIDE_NAMES);
    AggregatorUpdate(g, Obj(policy));
    AggregatorUpdate(g, Obj(policy - {STRATEGY}));
    var h := MigrateAggregator(g);
    assert h[DEDUPLICATION_CONFIG := Obj(policy)][DEDUPLICATION_CONFIG := Obj(policy - {STRATEGY})]
        == h[DEDUPLICATION_CONFIG := Obj(policy - {STRATEGY})];
  }

  lemma AggregatorUpdate(g: Fields, j: Json)
    ensures MigrateAggregator(g[DEDUPLICATION_CONFIG := j]) == MigrateAggregator(g)[DEDUPLICATION_CONFIG := j]
  {
    hide Migrate;
  }

  lemma StrippedPolicy(f: Fields, policy: Fields)
    ensures StripNames(USER_PLAYBOOK_EXTRACTOR_CONFIG, Obj(f[DEDUPLICATION_CONFIG := Obj(policy)]))
         == Obj((f - {EXTRACTOR_NAME, PLAYBOOK_NAME, FEEDBACK_NAME})
                [DEDUPLICATION_CONFIG := Obj(policy - {MAX_UNIFIED_CONTENT_CHARS})])
  {
    var names := {EXTRACTOR_NAME, PLAYBOOK_NAME, FEEDBACK_NAME};
    assert RetiredNames(USER_PLAYBOOK_EXTRACTOR_CONFIG) == names;
    assert f[DEDUPLICATION_CONFIG := Obj(policy)] - names == (f - names)[DEDUPLICATION_CONFIG := Obj(policy)];
  }

  lemma StrategyAbsorbed(a: Adapters, j: Json)
    requires RewriteValue(a, ToNoStrategy, j).Ok?
    ensures RewriteValue(a, ToPlaybook, StripNames(USER_PLAYBOOK_EXTRACTOR_CONFIG, RewriteValue(a, ToNoStrategy, j).value))
         == RewriteValue(a, ToPlaybook, StripNames(USER_PLAYBOOK_EXTRACTOR_CONFIG, j))
  {
    hide NormalizePlaybook, StripNames;
    if j.Obj? && HasSection(j.fields, DEDUPLICATION_CONFIG) && STRATEGY in j.fields[DEDUPLICATION_CONFIG].fields {
      var f := j.fields;
      var policy := f[DEDUPLICATION_CONFIG].fields;
      var kept := policy - {MAX_UNIFIED_CONTENT_CHARS};
      assert (policy - {STRATEGY}) - {MAX_UNIFIED_CONTENT_CHARS} == kept - {STRATEGY};
      assert f[DEDUPLICATION_CONFIG := Obj(policy)] == f;
      StrippedPolicy(f, policy);
      StrippedPolicy(f, policy - {STRATEGY});
      PlaybookWithPolicy(f - {EXTRACTOR_NAME, PLAYBOOK_NAME, FEEDBACK_NAME}, kept);
    }
  }

  // ----- whole documents --------------------------------------------------------------------------

  lemma EndpointAbsorbed(a: Adapters, d: Fields, e: Fields)
    requires CanonicalizeCustomEndpoint(a, d) == Ok(e)
    ensures CanonicalAt(a, e, API_KEY_CONFIG) == CanonicalAt(a, d, API_KEY_CONFIG)
    ensures CanonicalAt(a, e, LLM_CONFIG) == CanonicalAt(a, d, LLM_CONFIG)
  {
    hide RewriteValue, StripNames, FirstList, WithoutDeployment, WithTextModels;
    if HasEndpointModel(d) {
      var keys := d[API_KEY_CONFIG].fields;
      var endpoint := keys[CUSTOM_ENDPOINT].fields;
      assert (endpoint - {MODEL}) - {MODEL} == endpoint - {MODEL};
      assert WithoutEndpointModel(WithoutEndpointModel(keys)) == WithoutEndpointModel(keys);
    }
  }

  lemma ProviderOutcome(a: Adapters, d: Fields, e: Fields, k: Key)
    requires k == API_KEY_CONFIG || k == LLM_CONFIG
    requires Lookup(d, API_KEY_CONFIG) == Lookup(e, API_KEY_CONFIG) && Lookup(d, LLM_CONFIG) == Lookup(e, LLM_CONFIG)
    ensures CanonicalAt(a, d, k) == CanonicalAt(a, e, k)
  {
    hide CanonicalAt;
    SameOutcomeAt(a, d, e, k);
  }

  /** The two routes meet key by key. */
  lemma ConvergeAt(a: Adapters, d: Fields, version: nat, p: Fields, r: Fields, k: Key)
    requires Lawful(a) && version < FILE_FORMAT_VERSION
    requires PrepareDocument(a, d, version) == Ok(p)
    requires ConversionRead(a, d, version) == Ok(r)
    ensures SameOutcome(CanonicalAt(a, p, k), CanonicalAt(a, r, k))
  {
    hide PrepareDocument, UpgradedAt, ConversionRead, CanonicalAt, Lookup, CanonicalizeCustomEndpoint;
    forall x
      ensures UpgradedAt(a, d, version, x) == Ok(Lookup(p, x))
    {
      UpgradedLookup(a, d, version, x);
    }
    forall x
      ensures x != PENDING_TOOL_CALL_CONFIG ==> Lookup(r, x) == Lookup(d, x)
    {
      ReadAt(a, d, version, r, x);
    }
    if k == API_KEY_CONFIG || k == LLM_CONFIG {
      UpgradeAcceptsEndpoint(a, d, version);
      var e := CanonicalizeCustomEndpoint(a, d).value;
      UpgradedProviders(a, d, version, p, e);
      ProviderOutcome(a, p, e, k);
      EndpointAbsorbed(a, d, e);
      ProviderOutcome(a, d, r, k);
    } else if ExtractorField(k) {
      ConvergeExtractor(a, d, version, p, r, k);
    } else if PolicySection(k) {
      ReadAt(a, d, version, r, k);
      ConvergePolicy(a, d, version, p, r, k);
    } else {
      UntouchedAt(a, d, version, k);
      if GeometryField(k) {
        UntouchedAt(a, d, version, BATCH_SIZE);
        UntouchedAt(a, d, version, BATCH_INTERVAL);
        UntouchedAt(a, d, version, EXTRACTION_WINDOW_SIZE);
        UntouchedAt(a, d, version, EXTRACTION_WINDOW_STRIDE);
        UntouchedAt(a, d, version, EXTRACTION_PRESET);
      }
      SameOutcomeAt(a, p, r, k);
    }
  }

  lemma ReadAt(a: Adapters, d: Fields, version: nat, r: Fields, k: Key)
    requires ConversionRead(a, d, version) == Ok(r)
    ensures k != PENDING_TOOL_CALL_CONFIG ==> Lookup(r, k) == Lookup(d, k)
    ensures k == PENDING_TOOL_CALL_CONFIG ==>
              GateValue(a, version, PENDING_CREATION_VERSION, ToCreation, Lookup(d, k)) == Ok(Lookup(r, k))
  {
    hide Gate;
    GateAt(a, d, version, PENDING_CREATION_VERSION, PENDING_TOOL_CALL_CONFIG, ToCreation, k);
  }

  lemma UntouchedAt(a: Adapters, d: Fields, version: nat, k: Key)
    ensures !PolicySection(k) && k != API_KEY_CONFIG && k != LLM_CONFIG && k != USER_PLAYBOOK_EXTRACTOR_CONFIG ==>
              UpgradedAt(a, d, version, k) == Ok(Lookup(d, k))
  {
  }

  lemma UpgradeAcceptsEndpoint(a: Adapters, d: Fields, version: nat)
    requires UpgradedAt(a, d, version, API_KEY_CONFIG).Ok?
    ensures CanonicalizeCustomEndpoint(a, d).Ok?
  {
    hide CanonicalizeCustomEndpoint;
  }

  lemma UpgradedProviders(a: Adapters, d: Fields, version: nat, p: Fields, e: Fields)
    requires UpgradedAt(a, d, version, API_KEY_CONFIG) == Ok(Lookup(p, API_KEY_CONFIG))
    requires UpgradedAt(a, d, version, LLM_CONFIG) == Ok(Lookup(p, LLM_CONFIG))
    requires CanonicalizeCustomEndpoint(a, d) == Ok(e)
    ensures Lookup(p, API_KEY_CONFIG) == Lookup(e, API_KEY_CONFIG) && Lookup(p, LLM_CONFIG) == Lookup(e, LLM_CONFIG)
  {
    hide CanonicalizeCustomEndpoint;
  }

  lemma ConvergePolicy(a: Adapters, d: Fields, version: nat, p: Fields, r: Fields, k: Key)
    requires Lawful(a) && version < FILE_FORMAT_VERSION && PolicySection(k)
    requires PrepareDocument(a, d, version) == Ok(p)
    requires UpgradedAt(a, d, version, k) == Ok(Lookup(p, k))
    requires k != PENDING_TOOL_CALL_CONFIG ==> Lookup(r, k) == Lookup(d, k)
    requires k == PENDING_TOOL_CALL_CONFIG ==>
               GateValue(a, version, PENDING_CREATION_VERSION, ToCreation, Lookup(d, k)) == Ok(Lookup(r, k))
    ensures SameOutcome(CanonicalAt(a, p, k), CanonicalAt(a, r, k))
  {
    hide PrepareDocument, GateValue, OptionRewrite, OptimizerUpgrade, PendingUpgrade, StripCadence;
    if k == PLAYBOOK_OPTIMIZER_CONFIG {
      UnambiguousBudget(a, d, version);
      OptimizerAbsorbed(a, version, Lookup(d, k));
    } else if k == RETRIEVAL_FLOOR {
      SectionAbsorbed(a, version, 2, ToFloor, Lookup(d, k));
    } else if k == GOVERNANCE_RETENTION {
      SectionAbsorbed(a, version, 3, ToAudit, Lookup(d, k));
    } else if k == PENDING_TOOL_CALL_CONFIG {
      PendingAbsorbed(a, version, Lookup(d, k));
    } else {
      LineageGate(a, version, Lookup(d, k));
    }
  }

  lemma LineageGate(a: Adapters, version: nat, o: Option<Json>)
    requires GateValue(a, version, LINEAGE_RETENTION_VERSION, ToLineage(true), o).Ok?
    ensures GateValue(a, version, LINEAGE_RETENTION_VERSION, ToLineage(true), o).value.Some? <==> o.Some?
    ensures o.Some? ==>
              SameOutcome(LineageOutcome(a, GateValue(a, version, LINEAGE_RETENTION_VERSION, ToLineage(true), o).value.value),
                          LineageOutcome(a, o.value))
  {
    hide LineageOutcome, RewriteValue;
    if version < LINEAGE_RETENTION_VERSION && o.Some? {
      LineageAbsorbed(a, o.value);
    }
  }

  lemma UnambiguousBudget(a: Adapters, d: Fields, version: nat)
    requires version < FILE_FORMAT_VERSION && PrepareDocument(a, d, version).Ok?
    ensures version < 5 ==> NoBudget(Lookup(d, PLAYBOOK_OPTIMIZER_CONFIG))
  {
    hide UpgradePolicies, UpgradeMechanisms, PreparePendingCreation;
  }

  lemma ConvergeExtractor(a: Adapters, d: Fields, version: nat, p: Fields, r: Fields, k: Key)
    requires ExtractorField(k)
    requires forall x :: UpgradedAt(a, d, version, x) == Ok(Lookup(p, x))
    requires forall x :: x != PENDING_TOOL_CALL_CONFIG ==> Lookup(r, x) == Lookup(d, x)
    ensures SameOutcome(CanonicalAt(a, p, k), CanonicalAt(a, r, k))
  {
    hide UpgradedAt, StripNames, RewriteValue, Lookup;
    forall x { UntouchedAt(a, d, version, x); }
    forall x | ListFormer(x) || (ExtractorField(x) && x != USER_PLAYBOOK_EXTRACTOR_CONFIG)
      ensures Lookup(p, x) == Lookup(r, x)
    {
      UntouchedAt(a, d, version, x);
      assert UpgradedAt(a, d, version, x) == Ok(Lookup(p, x));
    }
    assert UpgradedAt(a, d, version, USER_PLAYBOOK_EXTRACTOR_CONFIG) == Ok(Lookup(p, USER_PLAYBOOK_EXTRACTOR_CONFIG));
    UpgradedPlaybook(a, d, version);
    ExtractorsMeet(a, p, r, k, version);
  }

  lemma UpgradedPlaybook(a: Adapters, d: Fields, version: nat)
    ensures UpgradedAt(a, d, version, USER_PLAYBOOK_EXTRACTOR_CONFIG)
         == GateValue(a, version, 8, ToNoStrategy, Lookup(d, USER_PLAYBOOK_EXTRACTOR_CONFIG))
  {
    hide GateValue;
  }

  lemma ExtractorsMeet(a: Adapters, p: Fields, r: Fields, k: Key, version: nat)
    requires ExtractorField(k)
    requires forall x :: ListFormer(x) || (ExtractorField(x) && x != USER_PLAYBOOK_EXTRACTOR_CONFIG) ==> Lookup(p, x) == Lookup(r, x)
    requires GateValue(a, version, 8, ToNoStrategy, Lookup(r, USER_PLAYBOOK_EXTRACTOR_CONFIG))
          == Ok(Lookup(p, USER_PLAYBOOK_EXTRACTOR_CONFIG))
    ensures SameOutcome(CanonicalAt(a, p, k), CanonicalAt(a, r, k))
  {
    hide StripNames, RewriteFields;
    if k in r {
      if k == USER_PLAYBOOK_EXTRACTOR_CONFIG {
        if version < 8 { StrategyAbsorbed(a, r[k]); }
      } else {
        assert Lookup(p, k) == Lookup(r, k);
      }
    } else {
      assert k !in p;
      forall x | LIST_FIELDS.Retires(x)
        ensures Lookup(p, x) == Lookup(r, x)
      {
        assert ListFormer(x);
      }
      FirstListFrame(p, r, LIST_FIELDS, k);
    }
  }

  /** For every generation and every document the upgrade accepts, converting the upgraded
      document and converting the original end alike. */
  lemma RoutesConverge(a: Adapters, d: Fields, version: nat)
    requires Lawful(a) && version <= FILE_FORMAT_VERSION
    requires PrepareDocument(a, d, version).Ok?
    ensures ConversionRead(a, d, version).Ok?
    ensures SameOutcome(Canonicalize(a, PrepareDocument(a, d, version).value),
                        Canonicalize(a, ConversionRead(a, d, version).value))
    ensures SameOutcome(CanonicalizeDocument(a, PrepareDocument(a, d, version).value),
                        CanonicalizeDocument(a, ConversionRead(a, d, version).value))
  {
    hide Canonicalize, CanonicalAt, TagStorage;
    if version < FILE_FORMAT_VERSION {
      PreparedIsReadable(a, d, version);
      var p := PrepareDocument(a, d, version).value;
      var r := ConversionRead(a, d, version).value;
      forall k { ConvergeAt(a, d, version, p, r, k); }
      SameOutcomes(a, p, r);
    }
  }

  lemma PreparedIsReadable(a: Adapters, d: Fields, version: nat)
    requires version < FILE_FORMAT_VERSION && PrepareDocument(a, d, version).Ok?
    ensures ConversionRead(a, d, version).Ok?
  {
    hide PrepareDocument, RewriteFields, UpgradedAt, PendingUpgrade;
    UpgradedLookup(a, d, version, PENDING_TOOL_CALL_CONFIG);
    UpgradedPending(a, d, version);
    PendingAbsorbed(a, version, Lookup(d, PENDING_TOOL_CALL_CONFIG));
  }

  lemma UpgradedPending(a: Adapters, d: Fields, version: nat)
    ensures UpgradedAt(a, d, version, PENDING_TOOL_CALL_CONFIG) == PendingUpgrade(a, version, Lookup(d, PENDING_TOOL_CALL_CONFIG))
  {
    hide PendingUpgrade;
  }
}
