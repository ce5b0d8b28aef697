/** The rewrite rules for one configuration section each: what an explicit upgrade does to a
    saved optimizer, retrieval, retention, pending-call or extractor policy. */
module SectionRules {
  import opened Wrappers
  import opened Json

  datatype Preset = QuickChat | Standard | LongForm | HighVolume

  /** The value validators the rules call. They belong to the schema library, so every
      theorem here holds for whatever these functions are; `Lawful` lists the few facts about
      already canonical values that some theorems need. */
  datatype Adapters = Adapters(
    boolean: Json -> Option<bool>,
    positive: Json -> Option<int>,
    nonNegative: Json -> Option<int>,
    jitterOk: Json -> bool,
    backoffOk: Json -> bool,
    stopScoreOk: Json -> bool,
    pollOk: Json -> bool,
    claimOk: Json -> bool,
    text: Json -> Option<string>,
    endpointOk: Fields -> bool,
    llmOk: Fields -> bool,
    schedulingOk: Fields -> bool,
    preset: Json -> Option<Option<Preset>>,
    dailyCadence: Json -> bool,
    schemaOk: Fields -> bool)

  ghost predicate Lawful(a: Adapters) {
    && (forall b :: a.boolean(Bool(b)) == Some(b))
    && (forall n :: a.positive(Int(n)) == if n > 0 then Some(n) else None)
    && (forall n :: a.nonNegative(Int(n)) == if n >= 0 then Some(n) else None)
    && (forall j :: a.positive(j).Some? ==> a.positive(j).value > 0 && a.nonNegative(j) == a.positive(j))
  }

  const MAX_MERGE_DEFAULT := 5

  // ----- optimizer ---------------------------------------------------------------------

  const REPLAY_FIELDS: set<Key> := {WEBHOOK_MAX_RETRIES, WEBHOOK_BACKOFF_BASE_SECONDS}
  const BUDGET_FIELDS: set<Key> := {ENABLED, MAX_METRIC_CALLS}
  const AGENT_FIELDS: set<Key> := {OPTIMIZE_AGENT_PLAYBOOKS, AUTO_UPDATE_PENDING_AGENT_PLAYBOOKS}
  const USER_FIELDS: set<Key> := {OPTIMIZE_USER_PLAYBOOKS, AUTO_UPDATE_USER_PLAYBOOKS}

  function RetireJitter(a: Adapters, f: Fields): Result<Fields> {
    if SCHEDULER_JITTER_SECONDS !in f then Ok(f)
    else if !a.jitterOk(f[SCHEDULER_JITTER_SECONDS]) then Refused(OptimizerScheduling)
    else Ok(f - {SCHEDULER_JITTER_SECONDS})
  }

  function RetireReplay(a: Adapters, f: Fields): Result<Fields> {
    if WEBHOOK_MAX_RETRIES in f && a.nonNegative(f[WEBHOOK_MAX_RETRIES]).None? then Refused(OptimizerReplay)
    else if WEBHOOK_BACKOFF_BASE_SECONDS in f && !a.backoffOk(f[WEBHOOK_BACKOFF_BASE_SECONDS]) then Refused(OptimizerReplay)
    else Ok(f - REPLAY_FIELDS)
  }

  function RetireStopScore(a: Adapters, f: Fields): Result<Fields> {
    if EARLY_STOP_SCORE !in f then Ok(f)
    else if !a.stopScoreOk(f[EARLY_STOP_SCORE]) || a.boolean(Get(f, ENABLED, Bool(false))).None? then Refused(StopScore)
    else Ok(f - {EARLY_STOP_SCORE})
  }

  function CanonicalizeWorkBudget(a: Adapters, f: Fields): Result<Fields> {
    if ENABLED !in f && MAX_METRIC_CALLS !in f then Ok(f)
    else if METRIC_CALL_BUDGET in f then Refused(OptimizerBudget)
    else
      var enabled := a.boolean(Get(f, ENABLED, Bool(false)));
      var limit := a.positive(Get(f, MAX_METRIC_CALLS, Int(20)));
      if enabled.None? || limit.None? then Refused(OptimizerBudget)
      else Ok((f - BUDGET_FIELDS)[METRIC_CALL_BUDGET := Int(if enabled.value then limit.value else 0)])
  }

  function SetDefault(f: Fields, k: Key, j: Json): Fields {
    if k in f then f else f[k := j]
  }

  /** Two old switches become one: enabled means both the work and its adoption were on. */
  function FoldSwitches(a: Adapters, f: Fields, work: Key, adopt: Key, adoptDefault: bool, current: Key, rule: Rule): Result<Fields> {
    if work !in f && adopt !in f then Ok(f)
    else
      var w := a.boolean(Get(f, work, Bool(false)));
      var d := a.boolean(Get(f, adopt, Bool(adoptDefault)));
      if w.None? || d.None? then Refused(rule)
      else Ok(SetDefault(f, current, Bool(w.value && d.value)) - {work, adopt})
  }

  function CanonicalizeAgentSwitches(a: Adapters, f: Fields): Result<Fields> {
    FoldSwitches(a, f, OPTIMIZE_AGENT_PLAYBOOKS, AUTO_UPDATE_PENDING_AGENT_PLAYBOOKS, true, AGENT_PLAYBOOKS_ENABLED, AgentSwitches)
  }

  function CanonicalizeUserSwitches(a: Adapters, f: Fields): Result<Fields> {
    FoldSwitches(a, f, OPTIMIZE_USER_PLAYBOOKS, AUTO_UPDATE_USER_PLAYBOOKS, false, USER_PLAYBOOKS_ENABLED, OptimizerUserSwitches)
  }

  function CanonicalizeMerge(a: Adapters, f: Fields): Result<Fields> {
    if USE_MERGE !in f then Ok(f)
    else
      var enabled := a.boolean(f[USE_MERGE]);
      var limit := a.nonNegative(Get(f, MAX_MERGE_INVOCATIONS, Int(MAX_MERGE_DEFAULT)));
      if enabled.None? || limit.None? then Refused(MergeLimit)
      else Ok((f - {USE_MERGE})[MAX_MERGE_INVOCATIONS := Int(if enabled.value then limit.value else 0)])
  }

  function Restrict(f: Fields, keys: set<Key>): Fields {
    map k | k in f && k in keys :: f[k]
  }

  const SCHEDULING_FIELDS: set<Key> := {ABORT_COOLDOWN_THRESHOLD, COOLDOWN_AFTER_ABORTS_SECONDS}

  function CheckScheduling(a: Adapters, f: Fields): bool {
    var scheduling := Restrict(f, SCHEDULING_FIELDS);
    scheduling == map[] || a.schedulingOk(scheduling)
  }

  function NormalizeOptimizer(a: Adapters, data: Fields): Result<Fields> {
    var f0 :- RetireJitter(a, data);
    var f1 :- RetireReplay(a, f0);
    if !CheckScheduling(a, data) then Refused(OptimizerScheduling)
    else
      var f2 :- CanonicalizeUserSwitches(a, f1);
      var f3 :- CanonicalizeAgentSwitches(a, f2);
      var f4 :- CanonicalizeMerge(a, f3);
      var f5 :- RetireStopScore(a, f4);
      CanonicalizeWorkBudget(a, f5)
  }

  // ----- retrieval floor, audit retention, lineage, pending calls ----------------------

  const FLOOR_FIELDS: set<Key> := {ENABLED, POOL_SIZE}
  const AUDIT_FIELDS: set<Key> := {AUDIT_EVENTS_RETENTION_ENABLED, AUDIT_EVENTS_RETENTION_DAYS}
  const TIMING_FIELDS: set<Key> := {RESUME_POLL_INTERVAL_SECONDS, RESUME_CLAIM_TTL_SECONDS}

  function CanonicalizeFloor(a: Adapters, f: Fields): Result<Fields> {
    if ENABLED !in f && POOL_SIZE !in f then Ok(f)
    else
      var enabled := a.boolean(Get(f, ENABLED, Bool(false)));
      var size := a.positive(Get(f, POOL_SIZE, Int(30)));
      if enabled.None? || size.None? then Refused(RetrievalFloorPolicy)
      else Ok(SetDefault(f - FLOOR_FIELDS, CANDIDATE_POOL_SIZE, Int(if enabled.value then size.value else 0)))
  }

  function CanonicalizeAudit(a: Adapters, f: Fields): Result<Fields> {
    if AUDIT_EVENTS_RETENTION_ENABLED !in f && AUDIT_EVENTS_RETENTION_DAYS !in f then Ok(f)
    else if AUDIT_EVENTS_MAX_AGE_DAYS in f then Refused(AuditPolicy)
    else
      var enabled := a.boolean(Get(f, AUDIT_EVENTS_RETENTION_ENABLED, Bool(false)));
      var days := a.positive(Get(f, AUDIT_EVENTS_RETENTION_DAYS, Int(365)));
      if enabled.None? || days.None? then Refused(AuditPolicy)
      else Ok((f - AUDIT_FIELDS)[AUDIT_EVENTS_MAX_AGE_DAYS := Int(if enabled.value then days.value else 0)])
  }

  /** `historical`: the file predates the single-field policy, so even a section without the
      old switch is checked as the old schema would have. */
  function CanonicalizeLineage(a: Adapters, f: Fields, historical: bool): Result<Fields> {
    if ENABLED !in f && !historical then Ok(f)
    else
      var enabled := a.boolean(Get(f, ENABLED, Bool(true)));
      var days := a.positive(Get(f, TOMBSTONE_GRACE_WINDOW_DAYS, Int(90)));
      if enabled.None? || days.None? then Refused(LineagePolicy)
      else if ENABLED !in f then Ok(f)
      else Ok((f - {ENABLED})[TOMBSTONE_GRACE_WINDOW_DAYS := Int(if enabled.value then days.value else 0)])
  }

  function CanonicalizePending(a: Adapters, f: Fields, historical: bool): Result<Fields> {
    if ENABLED !in f && !historical then Ok(f)
    else
      var enabled := a.boolean(Get(f, ENABLED, Bool(false)));
      var lifetime := a.positive(Get(f, PENDING_TTL_SECONDS, Int(86_400)));
      if enabled.None? || lifetime.None? then Refused(PendingPolicy)
      else Ok((f - {ENABLED})[PENDING_TTL_SECONDS := Int(if enabled.value then lifetime.value else 0)])
  }

  function StripPendingTiming(a: Adapters, f: Fields): Result<Fields> {
    if RESUME_POLL_INTERVAL_SECONDS in f && !a.pollOk(f[RESUME_POLL_INTERVAL_SECONDS]) then Refused(PendingTiming)
    else if RESUME_CLAIM_TTL_SECONDS in f && !a.claimOk(f[RESUME_CLAIM_TTL_SECONDS]) then Refused(PendingTiming)
    else Ok(f - TIMING_FIELDS)
  }

  function StripFollowups(f: Fields): Fields {
    var cleaned := f - {MAX_PENDING_FOLLOWUPS_PER_SCOPE};
    if HasSection(f, TOOL_OVERRIDES) then
      var overrides := f[TOOL_OVERRIDES].fields;
      cleaned[TOOL_OVERRIDES := Obj(map name | name in overrides :: StripOverride(overrides[name]))]
    else cleaned
  }

  function StripOverride(j: Json): Json {
    if j.Obj? then Obj(j.fields - {MAX_PENDING_FOLLOWUPS_PER_SCOPE}) else j
  }

  function NormalizePending(a: Adapters, f: Fields): Result<Fields> {
    var g :- StripPendingTiming(a, f);
    CanonicalizePending(a, StripFollowups(g), false)
  }

  // ----- extractors --------------------------------------------------------------------

  function RetireConsolidationStrategy(f: Fields): Result<Fields> {
    if !HasSection(f, DEDUPLICATION_CONFIG) || STRATEGY !in f[DEDUPLICATION_CONFIG].fields then Ok(f)
    else
      var policy := f[DEDUPLICATION_CONFIG].fields;
      if policy[STRATEGY] != Str("legacy") && policy[STRATEGY] != Str("audited") then Refused(ConsolidationStrategy)
      else Ok(f[DEDUPLICATION_CONFIG := Obj(policy - {STRATEGY})])
  }

  /** Old name to new name, applied in order. */
  datatype Renames = End | Rename(former: Key, current: Key, rest: Renames) {
    predicate Retires(k: Key)
      decreases this
    {
      Rename? && (former == k || rest.Retires(k))
    }

    predicate Targets(k: Key)
      decreases this
    {
      Rename? && (current == k || rest.Targets(k))
    }

    /** Each name is retired once, and no name is both retired and current. */
    ghost predicate Acyclic() {
      Rename? ==>
        && former != current && !rest.Retires(former) && !rest.Targets(former) && !rest.Retires(current)
        && rest.Acyclic()
    }
  }

  function MigrateOne(f: Fields, former: Key, current: Key): Fields {
    if former !in f then f
    else if current in f then f - {former}
    else (f - {former})[current := f[former]]
  }

  function Migrate(f: Fields, names: Renames): Fields
    decreases names
  {
    match names
    case End => f
    case Rename(former, current, rest) => Migrate(MigrateOne(f, former, current), rest)
  }

  /** What the current name looks up to: itself, else the first old spelling present. */
  function FirstSpelling(f: Fields, names: Renames, k: Key): Option<Json>
    decreases names
  {
    if k in f then Some(f[k])
    else match names
      case End => None
      case Rename(former, current, rest) =>
        if current == k && former in f then Some(f[former]) else FirstSpelling(f, rest, k)
  }

  const ROOT_NAMES: Renames :=
    Rename(BATCH_SIZE, WINDOW_SIZE, Rename(BATCH_INTERVAL, STRIDE_SIZE,
    Rename(EXTRACTION_WINDOW_SIZE, WINDOW_SIZE, Rename(EXTRACTION_WINDOW_STRIDE, STRIDE_SIZE, End))))

  const AGGREGATOR_NAMES: Renames :=
    Rename(MIN_FEEDBACK_THRESHOLD, MIN_CLUSTER_SIZE, Rename(REFRESH_COUNT, REAGGREGATION_TRIGGER_COUNT,
    Rename(SIMILARITY_THRESHOLD, CLUSTERING_SIMILARITY, End)))

  const OVERRIDE_NAMES: Renames :=
    Rename(BATCH_SIZE_OVERRIDE, WINDOW_SIZE_OVERRIDE, Rename(BATCH_INTERVAL_OVERRIDE, STRIDE_SIZE_OVERRIDE,
    Rename(EXTRACTION_WINDOW_SIZE_OVERRIDE, WINDOW_SIZE_OVERRIDE,
    Rename(EXTRACTION_WINDOW_STRIDE_OVERRIDE, STRIDE_SIZE_OVERRIDE, End))))

  const PROFILE_NAMES: Renames := Rename(PROFILE_CONTENT_DEFINITION_PROMPT, EXTRACTION_DEFINITION_PROMPT, End)

  const PLAYBOOK_NAMES: Renames :=
    Rename(FEEDBACK_DEFINITION_PROMPT, EXTRACTION_DEFINITION_PROMPT,
    Rename(PLAYBOOK_DEFINITION_PROMPT, EXTRACTION_DEFINITION_PROMPT,
    Rename(FEEDBACK_AGGREGATOR_CONFIG, AGGREGATION_CONFIG, Rename(PLAYBOOK_AGGREGATOR_CONFIG, AGGREGATION_CONFIG,
    Rename(PLAYBOOK_NAME, EXTRACTOR_NAME, Rename(FEEDBACK_NAME, EXTRACTOR_NAME, End))))))

  function NormalizeProfile(f: Fields): Fields {
    Migrate(Migrate(f, PROFILE_NAMES), OVERRIDE_NAMES)
  }

  function MigrateAggregator(f: Fields): Fields {
    if HasSection(f, AGGREGATION_CONFIG)
    then f[AGGREGATION_CONFIG := Obj(Migrate(f[AGGREGATION_CONFIG].fields, AGGREGATOR_NAMES))]
    else f
  }

  function NormalizePlaybook(f: Fields): Result<Fields> {
    RetireConsolidationStrategy(MigrateAggregator(Migrate(Migrate(f, PLAYBOOK_NAMES), OVERRIDE_NAMES)))
  }

  // ----- one rewrite applied to one section ---------------------------------------------

  datatype Rewrite =
    | ToFloor | ToAudit | ToLineage(historical: bool) | ToPending | ToCreation | ToTiming | ToOptimizer
    | ToAgentSwitches | ToWorkBudget | ToNoJitter | ToNoReplay | ToProfile | ToPlaybook | ToNoStrategy

  function RewriteFields(a: Adapters, rw: Rewrite, f: Fields): Result<Fields> {
    match rw
    case ToFloor => CanonicalizeFloor(a, f)
    case ToAudit => CanonicalizeAudit(a, f)
    case ToLineage(historical) => CanonicalizeLineage(a, f, historical)
    case ToPending => NormalizePending(a, f)
    case ToCreation => CanonicalizePending(a, f, true)
    case ToTiming => StripPendingTiming(a, f)
    case ToOptimizer => NormalizeOptimizer(a, f)
    case ToAgentSwitches => CanonicalizeAgentSwitches(a, f)
    case ToWorkBudget => CanonicalizeWorkBudget(a, f)
    case ToNoJitter => RetireJitter(a, f)
    case ToNoReplay => RetireReplay(a, f)
    case ToProfile => Ok(NormalizeProfile(f))
    case ToPlaybook => NormalizePlaybook(f)
    case ToNoStrategy => RetireConsolidationStrategy(f)
  }

  /** Every rule leaves a value that is not an object alone. */
  function RewriteValue(a: Adapters, rw: Rewrite, j: Json): Result<Json> {
    if !j.Obj? then Ok(j)
    else
      var g :- RewriteFields(a, rw, j.fields);
      Ok(Obj(g))
  }

  function RewriteSection(a: Adapters, d: Fields, k: Key, rw: Rewrite): Result<Fields> {
    if k !in d then Ok(d)
    else
      var j :- RewriteValue(a, rw, d[k]);
      Ok(d[k := j])
  }
}
