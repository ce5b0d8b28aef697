/** JSON documents as the configuration code sees them: finite trees whose objects are
    unordered maps. Field names are interned as numbers; the ones the code mentions are the
    constants of `Key` below. */
module Json {
  import opened Wrappers

  /** Which rule refused a document. */
  datatype Rule =
    | ConsolidationStrategy | StopScore | OptimizerScheduling | OptimizerReplay | OptimizerBudget
    | OptimizerUserSwitches | AgentSwitches | MergeLimit | RetrievalFloorPolicy | PendingPolicy | PendingTiming
    | LineagePolicy | AuditPolicy | HousekeepingCadence | CustomEndpointModel | ShadowLabel | PresetName
    | StorageSpelling | InvalidSchema | AmbiguousGeneration | UnpreparedPending | MalformedFile | NotAdmitted

  datatype Result<+T> = Ok(value: T) | Refused(rule: Rule) {
    predicate IsFailure() { Refused? }

    function PropagateFailure<U>(): Result<U>
      requires Refused?
    {
      Refused(rule)
    }

    function Extract(): T
      requires Ok?
    {
      value
    }
  }

  /** Two calls end alike: both refuse, or both accept with the same value. */
  predicate SameOutcome<T(==)>(r: Result<T>, s: Result<T>) {
    r.Ok? == s.Ok? && (r.Ok? ==> r.value == s.value)
  }

  /** Field names, interned. The names the code mentions are the constants below; every other
      name is some other number. */
  newtype Key = n: int | 0 <= n

  // document sections
  const STORAGE_CONFIG: Key := 1
  const PROFILE_EXTRACTOR_CONFIG: Key := 2
  const USER_PLAYBOOK_EXTRACTOR_CONFIG: Key := 3
  const AGENT_SUCCESS_CONFIG: Key := 4
  const PROFILE_EXTRACTOR_CONFIGS: Key := 5
  const USER_PLAYBOOK_EXTRACTOR_CONFIGS: Key := 6
  const PLAYBOOK_CONFIGS: Key := 7
  const AGENT_FEEDBACK_CONFIGS: Key := 8
  const AGENT_SUCCESS_CONFIGS: Key := 9
  const WINDOW_SIZE: Key := 10
  const STRIDE_SIZE: Key := 11
  const BATCH_SIZE: Key := 12
  const BATCH_INTERVAL: Key := 13
  const EXTRACTION_WINDOW_SIZE: Key := 14
  const EXTRACTION_WINDOW_STRIDE: Key := 15
  const EXTRACTION_PRESET: Key := 16
  const API_KEY_CONFIG: Key := 17
  const LLM_CONFIG: Key := 18
  const RETRIEVAL_FLOOR: Key := 19
  const PLAYBOOK_OPTIMIZER_CONFIG: Key := 20
  const LINEAGE_GC: Key := 21
  const GOVERNANCE_RETENTION: Key := 22
  const PENDING_TOOL_CALL_CONFIG: Key := 23
  const SHADOW_COMPARISON_JUDGE_PROMPT_VERSION: Key := 24
  const SHADOW_MODE_ENABLED: Key := 25

  // file envelope
  const FILE_METADATA: Key := 26
  const VERSION: Key := 27
  const ORIGINAL_SHA256: Key := 28

  // optimizer
  const ENABLED: Key := 29
  const MAX_METRIC_CALLS: Key := 30
  const METRIC_CALL_BUDGET: Key := 31
  const OPTIMIZE_AGENT_PLAYBOOKS: Key := 32
  const AUTO_UPDATE_PENDING_AGENT_PLAYBOOKS: Key := 33
  const AGENT_PLAYBOOKS_ENABLED: Key := 34
  const OPTIMIZE_USER_PLAYBOOKS: Key := 35
  const AUTO_UPDATE_USER_PLAYBOOKS: Key := 36
  const USER_PLAYBOOKS_ENABLED: Key := 37
  const USE_MERGE: Key := 38
  const MAX_MERGE_INVOCATIONS: Key := 39
  const EARLY_STOP_SCORE: Key := 40
  const SCHEDULER_JITTER_SECONDS: Key := 41
  const WEBHOOK_MAX_RETRIES: Key := 42
  const WEBHOOK_BACKOFF_BASE_SECONDS: Key := 43
  const ABORT_COOLDOWN_THRESHOLD: Key := 44
  const COOLDOWN_AFTER_ABORTS_SECONDS: Key := 45

  // retrieval floor, pending calls, lineage, audit
  const POOL_SIZE: Key := 46
  const CANDIDATE_POOL_SIZE: Key := 47
  const PENDING_TTL_SECONDS: Key := 48
  const RESUME_POLL_INTERVAL_SECONDS: Key := 49
  const RESUME_CLAIM_TTL_SECONDS: Key := 50
  const MAX_PENDING_FOLLOWUPS_PER_SCOPE: Key := 51
  const TOOL_OVERRIDES: Key := 52
  const TOMBSTONE_GRACE_WINDOW_DAYS: Key := 53
  const POLL_INTERVAL_SECONDS: Key := 54
  const AUDIT_EVENTS_RETENTION_ENABLED: Key := 55
  const AUDIT_EVENTS_RETENTION_DAYS: Key := 56
  const AUDIT_EVENTS_MAX_AGE_DAYS: Key := 57

  // providers and models
  const CUSTOM_ENDPOINT: Key := 58
  const MODEL: Key := 59
  const OPENAI: Key := 60
  const AZURE_CONFIG: Key := 61
  const DEPLOYMENT_NAME: Key := 62
  const GENERATION_MODEL_NAME: Key := 63
  const SHOULD_RUN_MODEL_NAME: Key := 64
  const PRE_RETRIEVAL_MODEL_NAME: Key := 65
  const GENERATION_MAX_OUTPUT_TOKENS: Key := 66

  // extractors
  const DEDUPLICATION_CONFIG: Key := 67
  const STRATEGY: Key := 68
  const MAX_UNIFIED_CONTENT_CHARS: Key := 69
  const EXTRACTOR_NAME: Key := 70
  const PLAYBOOK_NAME: Key := 71
  const FEEDBACK_NAME: Key := 72
  const EVALUATION_NAME: Key := 73
  const WINDOW_SIZE_OVERRIDE: Key := 74
  const STRIDE_SIZE_OVERRIDE: Key := 75
  const BATCH_SIZE_OVERRIDE: Key := 76
  const BATCH_INTERVAL_OVERRIDE: Key := 77
  const EXTRACTION_WINDOW_SIZE_OVERRIDE: Key := 78
  const EXTRACTION_WINDOW_STRIDE_OVERRIDE: Key := 79
  const PROFILE_CONTENT_DEFINITION_PROMPT: Key := 80
  const EXTRACTION_DEFINITION_PROMPT: Key := 81
  const FEEDBACK_DEFINITION_PROMPT: Key := 82
  const PLAYBOOK_DEFINITION_PROMPT: Key := 83
  const FEEDBACK_AGGREGATOR_CONFIG: Key := 84
  const PLAYBOOK_AGGREGATOR_CONFIG: Key := 85
  const AGGREGATION_CONFIG: Key := 86
  const MIN_FEEDBACK_THRESHOLD: Key := 87
  const MIN_CLUSTER_SIZE: Key := 88
  const REFRESH_COUNT: Key := 89
  const REAGGREGATION_TRIGGER_COUNT: Key := 90
  const SIMILARITY_THRESHOLD: Key := 91
  const CLUSTERING_SIMILARITY: Key := 92

  // storage
  const TYPE: Key := 93
  const STORAGE_TYPE: Key := 94
  const SCHEMA_NAME: Key := 95
  const SCHEMA: Key := 96
  const MANAGED_BY: Key := 97
  const URL: Key := 98
  const HTTP_KEY: Key := 99
  const READ_URL: Key := 100
  const READ_KEY: Key := 101
  const DB_URL: Key := 102

  /** `Dec` is a number written with a point or an exponent, kept digit for digit. */
  datatype Json =
    | Null
    | Bool(b: bool)
    | Int(n: int)
    | Dec(digits: int, exponent: int)
    | Str(s: string)
    | Arr(items: seq<Json>)
    | Obj(fields: Fields)

  type Fields = map<Key, Json>

  /** dict.get with a default. */
  function Get(d: Fields, k: Key, default: Json): Json {
    if k in d then d[k] else default
  }

  /** The object stored under `k`, or no fields at all when it is missing or not an object. */
  function Section(d: Fields, k: Key): Fields {
    if k in d && d[k].Obj? then d[k].fields else map[]
  }

  predicate HasSection(d: Fields, k: Key) {
    k in d && d[k].Obj?
  }
}
