/** What an explicit conversion accepts and what it makes of a document, written out key by key
    with every name, size and default in place, and proved of the step-by-step converter. */
module ConvertedDocument {
  import opened Wrappers
  import opened Json
  import opened SectionRules
  import opened Canonicalizer
  import opened FileFormat
  import opened ConvertedExtractors
  import opened ConversionMeaning
  import OptimizerPolicy

  // ----- policy sections, field by field ----------------------------------------------------------

  predicate FloorReadable(a: Adapters, f: Fields) {
    ENABLED in f || POOL_SIZE in f ==>
      a.boolean(Get(f, ENABLED, Bool(false))).Some? && a.positive(Get(f, POOL_SIZE, Int(30))).Some?
  }

  function FloorField(a: Adapters, f: Fields, x: Key): Option<Json>
    requires FloorReadable(a, f)
  {
    if x == ENABLED || x == POOL_SIZE then None
    else if x == CANDIDATE_POOL_SIZE && x !in f && (ENABLED in f || POOL_SIZE in f) then
      Some(Int(if a.boolean(Get(f, ENABLED, Bool(false))).value then a.positive(Get(f, POOL_SIZE, Int(30))).value else 0))
    else Lookup(f, x)
  }

  predicate AuditReadable(a: Adapters, f: Fields) {
    AUDIT_EVENTS_RETENTION_ENABLED in f || AUDIT_EVENTS_RETENTION_DAYS in f ==>
      && AUDIT_EVENTS_MAX_AGE_DAYS !in f
      && a.boolean(Get(f, AUDIT_EVENTS_RETENTION_ENABLED, Bool(false))).Some?
      && a.positive(Get(f, AUDIT_EVENTS_RETENTION_DAYS, Int(365))).Some?
  }

  function AuditField(a: Adapters, f: Fields, x: Key): Option<Json>
    requires AuditReadable(a, f)
  {
    if x == AUDIT_EVENTS_RETENTION_ENABLED || x == AUDIT_EVENTS_RETENTION_DAYS then None
    else if x == AUDIT_EVENTS_MAX_AGE_DAYS && (AUDIT_EVENTS_RETENTION_ENABLED in f || AUDIT_EVENTS_RETENTION_DAYS in f) then
      Some(Int(if a.boolean(Get(f, AUDIT_EVENTS_RETENTION_ENABLED, Bool(false))).value
               then a.positive(Get(f, AUDIT_EVENTS_RETENTION_DAYS, Int(365))).value else 0))
    else Lookup(f, x)
  }

  predicate LineageReadable(a: Adapters, f: Fields) {
    && (POLL_INTERVAL_SECONDS in f ==> a.dailyCadence(f[POLL_INTERVAL_SECONDS]))
    && (ENABLED in f ==> a.boolean(f[ENABLED]).Some? && a.positive(Get(f, TOMBSTONE_GRACE_WINDOW_DAYS, Int(90))).Some?)
  }

  function LineageField(a: Adapters, f: Fields, x: Key): Option<Json>
    requires LineageReadable(a, f)
  {
    if x == POLL_INTERVAL_SECONDS || x == ENABLED then None
    else if x == TOMBSTONE_GRACE_WINDOW_DAYS && ENABLED in f then
      Some(Int(if a.boolean(f[ENABLED]).value then a.positive(Get(f, TOMBSTONE_GRACE_WINDOW_DAYS, Int(90))).value else 0))
    else Lookup(f, x)
  }

  /** Before generation 13 a section without the switch had not consented. */
  predicate PendingReadable(a: Adapters, f: Fields, version: nat) {
    && (RESUME_POLL_INTERVAL_SECONDS in f ==> a.pollOk(f[RESUME_POLL_INTERVAL_SECONDS]))
    && (RESUME_CLAIM_TTL_SECONDS in f ==> a.claimOk(f[RESUME_CLAIM_TTL_SECONDS]))
    && (ENABLED in f || version < 13 ==>
          a.boolean(Get(f, ENABLED, Bool(false))).Some? && a.positive(Get(f, PENDING_TTL_SECONDS, Int(86_400))).Some?)
  }

  function PendingField(a: Adapters, f: Fields, version: nat, x: Key): Option<Json>
    requires PendingReadable(a, f, version)
  {
    if x == ENABLED || x == MAX_PENDING_FOLLOWUPS_PER_SCOPE || x == RESUME_POLL_INTERVAL_SECONDS || x == RESUME_CLAIM_TTL_SECONDS then None
    else if x == PENDING_TTL_SECONDS && (ENABLED in f || version < 13) then
      Some(Int(if a.boolean(Get(f, ENABLED, Bool(false))).value then a.positive(Get(f, PENDING_TTL_SECONDS, Int(86_400))).value else 0))
    else Lookup(f, x)
  }

  ghost predicate OverridesAre(saved: Option<Json>, o: Option<Json>) {
    match saved
    case Some(Obj(tools)) =>
      && o.Some? && o.value.Obj? && o.value.fields.Keys == tools.Keys
      && forall tool :: tool in tools ==>
           if tools[tool].Obj? then o.value.fields[tool] == Obj(tools[tool].fields - {MAX_PENDING_FOLLOWUPS_PER_SCOPE})
           else o.value.fields[tool] == tools[tool]
    case _ => o == saved
  }

  ghost predicate PendingReads(a: Adapters, f: Fields, version: nat, g: Fields) {
    && PendingReadable(a, f, version)
    && OverridesAre(Lookup(f, TOOL_OVERRIDES), Lookup(g, TOOL_OVERRIDES))
    && forall x :: x != TOOL_OVERRIDES ==> Lookup(g, x) == PendingField(a, f, version, x)
  }

  // ----- providers, geometry and the storage reference -----------------------------------------------

  function Endpoint(d: Fields): Fields {
    Section(Section(d, API_KEY_CONFIG), CUSTOM_ENDPOINT)
  }

  predicate EndpointReadable(a: Adapters, d: Fields) {
    MODEL in Endpoint(d) ==>
      && a.text(Endpoint(d)[MODEL]).Some?
      && a.endpointOk(Endpoint(d) - {MODEL})
      && (LLM_CONFIG in d ==> d[LLM_CONFIG].Obj? || d[LLM_CONFIG].Null?)
      && a.llmOk(Section(d, LLM_CONFIG))
  }

  function ModelField(a: Adapters, d: Fields, x: Key): Option<Json>
    requires MODEL in Endpoint(d) && EndpointReadable(a, d)
  {
    if x == GENERATION_MODEL_NAME || x == SHOULD_RUN_MODEL_NAME || x == PRE_RETRIEVAL_MODEL_NAME
    then Some(Str(a.text(Endpoint(d)[MODEL]).value))
    else Lookup(Section(d, LLM_CONFIG), x)
  }

  /** The provider keys lose the endpoint's model and the Azure deployment. */
  function ProviderField(keys: Fields, x: Key): Option<Json> {
    if x == CUSTOM_ENDPOINT && HasSection(keys, x) then Some(Obj(Section(keys, x) - {MODEL}))
    else if x == OPENAI && HasSection(keys, x) && HasSection(Section(keys, x), AZURE_CONFIG) then
      Some(Obj(Section(keys, x)[AZURE_CONFIG := Obj(Section(Section(keys, x), AZURE_CONFIG) - {DEPLOYMENT_NAME})]))
    else Lookup(keys, x)
  }

  /** A saved size, or the preset's where none is saved. */
  function Sized(a: Adapters, d: Fields, saved: Option<Json>, quick: int, standard: int, long: int, high: int): Option<Json> {
    if saved.Some? && !saved.value.Null? then saved
    else if EXTRACTION_PRESET !in d then saved
    else match a.preset(d[EXTRACTION_PRESET])
      case Some(Some(QuickChat)) => Some(Int(quick))
      case Some(Some(Standard)) => Some(Int(standard))
      case Some(Some(LongForm)) => Some(Int(long))
      case Some(Some(HighVolume)) => Some(Int(high))
      case _ => saved
  }

  predicate SpelledOnce(f: Fields) {
    !(STORAGE_TYPE in f && TYPE in f) && !(SCHEMA_NAME in f && SCHEMA in f)
  }

  function StorageField(f: Fields, x: Key): Option<Json> {
    if x == TYPE then Some(SelectedBackend(f))
    else if x == SCHEMA then OneOf(f, SCHEMA, SCHEMA_NAME)
    else if x == STORAGE_TYPE || x == SCHEMA_NAME then None
    else if (x == URL || x == HTTP_KEY || x == READ_URL || x == READ_KEY) && SelectedBackend(f) == Str("supabase") then None
    else Lookup(f, x)
  }

  // ----- a whole document ---------------------------------------------------------------------------------

  predicate RetiredKey(k: Key) {
    || k == PROFILE_EXTRACTOR_CONFIGS || k == USER_PLAYBOOK_EXTRACTOR_CONFIGS || k == PLAYBOOK_CONFIGS
    || k == AGENT_FEEDBACK_CONFIGS || k == AGENT_SUCCESS_CONFIGS
    || k == BATCH_SIZE || k == BATCH_INTERVAL || k == EXTRACTION_WINDOW_SIZE || k == EXTRACTION_WINDOW_STRIDE
    || k == EXTRACTION_PRESET || k == SHADOW_COMPARISON_JUDGE_PROMPT_VERSION || k == SHADOW_MODE_ENABLED
  }

  /** Nothing in the document under `k` is refused. */
  predicate ReadableAt(a: Adapters, d: Fields, version: nat, k: Key) {
    if k == PENDING_TOOL_CALL_CONFIG then HasSection(d, k) ==> PendingReadable(a, Section(d, k), version)
    else if k == PLAYBOOK_OPTIMIZER_CONFIG then HasSection(d, k) ==> OptimizerPolicy.Accepted(a, Section(d, k))
    else if k == RETRIEVAL_FLOOR then HasSection(d, k) ==> FloorReadable(a, Section(d, k))
    else if k == GOVERNANCE_RETENTION then HasSection(d, k) ==> AuditReadable(a, Section(d, k))
    else if k == LINEAGE_GC then HasSection(d, k) ==> LineageReadable(a, Section(d, k))
    else if k == API_KEY_CONFIG then EndpointReadable(a, d)
    else if k == SHADOW_COMPARISON_JUDGE_PROMPT_VERSION then k in d ==> a.text(d[k]).Some?
    else if k == EXTRACTION_PRESET then k in d ==> a.preset(d[k]).Some?
    else if k == USER_PLAYBOOK_EXTRACTOR_CONFIG then PlaybookReadable(SavedPlaybook(d))
    else if k == STORAGE_CONFIG then HasSection(d, k) ==> SpelledOnce(Section(d, k))
    else true
  }

  /** What the converted document holds under `k`, given that nothing under `k` is refused. */
  ghost predicate HoldsAt(a: Adapters, d: Fields, version: nat, k: Key, o: Option<Json>)
    requires ReadableAt(a, d, version, k) && EndpointReadable(a, d)
  {
    if RetiredKey(k) then o == None
    else if k == PROFILE_EXTRACTOR_CONFIG then ProfileIs(SavedProfile(d), o)
    else if k == USER_PLAYBOOK_EXTRACTOR_CONFIG then PlaybookIs(SavedPlaybook(d), o)
    else if k == AGENT_SUCCESS_CONFIG then SuccessIs(SavedSuccess(d), o)
    else if k == WINDOW_SIZE then o == Sized(a, d, OneOf3(d, WINDOW_SIZE, BATCH_SIZE, EXTRACTION_WINDOW_SIZE), 5, 10, 25, 15)
    else if k == STRIDE_SIZE then o == Sized(a, d, OneOf3(d, STRIDE_SIZE, BATCH_INTERVAL, EXTRACTION_WINDOW_STRIDE), 3, 8, 10, 8)
    else if k == LLM_CONFIG && MODEL in Endpoint(d) then
      o.Some? && o.value.Obj? && forall x :: Lookup(o.value.fields, x) == ModelField(a, d, x)
    else if !HasSection(d, k) then o == Lookup(d, k)
    else
      var f := Section(d, k);
      if k == PENDING_TOOL_CALL_CONFIG then o.Some? && o.value.Obj? && PendingReads(a, f, version, o.value.fields)
      else if k == PLAYBOOK_OPTIMIZER_CONFIG then
        o.Some? && o.value.Obj? && forall x :: Lookup(o.value.fields, x) == OptimizerPolicy.At(a, f, x)
      else if k == RETRIEVAL_FLOOR then o.Some? && o.value.Obj? && forall x :: Lookup(o.value.fields, x) == FloorField(a, f, x)
      else if k == GOVERNANCE_RETENTION then o.Some? && o.value.Obj? && forall x :: Lookup(o.value.fields, x) == AuditField(a, f, x)
      else if k == LINEAGE_GC then o.Some? && o.value.Obj? && forall x :: Lookup(o.value.fields, x) == LineageField(a, f, x)
      else if k == API_KEY_CONFIG then o.Some? && o.value.Obj? && forall x :: Lookup(o.value.fields, x) == ProviderField(f, x)
      else if k == STORAGE_CONFIG then o.Some? && o.value.Obj? && forall x :: Lookup(o.value.fields, x) == StorageField(f, x)
      else o == Some(d[k])
  }

  predicate Convertible(a: Adapters, d: Fields, version: nat) {
    && ReadableAt(a, d, version, PENDING_TOOL_CALL_CONFIG)
    && ReadableAt(a, d, version, PLAYBOOK_OPTIMIZER_CONFIG)
    && ReadableAt(a, d, version, RETRIEVAL_FLOOR)
    && ReadableAt(a, d, version, GOVERNANCE_RETENTION)
    && ReadableAt(a, d, version, LINEAGE_GC)
    && ReadableAt(a, d, version, API_KEY_CONFIG)
    && ReadableAt(a, d, version, SHADOW_COMPARISON_JUDGE_PROMPT_VERSION)
    && ReadableAt(a, d, version, EXTRACTION_PRESET)
    && ReadableAt(a, d, version, USER_PLAYBOOK_EXTRACTOR_CONFIG)
    && ReadableAt(a, d, version, STORAGE_CONFIG)
  }

  /** The document `e` is what the conversion is to make of `d`, at every key. */
  ghost predicate Reads(a: Adapters, d: Fields, version: nat, e: Fields) {
    Convertible(a, d, version) && forall k :: ReadableAt(a, d, version, k) && HoldsAt(a, d, version, k, Lookup(e, k))
  }

  // ----- one section at a time ----------------------------------------------------------------------------

  lemma FloorRule(a: Adapters, f: Fields)
    ensures CanonicalizeFloor(a, f).Ok? <==> FloorReadable(a, f)
    ensures FloorReadable(a, f) ==> forall x :: Lookup(CanonicalizeFloor(a, f).value, x) == FloorField(a, f, x)
  {
  }

  lemma AuditRule(a: Adapters, f: Fields)
    ensures CanonicalizeAudit(a, f).Ok? <==> AuditReadable(a, f)
    ensures AuditReadable(a, f) ==> forall x :: Lookup(CanonicalizeAudit(a, f).value, x) == AuditField(a, f, x)
  {
  }

  lemma LineageRule(a: Adapters, f: Fields)
    ensures var s := StripCadence(a, Obj(f));
            && (s.Ok? ==> s.value.Obj?)
            && (s.Ok? && CanonicalizeLineage(a, s.value.fields, false).Ok? <==> LineageReadable(a, f))
    ensures LineageReadable(a, f) ==>
              forall x :: Lookup(CanonicalizeLineage(a, StripCadence(a, Obj(f)).value.fields, false).value, x) == LineageField(a, f, x)
  {
  }

  /** The follow-up threshold goes from the section and from every tool's override. */
  lemma FollowupsRule(f: Fields, x: Key)
    ensures x == MAX_PENDING_FOLLOWUPS_PER_SCOPE ==> Lookup(StripFollowups(f), x) == None
    ensures x == TOOL_OVERRIDES ==> OverridesAre(Lookup(f, x), Lookup(StripFollowups(f), x))
    ensures x != TOOL_OVERRIDES && x != MAX_PENDING_FOLLOWUPS_PER_SCOPE ==> Lookup(StripFollowups(f), x) == Lookup(f, x)
  {
  }

  lemma TimingRule(a: Adapters, f: Fields, x: Key)
    ensures StripPendingTiming(a, f).Ok? <==>
            (RESUME_POLL_INTERVAL_SECONDS in f ==> a.pollOk(f[RESUME_POLL_INTERVAL_SECONDS]))
            && (RESUME_CLAIM_TTL_SECONDS in f ==> a.claimOk(f[RESUME_CLAIM_TTL_SECONDS]))
    ensures StripPendingTiming(a, f).Ok? ==>
              Lookup(StripPendingTiming(a, f).value, x) ==
              if x == RESUME_POLL_INTERVAL_SECONDS || x == RESUME_CLAIM_TTL_SECONDS then None else Lookup(f, x)
  {
  }

  predicate ConsentReadable(a: Adapters, f: Fields, version: nat) {
    ENABLED in f || version < 13 ==>
      a.boolean(Get(f, ENABLED, Bool(false))).Some? && a.positive(Get(f, PENDING_TTL_SECONDS, Int(86_400))).Some?
  }

  lemma ConsentRule(a: Adapters, f: Fields, version: nat, x: Key)
    ensures CanonicalizePending(a, f, version < 13).Ok? <==> ConsentReadable(a, f, version)
    ensures ConsentReadable(a, f, version) ==>
              Lookup(CanonicalizePending(a, f, version < 13).value, x) ==
              if x == ENABLED then None
              else if x == PENDING_TTL_SECONDS && (ENABLED in f || version < 13) then
                Some(Int(if a.boolean(Get(f, ENABLED, Bool(false))).value then a.positive(Get(f, PENDING_TTL_SECONDS, Int(86_400))).value else 0))
              else Lookup(f, x)
  {
  }

  lemma PendingRule(a: Adapters, f: Fields)
    ensures NormalizePending(a, f).Ok? <==> PendingReadable(a, f, 13)
    ensures PendingReadable(a, f, 13) ==> PendingReads(a, f, 13, NormalizePending(a, f).value)
  {
    hide StripPendingTiming, StripFollowups, CanonicalizePending, OverridesAre, Lookup;
    TimingRule(a, f, ENABLED);
    if StripPendingTiming(a, f).Ok? {
      var g := StripPendingTiming(a, f).value;
      forall x { TimingRule(a, f, x); }
      var h := StripFollowups(g);
      forall x { FollowupsRule(g, x); }
      SameConsent(a, f, h, 13);
      ConsentRule(a, h, 13, ENABLED);
      forall x { ConsentRule(a, h, 13, x); }
      FollowupsRule(g, TOOL_OVERRIDES);
      assert Lookup(g, TOOL_OVERRIDES) == Lookup(f, TOOL_OVERRIDES);
      if PendingReadable(a, f, 13) {
        var r := NormalizePending(a, f).value;
        assert Lookup(r, TOOL_OVERRIDES) == Lookup(h, TOOL_OVERRIDES);
        forall x | x != TOOL_OVERRIDES
          ensures Lookup(r, x) == PendingField(a, f, 13, x)
        {
          assert r == CanonicalizePending(a, h, 13 < 13).value;
          FollowupsRule(g, x);
          TimingRule(a, f, x);
        }
      }
    }
  }

  lemma SameConsent(a: Adapters, f: Fields, h: Fields, version: nat)
    requires Lookup(h, ENABLED) == Lookup(f, ENABLED) && Lookup(h, PENDING_TTL_SECONDS) == Lookup(f, PENDING_TTL_SECONDS)
    ensures ConsentReadable(a, h, version) == ConsentReadable(a, f, version)
    ensures (ENABLED in h) == (ENABLED in f)
    ensures Get(h, ENABLED, Bool(false)) == Get(f, ENABLED, Bool(false))
    ensures Get(h, PENDING_TTL_SECONDS, Int(86_400)) == Get(f, PENDING_TTL_SECONDS, Int(86_400))
  {
  }

  lemma StorageRule(f: Fields)
    ensures TagStorage(f).Ok? <==> SpelledOnce(f)
    ensures SpelledOnce(f) ==> forall x :: Lookup(TagStorage(f).value, x) == StorageField(f, x)
  {
    hide TagStorage, SelectedBackend;
    TaggingRefuses(f);
    if SpelledOnce(f) {
      forall x
        ensures Lookup(TagStorage(f).value, x) == StorageField(f, x)
      {
        TaggingKeepsBackend(f, x);
        TagAt(f, x);
      }
    }
  }

  lemma TagAt(f: Fields, x: Key)
    requires TagStorage(f).Ok?
    ensures x == STORAGE_TYPE || x == SCHEMA_NAME ==> Lookup(TagStorage(f).value, x) == None
  {
    hide Respell;
    RespelledAt(f, x);
  }

  lemma ProviderRule(keys: Fields)
    ensures ProviderKeys(Obj(keys)).Obj?
    ensures forall x :: Lookup(ProviderKeys(Obj(keys)).fields, x) == ProviderField(keys, x)
  {
    if HasSection(keys, OPENAI) && HasSection(Section(keys, OPENAI), AZURE_CONFIG)
       && DEPLOYMENT_NAME !in Section(Section(keys, OPENAI), AZURE_CONFIG) {
      var openai := Section(keys, OPENAI);
      var azure := Section(openai, AZURE_CONFIG);
      assert azure - {DEPLOYMENT_NAME} == azure;
      assert openai[AZURE_CONFIG := Obj(azure)] == openai;
    }
  }

  lemma EndpointRule(a: Adapters, d: Fields)
    ensures HasEndpointModel(d) <==> MODEL in Endpoint(d)
    ensures !HasEndpointModel(d) || EndpointAccepted(a, d) <==> EndpointReadable(a, d)
    ensures HasEndpointModel(d) && EndpointReadable(a, d) ==>
              forall x :: Lookup(WithTextModels(Section(d, LLM_CONFIG), EndpointModel(a, d).value), x) == ModelField(a, d, x)
  {
  }

  lemma GeometryRule(a: Adapters, d: Fields)
    requires EXTRACTION_PRESET in d ==> a.preset(d[EXTRACTION_PRESET]).Some?
    ensures Geometry(a, d, WINDOW_SIZE) == Sized(a, d, OneOf3(d, WINDOW_SIZE, BATCH_SIZE, EXTRACTION_WINDOW_SIZE), 5, 10, 25, 15)
    ensures Geometry(a, d, STRIDE_SIZE) == Sized(a, d, OneOf3(d, STRIDE_SIZE, BATCH_INTERVAL, EXTRACTION_WINDOW_STRIDE), 3, 8, 10, 8)
  {
  }

  // ----- whole documents -----------------------------------------------------------------------------------

  lemma PolicyOutcome(a: Adapters, d: Fields, k: Key)
    requires PolicySection(k)
    ensures CanonicalAt(a, d, k).Ok? <==> ReadableAt(a, d, 13, k)
    ensures ReadableAt(a, d, 13, k) && EndpointReadable(a, d) ==> HoldsAt(a, d, 13, k, CanonicalAt(a, d, k).value)
  {
    hide NormalizePending, NormalizeOptimizer, CanonicalizeFloor, CanonicalizeAudit, CanonicalizeLineage, EndpointReadable,
         PendingReadable, PendingReads, FloorReadable, AuditReadable, LineageReadable, OptimizerPolicy.Accepted, OptimizerPolicy.At;
    if HasSection(d, k) {
      var f := Section(d, k);
      if k == PENDING_TOOL_CALL_CONFIG { PendingRule(a, f); }
      if k == PLAYBOOK_OPTIMIZER_CONFIG { OptimizerPolicy.Closed(a, f); }
      if k == RETRIEVAL_FLOOR { FloorRule(a, f); }
      if k == GOVERNANCE_RETENTION { AuditRule(a, f); }
      if k == LINEAGE_GC { LineageRule(a, f); }
    }
  }

  lemma ProviderOutcome(a: Adapters, d: Fields, k: Key)
    requires k == API_KEY_CONFIG || k == LLM_CONFIG
    ensures CanonicalAt(a, d, k).Ok? <==> ReadableAt(a, d, 13, k)
    ensures ReadableAt(a, d, 13, k) && EndpointReadable(a, d) ==> HoldsAt(a, d, 13, k, CanonicalAt(a, d, k).value)
  {
    hide EndpointReadable, EndpointAccepted, HasEndpointModel, ProviderKeys, WithTextModels, EndpointModel, ModelField;
    EndpointRule(a, d);
    if HasSection(d, API_KEY_CONFIG) { ProviderRule(Section(d, API_KEY_CONFIG)); } else { NoKeys(d); }
  }

  lemma NoKeys(d: Fields)
    requires !HasSection(d, API_KEY_CONFIG)
    ensures API_KEY_CONFIG in d ==> ProviderKeys(d[API_KEY_CONFIG]) == d[API_KEY_CONFIG]
  {
  }

  lemma OutcomeAt(a: Adapters, d: Fields, k: Key)
    requires k != STORAGE_CONFIG
    ensures CanonicalAt(a, d, k).Ok? <==> ReadableAt(a, d, 13, k)
    ensures ReadableAt(a, d, 13, k) && EndpointReadable(a, d) ==> HoldsAt(a, d, 13, k, CanonicalAt(a, d, k).value)
  {
    if PolicySection(k) {
      PolicyOutcome(a, d, k);
    } else if k == API_KEY_CONFIG || k == LLM_CONFIG {
      ProviderOutcome(a, d, k);
    } else if ExtractorField(k) {
      hide CanonicalAt, EndpointReadable, PlaybookReadable, ProfileIs, PlaybookIs, SuccessIs, SavedProfile, SavedPlaybook, SavedSuccess;
      ExtractorsConverted(a, d);
    } else if GeometryField(k) {
      SizeOutcome(a, d, k);
    } else {
      PlainOutcome(a, d, k);
    }
  }

  lemma PlainOutcome(a: Adapters, d: Fields, k: Key)
    requires k != STORAGE_CONFIG && !PolicySection(k) && k != API_KEY_CONFIG && k != LLM_CONFIG && !ExtractorField(k) && !GeometryField(k)
    ensures CanonicalAt(a, d, k).Ok? <==> ReadableAt(a, d, 13, k)
    ensures ReadableAt(a, d, 13, k) && EndpointReadable(a, d) ==> HoldsAt(a, d, 13, k, CanonicalAt(a, d, k).value)
  {
    hide EndpointReadable;
  }

  /** A preset nobody knows refuses the document at its own key; the sizes are then beside the point. */
  lemma SizeOutcome(a: Adapters, d: Fields, k: Key)
    requires GeometryField(k)
    ensures CanonicalAt(a, d, k).Ok? && ReadableAt(a, d, 13, k)
    ensures EndpointReadable(a, d) ==> HoldsAt(a, d, 13, k, CanonicalAt(a, d, k).value)
  {
    hide EndpointReadable;
    if EXTRACTION_PRESET in d && a.preset(d[EXTRACTION_PRESET]).None? {
    } else {
      GeometryRule(a, d);
    }
  }

  lemma StorageOutcome(a: Adapters, d: Fields)
    ensures CanonicalAt(a, d, STORAGE_CONFIG) == Ok(Lookup(d, STORAGE_CONFIG))
    ensures ReadableAt(a, d, 13, STORAGE_CONFIG) <==> (HasSection(d, STORAGE_CONFIG) ==> TagStorage(Section(d, STORAGE_CONFIG)).Ok?)
    ensures ReadableAt(a, d, 13, STORAGE_CONFIG) && EndpointReadable(a, d) ==>
              HoldsAt(a, d, 13, STORAGE_CONFIG,
                      if HasSection(d, STORAGE_CONFIG) then Some(Obj(TagStorage(Section(d, STORAGE_CONFIG)).value))
                      else Lookup(d, STORAGE_CONFIG))
  {
    hide EndpointReadable, TagStorage, SpelledOnce, StorageField;
    StorageRule(Section(d, STORAGE_CONFIG));
  }

  lemma EndpointReadableAt(a: Adapters, d: Fields, version: nat)
    ensures ReadableAt(a, d, version, API_KEY_CONFIG) == EndpointReadable(a, d)
  {
  }

  lemma ReadableEverywhere(a: Adapters, d: Fields, version: nat)
    ensures Convertible(a, d, version) <==> forall k :: ReadableAt(a, d, version, k)
  {
    hide PendingReadable, FloorReadable, AuditReadable, LineageReadable, EndpointReadable, OptimizerPolicy.Accepted, PlaybookReadable,
         SpelledOnce;
  }

  /** The conversion of a document whose generation is already resolved. */
  lemma CurrentConversionIs(a: Adapters, d: Fields)
    ensures CanonicalizeDocument(a, d).Ok? ==> Reads(a, d, 13, CanonicalizeDocument(a, d).value) && a.schemaOk(CanonicalizeDocument(a, d).value)
    ensures Convertible(a, d, 13) ==>
              exists e :: Reads(a, d, 13, e) && CanonicalizeDocument(a, d) == if a.schemaOk(e) then Ok(e) else Refused(InvalidSchema)
  {
    hide Canonicalize, CanonicalAt, TagStorage, ReadableAt, HoldsAt, StorageField, SpelledOnce;
    Characterization(a, d);
    ReadableEverywhere(a, d, 13);
    forall k | k != STORAGE_CONFIG { OutcomeAt(a, d, k); }
    StorageOutcome(a, d);
    if Canonicalize(a, d).Ok? && ReadableAt(a, d, 13, STORAGE_CONFIG) {
      assert forall k :: ReadableAt(a, d, 13, k) by {
        forall k ensures ReadableAt(a, d, 13, k) { assert k != STORAGE_CONFIG ==> CanonicalAt(a, d, k).Ok?; }
      }
      var converted := Canonicalize(a, d).value;
      var e := if HasSection(converted, STORAGE_CONFIG)
               then converted[STORAGE_CONFIG := Obj(TagStorage(converted[STORAGE_CONFIG].fields).value)] else converted;
      assert ReadableAt(a, d, 13, API_KEY_CONFIG);
      EndpointReadableAt(a, d, 13);
      forall k
        ensures HoldsAt(a, d, 13, k, Lookup(e, k))
      {
        if k != STORAGE_CONFIG {
          assert Lookup(e, k) == Lookup(converted, k);
        }
      }
      assert Reads(a, d, 13, e);
    }
  }

  // ----- with the generation of the file ----------------------------------------------------------------------

  /** The read a conversion starts from changes the pending section only. */
  lemma ReadIs(a: Adapters, d: Fields, version: nat)
    ensures ConversionRead(a, d, version).Ok? <==>
            (version < 13 && HasSection(d, PENDING_TOOL_CALL_CONFIG) ==> ConsentReadable(a, Section(d, PENDING_TOOL_CALL_CONFIG), version))
    ensures ConversionRead(a, d, version).Ok? ==>
              ConversionRead(a, d, version).value ==
              if version < 13 && HasSection(d, PENDING_TOOL_CALL_CONFIG)
              then d[PENDING_TOOL_CALL_CONFIG := Obj(CanonicalizePending(a, Section(d, PENDING_TOOL_CALL_CONFIG), true).value)]
              else d
  {
    hide CanonicalizePending;
    if HasSection(d, PENDING_TOOL_CALL_CONFIG) {
      ConsentRule(a, Section(d, PENDING_TOOL_CALL_CONFIG), version, ENABLED);
    } else if PENDING_TOOL_CALL_CONFIG in d {
      assert d[PENDING_TOOL_CALL_CONFIG := d[PENDING_TOOL_CALL_CONFIG]] == d;
    }
  }

  lemma SameSaved(d: Fields, j: Json)
    ensures var r := d[PENDING_TOOL_CALL_CONFIG := j];
            SavedProfile(r) == SavedProfile(d) && SavedPlaybook(r) == SavedPlaybook(d) && SavedSuccess(r) == SavedSuccess(d)
  {
  }

  lemma SameEndpoint(a: Adapters, d: Fields, j: Json)
    ensures var r := d[PENDING_TOOL_CALL_CONFIG := j];
            && Endpoint(r) == Endpoint(d) && EndpointReadable(a, r) == EndpointReadable(a, d)
            && Section(r, LLM_CONFIG) == Section(d, LLM_CONFIG)
  {
  }

  lemma SameSizes(a: Adapters, d: Fields, j: Json)
    ensures var r := d[PENDING_TOOL_CALL_CONFIG := j];
            && Sized(a, r, OneOf3(r, WINDOW_SIZE, BATCH_SIZE, EXTRACTION_WINDOW_SIZE), 5, 10, 25, 15)
               == Sized(a, d, OneOf3(d, WINDOW_SIZE, BATCH_SIZE, EXTRACTION_WINDOW_SIZE), 5, 10, 25, 15)
            && Sized(a, r, OneOf3(r, STRIDE_SIZE, BATCH_INTERVAL, EXTRACTION_WINDOW_STRIDE), 3, 8, 10, 8)
               == Sized(a, d, OneOf3(d, STRIDE_SIZE, BATCH_INTERVAL, EXTRACTION_WINDOW_STRIDE), 3, 8, 10, 8)
  {
  }

  lemma SameElsewhere(a: Adapters, d: Fields, j: Json, version: nat, k: Key, o: Option<Json>)
    requires k != PENDING_TOOL_CALL_CONFIG
    ensures var r := d[PENDING_TOOL_CALL_CONFIG := j];
            && ReadableAt(a, r, 13, k) == ReadableAt(a, d, version, k)
            && EndpointReadable(a, r) == EndpointReadable(a, d)
            && (ReadableAt(a, d, version, k) && EndpointReadable(a, d) ==> HoldsAt(a, r, 13, k, o) == HoldsAt(a, d, version, k, o))
  {
    hide SavedProfile, SavedPlaybook, SavedSuccess, Endpoint, EndpointReadable, Sized, OneOf3, PendingReadable, PendingReads,
         ProfileIs, PlaybookIs, SuccessIs, FloorReadable, AuditReadable, LineageReadable, OptimizerPolicy.Accepted, SpelledOnce,
         OptimizerPolicy.At, FloorField, AuditField, LineageField, ProviderField, StorageField;
    SameSaved(d, j);
    SameEndpoint(a, d, j);
    SameSizes(a, d, j);
  }

  /** Consent resolved before the generation is dropped reads as it did with the generation. */
  lemma SamePending(a: Adapters, f: Fields, version: nat, h: Fields)
    requires version < 13 && ConsentReadable(a, f, version)
    ensures var g := CanonicalizePending(a, f, true).value;
            && PendingReadable(a, g, 13) == PendingReadable(a, f, version)
            && (PendingReadable(a, f, version) && PendingReads(a, g, 13, h) ==> PendingReads(a, f, version, h))
  {
    hide CanonicalizePending, OverridesAre;
    forall x { ConsentRule(a, f, version, x); }
    ConsentRule(a, f, version, ENABLED);
    var g := CanonicalizePending(a, f, true).value;
    assert Lookup(g, RESUME_POLL_INTERVAL_SECONDS) == Lookup(f, RESUME_POLL_INTERVAL_SECONDS);
    assert Lookup(g, RESUME_CLAIM_TTL_SECONDS) == Lookup(f, RESUME_CLAIM_TTL_SECONDS);
    assert Lookup(g, ENABLED) == None;
    assert Lookup(g, TOOL_OVERRIDES) == Lookup(f, TOOL_OVERRIDES);
    if PendingReadable(a, f, version) && PendingReads(a, g, 13, h) {
      forall x | x != TOOL_OVERRIDES
        ensures Lookup(h, x) == PendingField(a, f, version, x)
      {
        assert Lookup(h, x) == PendingField(a, g, 13, x);
        ConsentRule(a, f, version, x);
      }
    }
  }

  lemma ReadsThrough(a: Adapters, d: Fields, version: nat, e: Fields)
    requires ConversionRead(a, d, version).Ok?
    ensures Convertible(a, ConversionRead(a, d, version).value, 13) <==> Convertible(a, d, version)
    ensures Reads(a, ConversionRead(a, d, version).value, 13, e) ==> Reads(a, d, version, e)
  {
    hide ConversionRead, ReadableAt, HoldsAt, Convertible, CanonicalizePending, EndpointReadable;
    ReadIs(a, d, version);
    var r := ConversionRead(a, d, version).value;
    ReadableEverywhere(a, d, version);
    ReadableEverywhere(a, r, 13);
    if version < 13 && HasSection(d, PENDING_TOOL_CALL_CONFIG) {
      ConsentRule(a, Section(d, PENDING_TOOL_CALL_CONFIG), version, ENABLED);
      var j := Obj(CanonicalizePending(a, Section(d, PENDING_TOOL_CALL_CONFIG), true).value);
      forall k | k != PENDING_TOOL_CALL_CONFIG { SameElsewhere(a, d, j, version, k, Lookup(e, k)); }
      PendingThrough(a, d, version, Lookup(e, PENDING_TOOL_CALL_CONFIG));
      EndpointReadableAt(a, d, version);
      forall k
        ensures ReadableAt(a, r, 13, k) == ReadableAt(a, d, version, k)
      {
        if k != PENDING_TOOL_CALL_CONFIG { SameElsewhere(a, d, j, version, k, None); }
      }
      if Reads(a, r, 13, e) {
        forall k
          ensures ReadableAt(a, d, version, k) && HoldsAt(a, d, version, k, Lookup(e, k))
        {
          assert ReadableAt(a, r, 13, k) && HoldsAt(a, r, 13, k, Lookup(e, k));
        }
      }
    } else {
      forall k { Unread(a, d, version, k, Lookup(e, k)); }
      EndpointReadableAt(a, d, version);
      if Reads(a, r, 13, e) {
        forall k
          ensures ReadableAt(a, d, version, k) && HoldsAt(a, d, version, k, Lookup(e, k))
        {
          assert ReadableAt(a, r, 13, k) && HoldsAt(a, r, 13, k, Lookup(e, k));
        }
      }
    }
  }

  lemma Unread(a: Adapters, d: Fields, version: nat, k: Key, o: Option<Json>)
    requires version >= 13 || !HasSection(d, PENDING_TOOL_CALL_CONFIG)
    ensures ReadableAt(a, d, 13, k) == ReadableAt(a, d, version, k)
    ensures ReadableAt(a, d, version, k) && EndpointReadable(a, d) ==> HoldsAt(a, d, 13, k, o) == HoldsAt(a, d, version, k, o)
  {
  }

  lemma PendingThrough(a: Adapters, d: Fields, version: nat, o: Option<Json>)
    requires version < 13 && HasSection(d, PENDING_TOOL_CALL_CONFIG)
    requires CanonicalizePending(a, Section(d, PENDING_TOOL_CALL_CONFIG), true).Ok?
    ensures var k := PENDING_TOOL_CALL_CONFIG;
            var r := d[k := Obj(CanonicalizePending(a, Section(d, k), true).value)];
            && ReadableAt(a, r, 13, k) == ReadableAt(a, d, version, k)
            && EndpointReadable(a, r) == EndpointReadable(a, d)
            && (ReadableAt(a, d, version, k) && EndpointReadable(a, d) && HoldsAt(a, r, 13, k, o) ==> HoldsAt(a, d, version, k, o))
  {
    hide CanonicalizePending, PendingReads, PendingReadable, EndpointReadable;
    ConsentRule(a, Section(d, PENDING_TOOL_CALL_CONFIG), version, ENABLED);
    SameEndpoint(a, d, Obj(CanonicalizePending(a, Section(d, PENDING_TOOL_CALL_CONFIG), true).value));
    SamePending(a, Section(d, PENDING_TOOL_CALL_CONFIG), version, if o.Some? && o.value.Obj? then o.value.fields else map[]);
  }

  /** Exactly which documents of which generation a conversion takes, and exactly what it makes of
      each: at every key the value, default and spelling written out above. It refuses a readable
      document only because the schema refuses what it should become. */
  lemma ConversionIs(a: Adapters, d: Fields, version: nat)
    ensures ConversionRead(a, d, version).Ok? && CanonicalizeDocument(a, ConversionRead(a, d, version).value).Ok? ==>
              var e := CanonicalizeDocument(a, ConversionRead(a, d, version).value).value;
              Reads(a, d, version, e) && a.schemaOk(e)
    ensures Convertible(a, d, version) ==>
              && ConversionRead(a, d, version).Ok?
              && exists e :: Reads(a, d, version, e)
                   && CanonicalizeDocument(a, ConversionRead(a, d, version).value) == if a.schemaOk(e) then Ok(e) else Refused(InvalidSchema)
  {
    hide CanonicalizeDocument, ConversionRead, Reads, CanonicalizePending;
    ReadIs(a, d, version);
    ConvertibleConsents(a, d, version);
    if ConversionRead(a, d, version).Ok? {
      var r := ConversionRead(a, d, version).value;
      CurrentConversionIs(a, r);
      forall e { ReadsThrough(a, d, version, e); }
      ReadsThrough(a, d, version, map[]);
    }
  }

  lemma ConvertibleConsents(a: Adapters, d: Fields, version: nat)
    ensures Convertible(a, d, version) && HasSection(d, PENDING_TOOL_CALL_CONFIG) ==> ConsentReadable(a, Section(d, PENDING_TOOL_CALL_CONFIG), version)
  {
  }
}
