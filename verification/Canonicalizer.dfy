/** The broad historical converter: every retired spelling of a saved document becomes its
    current one. `Canonicalize` follows the code step by step; `CanonicalAt` says, key by
    key, what the result holds, and `Characterization` proves the two agree. */
module Canonicalizer {
  import opened Wrappers
  import opened Json
  import opened SectionRules

  // ----- the steps, in order -------------------------------------------------------------

  const LIST_FIELDS: Renames :=
    Rename(PROFILE_EXTRACTOR_CONFIGS, PROFILE_EXTRACTOR_CONFIG,
    Rename(USER_PLAYBOOK_EXTRACTOR_CONFIGS, USER_PLAYBOOK_EXTRACTOR_CONFIG,
    Rename(PLAYBOOK_CONFIGS, USER_PLAYBOOK_EXTRACTOR_CONFIG,
    Rename(AGENT_FEEDBACK_CONFIGS, USER_PLAYBOOK_EXTRACTOR_CONFIG,
    Rename(AGENT_SUCCESS_CONFIGS, AGENT_SUCCESS_CONFIG, End)))))

  function FirstEntry(j: Json): Json {
    match j
    case Arr(items) => if items == [] then Null else items[0]
    case _ => j
  }

  function SingularizeOne(d: Fields, former: Key, current: Key): Fields {
    if former !in d then d
    else (if current in d then d else d[current := FirstEntry(d[former])]) - {former}
  }

  function Singularize(d: Fields, names: Renames): Fields
    decreases names
  {
    match names
    case End => d
    case Rename(former, current, rest) => Singularize(SingularizeOne(d, former, current), rest)
  }

  function NormalizeShape(d: Fields): Fields {
    Singularize(d, LIST_FIELDS)
  }

  function StripCadence(a: Adapters, j: Json): Result<Json> {
    if !j.Obj? || POLL_INTERVAL_SECONDS !in j.fields then Ok(j)
    else if !a.dailyCadence(j.fields[POLL_INTERVAL_SECONDS]) then Refused(HousekeepingCadence)
    else Ok(Obj(j.fields - {POLL_INTERVAL_SECONDS}))
  }

  function StripHousekeeping(a: Adapters, d: Fields): Result<Fields> {
    if LINEAGE_GC !in d then Ok(d)
    else
      var j :- StripCadence(a, d[LINEAGE_GC]);
      Ok(d[LINEAGE_GC := j])
  }

  predicate HasEndpointModel(d: Fields) {
    && HasSection(d, API_KEY_CONFIG)
    && HasSection(d[API_KEY_CONFIG].fields, CUSTOM_ENDPOINT)
    && MODEL in d[API_KEY_CONFIG].fields[CUSTOM_ENDPOINT].fields
  }

  function EndpointModel(a: Adapters, d: Fields): Option<string>
    requires HasEndpointModel(d)
  {
    a.text(d[API_KEY_CONFIG].fields[CUSTOM_ENDPOINT].fields[MODEL])
  }

  predicate EndpointAccepted(a: Adapters, d: Fields)
    requires HasEndpointModel(d)
  {
    && EndpointModel(a, d).Some?
    && a.endpointOk(d[API_KEY_CONFIG].fields[CUSTOM_ENDPOINT].fields - {MODEL})
    && var saved: Option<Json> := Lookup(d, LLM_CONFIG);
       match saved
       case Some(Obj(llm)) => a.llmOk(llm)
       case Some(Null) => a.llmOk(map[])
       case None => a.llmOk(map[])
       case _ => false
  }

  function WithoutEndpointModel(keys: Fields): Fields {
    if HasSection(keys, CUSTOM_ENDPOINT)
    then keys[CUSTOM_ENDPOINT := Obj(keys[CUSTOM_ENDPOINT].fields - {MODEL})]
    else keys
  }

  function WithTextModels(llm: Fields, model: string): Fields {
    llm[GENERATION_MODEL_NAME := Str(model)][SHOULD_RUN_MODEL_NAME := Str(model)][PRE_RETRIEVAL_MODEL_NAME := Str(model)]
  }

  function CanonicalizeCustomEndpoint(a: Adapters, d: Fields): Result<Fields> {
    if !HasEndpointModel(d) then Ok(d)
    else if !EndpointAccepted(a, d) then Refused(CustomEndpointModel)
    else Ok(d[API_KEY_CONFIG := Obj(WithoutEndpointModel(d[API_KEY_CONFIG].fields))]
             [LLM_CONFIG := Obj(WithTextModels(Section(d, LLM_CONFIG), EndpointModel(a, d).value))])
  }

  function RetireShadowLabel(a: Adapters, d: Fields): Result<Fields> {
    if SHADOW_COMPARISON_JUDGE_PROMPT_VERSION !in d then Ok(d)
    else if a.text(d[SHADOW_COMPARISON_JUDGE_PROMPT_VERSION]).None? then Refused(ShadowLabel)
    else Ok(d - {SHADOW_COMPARISON_JUDGE_PROMPT_VERSION})
  }

  function PresetWindow(p: Preset): int {
    match p case QuickChat => 5 case Standard => 10 case LongForm => 25 case HighVolume => 15
  }

  function PresetStride(p: Preset): int {
    match p case QuickChat => 3 case Standard => 8 case LongForm => 10 case HighVolume => 8
  }

  function FillNull(d: Fields, k: Key, n: int): Fields {
    if Get(d, k, Null).Null? then d[k := Int(n)] else d
  }

  function ResolvePreset(a: Adapters, d: Fields): Result<Fields> {
    if EXTRACTION_PRESET !in d then Ok(d)
    else
      var named := Migrate(d, ROOT_NAMES);
      match a.preset(d[EXTRACTION_PRESET])
      case None => Refused(PresetName)
      case Some(None) => Ok(named - {EXTRACTION_PRESET})
      case Some(Some(p)) =>
        Ok(FillNull(FillNull(named - {EXTRACTION_PRESET}, WINDOW_SIZE, PresetWindow(p)), STRIDE_SIZE, PresetStride(p)))
  }

  function WithoutDeployment(j: Json): Json {
    if j.Obj? && HasSection(j.fields, OPENAI) && HasSection(j.fields[OPENAI].fields, AZURE_CONFIG)
       && DEPLOYMENT_NAME in j.fields[OPENAI].fields[AZURE_CONFIG].fields
    then
      var openai := j.fields[OPENAI].fields;
      Obj(j.fields[OPENAI := Obj(openai[AZURE_CONFIG := Obj(openai[AZURE_CONFIG].fields - {DEPLOYMENT_NAME})])])
    else j
  }

  function RetireAzureDeployment(d: Fields): Fields {
    if API_KEY_CONFIG in d then d[API_KEY_CONFIG := WithoutDeployment(d[API_KEY_CONFIG])] else d
  }

  const OVERRIDE_FIELDS: set<Key> :=
    {BATCH_SIZE_OVERRIDE, BATCH_INTERVAL_OVERRIDE, EXTRACTION_WINDOW_SIZE_OVERRIDE, EXTRACTION_WINDOW_STRIDE_OVERRIDE}

  /** Names an extractor section no longer carries. */
  function RetiredNames(current: Key): set<Key> {
    if current == PROFILE_EXTRACTOR_CONFIG then {EXTRACTOR_NAME}
    else if current == USER_PLAYBOOK_EXTRACTOR_CONFIG then {EXTRACTOR_NAME, PLAYBOOK_NAME, FEEDBACK_NAME}
    else if current == AGENT_SUCCESS_CONFIG then
      {EVALUATION_NAME, WINDOW_SIZE_OVERRIDE, STRIDE_SIZE_OVERRIDE} + OVERRIDE_FIELDS
    else {}
  }

  function StripEntry(current: Key, j: Json): Json {
    if !j.Obj? then j
    else
      var f := j.fields - RetiredNames(current);
      if current == USER_PLAYBOOK_EXTRACTOR_CONFIG && HasSection(f, DEDUPLICATION_CONFIG)
      then Obj(f[DEDUPLICATION_CONFIG := Obj(f[DEDUPLICATION_CONFIG].fields - {MAX_UNIFIED_CONTENT_CHARS})])
      else Obj(f)
  }

  function StripEntries(current: Key, items: seq<Json>): (r: seq<Json>)
    ensures |r| == |items|
    ensures forall i :: 0 <= i < |items| ==> r[i] == StripEntry(current, items[i])
  {
    if items == [] then [] else [StripEntry(current, items[0])] + StripEntries(current, items[1..])
  }

  function StripNames(current: Key, j: Json): Json {
    match j
    case Obj(_) => StripEntry(current, j)
    case Arr(items) => Arr(StripEntries(current, items))
    case _ => j
  }

  function StripNamesAt(d: Fields, field: Key, current: Key): Fields {
    if field in d then d[field := StripNames(current, d[field])] else d
  }

  function StripListNames(d: Fields, names: Renames): Fields
    decreases names
  {
    match names
    case End => d
    case Rename(former, current, rest) => StripListNames(StripNamesAt(d, former, current), rest)
  }

  function StripExtractorNames(d: Fields): Fields {
    StripListNames(
      StripNamesAt(
        StripNamesAt(
          StripNamesAt(d, PROFILE_EXTRACTOR_CONFIG, PROFILE_EXTRACTOR_CONFIG),
          USER_PLAYBOOK_EXTRACTOR_CONFIG, USER_PLAYBOOK_EXTRACTOR_CONFIG),
        AGENT_SUCCESS_CONFIG, AGENT_SUCCESS_CONFIG),
      LIST_FIELDS)
  }

  /** The first half of the cleanup: whole fields and provider references. */
  function RetireFields(a: Adapters, d: Fields): Result<Fields> {
    var d1 :- StripHousekeeping(a, d);
    var d2 :- CanonicalizeCustomEndpoint(a, d1);
    var d3 :- RetireShadowLabel(a, d2);
    var d4 :- ResolvePreset(a, d3);
    Ok(RetireAzureDeployment(d4))
  }

  /** The second half: the policy sections, each by its own rule. */
  function RewritePolicies(a: Adapters, d: Fields): Result<Fields> {
    var d1 :- RewriteSection(a, d, PENDING_TOOL_CALL_CONFIG, ToPending);
    var d2 :- RewriteSection(a, d1, PLAYBOOK_OPTIMIZER_CONFIG, ToOptimizer);
    var d3 :- RewriteSection(a, d2, RETRIEVAL_FLOOR, ToFloor);
    var d4 :- RewriteSection(a, d3, LINEAGE_GC, ToLineage(false));
    RewriteSection(a, d4, GOVERNANCE_RETENTION, ToAudit)
  }

  function StripRetiredFields(a: Adapters, d: Fields): Result<Fields> {
    var d1 :- RetireFields(a, d);
    var d2 :- RewritePolicies(a, d1);
    Ok(StripExtractorNames(d2 - {SHADOW_MODE_ENABLED}))
  }

  function Canonicalize(a: Adapters, d: Fields): Result<Fields> {
    var stripped :- StripRetiredFields(a, NormalizeShape(d));
    var named := Migrate(stripped, ROOT_NAMES);
    var profiled :- RewriteSection(a, named, PROFILE_EXTRACTOR_CONFIG, ToProfile);
    RewriteSection(a, profiled, USER_PLAYBOOK_EXTRACTOR_CONFIG, ToPlaybook)
  }

  // ----- the storage reference, and the whole conversion ----------------------------------

  const HTTP_SELECTORS: set<Key> := {URL, HTTP_KEY, READ_URL, READ_KEY}

  function Respell(f: Fields, former: Key, current: Key): Result<Fields> {
    if former !in f then Ok(f)
    else if current in f then Refused(StorageSpelling)
    else Ok((f - {former})[current := f[former]])
  }

  function NormalizeBackend(f: Fields): Fields {
    if TYPE in f || STORAGE_TYPE in f || MANAGED_BY in f then f
    else if URL in f || HTTP_KEY in f || READ_URL in f || READ_KEY in f then f[TYPE := Str("supabase")]
    else if DB_URL in f then f[TYPE := Str("postgres")]
    else f
  }

  function TagStorage(f: Fields): Result<Fields> {
    var f1 :- Respell(f, STORAGE_TYPE, TYPE);
    var f2 :- Respell(f1, SCHEMA_NAME, SCHEMA);
    var f3 := NormalizeBackend(f2);
    var f4 := SetDefault(f3, TYPE, if MANAGED_BY in f3 then Str("supabase") else Str("sqlite"));
    Ok(if f4[TYPE] == Str("supabase") then f4 - HTTP_SELECTORS else f4)
  }

  function CanonicalizeDocument(a: Adapters, d: Fields): Result<Fields> {
    var converted :- Canonicalize(a, d);
    var tagged :- if HasSection(converted, STORAGE_CONFIG)
                  then var f :- TagStorage(converted[STORAGE_CONFIG].fields); Ok(converted[STORAGE_CONFIG := Obj(f)])
                  else Ok(converted);
    if a.schemaOk(tagged) then Ok(tagged) else Refused(InvalidSchema)
  }

  // ----- the same conversion, key by key ---------------------------------------------------

  function OptionRewrite(a: Adapters, rw: Rewrite, o: Option<Json>): Result<Option<Json>> {
    match o
    case None => Ok(None)
    case Some(j) => var x :- RewriteValue(a, rw, j); Ok(Some(x))
  }

  /** The singular section: itself, else the first entry of the first list present. */
  function FirstList(d: Fields, names: Renames, k: Key): Option<Json>
    decreases names
  {
    if k in d then Some(d[k])
    else match names
      case End => None
      case Rename(former, current, rest) =>
        if current == k && former in d then Some(FirstEntry(d[former])) else FirstList(d, rest, k)
  }

  function OptionStrip(k: Key, o: Option<Json>): Option<Json> {
    match o
    case None => None
    case Some(j) => Some(StripNames(k, j))
  }

  function Extractor(d: Fields, k: Key): Option<Json> {
    OptionStrip(k, FirstList(d, LIST_FIELDS, k))
  }

  predicate RootFormer(k: Key) {
    k == BATCH_SIZE || k == BATCH_INTERVAL || k == EXTRACTION_WINDOW_SIZE || k == EXTRACTION_WINDOW_STRIDE
  }

  predicate ListFormer(k: Key) {
    || k == PROFILE_EXTRACTOR_CONFIGS || k == USER_PLAYBOOK_EXTRACTOR_CONFIGS || k == PLAYBOOK_CONFIGS
    || k == AGENT_FEEDBACK_CONFIGS || k == AGENT_SUCCESS_CONFIGS
  }

  predicate ExtractorField(k: Key) {
    k == PROFILE_EXTRACTOR_CONFIG || k == USER_PLAYBOOK_EXTRACTOR_CONFIG || k == AGENT_SUCCESS_CONFIG
  }

  predicate GeometryField(k: Key) {
    k == WINDOW_SIZE || k == STRIDE_SIZE
  }

  /** The saved size under any of its spellings, the current one first. */
  function SavedGeometry(d: Fields, k: Key): Option<Json>
    requires GeometryField(k)
  {
    if k in d then Some(d[k])
    else if k == WINDOW_SIZE then
      if BATCH_SIZE in d then Some(d[BATCH_SIZE]) else Lookup(d, EXTRACTION_WINDOW_SIZE)
    else
      if BATCH_INTERVAL in d then Some(d[BATCH_INTERVAL]) else Lookup(d, EXTRACTION_WINDOW_STRIDE)
  }

  function Geometry(a: Adapters, d: Fields, k: Key): Option<Json>
    requires GeometryField(k)
  {
    var saved := SavedGeometry(d, k);
    if EXTRACTION_PRESET !in d then saved
    else match a.preset(d[EXTRACTION_PRESET])
      case Some(Some(p)) =>
        if saved.None? || saved.value.Null?
        then Some(Int(if k == WINDOW_SIZE then PresetWindow(p) else PresetStride(p)))
        else saved
      case _ => saved
  }

  function ProviderKeys(j: Json): Json {
    if j.Obj? then WithoutDeployment(Obj(WithoutEndpointModel(j.fields))) else j
  }

  function CanonicalAt(a: Adapters, d: Fields, k: Key): Result<Option<Json>> {
    if k == LINEAGE_GC then
      if k !in d then Ok(None)
      else
        var j :- StripCadence(a, d[k]);
        OptionRewrite(a, ToLineage(false), Some(j))
    else if k == API_KEY_CONFIG then
      if HasEndpointModel(d) && !EndpointAccepted(a, d) then Refused(CustomEndpointModel)
      else if k in d then Ok(Some(ProviderKeys(d[k])))
      else Ok(None)
    else if k == LLM_CONFIG then
      if HasEndpointModel(d) && EndpointAccepted(a, d)
      then Ok(Some(Obj(WithTextModels(Section(d, LLM_CONFIG), EndpointModel(a, d).value))))
      else Ok(Lookup(d, k))
    else if k == SHADOW_COMPARISON_JUDGE_PROMPT_VERSION then
      if k in d && a.text(d[k]).None? then Refused(ShadowLabel) else Ok(None)
    else if k == EXTRACTION_PRESET then
      if k in d && a.preset(d[k]).None? then Refused(PresetName) else Ok(None)
    else if GeometryField(k) then Ok(Geometry(a, d, k))
    else if k == PENDING_TOOL_CALL_CONFIG then OptionRewrite(a, ToPending, Lookup(d, k))
    else if k == PLAYBOOK_OPTIMIZER_CONFIG then OptionRewrite(a, ToOptimizer, Lookup(d, k))
    else if k == RETRIEVAL_FLOOR then OptionRewrite(a, ToFloor, Lookup(d, k))
    else if k == GOVERNANCE_RETENTION then OptionRewrite(a, ToAudit, Lookup(d, k))
    else if k == PROFILE_EXTRACTOR_CONFIG then OptionRewrite(a, ToProfile, Extractor(d, k))
    else if k == USER_PLAYBOOK_EXTRACTOR_CONFIG then OptionRewrite(a, ToPlaybook, Extractor(d, k))
    else if k == AGENT_SUCCESS_CONFIG then Ok(Extractor(d, k))
    else if k == SHADOW_MODE_ENABLED || RootFormer(k) || ListFormer(k) then Ok(None)
    else Ok(Lookup(d, k))
  }

  // ----- renaming ---------------------------------------------------------------------------

  lemma {:induction false} FirstSpellingFrame(f: Fields, g: Fields, names: Renames, k: Key)
    requires k !in f && k !in g
    requires forall o :: names.Retires(o) ==> Lookup(f, o) == Lookup(g, o)
    ensures FirstSpelling(f, names, k) == FirstSpelling(g, names, k)
    decreases names
  {
    match names
    case End =>
    case Rename(former, current, rest) =>
      assert names.Retires(former);
      assert Lookup(f, former) == Lookup(g, former);
      assert forall o :: rest.Retires(o) ==> names.Retires(o);
      FirstSpellingFrame(f, g, rest, k);
  }

  lemma {:induction false} NoSpelling(f: Fields, names: Renames, k: Key)
    requires k !in f && !names.Targets(k)
    ensures FirstSpelling(f, names, k).None?
    decreases names
  {
    if names.Rename? {
      NoSpelling(f, names.rest, k);
    }
  }

  /** Renaming drops every old name; a current name keeps its own value, else takes the first
      old spelling in the order of the table; nothing else changes. */
  lemma {:induction false} MigrateLookup(f: Fields, names: Renames, k: Key)
    requires names.Acyclic()
    ensures Lookup(Migrate(f, names), k) == if names.Retires(k) then None else FirstSpelling(f, names, k)
    decreases names
  {
    match names
    case End =>
    case Rename(former, current, rest) =>
      var g := MigrateOne(f, former, current);
      MigrateLookup(g, rest, k);
      if k == former {
        NoSpelling(g, rest, k);
      } else if k !in f && !(k == current && former in f) {
        FirstSpellingFrame(f, g, rest, k);
      }
  }

  lemma PlaybookNamesAcyclic()
    ensures PLAYBOOK_NAMES.Acyclic()
  {
    assert PLAYBOOK_NAMES.rest.rest.rest.Acyclic();
  }

  lemma ListFieldsAcyclic()
    ensures LIST_FIELDS.Acyclic()
  {
    assert LIST_FIELDS.rest.rest.Acyclic();
  }

  lemma OverrideNamesAcyclic()
    ensures OVERRIDE_NAMES.Acyclic() && PROFILE_NAMES.Acyclic()
  {
  }

  lemma ShortNamesAcyclic()
    ensures ROOT_NAMES.Acyclic() && AGGREGATOR_NAMES.Acyclic()
  {
  }

  lemma RootNamesAcyclic()
    ensures ROOT_NAMES.Acyclic() && OVERRIDE_NAMES.Acyclic() && AGGREGATOR_NAMES.Acyclic()
    ensures PROFILE_NAMES.Acyclic() && PLAYBOOK_NAMES.Acyclic() && LIST_FIELDS.Acyclic()
  {
    hide Renames.Acyclic;
    PlaybookNamesAcyclic();
    ListFieldsAcyclic();
    OverrideNamesAcyclic();
    ShortNamesAcyclic();
  }

  lemma {:induction false} FirstListFrame(f: Fields, g: Fields, names: Renames, k: Key)
    requires k !in f && k !in g
    requires forall o :: names.Retires(o) ==> Lookup(f, o) == Lookup(g, o)
    ensures FirstList(f, names, k) == FirstList(g, names, k)
    decreases names
  {
    match names
    case End =>
    case Rename(former, current, rest) =>
      assert names.Retires(former);
      assert Lookup(f, former) == Lookup(g, former);
      assert forall o :: rest.Retires(o) ==> names.Retires(o);
      FirstListFrame(f, g, rest, k);
  }

  lemma {:induction false} NoList(f: Fields, names: Renames, k: Key)
    requires k !in f && !names.Targets(k)
    ensures FirstList(f, names, k).None?
    decreases names
  {
    if names.Rename? {
      NoList(f, names.rest, k);
    }
  }

  lemma {:induction false} SingularizeLookup(f: Fields, names: Renames, k: Key)
    requires names.Acyclic()
    ensures Lookup(Singularize(f, names), k) == if names.Retires(k) then None else FirstList(f, names, k)
    decreases names
  {
    match names
    case End =>
    case Rename(former, current, rest) =>
      var g := SingularizeOne(f, former, current);
      SingularizeLookup(g, rest, k);
      if k == former {
        NoList(g, rest, k);
      } else if k !in f && !(k == current && former in f) {
        FirstListFrame(f, g, rest, k);
      }
  }

  // ----- the steps agree with the key-by-key account ------------------------------------------

  lemma ShapeAt(d: Fields, k: Key)
    ensures Lookup(NormalizeShape(d), k) == if ListFormer(k) then None else FirstList(d, LIST_FIELDS, k)
    ensures !ListFormer(k) && !ExtractorField(k) ==> Lookup(NormalizeShape(d), k) == Lookup(d, k)
  {
    RootNamesAcyclic();
    SingularizeLookup(d, LIST_FIELDS, k);
  }

  lemma RootAt(d: Fields, k: Key)
    ensures Lookup(Migrate(d, ROOT_NAMES), k) ==
            if RootFormer(k) then None else if GeometryField(k) then SavedGeometry(d, k) else Lookup(d, k)
  {
    RootNamesAcyclic();
    MigrateLookup(d, ROOT_NAMES, k);
  }

  lemma ExtractorNamesAt(d: Fields, k: Key)
    requires forall x :: x in d ==> !ListFormer(x)
    ensures Lookup(StripExtractorNames(d), k) ==
            if ExtractorField(k) then OptionStrip(k, Lookup(d, k)) else Lookup(d, k)
  {
    var e := StripNamesAt(StripNamesAt(StripNamesAt(d, PROFILE_EXTRACTOR_CONFIG, PROFILE_EXTRACTOR_CONFIG),
      USER_PLAYBOOK_EXTRACTOR_CONFIG, USER_PLAYBOOK_EXTRACTOR_CONFIG), AGENT_SUCCESS_CONFIG, AGENT_SUCCESS_CONFIG);
    assert e.Keys == d.Keys;
    assert StripListNames(e, LIST_FIELDS) == e;
  }

  lemma PresetAt(a: Adapters, d: Fields, k: Key)
    requires ResolvePreset(a, d).Ok? && EXTRACTION_PRESET in d
    ensures Lookup(ResolvePreset(a, d).value, k) ==
            if RootFormer(k) || k == EXTRACTION_PRESET then None
            else if GeometryField(k) then Geometry(a, d, k)
            else Lookup(d, k)
  {
    RootAt(d, k);
    RootAt(d, WINDOW_SIZE);
    RootAt(d, STRIDE_SIZE);
  }

  /** The outcome at `k` of the rules that retire whole fields. */
  function RetiredAt(a: Adapters, s: Fields, k: Key): Option<Json> {
    if k == LINEAGE_GC then
      if k in s && StripCadence(a, s[k]).Ok? then Some(StripCadence(a, s[k]).value) else None
    else if k == API_KEY_CONFIG then
      if k in s then Some(ProviderKeys(s[k])) else None
    else if k == LLM_CONFIG && HasEndpointModel(s) && EndpointAccepted(a, s) then
      Some(Obj(WithTextModels(Section(s, LLM_CONFIG), EndpointModel(a, s).value)))
    else if k == SHADOW_COMPARISON_JUDGE_PROMPT_VERSION || k == EXTRACTION_PRESET then None
    else if EXTRACTION_PRESET in s && RootFormer(k) then None
    else if EXTRACTION_PRESET in s && GeometryField(k) then Geometry(a, s, k)
    else Lookup(s, k)
  }

  lemma ProviderKeysSteps(a: Adapters, d: Fields)
    requires API_KEY_CONFIG in d && CanonicalizeCustomEndpoint(a, d).Ok?
    ensures API_KEY_CONFIG in CanonicalizeCustomEndpoint(a, d).value
    ensures WithoutDeployment(CanonicalizeCustomEndpoint(a, d).value[API_KEY_CONFIG]) == ProviderKeys(d[API_KEY_CONFIG])
  {
    if !HasEndpointModel(d) && d[API_KEY_CONFIG].Obj? {
      var keys := d[API_KEY_CONFIG].fields;
      if HasSection(keys, CUSTOM_ENDPOINT) {
        assert keys[CUSTOM_ENDPOINT].fields - {MODEL} == keys[CUSTOM_ENDPOINT].fields;
        assert keys[CUSTOM_ENDPOINT := Obj(keys[CUSTOM_ENDPOINT].fields - {MODEL})] == keys;
      }
    }
  }

  lemma EndpointSteps(a: Adapters, s: Fields, k: Key)
    requires StripHousekeeping(a, s).Ok? && CanonicalizeCustomEndpoint(a, StripHousekeeping(a, s).value).Ok?
    ensures k != API_KEY_CONFIG && k != LINEAGE_GC && k != LLM_CONFIG ==>
              Lookup(CanonicalizeCustomEndpoint(a, StripHousekeeping(a, s).value).value, k) == Lookup(s, k)
    ensures k == LINEAGE_GC || k == LLM_CONFIG ==>
              Lookup(CanonicalizeCustomEndpoint(a, StripHousekeeping(a, s).value).value, k) == RetiredAt(a, s, k)
    ensures k == API_KEY_CONFIG ==>
              var d2 := CanonicalizeCustomEndpoint(a, StripHousekeeping(a, s).value).value;
              && (k in d2 <==> k in s)
              && (k in s ==> WithoutDeployment(d2[k]) == ProviderKeys(s[k]))
  {
    var d1 := StripHousekeeping(a, s).value;
    assert forall x :: x != LINEAGE_GC ==> Lookup(d1, x) == Lookup(s, x);
    assert Lookup(d1, API_KEY_CONFIG) == Lookup(s, API_KEY_CONFIG);
    assert Lookup(d1, LLM_CONFIG) == Lookup(s, LLM_CONFIG);
    if API_KEY_CONFIG in d1 {
      ProviderKeysSteps(a, d1);
    }
  }

  lemma RetireFieldsAt(a: Adapters, s: Fields, k: Key)
    requires RetireFields(a, s).Ok?
    ensures Lookup(RetireFields(a, s).value, k) == RetiredAt(a, s, k)
  {
    var d2 := CanonicalizeCustomEndpoint(a, StripHousekeeping(a, s).value).value;
    forall x
      ensures x != API_KEY_CONFIG && x != LINEAGE_GC && x != LLM_CONFIG ==> Lookup(d2, x) == Lookup(s, x)
    {
      EndpointSteps(a, s, x);
    }
    EndpointSteps(a, s, k);
    FieldSteps(a, s, d2, k);
    FieldSteps(a, s, d2, API_KEY_CONFIG);
  }

  lemma ShadowAt(a: Adapters, d: Fields, k: Key)
    requires RetireShadowLabel(a, d).Ok?
    ensures Lookup(RetireShadowLabel(a, d).value, k)
         == if k == SHADOW_COMPARISON_JUDGE_PROMPT_VERSION then None else Lookup(d, k)
  {
  }

  lemma NoPreset(a: Adapters, d: Fields)
    requires EXTRACTION_PRESET !in d
    ensures ResolvePreset(a, d) == Ok(d)
  {
  }

  lemma GeometryAgrees(a: Adapters, s: Fields, d: Fields, k: Key)
    requires GeometryField(k)
    requires forall x :: GeometryField(x) || RootFormer(x) || x == EXTRACTION_PRESET ==> Lookup(d, x) == Lookup(s, x)
    ensures Geometry(a, d, k) == Geometry(a, s, k)
  {
    assert Lookup(d, k) == Lookup(s, k);
    assert Lookup(d, BATCH_SIZE) == Lookup(s, BATCH_SIZE) && Lookup(d, BATCH_INTERVAL) == Lookup(s, BATCH_INTERVAL);
    assert Lookup(d, EXTRACTION_WINDOW_SIZE) == Lookup(s, EXTRACTION_WINDOW_SIZE);
    assert Lookup(d, EXTRACTION_WINDOW_STRIDE) == Lookup(s, EXTRACTION_WINDOW_STRIDE);
    assert Lookup(d, EXTRACTION_PRESET) == Lookup(s, EXTRACTION_PRESET);
  }

  lemma FieldSteps(a: Adapters, s: Fields, d2: Fields, k: Key)
    requires RetireShadowLabel(a, d2).Ok? && ResolvePreset(a, RetireShadowLabel(a, d2).value).Ok?
    requires forall x :: x != API_KEY_CONFIG && x != LINEAGE_GC && x != LLM_CONFIG ==> Lookup(d2, x) == Lookup(s, x)
    ensures Lookup(ResolvePreset(a, RetireShadowLabel(a, d2).value).value, k) ==
            if k == API_KEY_CONFIG || k == LINEAGE_GC || k == LLM_CONFIG then Lookup(d2, k) else RetiredAt(a, s, k)
  {
    hide RetireShadowLabel, ResolvePreset, Geometry;
    var d3 := RetireShadowLabel(a, d2).value;
    forall x { ShadowAt(a, d2, x); }
    assert Lookup(d3, EXTRACTION_PRESET) == Lookup(s, EXTRACTION_PRESET);
    if EXTRACTION_PRESET in d3 {
      PresetAt(a, d3, k);
      if GeometryField(k) {
        GeometryAgrees(a, s, d3, k);
      }
    } else {
      NoPreset(a, d3);
    }
  }

  predicate PolicySection(k: Key) {
    || k == PENDING_TOOL_CALL_CONFIG || k == PLAYBOOK_OPTIMIZER_CONFIG || k == RETRIEVAL_FLOOR
    || k == LINEAGE_GC || k == GOVERNANCE_RETENTION
  }

  function PolicyRewrite(k: Key): Rewrite
    requires PolicySection(k)
  {
    if k == PENDING_TOOL_CALL_CONFIG then ToPending
    else if k == PLAYBOOK_OPTIMIZER_CONFIG then ToOptimizer
    else if k == RETRIEVAL_FLOOR then ToFloor
    else if k == LINEAGE_GC then ToLineage(false)
    else ToAudit
  }

  lemma RewriteSectionAt(a: Adapters, d: Fields, section: Key, rw: Rewrite, k: Key)
    requires RewriteSection(a, d, section, rw).Ok?
    ensures k == section ==> OptionRewrite(a, rw, Lookup(d, k)) == Ok(Lookup(RewriteSection(a, d, section, rw).value, k))
    ensures k != section ==> Lookup(RewriteSection(a, d, section, rw).value, k) == Lookup(d, k)
  {
    hide RewriteValue;
  }

  lemma RewritePoliciesAt(a: Adapters, d: Fields, k: Key)
    requires RewritePolicies(a, d).Ok?
    ensures PolicySection(k) ==> OptionRewrite(a, PolicyRewrite(k), Lookup(d, k)) == Ok(Lookup(RewritePolicies(a, d).value, k))
    ensures !PolicySection(k) ==> Lookup(RewritePolicies(a, d).value, k) == Lookup(d, k)
  {
    hide RewriteSection, OptionRewrite, Lookup;
    var d1 := RewriteSection(a, d, PENDING_TOOL_CALL_CONFIG, ToPending).value;
    var d2 := RewriteSection(a, d1, PLAYBOOK_OPTIMIZER_CONFIG, ToOptimizer).value;
    var d3 := RewriteSection(a, d2, RETRIEVAL_FLOOR, ToFloor).value;
    var d4 := RewriteSection(a, d3, LINEAGE_GC, ToLineage(false)).value;
    RewriteSectionAt(a, d, PENDING_TOOL_CALL_CONFIG, ToPending, k);
    RewriteSectionAt(a, d1, PLAYBOOK_OPTIMIZER_CONFIG, ToOptimizer, k);
    RewriteSectionAt(a, d2, RETRIEVAL_FLOOR, ToFloor, k);
    RewriteSectionAt(a, d3, LINEAGE_GC, ToLineage(false), k);
    RewriteSectionAt(a, d4, GOVERNANCE_RETENTION, ToAudit, k);
  }

  lemma RewritePoliciesRefuse(a: Adapters, d: Fields) returns (k: Key)
    requires RewritePolicies(a, d).Refused?
    ensures PolicySection(k) && OptionRewrite(a, PolicyRewrite(k), Lookup(d, k)).Refused?
  {
    hide RewriteValue;
    var d1 := RewriteSection(a, d, PENDING_TOOL_CALL_CONFIG, ToPending);
    if d1.Refused? { return PENDING_TOOL_CALL_CONFIG; }
    var d2 := RewriteSection(a, d1.value, PLAYBOOK_OPTIMIZER_CONFIG, ToOptimizer);
    if d2.Refused? { return PLAYBOOK_OPTIMIZER_CONFIG; }
    var d3 := RewriteSection(a, d2.value, RETRIEVAL_FLOOR, ToFloor);
    if d3.Refused? { return RETRIEVAL_FLOOR; }
    var d4 := RewriteSection(a, d3.value, LINEAGE_GC, ToLineage(false));
    if d4.Refused? { return LINEAGE_GC; }
    return GOVERNANCE_RETENTION;
  }

  /** The keys an outcome depends on, apart from the extractor sections. */
  predicate Same(d: Fields, e: Fields, k: Key) {
    && Lookup(d, k) == Lookup(e, k)
    && (k == LLM_CONFIG ==> Lookup(d, API_KEY_CONFIG) == Lookup(e, API_KEY_CONFIG))
    && (k == API_KEY_CONFIG ==> Lookup(d, LLM_CONFIG) == Lookup(e, LLM_CONFIG))
    && (GeometryField(k) ==>
          && Lookup(d, BATCH_SIZE) == Lookup(e, BATCH_SIZE)
          && Lookup(d, BATCH_INTERVAL) == Lookup(e, BATCH_INTERVAL)
          && Lookup(d, EXTRACTION_WINDOW_SIZE) == Lookup(e, EXTRACTION_WINDOW_SIZE)
          && Lookup(d, EXTRACTION_WINDOW_STRIDE) == Lookup(e, EXTRACTION_WINDOW_STRIDE)
          && Lookup(d, EXTRACTION_PRESET) == Lookup(e, EXTRACTION_PRESET))
  }

  lemma SameOutcomeAt(a: Adapters, d: Fields, e: Fields, k: Key)
    requires Same(d, e, k) && !ExtractorField(k)
    ensures CanonicalAt(a, d, k) == CanonicalAt(a, e, k)
  {
    hide RewriteValue, StripNames, FirstList;
  }

  /** The shaped document gives every key the same outcome as the original. */
  lemma ShapedOutcome(a: Adapters, d: Fields, k: Key)
    requires !ExtractorField(k)
    ensures CanonicalAt(a, NormalizeShape(d), k) == CanonicalAt(a, d, k)
  {
    hide CanonicalAt, NormalizeShape, FirstList;
    var s := NormalizeShape(d);
    forall x
      ensures !ListFormer(x) && !ExtractorField(x) ==> Lookup(s, x) == Lookup(d, x)
    {
      ShapeAt(d, x);
    }
    if ListFormer(k) {
      ListFormerOutcome(a, d, k);
      ListFormerOutcome(a, s, k);
    } else {
      assert Lookup(s, k) == Lookup(d, k);
      assert Lookup(s, API_KEY_CONFIG) == Lookup(d, API_KEY_CONFIG);
      assert Lookup(s, LLM_CONFIG) == Lookup(d, LLM_CONFIG);
      assert Lookup(s, BATCH_SIZE) == Lookup(d, BATCH_SIZE);
      assert Lookup(s, BATCH_INTERVAL) == Lookup(d, BATCH_INTERVAL);
      assert Lookup(s, EXTRACTION_WINDOW_SIZE) == Lookup(d, EXTRACTION_WINDOW_SIZE);
      assert Lookup(s, EXTRACTION_WINDOW_STRIDE) == Lookup(d, EXTRACTION_WINDOW_STRIDE);
      assert Lookup(s, EXTRACTION_PRESET) == Lookup(d, EXTRACTION_PRESET);
      SameOutcomeAt(a, s, d, k);
    }
  }

  lemma ListFormerOutcome(a: Adapters, d: Fields, k: Key)
    requires ListFormer(k)
    ensures CanonicalAt(a, d, k) == Ok(None)
  {
    hide RewriteValue, StripNames, FirstList;
  }

  /** Before the final renaming, key by key, on an already shaped document. */
  lemma StrippedAt(a: Adapters, s: Fields, k: Key)
    requires forall x :: x in s ==> !ListFormer(x)
    requires StripRetiredFields(a, s).Ok?
    ensures ExtractorField(k) ==>
              Lookup(StripRetiredFields(a, s).value, k) == OptionStrip(k, Lookup(s, k))
    ensures !ExtractorField(k) && !PolicySection(k) && k != SHADOW_MODE_ENABLED ==>
              Lookup(StripRetiredFields(a, s).value, k) == RetiredAt(a, s, k)
    ensures PolicySection(k) ==>
              OptionRewrite(a, PolicyRewrite(k), RetiredAt(a, s, k)) == Ok(Lookup(StripRetiredFields(a, s).value, k))
    ensures k == SHADOW_MODE_ENABLED ==> Lookup(StripRetiredFields(a, s).value, k) == None
  {
    hide RewriteValue, StripNames, FirstList, RewritePolicies, StripExtractorNames, RetireFields, OptionRewrite;
    var d1 := RetireFields(a, s).value;
    var d2 := RewritePolicies(a, d1).value;
    RetireFieldsAt(a, s, k);
    RewritePoliciesAt(a, d1, k);
    forall x
      ensures x in d2 - {SHADOW_MODE_ENABLED} ==> !ListFormer(x)
    {
      RetireFieldsAt(a, s, x);
      RewritePoliciesAt(a, d1, x);
    }
    ExtractorNamesAt(d2 - {SHADOW_MODE_ENABLED}, k);
  }

  /** One section rule after the fields are retired is the whole account of a policy section,
      and retiring the fields is the whole account of every other key. */
  lemma RetiredOutcome(a: Adapters, s: Fields, k: Key)
    requires RetireFields(a, s).Ok?
    requires !ExtractorField(k) && !ListFormer(k)
    ensures PolicySection(k) ==> CanonicalAt(a, s, k) == OptionRewrite(a, PolicyRewrite(k), RetiredAt(a, s, k))
    ensures !PolicySection(k) && !RootFormer(k) && !GeometryField(k) && k != SHADOW_MODE_ENABLED ==>
              CanonicalAt(a, s, k) == Ok(RetiredAt(a, s, k))
  {
    hide RewriteValue, StripNames, FirstList;
    var d1 := StripHousekeeping(a, s).value;
    var d2 := CanonicalizeCustomEndpoint(a, d1).value;
    var d3 := RetireShadowLabel(a, d2).value;
    assert HasEndpointModel(d1) == HasEndpointModel(s);
    assert Lookup(d2, EXTRACTION_PRESET) == Lookup(s, EXTRACTION_PRESET) == Lookup(d3, EXTRACTION_PRESET);
    assert Lookup(d2, SHADOW_COMPARISON_JUDGE_PROMPT_VERSION) == Lookup(s, SHADOW_COMPARISON_JUDGE_PROMPT_VERSION);
  }

  /** An accepted document holds, at every key, exactly what the key-by-key account says. */
  lemma AcceptedAt(a: Adapters, d: Fields, k: Key)
    requires Canonicalize(a, d).Ok?
    ensures CanonicalAt(a, d, k) == Ok(Lookup(Canonicalize(a, d).value, k))
  {
    hide RewriteValue, StripNames, FirstList, StripRetiredFields, NormalizeShape, RewriteSection, OptionRewrite,
         RetireFields, RetiredAt, CanonicalAt, Lookup, Migrate, OptionStrip;
    var s := NormalizeShape(d);
    var stripped := StripRetiredFields(a, s).value;
    var named := Migrate(stripped, ROOT_NAMES);
    var profiled := RewriteSection(a, named, PROFILE_EXTRACTOR_CONFIG, ToProfile).value;
    RewriteSectionAt(a, named, PROFILE_EXTRACTOR_CONFIG, ToProfile, k);
    RewriteSectionAt(a, profiled, USER_PLAYBOOK_EXTRACTOR_CONFIG, ToPlaybook, k);
    RootAt(stripped, k);
    ShapedKeys(d);
    StrippedAt(a, s, k);
    if ExtractorField(k) {
      ShapeAt(d, k);
      ExtractorOutcome(a, d, k);
    } else {
      ShapedOutcome(a, d, k);
      StrippedAccepts(a, s);
      if RootFormer(k) || ListFormer(k) || k == SHADOW_MODE_ENABLED {
        FormerOutcome(a, s, k);
        ShapedKeys(d);
        assert ListFormer(k) ==> Lookup(stripped, k) == RetiredAt(a, s, k);
        ListFormerRetired(a, s, k);
      } else if GeometryField(k) {
        GeometryOutcome(a, s, stripped, k);
      } else {
        RetiredOutcome(a, s, k);
      }
    }
  }

  lemma ShapedKeys(d: Fields)
    ensures forall x :: x in NormalizeShape(d) ==> !ListFormer(x)
  {
    hide NormalizeShape, FirstList;
    forall x
      ensures x in NormalizeShape(d) ==> !ListFormer(x)
    {
      ShapeAt(d, x);
    }
  }

  lemma StrippedAccepts(a: Adapters, s: Fields)
    requires StripRetiredFields(a, s).Ok?
    ensures RetireFields(a, s).Ok?
  {
    hide RetireFields, RewritePolicies;
  }

  lemma FormerOutcome(a: Adapters, s: Fields, k: Key)
    requires RootFormer(k) || ListFormer(k) || k == SHADOW_MODE_ENABLED
    ensures CanonicalAt(a, s, k) == Ok(None)
  {
    hide RewriteValue, StripNames, FirstList;
  }

  lemma ListFormerRetired(a: Adapters, s: Fields, k: Key)
    requires forall x :: x in s ==> !ListFormer(x)
    ensures ListFormer(k) ==> RetiredAt(a, s, k) == None
  {
  }

  lemma ExtractorOutcome(a: Adapters, d: Fields, k: Key)
    requires ExtractorField(k)
    ensures k == PROFILE_EXTRACTOR_CONFIG ==> CanonicalAt(a, d, k) == OptionRewrite(a, ToProfile, Extractor(d, k))
    ensures k == USER_PLAYBOOK_EXTRACTOR_CONFIG ==> CanonicalAt(a, d, k) == OptionRewrite(a, ToPlaybook, Extractor(d, k))
    ensures k == AGENT_SUCCESS_CONFIG ==> CanonicalAt(a, d, k) == Ok(Extractor(d, k))
    ensures Extractor(d, k) == OptionStrip(k, Lookup(NormalizeShape(d), k))
  {
    hide RewriteValue, StripNames, FirstList, NormalizeShape, OptionRewrite;
    ShapeAt(d, k);
  }

  lemma GeometryOutcome(a: Adapters, s: Fields, stripped: Fields, k: Key)
    requires GeometryField(k)
    requires forall x :: x in s ==> !ListFormer(x)
    requires StripRetiredFields(a, s) == Ok(stripped)
    ensures CanonicalAt(a, s, k) == Ok(SavedGeometry(stripped, k))
  {
    hide RewriteValue, StripNames, FirstList, StripRetiredFields, OptionRewrite, RetireFields;
    StrippedAt(a, s, k);
    StrippedAt(a, s, BATCH_SIZE);
    StrippedAt(a, s, BATCH_INTERVAL);
    StrippedAt(a, s, EXTRACTION_WINDOW_SIZE);
    StrippedAt(a, s, EXTRACTION_WINDOW_STRIDE);
    StrippedAt(a, s, EXTRACTION_PRESET);
  }

  /** When the conversion refuses, some key's own outcome is a refusal. */
  lemma RefusedAt(a: Adapters, d: Fields) returns (k: Key)
    requires Canonicalize(a, d).Refused?
    ensures CanonicalAt(a, d, k).Refused?
  {
    hide RewriteValue, StripNames, FirstList, NormalizeShape, RewriteSection, OptionRewrite,
         RetireFields, RetiredAt, CanonicalAt, Lookup, Migrate, OptionStrip, StripRetiredFields;
    var s := NormalizeShape(d);
    if StripRetiredFields(a, s).Refused? {
      k := StripRefusedAt(a, s);
      ShapedOutcome(a, d, k);
      return;
    }
    var stripped := StripRetiredFields(a, s).value;
    var named := Migrate(stripped, ROOT_NAMES);
    k := if RewriteSection(a, named, PROFILE_EXTRACTOR_CONFIG, ToProfile).Refused?
         then PROFILE_EXTRACTOR_CONFIG else USER_PLAYBOOK_EXTRACTOR_CONFIG;
    ShapedKeys(d);
    StrippedAt(a, s, k);
    RootAt(stripped, k);
    ExtractorOutcome(a, d, k);
    if k == PROFILE_EXTRACTOR_CONFIG {
      RewriteSectionRefused(a, named, PROFILE_EXTRACTOR_CONFIG, ToProfile);
    } else {
      var profiled := RewriteSection(a, named, PROFILE_EXTRACTOR_CONFIG, ToProfile).value;
      RewriteSectionAt(a, named, PROFILE_EXTRACTOR_CONFIG, ToProfile, k);
      RewriteSectionRefused(a, profiled, USER_PLAYBOOK_EXTRACTOR_CONFIG, ToPlaybook);
    }
  }

  lemma RewriteSectionRefused(a: Adapters, d: Fields, section: Key, rw: Rewrite)
    requires RewriteSection(a, d, section, rw).Refused?
    ensures OptionRewrite(a, rw, Lookup(d, section)).Refused?
  {
    hide RewriteValue;
  }

  lemma StripRefusedAt(a: Adapters, s: Fields) returns (k: Key)
    requires StripRetiredFields(a, s).Refused?
    ensures CanonicalAt(a, s, k).Refused? && !ExtractorField(k)
  {
    hide RewritePolicies, RetireFields, OptionRewrite, RetiredAt, CanonicalAt, Lookup;
    if RetireFields(a, s).Refused? {
      k := RetireRefusedAt(a, s);
    } else {
      k := RewritePoliciesRefuse(a, RetireFields(a, s).value);
      RetireFieldsAt(a, s, k);
      RetiredOutcome(a, s, k);
    }
  }

  lemma RetireRefusedAt(a: Adapters, s: Fields) returns (k: Key)
    requires RetireFields(a, s).Refused?
    ensures CanonicalAt(a, s, k).Refused? && !ExtractorField(k)
  {
    hide RewriteValue, StripNames, FirstList;
    var d1 := StripHousekeeping(a, s);
    if d1.Refused? { return LINEAGE_GC; }
    var d2 := CanonicalizeCustomEndpoint(a, d1.value);
    if d2.Refused? { return API_KEY_CONFIG; }
    var d3 := RetireShadowLabel(a, d2.value);
    assert Lookup(d2.value, SHADOW_COMPARISON_JUDGE_PROMPT_VERSION) == Lookup(s, SHADOW_COMPARISON_JUDGE_PROMPT_VERSION);
    if d3.Refused? { return SHADOW_COMPARISON_JUDGE_PROMPT_VERSION; }
    assert Lookup(d3.value, EXTRACTION_PRESET) == Lookup(s, EXTRACTION_PRESET);
    return EXTRACTION_PRESET;
  }

  /** The conversion accepts a document exactly when every key's own rule does, and then the
      result is the document of those outcomes. */
  lemma Characterization(a: Adapters, d: Fields)
    ensures Canonicalize(a, d).Ok? <==> forall k :: CanonicalAt(a, d, k).Ok?
    ensures Canonicalize(a, d).Ok? ==>
              forall k :: CanonicalAt(a, d, k) == Ok(Lookup(Canonicalize(a, d).value, k))
  {
    hide Canonicalize, CanonicalAt, Lookup;
    if Canonicalize(a, d).Ok? {
      forall k
        ensures CanonicalAt(a, d, k) == Ok(Lookup(Canonicalize(a, d).value, k))
      {
        AcceptedAt(a, d, k);
      }
    } else {
      var k := RefusedAt(a, d);
    }
  }

  /** Documents whose keys all have the same outcome convert alike. */
  lemma SameOutcomes(a: Adapters, d: Fields, e: Fields)
    requires forall k :: SameOutcome(CanonicalAt(a, d, k), CanonicalAt(a, e, k))
    ensures SameOutcome(Canonicalize(a, d), Canonicalize(a, e))
  {
    hide Canonicalize, CanonicalAt, Lookup;
    Characterization(a, d);
    Characterization(a, e);
    if Canonicalize(a, d).Ok? {
      forall k
        ensures CanonicalAt(a, e, k).Ok?
        ensures Ok(Lookup(Canonicalize(a, d).value, k)) == CanonicalAt(a, e, k)
      {
        assert SameOutcome(CanonicalAt(a, d, k), CanonicalAt(a, e, k));
      }
      SameLookups(Canonicalize(a, d).value, Canonicalize(a, e).value);
    } else {
      var k :| CanonicalAt(a, d, k).Refused?;
      assert SameOutcome(CanonicalAt(a, d, k), CanonicalAt(a, e, k));
    }
  }
}
