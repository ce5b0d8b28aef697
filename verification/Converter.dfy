/** The converter as the code runs it: working copies whose keys are popped and assigned in
    loops over the rename tables. Each method is proved to compute the function of the same
    step, so every theorem about those functions is about these loops. */
module Converter {
  import opened Wrappers
  import opened Json
  import opened SectionRules
  import opened Canonicalizer
  import opened ConvertedExtractors
  import opened ConvertedDocument

  method MigrateDict(data: Fields, mapping: Renames) returns (renamed: Fields)
    ensures renamed == Migrate(data, mapping)
    ensures mapping.Acyclic() ==>
              forall k :: Lookup(renamed, k) == if mapping.Retires(k) then None else FirstSpelling(data, mapping, k)
  {
    renamed := data;
    var names := mapping;
    while names.Rename?
      invariant Migrate(renamed, names) == Migrate(data, mapping)
      decreases names
    {
      var former, current := names.former, names.current;
      if former in renamed {
        if current in renamed {
          renamed := renamed - {former};
        } else {
          var value := renamed[former];
          renamed := renamed - {former};
          renamed := renamed[current := value];
        }
      }
      names := names.rest;
    }
    if mapping.Acyclic() {
      forall k {
        MigrateLookup(data, mapping, k);
      }
    }
  }

  method NormalizeLegacyShape(data: Fields) returns (normalized: Fields)
    ensures normalized == NormalizeShape(data)
    ensures Lookup(normalized, PROFILE_EXTRACTOR_CONFIG) == SavedProfile(data)
    ensures Lookup(normalized, USER_PLAYBOOK_EXTRACTOR_CONFIG) == SavedPlaybook(data)
    ensures Lookup(normalized, AGENT_SUCCESS_CONFIG) == SavedSuccess(data)
    ensures PROFILE_EXTRACTOR_CONFIGS !in normalized && USER_PLAYBOOK_EXTRACTOR_CONFIGS !in normalized && PLAYBOOK_CONFIGS !in normalized
    ensures AGENT_FEEDBACK_CONFIGS !in normalized && AGENT_SUCCESS_CONFIGS !in normalized
    ensures forall k :: ListFormer(k) || ExtractorField(k) || Lookup(normalized, k) == Lookup(data, k)
  {
    normalized := data;
    var names := LIST_FIELDS;
    while names.Rename?
      invariant Singularize(normalized, names) == Singularize(data, LIST_FIELDS)
      decreases names
    {
      var former, current := names.former, names.current;
      if former in normalized {
        if current !in normalized {
          normalized := normalized[current := FirstEntry(normalized[former])];
        }
        normalized := normalized - {former};
      }
      names := names.rest;
    }
    hide NormalizeShape, FirstList, SavedProfile, SavedPlaybook, SavedSuccess;
    SavedIs(data);
    forall k { ShapeAt(data, k); }
    ShapeAt(data, PROFILE_EXTRACTOR_CONFIG);
    ShapeAt(data, USER_PLAYBOOK_EXTRACTOR_CONFIG);
    ShapeAt(data, AGENT_SUCCESS_CONFIG);
    ShapedKeys(data);
    assert normalized == NormalizeShape(data);
  }

  /** Custom values of retired cadence fields, over a table of such fields. */
  method HousekeepingConflicts(a: Adapters, data: Fields, retired: seq<(Key, Key)>) returns (conflicts: seq<(Key, Key)>)
    ensures forall entry :: entry in conflicts <==>
              entry in retired && HasSection(data, entry.0) && entry.1 in data[entry.0].fields
              && !a.dailyCadence(data[entry.0].fields[entry.1])
    ensures retired == [(LINEAGE_GC, POLL_INTERVAL_SECONDS)] ==> (conflicts == [] <==> StripHousekeeping(a, data).Ok?)
  {
    conflicts := [];
    for i := 0 to |retired|
      invariant forall entry :: entry in conflicts <==>
                  entry in retired[..i] && HasSection(data, entry.0) && entry.1 in data[entry.0].fields
                  && !a.dailyCadence(data[entry.0].fields[entry.1])
    {
      var (section, field) := retired[i];
      assert retired[..i + 1] == retired[..i] + [retired[i]];
      if HasSection(data, section) && field in data[section].fields && !a.dailyCadence(data[section].fields[field]) {
        conflicts := conflicts + [(section, field)];
      }
    }
    assert retired[..|retired|] == retired;
    if retired == [(LINEAGE_GC, POLL_INTERVAL_SECONDS)] {
      if conflicts != [] { assert conflicts[0] in conflicts; }
      assert (LINEAGE_GC, POLL_INTERVAL_SECONDS) in retired;
    }
  }

  method StripLegacyHousekeeping(a: Adapters, data: Fields) returns (r: Result<Fields>)
    ensures r == StripHousekeeping(a, data)
  {
    var retired := [(LINEAGE_GC, POLL_INTERVAL_SECONDS)];
    var conflicts := HousekeepingConflicts(a, data, retired);
    if conflicts != [] { return Refused(HousekeepingCadence); }
    var cleaned := data;
    var (section, field) := retired[0];
    if HasSection(data, section) && field in data[section].fields {
      cleaned := cleaned[section := Obj(data[section].fields - {field})];
    } else if section in data {
      assert data[section := data[section]] == data;
    }
    return Ok(cleaned);
  }

  method FoldUserSwitches(a: Adapters, data: Fields, policy: Fields) returns (r: Result<Fields>)
    requires forall k :: k in USER_FIELDS ==> Lookup(data, k) == Lookup(policy, k)
    ensures r == CanonicalizeUserSwitches(a, policy)
  {
    assert Lookup(data, OPTIMIZE_USER_PLAYBOOKS) == Lookup(policy, OPTIMIZE_USER_PLAYBOOKS);
    assert Lookup(data, AUTO_UPDATE_USER_PLAYBOOKS) == Lookup(policy, AUTO_UPDATE_USER_PLAYBOOKS);
    var normalized := policy;
    if OPTIMIZE_USER_PLAYBOOKS in data || AUTO_UPDATE_USER_PLAYBOOKS in data {
      var optimize := a.boolean(Get(data, OPTIMIZE_USER_PLAYBOOKS, Bool(false)));
      var adopt := a.boolean(Get(data, AUTO_UPDATE_USER_PLAYBOOKS, Bool(false)));
      if optimize.None? || adopt.None? { return Refused(OptimizerUserSwitches); }
      if USER_PLAYBOOKS_ENABLED !in normalized {
        normalized := normalized[USER_PLAYBOOKS_ENABLED := Bool(optimize.value && adopt.value)];
      }
      normalized := normalized - {OPTIMIZE_USER_PLAYBOOKS};
      normalized := normalized - {AUTO_UPDATE_USER_PLAYBOOKS};
      assert CanonicalizeUserSwitches(a, policy).Ok?;
      assert normalized == CanonicalizeUserSwitches(a, policy).value;
    }
    return Ok(normalized);
  }

  method LimitMerges(a: Adapters, data: Fields, policy: Fields) returns (r: Result<Fields>)
    requires Lookup(data, USE_MERGE) == Lookup(policy, USE_MERGE)
    requires Lookup(data, MAX_MERGE_INVOCATIONS) == Lookup(policy, MAX_MERGE_INVOCATIONS)
    ensures r == CanonicalizeMerge(a, policy)
  {
    var normalized := policy;
    if USE_MERGE in data {
      var enabled := a.boolean(data[USE_MERGE]);
      var limit := a.nonNegative(Get(data, MAX_MERGE_INVOCATIONS, Int(MAX_MERGE_DEFAULT)));
      if enabled.None? || limit.None? { return Refused(MergeLimit); }
      normalized := normalized - {USE_MERGE};
      normalized := normalized[MAX_MERGE_INVOCATIONS := Int(if enabled.value then limit.value else 0)];
    }
    return Ok(normalized);
  }

  lemma TransportKeeps(a: Adapters, f: Fields, k: Key)
    requires k != SCHEDULER_JITTER_SECONDS && k !in REPLAY_FIELDS
    ensures RetireJitter(a, f).Ok? ==> Lookup(RetireJitter(a, f).value, k) == Lookup(f, k)
    ensures RetireReplay(a, f).Ok? ==> Lookup(RetireReplay(a, f).value, k) == Lookup(f, k)
  {
  }

  lemma SwitchesKeep(a: Adapters, f: Fields, k: Key)
    requires k != USER_PLAYBOOKS_ENABLED && k != AGENT_PLAYBOOKS_ENABLED && k !in USER_FIELDS && k !in AGENT_FIELDS
    ensures CanonicalizeUserSwitches(a, f).Ok? ==> Lookup(CanonicalizeUserSwitches(a, f).value, k) == Lookup(f, k)
    ensures CanonicalizeAgentSwitches(a, f).Ok? ==> Lookup(CanonicalizeAgentSwitches(a, f).value, k) == Lookup(f, k)
  {
  }

  /** The old switches and the merge limit are read from the saved policy while the working
      copy is already losing keys; the steps before them leave those keys alone. */
  method NormalizeOptimizerPolicy(a: Adapters, data: Fields) returns (r: Result<Fields>)
    ensures r == NormalizeOptimizer(a, data)
  {
    hide CheckScheduling, RetireJitter, RetireReplay, CanonicalizeUserSwitches, CanonicalizeAgentSwitches,
      CanonicalizeMerge, RetireStopScore, CanonicalizeWorkBudget, Lookup;
    forall f, k | k == USE_MERGE || k == MAX_MERGE_INVOCATIONS || k in USER_FIELDS
      ensures RetireJitter(a, f).Ok? ==> Lookup(RetireJitter(a, f).value, k) == Lookup(f, k)
      ensures RetireReplay(a, f).Ok? ==> Lookup(RetireReplay(a, f).value, k) == Lookup(f, k)
    {
      TransportKeeps(a, f, k);
    }
    forall f, k | k == USE_MERGE || k == MAX_MERGE_INVOCATIONS
      ensures CanonicalizeUserSwitches(a, f).Ok? ==> Lookup(CanonicalizeUserSwitches(a, f).value, k) == Lookup(f, k)
      ensures CanonicalizeAgentSwitches(a, f).Ok? ==> Lookup(CanonicalizeAgentSwitches(a, f).value, k) == Lookup(f, k)
    {
      SwitchesKeep(a, f, k);
    }
    var normalized :- RetireJitter(a, data);
    normalized :- RetireReplay(a, normalized);
    if !CheckScheduling(a, data) { return Refused(OptimizerScheduling); }
    normalized :- FoldUserSwitches(a, data, normalized);
    normalized :- CanonicalizeAgentSwitches(a, normalized);
    normalized :- LimitMerges(a, data, normalized);
    normalized :- RetireStopScore(a, normalized);
    r := CanonicalizeWorkBudget(a, normalized);
  }

  /** Retired names leave one extractor section, singular or still a list. */
  method StripNamesInPlace(payload: Fields, field: Key, current: Key) returns (stripped: Fields)
    ensures stripped == StripNamesAt(payload, field, current)
  {
    stripped := payload;
    if HasSection(payload, field) {
      stripped := payload[field := StripEntry(current, payload[field])];
    } else if field in payload && payload[field].Arr? {
      var items := payload[field].items;
      var kept := [];
      for i := 0 to |items|
        invariant |kept| == i
        invariant forall j :: 0 <= j < i ==> kept[j] == StripEntry(current, items[j])
      {
        kept := kept + [StripEntry(current, items[i])];
      }
      assert kept == StripEntries(current, items);
      stripped := payload[field := Arr(kept)];
    } else if field in payload {
      assert payload[field := payload[field]] == payload;
    }
  }

  method StripExtractorNamesInPlace(payload: Fields) returns (stripped: Fields)
    ensures stripped == StripExtractorNames(payload)
  {
    hide StripNamesAt;
    stripped := payload;
    var singular := [PROFILE_EXTRACTOR_CONFIG, USER_PLAYBOOK_EXTRACTOR_CONFIG, AGENT_SUCCESS_CONFIG];
    for i := 0 to 3
      invariant i == 0 ==> stripped == payload
      invariant i == 1 ==> stripped == StripNamesAt(payload, singular[0], singular[0])
      invariant i == 2 ==> stripped == StripNamesAt(StripNamesAt(payload, singular[0], singular[0]), singular[1], singular[1])
      invariant i == 3 ==>
                  stripped == StripNamesAt(StripNamesAt(StripNamesAt(payload, singular[0], singular[0]), singular[1], singular[1]),
                                           singular[2], singular[2])
    {
      stripped := StripNamesInPlace(stripped, singular[i], singular[i]);
    }
    var names := LIST_FIELDS;
    while names.Rename?
      invariant StripListNames(stripped, names) == StripExtractorNames(payload)
      decreases names
    {
      stripped := StripNamesInPlace(stripped, names.former, names.current);
      names := names.rest;
    }
  }

  method StripRetired(a: Adapters, data: Fields) returns (r: Result<Fields>)
    ensures r == StripRetiredFields(a, data)
  {
    hide CanonicalizeCustomEndpoint, RewriteSection, StripExtractorNames, StripHousekeeping, Migrate, FillNull, RetireShadowLabel, RetireAzureDeployment;
    var payload :- StripLegacyHousekeeping(a, data);
    payload :- CanonicalizeCustomEndpoint(a, payload);
    payload :- RetireShadowLabel(a, payload);
    if EXTRACTION_PRESET in payload {
      var saved := payload[EXTRACTION_PRESET];
      payload := MigrateDict(payload, ROOT_NAMES);
      payload := payload - {EXTRACTION_PRESET};
      match a.preset(saved) {
        case None => return Refused(PresetName);
        case Some(None) =>
        case Some(Some(preset)) =>
          payload := FillNull(payload, WINDOW_SIZE, PresetWindow(preset));
          payload := FillNull(payload, STRIDE_SIZE, PresetStride(preset));
      }
    }
    payload := RetireAzureDeployment(payload);
    payload :- RewriteSection(a, payload, PENDING_TOOL_CALL_CONFIG, ToPending);
    payload :- RewriteSection(a, payload, PLAYBOOK_OPTIMIZER_CONFIG, ToOptimizer);
    payload :- RewriteSection(a, payload, RETRIEVAL_FLOOR, ToFloor);
    payload :- RewriteSection(a, payload, LINEAGE_GC, ToLineage(false));
    payload :- RewriteSection(a, payload, GOVERNANCE_RETENTION, ToAudit);
    payload := payload - {SHADOW_MODE_ENABLED};
    payload := StripExtractorNamesInPlace(payload);
    return Ok(payload);
  }

  method RespellStorage(fields: Fields) returns (r: Result<Fields>)
    ensures r == TagStorage(fields)
  {
    var storage := fields;
    var spellings := [(STORAGE_TYPE, TYPE), (SCHEMA_NAME, SCHEMA)];
    for i := 0 to 2
      invariant i == 0 ==> storage == fields
      invariant i == 1 ==> Respell(fields, STORAGE_TYPE, TYPE) == Ok(storage)
      invariant i == 2 ==> Respell(fields, STORAGE_TYPE, TYPE).Ok?
                           && Respell(Respell(fields, STORAGE_TYPE, TYPE).value, SCHEMA_NAME, SCHEMA) == Ok(storage)
    {
      var (former, current) := spellings[i];
      if former in storage {
        if current in storage { return Refused(StorageSpelling); }
        var value := storage[former];
        storage := storage - {former};
        storage := storage[current := value];
      }
    }
    storage := NormalizeBackend(storage);
    if TYPE !in storage {
      storage := storage[TYPE := if MANAGED_BY in storage then Str("supabase") else Str("sqlite")];
    }
    if storage[TYPE] == Str("supabase") {
      storage := storage - HTTP_SELECTORS;
    }
    return Ok(storage);
  }

  /** The whole conversion of a saved document. */
  method ConvertDocument(a: Adapters, data: Fields) returns (r: Result<Fields>)
    ensures r == CanonicalizeDocument(a, data)
    ensures r.Ok? ==> Reads(a, data, 13, r.value) && a.schemaOk(r.value)
    ensures r.Refused? && Convertible(a, data, 13) ==> exists e :: Reads(a, data, 13, e) && !a.schemaOk(e)
  {
    hide StripRetiredFields, RewriteSection, TagStorage, NormalizeShape, Migrate, Reads, Convertible;
    CurrentConversionIs(a, data);
    var payload := NormalizeLegacyShape(data);
    payload :- StripRetired(a, payload);
    payload := MigrateDict(payload, ROOT_NAMES);
    payload :- RewriteSection(a, payload, PROFILE_EXTRACTOR_CONFIG, ToProfile);
    payload :- RewriteSection(a, payload, USER_PLAYBOOK_EXTRACTOR_CONFIG, ToPlaybook);
    assert Canonicalize(a, data) == Ok(payload);
    if HasSection(payload, STORAGE_CONFIG) {
      var storage :- RespellStorage(payload[STORAGE_CONFIG].fields);
      payload := payload[STORAGE_CONFIG := Obj(storage)];
    }
    if !a.schemaOk(payload) { return Refused(InvalidSchema); }
    return Ok(payload);
  }
}
