/** The normal form of a saved document: no retired or aliased name in any section. The
    converter's outputs are normal, and the normal documents are exactly those it leaves
    alone, so converting twice is converting once. */
module CanonicalForm {
  import opened Wrappers
  import opened Json
  import opened SectionRules
  import opened Canonicalizer
  import OptimizerPolicy

  ghost predicate Lacks(f: Fields, keys: set<Key>) {
    forall k :: k in keys ==> k !in f
  }

  const AGGREGATOR_RETIRED: set<Key> := {MIN_FEEDBACK_THRESHOLD, REFRESH_COUNT, SIMILARITY_THRESHOLD}

  const PLAYBOOK_RETIRED: set<Key> :=
    {FEEDBACK_DEFINITION_PROMPT, PLAYBOOK_DEFINITION_PROMPT, FEEDBACK_AGGREGATOR_CONFIG,
     PLAYBOOK_AGGREGATOR_CONFIG, PLAYBOOK_NAME, FEEDBACK_NAME}

  /** A section no rule of its kind has anything left to do to. */
  ghost predicate NormalSection(a: Adapters, rw: Rewrite, f: Fields) {
    match rw
    case ToFloor => Lacks(f, FLOOR_FIELDS)
    case ToAudit => Lacks(f, AUDIT_FIELDS)
    case ToLineage(_) => Lacks(f, {ENABLED})
    case ToPending =>
      && Lacks(f, TIMING_FIELDS + {ENABLED, MAX_PENDING_FOLLOWUPS_PER_SCOPE})
      && (forall name :: HasSection(Section(f, TOOL_OVERRIDES), name) ==>
                           MAX_PENDING_FOLLOWUPS_PER_SCOPE !in Section(f, TOOL_OVERRIDES)[name].fields)
    case ToOptimizer => (forall k :: k in f ==> !OptimizerPolicy.Retired(k)) && CheckScheduling(a, f)
    case ToProfile => Lacks(f, {PROFILE_CONTENT_DEFINITION_PROMPT} + OVERRIDE_FIELDS)
    case ToPlaybook =>
      && Lacks(f, PLAYBOOK_RETIRED + OVERRIDE_FIELDS)
      && Lacks(Section(f, AGGREGATION_CONFIG), AGGREGATOR_RETIRED)
      && Lacks(Section(f, DEDUPLICATION_CONFIG), {STRATEGY})
    case _ => true
  }

  ghost predicate Documented(rw: Rewrite) {
    rw.ToFloor? || rw.ToAudit? || rw == ToLineage(false) || rw.ToPending? || rw.ToOptimizer? || rw.ToProfile? || rw.ToPlaybook?
  }

  ghost predicate NormalValue(a: Adapters, rw: Rewrite, j: Json) {
    j.Obj? ==> NormalSection(a, rw, j.fields)
  }

  /** An extractor entry without the names extractors no longer carry. */
  ghost predicate NormalEntry(current: Key, j: Json) {
    j.Obj? ==>
      && Lacks(j.fields, RetiredNames(current))
      && (current == USER_PLAYBOOK_EXTRACTOR_CONFIG ==>
            Lacks(Section(j.fields, DEDUPLICATION_CONFIG), {MAX_UNIFIED_CONTENT_CHARS}))
  }

  ghost predicate NormalNames(current: Key, j: Json) {
    && (j.Obj? ==> NormalEntry(current, j))
    && (j.Arr? ==> forall i :: 0 <= i < |j.items| ==> NormalEntry(current, j.items[i]))
  }

  ghost predicate NormalProviders(j: Json) {
    j.Obj? ==>
      && Lacks(Section(j.fields, CUSTOM_ENDPOINT), {MODEL})
      && Lacks(Section(Section(j.fields, OPENAI), AZURE_CONFIG), {DEPLOYMENT_NAME})
  }

  ghost predicate NormalAt(a: Adapters, e: Fields, k: Key) {
    if k in e then
      && !RootFormer(k) && !ListFormer(k) && k != SHADOW_MODE_ENABLED
      && k != SHADOW_COMPARISON_JUDGE_PROMPT_VERSION && k != EXTRACTION_PRESET
      && (k == API_KEY_CONFIG ==> NormalProviders(e[k]))
      && (k == LINEAGE_GC && e[k].Obj? ==> Lacks(e[k].fields, {POLL_INTERVAL_SECONDS}))
      && (PolicySection(k) ==> NormalValue(a, PolicyRewrite(k), e[k]))
      && (ExtractorField(k) ==> NormalNames(k, e[k]))
      && (k == PROFILE_EXTRACTOR_CONFIG ==> NormalValue(a, ToProfile, e[k]))
      && (k == USER_PLAYBOOK_EXTRACTOR_CONFIG ==> NormalValue(a, ToPlaybook, e[k]))
    else true
  }

  ghost predicate NormalForm(a: Adapters, e: Fields) {
    forall k :: NormalAt(a, e, k)
  }

  // ----- sections: outputs are normal ------------------------------------------------------

  lemma OverridesNormal(f: Fields, name: Key)
    requires HasSection(Section(StripFollowups(f), TOOL_OVERRIDES), name)
    ensures MAX_PENDING_FOLLOWUPS_PER_SCOPE !in Section(StripFollowups(f), TOOL_OVERRIDES)[name].fields
  {
  }

  lemma MigratedLacks(f: Fields, names: Renames, k: Key)
    requires names.Acyclic()
    ensures names.Retires(k) ==> k !in Migrate(f, names)
    ensures k !in f && !names.Targets(k) ==> k !in Migrate(f, names)
    ensures k in f && !names.Retires(k) ==> k in Migrate(f, names) && Migrate(f, names)[k] == f[k]
  {
    MigrateLookup(f, names, k);
    if k !in f && !names.Targets(k) {
      NoSpelling(f, names, k);
    }
  }

  lemma ProfileOutput(f: Fields, k: Key)
    ensures k == PROFILE_CONTENT_DEFINITION_PROMPT || k in OVERRIDE_FIELDS ==> k !in NormalizeProfile(f)
    ensures k == EXTRACTOR_NAME && k !in f ==> k !in NormalizeProfile(f)
  {
    RootNamesAcyclic();
    MigratedLacks(f, PROFILE_NAMES, k);
    MigratedLacks(Migrate(f, PROFILE_NAMES), OVERRIDE_NAMES, k);
  }

  lemma RenamedLacks(f: Fields, k: Key)
    ensures k in PLAYBOOK_RETIRED + OVERRIDE_FIELDS ==> k !in Migrate(Migrate(f, PLAYBOOK_NAMES), OVERRIDE_NAMES)
  {
    hide Migrate;
    RootNamesAcyclic();
    MigratedLacks(f, PLAYBOOK_NAMES, k);
    MigratedLacks(Migrate(f, PLAYBOOK_NAMES), OVERRIDE_NAMES, k);
  }

  lemma NamelessStays(f: Fields)
    requires Lacks(f, {EXTRACTOR_NAME, PLAYBOOK_NAME, FEEDBACK_NAME})
    ensures EXTRACTOR_NAME !in Migrate(Migrate(f, PLAYBOOK_NAMES), OVERRIDE_NAMES)
  {
    hide Migrate;
    RootNamesAcyclic();
    MigrateLookup(f, PLAYBOOK_NAMES, EXTRACTOR_NAME);
    assert FirstSpelling(f, PLAYBOOK_NAMES, EXTRACTOR_NAME).None?;
    MigratedLacks(Migrate(f, PLAYBOOK_NAMES), OVERRIDE_NAMES, EXTRACTOR_NAME);
  }

  /** The last two playbook steps add no names. */
  lemma AggregatedKeys(f: Fields, k: Key)
    requires RetireConsolidationStrategy(MigrateAggregator(f)).Ok?
    ensures k in RetireConsolidationStrategy(MigrateAggregator(f)).value <==> k in f
  {
    hide Migrate;
  }

  lemma PlaybookOutput(f: Fields, k: Key)
    requires NormalizePlaybook(f).Ok?
    ensures k in PLAYBOOK_RETIRED + OVERRIDE_FIELDS ==> k !in NormalizePlaybook(f).value
    ensures k == EXTRACTOR_NAME && Lacks(f, {EXTRACTOR_NAME, PLAYBOOK_NAME, FEEDBACK_NAME}) ==> k !in NormalizePlaybook(f).value
  {
    hide Migrate, MigrateAggregator, RetireConsolidationStrategy, Lacks;
    AggregatedKeys(Migrate(Migrate(f, PLAYBOOK_NAMES), OVERRIDE_NAMES), k);
    RenamedLacks(f, k);
    if Lacks(f, {EXTRACTOR_NAME, PLAYBOOK_NAME, FEEDBACK_NAME}) {
      NamelessStays(f);
    }
  }

  lemma PlaybookInner(f: Fields)
    requires NormalizePlaybook(f).Ok?
    ensures Lacks(Section(NormalizePlaybook(f).value, AGGREGATION_CONFIG), AGGREGATOR_RETIRED)
    ensures Lacks(Section(NormalizePlaybook(f).value, DEDUPLICATION_CONFIG), {STRATEGY})
    ensures Lacks(Section(f, DEDUPLICATION_CONFIG), {MAX_UNIFIED_CONTENT_CHARS}) ==>
              Lacks(Section(NormalizePlaybook(f).value, DEDUPLICATION_CONFIG), {MAX_UNIFIED_CONTENT_CHARS})
  {
    hide Migrate;
    RootNamesAcyclic();
    var g := Migrate(Migrate(f, PLAYBOOK_NAMES), OVERRIDE_NAMES);
    MigratedLacks(f, PLAYBOOK_NAMES, DEDUPLICATION_CONFIG);
    MigratedLacks(Migrate(f, PLAYBOOK_NAMES), OVERRIDE_NAMES, DEDUPLICATION_CONFIG);
    if HasSection(g, AGGREGATION_CONFIG) {
      forall k | k in AGGREGATOR_RETIRED
        ensures k !in Migrate(g[AGGREGATION_CONFIG].fields, AGGREGATOR_NAMES)
      {
        MigratedLacks(g[AGGREGATION_CONFIG].fields, AGGREGATOR_NAMES, k);
      }
    }
  }

  lemma OptimizerOutput(a: Adapters, f: Fields)
    requires NormalizeOptimizer(a, f).Ok?
    ensures NormalSection(a, ToOptimizer, NormalizeOptimizer(a, f).value)
  {
    hide NormalizeOptimizer;
    var g := NormalizeOptimizer(a, f).value;
    OptimizerPolicy.Closed(a, f);
    forall k | k in g
      ensures !OptimizerPolicy.Retired(k)
    {
      assert Lookup(g, k) == OptimizerPolicy.At(a, f, k);
    }
    assert Lookup(g, ABORT_COOLDOWN_THRESHOLD) == OptimizerPolicy.At(a, f, ABORT_COOLDOWN_THRESHOLD);
    assert Lookup(g, COOLDOWN_AFTER_ABORTS_SECONDS) == OptimizerPolicy.At(a, f, COOLDOWN_AFTER_ABORTS_SECONDS);
    assert Restrict(g, SCHEDULING_FIELDS) == Restrict(f, SCHEDULING_FIELDS);
    OptimizerPolicy.SchedulingIs(a, f);
  }

  /** What each section rule produces is normal. */
  lemma SectionOutput(a: Adapters, rw: Rewrite, f: Fields)
    requires Documented(rw) && RewriteFields(a, rw, f).Ok?
    ensures NormalSection(a, rw, RewriteFields(a, rw, f).value)
  {
    hide NormalizeOptimizer, NormalizePlaybook, NormalizeProfile;
    match rw
    case ToOptimizer => OptimizerOutput(a, f);
    case ToProfile =>
      forall k { ProfileOutput(f, k); }
    case ToPlaybook =>
      forall k { PlaybookOutput(f, k); }
      PlaybookInner(f);
    case ToPending =>
      PendingOutput(a, f);
    case _ =>
  }

  lemma PendingOutput(a: Adapters, f: Fields)
    requires NormalizePending(a, f).Ok?
    ensures NormalSection(a, ToPending, NormalizePending(a, f).value)
  {
    var g := StripPendingTiming(a, f).value;
    var h := StripFollowups(g);
    var r := NormalizePending(a, f).value;
    assert Section(r, TOOL_OVERRIDES) == Section(h, TOOL_OVERRIDES);
    forall name | HasSection(Section(r, TOOL_OVERRIDES), name)
      ensures MAX_PENDING_FOLLOWUPS_PER_SCOPE !in Section(r, TOOL_OVERRIDES)[name].fields
    {
      OverridesNormal(g, name);
    }
  }

  // ----- sections: normal ones are left alone -------------------------------------------------

  lemma {:induction false} MigrateFixed(f: Fields, names: Renames)
    requires names.Acyclic()
    requires forall k :: names.Retires(k) ==> k !in f
    ensures Migrate(f, names) == f
    decreases names
  {
    if names.Rename? {
      assert names.Retires(names.former);
      assert forall k :: names.rest.Retires(k) ==> names.Retires(k);
      MigrateFixed(f, names.rest);
    }
  }

  lemma OptimizerFixed(a: Adapters, f: Fields)
    requires NormalSection(a, ToOptimizer, f)
    ensures NormalizeOptimizer(a, f) == Ok(f)
  {
    hide NormalizeOptimizer;
    OptimizerPolicy.Closed(a, f);
    OptimizerPolicy.SchedulingIs(a, f);
    SameLookups(NormalizeOptimizer(a, f).value, f);
  }

  lemma PendingFixed(a: Adapters, f: Fields)
    requires NormalSection(a, ToPending, f)
    ensures NormalizePending(a, f) == Ok(f)
  {
    assert f - TIMING_FIELDS == f;
    assert f - {MAX_PENDING_FOLLOWUPS_PER_SCOPE} == f;
    if HasSection(f, TOOL_OVERRIDES) {
      var overrides := f[TOOL_OVERRIDES].fields;
      forall name | name in overrides
        ensures StripOverride(overrides[name]) == overrides[name]
      {
        if overrides[name].Obj? {
          assert HasSection(Section(f, TOOL_OVERRIDES), name);
          assert overrides[name].fields - {MAX_PENDING_FOLLOWUPS_PER_SCOPE} == overrides[name].fields;
        }
      }
      assert (map name | name in overrides :: StripOverride(overrides[name])) == overrides;
      assert f[TOOL_OVERRIDES := Obj(overrides)] == f;
    }
  }

  lemma PlaybookFixed(f: Fields)
    requires Lacks(f, PLAYBOOK_RETIRED + OVERRIDE_FIELDS)
    requires Lacks(Section(f, AGGREGATION_CONFIG), AGGREGATOR_RETIRED)
    requires Lacks(Section(f, DEDUPLICATION_CONFIG), {STRATEGY})
    ensures NormalizePlaybook(f) == Ok(f)
  {
    RootNamesAcyclic();
    MigrateFixed(f, PLAYBOOK_NAMES);
    MigrateFixed(f, OVERRIDE_NAMES);
    if HasSection(f, AGGREGATION_CONFIG) {
      MigrateFixed(f[AGGREGATION_CONFIG].fields, AGGREGATOR_NAMES);
      assert f[AGGREGATION_CONFIG := f[AGGREGATION_CONFIG]] == f;
    }
    assert MigrateAggregator(f) == f;
  }

  lemma ProfileFixed(f: Fields)
    requires Lacks(f, {PROFILE_CONTENT_DEFINITION_PROMPT} + OVERRIDE_FIELDS)
    ensures NormalizeProfile(f) == f
  {
    RootNamesAcyclic();
    MigrateFixed(f, PROFILE_NAMES);
    MigrateFixed(f, OVERRIDE_NAMES);
  }

  /** A normal section passes its rule unchanged. */
  lemma SectionFixed(a: Adapters, rw: Rewrite, f: Fields)
    requires Documented(rw) && NormalSection(a, rw, f)
    ensures RewriteFields(a, rw, f) == Ok(f)
  {
    hide NormalizeOptimizer, NormalizePlaybook, NormalizeProfile, NormalizePending;
    match rw
    case ToOptimizer => OptimizerFixed(a, f);
    case ToProfile => ProfileFixed(f);
    case ToPlaybook => PlaybookFixed(f);
    case ToPending => PendingFixed(a, f);
    case _ =>
  }

  // ----- extractor names -----------------------------------------------------------------------

  lemma StripEntryNormal(current: Key, j: Json)
    ensures NormalEntry(current, StripEntry(current, j))
  {
    if j.Obj? {
      var f := j.fields - RetiredNames(current);
      if current == USER_PLAYBOOK_EXTRACTOR_CONFIG && HasSection(f, DEDUPLICATION_CONFIG) {
        assert DEDUPLICATION_CONFIG !in RetiredNames(current);
      }
    }
  }

  lemma StripNamesNormal(current: Key, j: Json)
    ensures NormalNames(current, StripNames(current, j))
  {
    hide StripEntry, NormalEntry;
    match j
    case Obj(f) =>
      StripEntryNormal(current, j);
      StripEntryShape(current, j);
    case Arr(items) => forall i | 0 <= i < |items| { StripEntryNormal(current, items[i]); }
    case _ =>
  }

  lemma StripEntryShape(current: Key, j: Json)
    ensures StripEntry(current, j).Obj? == j.Obj?
    ensures StripEntry(current, j).Arr? == j.Arr?
  {
  }

  lemma StripEntryFixed(current: Key, j: Json)
    requires NormalEntry(current, j)
    ensures StripEntry(current, j) == j
  {
    if j.Obj? {
      assert j.fields - RetiredNames(current) == j.fields;
      if current == USER_PLAYBOOK_EXTRACTOR_CONFIG && HasSection(j.fields, DEDUPLICATION_CONFIG) {
        var policy := j.fields[DEDUPLICATION_CONFIG].fields;
        assert policy - {MAX_UNIFIED_CONTENT_CHARS} == policy;
        assert j.fields[DEDUPLICATION_CONFIG := Obj(policy)] == j.fields;
      }
    }
  }

  lemma StripNamesFixed(current: Key, j: Json)
    requires NormalNames(current, j)
    ensures StripNames(current, j) == j
  {
    hide StripEntry, NormalEntry;
    match j
    case Obj(f) => StripEntryFixed(current, j);
    case Arr(items) =>
      forall i | 0 <= i < |items|
        ensures StripEntries(current, items)[i] == items[i]
      {
        StripEntryFixed(current, items[i]);
      }
    case _ =>
  }

  lemma ProfileNames(f: Fields)
    requires NormalEntry(PROFILE_EXTRACTOR_CONFIG, Obj(f))
    ensures NormalEntry(PROFILE_EXTRACTOR_CONFIG, Obj(NormalizeProfile(f)))
  {
    hide NormalizeProfile;
    ProfileOutput(f, EXTRACTOR_NAME);
  }

  lemma PlaybookKeepsNames(f: Fields)
    requires NormalEntry(USER_PLAYBOOK_EXTRACTOR_CONFIG, Obj(f)) && NormalizePlaybook(f).Ok?
    ensures NormalEntry(USER_PLAYBOOK_EXTRACTOR_CONFIG, Obj(NormalizePlaybook(f).value))
  {
    hide NormalizePlaybook;
    forall k { PlaybookOutput(f, k); }
    PlaybookInner(f);
  }

  // ----- documents -------------------------------------------------------------------------------

  lemma ValueOutput(a: Adapters, rw: Rewrite, o: Option<Json>)
    requires Documented(rw) && OptionRewrite(a, rw, o).Ok?
    ensures OptionRewrite(a, rw, o).value.Some? ==> NormalValue(a, rw, OptionRewrite(a, rw, o).value.value)
  {
    hide RewriteFields, NormalSection;
    if o.Some? && o.value.Obj? {
      SectionOutput(a, rw, o.value.fields);
    }
  }

  lemma ValueFixed(a: Adapters, rw: Rewrite, j: Json)
    requires Documented(rw) && NormalValue(a, rw, j)
    ensures RewriteValue(a, rw, j) == Ok(j)
  {
    hide RewriteFields, NormalSection;
    if j.Obj? {
      SectionFixed(a, rw, j.fields);
    }
  }

  lemma ExtractorOutput(a: Adapters, d: Fields, k: Key, j: Json)
    requires ExtractorField(k) && CanonicalAt(a, d, k) == Ok(Some(j))
    ensures NormalNames(k, j)
    ensures k == PROFILE_EXTRACTOR_CONFIG ==> NormalValue(a, ToProfile, j)
    ensures k == USER_PLAYBOOK_EXTRACTOR_CONFIG ==> NormalValue(a, ToPlaybook, j)
  {
    hide FirstList, StripNames, NormalEntry, NormalSection, NormalizeProfile, NormalizePlaybook;
    var source := FirstList(d, LIST_FIELDS, k);
    assert Extractor(d, k).Some?;
    StripNamesNormal(k, source.value);
    if k == PROFILE_EXTRACTOR_CONFIG {
      ValueOutput(a, ToProfile, Extractor(d, k));
      if StripNames(k, source.value).Obj? {
        ProfileNames(StripNames(k, source.value).fields);
      }
    } else if k == USER_PLAYBOOK_EXTRACTOR_CONFIG {
      ValueOutput(a, ToPlaybook, Extractor(d, k));
      if StripNames(k, source.value).Obj? {
        PlaybookKeepsNames(StripNames(k, source.value).fields);
      }
    }
  }

  lemma ProvidersOutput(j: Json)
    ensures NormalProviders(ProviderKeys(j))
  {
    if j.Obj? {
      var keys := WithoutEndpointModel(j.fields);
      assert OPENAI != CUSTOM_ENDPOINT;
    }
  }

  lemma ProvidersFixed(j: Json)
    requires NormalProviders(j)
    ensures ProviderKeys(j) == j
  {
    if j.Obj? && HasSection(j.fields, CUSTOM_ENDPOINT) {
      var endpoint := j.fields[CUSTOM_ENDPOINT].fields;
      assert Section(j.fields, CUSTOM_ENDPOINT) == endpoint;
      assert endpoint - {MODEL} == endpoint;
      assert j.fields[CUSTOM_ENDPOINT := Obj(endpoint)] == j.fields;
    }
  }

  lemma LineageOutput(a: Adapters, j: Json, o: Option<Json>)
    requires StripCadence(a, j).Ok? && OptionRewrite(a, ToLineage(false), Some(StripCadence(a, j).value)) == Ok(o)
    ensures o.Some? && (o.value.Obj? ==> Lacks(o.value.fields, {POLL_INTERVAL_SECONDS, ENABLED}))
  {
  }

  /** Every key of a converted document is normal. */
  lemma OutputAt(a: Adapters, d: Fields, k: Key)
    requires Canonicalize(a, d).Ok?
    ensures NormalAt(a, Canonicalize(a, d).value, k)
  {
    hide Canonicalize, RewriteFields, StripNames, NormalSection, NormalNames, NormalProviders, StripCadence, FirstList, ProviderKeys;
    var e := Canonicalize(a, d).value;
    Characterization(a, d);
    assert CanonicalAt(a, d, k) == Ok(Lookup(e, k));
    if k in e {
      if ExtractorField(k) {
        ExtractorOutput(a, d, k, e[k]);
      } else if k == LINEAGE_GC {
        LineageOutput(a, d[k], Some(e[k]));
        ValueOutput(a, ToLineage(false), Some(StripCadence(a, d[k]).value));
      } else if PolicySection(k) {
        ValueOutput(a, PolicyRewrite(k), Lookup(d, k));
      } else if k == API_KEY_CONFIG {
        ProvidersOutput(d[k]);
      }
    }
  }

  lemma NoEndpointModel(a: Adapters, e: Fields)
    requires NormalAt(a, e, API_KEY_CONFIG)
    ensures !HasEndpointModel(e)
  {
  }

  /** A normal document has itself as the outcome at every key. */
  lemma FixedAt(a: Adapters, e: Fields, k: Key)
    requires NormalForm(a, e)
    ensures CanonicalAt(a, e, k) == Ok(Lookup(e, k))
  {
    hide RewriteFields, StripNames, NormalSection, NormalNames, NormalProviders, FirstList, ProviderKeys, HasEndpointModel;
    assert NormalAt(a, e, k) && NormalAt(a, e, API_KEY_CONFIG) && NormalAt(a, e, EXTRACTION_PRESET);
    NoEndpointModel(a, e);
    if ExtractorField(k) {
      NoLists(a, e, k);
      if k in e {
        StripNamesFixed(k, e[k]);
        if k == PROFILE_EXTRACTOR_CONFIG { ValueFixed(a, ToProfile, e[k]); }
        if k == USER_PLAYBOOK_EXTRACTOR_CONFIG { ValueFixed(a, ToPlaybook, e[k]); }
      }
    } else if GeometryField(k) {
      assert NormalAt(a, e, BATCH_SIZE) && NormalAt(a, e, BATCH_INTERVAL);
      assert NormalAt(a, e, EXTRACTION_WINDOW_SIZE) && NormalAt(a, e, EXTRACTION_WINDOW_STRIDE);
    } else if k in e {
      if PolicySection(k) { ValueFixed(a, PolicyRewrite(k), e[k]); }
      if k == API_KEY_CONFIG { ProvidersFixed(e[k]); }
    }
  }

  lemma NoLists(a: Adapters, e: Fields, k: Key)
    requires NormalForm(a, e) && ExtractorField(k)
    ensures FirstList(e, LIST_FIELDS, k) == Lookup(e, k)
  {
    assert NormalAt(a, e, PROFILE_EXTRACTOR_CONFIGS) && NormalAt(a, e, USER_PLAYBOOK_EXTRACTOR_CONFIGS);
    assert NormalAt(a, e, PLAYBOOK_CONFIGS) && NormalAt(a, e, AGENT_FEEDBACK_CONFIGS) && NormalAt(a, e, AGENT_SUCCESS_CONFIGS);
  }

  /** The documents the converter leaves alone are exactly the normal ones. */
  lemma FixedIffNormal(a: Adapters, e: Fields)
    ensures Canonicalize(a, e) == Ok(e) <==> NormalForm(a, e)
  {
    hide Canonicalize, CanonicalAt, NormalAt, Lookup;
    if NormalForm(a, e) {
      forall k { FixedAt(a, e, k); }
      Characterization(a, e);
      SameLookups(Canonicalize(a, e).value, e);
    }
    if Canonicalize(a, e) == Ok(e) {
      forall k { OutputAt(a, e, k); }
    }
  }

  /** Converting a converted document changes nothing. */
  lemma CanonicalizeIdempotent(a: Adapters, d: Fields)
    requires Canonicalize(a, d).Ok?
    ensures NormalForm(a, Canonicalize(a, d).value)
    ensures Canonicalize(a, Canonicalize(a, d).value) == Canonicalize(a, d)
  {
    hide Canonicalize, NormalAt;
    forall k { OutputAt(a, d, k); }
    FixedIffNormal(a, Canonicalize(a, d).value);
  }

  // ----- the storage reference, and the whole conversion --------------------------------------------

  /** An explicit backend under current names, with no HTTP selector left beside a Supabase one. */
  ghost predicate StorageNormal(f: Fields) {
    && Lacks(f, {STORAGE_TYPE, SCHEMA_NAME})
    && TYPE in f
    && (f[TYPE] == Str("supabase") ==> Lacks(f, HTTP_SELECTORS))
  }

  ghost predicate DocumentNormal(a: Adapters, e: Fields) {
    NormalForm(a, e) && (HasSection(e, STORAGE_CONFIG) ==> StorageNormal(e[STORAGE_CONFIG].fields)) && a.schemaOk(e)
  }

  lemma TagStorageNormal(f: Fields)
    ensures TagStorage(f).Ok? ==> StorageNormal(TagStorage(f).value)
    ensures StorageNormal(f) ==> TagStorage(f) == Ok(f)
  {
    if StorageNormal(f) && f[TYPE] == Str("supabase") {
      assert f - HTTP_SELECTORS == f;
    }
  }

  /** Retagging storage disturbs nothing the other rules look at. */
  lemma RetaggedNormal(a: Adapters, e: Fields, j: Json)
    requires NormalForm(a, e) && STORAGE_CONFIG in e
    ensures NormalForm(a, e[STORAGE_CONFIG := j])
  {
    hide NormalProviders, NormalValue, NormalNames;
    var retagged := e[STORAGE_CONFIG := j];
    forall k
      ensures NormalAt(a, retagged, k)
    {
      assert NormalAt(a, e, k);
    }
  }

  lemma DocumentOutput(a: Adapters, d: Fields)
    requires CanonicalizeDocument(a, d).Ok?
    ensures DocumentNormal(a, CanonicalizeDocument(a, d).value)
  {
    hide Canonicalize, NormalForm, TagStorage, StorageNormal;
    var converted := Canonicalize(a, d).value;
    CanonicalizeIdempotent(a, d);
    if HasSection(converted, STORAGE_CONFIG) {
      TagStorageNormal(converted[STORAGE_CONFIG].fields);
      RetaggedNormal(a, converted, Obj(TagStorage(converted[STORAGE_CONFIG].fields).value));
    }
  }

  /** The whole conversion accepts and returns a document unchanged exactly when the document
      is normal, its storage is tagged and the schema accepts it. */
  lemma DocumentFixedIffNormal(a: Adapters, e: Fields)
    ensures CanonicalizeDocument(a, e) == Ok(e) <==> DocumentNormal(a, e)
  {
    hide Canonicalize, NormalForm, TagStorage, StorageNormal;
    if DocumentNormal(a, e) {
      FixedIffNormal(a, e);
      if HasSection(e, STORAGE_CONFIG) {
        TagStorageNormal(e[STORAGE_CONFIG].fields);
        assert e[STORAGE_CONFIG := Obj(e[STORAGE_CONFIG].fields)] == e;
      }
    }
    if CanonicalizeDocument(a, e) == Ok(e) {
      DocumentOutput(a, e);
    }
  }

  /** Whatever the conversion accepts and returns, it accepts and returns again. */
  lemma DocumentIdempotent(a: Adapters, d: Fields)
    requires CanonicalizeDocument(a, d).Ok?
    ensures CanonicalizeDocument(a, CanonicalizeDocument(a, d).value) == CanonicalizeDocument(a, d)
  {
    hide CanonicalizeDocument, DocumentNormal;
    DocumentOutput(a, d);
    DocumentFixedIffNormal(a, CanonicalizeDocument(a, d).value);
  }
}
