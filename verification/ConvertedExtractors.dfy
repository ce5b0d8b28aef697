/** What the conversion keeps of the extractor sections, written out with every name in place and
    proved of the step-by-step converter: which saved value a section comes from, and what each
    of its fields then holds. */
module ConvertedExtractors {
  import opened Wrappers
  import opened Json
  import opened SectionRules
  import opened Canonicalizer

  /** The first of several names that is present. */
  function OneOf(f: Fields, x: Key, y: Key): Option<Json> {
    if x in f then Some(f[x]) else Lookup(f, y)
  }

  function OneOf3(f: Fields, x: Key, y: Key, z: Key): Option<Json> {
    if x in f then Some(f[x]) else OneOf(f, y, z)
  }

  // ----- extractors ---------------------------------------------------------------------------------

  /** An old list stands for its first entry, and an empty one for null. */
  function Head(j: Json): Json {
    if !j.Arr? then j else if |j.items| == 0 then Null else j.items[0]
  }

  function SavedProfile(d: Fields): Option<Json> {
    if PROFILE_EXTRACTOR_CONFIG in d then Some(d[PROFILE_EXTRACTOR_CONFIG])
    else if PROFILE_EXTRACTOR_CONFIGS in d then Some(Head(d[PROFILE_EXTRACTOR_CONFIGS]))
    else None
  }

  function SavedPlaybook(d: Fields): Option<Json> {
    if USER_PLAYBOOK_EXTRACTOR_CONFIG in d then Some(d[USER_PLAYBOOK_EXTRACTOR_CONFIG])
    else if USER_PLAYBOOK_EXTRACTOR_CONFIGS in d then Some(Head(d[USER_PLAYBOOK_EXTRACTOR_CONFIGS]))
    else if PLAYBOOK_CONFIGS in d then Some(Head(d[PLAYBOOK_CONFIGS]))
    else if AGENT_FEEDBACK_CONFIGS in d then Some(Head(d[AGENT_FEEDBACK_CONFIGS]))
    else None
  }

  function SavedSuccess(d: Fields): Option<Json> {
    if AGENT_SUCCESS_CONFIG in d then Some(d[AGENT_SUCCESS_CONFIG])
    else if AGENT_SUCCESS_CONFIGS in d then Some(Head(d[AGENT_SUCCESS_CONFIGS]))
    else None
  }

  lemma SavedIs(d: Fields)
    ensures FirstList(d, LIST_FIELDS, PROFILE_EXTRACTOR_CONFIG) == SavedProfile(d)
    ensures FirstList(d, LIST_FIELDS, USER_PLAYBOOK_EXTRACTOR_CONFIG) == SavedPlaybook(d)
    ensures FirstList(d, LIST_FIELDS, AGENT_SUCCESS_CONFIG) == SavedSuccess(d)
  {
  }

  predicate OldOverride(x: Key) {
    || x == BATCH_SIZE_OVERRIDE || x == BATCH_INTERVAL_OVERRIDE
    || x == EXTRACTION_WINDOW_SIZE_OVERRIDE || x == EXTRACTION_WINDOW_STRIDE_OVERRIDE
  }

  /** The two overrides under any of their names. */
  function OverrideField(f: Fields, x: Key): Option<Json> {
    if x == WINDOW_SIZE_OVERRIDE then OneOf3(f, WINDOW_SIZE_OVERRIDE, BATCH_SIZE_OVERRIDE, EXTRACTION_WINDOW_SIZE_OVERRIDE)
    else if x == STRIDE_SIZE_OVERRIDE then OneOf3(f, STRIDE_SIZE_OVERRIDE, BATCH_INTERVAL_OVERRIDE, EXTRACTION_WINDOW_STRIDE_OVERRIDE)
    else if OldOverride(x) then None
    else Lookup(f, x)
  }

  function ProfileField(f: Fields, x: Key): Option<Json> {
    if x == EXTRACTOR_NAME || x == PROFILE_CONTENT_DEFINITION_PROMPT then None
    else if x == EXTRACTION_DEFINITION_PROMPT then OneOf(f, EXTRACTION_DEFINITION_PROMPT, PROFILE_CONTENT_DEFINITION_PROMPT)
    else OverrideField(f, x)
  }

  function SuccessField(f: Fields, x: Key): Option<Json> {
    if x == EVALUATION_NAME || x == WINDOW_SIZE_OVERRIDE || x == STRIDE_SIZE_OVERRIDE || OldOverride(x) then None
    else Lookup(f, x)
  }

  function AggregationField(h: Fields, x: Key): Option<Json> {
    if x == MIN_FEEDBACK_THRESHOLD || x == REFRESH_COUNT || x == SIMILARITY_THRESHOLD then None
    else if x == MIN_CLUSTER_SIZE then OneOf(h, MIN_CLUSTER_SIZE, MIN_FEEDBACK_THRESHOLD)
    else if x == REAGGREGATION_TRIGGER_COUNT then OneOf(h, REAGGREGATION_TRIGGER_COUNT, REFRESH_COUNT)
    else if x == CLUSTERING_SIMILARITY then OneOf(h, CLUSTERING_SIMILARITY, SIMILARITY_THRESHOLD)
    else Lookup(h, x)
  }

  /** Playbook fields other than the two nested policies. */
  function PlaybookField(f: Fields, x: Key): Option<Json> {
    if x == EXTRACTOR_NAME || x == PLAYBOOK_NAME || x == FEEDBACK_NAME || x == FEEDBACK_DEFINITION_PROMPT
       || x == PLAYBOOK_DEFINITION_PROMPT || x == FEEDBACK_AGGREGATOR_CONFIG || x == PLAYBOOK_AGGREGATOR_CONFIG then None
    else if x == EXTRACTION_DEFINITION_PROMPT then
      OneOf3(f, EXTRACTION_DEFINITION_PROMPT, FEEDBACK_DEFINITION_PROMPT, PLAYBOOK_DEFINITION_PROMPT)
    else OverrideField(f, x)
  }

  function SavedAggregation(f: Fields): Option<Json> {
    OneOf3(f, AGGREGATION_CONFIG, FEEDBACK_AGGREGATOR_CONFIG, PLAYBOOK_AGGREGATOR_CONFIG)
  }

  ghost predicate PlaybookReads(f: Fields, g: Fields) {
    && (forall x :: x != AGGREGATION_CONFIG && x != DEDUPLICATION_CONFIG ==> Lookup(g, x) == PlaybookField(f, x))
    && (match SavedAggregation(f)
        case Some(Obj(h)) =>
          HasSection(g, AGGREGATION_CONFIG) && forall x :: Lookup(Section(g, AGGREGATION_CONFIG), x) == AggregationField(h, x)
        case _ => Lookup(g, AGGREGATION_CONFIG) == SavedAggregation(f))
    && (if HasSection(f, DEDUPLICATION_CONFIG)
        then HasSection(g, DEDUPLICATION_CONFIG)
             && forall x :: Lookup(Section(g, DEDUPLICATION_CONFIG), x) ==
                            if x == STRATEGY || x == MAX_UNIFIED_CONTENT_CHARS then None else Lookup(Section(f, DEDUPLICATION_CONFIG), x)
        else Lookup(g, DEDUPLICATION_CONFIG) == Lookup(f, DEDUPLICATION_CONFIG))
  }

  /** The one saved strategy value that is refused is one the policy never had. */
  predicate StrategyKnown(f: Fields) {
    HasSection(f, DEDUPLICATION_CONFIG) && STRATEGY in Section(f, DEDUPLICATION_CONFIG) ==>
      Section(f, DEDUPLICATION_CONFIG)[STRATEGY] == Str("legacy") || Section(f, DEDUPLICATION_CONFIG)[STRATEGY] == Str("audited")
  }

  lemma OverridesRename(f: Fields, x: Key)
    ensures Lookup(Migrate(f, OVERRIDE_NAMES), x) == OverrideField(f, x)
  {
    OverrideNamesAcyclic();
    MigrateLookup(f, OVERRIDE_NAMES, x);
  }

  lemma ProfileRename(f: Fields, x: Key)
    ensures Lookup(Migrate(f, PROFILE_NAMES), x) ==
            if x == PROFILE_CONTENT_DEFINITION_PROMPT then None
            else if x == EXTRACTION_DEFINITION_PROMPT then OneOf(f, EXTRACTION_DEFINITION_PROMPT, PROFILE_CONTENT_DEFINITION_PROMPT)
            else Lookup(f, x)
  {
    OverrideNamesAcyclic();
    MigrateLookup(f, PROFILE_NAMES, x);
  }

  lemma AggregationRename(h: Fields, x: Key)
    ensures Lookup(Migrate(h, AGGREGATOR_NAMES), x) == AggregationField(h, x)
  {
    ShortNamesAcyclic();
    MigrateLookup(h, AGGREGATOR_NAMES, x);
  }

  /** The playbook names, on fields that have already lost their three name fields. */
  lemma PlaybookRename(f: Fields, x: Key)
    requires EXTRACTOR_NAME !in f && PLAYBOOK_NAME !in f && FEEDBACK_NAME !in f
    ensures Lookup(Migrate(f, PLAYBOOK_NAMES), x) ==
            if x == FEEDBACK_DEFINITION_PROMPT || x == PLAYBOOK_DEFINITION_PROMPT
               || x == FEEDBACK_AGGREGATOR_CONFIG || x == PLAYBOOK_AGGREGATOR_CONFIG then None
            else if x == EXTRACTION_DEFINITION_PROMPT then
              OneOf3(f, EXTRACTION_DEFINITION_PROMPT, FEEDBACK_DEFINITION_PROMPT, PLAYBOOK_DEFINITION_PROMPT)
            else if x == AGGREGATION_CONFIG then SavedAggregation(f)
            else Lookup(f, x)
  {
    PlaybookNamesAcyclic();
    MigrateLookup(f, PLAYBOOK_NAMES, x);
  }

  // ----- one extractor section --------------------------------------------------------------------------

  lemma ProfileEntry(f: Fields, x: Key)
    ensures StripEntry(PROFILE_EXTRACTOR_CONFIG, Obj(f)).Obj?
    ensures Lookup(NormalizeProfile(StripEntry(PROFILE_EXTRACTOR_CONFIG, Obj(f)).fields), x) == ProfileField(f, x)
  {
    hide Migrate;
    var g := StripEntry(PROFILE_EXTRACTOR_CONFIG, Obj(f)).fields;
    assert forall y :: Lookup(g, y) == if y == EXTRACTOR_NAME then None else Lookup(f, y);
    var h := Migrate(g, PROFILE_NAMES);
    OverridesRename(h, x);
    forall y { ProfileRename(g, y); }
    assert Lookup(g, EXTRACTION_DEFINITION_PROMPT) == Lookup(f, EXTRACTION_DEFINITION_PROMPT);
    assert Lookup(g, PROFILE_CONTENT_DEFINITION_PROMPT) == Lookup(f, PROFILE_CONTENT_DEFINITION_PROMPT);
    SameOverrides(f, h, x);
  }

  lemma SameOverrides(f: Fields, h: Fields, x: Key)
    requires forall y :: y == WINDOW_SIZE_OVERRIDE || y == STRIDE_SIZE_OVERRIDE || OldOverride(y) ==> Lookup(h, y) == Lookup(f, y)
    ensures OverrideField(h, x) ==
            if x == WINDOW_SIZE_OVERRIDE || x == STRIDE_SIZE_OVERRIDE || OldOverride(x) then OverrideField(f, x) else Lookup(h, x)
  {
    assert Lookup(h, WINDOW_SIZE_OVERRIDE) == Lookup(f, WINDOW_SIZE_OVERRIDE) && Lookup(h, STRIDE_SIZE_OVERRIDE) == Lookup(f, STRIDE_SIZE_OVERRIDE);
    assert Lookup(h, BATCH_SIZE_OVERRIDE) == Lookup(f, BATCH_SIZE_OVERRIDE) && Lookup(h, BATCH_INTERVAL_OVERRIDE) == Lookup(f, BATCH_INTERVAL_OVERRIDE);
    assert Lookup(h, EXTRACTION_WINDOW_SIZE_OVERRIDE) == Lookup(f, EXTRACTION_WINDOW_SIZE_OVERRIDE);
    assert Lookup(h, EXTRACTION_WINDOW_STRIDE_OVERRIDE) == Lookup(f, EXTRACTION_WINDOW_STRIDE_OVERRIDE);
  }

  lemma SuccessEntry(f: Fields, x: Key)
    ensures StripEntry(AGENT_SUCCESS_CONFIG, Obj(f)).Obj?
    ensures Lookup(StripEntry(AGENT_SUCCESS_CONFIG, Obj(f)).fields, x) == SuccessField(f, x)
  {
  }

  /** What a playbook entry is before its names are renamed. */
  lemma PlaybookStripped(f: Fields)
    ensures StripEntry(USER_PLAYBOOK_EXTRACTOR_CONFIG, Obj(f)).Obj?
    ensures var g := StripEntry(USER_PLAYBOOK_EXTRACTOR_CONFIG, Obj(f)).fields;
            && (forall y :: y != DEDUPLICATION_CONFIG ==>
                  Lookup(g, y) == if y == EXTRACTOR_NAME || y == PLAYBOOK_NAME || y == FEEDBACK_NAME then None else Lookup(f, y))
            && (if HasSection(f, DEDUPLICATION_CONFIG)
                then HasSection(g, DEDUPLICATION_CONFIG)
                     && forall y :: Lookup(Section(g, DEDUPLICATION_CONFIG), y) ==
                                    if y == MAX_UNIFIED_CONTENT_CHARS then None else Lookup(Section(f, DEDUPLICATION_CONFIG), y)
                else Lookup(g, DEDUPLICATION_CONFIG) == Lookup(f, DEDUPLICATION_CONFIG))
  {
  }

  lemma AggregatorAt(h: Fields, x: Key)
    ensures x != AGGREGATION_CONFIG ==> Lookup(MigrateAggregator(h), x) == Lookup(h, x)
    ensures HasSection(h, AGGREGATION_CONFIG) ==>
              HasSection(MigrateAggregator(h), AGGREGATION_CONFIG)
              && Lookup(Section(MigrateAggregator(h), AGGREGATION_CONFIG), x) == AggregationField(Section(h, AGGREGATION_CONFIG), x)
    ensures !HasSection(h, AGGREGATION_CONFIG) ==> MigrateAggregator(h) == h
  {
    hide Migrate;
    if HasSection(h, AGGREGATION_CONFIG) {
      AggregationRename(Section(h, AGGREGATION_CONFIG), x);
    }
  }

  lemma StrategyAt(h: Fields, x: Key)
    ensures RetireConsolidationStrategy(h).Ok? <==> StrategyKnown(h)
    ensures RetireConsolidationStrategy(h).Ok? ==>
              var g := RetireConsolidationStrategy(h).value;
              && (x != DEDUPLICATION_CONFIG ==> Lookup(g, x) == Lookup(h, x))
              && (if HasSection(h, DEDUPLICATION_CONFIG)
                  then HasSection(g, DEDUPLICATION_CONFIG)
                       && Lookup(Section(g, DEDUPLICATION_CONFIG), x) == if x == STRATEGY then None else Lookup(Section(h, DEDUPLICATION_CONFIG), x)
                  else Lookup(g, DEDUPLICATION_CONFIG) == Lookup(h, DEDUPLICATION_CONFIG))
  {
  }

  /** Renaming a stripped playbook entry, before its two nested policies. */
  lemma PlaybookNamesAt(f: Fields, g: Fields, x: Key)
    requires forall y :: y != DEDUPLICATION_CONFIG ==>
               Lookup(g, y) == if y == EXTRACTOR_NAME || y == PLAYBOOK_NAME || y == FEEDBACK_NAME then None else Lookup(f, y)
    ensures var h := Migrate(Migrate(g, PLAYBOOK_NAMES), OVERRIDE_NAMES);
            Lookup(h, x) == if x == DEDUPLICATION_CONFIG then Lookup(g, x)
                            else if x == AGGREGATION_CONFIG then SavedAggregation(f)
                            else PlaybookField(f, x)
  {
    hide Migrate;
    assert Lookup(g, EXTRACTOR_NAME) == None && Lookup(g, PLAYBOOK_NAME) == None && Lookup(g, FEEDBACK_NAME) == None;
    assert Lookup(g, EXTRACTION_DEFINITION_PROMPT) == Lookup(f, EXTRACTION_DEFINITION_PROMPT);
    assert Lookup(g, FEEDBACK_DEFINITION_PROMPT) == Lookup(f, FEEDBACK_DEFINITION_PROMPT);
    assert Lookup(g, PLAYBOOK_DEFINITION_PROMPT) == Lookup(f, PLAYBOOK_DEFINITION_PROMPT);
    assert Lookup(g, AGGREGATION_CONFIG) == Lookup(f, AGGREGATION_CONFIG);
    assert Lookup(g, FEEDBACK_AGGREGATOR_CONFIG) == Lookup(f, FEEDBACK_AGGREGATOR_CONFIG);
    assert Lookup(g, PLAYBOOK_AGGREGATOR_CONFIG) == Lookup(f, PLAYBOOK_AGGREGATOR_CONFIG);
    var m := Migrate(g, PLAYBOOK_NAMES);
    forall y { PlaybookRename(g, y); }
    OverridesRename(m, x);
    SameOverrides(f, m, x);
  }

  lemma PlaybookEntry(f: Fields)
    ensures StripEntry(USER_PLAYBOOK_EXTRACTOR_CONFIG, Obj(f)).Obj?
    ensures var r := NormalizePlaybook(StripEntry(USER_PLAYBOOK_EXTRACTOR_CONFIG, Obj(f)).fields);
            && (r.Ok? <==> StrategyKnown(f))
            && (r.Ok? ==> PlaybookReads(f, r.value))
  {
    hide Migrate, StripEntry, MigrateAggregator, RetireConsolidationStrategy;
    PlaybookStripped(f);
    var g := StripEntry(USER_PLAYBOOK_EXTRACTOR_CONFIG, Obj(f)).fields;
    var h := Migrate(Migrate(g, PLAYBOOK_NAMES), OVERRIDE_NAMES);
    forall x { PlaybookNamesAt(f, g, x); }
    var m := MigrateAggregator(h);
    PlaybookNamesAt(f, g, DEDUPLICATION_CONFIG);
    forall x { AggregatorAt(h, x); }
    AggregatorAt(h, DEDUPLICATION_CONFIG);
    forall x { StrategyAt(m, x); }
    PlaybookPieces(f, g, h, m);
    if RetireConsolidationStrategy(m).Ok? {
      PlaybookAssembled(f, g, h, m, RetireConsolidationStrategy(m).value);
    }
  }

  /** The nested policies survive the renames. */
  lemma PlaybookPieces(f: Fields, g: Fields, h: Fields, m: Fields)
    requires Lookup(h, DEDUPLICATION_CONFIG) == Lookup(g, DEDUPLICATION_CONFIG)
    requires Lookup(h, AGGREGATION_CONFIG) == SavedAggregation(f)
    requires Lookup(m, DEDUPLICATION_CONFIG) == Lookup(h, DEDUPLICATION_CONFIG)
    requires if HasSection(f, DEDUPLICATION_CONFIG)
             then HasSection(g, DEDUPLICATION_CONFIG)
                  && forall y :: Lookup(Section(g, DEDUPLICATION_CONFIG), y) ==
                                 if y == MAX_UNIFIED_CONTENT_CHARS then None else Lookup(Section(f, DEDUPLICATION_CONFIG), y)
             else Lookup(g, DEDUPLICATION_CONFIG) == Lookup(f, DEDUPLICATION_CONFIG)
    ensures HasSection(m, DEDUPLICATION_CONFIG) <==> HasSection(f, DEDUPLICATION_CONFIG)
    ensures Section(m, DEDUPLICATION_CONFIG) == Section(g, DEDUPLICATION_CONFIG)
    ensures StrategyKnown(m) <==> StrategyKnown(f)
    ensures HasSection(h, AGGREGATION_CONFIG) <==> SavedAggregation(f).Some? && SavedAggregation(f).value.Obj?
    ensures HasSection(h, AGGREGATION_CONFIG) ==> SavedAggregation(f) == Some(Obj(Section(h, AGGREGATION_CONFIG)))
  {
    if HasSection(f, DEDUPLICATION_CONFIG) {
      assert Lookup(Section(g, DEDUPLICATION_CONFIG), STRATEGY) == Lookup(Section(f, DEDUPLICATION_CONFIG), STRATEGY);
    }
  }

  lemma PlaybookAssembled(f: Fields, g: Fields, h: Fields, m: Fields, r: Fields)
    requires forall x :: Lookup(h, x) == if x == DEDUPLICATION_CONFIG then Lookup(g, x)
                                         else if x == AGGREGATION_CONFIG then SavedAggregation(f) else PlaybookField(f, x)
    requires forall x :: x != AGGREGATION_CONFIG ==> Lookup(m, x) == Lookup(h, x)
    requires HasSection(h, AGGREGATION_CONFIG) ==>
               HasSection(m, AGGREGATION_CONFIG)
               && forall x :: Lookup(Section(m, AGGREGATION_CONFIG), x) == AggregationField(Section(h, AGGREGATION_CONFIG), x)
    requires !HasSection(h, AGGREGATION_CONFIG) ==> m == h
    requires forall x :: x != DEDUPLICATION_CONFIG ==> Lookup(r, x) == Lookup(m, x)
    requires if HasSection(m, DEDUPLICATION_CONFIG)
             then HasSection(r, DEDUPLICATION_CONFIG)
                  && forall x :: Lookup(Section(r, DEDUPLICATION_CONFIG), x) == if x == STRATEGY then None else Lookup(Section(m, DEDUPLICATION_CONFIG), x)
             else Lookup(r, DEDUPLICATION_CONFIG) == Lookup(m, DEDUPLICATION_CONFIG)
    requires if HasSection(f, DEDUPLICATION_CONFIG)
             then HasSection(m, DEDUPLICATION_CONFIG)
                  && forall y :: Lookup(Section(m, DEDUPLICATION_CONFIG), y) ==
                                 if y == MAX_UNIFIED_CONTENT_CHARS then None else Lookup(Section(f, DEDUPLICATION_CONFIG), y)
             else !HasSection(m, DEDUPLICATION_CONFIG) && Lookup(m, DEDUPLICATION_CONFIG) == Lookup(f, DEDUPLICATION_CONFIG)
    ensures PlaybookReads(f, r)
  {
    hide PlaybookField, AggregationField, SavedAggregation;
    assert Lookup(h, AGGREGATION_CONFIG) == SavedAggregation(f);
    assert Lookup(r, AGGREGATION_CONFIG) == Lookup(m, AGGREGATION_CONFIG);
    assert HasSection(r, AGGREGATION_CONFIG) == HasSection(m, AGGREGATION_CONFIG) && Section(r, AGGREGATION_CONFIG) == Section(m, AGGREGATION_CONFIG);
  }

  // ----- a whole section, whatever JSON it is ------------------------------------------------------------

  /** What an object inside a list keeps: no renaming, only the names its section retired. */
  function ItemField(k: Key, f: Fields, x: Key): Option<Json> {
    if k == PROFILE_EXTRACTOR_CONFIG then
      if x == EXTRACTOR_NAME then None else Lookup(f, x)
    else if k == USER_PLAYBOOK_EXTRACTOR_CONFIG then
      if x == EXTRACTOR_NAME || x == PLAYBOOK_NAME || x == FEEDBACK_NAME then None
      else if x == DEDUPLICATION_CONFIG && HasSection(f, x) then Some(Obj(Section(f, x) - {MAX_UNIFIED_CONTENT_CHARS}))
      else Lookup(f, x)
    else SuccessField(f, x)
  }

  ghost predicate ItemIs(k: Key, j: Json, r: Json) {
    if j.Obj? then r.Obj? && forall x :: Lookup(r.fields, x) == ItemField(k, j.fields, x) else r == j
  }

  ghost predicate ListIs(k: Key, items: seq<Json>, o: Option<Json>) {
    && o.Some? && o.value.Arr? && |o.value.items| == |items|
    && forall i :: 0 <= i < |items| ==> ItemIs(k, items[i], o.value.items[i])
  }

  ghost predicate ProfileIs(saved: Option<Json>, o: Option<Json>) {
    match saved
    case Some(Obj(f)) => o.Some? && o.value.Obj? && forall x :: Lookup(o.value.fields, x) == ProfileField(f, x)
    case Some(Arr(items)) => ListIs(PROFILE_EXTRACTOR_CONFIG, items, o)
    case _ => o == saved
  }

  ghost predicate PlaybookIs(saved: Option<Json>, o: Option<Json>) {
    match saved
    case Some(Obj(f)) => o.Some? && o.value.Obj? && PlaybookReads(f, o.value.fields)
    case Some(Arr(items)) => ListIs(USER_PLAYBOOK_EXTRACTOR_CONFIG, items, o)
    case _ => o == saved
  }

  ghost predicate SuccessIs(saved: Option<Json>, o: Option<Json>) {
    match saved
    case Some(Obj(f)) => o.Some? && o.value.Obj? && forall x :: Lookup(o.value.fields, x) == SuccessField(f, x)
    case Some(Arr(items)) => ListIs(AGENT_SUCCESS_CONFIG, items, o)
    case _ => o == saved
  }

  predicate PlaybookReadable(saved: Option<Json>) {
    saved.Some? && saved.value.Obj? ==> StrategyKnown(saved.value.fields)
  }

  lemma ItemStripped(k: Key, j: Json)
    requires ExtractorField(k)
    ensures ItemIs(k, j, StripEntry(k, j))
  {
  }

  lemma ListStripped(k: Key, items: seq<Json>)
    requires ExtractorField(k)
    ensures ListIs(k, items, OptionStrip(k, Some(Arr(items))))
  {
    hide StripEntry, ItemIs;
    forall i | 0 <= i < |items| { ItemStripped(k, items[i]); }
  }

  lemma ProfileSection(a: Adapters, saved: Option<Json>)
    ensures var r := OptionRewrite(a, ToProfile, OptionStrip(PROFILE_EXTRACTOR_CONFIG, saved));
            r.Ok? && ProfileIs(saved, r.value)
  {
    hide StripEntry, NormalizeProfile, ItemIs;
    match saved
    case Some(Obj(f)) => forall x { ProfileEntry(f, x); } ProfileEntry(f, 0);
    case Some(Arr(items)) => ListStripped(PROFILE_EXTRACTOR_CONFIG, items);
    case _ =>
  }

  lemma PlaybookSection(a: Adapters, saved: Option<Json>)
    ensures var r := OptionRewrite(a, ToPlaybook, OptionStrip(USER_PLAYBOOK_EXTRACTOR_CONFIG, saved));
            && (r.Ok? <==> PlaybookReadable(saved))
            && (r.Ok? ==> PlaybookIs(saved, r.value))
  {
    hide StripEntry, NormalizePlaybook, ItemIs, PlaybookReads, StrategyKnown;
    match saved
    case Some(Obj(f)) => PlaybookEntry(f);
    case Some(Arr(items)) => ListStripped(USER_PLAYBOOK_EXTRACTOR_CONFIG, items);
    case _ =>
  }

  lemma SuccessSection(saved: Option<Json>)
    ensures SuccessIs(saved, OptionStrip(AGENT_SUCCESS_CONFIG, saved))
  {
    hide StripEntry, ItemIs;
    match saved
    case Some(Obj(f)) => forall x { SuccessEntry(f, x); } SuccessEntry(f, 0);
    case Some(Arr(items)) => ListStripped(AGENT_SUCCESS_CONFIG, items);
    case _ =>
  }

  /** What the conversion makes of the three extractor sections of any document it accepts: the
      existing section, else the first entry of the first old list in the order written out above,
      with every field under its current name. It refuses for them only an unknown strategy. */
  lemma ExtractorsConverted(a: Adapters, d: Fields)
    ensures CanonicalAt(a, d, PROFILE_EXTRACTOR_CONFIG).Ok? && CanonicalAt(a, d, AGENT_SUCCESS_CONFIG).Ok?
    ensures CanonicalAt(a, d, USER_PLAYBOOK_EXTRACTOR_CONFIG).Ok? <==> PlaybookReadable(SavedPlaybook(d))
    ensures ProfileIs(SavedProfile(d), CanonicalAt(a, d, PROFILE_EXTRACTOR_CONFIG).value)
    ensures SuccessIs(SavedSuccess(d), CanonicalAt(a, d, AGENT_SUCCESS_CONFIG).value)
    ensures PlaybookReadable(SavedPlaybook(d)) ==> PlaybookIs(SavedPlaybook(d), CanonicalAt(a, d, USER_PLAYBOOK_EXTRACTOR_CONFIG).value)
  {
    hide OptionRewrite, OptionStrip, FirstList, ProfileIs, PlaybookIs, SuccessIs, PlaybookReadable, SavedProfile, SavedPlaybook, SavedSuccess;
    SavedIs(d);
    ProfileSection(a, SavedProfile(d));
    PlaybookSection(a, SavedPlaybook(d));
    SuccessSection(SavedSuccess(d));
    ExtractorOutcome(a, d, PROFILE_EXTRACTOR_CONFIG);
    ExtractorOutcome(a, d, USER_PLAYBOOK_EXTRACTOR_CONFIG);
    ExtractorOutcome(a, d, AGENT_SUCCESS_CONFIG);
  }
}
