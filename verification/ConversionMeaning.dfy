/** The explicit conversion keeps the meaning the upgrade keeps: whatever generation a file is
    from, converting it directly means what the file meant. */
module ConversionMeaning {
  import opened Wrappers
  import opened Json
  import opened SectionRules
  import opened Canonicalizer
  import opened FileFormat
  import opened PolicyPreservation
  import OptimizerPolicy
  import RouteConvergence

  // ----- what the names in a document say -------------------------------------------------------------

  function Both(x: Option<bool>, y: Option<bool>): Option<bool> {
    if x.None? || y.None? then None else Some(x.value && y.value)
  }

  function NamedBudget(a: Adapters, f: Fields): Option<int> {
    if OptimizerPolicy.HasWorkSwitch(f)
    then Switched(a.boolean(Get(f, ENABLED, Bool(false))), a.positive(Get(f, MAX_METRIC_CALLS, Int(20))))
    else a.nonNegative(Get(f, METRIC_CALL_BUDGET, Int(0)))
  }

  function NamedAgentGate(a: Adapters, f: Fields): Option<bool> {
    if AGENT_PLAYBOOKS_ENABLED in f || !OptimizerPolicy.HasAgentSwitch(f) then a.boolean(Get(f, AGENT_PLAYBOOKS_ENABLED, Bool(false)))
    else Both(a.boolean(Get(f, OPTIMIZE_AGENT_PLAYBOOKS, Bool(false))),
              a.boolean(Get(f, AUTO_UPDATE_PENDING_AGENT_PLAYBOOKS, Bool(true))))
  }

  function NamedUserGate(a: Adapters, f: Fields): Option<bool> {
    if USER_PLAYBOOKS_ENABLED in f || !OptimizerPolicy.HasUserSwitch(f) then a.boolean(Get(f, USER_PLAYBOOKS_ENABLED, Bool(false)))
    else Both(a.boolean(Get(f, OPTIMIZE_USER_PLAYBOOKS, Bool(false))), a.boolean(Get(f, AUTO_UPDATE_USER_PLAYBOOKS, Bool(false))))
  }

  function NamedPool(a: Adapters, f: Fields): Option<int> {
    if CANDIDATE_POOL_SIZE in f || (ENABLED !in f && POOL_SIZE !in f) then a.nonNegative(Get(f, CANDIDATE_POOL_SIZE, Int(0)))
    else Switched(a.boolean(Get(f, ENABLED, Bool(false))), a.positive(Get(f, POOL_SIZE, Int(30))))
  }

  function NamedAuditAge(a: Adapters, f: Fields): Option<int> {
    if AUDIT_EVENTS_RETENTION_ENABLED in f || AUDIT_EVENTS_RETENTION_DAYS in f
    then Switched(a.boolean(Get(f, AUDIT_EVENTS_RETENTION_ENABLED, Bool(false))),
                  a.positive(Get(f, AUDIT_EVENTS_RETENTION_DAYS, Int(365))))
    else a.nonNegative(Get(f, AUDIT_EVENTS_MAX_AGE_DAYS, Int(0)))
  }

  function NamedGrace(a: Adapters, f: Fields): Option<int> {
    if ENABLED in f then Switched(a.boolean(f[ENABLED]), a.positive(Get(f, TOMBSTONE_GRACE_WINDOW_DAYS, Int(90))))
    else a.nonNegative(Get(f, TOMBSTONE_GRACE_WINDOW_DAYS, Int(90)))
  }

  /** Consent to pending calls is the one setting the names cannot tell without the generation. */
  function NamedLifetime(a: Adapters, f: Fields, version: nat): Option<int> {
    if version < PENDING_CREATION_VERSION || ENABLED in f
    then Switched(a.boolean(Get(f, ENABLED, Bool(false))), a.positive(Get(f, PENDING_TTL_SECONDS, Int(86_400))))
    else a.nonNegative(Get(f, PENDING_TTL_SECONDS, Int(0)))
  }

  /** The settings a document asks for by whichever names it uses: an old switch where one is
      written, the current name otherwise, and the current name of a folded switch over the old. */
  function NamedPolicy(a: Adapters, d: Fields, version: nat): Policy {
    var f := Section(d, PLAYBOOK_OPTIMIZER_CONFIG);
    Policy(NamedBudget(a, f), NamedAgentGate(a, f), NamedUserGate(a, f), NamedPool(a, Section(d, RETRIEVAL_FLOOR)),
           NamedAuditAge(a, Section(d, GOVERNANCE_RETENTION)), NamedGrace(a, Section(d, LINEAGE_GC)),
           NamedLifetime(a, Section(d, PENDING_TOOL_CALL_CONFIG), version))
  }

  function NamedToolLifetime(a: Adapters, d: Fields, version: nat, tool: Key): Option<int> {
    var f := Section(d, PENDING_TOOL_CALL_CONFIG);
    var base := NamedLifetime(a, f, version);
    var own := Get(Section(Section(f, TOOL_OVERRIDES), tool), PENDING_TTL_SECONDS, Null);
    if base.None? || base.value == 0 || own.Null? then base else a.positive(own)
  }

  // ----- one section at a time --------------------------------------------------------------------------

  lemma OptimizerNamed(a: Adapters, f: Fields)
    requires Lawful(a) && NormalizeOptimizer(a, f).Ok?
    ensures var g := NormalizeOptimizer(a, f).value;
            && a.nonNegative(Get(g, METRIC_CALL_BUDGET, Int(0))) == NamedBudget(a, f)
            && a.boolean(Get(g, AGENT_PLAYBOOKS_ENABLED, Bool(false))) == NamedAgentGate(a, f)
            && a.boolean(Get(g, USER_PLAYBOOKS_ENABLED, Bool(false))) == NamedUserGate(a, f)
  {
    hide NormalizeOptimizer, OptimizerPolicy.TransportAccepted;
    OptimizerPolicy.Closed(a, f);
    var g := NormalizeOptimizer(a, f).value;
    assert Lookup(g, METRIC_CALL_BUDGET) == OptimizerPolicy.WorkBudget(a, f);
    assert Lookup(g, AGENT_PLAYBOOKS_ENABLED) == OptimizerPolicy.AgentGate(a, f);
    assert Lookup(g, USER_PLAYBOOKS_ENABLED) == OptimizerPolicy.UserGate(a, f);
    assert a.boolean(Bool(true)) == Some(true) && a.boolean(Bool(false)) == Some(false) && a.nonNegative(Int(0)) == Some(0);
  }

  lemma RetentionNamed(a: Adapters, f: Fields)
    requires Lawful(a)
    ensures CanonicalizeFloor(a, f).Ok? ==>
              a.nonNegative(Get(CanonicalizeFloor(a, f).value, CANDIDATE_POOL_SIZE, Int(0))) == NamedPool(a, f)
    ensures CanonicalizeAudit(a, f).Ok? ==>
              a.nonNegative(Get(CanonicalizeAudit(a, f).value, AUDIT_EVENTS_MAX_AGE_DAYS, Int(0))) == NamedAuditAge(a, f)
    ensures CanonicalizeLineage(a, f, false).Ok? ==>
              a.nonNegative(Get(CanonicalizeLineage(a, f, false).value, TOMBSTONE_GRACE_WINDOW_DAYS, Int(90))) == NamedGrace(a, f)
  {
    assert a.nonNegative(Int(0)) == Some(0);
  }

  /** Dropping the former default cadence leaves the grace alone. */
  lemma CadenceNamed(a: Adapters, f: Fields)
    ensures NamedGrace(a, f - {POLL_INTERVAL_SECONDS}) == NamedGrace(a, f)
  {
  }

  /** A tool's own lifetime, if it has one. */
  function OwnLifetime(f: Fields, tool: Key): Json {
    Get(Section(Section(f, TOOL_OVERRIDES), tool), PENDING_TTL_SECONDS, Null)
  }

  /** Dropping the follow-up threshold leaves every lifetime alone, the tools' own included. */
  lemma FollowupsNamed(f: Fields, tool: Key)
    ensures Lookup(StripFollowups(f), ENABLED) == Lookup(f, ENABLED)
    ensures Lookup(StripFollowups(f), PENDING_TTL_SECONDS) == Lookup(f, PENDING_TTL_SECONDS)
    ensures OwnLifetime(StripFollowups(f), tool) == OwnLifetime(f, tool)
  {
  }

  lemma ConsentNamed(a: Adapters, f: Fields)
    requires Lawful(a) && CanonicalizePending(a, f, false).Ok?
    ensures var g := CanonicalizePending(a, f, false).value;
            && a.nonNegative(Get(g, PENDING_TTL_SECONDS, Int(0))) == NamedLifetime(a, f, PENDING_CREATION_VERSION)
            && Lookup(g, TOOL_OVERRIDES) == Lookup(f, TOOL_OVERRIDES)
  {
    assert a.nonNegative(Int(0)) == Some(0);
  }

  /** Nor does retiring the timing fields move a lifetime. */
  lemma TimingNamed(a: Adapters, f: Fields)
    requires StripPendingTiming(a, f).Ok?
    ensures forall k :: k == ENABLED || k == PENDING_TTL_SECONDS || k == TOOL_OVERRIDES ==>
              Lookup(StripPendingTiming(a, f).value, k) == Lookup(f, k)
  {
  }

  lemma SameLifetimes(a: Adapters, f: Fields, g: Fields, tool: Key)
    ensures Lookup(f, ENABLED) == Lookup(g, ENABLED) && Lookup(f, PENDING_TTL_SECONDS) == Lookup(g, PENDING_TTL_SECONDS) ==>
              NamedLifetime(a, f, PENDING_CREATION_VERSION) == NamedLifetime(a, g, PENDING_CREATION_VERSION)
    ensures Lookup(f, TOOL_OVERRIDES) == Lookup(g, TOOL_OVERRIDES) ==> OwnLifetime(f, tool) == OwnLifetime(g, tool)
  {
  }

  lemma PendingNamed(a: Adapters, f: Fields, tool: Key)
    requires Lawful(a) && NormalizePending(a, f).Ok?
    ensures var g := NormalizePending(a, f).value;
            && a.nonNegative(Get(g, PENDING_TTL_SECONDS, Int(0))) == NamedLifetime(a, f, PENDING_CREATION_VERSION)
            && OwnLifetime(g, tool) == OwnLifetime(f, tool)
  {
    hide StripFollowups, StripPendingTiming, CanonicalizePending, NamedLifetime, OwnLifetime;
    var timed := StripPendingTiming(a, f).value;
    var stripped := StripFollowups(timed);
    TimingNamed(a, f);
    FollowupsNamed(timed, tool);
    ConsentNamed(a, stripped);
    assert Lookup(timed, ENABLED) == Lookup(f, ENABLED) && Lookup(timed, PENDING_TTL_SECONDS) == Lookup(f, PENDING_TTL_SECONDS);
    assert Lookup(timed, TOOL_OVERRIDES) == Lookup(f, TOOL_OVERRIDES);
    SameLifetimes(a, f, timed, tool);
    SameLifetimes(a, timed, stripped, tool);
    SameLifetimes(a, stripped, NormalizePending(a, f).value, tool);
  }

  /** Resolving consent while the generation is known, and reading it afterwards. */
  lemma ReadNamed(a: Adapters, version: nat, o: Option<Json>, tool: Key)
    requires Lawful(a) && GateValue(a, version, PENDING_CREATION_VERSION, ToCreation, o).Ok?
    ensures var f, g := FieldsOf(o), FieldsOf(GateValue(a, version, PENDING_CREATION_VERSION, ToCreation, o).value);
            && NamedLifetime(a, g, PENDING_CREATION_VERSION) == NamedLifetime(a, f, version)
            && OwnLifetime(g, tool) == OwnLifetime(f, tool)
  {
    hide GateValue;
    GateFields(a, version, PENDING_CREATION_VERSION, ToCreation, o);
    assert a.nonNegative(Int(0)) == Some(0) && a.boolean(Bool(false)) == Some(false) && a.positive(Int(86_400)) == Some(86_400);
  }

  /** What a converted section's fields are made of. */
  lemma ConvertedFields(a: Adapters, r: Fields, k: Key)
    requires CanonicalizeDocument(a, r).Ok? && PolicySection(k)
    ensures var e := CanonicalizeDocument(a, r).value;
            if !HasSection(r, k) then Section(e, k) == map[] && Section(r, k) == map[]
            else
              var f := if k == LINEAGE_GC then r[k].fields - {POLL_INTERVAL_SECONDS} else r[k].fields;
              RewriteFields(a, PolicyRewrite(k), f) == Ok(Section(e, k))
  {
    hide Canonicalize, TagStorage, RewriteFields;
    AcceptedAt(a, r, k);
    var e := CanonicalizeDocument(a, r).value;
    assert CanonicalAt(a, r, k) == Ok(Lookup(e, k));
    if k == LINEAGE_GC && HasSection(r, k) && POLL_INTERVAL_SECONDS !in r[k].fields {
      assert r[k].fields - {POLL_INTERVAL_SECONDS} == r[k].fields;
    }
  }

  // ----- whole documents ------------------------------------------------------------------------------------

  /** The converted sections, setting by setting, from a document whose generation is dropped. */
  lemma ConvertedPolicy(a: Adapters, r: Fields, tool: Key)
    requires Lawful(a) && CanonicalizeDocument(a, r).Ok?
    ensures var e := CanonicalizeDocument(a, r).value;
            && EffectivePolicy(a, e, FILE_FORMAT_VERSION) == NamedPolicy(a, r, FILE_FORMAT_VERSION)
            && ToolLifetime(a, e, FILE_FORMAT_VERSION, tool) == NamedToolLifetime(a, r, FILE_FORMAT_VERSION, tool)
  {
    hide CanonicalizeDocument, NormalizeOptimizer, NormalizePending, CanonicalizeFloor, CanonicalizeAudit, CanonicalizeLineage,
         NamedBudget, NamedAgentGate, NamedUserGate, NamedPool, NamedAuditAge, NamedGrace;
    ConvertedFields(a, r, PLAYBOOK_OPTIMIZER_CONFIG);
    ConvertedFields(a, r, RETRIEVAL_FLOOR);
    ConvertedFields(a, r, GOVERNANCE_RETENTION);
    ConvertedFields(a, r, LINEAGE_GC);
    ConvertedFields(a, r, PENDING_TOOL_CALL_CONFIG);
    NothingNamed(a);
    if HasSection(r, PLAYBOOK_OPTIMIZER_CONFIG) { OptimizerNamed(a, Section(r, PLAYBOOK_OPTIMIZER_CONFIG)); }
    if HasSection(r, RETRIEVAL_FLOOR) { RetentionNamed(a, Section(r, RETRIEVAL_FLOOR)); }
    if HasSection(r, GOVERNANCE_RETENTION) { RetentionNamed(a, Section(r, GOVERNANCE_RETENTION)); }
    if HasSection(r, LINEAGE_GC) {
      RetentionNamed(a, Section(r, LINEAGE_GC) - {POLL_INTERVAL_SECONDS});
      CadenceNamed(a, Section(r, LINEAGE_GC));
    }
    if HasSection(r, PENDING_TOOL_CALL_CONFIG) { PendingNamed(a, Section(r, PENDING_TOOL_CALL_CONFIG), tool); }
  }

  lemma NothingNamed(a: Adapters)
    ensures NamedBudget(a, map[]) == a.nonNegative(Int(0)) && NamedAgentGate(a, map[]) == a.boolean(Bool(false))
    ensures NamedUserGate(a, map[]) == a.boolean(Bool(false)) && NamedPool(a, map[]) == a.nonNegative(Int(0))
    ensures NamedAuditAge(a, map[]) == a.nonNegative(Int(0)) && NamedGrace(a, map[]) == a.nonNegative(Int(90))
  {
  }

  /** Every document the conversion accepts, of every generation and with whatever old lists,
      aliases, thresholds or storage spellings: the result means what the names in it say. */
  lemma ConversionReadsNames(a: Adapters, d: Fields, version: nat, tool: Key)
    requires Lawful(a) && version <= FILE_FORMAT_VERSION
    requires ConversionRead(a, d, version).Ok? && CanonicalizeDocument(a, ConversionRead(a, d, version).value).Ok?
    ensures var e := CanonicalizeDocument(a, ConversionRead(a, d, version).value).value;
            && EffectivePolicy(a, e, FILE_FORMAT_VERSION) == NamedPolicy(a, d, version)
            && ToolLifetime(a, e, FILE_FORMAT_VERSION, tool) == NamedToolLifetime(a, d, version, tool)
  {
    hide ConversionRead, CanonicalizeDocument, EffectivePolicy, ToolLifetime, NamedLifetime, GateValue, Lookup;
    var r := ConversionRead(a, d, version).value;
    ConvertedPolicy(a, r, tool);
    forall k
      ensures k != PENDING_TOOL_CALL_CONFIG ==> Section(r, k) == Section(d, k)
    {
      RouteConvergence.ReadAt(a, d, version, r, k);
      SectionFields(r, k);
      SectionFields(d, k);
    }
    RouteConvergence.ReadAt(a, d, version, r, PENDING_TOOL_CALL_CONFIG);
    ReadNamed(a, version, Lookup(d, PENDING_TOOL_CALL_CONFIG), tool);
    SectionFields(r, PENDING_TOOL_CALL_CONFIG);
    SectionFields(d, PENDING_TOOL_CALL_CONFIG);
  }

  /** A switch the document's own generation had already retired, and its schema refused. */
  predicate RefusedSwitch(version: nat, section: Key, field: Key) {
    || (section == PLAYBOOK_OPTIMIZER_CONFIG &&
          (|| field == OPTIMIZE_USER_PLAYBOOKS || field == AUTO_UPDATE_USER_PLAYBOOKS
           || (version >= 1 && (field == OPTIMIZE_AGENT_PLAYBOOKS || field == AUTO_UPDATE_PENDING_AGENT_PLAYBOOKS))
           || (version >= 5 && (field == ENABLED || field == MAX_METRIC_CALLS))))
    || (section == RETRIEVAL_FLOOR && version >= 2 && (field == ENABLED || field == POOL_SIZE))
    || (section == GOVERNANCE_RETENTION && version >= 3
        && (field == AUDIT_EVENTS_RETENTION_ENABLED || field == AUDIT_EVENTS_RETENTION_DAYS))
    || (section == LINEAGE_GC && version >= LINEAGE_RETENTION_VERSION && field == ENABLED)
    || (section == PENDING_TOOL_CALL_CONFIG && version >= PENDING_CREATION_VERSION && field == ENABLED)
  }

  /** The document uses the names of its own generation: none that came later, none that was
      already gone, and a grace its schema could read. */
  ghost predicate OfGeneration(a: Adapters, d: Fields, version: nat) {
    && !AmbiguousPolicy(d, version)
    && (forall section, field :: RefusedSwitch(version, section, field) ==> field !in Section(d, section))
    && (version < LINEAGE_RETENTION_VERSION ==>
          a.positive(Get(Section(d, LINEAGE_GC), TOMBSTONE_GRACE_WINDOW_DAYS, Int(90))).Some?)
  }

  /** On such a document the names say what its generation made of them. */
  lemma NamesMeanGeneration(a: Adapters, d: Fields, version: nat, tool: Key)
    requires Lawful(a) && OfGeneration(a, d, version)
    ensures NamedPolicy(a, d, version) == EffectivePolicy(a, d, version)
    ensures NamedToolLifetime(a, d, version, tool) == ToolLifetime(a, d, version, tool)
  {
    OptimizerNames(a, d, version);
    RetentionNames(a, d, version);
    LineageNames(a, d, version);
    hide OfGeneration, NamedBudget, NamedAgentGate, NamedUserGate, NamedPool, NamedAuditAge, NamedGrace;
    assert version >= PENDING_CREATION_VERSION ==> ENABLED !in Section(d, PENDING_TOOL_CALL_CONFIG) by { PendingNames(a, d, version); }
  }

  lemma PendingNames(a: Adapters, d: Fields, version: nat)
    requires OfGeneration(a, d, version)
    ensures version >= PENDING_CREATION_VERSION ==> ENABLED !in Section(d, PENDING_TOOL_CALL_CONFIG)
  {
    assert version >= PENDING_CREATION_VERSION ==> RefusedSwitch(version, PENDING_TOOL_CALL_CONFIG, ENABLED);
  }

  lemma OptimizerNames(a: Adapters, d: Fields, version: nat)
    requires Lawful(a) && OfGeneration(a, d, version)
    ensures var f := Section(d, PLAYBOOK_OPTIMIZER_CONFIG);
            && NamedBudget(a, f) == PolicyPreservation.OptimizerBudget(a, d, version)
            && NamedAgentGate(a, f) == AgentGate(a, d, version)
            && NamedUserGate(a, f) == UserGate(a, d)
  {
    var s := PLAYBOOK_OPTIMIZER_CONFIG;
    assert RefusedSwitch(version, s, OPTIMIZE_USER_PLAYBOOKS) && RefusedSwitch(version, s, AUTO_UPDATE_USER_PLAYBOOKS);
    assert version >= 1 ==> RefusedSwitch(version, s, OPTIMIZE_AGENT_PLAYBOOKS) && RefusedSwitch(version, s, AUTO_UPDATE_PENDING_AGENT_PLAYBOOKS);
    assert version >= 5 ==> RefusedSwitch(version, s, ENABLED) && RefusedSwitch(version, s, MAX_METRIC_CALLS);
    assert a.boolean(Bool(true)) == Some(true) && a.boolean(Bool(false)) == Some(false);
    assert a.nonNegative(Int(0)) == Some(0) && a.positive(Int(20)) == Some(20);
  }

  lemma RetentionNames(a: Adapters, d: Fields, version: nat)
    requires Lawful(a) && OfGeneration(a, d, version)
    ensures NamedPool(a, Section(d, RETRIEVAL_FLOOR)) == RetrievalPool(a, d, version)
    ensures NamedAuditAge(a, Section(d, GOVERNANCE_RETENTION)) == AuditAge(a, d, version)
  {
    assert version >= 2 ==> RefusedSwitch(version, RETRIEVAL_FLOOR, ENABLED) && RefusedSwitch(version, RETRIEVAL_FLOOR, POOL_SIZE);
    assert version >= 3 ==> RefusedSwitch(version, GOVERNANCE_RETENTION, AUDIT_EVENTS_RETENTION_ENABLED)
                            && RefusedSwitch(version, GOVERNANCE_RETENTION, AUDIT_EVENTS_RETENTION_DAYS);
    assert a.boolean(Bool(false)) == Some(false) && a.nonNegative(Int(0)) == Some(0);
    assert a.positive(Int(30)) == Some(30) && a.positive(Int(365)) == Some(365);
  }

  lemma LineageNames(a: Adapters, d: Fields, version: nat)
    requires Lawful(a) && OfGeneration(a, d, version)
    ensures NamedGrace(a, Section(d, LINEAGE_GC)) == LineageGrace(a, d, version)
  {
    assert version >= LINEAGE_RETENTION_VERSION ==> RefusedSwitch(version, LINEAGE_GC, ENABLED);
    assert a.boolean(Bool(true)) == Some(true) && a.positive(Int(90)) == Some(90) && a.nonNegative(Int(90)) == Some(90);
  }

  /** For every generation: the conversion of a document written for it means what the document
      meant under it. */
  lemma ConversionPreservesPolicy(a: Adapters, d: Fields, version: nat, tool: Key)
    requires Lawful(a) && version <= FILE_FORMAT_VERSION && OfGeneration(a, d, version)
    requires ConversionRead(a, d, version).Ok? && CanonicalizeDocument(a, ConversionRead(a, d, version).value).Ok?
    ensures var e := CanonicalizeDocument(a, ConversionRead(a, d, version).value).value;
            && EffectivePolicy(a, e, FILE_FORMAT_VERSION) == EffectivePolicy(a, d, version)
            && ToolLifetime(a, e, FILE_FORMAT_VERSION, tool) == ToolLifetime(a, d, version, tool)
  {
    hide ConversionRead, CanonicalizeDocument, EffectivePolicy, ToolLifetime, NamedPolicy, NamedToolLifetime, OfGeneration;
    ConversionReadsNames(a, d, version, tool);
    NamesMeanGeneration(a, d, version, tool);
  }

  lemma RefusedIsNotOwned(version: nat, section: Key, field: Key)
    requires version < FILE_FORMAT_VERSION && RefusedSwitch(version, section, field)
    ensures RefusedSwitch(FILE_FORMAT_VERSION, section, field)
    ensures section != LLM_CONFIG && !Owned(version, section, field)
  {
  }

  lemma GraceWasReadable(a: Adapters, d: Fields, version: nat)
    requires Lawful(a) && version < LINEAGE_RETENTION_VERSION && PrepareDocument(a, d, version).Ok?
    ensures a.positive(Get(Section(d, LINEAGE_GC), TOMBSTONE_GRACE_WINDOW_DAYS, Int(90))).Some?
  {
    hide PrepareDocument, OptimizerUpgrade, PendingUpgrade, CanonicalizeCustomEndpoint;
    UpgradedSections(a, d, version, PrepareDocument(a, d, version).value);
    assert a.positive(Int(90)) == Some(90);
  }

  /** Every file the upgrade serves is written for its generation: it is enough that the
      upgraded document has none of the switches the current schema refuses. */
  lemma UpgradableIsOfGeneration(a: Adapters, d: Fields, version: nat)
    requires Lawful(a) && version <= FILE_FORMAT_VERSION && PrepareDocument(a, d, version).Ok?
    requires forall section, field :: RefusedSwitch(FILE_FORMAT_VERSION, section, field) ==>
               field !in Section(PrepareDocument(a, d, version).value, section)
    ensures OfGeneration(a, d, version)
  {
    if version == FILE_FORMAT_VERSION {
      CurrentIsKept(a, d);
    } else {
      Unambiguous(a, d, version);
      if version < LINEAGE_RETENTION_VERSION { GraceWasReadable(a, d, version); }
      hide PrepareDocument, AmbiguousPolicy, RefusedSwitch, Owned;
      var p := PrepareDocument(a, d, version).value;
      forall section, field | RefusedSwitch(version, section, field)
        ensures field !in Section(d, section)
      {
        RefusedIsNotOwned(version, section, field);
        UpgradeTouchesOnlyOwned(a, d, version, section, field);
        SectionFields(d, section);
        SectionFields(p, section);
        assert Lookup(Section(p, section), field) == Lookup(Section(d, section), field);
      }
    }
  }

  /** The condition is needed: a switch the current schema refuses is read again by the
      conversion, and turns on a pool that its own generation left off. */
  lemma RefusedSwitchRevives(a: Adapters)
    requires Lawful(a)
    ensures var d: Fields := map[RETRIEVAL_FLOOR := Obj(map[ENABLED := Bool(true)])];
            && EffectivePolicy(a, d, FILE_FORMAT_VERSION).retrievalPool == Some(0)
            && (CanonicalizeDocument(a, d).Ok? ==>
                  ConversionRead(a, d, FILE_FORMAT_VERSION) == Ok(d)
                  && EffectivePolicy(a, CanonicalizeDocument(a, d).value, FILE_FORMAT_VERSION).retrievalPool == Some(30))
  {
    hide CanonicalizeDocument;
    var d: Fields := map[RETRIEVAL_FLOOR := Obj(map[ENABLED := Bool(true)])];
    assert a.boolean(Bool(true)) == Some(true) && a.positive(Int(30)) == Some(30) && a.nonNegative(Int(0)) == Some(0);
    if CanonicalizeDocument(a, d).Ok? {
      ConversionReadsNames(a, d, FILE_FORMAT_VERSION, 0);
    }
  }

  // ----- exactly when the meaning is kept -------------------------------------------------------------------

  /** Per setting: an old switch its generation refused is off, or a current name its generation
      ignored says what the old ones did. */
  predicate KeepsBudget(a: Adapters, f: Fields, version: nat) {
    if OptimizerPolicy.HasWorkSwitch(f) then version < 5 || a.boolean(Get(f, ENABLED, Bool(false))) == Some(false)
    else version >= 5 || a.nonNegative(Get(f, METRIC_CALL_BUDGET, Int(0))) == Some(0)
  }

  predicate KeepsAgentGate(a: Adapters, f: Fields, version: nat) {
    var folded := Both(a.boolean(Get(f, OPTIMIZE_AGENT_PLAYBOOKS, Bool(false))),
                       a.boolean(Get(f, AUTO_UPDATE_PENDING_AGENT_PLAYBOOKS, Bool(true))));
    if version == 0 then AGENT_PLAYBOOKS_ENABLED in f ==> a.boolean(f[AGENT_PLAYBOOKS_ENABLED]) == folded
    else OptimizerPolicy.HasAgentSwitch(f) && AGENT_PLAYBOOKS_ENABLED !in f ==> folded == Some(false)
  }

  predicate KeepsUserGate(a: Adapters, f: Fields) {
    OptimizerPolicy.HasUserSwitch(f) && USER_PLAYBOOKS_ENABLED !in f ==>
      Both(a.boolean(Get(f, OPTIMIZE_USER_PLAYBOOKS, Bool(false))), a.boolean(Get(f, AUTO_UPDATE_USER_PLAYBOOKS, Bool(false)))) == Some(false)
  }

  predicate KeepsPool(a: Adapters, f: Fields, version: nat) {
    var enabled := a.boolean(Get(f, ENABLED, Bool(false)));
    if version < 2
    then CANDIDATE_POOL_SIZE in f ==>
           a.nonNegative(f[CANDIDATE_POOL_SIZE]) == Switched(enabled, a.positive(Get(f, POOL_SIZE, Int(30))))
    else (ENABLED in f || POOL_SIZE in f) && CANDIDATE_POOL_SIZE !in f ==> enabled == Some(false)
  }

  predicate KeepsAuditAge(a: Adapters, f: Fields, version: nat) {
    if AUDIT_EVENTS_RETENTION_ENABLED in f || AUDIT_EVENTS_RETENTION_DAYS in f
    then version < 3 || a.boolean(Get(f, AUDIT_EVENTS_RETENTION_ENABLED, Bool(false))) == Some(false)
    else version >= 3 || a.nonNegative(Get(f, AUDIT_EVENTS_MAX_AGE_DAYS, Int(0))) == Some(0)
  }

  predicate KeepsGrace(a: Adapters, f: Fields, version: nat) {
    var days := Get(f, TOMBSTONE_GRACE_WINDOW_DAYS, Int(90));
    if ENABLED in f then version < LINEAGE_RETENTION_VERSION || a.boolean(f[ENABLED]) == Some(true)
    else version >= LINEAGE_RETENTION_VERSION || a.positive(days) == a.nonNegative(days)
  }

  predicate KeepsLifetime(a: Adapters, f: Fields, version: nat) {
    version >= PENDING_CREATION_VERSION && ENABLED in f ==>
      (a.boolean(f[ENABLED]) == Some(true) <==> PENDING_TTL_SECONDS in f)
  }

  predicate KeepsMeaning(a: Adapters, d: Fields, version: nat) {
    var f := Section(d, PLAYBOOK_OPTIMIZER_CONFIG);
    && KeepsBudget(a, f, version) && KeepsAgentGate(a, f, version) && KeepsUserGate(a, f)
    && KeepsPool(a, Section(d, RETRIEVAL_FLOOR), version) && KeepsAuditAge(a, Section(d, GOVERNANCE_RETENTION), version)
    && KeepsGrace(a, Section(d, LINEAGE_GC), version) && KeepsLifetime(a, Section(d, PENDING_TOOL_CALL_CONFIG), version)
  }

  lemma OptimizerKeptIff(a: Adapters, d: Fields, version: nat)
    requires Lawful(a) && OptimizerPolicy.Accepted(a, Section(d, PLAYBOOK_OPTIMIZER_CONFIG))
    ensures var f := Section(d, PLAYBOOK_OPTIMIZER_CONFIG);
            && (NamedBudget(a, f) == PolicyPreservation.OptimizerBudget(a, d, version) <==> KeepsBudget(a, f, version))
            && (NamedAgentGate(a, f) == AgentGate(a, d, version) <==> KeepsAgentGate(a, f, version))
            && (NamedUserGate(a, f) == UserGate(a, d) <==> KeepsUserGate(a, f))
  {
    hide OptimizerPolicy.TransportAccepted;
    assert a.boolean(Bool(true)) == Some(true) && a.boolean(Bool(false)) == Some(false);
    assert a.nonNegative(Int(0)) == Some(0) && a.positive(Int(20)) == Some(20);
  }

  lemma PoolKeptIff(a: Adapters, d: Fields, version: nat)
    requires Lawful(a) && CanonicalizeFloor(a, Section(d, RETRIEVAL_FLOOR)).Ok?
    ensures NamedPool(a, Section(d, RETRIEVAL_FLOOR)) == RetrievalPool(a, d, version) <==> KeepsPool(a, Section(d, RETRIEVAL_FLOOR), version)
  {
    assert a.boolean(Bool(false)) == Some(false) && a.nonNegative(Int(0)) == Some(0) && a.positive(Int(30)) == Some(30);
  }

  lemma AuditKeptIff(a: Adapters, d: Fields, version: nat)
    requires Lawful(a) && CanonicalizeAudit(a, Section(d, GOVERNANCE_RETENTION)).Ok?
    ensures NamedAuditAge(a, Section(d, GOVERNANCE_RETENTION)) == AuditAge(a, d, version)
       <==> KeepsAuditAge(a, Section(d, GOVERNANCE_RETENTION), version)
  {
    assert a.boolean(Bool(false)) == Some(false) && a.nonNegative(Int(0)) == Some(0) && a.positive(Int(365)) == Some(365);
  }

  lemma GraceKeptIff(a: Adapters, d: Fields, version: nat)
    requires Lawful(a) && CanonicalizeLineage(a, Section(d, LINEAGE_GC) - {POLL_INTERVAL_SECONDS}, false).Ok?
    ensures NamedGrace(a, Section(d, LINEAGE_GC)) == LineageGrace(a, d, version) <==> KeepsGrace(a, Section(d, LINEAGE_GC), version)
  {
    assert a.boolean(Bool(true)) == Some(true);
  }

  lemma LifetimeKeptIff(a: Adapters, d: Fields, version: nat)
    requires Lawful(a) && version <= PENDING_CREATION_VERSION
    requires version == PENDING_CREATION_VERSION ==> NormalizePending(a, Section(d, PENDING_TOOL_CALL_CONFIG)).Ok?
    ensures NamedLifetime(a, Section(d, PENDING_TOOL_CALL_CONFIG), version) == PendingLifetime(a, d, version)
       <==> KeepsLifetime(a, Section(d, PENDING_TOOL_CALL_CONFIG), version)
  {
    hide StripFollowups;
    var f := Section(d, PENDING_TOOL_CALL_CONFIG);
    assert a.nonNegative(Int(0)) == Some(0) && a.positive(Int(86_400)) == Some(86_400);
    if version == PENDING_CREATION_VERSION {
      var timed := StripPendingTiming(a, f).value;
      FollowupsNamed(timed, 0);
      var stripped := StripFollowups(timed);
      assert Lookup(stripped, ENABLED) == Lookup(f, ENABLED) && Lookup(stripped, PENDING_TTL_SECONDS) == Lookup(f, PENDING_TTL_SECONDS);
    }
  }

  lemma NothingWritten(a: Adapters)
    requires Lawful(a)
    ensures OptimizerPolicy.Accepted(a, map[]) && CanonicalizeFloor(a, map[]).Ok? && CanonicalizeAudit(a, map[]).Ok?
    ensures CanonicalizeLineage(a, map[] - {POLL_INTERVAL_SECONDS}, false).Ok? && NormalizePending(a, map[]).Ok?
  {
  }

  lemma AcceptedSections(a: Adapters, r: Fields)
    requires Lawful(a) && CanonicalizeDocument(a, r).Ok?
    ensures OptimizerPolicy.Accepted(a, Section(r, PLAYBOOK_OPTIMIZER_CONFIG))
    ensures CanonicalizeFloor(a, Section(r, RETRIEVAL_FLOOR)).Ok? && CanonicalizeAudit(a, Section(r, GOVERNANCE_RETENTION)).Ok?
    ensures CanonicalizeLineage(a, Section(r, LINEAGE_GC) - {POLL_INTERVAL_SECONDS}, false).Ok?
    ensures NormalizePending(a, Section(r, PENDING_TOOL_CALL_CONFIG)).Ok?
  {
    hide CanonicalizeDocument, NormalizeOptimizer, NormalizePending, CanonicalizeFloor, CanonicalizeAudit, CanonicalizeLineage,
         OptimizerPolicy.Accepted;
    NothingWritten(a);
    ConvertedFields(a, r, PLAYBOOK_OPTIMIZER_CONFIG);
    ConvertedFields(a, r, RETRIEVAL_FLOOR);
    ConvertedFields(a, r, GOVERNANCE_RETENTION);
    ConvertedFields(a, r, LINEAGE_GC);
    ConvertedFields(a, r, PENDING_TOOL_CALL_CONFIG);
    OptimizerPolicy.Closed(a, Section(r, PLAYBOOK_OPTIMIZER_CONFIG));
  }

  /** The conversion of an accepted document, of any generation, keeps every effective setting
      exactly when each refused switch in it is off and each ignored current name repeats what
      the old ones said; the tools' lifetimes are then kept too. */
  lemma ConversionPreservesPolicyIff(a: Adapters, d: Fields, version: nat, tool: Key)
    requires Lawful(a) && version <= FILE_FORMAT_VERSION
    requires ConversionRead(a, d, version).Ok? && CanonicalizeDocument(a, ConversionRead(a, d, version).value).Ok?
    ensures var e := CanonicalizeDocument(a, ConversionRead(a, d, version).value).value;
            && (EffectivePolicy(a, e, FILE_FORMAT_VERSION) == EffectivePolicy(a, d, version) <==> KeepsMeaning(a, d, version))
            && (KeepsMeaning(a, d, version) ==> ToolLifetime(a, e, FILE_FORMAT_VERSION, tool) == ToolLifetime(a, d, version, tool))
  {
    hide ConversionRead, CanonicalizeDocument, NormalizePending, CanonicalizeFloor, CanonicalizeAudit, CanonicalizeLineage,
         OptimizerPolicy.Accepted, NamedBudget, NamedAgentGate, NamedUserGate, NamedPool, NamedAuditAge, NamedGrace, NamedLifetime,
         KeepsBudget, KeepsAgentGate, KeepsUserGate, KeepsPool, KeepsAuditAge, KeepsGrace, KeepsLifetime, Section,
         PolicyPreservation.OptimizerBudget, AgentGate, UserGate, RetrievalPool, AuditAge, LineageGrace, PendingLifetime;
    var r := ConversionRead(a, d, version).value;
    ConversionReadsNames(a, d, version, tool);
    AcceptedSections(a, r);
    ReadSections(a, d, version);
    OptimizerKeptIff(a, d, version);
    PoolKeptIff(a, d, version);
    AuditKeptIff(a, d, version);
    GraceKeptIff(a, d, version);
    LifetimeKeptIff(a, d, version);
  }

  lemma ReadSections(a: Adapters, d: Fields, version: nat)
    requires ConversionRead(a, d, version).Ok?
    ensures var r := ConversionRead(a, d, version).value;
            forall k :: k != PENDING_TOOL_CALL_CONFIG || version >= PENDING_CREATION_VERSION ==> Section(r, k) == Section(d, k)
  {
    hide ConversionRead, GateValue;
    var r := ConversionRead(a, d, version).value;
    forall k
      ensures k != PENDING_TOOL_CALL_CONFIG ==> Section(r, k) == Section(d, k)
    {
      RouteConvergence.ReadAt(a, d, version, r, k);
      SectionFields(r, k);
      SectionFields(d, k);
    }
    RouteConvergence.ReadAt(a, d, version, r, PENDING_TOOL_CALL_CONFIG);
    GateFields(a, version, PENDING_CREATION_VERSION, ToCreation, Lookup(d, PENDING_TOOL_CALL_CONFIG));
    SectionFields(r, PENDING_TOOL_CALL_CONFIG);
    SectionFields(d, PENDING_TOOL_CALL_CONFIG);
  }

  // ----- the storage reference ---------------------------------------------------------------------

  /** The backend a historical reference selected: an explicit tag under either spelling, else a
      managed reference, else HTTP selectors, even malformed ones, else a bare DSN. */
  function SelectedBackend(f: Fields): Json {
    if TYPE in f then f[TYPE]
    else if STORAGE_TYPE in f then f[STORAGE_TYPE]
    else if MANAGED_BY in f || URL in f || HTTP_KEY in f || READ_URL in f || READ_KEY in f then Str("supabase")
    else if DB_URL in f then Str("postgres")
    else Str("sqlite")
  }

  /** Tagging refuses exactly a reference with both spellings of one name. */
  lemma TaggingRefuses(f: Fields)
    ensures TagStorage(f).Refused? <==> (STORAGE_TYPE in f && TYPE in f) || (SCHEMA_NAME in f && SCHEMA in f)
  {
    hide NormalizeBackend;
  }

  /** Otherwise it records the backend the reference selected, keeps the schema under either
      spelling, drops the HTTP selectors of a Supabase reference, and leaves every other field
      alone. */
  lemma TaggingKeepsBackend(f: Fields, k: Key)
    requires TagStorage(f).Ok?
    ensures var tagged := TagStorage(f).value;
            && Lookup(tagged, TYPE) == Some(SelectedBackend(f))
            && Lookup(tagged, SCHEMA) == (if SCHEMA_NAME in f then Some(f[SCHEMA_NAME]) else Lookup(f, SCHEMA))
            && (k == URL || k == HTTP_KEY || k == READ_URL || k == READ_KEY ==>
                  Lookup(tagged, k) == if SelectedBackend(f) == Str("supabase") then None else Lookup(f, k))
            && (k == URL || k == HTTP_KEY || k == READ_URL || k == READ_KEY
                || k == TYPE || k == STORAGE_TYPE || k == SCHEMA || k == SCHEMA_NAME || Lookup(tagged, k) == Lookup(f, k))
  {
    hide Respell;
    forall x { RespelledAt(f, x); }
    RespelledAt(f, TYPE);
    RespelledAt(f, STORAGE_TYPE);
    RespelledAt(f, SCHEMA);
    RespelledAt(f, k);
    var g := Respell(Respell(f, STORAGE_TYPE, TYPE).value, SCHEMA_NAME, SCHEMA).value;
    SameSelectors(f, g);
  }

  lemma RespelledAt(f: Fields, x: Key)
    ensures Respell(f, STORAGE_TYPE, TYPE).Ok? && Respell(Respell(f, STORAGE_TYPE, TYPE).value, SCHEMA_NAME, SCHEMA).Ok? ==>
              Lookup(Respell(Respell(f, STORAGE_TYPE, TYPE).value, SCHEMA_NAME, SCHEMA).value, x) ==
              if x == STORAGE_TYPE || x == SCHEMA_NAME then None
              else if x == TYPE && STORAGE_TYPE in f then Some(f[STORAGE_TYPE])
              else if x == SCHEMA && SCHEMA_NAME in f then Some(f[SCHEMA_NAME])
              else Lookup(f, x)
    ensures Respell(f, STORAGE_TYPE, TYPE).Ok? <==> !(STORAGE_TYPE in f && TYPE in f)
  {
  }

  lemma SameSelectors(f: Fields, g: Fields)
    requires forall x :: x != TYPE && x != STORAGE_TYPE && x != SCHEMA && x != SCHEMA_NAME ==> Lookup(g, x) == Lookup(f, x)
    ensures (URL in g) == (URL in f) && (HTTP_KEY in g) == (HTTP_KEY in f) && (READ_URL in g) == (READ_URL in f)
    ensures (READ_KEY in g) == (READ_KEY in f) && (DB_URL in g) == (DB_URL in f) && (MANAGED_BY in g) == (MANAGED_BY in f)
  {
    assert Lookup(g, URL) == Lookup(f, URL) && Lookup(g, HTTP_KEY) == Lookup(f, HTTP_KEY) && Lookup(g, READ_URL) == Lookup(f, READ_URL);
    assert Lookup(g, READ_KEY) == Lookup(f, READ_KEY) && Lookup(g, DB_URL) == Lookup(f, DB_URL) && Lookup(g, MANAGED_BY) == Lookup(f, MANAGED_BY);
  }
}
