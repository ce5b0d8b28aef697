/** What an older file's settings meant under its own generation is what the upgraded file
    means under the current one; and an upgrade touches nothing a newer generation does not own. */
module PolicyPreservation {
  import opened Wrappers
  import opened Json
  import opened SectionRules
  import opened Canonicalizer
  import opened FileFormat

  // ----- the meaning of a document under a generation ------------------------------------------

  /** An on/off switch and a size read as one number: zero when off. */
  function Switched(enabled: Option<bool>, size: Option<int>): Option<int> {
    if enabled.None? || size.None? then None else Some(if enabled.value then size.value else 0)
  }

  function OptimizerBudget(a: Adapters, d: Fields, version: nat): Option<int> {
    var f := Section(d, PLAYBOOK_OPTIMIZER_CONFIG);
    if version < 5
    then Switched(a.boolean(Get(f, ENABLED, Bool(false))), a.positive(Get(f, MAX_METRIC_CALLS, Int(20))))
    else a.nonNegative(Get(f, METRIC_CALL_BUDGET, Int(0)))
  }

  function AgentGate(a: Adapters, d: Fields, version: nat): Option<bool> {
    var f := Section(d, PLAYBOOK_OPTIMIZER_CONFIG);
    if version == 0 then
      var optimize := a.boolean(Get(f, OPTIMIZE_AGENT_PLAYBOOKS, Bool(false)));
      var adopt := a.boolean(Get(f, AUTO_UPDATE_PENDING_AGENT_PLAYBOOKS, Bool(true)));
      if optimize.None? || adopt.None? then None else Some(optimize.value && adopt.value)
    else a.boolean(Get(f, AGENT_PLAYBOOKS_ENABLED, Bool(false)))
  }

  function UserGate(a: Adapters, d: Fields): Option<bool> {
    a.boolean(Get(Section(d, PLAYBOOK_OPTIMIZER_CONFIG), USER_PLAYBOOKS_ENABLED, Bool(false)))
  }

  function RetrievalPool(a: Adapters, d: Fields, version: nat): Option<int> {
    var f := Section(d, RETRIEVAL_FLOOR);
    if version < 2
    then Switched(a.boolean(Get(f, ENABLED, Bool(false))), a.positive(Get(f, POOL_SIZE, Int(30))))
    else a.nonNegative(Get(f, CANDIDATE_POOL_SIZE, Int(0)))
  }

  function AuditAge(a: Adapters, d: Fields, version: nat): Option<int> {
    var f := Section(d, GOVERNANCE_RETENTION);
    if version < 3
    then Switched(a.boolean(Get(f, AUDIT_EVENTS_RETENTION_ENABLED, Bool(false))),
                  a.positive(Get(f, AUDIT_EVENTS_RETENTION_DAYS, Int(365))))
    else a.nonNegative(Get(f, AUDIT_EVENTS_MAX_AGE_DAYS, Int(0)))
  }

  function LineageGrace(a: Adapters, d: Fields, version: nat): Option<int> {
    var f := Section(d, LINEAGE_GC);
    if version < LINEAGE_RETENTION_VERSION
    then Switched(a.boolean(Get(f, ENABLED, Bool(true))), a.positive(Get(f, TOMBSTONE_GRACE_WINDOW_DAYS, Int(90))))
    else a.nonNegative(Get(f, TOMBSTONE_GRACE_WINDOW_DAYS, Int(90)))
  }

  function PendingLifetime(a: Adapters, d: Fields, version: nat): Option<int> {
    var f := Section(d, PENDING_TOOL_CALL_CONFIG);
    if version < PENDING_CREATION_VERSION
    then Switched(a.boolean(Get(f, ENABLED, Bool(false))), a.positive(Get(f, PENDING_TTL_SECONDS, Int(86_400))))
    else a.nonNegative(Get(f, PENDING_TTL_SECONDS, Int(0)))
  }

  /** A tool may refine the lifetime once creation is consented to at all. */
  function ToolLifetime(a: Adapters, d: Fields, version: nat, tool: Key): Option<int> {
    var base := PendingLifetime(a, d, version);
    var own := Get(Section(Section(Section(d, PENDING_TOOL_CALL_CONFIG), TOOL_OVERRIDES), tool), PENDING_TTL_SECONDS, Null);
    if base.None? || base.value == 0 || own.Null? then base else a.positive(own)
  }

  predicate TextRole(k: Key) {
    k == GENERATION_MODEL_NAME || k == SHOULD_RUN_MODEL_NAME || k == PRE_RETRIEVAL_MODEL_NAME
  }

  /** Before the current generation a custom endpoint's own model overrode every text role. */
  function TextModel(a: Adapters, d: Fields, version: nat, role: Key): Option<Json> {
    if version < FILE_FORMAT_VERSION && HasEndpointModel(d) then
      match EndpointModel(a, d) case Some(name) => Some(Str(name)) case None => None
    else Lookup(Section(d, LLM_CONFIG), role)
  }

  // ----- one section at a time -------------------------------------------------------------------

  function FieldsOf(o: Option<Json>): Fields {
    if o.Some? && o.value.Obj? then o.value.fields else map[]
  }

  lemma SectionFields(d: Fields, k: Key)
    ensures Section(d, k) == FieldsOf(Lookup(d, k))
  {
  }

  /** The rules for one section, applied to its fields alone. */
  lemma GateFields(a: Adapters, version: nat, since: nat, rw: Rewrite, o: Option<Json>)
    requires GateValue(a, version, since, rw, o).Ok?
    ensures version >= since ==> GateValue(a, version, since, rw, o).value == o
    ensures version < since && o.Some? && o.value.Obj? ==>
              && RewriteFields(a, rw, o.value.fields).Ok?
              && GateValue(a, version, since, rw, o).value == Some(Obj(RewriteFields(a, rw, o.value.fields).value))
    ensures !(o.Some? && o.value.Obj?) ==> GateValue(a, version, since, rw, o).value == o
  {
    hide RewriteFields;
  }

  lemma FloorPreserved(a: Adapters, d: Fields, version: nat, p: Fields)
    requires Lawful(a) && version < FILE_FORMAT_VERSION && !AmbiguousPolicy(d, version)
    requires GateValue(a, version, 2, ToFloor, Lookup(d, RETRIEVAL_FLOOR)) == Ok(Lookup(p, RETRIEVAL_FLOOR))
    ensures RetrievalPool(a, p, FILE_FORMAT_VERSION) == RetrievalPool(a, d, version)
  {
    hide GateValue;
    GateFields(a, version, 2, ToFloor, Lookup(d, RETRIEVAL_FLOOR));
    SectionFields(d, RETRIEVAL_FLOOR);
    SectionFields(p, RETRIEVAL_FLOOR);
    assert a.boolean(Bool(false)) == Some(false) && a.positive(Int(30)) == Some(30) && a.nonNegative(Int(0)) == Some(0);
  }

  lemma AuditPreserved(a: Adapters, d: Fields, version: nat, p: Fields)
    requires Lawful(a) && version < FILE_FORMAT_VERSION && !AmbiguousPolicy(d, version)
    requires GateValue(a, version, 3, ToAudit, Lookup(d, GOVERNANCE_RETENTION)) == Ok(Lookup(p, GOVERNANCE_RETENTION))
    ensures AuditAge(a, p, FILE_FORMAT_VERSION) == AuditAge(a, d, version)
  {
    hide GateValue;
    GateFields(a, version, 3, ToAudit, Lookup(d, GOVERNANCE_RETENTION));
    SectionFields(d, GOVERNANCE_RETENTION);
    SectionFields(p, GOVERNANCE_RETENTION);
    assert a.boolean(Bool(false)) == Some(false) && a.positive(Int(365)) == Some(365) && a.nonNegative(Int(0)) == Some(0);
  }

  lemma LineagePreserved(a: Adapters, d: Fields, version: nat, p: Fields)
    requires Lawful(a) && version < FILE_FORMAT_VERSION
    requires GateValue(a, version, LINEAGE_RETENTION_VERSION, ToLineage(true), Lookup(d, LINEAGE_GC)) == Ok(Lookup(p, LINEAGE_GC))
    ensures LineageGrace(a, p, FILE_FORMAT_VERSION) == LineageGrace(a, d, version)
  {
    hide GateValue;
    GateFields(a, version, LINEAGE_RETENTION_VERSION, ToLineage(true), Lookup(d, LINEAGE_GC));
    SectionFields(d, LINEAGE_GC);
    SectionFields(p, LINEAGE_GC);
    assert a.boolean(Bool(true)) == Some(true) && a.positive(Int(90)) == Some(90) && a.nonNegative(Int(0)) == Some(0);
  }

  lemma TimingKeeps(a: Adapters, f: Fields, k: Key)
    requires StripPendingTiming(a, f).Ok? && k !in TIMING_FIELDS
    ensures Lookup(StripPendingTiming(a, f).value, k) == Lookup(f, k)
  {
  }

  lemma CreationFolded(a: Adapters, f: Fields)
    requires Lawful(a) && CanonicalizePending(a, f, true).Ok?
    ensures a.nonNegative(Get(CanonicalizePending(a, f, true).value, PENDING_TTL_SECONDS, Int(0)))
         == Switched(a.boolean(Get(f, ENABLED, Bool(false))), a.positive(Get(f, PENDING_TTL_SECONDS, Int(86_400))))
    ensures Lookup(CanonicalizePending(a, f, true).value, TOOL_OVERRIDES) == Lookup(f, TOOL_OVERRIDES)
  {
    assert a.nonNegative(Int(0)) == Some(0);
  }

  /** The pending section, fields to fields. */
  lemma PendingFields(a: Adapters, version: nat, o: Option<Json>)
    requires Lawful(a) && version < FILE_FORMAT_VERSION && PendingUpgrade(a, version, o).Ok?
    ensures var f, g := FieldsOf(o), FieldsOf(PendingUpgrade(a, version, o).value);
            && Lookup(g, TOOL_OVERRIDES) == Lookup(f, TOOL_OVERRIDES)
            && a.nonNegative(Get(g, PENDING_TTL_SECONDS, Int(0)))
               == Switched(a.boolean(Get(f, ENABLED, Bool(false))), a.positive(Get(f, PENDING_TTL_SECONDS, Int(86_400))))
  {
    hide GateValue, StripPendingTiming, CanonicalizePending;
    var o1 := GateValue(a, version, SINGLE_OWNER_EXECUTION_VERSION, ToTiming, o).value;
    GateFields(a, version, SINGLE_OWNER_EXECUTION_VERSION, ToTiming, o);
    GateFields(a, version, PENDING_CREATION_VERSION, ToCreation, o1);
    if o.Some? && o.value.Obj? {
      var f, f1 := FieldsOf(o), FieldsOf(o1);
      forall k | k == ENABLED || k == PENDING_TTL_SECONDS || k == TOOL_OVERRIDES
        ensures Lookup(f1, k) == Lookup(f, k)
      {
        if version < SINGLE_OWNER_EXECUTION_VERSION { TimingKeeps(a, f, k); }
      }
      CreationFolded(a, f1);
      assert Lookup(f1, ENABLED) == Lookup(f, ENABLED) && Lookup(f1, PENDING_TTL_SECONDS) == Lookup(f, PENDING_TTL_SECONDS);
      assert Lookup(f1, TOOL_OVERRIDES) == Lookup(f, TOOL_OVERRIDES);
    } else {
      assert a.boolean(Bool(false)) == Some(false) && a.positive(Int(86_400)) == Some(86_400) && a.nonNegative(Int(0)) == Some(0);
    }
  }

  lemma PendingPreserved(a: Adapters, d: Fields, version: nat, p: Fields, tool: Key)
    requires Lawful(a) && version < FILE_FORMAT_VERSION
    requires PendingUpgrade(a, version, Lookup(d, PENDING_TOOL_CALL_CONFIG)) == Ok(Lookup(p, PENDING_TOOL_CALL_CONFIG))
    ensures PendingLifetime(a, p, FILE_FORMAT_VERSION) == PendingLifetime(a, d, version)
    ensures ToolLifetime(a, p, FILE_FORMAT_VERSION, tool) == ToolLifetime(a, d, version, tool)
  {
    hide PendingUpgrade, Switched, FieldsOf;
    PendingFields(a, version, Lookup(d, PENDING_TOOL_CALL_CONFIG));
    SectionFields(d, PENDING_TOOL_CALL_CONFIG);
    SectionFields(p, PENDING_TOOL_CALL_CONFIG);
  }

  lemma OptimizerFrame(a: Adapters, rw: Rewrite, f: Fields, k: Key)
    requires rw.ToAgentSwitches? || rw.ToWorkBudget? || rw.ToNoJitter? || rw.ToNoReplay?
    requires RewriteFields(a, rw, f).Ok?
    requires rw.ToAgentSwitches? ==> k == ENABLED || k == MAX_METRIC_CALLS || k == METRIC_CALL_BUDGET || k == USER_PLAYBOOKS_ENABLED
    requires rw.ToWorkBudget? ==> k == AGENT_PLAYBOOKS_ENABLED || k == USER_PLAYBOOKS_ENABLED
    requires k == ENABLED || k == MAX_METRIC_CALLS || k == METRIC_CALL_BUDGET || k == AGENT_PLAYBOOKS_ENABLED || k == USER_PLAYBOOKS_ENABLED
    ensures Lookup(RewriteFields(a, rw, f).value, k) == Lookup(f, k)
  {
  }

  lemma BudgetFolded(a: Adapters, f: Fields)
    requires Lawful(a) && CanonicalizeWorkBudget(a, f).Ok? && METRIC_CALL_BUDGET !in f
    ensures a.nonNegative(Get(CanonicalizeWorkBudget(a, f).value, METRIC_CALL_BUDGET, Int(0)))
         == Switched(a.boolean(Get(f, ENABLED, Bool(false))), a.positive(Get(f, MAX_METRIC_CALLS, Int(20))))
  {
    assert a.boolean(Bool(false)) == Some(false) && a.positive(Int(20)) == Some(20) && a.nonNegative(Int(0)) == Some(0);
  }

  lemma GateFolded(a: Adapters, f: Fields)
    requires Lawful(a) && CanonicalizeAgentSwitches(a, f).Ok? && AGENT_PLAYBOOKS_ENABLED !in f
    ensures var optimize := a.boolean(Get(f, OPTIMIZE_AGENT_PLAYBOOKS, Bool(false)));
            var adopt := a.boolean(Get(f, AUTO_UPDATE_PENDING_AGENT_PLAYBOOKS, Bool(true)));
            && optimize.Some? && adopt.Some?
            && a.boolean(Get(CanonicalizeAgentSwitches(a, f).value, AGENT_PLAYBOOKS_ENABLED, Bool(false)))
            == Some(optimize.value && adopt.value)
  {
    assert a.boolean(Bool(false)) == Some(false) && a.boolean(Bool(true)) == Some(true);
  }

  lemma UnambiguousOptimizer(d: Fields, version: nat)
    requires !AmbiguousPolicy(d, version)
    ensures version < 5 ==> METRIC_CALL_BUDGET !in Section(d, PLAYBOOK_OPTIMIZER_CONFIG)
    ensures version == 0 ==> AGENT_PLAYBOOKS_ENABLED !in Section(d, PLAYBOOK_OPTIMIZER_CONFIG)
  {
  }

  /** The optimizer section, fields to fields. */
  lemma OptimizerFields(a: Adapters, version: nat, o: Option<Json>)
    requires Lawful(a) && OptimizerUpgrade(a, version, o).Ok?
    requires version < 5 ==> METRIC_CALL_BUDGET !in FieldsOf(o)
    requires version == 0 ==> AGENT_PLAYBOOKS_ENABLED !in FieldsOf(o)
    ensures var f, g := FieldsOf(o), FieldsOf(OptimizerUpgrade(a, version, o).value);
            && Lookup(g, USER_PLAYBOOKS_ENABLED) == Lookup(f, USER_PLAYBOOKS_ENABLED)
            && (if version < 5
                then a.nonNegative(Get(g, METRIC_CALL_BUDGET, Int(0)))
                     == Switched(a.boolean(Get(f, ENABLED, Bool(false))), a.positive(Get(f, MAX_METRIC_CALLS, Int(20))))
                else Lookup(g, METRIC_CALL_BUDGET) == Lookup(f, METRIC_CALL_BUDGET))
            && (if version == 0
                then
                  var optimize := a.boolean(Get(f, OPTIMIZE_AGENT_PLAYBOOKS, Bool(false)));
                  var adopt := a.boolean(Get(f, AUTO_UPDATE_PENDING_AGENT_PLAYBOOKS, Bool(true)));
                  && optimize.Some? && adopt.Some?
                  && a.boolean(Get(g, AGENT_PLAYBOOKS_ENABLED, Bool(false))) == Some(optimize.value && adopt.value)
                else Lookup(g, AGENT_PLAYBOOKS_ENABLED) == Lookup(f, AGENT_PLAYBOOKS_ENABLED))
  {
    hide GateValue, RewriteFields, Switched;
    var o1 := GateValue(a, version, 1, ToAgentSwitches, o).value;
    var o2 := GateValue(a, version, 5, ToWorkBudget, o1).value;
    var o3 := GateValue(a, version, 6, ToNoJitter, o2).value;
    GateFields(a, version, 1, ToAgentSwitches, o);
    GateFields(a, version, 5, ToWorkBudget, o1);
    GateFields(a, version, 6, ToNoJitter, o2);
    GateFields(a, version, 7, ToNoReplay, o3);
    if o.Some? && o.value.Obj? {
      var f1, f2, f3 := FieldsOf(o1), FieldsOf(o2), FieldsOf(o3);
      AgentPhase(a, version, FieldsOf(o), f1);
      BudgetPhase(a, version, f1, f2);
      TransportPhase(a, version, f2, f3, FieldsOf(OptimizerUpgrade(a, version, o).value));
    } else {
      assert a.boolean(Bool(false)) == Some(false) && a.boolean(Bool(true)) == Some(true);
      assert a.positive(Int(20)) == Some(20) && a.nonNegative(Int(0)) == Some(0);
      OffIsZero(20);
    }
  }

  lemma OptimizerPreserved(a: Adapters, d: Fields, version: nat, p: Fields)
    requires Lawful(a) && version < FILE_FORMAT_VERSION && !AmbiguousPolicy(d, version)
    requires OptimizerUpgrade(a, version, Lookup(d, PLAYBOOK_OPTIMIZER_CONFIG)) == Ok(Lookup(p, PLAYBOOK_OPTIMIZER_CONFIG))
    ensures OptimizerBudget(a, p, FILE_FORMAT_VERSION) == OptimizerBudget(a, d, version)
    ensures AgentGate(a, p, FILE_FORMAT_VERSION) == AgentGate(a, d, version)
    ensures UserGate(a, p) == UserGate(a, d)
  {
    hide OptimizerUpgrade, AmbiguousPolicy, Switched, FieldsOf;
    UnambiguousOptimizer(d, version);
    SectionFields(d, PLAYBOOK_OPTIMIZER_CONFIG);
    SectionFields(p, PLAYBOOK_OPTIMIZER_CONFIG);
    OptimizerFields(a, version, Lookup(d, PLAYBOOK_OPTIMIZER_CONFIG));
  }

  lemma OffIsZero(size: int)
    ensures Switched(Some(false), Some(size)) == Some(0)
  {
  }

  lemma AgentPhase(a: Adapters, version: nat, f: Fields, f1: Fields)
    requires Lawful(a)
    requires if version < 1 then RewriteFields(a, ToAgentSwitches, f) == Ok(f1) else f1 == f
    ensures Lookup(f1, ENABLED) == Lookup(f, ENABLED) && Lookup(f1, MAX_METRIC_CALLS) == Lookup(f, MAX_METRIC_CALLS)
    ensures Lookup(f1, METRIC_CALL_BUDGET) == Lookup(f, METRIC_CALL_BUDGET)
    ensures Lookup(f1, USER_PLAYBOOKS_ENABLED) == Lookup(f, USER_PLAYBOOKS_ENABLED)
    ensures version == 0 && AGENT_PLAYBOOKS_ENABLED !in f ==>
              var optimize := a.boolean(Get(f, OPTIMIZE_AGENT_PLAYBOOKS, Bool(false)));
              var adopt := a.boolean(Get(f, AUTO_UPDATE_PENDING_AGENT_PLAYBOOKS, Bool(true)));
              && optimize.Some? && adopt.Some?
              && a.boolean(Get(f1, AGENT_PLAYBOOKS_ENABLED, Bool(false))) == Some(optimize.value && adopt.value)
    ensures version > 0 ==> Lookup(f1, AGENT_PLAYBOOKS_ENABLED) == Lookup(f, AGENT_PLAYBOOKS_ENABLED)
  {
    hide CanonicalizeAgentSwitches;
    if version < 1 {
      OptimizerFrame(a, ToAgentSwitches, f, ENABLED);
      OptimizerFrame(a, ToAgentSwitches, f, MAX_METRIC_CALLS);
      OptimizerFrame(a, ToAgentSwitches, f, METRIC_CALL_BUDGET);
      OptimizerFrame(a, ToAgentSwitches, f, USER_PLAYBOOKS_ENABLED);
      if AGENT_PLAYBOOKS_ENABLED !in f { GateFolded(a, f); }
    }
  }

  lemma BudgetPhase(a: Adapters, version: nat, f1: Fields, f2: Fields)
    requires Lawful(a)
    requires if version < 5 then RewriteFields(a, ToWorkBudget, f1) == Ok(f2) else f2 == f1
    ensures Lookup(f2, AGENT_PLAYBOOKS_ENABLED) == Lookup(f1, AGENT_PLAYBOOKS_ENABLED)
    ensures Lookup(f2, USER_PLAYBOOKS_ENABLED) == Lookup(f1, USER_PLAYBOOKS_ENABLED)
    ensures version < 5 && METRIC_CALL_BUDGET !in f1 ==>
              a.nonNegative(Get(f2, METRIC_CALL_BUDGET, Int(0)))
              == Switched(a.boolean(Get(f1, ENABLED, Bool(false))), a.positive(Get(f1, MAX_METRIC_CALLS, Int(20))))
    ensures version >= 5 ==> Lookup(f2, METRIC_CALL_BUDGET) == Lookup(f1, METRIC_CALL_BUDGET)
  {
    hide CanonicalizeWorkBudget;
    if version < 5 {
      OptimizerFrame(a, ToWorkBudget, f1, AGENT_PLAYBOOKS_ENABLED);
      OptimizerFrame(a, ToWorkBudget, f1, USER_PLAYBOOKS_ENABLED);
      if METRIC_CALL_BUDGET !in f1 { BudgetFolded(a, f1); }
    }
  }

  lemma TransportPhase(a: Adapters, version: nat, f2: Fields, f3: Fields, f4: Fields)
    requires if version < 6 then RewriteFields(a, ToNoJitter, f2) == Ok(f3) else f3 == f2
    requires if version < 7 then RewriteFields(a, ToNoReplay, f3) == Ok(f4) else f4 == f3
    ensures Lookup(f4, AGENT_PLAYBOOKS_ENABLED) == Lookup(f2, AGENT_PLAYBOOKS_ENABLED)
    ensures Lookup(f4, USER_PLAYBOOKS_ENABLED) == Lookup(f2, USER_PLAYBOOKS_ENABLED)
    ensures Lookup(f4, METRIC_CALL_BUDGET) == Lookup(f2, METRIC_CALL_BUDGET)
  {
    hide RetireJitter, RetireReplay, RewriteFields;
    forall k | k == AGENT_PLAYBOOKS_ENABLED || k == USER_PLAYBOOKS_ENABLED || k == METRIC_CALL_BUDGET
      ensures Lookup(f4, k) == Lookup(f2, k)
    {
      if version < 6 { OptimizerFrame(a, ToNoJitter, f2, k); }
      if version < 7 { OptimizerFrame(a, ToNoReplay, f3, k); }
    }
  }

  lemma ModelsPreserved(a: Adapters, d: Fields, version: nat, p: Fields, e: Fields, role: Key)
    requires version < FILE_FORMAT_VERSION && TextRole(role)
    requires CanonicalizeCustomEndpoint(a, d) == Ok(e)
    requires Lookup(p, API_KEY_CONFIG) == Lookup(e, API_KEY_CONFIG) && Lookup(p, LLM_CONFIG) == Lookup(e, LLM_CONFIG)
    ensures TextModel(a, p, FILE_FORMAT_VERSION, role) == TextModel(a, d, version, role)
    ensures !HasEndpointModel(p)
  {
  }

  // ----- whole documents ---------------------------------------------------------------------------

  /** The effective settings an upgrade is responsible for. */
  datatype Policy = Policy(
    optimizerBudget: Option<int>, agentGate: Option<bool>, userGate: Option<bool>, retrievalPool: Option<int>,
    auditAge: Option<int>, lineageGrace: Option<int>, pendingLifetime: Option<int>)

  function EffectivePolicy(a: Adapters, d: Fields, version: nat): Policy {
    Policy(OptimizerBudget(a, d, version), AgentGate(a, d, version), UserGate(a, d), RetrievalPool(a, d, version),
           AuditAge(a, d, version), LineageGrace(a, d, version), PendingLifetime(a, d, version))
  }

  /** Upgrading from any generation keeps every effective setting: nothing off turns on, and no
      size, age, grace or lifetime moves, not even a single tool's. */
  lemma UpgradePreservesPolicy(a: Adapters, d: Fields, version: nat, tool: Key)
    requires Lawful(a) && version <= FILE_FORMAT_VERSION && PrepareDocument(a, d, version).Ok?
    ensures EffectivePolicy(a, PrepareDocument(a, d, version).value, FILE_FORMAT_VERSION) == EffectivePolicy(a, d, version)
    ensures ToolLifetime(a, PrepareDocument(a, d, version).value, FILE_FORMAT_VERSION, tool) == ToolLifetime(a, d, version, tool)
  {
    hide OptimizerBudget, AgentGate, UserGate, RetrievalPool, AuditAge, LineageGrace, PendingLifetime, ToolLifetime,
         GateValue, OptimizerUpgrade, PendingUpgrade, PrepareDocument, UpgradedAt, AmbiguousPolicy;
    if version == FILE_FORMAT_VERSION {
      CurrentIsKept(a, d);
    } else {
      var p := PrepareDocument(a, d, version).value;
      Unambiguous(a, d, version);
      UpgradedSections(a, d, version, p);
      OptimizerPreserved(a, d, version, p);
      FloorPreserved(a, d, version, p);
      AuditPreserved(a, d, version, p);
      LineagePreserved(a, d, version, p);
      PendingPreserved(a, d, version, p, tool);
    }
  }

  lemma CurrentIsKept(a: Adapters, d: Fields)
    ensures PrepareDocument(a, d, FILE_FORMAT_VERSION) == Ok(d)
  {
  }

  lemma Unambiguous(a: Adapters, d: Fields, version: nat)
    requires version < FILE_FORMAT_VERSION && PrepareDocument(a, d, version).Ok?
    ensures !AmbiguousPolicy(d, version)
  {
    hide UpgradePolicies, UpgradeMechanisms, PreparePendingCreation, AmbiguousPolicy;
  }

  lemma UpgradedSections(a: Adapters, d: Fields, version: nat, p: Fields)
    requires version < FILE_FORMAT_VERSION && PrepareDocument(a, d, version) == Ok(p)
    ensures OptimizerUpgrade(a, version, Lookup(d, PLAYBOOK_OPTIMIZER_CONFIG)) == Ok(Lookup(p, PLAYBOOK_OPTIMIZER_CONFIG))
    ensures GateValue(a, version, 2, ToFloor, Lookup(d, RETRIEVAL_FLOOR)) == Ok(Lookup(p, RETRIEVAL_FLOOR))
    ensures GateValue(a, version, 3, ToAudit, Lookup(d, GOVERNANCE_RETENTION)) == Ok(Lookup(p, GOVERNANCE_RETENTION))
    ensures GateValue(a, version, 8, ToNoStrategy, Lookup(d, USER_PLAYBOOK_EXTRACTOR_CONFIG))
         == Ok(Lookup(p, USER_PLAYBOOK_EXTRACTOR_CONFIG))
    ensures GateValue(a, version, LINEAGE_RETENTION_VERSION, ToLineage(true), Lookup(d, LINEAGE_GC)) == Ok(Lookup(p, LINEAGE_GC))
    ensures PendingUpgrade(a, version, Lookup(d, PENDING_TOOL_CALL_CONFIG)) == Ok(Lookup(p, PENDING_TOOL_CALL_CONFIG))
    ensures CanonicalizeCustomEndpoint(a, d).Ok?
    ensures Lookup(p, API_KEY_CONFIG) == Lookup(CanonicalizeCustomEndpoint(a, d).value, API_KEY_CONFIG)
    ensures Lookup(p, LLM_CONFIG) == Lookup(CanonicalizeCustomEndpoint(a, d).value, LLM_CONFIG)
  {
    hide GateValue, OptimizerUpgrade, PendingUpgrade, PrepareDocument, CanonicalizeCustomEndpoint, Lookup;
    UpgradedLookup(a, d, version, PLAYBOOK_OPTIMIZER_CONFIG);
    UpgradedLookup(a, d, version, RETRIEVAL_FLOOR);
    UpgradedLookup(a, d, version, GOVERNANCE_RETENTION);
    UpgradedLookup(a, d, version, USER_PLAYBOOK_EXTRACTOR_CONFIG);
    UpgradedLookup(a, d, version, LINEAGE_GC);
    UpgradedLookup(a, d, version, PENDING_TOOL_CALL_CONFIG);
    UpgradedLookup(a, d, version, API_KEY_CONFIG);
    UpgradedLookup(a, d, version, LLM_CONFIG);
  }

  /** Every text role keeps the model it was really served by. */
  lemma UpgradePreservesModels(a: Adapters, d: Fields, version: nat, role: Key)
    requires version <= FILE_FORMAT_VERSION && TextRole(role) && PrepareDocument(a, d, version).Ok?
    ensures TextModel(a, PrepareDocument(a, d, version).value, FILE_FORMAT_VERSION, role) == TextModel(a, d, version, role)
    ensures version < FILE_FORMAT_VERSION ==> !HasEndpointModel(PrepareDocument(a, d, version).value)
  {
    hide PrepareDocument, CanonicalizeCustomEndpoint, GateValue, OptimizerUpgrade, PendingUpgrade, TextModel, HasEndpointModel;
    if version < FILE_FORMAT_VERSION {
      var p := PrepareDocument(a, d, version).value;
      UpgradedSections(a, d, version, p);
      ModelsPreserved(a, d, version, p, CanonicalizeCustomEndpoint(a, d).value, role);
    } else {
      CurrentIsKept(a, d);
    }
  }

  /** The output limit a document set under its generation; older schemas ignored the name. */
  function OutputLimit(d: Fields, version: nat): Json {
    if version < 9 then Null else Get(Section(d, LLM_CONFIG), GENERATION_MAX_OUTPUT_TOKENS, Null)
  }

  lemma EndpointKeepsLimit(a: Adapters, d: Fields)
    requires CanonicalizeCustomEndpoint(a, d).Ok?
    ensures Get(Section(CanonicalizeCustomEndpoint(a, d).value, LLM_CONFIG), GENERATION_MAX_OUTPUT_TOKENS, Null)
         == Get(Section(d, LLM_CONFIG), GENERATION_MAX_OUTPUT_TOKENS, Null)
  {
  }

  lemma NoIgnoredLimit(d: Fields, version: nat)
    requires !AmbiguousPolicy(d, version)
    ensures OutputLimit(d, version) == Get(Section(d, LLM_CONFIG), GENERATION_MAX_OUTPUT_TOKENS, Null)
  {
  }

  /** An upgrade never turns an ignored output limit into a real one, nor loses one. */
  lemma UpgradePreservesOutputLimit(a: Adapters, d: Fields, version: nat)
    requires version <= FILE_FORMAT_VERSION && PrepareDocument(a, d, version).Ok?
    ensures OutputLimit(PrepareDocument(a, d, version).value, FILE_FORMAT_VERSION) == OutputLimit(d, version)
  {
    hide PrepareDocument, CanonicalizeCustomEndpoint, GateValue, OptimizerUpgrade, PendingUpgrade, AmbiguousPolicy;
    if version < FILE_FORMAT_VERSION {
      var p := PrepareDocument(a, d, version).value;
      Unambiguous(a, d, version);
      NoIgnoredLimit(d, version);
      UpgradedSections(a, d, version, p);
      EndpointKeepsLimit(a, d);
      SectionFields(p, LLM_CONFIG);
      SectionFields(CanonicalizeCustomEndpoint(a, d).value, LLM_CONFIG);
    } else {
      CurrentIsKept(a, d);
    }
  }

  // ----- what an upgrade leaves alone -----------------------------------------------------------------

  /** The fields each upgrade rule owns. */
  predicate Touches(rw: Rewrite, field: Key) {
    match rw
    case ToAgentSwitches =>
      field == OPTIMIZE_AGENT_PLAYBOOKS || field == AUTO_UPDATE_PENDING_AGENT_PLAYBOOKS || field == AGENT_PLAYBOOKS_ENABLED
    case ToWorkBudget => field == ENABLED || field == MAX_METRIC_CALLS || field == METRIC_CALL_BUDGET
    case ToNoJitter => field == SCHEDULER_JITTER_SECONDS
    case ToNoReplay => field == WEBHOOK_MAX_RETRIES || field == WEBHOOK_BACKOFF_BASE_SECONDS
    case ToFloor => field == ENABLED || field == POOL_SIZE || field == CANDIDATE_POOL_SIZE
    case ToAudit =>
      field == AUDIT_EVENTS_RETENTION_ENABLED || field == AUDIT_EVENTS_RETENTION_DAYS || field == AUDIT_EVENTS_MAX_AGE_DAYS
    case ToNoStrategy => field == DEDUPLICATION_CONFIG
    case ToTiming => field == RESUME_POLL_INTERVAL_SECONDS || field == RESUME_CLAIM_TTL_SECONDS
    case ToCreation => field == ENABLED || field == PENDING_TTL_SECONDS
    case ToLineage(_) => field == ENABLED || field == TOMBSTONE_GRACE_WINDOW_DAYS
    case _ => true
  }

  /** A rule newer than `version` that owns `field` of `section`. */
  predicate Owned(version: nat, section: Key, field: Key) {
    || (section == PLAYBOOK_OPTIMIZER_CONFIG &&
          ((version < 1 && Touches(ToAgentSwitches, field)) || (version < 5 && Touches(ToWorkBudget, field))
           || (version < 6 && Touches(ToNoJitter, field)) || (version < 7 && Touches(ToNoReplay, field))))
    || (section == RETRIEVAL_FLOOR && version < 2 && Touches(ToFloor, field))
    || (section == GOVERNANCE_RETENTION && version < 3 && Touches(ToAudit, field))
    || (section == USER_PLAYBOOK_EXTRACTOR_CONFIG && version < 8 && Touches(ToNoStrategy, field))
    || (section == PENDING_TOOL_CALL_CONFIG && ((version < 11 && Touches(ToTiming, field)) || Touches(ToCreation, field)))
    || (section == LINEAGE_GC && version < 12 && Touches(ToLineage(true), field))
    || (section == API_KEY_CONFIG && field == CUSTOM_ENDPOINT)
    || (section == LLM_CONFIG && TextRole(field))
  }

  lemma RewriteFrame(a: Adapters, rw: Rewrite, f: Fields, field: Key)
    requires RewriteFields(a, rw, f).Ok? && !Touches(rw, field)
    ensures Lookup(RewriteFields(a, rw, f).value, field) == Lookup(f, field)
  {
    hide NormalizeOptimizer, NormalizePlaybook, NormalizeProfile, NormalizePending;
  }

  /** A gated rule keeps presence, keeps a value that is not an object, and keeps the fields it
      does not own. */
  lemma GateFrame(a: Adapters, version: nat, since: nat, rw: Rewrite, o: Option<Json>, field: Key)
    requires GateValue(a, version, since, rw, o).Ok?
    ensures var q := GateValue(a, version, since, rw, o).value;
            && q.Some? == o.Some?
            && (o.Some? ==> q.value.Obj? == o.value.Obj?)
            && (o.Some? && !o.value.Obj? ==> q == o)
            && (version >= since || !Touches(rw, field) ==> Lookup(FieldsOf(q), field) == Lookup(FieldsOf(o), field))
  {
    hide RewriteFields, Touches;
    GateFields(a, version, since, rw, o);
    if version < since && o.Some? && o.value.Obj? && !Touches(rw, field) {
      RewriteFrame(a, rw, o.value.fields, field);
    }
  }

  ghost predicate Framed(o: Option<Json>, q: Option<Json>, field: Key, owned: bool) {
    && q.Some? == o.Some?
    && (o.Some? ==> q.value.Obj? == o.value.Obj?)
    && (o.Some? && !o.value.Obj? ==> q == o)
    && (!owned ==> Lookup(FieldsOf(q), field) == Lookup(FieldsOf(o), field))
  }

  lemma OptimizerUpgradeFrame(a: Adapters, version: nat, o: Option<Json>, field: Key)
    requires OptimizerUpgrade(a, version, o).Ok?
    ensures Framed(o, OptimizerUpgrade(a, version, o).value, field, Owned(version, PLAYBOOK_OPTIMIZER_CONFIG, field))
  {
    hide GateValue, Touches;
    var o1 := GateValue(a, version, 1, ToAgentSwitches, o).value;
    var o2 := GateValue(a, version, 5, ToWorkBudget, o1).value;
    var o3 := GateValue(a, version, 6, ToNoJitter, o2).value;
    GateFrame(a, version, 1, ToAgentSwitches, o, field);
    GateFrame(a, version, 5, ToWorkBudget, o1, field);
    GateFrame(a, version, 6, ToNoJitter, o2, field);
    GateFrame(a, version, 7, ToNoReplay, o3, field);
  }

  lemma PendingUpgradeFrame(a: Adapters, version: nat, o: Option<Json>, field: Key)
    requires PendingUpgrade(a, version, o).Ok?
    ensures Framed(o, PendingUpgrade(a, version, o).value, field, Owned(version, PENDING_TOOL_CALL_CONFIG, field))
  {
    hide GateValue, Touches;
    var o1 := GateValue(a, version, SINGLE_OWNER_EXECUTION_VERSION, ToTiming, o).value;
    GateFrame(a, version, SINGLE_OWNER_EXECUTION_VERSION, ToTiming, o, field);
    GateFrame(a, version, PENDING_CREATION_VERSION, ToCreation, o1, field);
  }

  lemma EndpointUpgradeFrame(a: Adapters, d: Fields, e: Fields, field: Key)
    requires CanonicalizeCustomEndpoint(a, d) == Ok(e)
    ensures Framed(Lookup(d, API_KEY_CONFIG), Lookup(e, API_KEY_CONFIG), field, field == CUSTOM_ENDPOINT)
    ensures !TextRole(field) ==> Lookup(Section(e, LLM_CONFIG), field) == Lookup(Section(d, LLM_CONFIG), field)
    ensures !HasEndpointModel(d) ==> e == d
  {
  }

  /** Only fields that belong to a rule newer than the file change. No other key moves; no
      section appears, disappears or changes kind, except the model section a custom endpoint's
      own model is carried over to. */
  lemma UpgradeTouchesOnlyOwned(a: Adapters, d: Fields, version: nat, section: Key, field: Key)
    requires version < FILE_FORMAT_VERSION && PrepareDocument(a, d, version).Ok?
    ensures var p := PrepareDocument(a, d, version).value;
            && (section != LLM_CONFIG || !HasEndpointModel(d) ==>
                  Framed(Lookup(d, section), Lookup(p, section), field, Owned(version, section, field)))
            && (section == LLM_CONFIG && !TextRole(field) ==>
                  Lookup(Section(p, section), field) == Lookup(Section(d, section), field))
  {
    hide PrepareDocument, UpgradedAt, GateValue, OptimizerUpgrade, PendingUpgrade, CanonicalizeCustomEndpoint, Touches, HasEndpointModel;
    var p := PrepareDocument(a, d, version).value;
    UpgradedSections(a, d, version, p);
    SectionFields(p, section);
    SectionFields(d, section);
    var e := CanonicalizeCustomEndpoint(a, d).value;
    SectionFields(e, section);
    if section == PLAYBOOK_OPTIMIZER_CONFIG {
      OptimizerUpgradeFrame(a, version, Lookup(d, section), field);
    } else if section == PENDING_TOOL_CALL_CONFIG {
      PendingUpgradeFrame(a, version, Lookup(d, section), field);
    } else if section == API_KEY_CONFIG || section == LLM_CONFIG {
      EndpointUpgradeFrame(a, d, e, field);
    } else if section == RETRIEVAL_FLOOR {
      GateFrame(a, version, 2, ToFloor, Lookup(d, section), field);
    } else if section == GOVERNANCE_RETENTION {
      GateFrame(a, version, 3, ToAudit, Lookup(d, section), field);
    } else if section == USER_PLAYBOOK_EXTRACTOR_CONFIG {
      GateFrame(a, version, 8, ToNoStrategy, Lookup(d, section), field);
    } else if section == LINEAGE_GC {
      GateFrame(a, version, LINEAGE_RETENTION_VERSION, ToLineage(true), Lookup(d, section), field);
    } else {
      UpgradedLookup(a, d, version, section);
      OtherSection(a, d, version, section);
    }
  }

  lemma OtherSection(a: Adapters, d: Fields, version: nat, k: Key)
    ensures !PolicySection(k) && k != API_KEY_CONFIG && k != LLM_CONFIG && k != USER_PLAYBOOK_EXTRACTOR_CONFIG ==>
              UpgradedAt(a, d, version, k) == Ok(Lookup(d, k))
  {
    hide GateValue, OptimizerUpgrade, PendingUpgrade, CanonicalizeCustomEndpoint;
  }
}
