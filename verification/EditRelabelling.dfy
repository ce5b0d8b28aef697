/** A strict edit stamps the current generation on an older file without running the upgrade
    rules. That is sound: the edit's guards and the schema only pass documents on which the
    upgrade is the identity, apart from one refusal, stated exactly. */
module EditRelabelling {
  import opened Wrappers
  import opened Json
  import opened SectionRules
  import opened Canonicalizer
  import opened FileFormat
  import opened Publication
  import opened PublicationSafety
  import opened LocalFile
  import PolicyPreservation

  /** The current schema rejects every name an upgrade rule would retire. */
  ghost predicate RejectsRetired(a: Adapters) {
    forall d :: a.schemaOk(d) ==> NoRetired(d)
  }

  predicate NoRetired(d: Fields) {
    && !HasEndpointModel(d)
    && (forall k :: k in Section(d, PLAYBOOK_OPTIMIZER_CONFIG) ==>
                      !PolicyPreservation.Touches(ToNoJitter, k) && !PolicyPreservation.Touches(ToNoReplay, k)
                      && k != OPTIMIZE_AGENT_PLAYBOOKS && k != AUTO_UPDATE_PENDING_AGENT_PLAYBOOKS
                      && k != ENABLED && k != MAX_METRIC_CALLS)
    && (forall k :: k in Section(d, RETRIEVAL_FLOOR) ==> k != ENABLED && k != POOL_SIZE)
    && (forall k :: k in Section(d, GOVERNANCE_RETENTION) ==> k != AUDIT_EVENTS_RETENTION_ENABLED && k != AUDIT_EVENTS_RETENTION_DAYS)
    && (forall k :: k in Section(d, LINEAGE_GC) ==> k != ENABLED)
    && (forall k :: k in Section(Section(d, USER_PLAYBOOK_EXTRACTOR_CONFIG), DEDUPLICATION_CONFIG) ==> k != STRATEGY)
  }

  /** What `edit_document` checks before it calls the edit. */
  predicate EditGuards(a: Adapters, d: Fields, version: nat) {
    !UnpreparedPendingCreation(d, version) && !AmbiguousPolicy(d, version) && a.schemaOk(d)
  }

  /** The one thing the upgrade still checks: a saved grace the old schema had to accept. */
  predicate GraceReadable(a: Adapters, d: Fields, version: nat) {
    version < LINEAGE_RETENTION_VERSION && HasSection(d, LINEAGE_GC) ==>
      a.positive(Get(Section(d, LINEAGE_GC), TOMBSTONE_GRACE_WINDOW_DAYS, Int(90))).Some?
  }

  lemma SectionUntouched(a: Adapters, d: Fields, version: nat, since: nat, k: Key, rw: Rewrite)
    requires version < since && HasSection(d, k) ==> RewriteFields(a, rw, Section(d, k)) == Ok(Section(d, k))
    ensures Gate(a, d, version, since, k, rw) == Ok(d)
  {
    hide RewriteFields;
    if k in d {
      assert d[k := d[k]] == d;
    }
  }

  lemma OptimizerUntouched(a: Adapters, f: Fields)
    requires forall k :: k in f ==>
                           !PolicyPreservation.Touches(ToNoJitter, k) && !PolicyPreservation.Touches(ToNoReplay, k)
                           && k != OPTIMIZE_AGENT_PLAYBOOKS && k != AUTO_UPDATE_PENDING_AGENT_PLAYBOOKS
                           && k != ENABLED && k != MAX_METRIC_CALLS
    ensures RewriteFields(a, ToAgentSwitches, f) == Ok(f) && RewriteFields(a, ToWorkBudget, f) == Ok(f)
    ensures RewriteFields(a, ToNoJitter, f) == Ok(f) && RewriteFields(a, ToNoReplay, f) == Ok(f)
  {
    assert f - REPLAY_FIELDS == f;
  }

  lemma PoliciesUntouched(a: Adapters, d: Fields, version: nat)
    requires NoRetired(d)
    ensures UpgradePolicies(a, d, version) == Ok(d)
  {
    hide Gate, RewriteFields;
    OptimizerUntouched(a, Section(d, PLAYBOOK_OPTIMIZER_CONFIG));
    FloorAndAuditUntouched(a, Section(d, RETRIEVAL_FLOOR), Section(d, GOVERNANCE_RETENTION));
    SectionUntouched(a, d, version, 1, PLAYBOOK_OPTIMIZER_CONFIG, ToAgentSwitches);
    SectionUntouched(a, d, version, 2, RETRIEVAL_FLOOR, ToFloor);
    SectionUntouched(a, d, version, 3, GOVERNANCE_RETENTION, ToAudit);
  }

  lemma FloorAndAuditUntouched(a: Adapters, floor: Fields, audit: Fields)
    ensures (forall k :: k in floor ==> k != ENABLED && k != POOL_SIZE) ==> RewriteFields(a, ToFloor, floor) == Ok(floor)
    ensures (forall k :: k in audit ==> k != AUDIT_EVENTS_RETENTION_ENABLED && k != AUDIT_EVENTS_RETENTION_DAYS) ==>
              RewriteFields(a, ToAudit, audit) == Ok(audit)
  {
  }

  lemma MechanismsUntouched(a: Adapters, d: Fields, version: nat)
    requires Lawful(a) && NoRetired(d) && version < FILE_FORMAT_VERSION && !UnpreparedPendingCreation(d, version)
    ensures UpgradeMechanisms(a, d, version) == if GraceReadable(a, d, version) then Ok(d) else Refused(LineagePolicy)
    ensures PreparePendingCreation(a, d, version) == Ok(d)
  {
    hide RewriteFields, Gate;
    OptimizerUntouched(a, Section(d, PLAYBOOK_OPTIMIZER_CONFIG));
    SectionUntouched(a, d, version, 5, PLAYBOOK_OPTIMIZER_CONFIG, ToWorkBudget);
    SectionUntouched(a, d, version, 6, PLAYBOOK_OPTIMIZER_CONFIG, ToNoJitter);
    SectionUntouched(a, d, version, 7, PLAYBOOK_OPTIMIZER_CONFIG, ToNoReplay);
    StrategyUntouched(a, d);
    SectionUntouched(a, d, version, 8, USER_PLAYBOOK_EXTRACTOR_CONFIG, ToNoStrategy);
    SectionUntouched(a, d, version, SINGLE_OWNER_EXECUTION_VERSION, PENDING_TOOL_CALL_CONFIG, ToTiming);
    SectionUntouched(a, d, version, PENDING_CREATION_VERSION, PENDING_TOOL_CALL_CONFIG, ToCreation);
    LineageChecked(a, d, version);
  }

  lemma StrategyUntouched(a: Adapters, d: Fields)
    requires NoRetired(d)
    ensures HasSection(d, USER_PLAYBOOK_EXTRACTOR_CONFIG) ==>
              RewriteFields(a, ToNoStrategy, Section(d, USER_PLAYBOOK_EXTRACTOR_CONFIG)) == Ok(Section(d, USER_PLAYBOOK_EXTRACTOR_CONFIG))
  {
    hide HasEndpointModel;
    var f := Section(d, USER_PLAYBOOK_EXTRACTOR_CONFIG);
    assert STRATEGY !in Section(f, DEDUPLICATION_CONFIG);
  }

  lemma LineageChecked(a: Adapters, d: Fields, version: nat)
    requires Lawful(a) && NoRetired(d)
    ensures Gate(a, d, version, LINEAGE_RETENTION_VERSION, LINEAGE_GC, ToLineage(true))
         == if GraceReadable(a, d, version) then Ok(d) else Refused(LineagePolicy)
  {
    hide HasEndpointModel;
    assert a.boolean(Bool(true)) == Some(true);
    if LINEAGE_GC in d {
      assert ENABLED !in Section(d, LINEAGE_GC);
      assert d[LINEAGE_GC := d[LINEAGE_GC]] == d;
    }
  }

  lemma RelabellingRefusal(a: Adapters, d: Fields, version: nat)
    requires Lawful(a) && RejectsRetired(a) && version < FILE_FORMAT_VERSION && EditGuards(a, d, version)
    ensures PrepareDocument(a, d, version) == if GraceReadable(a, d, version) then Ok(d) else Refused(LineagePolicy)
  {
    hide UpgradePolicies, UpgradeMechanisms, PreparePendingCreation, AmbiguousPolicy, GraceReadable;
    assert NoRetired(d);
    PoliciesUntouched(a, d, version);
    MechanismsUntouched(a, d, version);
  }

  /** Whenever an edit is let through, upgrading the same document changes nothing, or refuses;
      and it refuses exactly when the file predates the single grace field and its saved grace
      is not a positive number of days. */
  lemma RelabellingSound(a: Adapters, d: Fields, version: nat)
    requires Lawful(a) && RejectsRetired(a) && version < FILE_FORMAT_VERSION && EditGuards(a, d, version)
    ensures GraceReadable(a, d, version) <==> PrepareDocument(a, d, version) == Ok(d)
    ensures !GraceReadable(a, d, version) <==> PrepareDocument(a, d, version).Refused?
  {
    hide PrepareDocument, EditGuards, GraceReadable;
    RelabellingRefusal(a, d, version);
  }

  /** So stamping the current generation keeps the document's meaning. */
  lemma RelabelledMeaning(a: Adapters, d: Fields, version: nat, tool: Key)
    requires Lawful(a) && RejectsRetired(a) && version < FILE_FORMAT_VERSION && EditGuards(a, d, version)
    requires GraceReadable(a, d, version)
    ensures PolicyPreservation.EffectivePolicy(a, d, FILE_FORMAT_VERSION) == PolicyPreservation.EffectivePolicy(a, d, version)
    ensures PolicyPreservation.ToolLifetime(a, d, FILE_FORMAT_VERSION, tool) == PolicyPreservation.ToolLifetime(a, d, version, tool)
  {
    hide PrepareDocument, PolicyPreservation.EffectivePolicy, PolicyPreservation.ToolLifetime, EditGuards, GraceReadable;
    RelabellingSound(a, d, version);
    PolicyPreservation.UpgradePreservesPolicy(a, d, version, tool);
  }

  lemma PublishedEditIsGuarded(a: Adapters, c: Codec, edit: Edit, files: Files)
    requires Perform(a, c, EditStorage(edit), files).1 == Published
    ensures files.target.Some? && Decode(c, files.target.value).Ok?
    ensures EditGuards(a, Decode(c, files.target.value).value.data, Decode(c, files.target.value).value.envelope.version)
  {
    hide Decode, Encode, UnpreparedPendingCreation, AmbiguousPolicy;
  }

  /** Every edit that is published over an older file relabels a document the upgrade would
      have left as it was, or would have refused for its grace alone. */
  lemma PublishedEditRelabelsSoundly(a: Adapters, c: Codec, edit: Edit, files: Files)
    requires Lawful(a) && RejectsRetired(a) && Perform(a, c, EditStorage(edit), files).1 == Published
    ensures files.target.Some? && Decode(c, files.target.value).Ok?
    ensures var stored := Decode(c, files.target.value).value;
            stored.envelope.version < FILE_FORMAT_VERSION ==>
              PrepareDocument(a, stored.data, stored.envelope.version) ==
              if GraceReadable(a, stored.data, stored.envelope.version) then Ok(stored.data) else Refused(LineagePolicy)
  {
    hide Decode, PrepareDocument, EditGuards, Perform;
    PublishedEditIsGuarded(a, c, edit, files);
    var stored := Decode(c, files.target.value).value;
    if stored.envelope.version < FILE_FORMAT_VERSION {
      RelabellingRefusal(a, stored.data, stored.envelope.version);
    }
  }

  /** A file the edit relabels although the upgrade refuses it: reclamation held, in the
      current spelling, in a generation whose schema required positive days. */
  lemma HeldReclamationIsRelabelled(a: Adapters)
    requires Lawful(a)
    ensures var d := map[LINEAGE_GC := Obj(map[TOMBSTONE_GRACE_WINDOW_DAYS := Int(0)])];
            (a.schemaOk(d) ==> EditGuards(a, d, 11)) && NoRetired(d) && !GraceReadable(a, d, 11)
            && PrepareDocument(a, d, 11) == Refused(LineagePolicy)
  {
    var d: Fields := map[LINEAGE_GC := Obj(map[TOMBSTONE_GRACE_WINDOW_DAYS := Int(0)])];
    assert a.positive(Int(0)) == None;
    PoliciesUntouched(a, d, 11);
    MechanismsUntouched(a, d, 11);
  }
}
