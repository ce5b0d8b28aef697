/** The physical configuration file: an envelope carrying the file's generation and, after an
    upgrade, the digest of the original; and the upgrade of an older generation's document. */
module FileFormat {
  import opened Wrappers
  import opened Json
  import opened SectionRules
  import opened Canonicalizer

  newtype byte = x: int | 0 <= x < 256
  type Bytes = seq<byte>

  /** The JSON codec and the digest. A digest may collide: nothing here assumes otherwise. */
  datatype Codec = Codec(parse: Bytes -> Option<Fields>, print_: Fields -> Bytes, digest: Bytes -> string)

  predicate HexDigest(s: string) {
    |s| == 64 && forall i :: 0 <= i < 64 ==> '0' <= s[i] <= '9' || 'a' <= s[i] <= 'f'
  }

  ghost predicate LawfulCodec(c: Codec) {
    && (forall d :: c.parse(c.print_(d)) == Some(d))
    && (forall raw :: HexDigest(c.digest(raw)))
  }

  const NATIVE_POOL_AUTHORITY_VERSION := 10
  const SINGLE_OWNER_EXECUTION_VERSION := 11
  const LINEAGE_RETENTION_VERSION := 12
  const PENDING_CREATION_VERSION := 13
  const FILE_FORMAT_VERSION := 13

  /** Generation 0 is an unmarked file. */
  datatype Envelope = Envelope(version: nat, receipt: Option<string>)

  datatype Decoded = Decoded(data: Fields, envelope: Envelope)

  function DecodeEnvelope(j: Json): Result<Envelope> {
    match j
    case Obj(m) =>
      if (exists k :: k in m && k != VERSION && k != ORIGINAL_SHA256) then Refused(MalformedFile)
      else if VERSION !in m || !m[VERSION].Int? || !(1 <= m[VERSION].n <= FILE_FORMAT_VERSION) then Refused(MalformedFile)
      else if ORIGINAL_SHA256 !in m then Ok(Envelope(m[VERSION].n, None))
      else if m[ORIGINAL_SHA256].Str? && HexDigest(m[ORIGINAL_SHA256].s)
      then Ok(Envelope(m[VERSION].n, Some(m[ORIGINAL_SHA256].s)))
      else Refused(MalformedFile)
    case _ => Refused(MalformedFile)
  }

  function Decode(c: Codec, raw: Bytes): Result<Decoded> {
    match c.parse(raw)
    case None => Refused(MalformedFile)
    case Some(document) =>
      if FILE_METADATA !in document then Ok(Decoded(document, Envelope(0, None)))
      else
        var envelope :- DecodeEnvelope(document[FILE_METADATA]);
        Ok(Decoded(document - {FILE_METADATA}, envelope))
  }

  function EncodeEnvelope(receipt: Option<string>): Fields {
    var stamped: Fields := map[VERSION := Int(FILE_FORMAT_VERSION)];
    if receipt.Some? then stamped[ORIGINAL_SHA256 := Str(receipt.value)] else stamped
  }

  /** Every file this format writes is stamped with the current generation; an envelope field
      inside `data` itself is overwritten. */
  function Encode(c: Codec, data: Fields, receipt: Option<string>): Bytes {
    c.print_(data[FILE_METADATA := Obj(EncodeEnvelope(receipt))])
  }

  /** What is written is read back: the same document, the current generation, that receipt. */
  lemma DecodeEncode(c: Codec, data: Fields, receipt: Option<string>)
    requires LawfulCodec(c)
    requires receipt.Some? ==> HexDigest(receipt.value)
    ensures Decode(c, Encode(c, data, receipt))
         == Ok(Decoded(data - {FILE_METADATA}, Envelope(FILE_FORMAT_VERSION, receipt)))
  {
    var document := data[FILE_METADATA := Obj(EncodeEnvelope(receipt))];
    assert c.parse(c.print_(document)) == Some(document);
    assert document - {FILE_METADATA} == data - {FILE_METADATA};
    var m := EncodeEnvelope(receipt);
    assert forall k :: k in m ==> k == VERSION || k == ORIGINAL_SHA256;
  }

  /** An accepted file is nothing but its document, its generation and its receipt: no other
      envelope field, no other version and no malformed digest is ever let through. */
  lemma AcceptedFileIsDetermined(c: Codec, raw: Bytes)
    requires Decode(c, raw).Ok?
    ensures c.parse(raw).Some?
    ensures var decoded := Decode(c, raw).value;
            && FILE_METADATA !in decoded.data
            && decoded.envelope.version <= FILE_FORMAT_VERSION
            && (decoded.envelope.receipt.Some? ==> HexDigest(decoded.envelope.receipt.value))
            && c.parse(raw).value ==
               (if decoded.envelope == Envelope(0, None) then decoded.data
                else decoded.data[FILE_METADATA := Obj(EncodeEnvelope(decoded.envelope.receipt)[VERSION := Int(decoded.envelope.version)])])
  {
    var document := c.parse(raw).value;
    if FILE_METADATA in document {
      var m := document[FILE_METADATA].fields;
      var envelope := DecodeEnvelope(document[FILE_METADATA]).value;
      assert forall k :: k in m ==> k == VERSION || k == ORIGINAL_SHA256;
      var stamped := EncodeEnvelope(envelope.receipt)[VERSION := Int(envelope.version)];
      assert forall k :: Lookup(stamped, k) == Lookup(m, k);
      SameLookups(stamped, m);
      assert (document - {FILE_METADATA})[FILE_METADATA := document[FILE_METADATA]] == document;
    }
  }

  // ----- guards ----------------------------------------------------------------------------

  predicate UnpreparedPendingCreation(d: Fields, version: nat) {
    version < PENDING_CREATION_VERSION && HasSection(d, PENDING_TOOL_CALL_CONFIG)
  }

  predicate AmbiguousOutput(d: Fields, version: nat) {
    version < 9 && !Get(Section(d, LLM_CONFIG), GENERATION_MAX_OUTPUT_TOKENS, Null).Null?
  }

  /** A current name in a file whose own schema ignored it. */
  predicate AmbiguousPolicy(d: Fields, version: nat) {
    || AmbiguousOutput(d, version)
    || (version < 3 && AUDIT_EVENTS_MAX_AGE_DAYS in Section(d, GOVERNANCE_RETENTION))
    || (version < 5 && METRIC_CALL_BUDGET in Section(d, PLAYBOOK_OPTIMIZER_CONFIG))
    || (version == 0 && AGENT_PLAYBOOKS_ENABLED in Section(d, PLAYBOOK_OPTIMIZER_CONFIG))
    || (version < 2 && CANDIDATE_POOL_SIZE in Section(d, RETRIEVAL_FLOOR))
  }

  // ----- upgrading an older generation ---------------------------------------------------------

  /** One rule, for files older than the generation that introduced it. */
  function Gate(a: Adapters, d: Fields, version: nat, since: nat, k: Key, rw: Rewrite): Result<Fields> {
    if version < since then RewriteSection(a, d, k, rw) else Ok(d)
  }

  function PreparePendingCreation(a: Adapters, d: Fields, version: nat): Result<Fields> {
    Gate(a, d, version, PENDING_CREATION_VERSION, PENDING_TOOL_CALL_CONFIG, ToCreation)
  }

  function UpgradePolicies(a: Adapters, d: Fields, version: nat): Result<Fields> {
    var d1 :- Gate(a, d, version, 1, PLAYBOOK_OPTIMIZER_CONFIG, ToAgentSwitches);
    var d2 :- Gate(a, d1, version, 2, RETRIEVAL_FLOOR, ToFloor);
    var d3 :- Gate(a, d2, version, 3, GOVERNANCE_RETENTION, ToAudit);
    CanonicalizeCustomEndpoint(a, d3)
  }

  function UpgradeMechanisms(a: Adapters, d: Fields, version: nat): Result<Fields> {
    var d1 :- Gate(a, d, version, 5, PLAYBOOK_OPTIMIZER_CONFIG, ToWorkBudget);
    var d2 :- Gate(a, d1, version, 6, PLAYBOOK_OPTIMIZER_CONFIG, ToNoJitter);
    var d3 :- Gate(a, d2, version, 7, PLAYBOOK_OPTIMIZER_CONFIG, ToNoReplay);
    var d4 :- Gate(a, d3, version, 8, USER_PLAYBOOK_EXTRACTOR_CONFIG, ToNoStrategy);
    var d5 :- Gate(a, d4, version, SINGLE_OWNER_EXECUTION_VERSION, PENDING_TOOL_CALL_CONFIG, ToTiming);
    Gate(a, d5, version, LINEAGE_RETENTION_VERSION, LINEAGE_GC, ToLineage(true))
  }

  function PrepareDocument(a: Adapters, d: Fields, version: nat): Result<Fields> {
    if version == FILE_FORMAT_VERSION then Ok(d)
    else if AmbiguousPolicy(d, version) then Refused(AmbiguousGeneration)
    else
      var d1 :- UpgradePolicies(a, d, version);
      var d2 :- UpgradeMechanisms(a, d1, version);
      PreparePendingCreation(a, d2, version)
  }

  /** The read an explicit conversion starts from: only pending consent depends on the
      generation, so only it is resolved before the generation is dropped. */
  function ConversionRead(a: Adapters, d: Fields, version: nat): Result<Fields> {
    PreparePendingCreation(a, d, version)
  }

  method RewriteInPlace(a: Adapters, canonical: Fields, version: nat, since: nat, k: Key, rw: Rewrite) returns (r: Result<Fields>)
    ensures r == Gate(a, canonical, version, since, k, rw)
  {
    r := Ok(canonical);
    if version < since && k in canonical {
      var rewritten := RewriteValue(a, rw, canonical[k]);
      r := match rewritten case Ok(j) => Ok(canonical[k := j]) case Refused(rule) => Refused(rule);
    }
  }

  /** The upgrade as the code runs it, reassigning one section of a working copy after another. */
  method UpgradeDocument(a: Adapters, data: Fields, version: nat) returns (r: Result<Fields>)
    ensures r == PrepareDocument(a, data, version)
  {
    hide RewriteSection, CanonicalizeCustomEndpoint, AmbiguousPolicy, Gate;
    if version == FILE_FORMAT_VERSION { return Ok(data); }
    if AmbiguousPolicy(data, version) { return Refused(AmbiguousGeneration); }
    var canonical := data;
    canonical :- RewriteInPlace(a, canonical, version, 1, PLAYBOOK_OPTIMIZER_CONFIG, ToAgentSwitches);
    canonical :- RewriteInPlace(a, canonical, version, 2, RETRIEVAL_FLOOR, ToFloor);
    canonical :- RewriteInPlace(a, canonical, version, 3, GOVERNANCE_RETENTION, ToAudit);
    canonical :- CanonicalizeCustomEndpoint(a, canonical);
    canonical :- RewriteInPlace(a, canonical, version, 5, PLAYBOOK_OPTIMIZER_CONFIG, ToWorkBudget);
    canonical :- RewriteInPlace(a, canonical, version, 6, PLAYBOOK_OPTIMIZER_CONFIG, ToNoJitter);
    canonical :- RewriteInPlace(a, canonical, version, 7, PLAYBOOK_OPTIMIZER_CONFIG, ToNoReplay);
    canonical :- RewriteInPlace(a, canonical, version, 8, USER_PLAYBOOK_EXTRACTOR_CONFIG, ToNoStrategy);
    canonical :- RewriteInPlace(a, canonical, version, SINGLE_OWNER_EXECUTION_VERSION, PENDING_TOOL_CALL_CONFIG, ToTiming);
    canonical :- RewriteInPlace(a, canonical, version, LINEAGE_RETENTION_VERSION, LINEAGE_GC, ToLineage(true));
    canonical :- RewriteInPlace(a, canonical, version, PENDING_CREATION_VERSION, PENDING_TOOL_CALL_CONFIG, ToCreation);
    return Ok(canonical);
  }

  // ----- the upgrade, key by key -----------------------------------------------------------------

  function GateValue(a: Adapters, version: nat, since: nat, rw: Rewrite, o: Option<Json>): Result<Option<Json>> {
    if version < since then OptionRewrite(a, rw, o) else Ok(o)
  }

  function OptimizerUpgrade(a: Adapters, version: nat, o: Option<Json>): Result<Option<Json>> {
    var o1 :- GateValue(a, version, 1, ToAgentSwitches, o);
    var o2 :- GateValue(a, version, 5, ToWorkBudget, o1);
    var o3 :- GateValue(a, version, 6, ToNoJitter, o2);
    GateValue(a, version, 7, ToNoReplay, o3)
  }

  function PendingUpgrade(a: Adapters, version: nat, o: Option<Json>): Result<Option<Json>> {
    var o1 :- GateValue(a, version, SINGLE_OWNER_EXECUTION_VERSION, ToTiming, o);
    GateValue(a, version, PENDING_CREATION_VERSION, ToCreation, o1)
  }

  /** What the upgrade makes of the value under `k`; the two provider keys are joint. */
  function UpgradedAt(a: Adapters, d: Fields, version: nat, k: Key): Result<Option<Json>> {
    if k == PLAYBOOK_OPTIMIZER_CONFIG then OptimizerUpgrade(a, version, Lookup(d, k))
    else if k == RETRIEVAL_FLOOR then GateValue(a, version, 2, ToFloor, Lookup(d, k))
    else if k == GOVERNANCE_RETENTION then GateValue(a, version, 3, ToAudit, Lookup(d, k))
    else if k == USER_PLAYBOOK_EXTRACTOR_CONFIG then GateValue(a, version, 8, ToNoStrategy, Lookup(d, k))
    else if k == LINEAGE_GC then GateValue(a, version, LINEAGE_RETENTION_VERSION, ToLineage(true), Lookup(d, k))
    else if k == PENDING_TOOL_CALL_CONFIG then PendingUpgrade(a, version, Lookup(d, k))
    else if k == API_KEY_CONFIG || k == LLM_CONFIG then
      var e :- CanonicalizeCustomEndpoint(a, d);
      Ok(Lookup(e, k))
    else Ok(Lookup(d, k))
  }

  lemma GateAt(a: Adapters, d: Fields, version: nat, since: nat, section: Key, rw: Rewrite, k: Key)
    requires Gate(a, d, version, since, section, rw).Ok?
    ensures k == section ==> GateValue(a, version, since, rw, Lookup(d, k)) == Ok(Lookup(Gate(a, d, version, since, section, rw).value, k))
    ensures k != section ==> Lookup(Gate(a, d, version, since, section, rw).value, k) == Lookup(d, k)
  {
    hide RewriteValue;
  }

  lemma EndpointFrame(a: Adapters, d: Fields, e: Fields, k: Key)
    requires Lookup(d, API_KEY_CONFIG) == Lookup(e, API_KEY_CONFIG) && Lookup(d, LLM_CONFIG) == Lookup(e, LLM_CONFIG)
    requires CanonicalizeCustomEndpoint(a, e).Ok?
    ensures CanonicalizeCustomEndpoint(a, d).Ok?
    ensures k == API_KEY_CONFIG || k == LLM_CONFIG ==>
              Lookup(CanonicalizeCustomEndpoint(a, d).value, k) == Lookup(CanonicalizeCustomEndpoint(a, e).value, k)
    ensures k != API_KEY_CONFIG && k != LLM_CONFIG ==> Lookup(CanonicalizeCustomEndpoint(a, e).value, k) == Lookup(e, k)
  {
  }

  lemma PoliciesAt(a: Adapters, d: Fields, version: nat, k: Key)
    requires UpgradePolicies(a, d, version).Ok?
    ensures k == API_KEY_CONFIG || k == LLM_CONFIG ==> UpgradedAt(a, d, version, k) == Ok(Lookup(UpgradePolicies(a, d, version).value, k))
    ensures k == PLAYBOOK_OPTIMIZER_CONFIG ==>
              GateValue(a, version, 1, ToAgentSwitches, Lookup(d, k)) == Ok(Lookup(UpgradePolicies(a, d, version).value, k))
    ensures k != API_KEY_CONFIG && k != LLM_CONFIG && k != PLAYBOOK_OPTIMIZER_CONFIG ==>
              if k == RETRIEVAL_FLOOR || k == GOVERNANCE_RETENTION
              then UpgradedAt(a, d, version, k) == Ok(Lookup(UpgradePolicies(a, d, version).value, k))
              else Lookup(UpgradePolicies(a, d, version).value, k) == Lookup(d, k)
  {
    hide Gate, GateValue, Lookup, CanonicalizeCustomEndpoint, OptimizerUpgrade, PendingUpgrade;
    var d1 := Gate(a, d, version, 1, PLAYBOOK_OPTIMIZER_CONFIG, ToAgentSwitches).value;
    var d2 := Gate(a, d1, version, 2, RETRIEVAL_FLOOR, ToFloor).value;
    var d3 := Gate(a, d2, version, 3, GOVERNANCE_RETENTION, ToAudit).value;
    forall x | x == k || x == API_KEY_CONFIG || x == LLM_CONFIG
      ensures x == PLAYBOOK_OPTIMIZER_CONFIG ==> GateValue(a, version, 1, ToAgentSwitches, Lookup(d, x)) == Ok(Lookup(d3, x))
      ensures x == RETRIEVAL_FLOOR ==> GateValue(a, version, 2, ToFloor, Lookup(d, x)) == Ok(Lookup(d3, x))
      ensures x == GOVERNANCE_RETENTION ==> GateValue(a, version, 3, ToAudit, Lookup(d, x)) == Ok(Lookup(d3, x))
      ensures x != PLAYBOOK_OPTIMIZER_CONFIG && x != RETRIEVAL_FLOOR && x != GOVERNANCE_RETENTION ==> Lookup(d3, x) == Lookup(d, x)
    {
      GateAt(a, d, version, 1, PLAYBOOK_OPTIMIZER_CONFIG, ToAgentSwitches, x);
      GateAt(a, d1, version, 2, RETRIEVAL_FLOOR, ToFloor, x);
      GateAt(a, d2, version, 3, GOVERNANCE_RETENTION, ToAudit, x);
    }
    assert Lookup(d3, API_KEY_CONFIG) == Lookup(d, API_KEY_CONFIG);
    assert Lookup(d3, LLM_CONFIG) == Lookup(d, LLM_CONFIG);
    EndpointFrame(a, d, d3, k);
  }

  /** An upgraded document holds, at every key, what that key's own rules make of the original. */
  lemma UpgradedLookup(a: Adapters, d: Fields, version: nat, k: Key)
    requires version < FILE_FORMAT_VERSION && PrepareDocument(a, d, version).Ok?
    ensures UpgradedAt(a, d, version, k) == Ok(Lookup(PrepareDocument(a, d, version).value, k))
  {
    hide Gate, GateValue, Lookup, CanonicalizeCustomEndpoint, UpgradePolicies, AmbiguousPolicy;
    var e := UpgradePolicies(a, d, version).value;
    PoliciesAt(a, d, version, k);
    var d1 := Gate(a, e, version, 5, PLAYBOOK_OPTIMIZER_CONFIG, ToWorkBudget).value;
    var d2 := Gate(a, d1, version, 6, PLAYBOOK_OPTIMIZER_CONFIG, ToNoJitter).value;
    var d3 := Gate(a, d2, version, 7, PLAYBOOK_OPTIMIZER_CONFIG, ToNoReplay).value;
    var d4 := Gate(a, d3, version, 8, USER_PLAYBOOK_EXTRACTOR_CONFIG, ToNoStrategy).value;
    var d5 := Gate(a, d4, version, SINGLE_OWNER_EXECUTION_VERSION, PENDING_TOOL_CALL_CONFIG, ToTiming).value;
    var d6 := Gate(a, d5, version, LINEAGE_RETENTION_VERSION, LINEAGE_GC, ToLineage(true)).value;
    GateAt(a, e, version, 5, PLAYBOOK_OPTIMIZER_CONFIG, ToWorkBudget, k);
    GateAt(a, d1, version, 6, PLAYBOOK_OPTIMIZER_CONFIG, ToNoJitter, k);
    GateAt(a, d2, version, 7, PLAYBOOK_OPTIMIZER_CONFIG, ToNoReplay, k);
    GateAt(a, d3, version, 8, USER_PLAYBOOK_EXTRACTOR_CONFIG, ToNoStrategy, k);
    GateAt(a, d4, version, SINGLE_OWNER_EXECUTION_VERSION, PENDING_TOOL_CALL_CONFIG, ToTiming, k);
    GateAt(a, d5, version, LINEAGE_RETENTION_VERSION, LINEAGE_GC, ToLineage(true), k);
    GateAt(a, d6, version, PENDING_CREATION_VERSION, PENDING_TOOL_CALL_CONFIG, ToCreation, k);
  }
}
