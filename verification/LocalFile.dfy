/** One local configuration file as an object: the three operations change its bytes and its
    kept originals in place. Each is proved to leave what `Perform` says, and `Perform` is
    proved to be where the step machine of the protocol ends when nothing interrupts it. */
module LocalFile {
  import opened Wrappers
  import opened Json
  import opened SectionRules
  import opened Canonicalizer
  import opened FileFormat
  import opened Publication
  import opened PublicationSafety

  /** The outcome of one uninterrupted operation, and the files it leaves. */
  function Perform(a: Adapters, c: Codec, request: Request, files: Files): (Files, Outcome) {
    match PlanOf(a, c, request, files.target)
    case Refuse(_) => (files, Failed)
    case Keep => (files, Unchanged)
    case Recheck => (files, Unchanged)
    case Write(encoded, _, None) => (files.(target := Some(encoded)), Published)
    case Write(encoded, _, Some(name)) => Replaced(files, encoded, name)
  }

  /** The original is kept under its name, then replaced, unless the name holds other bytes. */
  function Replaced(files: Files, encoded: Bytes, name: string): (Files, Outcome) {
    if name !in files.backups then (Files(Some(encoded), files.backups[name := BytesOf(files.target)]), Published)
    else if files.backups[name] == BytesOf(files.target) then (files.(target := Some(encoded)), Published)
    else (files, Failed)
  }

  function BytesOf(content: Option<Bytes>): Bytes {
    if content.Some? then content.value else []
  }

  // ----- the step machine ends there ------------------------------------------------------------

  /** Where the lock holder will end if nobody disturbs it. */
  function Finish(a: Adapters, c: Codec, s: State): (Files, Outcome) {
    match s.phase
    case Idle(last) => (s.files, last)
    case Locked(request) => Perform(a, c, request, s.files)
    case Keeping(request, kept, _) =>
      var name := c.digest(kept);
      if name !in s.files.backups then FinishComparing(a, c, s.files.(backups := s.files.backups[name := kept]), request, Some(kept))
      else FinishReading(a, c, s.files, request, kept)
    case ReadingBack(request, kept) => FinishReading(a, c, s.files, request, kept)
    case Comparing(request, original) => FinishComparing(a, c, s.files, request, original)
    case Staging(request, original, _, _) => FinishStaging(a, c, s.files, request, original)
  }

  function FinishReading(a: Adapters, c: Codec, files: Files, request: Request, kept: Bytes): (Files, Outcome) {
    var name := c.digest(kept);
    if name in files.backups && files.backups[name] == kept then FinishComparing(a, c, files, request, Some(kept)) else (files, Failed)
  }

  function FinishComparing(a: Adapters, c: Codec, files: Files, request: Request, original: Option<Bytes>): (Files, Outcome) {
    if files.target != original then (files, Failed) else FinishStaging(a, c, files, request, original)
  }

  function FinishStaging(a: Adapters, c: Codec, files: Files, request: Request, original: Option<Bytes>): (Files, Outcome) {
    match PlanOf(a, c, request, original)
    case Write(encoded, createOnly, _) =>
      if createOnly && files.target.Some? then (files, if request.Prepare? then Failed else Unchanged)
      else (files.(target := Some(encoded)), Published)
    case _ => (files, Unchanged)
  }

  function StagingSteps(a: Adapters, c: Codec, request: Request, original: Option<Bytes>): nat {
    match PlanOf(a, c, request, original) case Write(encoded, _, _) => |encoded| + 1 case _ => 1
  }

  /** A bound on the steps left. */
  function StepsLeft(a: Adapters, c: Codec, s: State): nat {
    match s.phase
    case Idle(_) => 0
    case Locked(request) => |BytesOf(s.files.target)| + StagingSteps(a, c, request, s.files.target) + 4
    case Keeping(request, kept, temp) =>
      (if |temp| < |kept| then |kept| - |temp| else 0) + StagingSteps(a, c, request, Some(kept)) + 3
    case ReadingBack(request, kept) => StagingSteps(a, c, request, Some(kept)) + 2
    case Comparing(request, original) => StagingSteps(a, c, request, original) + 1
    case Staging(request, original, temp, _) =>
      if |temp| < StagingSteps(a, c, request, original) then StagingSteps(a, c, request, original) - |temp| else 1
  }

  lemma PlanShape(a: Adapters, c: Codec, request: Request, original: Option<Bytes>)
    ensures var plan := PlanOf(a, c, request, original);
            plan.Write? ==>
              && (plan.createOnly ==> original.None?)
              && (plan.backup.Some? ==> original.Some? && plan.backup.value == c.digest(original.value))
  {
  }

  lemma StepFinishes(a: Adapters, c: Codec, s: State)
    requires Consistent(a, c, s)
    ensures Finish(a, c, Step(a, c, s)) == Finish(a, c, s)
    ensures !s.phase.Idle? ==> StepsLeft(a, c, Step(a, c, s)) < StepsLeft(a, c, s)
  {
    hide PlanOf;
    match s.phase
    case Locked(request) => PlanShape(a, c, request, s.files.target);
    case Keeping(request, kept, temp) => if |temp| >= |kept| { FullPrefix(temp, kept); }
    case Comparing(request, original) => PlanShape(a, c, request, original);
    case Staging(request, original, temp, gap) =>
      if |temp| >= |PlanOf(a, c, request, original).encoded| { FullPrefix(temp, PlanOf(a, c, request, original).encoded); }
    case _ =>
  }

  lemma {:induction false} AdvancesFinish(a: Adapters, c: Codec, s: State, events: seq<Event>)
    requires Consistent(a, c, s) && |events| >= StepsLeft(a, c, s)
    requires forall e :: e in events ==> e.Advance?
    ensures Run(a, c, s, events) == State(Finish(a, c, s).0, Idle(Finish(a, c, s).1))
    decreases |events|
  {
    hide Finish, StepsLeft;
    if events == [] {
      assert s.phase.Idle? && Finish(a, c, s) == (s.files, s.phase.last) by { assert StepsLeft(a, c, s) == 0; Settled(a, c, s); }
    } else {
      StepFinishes(a, c, s);
      NextConsistent(a, c, s, events[0]);
      Settled(a, c, s);
      AdvancesFinish(a, c, Step(a, c, s), events[1..]);
    }
  }

  lemma Settled(a: Adapters, c: Codec, s: State)
    ensures StepsLeft(a, c, s) == 0 <==> s.phase.Idle?
    ensures s.phase.Idle? ==> Finish(a, c, s) == (s.files, s.phase.last) && Step(a, c, s) == s
  {
    hide PlanOf;
  }

  /** An operation left to itself ends, within a bound known when it takes the lock, with
      exactly the files and the outcome of `Perform`. */
  lemma RunsToCompletion(a: Adapters, c: Codec, files: Files, last: Outcome, request: Request, steps: seq<Event>)
    requires forall e :: e in steps ==> e.Advance?
    requires |steps| >= |BytesOf(files.target)| + StagingSteps(a, c, request, files.target) + 4
    ensures var done := Perform(a, c, request, files);
            Run(a, c, State(files, Idle(last)), [Begin(request)] + steps) == State(done.0, Idle(done.1))
  {
    hide Perform;
    var begun := State(files, Locked(request));
    assert ([Begin(request)] + steps)[1..] == steps;
    AdvancesFinish(a, c, begun, steps);
  }

  // ----- the operations as methods -----------------------------------------------------------------

  method AdmitTransition(admit: Option<Admission>, source: Option<Fields>, candidate: Fields, incompatible: bool) returns (admitted: bool)
    ensures admitted == Admitted(admit, source, candidate, incompatible)
  {
    if admit.None? { return true; }
    if source.Some? {
      if !incompatible && Get(source.value, STORAGE_CONFIG, Null) == Get(candidate, STORAGE_CONFIG, Null) { return true; }
      if !admit.value(source.value) { return false; }
    }
    if source.None? || source.value != candidate {
      return admit.value(candidate);
    }
    return true;
  }

  class LocalConfigFile {
    const a: Adapters
    const c: Codec
    var target: Option<Bytes>
    var backups: map<string, Bytes>

    constructor (a: Adapters, c: Codec, files: Files)
      ensures this.a == a && this.c == c && Stored() == files
    {
      this.a, this.c, target, backups := a, c, files.target, files.backups;
    }

    function Stored(): Files
      reads this
    {
      Files(target, backups)
    }

    /** Temporary file, then link or rename; an existing file defeats a create-only write. */
    method PublishTarget(encoded: Bytes, createOnly: bool) returns (published: bool)
      modifies `target
      ensures published == !(createOnly && old(target).Some?)
      ensures target == if published then Some(encoded) else old(target)
    {
      if createOnly && target.Some? { return false; }
      target := Some(encoded);
      return true;
    }

    /** Link the original under its digest; an existing copy must hold the same bytes. */
    method KeepOriginal(name: string, original: Bytes) returns (kept: bool)
      modifies `backups
      ensures kept == (name in old(backups) ==> old(backups)[name] == original)
      ensures backups == if name in old(backups) then old(backups) else old(backups)[name := original]
    {
      if name !in backups {
        backups := backups[name := original];
        return true;
      }
      return backups[name] == original;
    }

    /** A full replacement: the caller's document, the stored file's receipt. */
    method PublishDocument(document: Bytes, createOnly: bool, admit: Option<Admission>) returns (outcome: Outcome)
      modifies this
      ensures (Stored(), outcome) == Perform(a, c, Publish(document, createOnly, admit), old(Stored()))
    {
      hide Decode, Encode, PrepareDocument, UnpreparedPendingCreation;
      var supplied := Decode(c, document);
      if supplied.Refused? { return Failed; }
      var data, version := supplied.value.data, supplied.value.envelope.version;
      if UnpreparedPendingCreation(data, if version == 0 then FILE_FORMAT_VERSION else version) { return Failed; }
      if !a.schemaOk(data) { return Failed; }
      if createOnly && target.Some? { return Unchanged; }
      var receipt, previous, sourceVersion := None, None, 0;
      if target.Some? {
        var stored := Decode(c, target.value);
        if stored.Refused? { return Failed; }
        receipt, previous, sourceVersion := stored.value.envelope.receipt, Some(stored.value.data), stored.value.envelope.version;
      }
      if admit.Some? {
        var source := None;
        if previous.Some? {
          var prepared := UpgradeDocument(a, previous.value, sourceVersion);
          if prepared.Refused? { return Failed; }
          source := Some(prepared.value);
        }
        var admitted := AdmitTransition(admit, source, data, sourceVersion < SINGLE_OWNER_EXECUTION_VERSION);
        assert previous.None? ==> admitted == Admitted(admit, None, data, true);
        if !admitted { return Failed; }
      }
      assert admit.None? ==> Admitted(admit, None, data, true);
      var published := PublishTarget(Encode(c, data, receipt), createOnly);
      return if published then Published else Unchanged;
    }

    /** A strict edit of the stored document under its own guards. */
    method EditDocument(edit: Edit) returns (outcome: Outcome)
      modifies this
      ensures (Stored(), outcome) == Perform(a, c, EditStorage(edit), old(Stored()))
    {
      hide Decode, Encode, UnpreparedPendingCreation, AmbiguousPolicy;
      if target.None? { return Failed; }
      var stored := Decode(c, target.value);
      if stored.Refused? { return Failed; }
      var previous, envelope := stored.value.data, stored.value.envelope;
      if UnpreparedPendingCreation(previous, envelope.version) || AmbiguousPolicy(previous, envelope.version) { return Failed; }
      if !a.schemaOk(previous) { return Failed; }
      var data := edit(previous);
      if data.Refused? || !a.schemaOk(data.value) { return Failed; }
      if data.value == previous { return Unchanged; }
      var _ := PublishTarget(Encode(c, data.value, envelope.receipt), false);
      return Published;
    }

    method PublishUpgrade(original: Bytes, canonical: Fields) returns (outcome: Outcome)
      requires target == Some(original)
      modifies this
      ensures var digest := c.digest(original);
              (Stored(), outcome) == Replaced(old(Stored()), Encode(c, canonical, Some(digest)), digest)
    {
      hide Encode;
      var digest := c.digest(original);
      var kept := KeepOriginal(digest, original);
      if !kept { return Failed; }
      var _ := PublishTarget(Encode(c, canonical, Some(digest)), false);
      return Published;
    }

    /** The upgrade before serving, with an optional revision and a first document. */
    method PrepareFile(revise: Option<VersionedEdit>, initial: Option<Fields>, admit: Option<Admission>) returns (outcome: Outcome)
      modifies this
      ensures (Stored(), outcome) == Perform(a, c, Prepare(revise, initial, admit), old(Stored()))
    {
      hide Decode, Encode, PrepareDocument, Admitted, PlanPublish, PlanEdit, Replaced;
      if target.None? && initial.None? {
        return if revise.Some? then Failed else Unchanged;
      }
      var original := target;
      var read := if original.Some? then Decode(c, original.value) else Decode(c, c.print_(initial.value));
      if read.Refused? { return Failed; }
      var data := read.value.data;
      var envelope := if original.Some? then read.value.envelope else Envelope(FILE_FORMAT_VERSION, None);
      if envelope.version == FILE_FORMAT_VERSION && !a.schemaOk(data) { return Failed; }
      var prepared := UpgradeDocument(a, data, envelope.version);
      if prepared.Refused? { return Failed; }
      var source, canonical := prepared.value, prepared.value;
      if revise.Some? {
        var revised := revise.value(canonical, envelope.version);
        if revised.Refused? { return Failed; }
        canonical := revised.value;
      }
      assert Revised(a, data, envelope.version, revise) == Ok((source, canonical));
      if !a.schemaOk(canonical) { return Failed; }
      var admitted := AdmitTransition(admit, if original.Some? then Some(source) else None, canonical,
                                      envelope.version < SINGLE_OWNER_EXECUTION_VERSION);
      if !admitted { return Failed; }
      if envelope.version == FILE_FORMAT_VERSION || original.None? {
        if original.Some? && canonical == data { return Unchanged; }
        var published := PublishTarget(Encode(c, canonical, envelope.receipt), original.None?);
        return if published then Published else Failed;
      }
      outcome := PublishUpgrade(original.value, canonical);
    }
  }

  // ----- what a reader then sees ---------------------------------------------------------------------

  /** The strict read at runtime. */
  function ReadDocument(c: Codec, raw: Bytes): Result<Fields> {
    var stored :- Decode(c, raw);
    if UnpreparedPendingCreation(stored.data, stored.envelope.version) then Refused(UnpreparedPending)
    else if AmbiguousOutput(stored.data, stored.envelope.version) then Refused(AmbiguousGeneration)
    else Ok(stored.data)
  }

  lemma EncodedReads(c: Codec, d: Fields, receipt: Option<string>)
    requires LawfulCodec(c) && (receipt.Some? ==> HexDigest(receipt.value))
    ensures ReadDocument(c, Encode(c, d, receipt)) == Ok(d - {FILE_METADATA})
  {
    hide Decode, Encode;
    DecodeEncode(c, d, receipt);
  }

  /** The document an operation means to leave, when it writes at all. */
  function Candidate(a: Adapters, c: Codec, request: Request, original: Option<Bytes>): Result<Fields> {
    match request
    case Publish(document, _, _) => var supplied :- Decode(c, document); Ok(supplied.data)
    case EditStorage(edit) =>
      if original.None? then Refused(MalformedFile)
      else var stored :- Decode(c, original.value); edit(stored.data)
    case Prepare(revise, initial, _) =>
      if original.Some? then
        var stored :- Decode(c, original.value);
        var revised :- Revised(a, stored.data, stored.envelope.version, revise);
        Ok(revised.1)
      else if initial.None? then Refused(MalformedFile)
      else
        var first :- Decode(c, c.print_(initial.value));
        var revised :- Revised(a, first.data, FILE_FORMAT_VERSION, revise);
        Ok(revised.1)
  }

  lemma PlanEncodesCandidate(a: Adapters, c: Codec, request: Request, original: Option<Bytes>)
    requires LawfulCodec(c) && PlanOf(a, c, request, original).Write?
    ensures Candidate(a, c, request, original).Ok? && a.schemaOk(Candidate(a, c, request, original).value)
    ensures exists receipt: Option<string> :: (receipt.Some? ==> HexDigest(receipt.value))
              && PlanOf(a, c, request, original).encoded == Encode(c, Candidate(a, c, request, original).value, receipt)
  {
    hide Decode, Encode, PrepareDocument, Revised, UnpreparedPendingCreation, AmbiguousPolicy, Admitted;
    EncodedReceipt(c);
    assert PlanOf(a, c, request, original).encoded == Encode(c, Candidate(a, c, request, original).value, None)
           || (original.Some? && PlanOf(a, c, request, original).encoded
               == Encode(c, Candidate(a, c, request, original).value, Some(c.digest(original.value))))
           || (original.Some? && Decode(c, original.value).Ok? && PlanOf(a, c, request, original).encoded
               == Encode(c, Candidate(a, c, request, original).value, Decode(c, original.value).value.envelope.receipt));
  }

  /** Whatever an operation publishes, the strict reader accepts, and reads as exactly the
      document the operation meant: no guard for older generations ever refuses it. */
  lemma PublishedReadsBack(a: Adapters, c: Codec, request: Request, files: Files)
    requires LawfulCodec(c) && Perform(a, c, request, files).1 == Published
    ensures Candidate(a, c, request, files.target).Ok?
    ensures var read := Perform(a, c, request, files).0.target;
            read.Some? && ReadDocument(c, read.value) == Ok(Candidate(a, c, request, files.target).value - {FILE_METADATA})
  {
    hide PlanOf, Candidate, ReadDocument, Encode;
    PlanEncodesCandidate(a, c, request, files.target);
    var document := Candidate(a, c, request, files.target).value;
    var receipt: Option<string> :| (receipt.Some? ==> HexDigest(receipt.value))
                                   && PlanOf(a, c, request, files.target).encoded == Encode(c, document, receipt);
    EncodedReads(c, document, receipt);
  }

  function AdmissionOf(request: Request): Option<Admission> {
    match request
    case Publish(_, _, admit) => admit
    case EditStorage(_) => None
    case Prepare(_, _, admit) => admit
  }

  /** The document the stored file comes to under the current generation. */
  function Upgraded(a: Adapters, c: Codec, raw: Bytes): Result<Fields> {
    var stored :- Decode(c, raw);
    PrepareDocument(a, stored.data, stored.envelope.version)
  }

  /** Under an admission check, a published document was itself admitted, unless it keeps the
      storage of a stored file whose generation already had a single owner. */
  lemma PublishedIsAdmitted(a: Adapters, c: Codec, request: Request, files: Files)
    requires LawfulCodec(c) && AdmissionOf(request).Some? && Perform(a, c, request, files).1 == Published
    ensures Candidate(a, c, request, files.target).Ok?
    ensures var document := Candidate(a, c, request, files.target).value;
            || AdmissionOf(request).value(document)
            || (files.target.Some? && Generation(c, files.target.value) >= SINGLE_OWNER_EXECUTION_VERSION
                && Upgraded(a, c, files.target.value).Ok?
                && Get(Upgraded(a, c, files.target.value).value, STORAGE_CONFIG, Null) == Get(document, STORAGE_CONFIG, Null))
  {
    hide Encode, DecodeEnvelope, UpgradePolicies, UpgradeMechanisms, PreparePendingCreation, AmbiguousPolicy,
         UnpreparedPendingCreation, PrepareDocument, Decode;
    PlanEncodesCandidate(a, c, request, files.target);
  }

  /** What never writes: a create-only publication over an existing file, a document that
      declares an older generation with unprepared pending consent, an edit that changes
      nothing, and a preparation that changes nothing in a current file. */
  lemma NeverWrites(a: Adapters, c: Codec, request: Request, files: Files)
    requires match request
             case Publish(document, createOnly, _) =>
               || (createOnly && files.target.Some?)
               || (Decode(c, document).Ok? && Decode(c, document).value.envelope.version > 0
                   && UnpreparedPendingCreation(Decode(c, document).value.data, Decode(c, document).value.envelope.version))
             case EditStorage(edit) =>
               files.target.None? || Candidate(a, c, request, files.target) == Stored(c, files.target.value)
             case Prepare(_, _, _) =>
               files.target.Some? && Generation(c, files.target.value) == FILE_FORMAT_VERSION
               && Candidate(a, c, request, files.target) == Stored(c, files.target.value)
    ensures Perform(a, c, request, files).0 == files && Perform(a, c, request, files).1 != Published
  {
    hide Encode, DecodeEnvelope, UpgradePolicies, UpgradeMechanisms, PreparePendingCreation, AmbiguousPolicy,
         UnpreparedPendingCreation, PrepareDocument, Decode, Admitted;
  }

  function Stored(c: Codec, raw: Bytes): Result<Fields> {
    var stored :- Decode(c, raw);
    Ok(stored.data)
  }

  /** Upgrading is done once: on the file an upgrade leaves, the next start finds nothing to
      write, whatever admission it is given. */
  lemma UpgradedOnce(a: Adapters, c: Codec, files: Files, initial: Option<Fields>, admit: Option<Admission>, again: Option<Admission>)
    requires LawfulCodec(c) && Perform(a, c, Prepare(None, initial, admit), files).1 == Published
    ensures var left := Perform(a, c, Prepare(None, initial, admit), files).0;
            Perform(a, c, Prepare(None, initial, again), left) == (left, Unchanged)
  {
    hide PlanOf, Candidate, Encode, Decode;
    var request := Prepare(None, initial, admit);
    PlanEncodesCandidate(a, c, request, files.target);
    var document := Candidate(a, c, request, files.target).value;
    var receipt: Option<string> :| (receipt.Some? ==> HexDigest(receipt.value))
                                   && PlanOf(a, c, request, files.target).encoded == Encode(c, document, receipt);
    DecodeEncode(c, document, receipt);
    NoEnvelopeLeft(a, c, request, files.target);
    assert document - {FILE_METADATA} == document;
    CurrentIsRechecked(a, c, document, receipt, initial, again);
  }

  lemma CurrentIsRechecked(a: Adapters, c: Codec, document: Fields, receipt: Option<string>, initial: Option<Fields>, admit: Option<Admission>)
    requires LawfulCodec(c) && (receipt.Some? ==> HexDigest(receipt.value))
    requires a.schemaOk(document) && FILE_METADATA !in document
    ensures PlanOf(a, c, Prepare(None, initial, admit), Some(Encode(c, document, receipt))) == Recheck
  {
    hide Decode, Encode, PrepareDocument;
    DecodeEncode(c, document, receipt);
    assert document - {FILE_METADATA} == document;
    assert PrepareDocument(a, document, FILE_FORMAT_VERSION) == Ok(document) by { CurrentIsPrepared(a, document); }
  }

  lemma CurrentIsPrepared(a: Adapters, d: Fields)
    ensures PrepareDocument(a, d, FILE_FORMAT_VERSION) == Ok(d)
  {
    hide UpgradePolicies, UpgradeMechanisms;
  }

  /** A decoded document carries no envelope, and the upgrade adds none. */
  lemma NoEnvelopeLeft(a: Adapters, c: Codec, request: Request, original: Option<Bytes>)
    requires request.Prepare? && request.revise.None? && Candidate(a, c, request, original).Ok?
    ensures FILE_METADATA !in Candidate(a, c, request, original).value
  {
    hide PrepareDocument, DecodeEnvelope;
    var stored := if original.Some? then Decode(c, original.value).value else Decode(c, c.print_(request.initial.value)).value;
    var version := if original.Some? then stored.envelope.version else FILE_FORMAT_VERSION;
    assert FILE_METADATA !in stored.data;
    if version == FILE_FORMAT_VERSION {
      CurrentIsPrepared(a, stored.data);
    } else {
      GenerationBound(c, original.value);
      KeepsAbsence(a, stored.data, version);
    }
  }

  lemma KeepsAbsence(a: Adapters, d: Fields, version: nat)
    requires PrepareDocument(a, d, version).Ok? && version < FILE_FORMAT_VERSION && FILE_METADATA !in d
    ensures FILE_METADATA !in PrepareDocument(a, d, version).value
  {
    hide PrepareDocument;
    UpgradedLookup(a, d, version, FILE_METADATA);
  }
}
