/** Exactly when each operation on the file writes it, what a reader then finds, and what receipt
    and kept original go with it: conditions on the bytes, the stored generation and the request,
    with every generation and guard written out. */
module PublishedWhen {
  import opened Wrappers
  import opened Json
  import opened SectionRules
  import opened Canonicalizer
  import opened FileFormat
  import opened Publication
  import opened LocalFile
  import opened UpgradeAcceptance

  // ----- a file's bytes -----------------------------------------------------------------------------

  predicate Sha256Text(s: string) {
    |s| == 64 && forall i :: 0 <= i < 64 ==> '0' <= s[i] <= '9' || 'a' <= s[i] <= 'f'
  }

  /** An envelope has a generation from 1 to 13, perhaps a receipt, and nothing else. */
  predicate EnvelopeReadable(j: Json) {
    && j.Obj?
    && (forall k :: k in j.fields ==> k == VERSION || k == ORIGINAL_SHA256)
    && VERSION in j.fields && j.fields[VERSION].Int? && 1 <= j.fields[VERSION].n <= 13
    && (ORIGINAL_SHA256 in j.fields ==> j.fields[ORIGINAL_SHA256].Str? && Sha256Text(j.fields[ORIGINAL_SHA256].s))
  }

  predicate FileReadable(c: Codec, raw: Bytes) {
    && c.parse(raw).Some?
    && (FILE_METADATA in c.parse(raw).value ==> EnvelopeReadable(c.parse(raw).value[FILE_METADATA]))
  }

  function FileData(c: Codec, raw: Bytes): Fields
    requires FileReadable(c, raw)
  {
    c.parse(raw).value - {FILE_METADATA}
  }

  /** A file without an envelope is of generation 0. */
  function FileGeneration(c: Codec, raw: Bytes): (g: nat)
    requires FileReadable(c, raw)
    ensures g <= 13
  {
    var document := c.parse(raw).value;
    if FILE_METADATA in document then document[FILE_METADATA].fields[VERSION].n else 0
  }

  function FileReceipt(c: Codec, raw: Bytes): Option<string>
    requires FileReadable(c, raw)
  {
    var envelope := Section(c.parse(raw).value, FILE_METADATA);
    if ORIGINAL_SHA256 in envelope && envelope[ORIGINAL_SHA256].Str? then Some(envelope[ORIGINAL_SHA256].s) else None
  }

  lemma DecodeIs(c: Codec, raw: Bytes)
    ensures Decode(c, raw).Ok? <==> FileReadable(c, raw)
    ensures FileReadable(c, raw) ==>
              Decode(c, raw) == Ok(Decoded(FileData(c, raw), Envelope(FileGeneration(c, raw), FileReceipt(c, raw))))
  {
    if c.parse(raw).Some? && FILE_METADATA !in c.parse(raw).value {
      assert c.parse(raw).value - {FILE_METADATA} == c.parse(raw).value;
    }
  }

  /** A reader takes any readable file, except one that has unresolved consent to pending calls or
      an output limit its generation ignored. */
  lemma ReaderIs(c: Codec, raw: Bytes)
    ensures ReadDocument(c, raw).Ok? <==>
            && FileReadable(c, raw)
            && !(FileGeneration(c, raw) < 13 && HasSection(FileData(c, raw), PENDING_TOOL_CALL_CONFIG))
            && (FileGeneration(c, raw) < 9 ==>
                  Get(Section(FileData(c, raw), LLM_CONFIG), GENERATION_MAX_OUTPUT_TOKENS, Null) == Null)
    ensures ReadDocument(c, raw).Ok? ==> ReadDocument(c, raw).value == FileData(c, raw)
  {
    hide Decode, FileReadable, FileData, FileGeneration;
    DecodeIs(c, raw);
  }

  /** The written file: this document, the current generation and that receipt. */
  predicate FileIs(c: Codec, content: Option<Bytes>, data: Fields, receipt: Option<string>) {
    && content.Some? && FileReadable(c, content.value)
    && FileData(c, content.value) == data - {FILE_METADATA}
    && FileGeneration(c, content.value) == 13
    && FileReceipt(c, content.value) == receipt
    && ReadDocument(c, content.value) == Ok(data - {FILE_METADATA})
  }

  lemma EncodedIs(c: Codec, data: Fields, receipt: Option<string>)
    requires LawfulCodec(c) && (receipt.Some? ==> HexDigest(receipt.value))
    ensures FileIs(c, Some(Encode(c, data, receipt)), data, receipt)
  {
    hide Decode, Encode, FileReadable, FileData, FileGeneration, FileReceipt;
    DecodeEncode(c, data, receipt);
    EncodedReads(c, data, receipt);
    DecodeIs(c, Encode(c, data, receipt));
  }

  /** An admission check passes a change that leaves the storage of a stored file of generation 11
      or later alone, and else must pass what was stored and, when different, what is written. */
  predicate Admits(admit: Option<Admission>, stored: Option<Fields>, version: nat, written: Fields) {
    admit.None?
    || (stored.Some? && version >= 11 && Get(stored.value, STORAGE_CONFIG, Null) == Get(written, STORAGE_CONFIG, Null))
    || ((stored.None? || admit.value(stored.value)) && (stored == Some(written) || admit.value(written)))
  }

  lemma AdmitsIs(admit: Option<Admission>, stored: Option<Fields>, version: nat, written: Fields)
    ensures stored.Some? ==> Admitted(admit, stored, written, version < SINGLE_OWNER_EXECUTION_VERSION) == Admits(admit, stored, version, written)
    ensures Admitted(admit, None, written, true) == Admits(admit, None, version, written)
    ensures Admitted(admit, None, written, version < SINGLE_OWNER_EXECUTION_VERSION) == Admits(admit, None, version, written)
  {
  }

  // ----- a full replacement ------------------------------------------------------------------------------

  /** The supplied document may be written at all. */
  predicate SuppliedAccepted(a: Adapters, c: Codec, document: Bytes) {
    && FileReadable(c, document)
    && !(0 < FileGeneration(c, document) < 13 && HasSection(FileData(c, document), PENDING_TOOL_CALL_CONFIG))
    && a.schemaOk(FileData(c, document))
  }

  predicate PublishWrites(a: Adapters, c: Codec, document: Bytes, createOnly: bool, admit: Option<Admission>, target: Option<Bytes>) {
    && SuppliedAccepted(a, c, document)
    && match target
       case None => Admits(admit, None, 0, FileData(c, document))
       case Some(raw) =>
         && !createOnly && FileReadable(c, raw)
         && (admit.Some? ==>
               && Upgradable(a, FileData(c, raw), FileGeneration(c, raw))
               && PrepareDocument(a, FileData(c, raw), FileGeneration(c, raw)).Ok?
               && Admits(admit, Some(PrepareDocument(a, FileData(c, raw), FileGeneration(c, raw)).value),
                         FileGeneration(c, raw), FileData(c, document)))
  }

  lemma PublishIs(a: Adapters, c: Codec, document: Bytes, createOnly: bool, admit: Option<Admission>, files: Files)
    requires LawfulCodec(c)
    ensures var done := Perform(a, c, Publish(document, createOnly, admit), files);
            && (done.1 == Published <==> PublishWrites(a, c, document, createOnly, admit, files.target))
            && (done.1 == Unchanged <==> SuppliedAccepted(a, c, document) && createOnly && files.target.Some?)
            && (done.1 == Published ==>
                  && FileIs(c, done.0.target, FileData(c, document), if files.target.Some? then FileReceipt(c, files.target.value) else None)
                  && done.0.backups == files.backups)
            && (done.1 != Published ==> done.0 == files)
  {
    hide Decode, Encode, PrepareDocument, UnpreparedPendingCreation, FileIs, FileReadable, FileData, FileGeneration, FileReceipt,
         Admitted, Admits, Upgradable, NoLaterName;
    DecodeIs(c, document);
    if FileReadable(c, document) {
      var data := FileData(c, document);
      assert UnpreparedPendingCreation(data, FileGeneration(c, document)) <==>
             FileGeneration(c, document) < 13 && HasSection(data, PENDING_TOOL_CALL_CONFIG) by { Consent(data, FileGeneration(c, document)); }
      Consent(data, 13);
      AdmitsIs(admit, None, 0, data);
      NoCheck(None, 0, data);
      EncodedIs(c, data, None);
      if files.target.Some? {
        var raw := files.target.value;
        DecodeIs(c, raw);
        if FileReadable(c, raw) {
          var stored, version := FileData(c, raw), FileGeneration(c, raw);
          ReceiptIsDigest(c, raw);
          EncodedIs(c, data, FileReceipt(c, raw));
          UpgradeIs(a, stored, version);
          if PrepareDocument(a, stored, version).Ok? {
            AdmitsIs(admit, Some(PrepareDocument(a, stored, version).value), version, data);
          }
        }
      }
    }
  }

  lemma Consent(d: Fields, version: nat)
    ensures UnpreparedPendingCreation(d, version) <==> version < 13 && HasSection(d, PENDING_TOOL_CALL_CONFIG)
  {
  }

  lemma NoCheck(stored: Option<Fields>, version: nat, written: Fields)
    ensures Admits(None, stored, version, written)
  {
  }

  lemma ReceiptIsDigest(c: Codec, raw: Bytes)
    requires FileReadable(c, raw)
    ensures FileReceipt(c, raw).Some? ==> HexDigest(FileReceipt(c, raw).value)
  {
  }

  // ----- a strict edit -------------------------------------------------------------------------------------

  /** The edit is carried out: on the stored document itself, whatever its generation. */
  predicate EditAccepted(a: Adapters, c: Codec, edit: Edit, target: Option<Bytes>) {
    && target.Some? && FileReadable(c, target.value)
    && var data, version := FileData(c, target.value), FileGeneration(c, target.value);
       && !(version < 13 && HasSection(data, PENDING_TOOL_CALL_CONFIG))
       && NoLaterName(data, version)
       && a.schemaOk(data) && edit(data).Ok? && a.schemaOk(edit(data).value)
  }

  lemma EditIs(a: Adapters, c: Codec, edit: Edit, files: Files)
    requires LawfulCodec(c)
    ensures var done := Perform(a, c, EditStorage(edit), files);
            var edits := EditAccepted(a, c, edit, files.target);
            && (done.1 == Published <==> edits && edit(FileData(c, files.target.value)) != Ok(FileData(c, files.target.value)))
            && (done.1 == Unchanged <==> edits && edit(FileData(c, files.target.value)) == Ok(FileData(c, files.target.value)))
            && (done.1 == Published ==>
                  && FileIs(c, done.0.target, edit(FileData(c, files.target.value)).value, FileReceipt(c, files.target.value))
                  && done.0.backups == files.backups)
            && (done.1 != Published ==> done.0 == files)
  {
    hide Decode, Encode, UnpreparedPendingCreation, AmbiguousPolicy, FileIs, FileReadable, FileData, FileGeneration, FileReceipt, NoLaterName;
    if files.target.Some? {
      var raw := files.target.value;
      DecodeIs(c, raw);
      if FileReadable(c, raw) {
        var data, version := FileData(c, raw), FileGeneration(c, raw);
        Consent(data, version);
        NothingLater(data, version);
        ReceiptIsDigest(c, raw);
        if edit(data).Ok? { EncodedIs(c, edit(data).value, FileReceipt(c, raw)); }
      }
    }
  }

  // ----- the preparation before serving -----------------------------------------------------------------------

  /** The caller's revision is given the upgraded document and the generation the file had. */
  function RevisedBy(revise: Option<VersionedEdit>, source: Fields, version: nat): Result<Fields> {
    if revise.None? then Ok(source) else revise.value(source, version)
  }

  predicate RevisionAccepted(a: Adapters, revise: Option<VersionedEdit>, admit: Option<Admission>, stored: Option<Fields>, source: Fields, version: nat) {
    var revised := RevisedBy(revise, source, version);
    revised.Ok? && a.schemaOk(revised.value) && Admits(admit, stored, version, revised.value)
  }

  /** A stored file passes every check of the preparation. */
  predicate StoredAccepted(a: Adapters, c: Codec, revise: Option<VersionedEdit>, admit: Option<Admission>, raw: Bytes) {
    && FileReadable(c, raw)
    && var data, version := FileData(c, raw), FileGeneration(c, raw);
       && (version == 13 ==> a.schemaOk(data))
       && Upgradable(a, data, version)
       && PrepareDocument(a, data, version).Ok?
       && RevisionAccepted(a, revise, admit, Some(PrepareDocument(a, data, version).value), PrepareDocument(a, data, version).value, version)
  }

  /** What the preparation leaves in place of a stored file it accepts. */
  function StoredRevised(a: Adapters, c: Codec, revise: Option<VersionedEdit>, raw: Bytes): Result<Fields>
    requires FileReadable(c, raw) && PrepareDocument(a, FileData(c, raw), FileGeneration(c, raw)).Ok?
  {
    RevisedBy(revise, PrepareDocument(a, FileData(c, raw), FileGeneration(c, raw)).value, FileGeneration(c, raw))
  }

  predicate KeptAlready(c: Codec, raw: Bytes, backups: map<string, Bytes>) {
    c.digest(raw) in backups ==> backups[c.digest(raw)] == raw
  }

  lemma PrepareIs(a: Adapters, c: Codec, revise: Option<VersionedEdit>, initial: Option<Fields>, admit: Option<Admission>, raw: Bytes,
                  backups: map<string, Bytes>)
    requires LawfulCodec(c)
    ensures var files := Files(Some(raw), backups);
            var done := Perform(a, c, Prepare(revise, initial, admit), files);
            var accepted := StoredAccepted(a, c, revise, admit, raw);
            && (done.1 == Published <==> accepted && if FileGeneration(c, raw) < 13 then KeptAlready(c, raw, backups)
                                                     else StoredRevised(a, c, revise, raw) != Ok(FileData(c, raw)))
            && (done.1 == Unchanged <==> accepted && FileGeneration(c, raw) == 13 && StoredRevised(a, c, revise, raw) == Ok(FileData(c, raw)))
            && (done.1 == Published ==>
                  && FileIs(c, done.0.target, StoredRevised(a, c, revise, raw).value,
                            if FileGeneration(c, raw) < 13 then Some(c.digest(raw)) else FileReceipt(c, raw))
                  && done.0.backups == if FileGeneration(c, raw) < 13 then backups[c.digest(raw) := raw] else backups)
            && (done.1 != Published ==> done.0 == files)
  {
    hide Decode, Encode, PrepareDocument, FileIs, FileReadable, FileData, FileGeneration, FileReceipt, Admitted, Admits, Upgradable;
    DecodeIs(c, raw);
    if FileReadable(c, raw) {
      var data, version := FileData(c, raw), FileGeneration(c, raw);
      UpgradeIs(a, data, version);
      if PrepareDocument(a, data, version).Ok? {
        var source := PrepareDocument(a, data, version).value;
        var revised := RevisedBy(revise, source, version);
        if revised.Ok? {
          AdmitsIs(admit, Some(source), version, revised.value);
          ReceiptIsDigest(c, raw);
          EncodedIs(c, revised.value, FileReceipt(c, raw));
          assert HexDigest(c.digest(raw));
          EncodedIs(c, revised.value, Some(c.digest(raw)));
        }
      }
    }
  }

  /** Where there is no file, the first document is revised as one of the current generation. */
  lemma PrepareCreates(a: Adapters, c: Codec, revise: Option<VersionedEdit>, initial: Option<Fields>, admit: Option<Admission>,
                       backups: map<string, Bytes>)
    requires LawfulCodec(c)
    ensures var files := Files(None, backups);
            var done := Perform(a, c, Prepare(revise, initial, admit), files);
            var raw := if initial.Some? then c.print_(initial.value) else [];
            && (done.1 == Published <==>
                  && initial.Some? && FileReadable(c, raw) && a.schemaOk(FileData(c, raw))
                  && RevisionAccepted(a, revise, admit, None, FileData(c, raw), 13))
            && (done.1 == Unchanged <==> initial.None? && revise.None?)
            && (done.1 == Published ==> done.0.backups == backups
                                        && FileIs(c, done.0.target, RevisedBy(revise, FileData(c, raw), 13).value, None))
            && (done.1 != Published ==> done.0 == files)
  {
    hide Decode, Encode, PrepareDocument, FileIs, FileReadable, FileData, FileGeneration, FileReceipt, Admitted, Admits;
    if initial.Some? {
      var raw := c.print_(initial.value);
      DecodeIs(c, raw);
      if FileReadable(c, raw) {
        var data := FileData(c, raw);
        CurrentIsPrepared(a, data);
        var revised := RevisedBy(revise, data, 13);
        if revised.Ok? {
          AdmitsIs(admit, None, 13, revised.value);
          EncodedIs(c, revised.value, None);
        }
      }
    }
  }
}
