/** The explicit offline conversion of one file into another, and how it meets the upgrade
    that runs before serving. */
module ConfigUpgrade {
  import opened Wrappers
  import opened Json
  import opened SectionRules
  import opened Canonicalizer
  import opened CanonicalForm
  import opened FileFormat
  import opened Publication
  import opened PublicationSafety
  import opened LocalFile
  import opened ConvertedDocument
  import opened PublishedWhen
  import RouteConvergence
  import Converter

  type Path = string

  /** The bytes the conversion writes for the bytes it reads. */
  function Converted(a: Adapters, c: Codec, raw: Bytes): Result<Bytes> {
    var stored :- Decode(c, raw);
    var payload :- ConversionRead(a, stored.data, stored.envelope.version);
    var converted :- CanonicalizeDocument(a, payload);
    Ok(Encode(c, converted, None))
  }

  /** The written bytes, told from the bytes read: a current file without a receipt, holding what the
      conversion is to make of the input's document under the input's generation. A readable input
      is refused only for what it cannot be converted from, or because the schema refuses the result. */
  lemma ConvertedFileIs(a: Adapters, c: Codec, raw: Bytes)
    requires LawfulCodec(c)
    ensures Converted(a, c, raw).Ok? ==>
              && FileReadable(c, raw)
              && exists e :: Reads(a, FileData(c, raw), FileGeneration(c, raw), e) && a.schemaOk(e)
                             && FileIs(c, Some(Converted(a, c, raw).value), e, None)
    ensures Converted(a, c, raw).Refused? && FileReadable(c, raw) && Convertible(a, FileData(c, raw), FileGeneration(c, raw)) ==>
              exists e :: Reads(a, FileData(c, raw), FileGeneration(c, raw), e) && !a.schemaOk(e)
  {
    hide Decode, ConversionRead, CanonicalizeDocument, Encode, FileReadable, FileData, FileGeneration, FileReceipt, FileIs, Reads, Convertible;
    DecodeIs(c, raw);
    if FileReadable(c, raw) {
      var data, version := FileData(c, raw), FileGeneration(c, raw);
      ConversionIs(a, data, version);
      if Converted(a, c, raw).Ok? {
        EncodedIs(c, CanonicalizeDocument(a, ConversionRead(a, data, version).value).value, None);
      }
    }
  }

  class Directory {
    var files: map<Path, Bytes>

    constructor (files: map<Path, Bytes>)
      ensures this.files == files
    {
      this.files := files;
    }

    /** Writes the converted copy through a temporary file, or nothing at all; the input is
        never the output and stays as it was. */
    method ConvertConfigFile(a: Adapters, c: Codec, source: Path, destination: Path, temporary: Path) returns (done: bool)
      requires temporary !in files && temporary != source && temporary != destination
      modifies this
      ensures done <==> source != destination && source in old(files) && Converted(a, c, old(files)[source]).Ok?
      ensures files == if done then old(files)[destination := Converted(a, c, old(files)[source]).value] else old(files)
      ensures source in old(files) ==> source in files && files[source] == old(files)[source]
    {
      hide Decode, ConversionRead, CanonicalizeDocument, Encode, Reads, Convertible;
      if source == destination || source !in files { return false; }
      var stored := Decode(c, files[source]);
      if stored.Refused? { return false; }
      var payload := ConversionRead(a, stored.value.data, stored.value.envelope.version);
      if payload.Refused? { return false; }
      var converted := Converter.ConvertDocument(a, payload.value);
      if converted.Refused? { return false; }
      files := files[temporary := Encode(c, converted.value, None)];
      var written := files[temporary];
      files := files[destination := written] - {temporary};
      assert files == old(files)[destination := written];
      return true;
    }
  }

  lemma CanonicalKeepsAbsence(a: Adapters, d: Fields)
    requires CanonicalizeDocument(a, d).Ok? && FILE_METADATA !in d
    ensures FILE_METADATA !in CanonicalizeDocument(a, d).value
  {
    hide Canonicalize, TagStorage;
    var converted := Canonicalize(a, d).value;
    AcceptedAt(a, d, FILE_METADATA);
    assert Lookup(converted, FILE_METADATA) == Lookup(d, FILE_METADATA);
  }

  lemma DecodedLacksEnvelope(c: Codec, raw: Bytes)
    requires Decode(c, raw).Ok?
    ensures FILE_METADATA !in Decode(c, raw).value.data
    ensures Decode(c, raw).value.envelope.version <= FILE_FORMAT_VERSION
  {
  }

  lemma ReadKeepsAbsence(a: Adapters, d: Fields, version: nat)
    requires ConversionRead(a, d, version).Ok? && FILE_METADATA !in d
    ensures FILE_METADATA !in ConversionRead(a, d, version).value
    ensures version == FILE_FORMAT_VERSION ==> ConversionRead(a, d, version) == Ok(d)
  {
    hide RewriteValue;
  }

  /** What a conversion writes is current: reading it for conversion gives the document back. */
  lemma ConvertedShape(a: Adapters, c: Codec, raw: Bytes)
    requires LawfulCodec(c) && Converted(a, c, raw).Ok?
    ensures exists document: Fields, payload: Fields ::
              && FILE_METADATA !in document
              && CanonicalizeDocument(a, payload) == Ok(document)
              && Converted(a, c, raw).value == Encode(c, document, None)
              && Decode(c, Converted(a, c, raw).value) == Ok(Decoded(document, Envelope(FILE_FORMAT_VERSION, None)))
  {
    hide Decode, ConversionRead, CanonicalizeDocument, Encode;
    var stored := Decode(c, raw).value;
    var payload := ConversionRead(a, stored.data, stored.envelope.version).value;
    var document := CanonicalizeDocument(a, payload).value;
    DecodedLacksEnvelope(c, raw);
    ReadKeepsAbsence(a, stored.data, stored.envelope.version);
    CanonicalKeepsAbsence(a, payload);
    assert document - {FILE_METADATA} == document;
    DecodeEncode(c, document, None);
  }

  /** Converting a converted file writes the same bytes again. */
  lemma ConversionIsIdempotent(a: Adapters, c: Codec, raw: Bytes)
    requires LawfulCodec(c) && Converted(a, c, raw).Ok?
    ensures Converted(a, c, Converted(a, c, raw).value) == Converted(a, c, raw)
  {
    hide Converted, Decode, ConversionRead, CanonicalizeDocument, Encode;
    ConvertedShape(a, c, raw);
    var document: Fields, payload: Fields :|
      FILE_METADATA !in document && CanonicalizeDocument(a, payload) == Ok(document)
      && Converted(a, c, raw).value == Encode(c, document, None)
      && Decode(c, Converted(a, c, raw).value) == Ok(Decoded(document, Envelope(FILE_FORMAT_VERSION, None)));
    DocumentIdempotent(a, payload);
    CurrentRead(a, document);
    ConvertedOf(a, c, Converted(a, c, raw).value, document);
  }

  lemma CurrentRead(a: Adapters, document: Fields)
    ensures ConversionRead(a, document, FILE_FORMAT_VERSION) == Ok(document)
  {
  }

  lemma ConvertedOf(a: Adapters, c: Codec, raw: Bytes, document: Fields)
    requires Decode(c, raw).Ok? && Decode(c, raw).value.data == document && Decode(c, raw).value.envelope.version == FILE_FORMAT_VERSION
    requires CanonicalizeDocument(a, document) == Ok(document)
    ensures Converted(a, c, raw) == Ok(Encode(c, document, None))
  {
    hide Decode, CanonicalizeDocument, Encode, ConversionRead;
    CurrentRead(a, document);
  }

  /** A converted file is served as it is: the strict reader accepts it, and the upgrade
      before serving finds nothing to write. */
  lemma ConvertedIsCurrent(a: Adapters, c: Codec, raw: Bytes, initial: Option<Fields>, admit: Option<Admission>, backups: map<string, Bytes>)
    requires LawfulCodec(c) && Converted(a, c, raw).Ok?
    ensures ReadDocument(c, Converted(a, c, raw).value).Ok?
    ensures var files := Files(Some(Converted(a, c, raw).value), backups);
            Perform(a, c, Prepare(None, initial, admit), files) == (files, Unchanged)
  {
    hide Converted, Decode, CanonicalizeDocument, Encode, PlanOf, ReadDocument;
    ConvertedShape(a, c, raw);
    var document: Fields, payload: Fields :|
      FILE_METADATA !in document && CanonicalizeDocument(a, payload) == Ok(document)
      && Converted(a, c, raw).value == Encode(c, document, None)
      && Decode(c, Converted(a, c, raw).value) == Ok(Decoded(document, Envelope(FILE_FORMAT_VERSION, None)));
    SchemaAccepts(a, payload);
    EncodedReads(c, document, None);
    CurrentIsRechecked(a, c, document, None, initial, admit);
  }

  lemma SchemaAccepts(a: Adapters, d: Fields)
    requires CanonicalizeDocument(a, d).Ok?
    ensures a.schemaOk(CanonicalizeDocument(a, d).value)
  {
    hide Canonicalize, TagStorage;
  }

  /** The two routes meet on disk: once a file has been upgraded in place, converting it writes
      what converting its kept original writes, byte for byte, or both refuse. */
  lemma ConversionsAgree(a: Adapters, c: Codec, files: Files, initial: Option<Fields>, admit: Option<Admission>)
    requires Lawful(a) && LawfulCodec(c) && files.target.Some?
    requires Perform(a, c, Prepare(None, initial, admit), files).1 == Published
    ensures var left := Perform(a, c, Prepare(None, initial, admit), files).0;
            left.target.Some? && SameOutcome(Converted(a, c, left.target.value), Converted(a, c, files.target.value))
  {
    hide PlanOf, Encode, Decode, CanonicalizeDocument, ConversionRead, PrepareDocument, Candidate;
    var request := Prepare(None, initial, admit);
    PlanEncodesCandidate(a, c, request, files.target);
    var document := Candidate(a, c, request, files.target).value;
    var receipt: Option<string> :| (receipt.Some? ==> HexDigest(receipt.value))
                                   && PlanOf(a, c, request, files.target).encoded == Encode(c, document, receipt);
    DecodeEncode(c, document, receipt);
    NoEnvelopeLeft(a, c, request, files.target);
    assert document - {FILE_METADATA} == document;
    CurrentRead(a, document);
    CandidateIsUpgrade(a, c, request, files.target.value);
    DecodedLacksEnvelope(c, files.target.value);
    var stored := Decode(c, files.target.value).value;
    RouteConvergence.RoutesConverge(a, stored.data, stored.envelope.version);
  }

  lemma CandidateIsUpgrade(a: Adapters, c: Codec, request: Request, raw: Bytes)
    requires request.Prepare? && request.revise.None? && Candidate(a, c, request, Some(raw)).Ok?
    ensures Decode(c, raw).Ok?
    ensures PrepareDocument(a, Decode(c, raw).value.data, Decode(c, raw).value.envelope.version) == Candidate(a, c, request, Some(raw))
  {
    hide Decode, PrepareDocument;
  }
}
