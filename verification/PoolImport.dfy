/** Selecting a storage backend for a configuration file. A file older than the generation that
    owns pool sizes imports them from the environment, once; from then on the environment may
    only repeat what the file says. */
module PoolImport {
  import opened Wrappers
  import opened Json
  import opened SectionRules
  import opened Canonicalizer
  import opened FileFormat
  import opened Publication
  import opened PublicationSafety
  import opened LocalFile
  import opened UpgradeAcceptance
  import opened PublishedWhen

  /** An unset reader inherits the writer's value. */
  datatype Pools = Pools(size: int, timeout: real, readSize: Option<int>, readTimeout: Option<real>)

  /** The four old assignments, stripped; empty is unset. */
  datatype Legacy = Legacy(size: string, timeout: string, readSize: string, readTimeout: string)

  /** Reading a number of connections and a finite number of seconds. */
  datatype Readers = Readers(count: string -> Option<int>, seconds: string -> Option<real>)

  datatype Storage =
    | NoStorage
    | Managed
    | Sqlite(path: Option<string>)
    | Supabase(dbUrl: string, schema: Option<string>)
    | Postgres(dbUrl: string, schema: Option<string>, readUrl: Option<string>, pools: Pools)

  /** What the operator selects; the URL is not blank. */
  datatype Selection =
    | SelectSqlite
    | SelectSupabase(dbUrl: string)
    | SelectPostgres(dbUrl: string, schema: Option<string>, readUrl: Option<string>)

  const FROZEN := Pools(10, 30.0, None, None)
  const CURRENT := Pools(10, 30.0, None, None)

  // ----- the old assignments ---------------------------------------------------------------------

  function PositiveInt(r: Readers, raw: string, default: int): Option<int> {
    if raw == "" then Some(default)
    else if r.count(raw).Some? && r.count(raw).value > 0 then r.count(raw)
    else None
  }

  function PositiveSeconds(r: Readers, raw: string, default: real): Option<real> {
    if raw == "" then Some(default)
    else if r.seconds(raw).Some? && r.seconds(raw).value > 0.0 then r.seconds(raw)
    else None
  }

  /** What the predecessor would have run with, or nothing if an assignment is malformed. */
  function ResolvePools(r: Readers, env: Legacy): Option<Pools> {
    var size, timeout := PositiveInt(r, env.size, FROZEN.size), PositiveSeconds(r, env.timeout, FROZEN.timeout);
    var readSize, readTimeout := PositiveInt(r, env.readSize, FROZEN.size), PositiveSeconds(r, env.readTimeout, FROZEN.timeout);
    if size.None? || timeout.None? || readSize.None? || readTimeout.None? then None
    else Some(Pools(size.value, timeout.value,
                    if env.readSize == "" then None else readSize,
                    if env.readTimeout == "" then None else readTimeout))
  }

  /** Every assignment that is set says what the selected pools come to. */
  predicate Repeats(r: Readers, env: Legacy, selected: Pools) {
    && (env.size != "" ==> PositiveInt(r, env.size, 0) == Some(selected.size))
    && (env.timeout != "" ==> PositiveSeconds(r, env.timeout, 0.0) == Some(selected.timeout))
    && (env.readSize != "" ==>
          PositiveInt(r, env.readSize, 0) == Some(if selected.readSize.Some? then selected.readSize.value else selected.size))
    && (env.readTimeout != "" ==>
          PositiveSeconds(r, env.readTimeout, 0.0) == Some(if selected.readTimeout.Some? then selected.readTimeout.value else selected.timeout))
  }

  /** A loop over the four assignments against the effective values; malformed values are
      refused first. Accepts exactly when every assignment repeats the selection. */
  method RejectPoolConflicts(r: Readers, env: Legacy, selected: Pools) returns (accepted: bool)
    ensures accepted <==> Repeats(r, env, selected)
  {
    var supplied := ResolvePools(r, env);
    if supplied.None? { return false; }
    var effective := selected;
    if effective.readSize.None? {
      effective := effective.(readSize := Some(selected.size));
    }
    if effective.readTimeout.None? {
      effective := effective.(readTimeout := Some(selected.timeout));
    }
    var checks := [
      (env.size, supplied.value.size == effective.size),
      (env.timeout, supplied.value.timeout == effective.timeout),
      (env.readSize, supplied.value.readSize == effective.readSize),
      (env.readTimeout, supplied.value.readTimeout == effective.readTimeout)];
    for i := 0 to |checks|
      invariant forall j :: 0 <= j < i ==> checks[j].0 == "" || checks[j].1
    {
      if checks[i].0 != "" && !checks[i].1 {
        assert !(checks[0].0 == "" || checks[0].1) || !(checks[1].0 == "" || checks[1].1)
               || !(checks[2].0 == "" || checks[2].1) || !(checks[3].0 == "" || checks[3].1);
        return false;
      }
    }
    assert (checks[0].0 == "" || checks[0].1) && (checks[1].0 == "" || checks[1].1)
           && (checks[2].0 == "" || checks[2].1) && (checks[3].0 == "" || checks[3].1);
    return true;
  }

  // ----- the selection --------------------------------------------------------------------------------

  function Namespace(schema: Option<string>): string {
    if schema.None? || schema.value == "" then "public" else schema.value
  }

  predicate Remote(s: Storage) {
    s.Supabase? || s.Postgres?
  }

  /** A repeated selection of one primary keeps its saved schema unless another is named. */
  function KeptSchema(existing: Storage, dbUrl: string, schema: Option<string>): Option<string> {
    if Remote(existing) && existing.dbUrl == dbUrl && schema.None? then existing.schema else schema
  }

  function Select(r: Readers, env: Legacy, selection: Selection, existing: Storage, generation: nat): Option<Storage> {
    match selection
    case SelectSqlite => Some(if existing.Sqlite? then existing else Sqlite(None))
    case SelectSupabase(dbUrl) => Some(Supabase(dbUrl, KeptSchema(existing, dbUrl, None)))
    case SelectPostgres(dbUrl, named, readNamed) =>
      var imported := ResolvePools(r, env);
      if imported.None? then None
      else
        var schema := KeptSchema(existing, dbUrl, named);
        var readUrl :=
          if existing.Postgres? && existing.dbUrl == dbUrl && Namespace(schema) == Namespace(existing.schema) && readNamed.None?
          then existing.readUrl else readNamed;
        if generation < NATIVE_POOL_AUTHORITY_VERSION then Some(Postgres(dbUrl, schema, readUrl, imported.value))
        else
          var pools := if existing.Postgres? then existing.pools else CURRENT;
          if Repeats(r, env, pools) then Some(Postgres(dbUrl, schema, readUrl, pools)) else None
  }

  /** The callback as it runs, reassigning the selection as it learns more of the saved one. */
  method UpdateStorage(r: Readers, env: Legacy, selection: Selection, existing: Storage, generation: nat) returns (selected: Option<Storage>)
    ensures selected == Select(r, env, selection, existing, generation)
  {
    var legacyPools := FROZEN;
    if selection.SelectPostgres? {
      var resolved := ResolvePools(r, env);
      if resolved.None? { return None; }
      legacyPools := resolved.value;
    }
    if selection.SelectSqlite? && existing.Sqlite? { return Some(existing); }
    var replacement := match selection
      case SelectSqlite => Sqlite(None)
      case SelectSupabase(dbUrl) => Supabase(dbUrl, None)
      case SelectPostgres(dbUrl, schema, readUrl) => Postgres(dbUrl, schema, readUrl, CURRENT);
    if Remote(replacement) && Remote(existing) && replacement.dbUrl == existing.dbUrl && replacement.schema.None? {
      replacement := replacement.(schema := existing.schema);
    }
    if replacement.Postgres? {
      if existing.Postgres? && replacement.dbUrl == existing.dbUrl
         && Namespace(replacement.schema) == Namespace(existing.schema) && replacement.readUrl.None? {
        replacement := replacement.(readUrl := existing.readUrl);
      }
      if generation < NATIVE_POOL_AUTHORITY_VERSION {
        replacement := replacement.(pools := legacyPools);
      } else {
        if existing.Postgres? {
          replacement := replacement.(pools := existing.pools);
        }
        var accepted := RejectPoolConflicts(r, env, replacement.pools);
        if !accepted { return None; }
      }
    }
    return Some(replacement);
  }

  // ----- what is selected, written out ------------------------------------------------------------------

  predicate CountReadable(r: Readers, raw: string) {
    raw == "" || (r.count(raw).Some? && r.count(raw).value > 0)
  }

  predicate SecondsReadable(r: Readers, raw: string) {
    raw == "" || (r.seconds(raw).Some? && r.seconds(raw).value > 0.0)
  }

  predicate AssignmentsReadable(r: Readers, env: Legacy) {
    && CountReadable(r, env.size) && SecondsReadable(r, env.timeout)
    && CountReadable(r, env.readSize) && SecondsReadable(r, env.readTimeout)
  }

  /** What four readable assignments ask for. */
  function AssignedPools(r: Readers, env: Legacy): Pools
    requires AssignmentsReadable(r, env)
  {
    Pools(if env.size == "" then 10 else r.count(env.size).value,
          if env.timeout == "" then 30.0 else r.seconds(env.timeout).value,
          if env.readSize == "" then None else r.count(env.readSize),
          if env.readTimeout == "" then None else r.seconds(env.readTimeout))
  }

  /** Readable assignments that say nothing else than the pools do. */
  predicate Agree(r: Readers, env: Legacy, pools: Pools) {
    && AssignmentsReadable(r, env)
    && (env.size == "" || r.count(env.size).value == pools.size)
    && (env.timeout == "" || r.seconds(env.timeout).value == pools.timeout)
    && (env.readSize == "" || r.count(env.readSize).value == if pools.readSize.None? then pools.size else pools.readSize.value)
    && (env.readTimeout == "" || r.seconds(env.readTimeout).value == if pools.readTimeout.None? then pools.timeout else pools.readTimeout.value)
  }

  lemma PoolsAre(r: Readers, env: Legacy, pools: Pools)
    ensures ResolvePools(r, env).Some? <==> AssignmentsReadable(r, env)
    ensures AssignmentsReadable(r, env) ==> ResolvePools(r, env) == Some(AssignedPools(r, env))
    ensures Repeats(r, env, pools) <==> Agree(r, env, pools)
  {
  }

  predicate SavedPrimary(existing: Storage, dbUrl: string) {
    (existing.Supabase? || existing.Postgres?) && existing.dbUrl == dbUrl
  }

  function SavedSchema(existing: Storage, dbUrl: string, schema: Option<string>): Option<string> {
    if schema.None? && SavedPrimary(existing, dbUrl) then existing.schema else schema
  }

  /** An unnamed or empty schema is the schema "public". */
  predicate SameSchema(x: Option<string>, y: Option<string>) {
    || x == y
    || ((x == None || x == Some("") || x == Some("public")) && (y == None || y == Some("") || y == Some("public")))
  }

  function SavedReader(existing: Storage, dbUrl: string, schema: Option<string>, readUrl: Option<string>): Option<string> {
    if readUrl.None? && existing.Postgres? && existing.dbUrl == dbUrl && SameSchema(SavedSchema(existing, dbUrl, schema), existing.schema)
    then existing.readUrl else readUrl
  }

  /** The pools of a selected native backend: the assignments' before generation 10, from then on
      the saved ones or the shipped defaults. */
  function SelectedPools(r: Readers, env: Legacy, existing: Storage, generation: nat): Pools
    requires AssignmentsReadable(r, env)
  {
    if generation < 10 then AssignedPools(r, env) else if existing.Postgres? then existing.pools else Pools(10, 30.0, None, None)
  }

  /** What every selection comes to: the kind and primary that were selected, with the saved path,
      schema and reader of the same backend, and for a native backend its pools; and exactly when
      the assignments stand in the way. */
  lemma SelectIs(r: Readers, env: Legacy, existing: Storage, generation: nat, dbUrl: string, schema: Option<string>, readUrl: Option<string>)
    ensures Select(r, env, SelectSqlite, existing, generation) == Some(if existing.Sqlite? then existing else Sqlite(None))
    ensures Select(r, env, SelectSupabase(dbUrl), existing, generation) == Some(Supabase(dbUrl, SavedSchema(existing, dbUrl, None)))
    ensures var selected := Select(r, env, SelectPostgres(dbUrl, schema, readUrl), existing, generation);
            && (selected.Some? <==>
                  AssignmentsReadable(r, env) && (generation >= 10 ==> Agree(r, env, SelectedPools(r, env, existing, generation))))
            && (selected.Some? ==>
                  selected.value == Postgres(dbUrl, SavedSchema(existing, dbUrl, schema), SavedReader(existing, dbUrl, schema, readUrl),
                                             SelectedPools(r, env, existing, generation)))
  {
    hide ResolvePools, Repeats, Agree, AssignmentsReadable, AssignedPools;
    PoolsAre(r, env, if existing.Postgres? then existing.pools else CURRENT);
  }

  // ----- stability --------------------------------------------------------------------------------------

  /** What was just imported is repeated by the assignments it was imported from, blank or set. */
  lemma ImportRepeats(r: Readers, env: Legacy)
    ensures ResolvePools(r, env).Some? ==> Repeats(r, env, ResolvePools(r, env).value)
  {
  }

  /** A selection that succeeded, on a file of any generation, succeeds again on the file it
      left under the same environment and selects the same storage: no pool conflict, and the
      same schema, reader and pools. */
  lemma SelectionStable(r: Readers, env: Legacy, selection: Selection, existing: Storage, generation: nat)
    requires Select(r, env, selection, existing, generation).Some?
    ensures Select(r, env, selection, Select(r, env, selection, existing, generation).value, FILE_FORMAT_VERSION)
         == Select(r, env, selection, existing, generation)
  {
    hide ResolvePools, Repeats;
    ImportRepeats(r, env);
  }

  /** Selecting again what is saved, naming nothing more, keeps it whole: the SQLite path, the
      remote schema, and a native reference with its reader and pools. */
  lemma ReselectionKeeps(r: Readers, env: Legacy, existing: Storage, generation: nat)
    requires generation >= NATIVE_POOL_AUTHORITY_VERSION
    ensures existing.Sqlite? ==> Select(r, env, SelectSqlite, existing, generation) == Some(existing)
    ensures existing.Supabase? ==> Select(r, env, SelectSupabase(existing.dbUrl), existing, generation) == Some(existing)
    ensures existing.Postgres? ==>
              Select(r, env, SelectPostgres(existing.dbUrl, None, None), existing, generation)
              == if Repeats(r, env, existing.pools) then Some(existing) else None
  {
    hide ResolvePools, Repeats;
    if existing.Postgres? {
      RepeatsResolves(r, env, existing.pools);
    }
  }

  /** Selecting another primary carries neither the saved schema nor the saved reader across. */
  lemma RetargetCarriesNothing(r: Readers, env: Legacy, selection: Selection, existing: Storage, generation: nat)
    requires !selection.SelectSqlite? && (Remote(existing) ==> existing.dbUrl != selection.dbUrl)
    requires Select(r, env, selection, existing, generation).Some?
    ensures var selected := Select(r, env, selection, existing, generation).value;
            && selected.schema == (if selection.SelectPostgres? then selection.schema else None)
            && (selection.SelectPostgres? ==> selected.readUrl == selection.readUrl)
  {
    hide ResolvePools, Repeats;
  }

  /** From the owning generation on, no assignment selects a pool: two environments under which
      a selection succeeds select the same storage, with the saved pools if there are any. */
  lemma EnvironmentNeverSelects(r: Readers, env: Legacy, other: Legacy, selection: Selection, existing: Storage, generation: nat)
    requires generation >= NATIVE_POOL_AUTHORITY_VERSION
    requires Select(r, env, selection, existing, generation).Some? && Select(r, other, selection, existing, generation).Some?
    ensures Select(r, env, selection, existing, generation) == Select(r, other, selection, existing, generation)
    ensures selection.SelectPostgres? && existing.Postgres? ==>
              Select(r, env, selection, existing, generation).value.pools == existing.pools
  {
    hide ResolvePools, Repeats;
  }

  /** After an import, changing an assignment is refused exactly when it no longer repeats the
      imported pools. */
  lemma ChangedAssignmentIff(r: Readers, env: Legacy, changed: Legacy, selection: Selection, existing: Storage, generation: nat)
    requires selection.SelectPostgres? && generation < NATIVE_POOL_AUTHORITY_VERSION
    requires Select(r, env, selection, existing, generation).Some?
    ensures var imported := Select(r, env, selection, existing, generation).value;
            Select(r, changed, selection, imported, FILE_FORMAT_VERSION) ==
            if Repeats(r, changed, ResolvePools(r, env).value) then Some(imported) else None
  {
    RepeatsResolves(r, changed, ResolvePools(r, env).value);
    hide ResolvePools, Repeats;
  }

  lemma RepeatsResolves(r: Readers, env: Legacy, selected: Pools)
    ensures Repeats(r, env, selected) ==> ResolvePools(r, env).Some?
  {
  }

  // ----- the same, on the file -------------------------------------------------------------------------

  /** Reading the storage section of an accepted document, and writing one. */
  datatype StorageCodec = StorageCodec(validate: Fields -> Option<Storage>, dump: Storage -> Json)

  ghost predicate LawfulStorage(a: Adapters, sc: StorageCodec) {
    forall d: Fields, s: Storage {:trigger a.schemaOk(d[STORAGE_CONFIG := sc.dump(s)])} ::
      a.schemaOk(d[STORAGE_CONFIG := sc.dump(s)]) ==> sc.validate(d[STORAGE_CONFIG := sc.dump(s)]) == Some(s)
  }

  /** The edit an upgrade carries out under the file's lock. */
  function StorageEdit(r: Readers, env: Legacy, selection: Selection, sc: StorageCodec, d: Fields, generation: nat): Result<Fields> {
    var existing := sc.validate(d);
    if existing.None? then Refused(InvalidSchema)
    else if selection.SelectSqlite? && existing.value.Sqlite? then Ok(d)
    else
      var selected := Select(r, env, selection, existing.value, generation);
      if selected.None? then Refused(NotAdmitted) else Ok(d[STORAGE_CONFIG := sc.dump(selected.value)])
  }

  /** Editing an edited document leaves it as it is. */
  lemma EditSettles(a: Adapters, r: Readers, env: Legacy, selection: Selection, sc: StorageCodec, d: Fields, generation: nat)
    requires LawfulStorage(a, sc) && StorageEdit(r, env, selection, sc, d, generation).Ok?
    requires a.schemaOk(StorageEdit(r, env, selection, sc, d, generation).value)
    ensures var edited := StorageEdit(r, env, selection, sc, d, generation).value;
            StorageEdit(r, env, selection, sc, edited, FILE_FORMAT_VERSION) == Ok(edited)
  {
    hide Select;
    var existing := sc.validate(d).value;
    if !(selection.SelectSqlite? && existing.Sqlite?) {
      var selected := Select(r, env, selection, existing, generation).value;
      SelectionStable(r, env, selection, existing, generation);
      var edited := d[STORAGE_CONFIG := sc.dump(selected)];
      assert edited[STORAGE_CONFIG := sc.dump(selected)] == edited;
      assert sc.validate(edited) == Some(selected);
    }
  }

  function Revision(r: Readers, env: Legacy, selection: Selection, sc: StorageCodec): VersionedEdit {
    (d: Fields, generation: nat) => StorageEdit(r, env, selection, sc, d, generation)
  }

  /** Selecting a backend twice: the second time the file is read, found as it should be, and
      not written, whether the first selection created it or found it in any generation, and
      whatever first document and admission the second is given. */
  lemma SelectedOnce(a: Adapters, c: Codec, sc: StorageCodec, r: Readers, env: Legacy, selection: Selection, files: Files,
                     initial: Option<Fields>, admit: Option<Admission>, later: Option<Fields>, again: Option<Admission>)
    requires LawfulCodec(c) && LawfulStorage(a, sc)
    requires var request := Prepare(Some(Revision(r, env, selection, sc)), initial, admit);
             Perform(a, c, request, files).1 == Published
    ensures var request := Prepare(Some(Revision(r, env, selection, sc)), initial, admit);
            var left := Perform(a, c, request, files).0;
            Perform(a, c, Prepare(Some(Revision(r, env, selection, sc)), later, again), left) == (left, Unchanged)
  {
    hide PlanOf, Candidate, Encode, Decode, StorageEdit;
    var revise := Revision(r, env, selection, sc);
    var request := Prepare(Some(revise), initial, admit);
    PlanEncodesCandidate(a, c, request, files.target);
    var document := Candidate(a, c, request, files.target).value;
    var receipt: Option<string> :| (receipt.Some? ==> HexDigest(receipt.value))
                                   && PlanOf(a, c, request, files.target).encoded == Encode(c, document, receipt);
    EditedCandidate(a, c, sc, r, env, selection, files.target, initial, admit);
    RevisionIsRechecked(a, c, revise, document, receipt, later, again);
  }

  lemma EditedCandidate(a: Adapters, c: Codec, sc: StorageCodec, r: Readers, env: Legacy, selection: Selection, original: Option<Bytes>,
                        initial: Option<Fields>, admit: Option<Admission>)
    requires LawfulStorage(a, sc)
    requires var request := Prepare(Some(Revision(r, env, selection, sc)), initial, admit);
             Candidate(a, c, request, original).Ok? && a.schemaOk(Candidate(a, c, request, original).value)
    ensures var request := Prepare(Some(Revision(r, env, selection, sc)), initial, admit);
            var document := Candidate(a, c, request, original).value;
            && FILE_METADATA !in document
            && Revision(r, env, selection, sc)(document, FILE_FORMAT_VERSION) == Ok(document)
  {
    hide Decode, PrepareDocument, Select;
    var read := if original.Some? then Decode(c, original.value) else Decode(c, c.print_(initial.value));
    var version := if original.Some? then read.value.envelope.version else FILE_FORMAT_VERSION;
    var source := PrepareDocument(a, read.value.data, version).value;
    var plain := Prepare(None, initial, admit);
    assert Candidate(a, c, plain, original) == Ok(source);
    NoEnvelopeLeft(a, c, plain, original);
    EditSettles(a, r, env, selection, sc, source, version);
  }

  lemma RevisionIsRechecked(a: Adapters, c: Codec, revise: VersionedEdit, document: Fields, receipt: Option<string>,
                            initial: Option<Fields>, admit: Option<Admission>)
    requires LawfulCodec(c) && (receipt.Some? ==> HexDigest(receipt.value))
    requires a.schemaOk(document) && FILE_METADATA !in document && revise(document, FILE_FORMAT_VERSION) == Ok(document)
    ensures PlanOf(a, c, Prepare(Some(revise), initial, admit), Some(Encode(c, document, receipt))) == Recheck
  {
    hide Decode, Encode, PrepareDocument;
    DecodeEncode(c, document, receipt);
    assert document - {FILE_METADATA} == document;
    assert PrepareDocument(a, document, FILE_FORMAT_VERSION) == Ok(document) by { CurrentIsPrepared(a, document); }
  }

  /** On a file of a generation older than 10 the selection is imported: it is published exactly
      when the file upgrades, its storage can be read, the four assignments are well formed and
      what they come to passes the schema, the admission check and the kept original; and a reader
      then finds the upgraded document with the selected backend and the pools they ask for. */
  lemma OlderFileImportsPools(a: Adapters, c: Codec, sc: StorageCodec, r: Readers, env: Legacy, dbUrl: string, schema: Option<string>,
                              readUrl: Option<string>, raw: Bytes, backups: map<string, Bytes>, initial: Option<Fields>, admit: Option<Admission>)
    requires LawfulCodec(c) && FileReadable(c, raw) && FileGeneration(c, raw) < 10
    ensures var version, data := FileGeneration(c, raw), FileData(c, raw);
            var done := Perform(a, c, Prepare(Some(Revision(r, env, SelectPostgres(dbUrl, schema, readUrl), sc)), initial, admit), Files(Some(raw), backups));
            && (done.1 == Published <==>
                  && Upgradable(a, data, version) && PrepareDocument(a, data, version).Ok?
                  && var source := PrepareDocument(a, data, version).value;
                  && sc.validate(source).Some? && AssignmentsReadable(r, env)
                  && var imported := Imported(r, env, sc, dbUrl, schema, readUrl, source);
                     a.schemaOk(imported) && Admits(admit, Some(source), version, imported) && KeptAlready(c, raw, backups))
            && (done.1 == Published ==>
                  && done.0.backups == backups[c.digest(raw) := raw]
                  && FileIs(c, done.0.target, Imported(r, env, sc, dbUrl, schema, readUrl, PrepareDocument(a, data, version).value), Some(c.digest(raw))))
  {
    hide FileReadable, FileGeneration, FileData, FileIs, Perform, PrepareDocument, Upgradable, Admits, KeptAlready, Select, AssignmentsReadable,
         AssignedPools;
    var selection := SelectPostgres(dbUrl, schema, readUrl);
    var revise := Revision(r, env, selection, sc);
    var version, data := FileGeneration(c, raw), FileData(c, raw);
    PrepareIs(a, c, Some(revise), initial, admit, raw, backups);
    UpgradeIs(a, data, version);
    if PrepareDocument(a, data, version).Ok? {
      var source := PrepareDocument(a, data, version).value;
      if sc.validate(source).Some? {
        SelectIs(r, env, sc.validate(source).value, version, dbUrl, schema, readUrl);
      }
      assert RevisedBy(Some(revise), source, version) == StorageEdit(r, env, selection, sc, source, version);
    }
  }

  function Imported(r: Readers, env: Legacy, sc: StorageCodec, dbUrl: string, schema: Option<string>, readUrl: Option<string>, source: Fields): Fields
    requires sc.validate(source).Some? && AssignmentsReadable(r, env)
  {
    var existing := sc.validate(source).value;
    source[STORAGE_CONFIG := sc.dump(Postgres(dbUrl, SavedSchema(existing, dbUrl, schema), SavedReader(existing, dbUrl, schema, readUrl),
                                              AssignedPools(r, env)))]
  }

  /** The storage a selection that succeeds leaves, for every kind and generation. */
  function Selected(r: Readers, env: Legacy, selection: Selection, existing: Storage, generation: nat): Storage
    requires selection.SelectPostgres? ==> AssignmentsReadable(r, env)
  {
    match selection
    case SelectSqlite => if existing.Sqlite? then existing else Sqlite(None)
    case SelectSupabase(dbUrl) => Supabase(dbUrl, SavedSchema(existing, dbUrl, None))
    case SelectPostgres(dbUrl, schema, readUrl) =>
      Postgres(dbUrl, SavedSchema(existing, dbUrl, schema), SavedReader(existing, dbUrl, schema, readUrl), SelectedPools(r, env, existing, generation))
  }

  /** Whatever is selected on a file of whatever generation: what is published is the upgraded
      document with that storage in its section and nothing else changed, and a native selection
      is published only under readable assignments that, from generation 10 on, repeat its pools. */
  lemma SelectionOnFile(a: Adapters, c: Codec, sc: StorageCodec, r: Readers, env: Legacy, selection: Selection, raw: Bytes,
                        backups: map<string, Bytes>, initial: Option<Fields>, admit: Option<Admission>)
    requires LawfulCodec(c) && FileReadable(c, raw)
    requires var request := Prepare(Some(Revision(r, env, selection, sc)), initial, admit);
             Perform(a, c, request, Files(Some(raw), backups)).1 == Published
    ensures var done := Perform(a, c, Prepare(Some(Revision(r, env, selection, sc)), initial, admit), Files(Some(raw), backups));
            var version, data := FileGeneration(c, raw), FileData(c, raw);
            && PrepareDocument(a, data, version).Ok?
            && var source := PrepareDocument(a, data, version).value;
            && sc.validate(source).Some?
            && var existing := sc.validate(source).value;
            && (selection.SelectPostgres? ==>
                  AssignmentsReadable(r, env) && (version >= 10 ==> Agree(r, env, SelectedPools(r, env, existing, version))))
            && FileIs(c, done.0.target,
                      if selection.SelectSqlite? && existing.Sqlite? then source
                      else source[STORAGE_CONFIG := sc.dump(Selected(r, env, selection, existing, version))],
                      if version < 13 then Some(c.digest(raw)) else FileReceipt(c, raw))
  {
    hide FileReadable, FileGeneration, FileData, FileIs, FileReceipt, Perform, PrepareDocument, Upgradable, Admits, KeptAlready, Select,
         AssignmentsReadable, AssignedPools, Agree;
    var revise := Revision(r, env, selection, sc);
    var version, data := FileGeneration(c, raw), FileData(c, raw);
    PrepareIs(a, c, Some(revise), initial, admit, raw, backups);
    var source := PrepareDocument(a, data, version).value;
    assert RevisedBy(Some(revise), source, version) == StorageEdit(r, env, selection, sc, source, version);
    match selection
    case SelectSqlite => SelectIs(r, env, sc.validate(source).value, version, "", None, None);
    case SelectSupabase(dbUrl) => SelectIs(r, env, sc.validate(source).value, version, dbUrl, None, None);
    case SelectPostgres(dbUrl, schema, readUrl) => SelectIs(r, env, sc.validate(source).value, version, dbUrl, schema, readUrl);
  }
}
