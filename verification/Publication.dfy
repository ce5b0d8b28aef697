/** Publishing a configuration file as a protocol: cooperating writers take a lock, read,
    compute, keep the original, compare and replace; any of them may crash at any step, and an
    outsider who ignores the lock may rewrite the file between any two steps. */
module Publication {
  import opened Wrappers
  import opened Json
  import opened SectionRules
  import opened FileFormat

  type Edit = Fields -> Result<Fields>
  type VersionedEdit = (Fields, nat) -> Result<Fields>
  type Admission = Fields -> bool

  datatype Request =
    | Publish(document: Bytes, createOnly: bool, admit: Option<Admission>)
    | EditStorage(edit: Edit)
    | Prepare(revise: Option<VersionedEdit>, initial: Option<Fields>, admit: Option<Admission>)

  /** What a writer decides from the bytes it read. `Recheck` writes nothing but still refuses
      when the file has moved. */
  datatype Plan =
    | Refuse(rule: Rule)
    | Keep
    | Recheck
    | Write(encoded: Bytes, createOnly: bool, backup: Option<string>)

  predicate Admitted(admit: Option<Admission>, source: Option<Fields>, candidate: Fields, incompatible: bool) {
    match admit
    case None => true
    case Some(accepts) =>
      || (source.Some? && !incompatible
          && Get(source.value, STORAGE_CONFIG, Null) == Get(candidate, STORAGE_CONFIG, Null))
      || ((source.Some? ==> accepts(source.value)) && (source.None? || source.value != candidate ==> accepts(candidate)))
  }

  function PlanPublish(a: Adapters, c: Codec, document: Bytes, createOnly: bool, admit: Option<Admission>, original: Option<Bytes>): Plan {
    match Decode(c, document)
    case Refused(rule) => Refuse(rule)
    case Ok(supplied) =>
      var declared := if supplied.envelope.version == 0 then FILE_FORMAT_VERSION else supplied.envelope.version;
      if UnpreparedPendingCreation(supplied.data, declared) then Refuse(UnpreparedPending)
      else if !a.schemaOk(supplied.data) then Refuse(InvalidSchema)
      else match original
        case None =>
          if Admitted(admit, None, supplied.data, true) then Write(Encode(c, supplied.data, None), createOnly, None)
          else Refuse(NotAdmitted)
        case Some(raw) =>
          if createOnly then Keep
          else match Decode(c, raw)
            case Refused(rule) => Refuse(rule)
            case Ok(previous) =>
              var version := previous.envelope.version;
              var written := Write(Encode(c, supplied.data, previous.envelope.receipt), false, None);
              if admit.None? then written
              else match PrepareDocument(a, previous.data, version)
                case Refused(rule) => Refuse(rule)
                case Ok(source) =>
                  if Admitted(admit, Some(source), supplied.data, version < SINGLE_OWNER_EXECUTION_VERSION) then written
                  else Refuse(NotAdmitted)
  }

  function PlanEdit(a: Adapters, c: Codec, edit: Edit, original: Option<Bytes>): Plan {
    match original
    case None => Refuse(MalformedFile)
    case Some(raw) =>
      match Decode(c, raw)
      case Refused(rule) => Refuse(rule)
      case Ok(previous) =>
        if UnpreparedPendingCreation(previous.data, previous.envelope.version) then Refuse(UnpreparedPending)
        else if AmbiguousPolicy(previous.data, previous.envelope.version) then Refuse(AmbiguousGeneration)
        else if !a.schemaOk(previous.data) then Refuse(InvalidSchema)
        else match edit(previous.data)
          case Refused(rule) => Refuse(rule)
          case Ok(edited) =>
            if !a.schemaOk(edited) then Refuse(InvalidSchema)
            else if edited == previous.data then Keep
            else Write(Encode(c, edited, previous.envelope.receipt), false, None)
  }

  function PlanPrepare(a: Adapters, c: Codec, revise: Option<VersionedEdit>, initial: Option<Fields>,
                       admit: Option<Admission>, original: Option<Bytes>): Plan {
    if original.None? && initial.None? then
      if revise.Some? then Refuse(MalformedFile) else Keep
    else
      var read := if original.Some? then Decode(c, original.value) else Decode(c, c.print_(initial.value));
      match read
      case Refused(rule) => Refuse(rule)
      case Ok(decoded) =>
        var envelope := if original.Some? then decoded.envelope else Envelope(FILE_FORMAT_VERSION, None);
        if envelope.version == FILE_FORMAT_VERSION && !a.schemaOk(decoded.data) then Refuse(InvalidSchema)
        else match Revised(a, decoded.data, envelope.version, revise)
          case Refused(rule) => Refuse(rule)
          case Ok((source, canonical)) =>
            if !a.schemaOk(canonical) then Refuse(InvalidSchema)
            else if !Admitted(admit, if original.Some? then Some(source) else None, canonical,
                              envelope.version < SINGLE_OWNER_EXECUTION_VERSION) then Refuse(NotAdmitted)
            else if original.None? then Write(Encode(c, canonical, None), true, None)
            else if envelope.version == FILE_FORMAT_VERSION then
              if canonical == decoded.data then Recheck else Write(Encode(c, canonical, envelope.receipt), false, None)
            else
              var digest := c.digest(original.value);
              Write(Encode(c, canonical, Some(digest)), false, Some(digest))
  }

  /** The upgraded document before and after the caller's revision of it. */
  function Revised(a: Adapters, d: Fields, version: nat, revise: Option<VersionedEdit>): Result<(Fields, Fields)> {
    var source :- PrepareDocument(a, d, version);
    var canonical :- if revise.Some? then revise.value(source, version) else Ok(source);
    Ok((source, canonical))
  }

  function PlanOf(a: Adapters, c: Codec, request: Request, original: Option<Bytes>): Plan {
    match request
    case Publish(document, createOnly, admit) => PlanPublish(a, c, document, createOnly, admit, original)
    case EditStorage(edit) => PlanEdit(a, c, edit, original)
    case Prepare(revise, initial, admit) => PlanPrepare(a, c, revise, initial, admit, original)
  }

  // ----- the step machine ---------------------------------------------------------------------------

  datatype Outcome = Unchanged | Published | Failed

  /** Where the lock holder stands. Temporary files are written a byte at a time; `gap` records
      whether an outsider wrote after the last comparison. */
  datatype Phase =
    | Idle(last: Outcome)
    | Locked(request: Request)
    | Keeping(request: Request, kept: Bytes, temp: Bytes)
    | ReadingBack(request: Request, kept: Bytes)
    | Comparing(request: Request, original: Option<Bytes>)
    | Staging(request: Request, original: Option<Bytes>, temp: Bytes, gap: bool)

  datatype Files = Files(target: Option<Bytes>, backups: map<string, Bytes>)

  datatype State = State(files: Files, phase: Phase)

  datatype Event = Begin(request: Request) | Advance | Crash | Outside(content: Option<Bytes>)

  function OneMore(temp: Bytes, full: Bytes): Bytes
    requires |temp| < |full|
  {
    temp + [full[|temp|]]
  }

  /** The lock holder's next atomic step. */
  function Step(a: Adapters, c: Codec, s: State): State {
    match s.phase
    case Idle(_) => s
    case Locked(request) =>
      (match PlanOf(a, c, request, s.files.target)
       case Refuse(_) => s.(phase := Idle(Failed))
       case Keep => s.(phase := Idle(Unchanged))
       case Recheck => s.(phase := Comparing(request, s.files.target))
       case Write(_, _, backup) =>
         if backup.Some? && s.files.target.Some? then s.(phase := Keeping(request, s.files.target.value, []))
         else s.(phase := Comparing(request, s.files.target)))
    case Keeping(request, kept, temp) =>
      if |temp| < |kept| then s.(phase := Keeping(request, kept, OneMore(temp, kept)))
      else
        var name := c.digest(kept);
        if name in s.files.backups then s.(phase := ReadingBack(request, kept))
        else State(s.files.(backups := s.files.backups[name := temp]), Comparing(request, Some(kept)))
    case ReadingBack(request, kept) =>
      if c.digest(kept) in s.files.backups && s.files.backups[c.digest(kept)] == kept
      then s.(phase := Comparing(request, Some(kept)))
      else s.(phase := Idle(Failed))
    case Comparing(request, original) =>
      if s.files.target != original then s.(phase := Idle(Failed))
      else (match PlanOf(a, c, request, original)
            case Write(_, _, _) => s.(phase := Staging(request, original, [], false))
            case _ => s.(phase := Idle(Unchanged)))
    case Staging(request, original, temp, gap) =>
      match PlanOf(a, c, request, original)
      case Write(encoded, createOnly, _) =>
        if |temp| < |encoded| then s.(phase := Staging(request, original, OneMore(temp, encoded), gap))
        else if createOnly && s.files.target.Some? then s.(phase := Idle(if request.Prepare? then Failed else Unchanged))
        else State(s.files.(target := Some(temp)), Idle(Published))
      case _ => s.(phase := Idle(Unchanged))
  }

  function Next(a: Adapters, c: Codec, s: State, e: Event): State {
    match e
    case Begin(request) => if s.phase.Idle? then s.(phase := Locked(request)) else s
    case Advance => Step(a, c, s)
    case Crash => s.(phase := Idle(Failed))
    case Outside(content) =>
      State(s.files.(target := content), if s.phase.Staging? then s.phase.(gap := true) else s.phase)
  }

  function Run(a: Adapters, c: Codec, s: State, events: seq<Event>): State
    decreases |events|
  {
    if events == [] then s else Run(a, c, Next(a, c, s, events[0]), events[1..])
  }
}
