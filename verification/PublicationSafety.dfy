/** Safety of the publication protocol in every run: any interleaving of any number of
    operations, crashes and outside edits. */
module PublicationSafety {
  import opened Wrappers
  import opened Json
  import opened SectionRules
  import opened FileFormat
  import opened Publication

  // ----- what every reachable state keeps ------------------------------------------------------------

  function BackupName(plan: Plan): Option<string> {
    match plan case Write(_, _, backup) => backup case _ => None
  }

  /** The backup a plan names holds the bytes the plan was computed from. */
  predicate BackupHeld(files: Files, plan: Plan, original: Option<Bytes>) {
    BackupName(plan).Some? ==>
      original.Some? && BackupName(plan).value in files.backups && files.backups[BackupName(plan).value] == original.value
  }

  predicate Prefix(temp: Bytes, full: Bytes) {
    |temp| <= |full| && temp == full[..|temp|]
  }

  lemma FullPrefix(temp: Bytes, full: Bytes)
    requires Prefix(temp, full) && |temp| >= |full|
    ensures temp == full
  {
  }

  /** The phase is consistent with the plan made from the bytes read: no torn temporary, no
      comparison before the backup is in place, and, unless an outsider wrote in the gap after
      the comparison, the file still holds the bytes read. */
  predicate Consistent(a: Adapters, c: Codec, s: State) {
    match s.phase
    case Idle(_) => true
    case Locked(_) => true
    case Keeping(request, kept, temp) =>
      Prefix(temp, kept) && BackupName(PlanOf(a, c, request, Some(kept))) == Some(c.digest(kept))
    case ReadingBack(request, kept) => BackupName(PlanOf(a, c, request, Some(kept))) == Some(c.digest(kept))
    case Comparing(request, original) => BackupHeld(s.files, PlanOf(a, c, request, original), original)
    case Staging(request, original, temp, gap) =>
      && PlanOf(a, c, request, original).Write?
      && Prefix(temp, PlanOf(a, c, request, original).encoded)
      && BackupHeld(s.files, PlanOf(a, c, request, original), original)
      && (!gap ==> s.files.target == original)
  }

  lemma BackupIsDigest(a: Adapters, c: Codec, request: Request, original: Option<Bytes>)
    ensures var name := BackupName(PlanOf(a, c, request, original));
            name.Some? ==> original.Some? && name.value == c.digest(original.value) && request.Prepare?
  {
  }

  lemma NextConsistent(a: Adapters, c: Codec, s: State, e: Event)
    requires Consistent(a, c, s)
    ensures Consistent(a, c, Next(a, c, s, e))
  {
    hide PlanOf;
    if e.Advance? {
      match s.phase
      case Locked(request) => BackupIsDigest(a, c, request, s.files.target);
      case Keeping(request, kept, temp) => BackupIsDigest(a, c, request, Some(kept));
      case ReadingBack(request, kept) => BackupIsDigest(a, c, request, Some(kept));
      case _ =>
    }
  }

  /** Backups are only ever added. */
  lemma NextKeepsBackups(a: Adapters, c: Codec, s: State, e: Event, name: string)
    requires name in s.files.backups
    ensures name in Next(a, c, s, e).files.backups && Next(a, c, s, e).files.backups[name] == s.files.backups[name]
  {
    hide PlanOf;
  }

  lemma {:induction false} RunConsistent(a: Adapters, c: Codec, s: State, events: seq<Event>)
    requires Consistent(a, c, s)
    ensures Consistent(a, c, Run(a, c, s, events))
    decreases |events|
  {
    if events != [] {
      NextConsistent(a, c, s, events[0]);
      RunConsistent(a, c, Next(a, c, s, events[0]), events[1..]);
    }
  }

  /** No run ever removes or overwrites a kept original. */
  lemma {:induction false} BackupsAreForever(a: Adapters, c: Codec, s: State, events: seq<Event>, name: string)
    requires name in s.files.backups
    ensures name in Run(a, c, s, events).files.backups
    ensures Run(a, c, s, events).files.backups[name] == s.files.backups[name]
    decreases |events|
  {
    if events != [] {
      NextKeepsBackups(a, c, s, events[0], name);
      BackupsAreForever(a, c, Next(a, c, s, events[0]), events[1..], name);
    }
  }

  // ----- what a writer's replacement means ------------------------------------------------------------

  /** Only the final rename changes the file. It puts in place the whole planned candidate,
      never a part of one; the original of an upgrade is already kept; and what it replaces is
      exactly what the candidate was computed from, unless an outsider wrote in the gap. */
  lemma OnlyCommitReplaces(a: Adapters, c: Codec, s: State)
    requires Consistent(a, c, s) && Step(a, c, s).files.target != s.files.target
    ensures s.phase.Staging?
    ensures var plan := PlanOf(a, c, s.phase.request, s.phase.original);
            && plan.Write?
            && Step(a, c, s).files.target == Some(plan.encoded)
            && BackupHeld(s.files, plan, s.phase.original)
            && (!s.phase.gap ==> s.files.target == s.phase.original)
            && (plan.createOnly ==> s.files.target.None?)
  {
    hide PlanOf;
    assert s.phase.Staging?;
    FullPrefix(s.phase.temp, PlanOf(a, c, s.phase.request, s.phase.original).encoded);
  }

  predicate Quiet(events: seq<Event>) {
    forall i :: 0 <= i < |events| ==> events[i].Advance? || events[i].Crash?
  }

  /** One operation from the moment it holds the lock: the file holds the bytes it read, or the
      complete candidate with the original of an upgrade kept under the name its receipt gives. */
  ghost predicate Atomic(a: Adapters, c: Codec, request: Request, original: Option<Bytes>, s: State) {
    var plan := PlanOf(a, c, request, original);
    && (match s.phase
        case Idle(_) => true
        case Locked(r) => r == request
        case Keeping(r, kept, _) => r == request && original == Some(kept)
        case ReadingBack(r, kept) => r == request && original == Some(kept)
        case Comparing(r, o) => r == request && o == original
        case Staging(r, o, _, _) => r == request && o == original)
    && (s.files.target == original
        || (s.phase.Idle? && plan.Write? && s.files.target == Some(plan.encoded) && BackupHeld(s.files, plan, original)))
  }

  lemma NextAtomic(a: Adapters, c: Codec, request: Request, original: Option<Bytes>, s: State, e: Event)
    requires Consistent(a, c, s) && Atomic(a, c, request, original, s) && (e.Advance? || e.Crash?)
    ensures Atomic(a, c, request, original, Next(a, c, s, e))
  {
    hide PlanOf;
    if e.Advance? && s.phase.Staging? && |s.phase.temp| >= |PlanOf(a, c, request, original).encoded| {
      FullPrefix(s.phase.temp, PlanOf(a, c, request, original).encoded);
    }
  }

  lemma {:induction false} RunAtomic(a: Adapters, c: Codec, request: Request, original: Option<Bytes>, s: State, events: seq<Event>)
    requires Consistent(a, c, s) && Atomic(a, c, request, original, s) && Quiet(events)
    ensures Atomic(a, c, request, original, Run(a, c, s, events))
    decreases |events|
  {
    if events != [] {
      NextConsistent(a, c, s, events[0]);
      NextAtomic(a, c, request, original, s, events[0]);
      RunAtomic(a, c, request, original, Next(a, c, s, events[0]), events[1..]);
    }
  }

  /** Crash safety of an operation on an undisturbed file: after any number of its steps, and a
      crash after any of them, the file is the one read or the complete candidate. For the
      upgrade of an older file the kept original is then already readable under the digest the
      candidate's receipt records. */
  lemma CrashSafety(a: Adapters, c: Codec, files: Files, last: Outcome, request: Request, events: seq<Event>)
    requires LawfulCodec(c) && Quiet(events)
    ensures var plan := PlanOf(a, c, request, files.target);
            var after := Run(a, c, State(files, Idle(last)), [Begin(request)] + events).files;
            && (after.target == files.target
                || (plan.Write? && after.target == Some(plan.encoded) && BackupHeld(after, plan, files.target)))
            && (plan.Write? && plan.backup.Some? ==>
                  Decode(c, plan.encoded).Ok? && Decode(c, plan.encoded).value.envelope == Envelope(FILE_FORMAT_VERSION, plan.backup))
  {
    var s := State(files, Idle(last));
    var begun := Next(a, c, s, Begin(request));
    assert ([Begin(request)] + events)[1..] == events;
    RunAtomic(a, c, request, files.target, begun, events);
    if PlanOf(a, c, request, files.target).Write? {
      PlannedReceipt(a, c, request, files.target);
    }
  }

  lemma PlannedReceipt(a: Adapters, c: Codec, request: Request, original: Option<Bytes>)
    requires LawfulCodec(c) && PlanOf(a, c, request, original).Write?
    ensures var plan := PlanOf(a, c, request, original);
            && Decode(c, plan.encoded).Ok?
            && Decode(c, plan.encoded).value.envelope ==
               Envelope(FILE_FORMAT_VERSION,
                        if plan.backup.Some? then plan.backup
                        else if original.Some? then Decode(c, original.value).value.envelope.receipt else None)
            && (original.Some? ==> Decode(c, original.value).Ok?)
  {
    hide PrepareDocument, UnpreparedPendingCreation, AmbiguousPolicy, Encode, Decode, Admitted;
    EncodedReceipt(c);
  }

  lemma EncodedReceipt(c: Codec)
    requires LawfulCodec(c)
    ensures forall d: Fields, r: Option<string> :: (r.Some? ==> HexDigest(r.value)) ==>
              Decode(c, Encode(c, d, r)).Ok? && Decode(c, Encode(c, d, r)).value.envelope == Envelope(FILE_FORMAT_VERSION, r)
    ensures forall raw :: Decode(c, raw).Ok? && Decode(c, raw).value.envelope.receipt.Some? ==>
              HexDigest(Decode(c, raw).value.envelope.receipt.value)
    ensures forall raw :: HexDigest(c.digest(raw))
  {
    forall d: Fields, r: Option<string> | r.Some? ==> HexDigest(r.value)
      ensures Decode(c, Encode(c, d, r)).Ok? && Decode(c, Encode(c, d, r)).value.envelope == Envelope(FILE_FORMAT_VERSION, r)
    {
      DecodeEncode(c, d, r);
    }
  }

  /** The bytes an operation that has not yet compared was computed from. */
  function ReadBytes(phase: Phase): Option<Option<Bytes>> {
    match phase
    case Keeping(_, kept, _) => Some(Some(kept))
    case ReadingBack(_, kept) => Some(Some(kept))
    case Comparing(_, original) => Some(original)
    case _ => None
  }

  /** An outside edit made before the comparison survives the whole operation, which never gets
      as far as a candidate and, once it is over, has failed: even a preparation that had nothing
      to write does not report the moved file as unchanged. */
  lemma {:induction false} OutsideEditSurvives(a: Adapters, c: Codec, s: State, events: seq<Event>)
    requires s.phase.Idle? || (ReadBytes(s.phase).Some? && ReadBytes(s.phase).value != s.files.target)
    requires Quiet(events)
    ensures var t := Run(a, c, s, events);
            && t.files.target == s.files.target
            && !t.phase.Locked? && !t.phase.Staging?
            && (t.phase.Idle? && (s.phase.Idle? ==> s.phase.last == Failed) ==> t.phase.last == Failed)
    decreases |events|
  {
    hide PlanOf;
    if events != [] {
      OutsideEditSurvives(a, c, Next(a, c, s, events[0]), events[1..]);
    }
  }

  // ----- provenance ---------------------------------------------------------------------------------------

  function Receipt(c: Codec, raw: Bytes): Option<string> {
    match Decode(c, raw) case Ok(x) => x.envelope.receipt case Refused(_) => None
  }

  function Generation(c: Codec, raw: Bytes): nat {
    match Decode(c, raw) case Ok(x) => x.envelope.version case Refused(_) => 0
  }

  /** A recorded receipt names a kept original of an older generation. */
  predicate Traceable(c: Codec, backups: map<string, Bytes>, raw: Bytes) {
    Receipt(c, raw).Some? ==>
      && Receipt(c, raw).value in backups
      && Generation(c, backups[Receipt(c, raw).value]) < Generation(c, raw)
  }

  ghost predicate Sound(c: Codec, files: Files) {
    && (forall name :: name in files.backups ==>
          c.digest(files.backups[name]) == name && Traceable(c, files.backups, files.backups[name]))
    && (files.target.Some? ==> Traceable(c, files.backups, files.target.value))
  }

  /** Whatever a writer holds in hand is traceable too. */
  ghost predicate SoundState(c: Codec, s: State) {
    && Sound(c, s.files)
    && (match s.phase
        case Keeping(_, kept, _) => Traceable(c, s.files.backups, kept)
        case ReadingBack(_, kept) => Traceable(c, s.files.backups, kept)
        case Comparing(_, Some(raw)) => Traceable(c, s.files.backups, raw)
        case Staging(_, Some(raw), _, _) => Traceable(c, s.files.backups, raw)
        case _ => true)
  }

  /** An outsider may write anything that does not claim a receipt nobody kept. */
  predicate Honest(c: Codec, s: State, e: Event) {
    e.Outside? && e.content.Some? ==> Traceable(c, s.files.backups, e.content.value)
  }

  ghost predicate HonestRun(a: Adapters, c: Codec, s: State, events: seq<Event>)
    decreases |events|
  {
    events != [] ==> Honest(c, s, events[0]) && HonestRun(a, c, Next(a, c, s, events[0]), events[1..])
  }

  /** A planned candidate is traceable once its backup, if any, is kept. */
  lemma CandidateTraceable(a: Adapters, c: Codec, files: Files, request: Request, original: Option<Bytes>)
    requires LawfulCodec(c) && PlanOf(a, c, request, original).Write?
    requires original.Some? ==> Traceable(c, files.backups, original.value)
    requires BackupHeld(files, PlanOf(a, c, request, original), original)
    ensures Traceable(c, files.backups, PlanOf(a, c, request, original).encoded)
    ensures Generation(c, PlanOf(a, c, request, original).encoded) == FILE_FORMAT_VERSION
  {
    hide PlanOf, Decode;
    PlannedReceipt(a, c, request, original);
    if BackupName(PlanOf(a, c, request, original)).Some? {
      UpgradedIsOlder(a, c, request, original);
    } else if original.Some? {
      GenerationBound(c, original.value);
    }
  }

  lemma GenerationBound(c: Codec, raw: Bytes)
    ensures Generation(c, raw) <= FILE_FORMAT_VERSION
  {
  }

  /** Only an older file is upgraded with a backup. */
  lemma UpgradedIsOlder(a: Adapters, c: Codec, request: Request, original: Option<Bytes>)
    requires BackupName(PlanOf(a, c, request, original)).Some?
    ensures original.Some? && Generation(c, original.value) < FILE_FORMAT_VERSION
  {
    hide Encode, PrepareDocument, Admitted;
    assert request.Prepare?;
    if original.Some? {
      GenerationBound(c, original.value);
    }
  }

  lemma MoreBackups(c: Codec, backups: map<string, Bytes>, name: string, raw: Bytes)
    requires name !in backups
    requires forall x :: x in backups ==> Traceable(c, backups, backups[x])
    ensures forall b :: Traceable(c, backups, b) ==> Traceable(c, backups[name := raw], b)
  {
    hide Decode;
  }

  lemma NextSound(a: Adapters, c: Codec, s: State, e: Event)
    requires LawfulCodec(c) && Consistent(a, c, s) && SoundState(c, s) && Honest(c, s, e)
    ensures SoundState(c, Next(a, c, s, e))
  {
    hide PlanOf, Traceable, Decode, BackupHeld;
    if e.Advance? {
      match s.phase
      case Keeping(request, kept, temp) =>
        if |temp| >= |kept| && c.digest(kept) !in s.files.backups {
          FullPrefix(temp, kept);
          MoreBackups(c, s.files.backups, c.digest(kept), kept);
          var more := s.files.backups[c.digest(kept) := kept];
          forall name | name in more
            ensures c.digest(more[name]) == name && Traceable(c, more, more[name])
          {
            if name != c.digest(kept) {
              assert Traceable(c, s.files.backups, s.files.backups[name]);
            }
          }
        }
      case Staging(request, original, temp, gap) =>
        if |temp| >= |PlanOf(a, c, request, original).encoded| {
          FullPrefix(temp, PlanOf(a, c, request, original).encoded);
          CandidateTraceable(a, c, s.files, request, original);
        }
      case _ =>
    }
  }

  /** In every run of cooperating writers, whatever crashes and whatever honest outsiders do: a
      recorded receipt always names a kept original with that digest, of an older generation. */
  lemma {:induction false} RunSound(a: Adapters, c: Codec, s: State, events: seq<Event>)
    requires LawfulCodec(c) && Consistent(a, c, s) && SoundState(c, s) && HonestRun(a, c, s, events)
    ensures SoundState(c, Run(a, c, s, events))
    decreases |events|
  {
    if events != [] {
      NextSound(a, c, s, events[0]);
      NextConsistent(a, c, s, events[0]);
      RunSound(a, c, Next(a, c, s, events[0]), events[1..]);
    }
  }

  predicate NoOutsider(events: seq<Event>) {
    forall i :: 0 <= i < |events| ==> !events[i].Outside?
  }

  /** No step of a writer lowers the stored generation or removes the file, whatever outsiders,
      crashes and other operations came before it. */
  lemma NoStepLowersGeneration(a: Adapters, c: Codec, s: State, events: seq<Event>, e: Event)
    requires LawfulCodec(c) && Consistent(a, c, s) && !e.Outside?
    ensures var before, after := Run(a, c, s, events).files.target, Next(a, c, Run(a, c, s, events), e).files.target;
            before.Some? ==> after.Some? && Generation(c, before.value) <= Generation(c, after.value)
  {
    hide PlanOf, Decode, BackupHeld;
    RunConsistent(a, c, s, events);
    var t := Run(a, c, s, events);
    if t.files.target.Some? && Next(a, c, t, e).files.target != t.files.target {
      OnlyCommitReplaces(a, c, t);
      PlannedReceipt(a, c, t.phase.request, t.phase.original);
      GenerationBound(c, t.files.target.value);
    }
  }

  /** So writers alone never lower it over a whole run. */
  lemma {:induction false} GenerationNeverDecreases(a: Adapters, c: Codec, s: State, events: seq<Event>)
    requires LawfulCodec(c) && Consistent(a, c, s) && NoOutsider(events) && s.files.target.Some?
    ensures Run(a, c, s, events).files.target.Some?
    ensures Generation(c, s.files.target.value) <= Generation(c, Run(a, c, s, events).files.target.value)
    decreases |events|
  {
    hide Decode, Next, Consistent;
    if events != [] {
      assert Run(a, c, s, []) == s;
      NoStepLowersGeneration(a, c, s, [], events[0]);
      NextConsistent(a, c, s, events[0]);
      GenerationNeverDecreases(a, c, Next(a, c, s, events[0]), events[1..]);
    }
  }

  /** The receipt a replacement records is the one the replaced file carried: whatever envelope
      the caller's document came in, it cannot plant one, change one or lose one. */
  lemma CallerCannotPlantReceipt(a: Adapters, c: Codec, document: Bytes, createOnly: bool, admit: Option<Admission>, original: Option<Bytes>)
    requires LawfulCodec(c) && PlanOf(a, c, Publish(document, createOnly, admit), original).Write?
    ensures Receipt(c, PlanOf(a, c, Publish(document, createOnly, admit), original).encoded)
         == if original.Some? then Receipt(c, original.value) else None
  {
    hide PlanOf, Decode;
    BackupIsDigest(a, c, Publish(document, createOnly, admit), original);
    PlannedReceipt(a, c, Publish(document, createOnly, admit), original);
  }

  // ----- recovery -----------------------------------------------------------------------------------------

  /** Following receipts from a file back through the kept originals. */
  function History(c: Codec, backups: map<string, Bytes>, raw: Bytes): seq<Bytes>
    requires forall name :: name in backups ==> Traceable(c, backups, backups[name])
    requires Traceable(c, backups, raw)
    decreases Generation(c, raw)
  {
    match Receipt(c, raw)
    case None => [raw]
    case Some(name) => [raw] + History(c, backups, backups[name])
  }

  /** From a sound file the trail of receipts ends, within one step per generation, at an
      original no upgrade produced, and every step of it is kept byte for byte under its digest. */
  lemma {:induction false} OriginalRecoverable(c: Codec, files: Files, raw: Bytes)
    requires Sound(c, files) && Traceable(c, files.backups, raw)
    ensures var trail := History(c, files.backups, raw);
            && 1 <= |trail| <= Generation(c, raw) + 1
            && trail[0] == raw
            && Receipt(c, trail[|trail| - 1]).None?
            && forall i :: 1 <= i < |trail| ==>
                 && c.digest(trail[i]) in files.backups && files.backups[c.digest(trail[i])] == trail[i]
                 && Receipt(c, trail[i - 1]) == Some(c.digest(trail[i]))
                 && Generation(c, trail[i]) < Generation(c, trail[i - 1])
    decreases Generation(c, raw)
  {
    hide Decode;
    if Receipt(c, raw).Some? {
      var name := Receipt(c, raw).value;
      OriginalRecoverable(c, files, files.backups[name]);
      var rest := History(c, files.backups, files.backups[name]);
      var trail := History(c, files.backups, raw);
      assert trail == [raw] + rest;
      forall i | 1 <= i < |trail|
        ensures c.digest(trail[i]) in files.backups && files.backups[c.digest(trail[i])] == trail[i]
        ensures Receipt(c, trail[i - 1]) == Some(c.digest(trail[i]))
        ensures Generation(c, trail[i]) < Generation(c, trail[i - 1])
      {
        if i > 1 { assert trail[i] == rest[i - 1] && trail[i - 1] == rest[i - 2]; }
      }
    }
  }
}
