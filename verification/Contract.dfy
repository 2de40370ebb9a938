/// What the library and Jobs say to each other: Passports, initiators and the
/// commands staged through the outbox.
module Contract {
  import opened Common
  import opened Text

  const MAX_DISPLAY_NAME_CHARS: nat := 512
  const PASSPORT_MISSING := "passport_missing"
  const PASSPORT_UNREADABLE := "passport_unreadable"

  datatype Passport =
    | Human(user: Uuid, impersonator: Option<Uuid>)
    | Service(account: Uuid)
  {
    function UserId(): Option<Uuid> {
      if Human? then Some(user) else None
    }
  }

  /// A stored JSON document: it reads as a Passport, or it does not.
  datatype Document = Encoded(passport: Passport) | Garbled(raw: nat)

  function Decode(document: Document): Option<Passport> {
    match document
    case Encoded(passport) => Some(passport)
    case Garbled(_) => None
  }

  datatype Initiator = Initiator(id: Uuid, displayName: Option<string>)

  datatype TriggeredBy = Identified(id: Uuid, displayName: string) | Anonymous(id: Uuid)

  /// One step of a rule: the runner it asks for and its options.
  datatype Step = Step(runnerType: string, options: nat)

  datatype CreateJob = CreateJob(
    jobId: Uuid, runnerType: string, producer: string, step: nat, options: nat,
    passport: Option<Document>, triggeredBy: Option<TriggeredBy>, parentJobId: Option<Uuid>,
    sourceBc: Option<string>, sourceEntityId: Option<Uuid>, priority: Option<int>)

  /// What a rejection blames in the declaration, if anything.
  datatype Blame = Nothing | Field(name: string) | RunnerType(name: string) | Parent(jobId: Uuid)

  /// What a rejection says: the job refused, what is to blame, the live job holding
  /// the source, and the source's name.
  datatype Params = Params(jobId: Option<Uuid>, blame: Blame, activeJobId: Option<Uuid>,
                           sourceEntityId: Option<Uuid>, sourceBc: Option<string>)

  /// A command staged for Jobs.
  datatype Command =
    | JobCreate(create: CreateJob)
    | JobFinish(jobId: Uuid)
    | JobFail(jobId: Uuid, note: string)
    | JobCancel(jobId: Uuid)

  /// The Passport a chain acts under, read back for its next step.
  function ChainPassport(stored: Option<Document>): Result<Passport, string> {
    match stored
    case None => Err(PASSPORT_MISSING)
    case Some(document) =>
      match Decode(document)
      case None => Err(PASSPORT_UNREADABLE)
      case Some(passport) => Ok(passport)
  }

  /// What `job.create` says of an initiator, in the shape Jobs accepts.
  function NamedToJobs(initiator: Initiator): Option<TriggeredBy> {
    if !initiator.id.V7? then None
    else
      match initiator.displayName
      case None => Some(Anonymous(initiator.id))
      case Some(name) =>
        var trimmed := Trim(name);
        if trimmed == [] then Some(Anonymous(initiator.id))
        else
          var kept := if |trimmed| <= MAX_DISPLAY_NAME_CHARS then trimmed else trimmed[..MAX_DISPLAY_NAME_CHARS];
          Some(Identified(initiator.id, kept))
  }

  /// Who Jobs is told started the job: the Passport's own user, under the
  /// initiator's display name only when the initiator is that user.
  function TriggeredByOf(passport: Passport, initiator: Option<Initiator>): Option<TriggeredBy> {
    match passport.UserId()
    case None => None
    case Some(user) =>
      var name := if initiator.Some? && initiator.value.id == user then initiator.value.displayName else None;
      NamedToJobs(Initiator(user, name))
  }

  /// The Passport stored is read back, or why it is not.
  lemma PassportSays(stored: Option<Document>)
    ensures stored.None? ==> ChainPassport(stored) == Err("passport_missing")
    ensures forall raw :: stored == Some(Garbled(raw)) ==> ChainPassport(stored) == Err("passport_unreadable")
    ensures forall passport :: stored == Some(Encoded(passport)) ==> ChainPassport(stored) == Ok(passport)
  {
  }

  /// Jobs is told of a human under a version 7 id only: by name when the initiator is
  /// that very user and has a name, 512 characters of it at most; a service is nobody.
  lemma TriggeredBySays(passport: Passport, initiator: Option<Initiator>)
    ensures TriggeredByOf(passport, initiator) ==
              if passport.Service? || !passport.user.V7? then None
              else if initiator.Some? && initiator.value.id == passport.user && initiator.value.displayName.Some?
                      && Trim(initiator.value.displayName.value) != ""
              then
                var name := Trim(initiator.value.displayName.value);
                Some(Identified(passport.user, if |name| > 512 then name[..512] else name))
              else Some(Anonymous(passport.user))
  {
  }
}
