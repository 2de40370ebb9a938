/// What each gesture and reaction makes of one file's processing: the events it
/// pushes and the commands it stages for Jobs.
module Chain {
  import opened Common
  import opened Contract
  import S = ProcessingState
  import J = JobsLedger

  /// The file a chain runs on: the host's service, the file, its steps snapshot.
  datatype File = File(service: string, id: Uuid, steps: seq<Step>)

  /// The processing after a gesture, its events pending, and the commands staged.
  datatype Move = Move(processing: S.Aggregate, commands: seq<Command>)

  /// The runner type of a step of the snapshot; blank past its end.
  function RunnerTypeOf(file: File, index: nat): string {
    if index < |file.steps| then file.steps[index].runnerType else ""
  }

  function CreateOf(file: File, index: nat, jobId: Uuid, initiator: Option<Initiator>, passport: Passport,
                    priority: Option<int>): CreateJob
    requires index < |file.steps|
  {
    var step := file.steps[index];
    CreateJob(jobId, step.runnerType, file.service, index, step.options, Some(Encoded(passport)),
              TriggeredByOf(passport, initiator), None, Some(file.service), Some(file.id), priority)
  }

  /// Starts step `index` as job `jobId`; `None` past the last step.
  function LaunchStep(file: File, p: S.Aggregate, index: nat, jobId: Uuid, trigger: Option<S.Trigger>,
                      initiator: Option<Initiator>, passport: Passport, at: Instant): Option<Move>
  {
    if index >= |file.steps| then None
    else
      Some(Move(S.CreateJob(p, jobId, index, file.steps[index].runnerType, trigger, initiator, Encoded(passport), at),
                [JobCreate(CreateOf(file, index, jobId, initiator, passport, p.row.priority))]))
  }

  /// Starts a chain on a settled file; `None` when the plan holds no step.
  function StartChain(file: File, p: S.Aggregate, rulesetId: Option<Uuid>, trigger: S.Trigger, initiator: Initiator,
                      passport: Passport, priority: Option<int>, sourcePending: bool, minted: Uuid, at: Instant): Option<Move>
  {
    var started := S.StartChain(p, trigger, rulesetId, file.steps, Encoded(passport), priority, at);
    if file.steps == [] then None else FirstStep(file, started, trigger, initiator, passport, sourcePending, minted, at)
  }

  /// The first step of a chain just started: awaiting the source, or launched.
  function FirstStep(file: File, p: S.Aggregate, trigger: S.Trigger, initiator: Initiator, passport: Passport,
                     sourcePending: bool, minted: Uuid, at: Instant): Option<Move>
  {
    if sourcePending then Some(Move(S.AwaitSource(p, minted, 0, RunnerTypeOf(file, 0), Some(trigger), Some(initiator), at), []))
    else LaunchStep(file, p, 0, minted, Some(trigger), Some(initiator), passport, at)
  }

  function SkipNextStep(file: File, p: S.Aggregate, next: nat, at: Instant): S.Aggregate {
    S.SkipStep(p, next, RunnerTypeOf(file, next), at)
  }

  function AbandonNextStep(file: File, p: S.Aggregate, next: nat, reason: string, at: Instant): S.Aggregate {
    S.AbandonStep(p, next, RunnerTypeOf(file, next), reason, at)
  }

  function DropAwaitedStep(file: File, p: S.Aggregate, reason: string, at: Instant): S.Aggregate {
    S.DropAwaitedStep(p, RunnerTypeOf(file, p.row.stepIndex), reason, at)
  }

  predicate HasNext(file: File, row: S.Row) {
    row.stepIndex + 1 < |file.steps|
  }

  /// The runner's final report: the chain ends, stops, or holds its next step.
  function ReportDone(file: File, p: S.Aggregate, minted: Uuid, at: Instant): Move {
    var next := p.row.stepIndex + 1;
    var reported :=
      if !HasNext(file, p.row) then S.ReportDone(p, at)
      else if p.row.cancelRequestedAt.Some? then SkipNextStep(file, S.ReportDone(p, at), next, at)
      else
        match ChainPassport(p.row.passport)
        case Err(reason) => AbandonNextStep(file, S.ReportDone(p, at), next, reason, at)
        case Ok(_) => S.ReportDoneHolding(p, next, RunnerTypeOf(file, next), minted, at);
    Move(reported, [JobFinish(p.row.jobId)])
  }

  /// Jobs ended the reported job: its held step starts, or the chain stops.
  /// `None`: no step was held, or it is past the snapshot's end.
  function ReleaseNextStep(file: File, p: S.Aggregate, at: Instant): Option<Move> {
    var next := p.row.stepIndex + 1;
    if p.row.nextJobId.None? then None
    else if p.row.cancelRequestedAt.Some? then Some(Move(SkipNextStep(file, p, next, at), []))
    else HeldStep(file, p.With(p.row.(passport := None)), p.row.passport, p.row.nextJobId.value, at)
  }

  /// The held step launched as `jobId`, under the Passport taken, or abandoned for want of one.
  function HeldStep(file: File, p: S.Aggregate, taken: Option<Document>, jobId: Uuid, at: Instant): Option<Move> {
    var next := p.row.stepIndex + 1;
    match ChainPassport(taken)
    case Err(reason) => Some(Move(AbandonNextStep(file, p, next, reason, at), []))
    case Ok(passport) => LaunchStep(file, p, next, jobId, p.row.trigger, p.row.triggeredBy, passport, at)
  }

  /// The source was promoted and the first step awaits it.
  function ReleaseAwaitedStep(file: File, p: S.Aggregate, at: Instant): Option<Move> {
    var taken := p.With(p.row.(passport := None));
    match ChainPassport(p.row.passport)
    case Err(reason) => Some(Move(DropAwaitedStep(file, taken, reason, at), []))
    case Ok(passport) =>
      LaunchStep(file, taken, p.row.stepIndex, p.row.jobId, p.row.trigger, p.row.triggeredBy, passport, at)
  }

  function SourcePromoted(file: File, p: S.Aggregate, at: Instant): Option<Move> {
    if p.row.awaitingSource then ReleaseAwaitedStep(file, p, at) else Some(Move(p, []))
  }

  function ReportFailed(p: S.Aggregate, reason: string, message: Option<string>, at: Instant): Move {
    var note := match message case Some(text) => reason + ": " + text case None => reason;
    Move(S.ReportFailed(p, reason, message, at), [JobFail(p.row.jobId, note)])
  }

  /// A user's cancel; `None` on a file that does not process.
  function CancelProcessing(file: File, p: S.Aggregate, at: Instant): Option<Move> {
    if p.row.state != S.Processing then None
    else if p.row.awaitingSource then Some(Move(DropAwaitedStep(file, p, S.CANCELLED, at), []))
    else
      var cancel := [JobCancel(p.row.jobId)];
      var requested := S.RequestCancel(p, at);
      if p.row.nextJobId.Some? then Some(Move(SkipNextStep(file, requested, p.row.stepIndex + 1, at), cancel))
      else Some(Move(requested, cancel))
  }

  /// A freeze of the file's drive, on a file that processes.
  function Freeze(file: File, p: S.Aggregate, at: Instant): Move {
    if p.row.awaitingSource then Move(DropAwaitedStep(file, p, S.CANCELLED, at), [])
    else if p.row.nextJobId.Some? then Move(SkipNextStep(file, p, p.row.stepIndex + 1, at), [])
    else Move(S.CancelOnFreeze(p, at), [JobCancel(p.row.jobId)])
  }

  /// The live job a rejection names, only about this very file of this host.
  function ActiveJobOf(params: Params, file: File): Option<Uuid> {
    if (params.sourceEntityId.Some? && params.sourceEntityId.value != file.id)
       || (params.sourceBc.Some? && params.sourceBc.value != file.service)
    then None
    else params.activeJobId
  }

  /// The commands a reaction stages once the fact is recorded.
  function AfterFact(file: File, sent: S.Received, applied: S.Applied): seq<Command> {
    if applied == S.Applied.Ended && sent.CreationRejected? && sent.reasonCode == J.DUPLICATE_ACTIVE_ENTITY
       && ActiveJobOf(sent.params, file).Some?
    then [JobCancel(ActiveJobOf(sent.params, file).value)]
    else []
  }

  /// The reaction to a Jobs fact about a job the file knows.
  function React(file: File, p: S.Aggregate, jobId: Uuid, sent: S.Received, at: Instant): Option<Move> {
    var (received, applied) := S.Receive(p, jobId, sent, at);
    OnceReceived(file, received, sent, applied, at)
  }

  function OnceReceived(file: File, p: S.Aggregate, sent: S.Received, applied: S.Applied, at: Instant): Option<Move> {
    if applied == S.Released then ReleaseNextStep(file, p, at) else Some(Move(p, AfterFact(file, sent, applied)))
  }

  // ---- the five turns a chain takes ----

  predicate StagesNothing(m: Move) {
    forall command :: command in m.commands ==> !command.JobCreate?
  }

  /// The chain stands where it stood; at most the running job's cancel is asked.
  predicate Stays(r: S.Row, m: Move) {
    var t := m.processing.row;
    && StagesNothing(m)
    && t.state == r.state && t.jobId == r.jobId && t.stepIndex == r.stepIndex && t.nextJobId == r.nextJobId
    && t.awaitingSource == r.awaitingSource && t.pastJobIds == r.pastJobIds && t.passport == r.passport
    && (t.cancelRequestedAt == r.cancelRequestedAt || (r.IsRunning() && t.cancelRequestedAt.Some?))
  }

  /// The chain ends on the row's last job.
  predicate Settles(r: S.Row, m: Move) {
    var t := m.processing.row;
    && StagesNothing(m)
    && r.state == S.Processing && t.state != S.Processing && t.jobId == r.jobId && t.pastJobIds == r.pastJobIds
  }

  /// The running job is reported; the next one is minted and held.
  predicate Holds(file: File, r: S.Row, m: Move, minted: Uuid) {
    var t := m.processing.row;
    && StagesNothing(m)
    && r.IsRunning() && HasNext(file, r) && r.cancelRequestedAt.None? && ChainPassport(r.passport).Ok?
    && t.state == S.Processing && t.nextJobId == Some(minted) && !t.awaitingSource
    && t.jobId == r.jobId && t.stepIndex == r.stepIndex && t.pastJobIds == r.pastJobIds
    && t.cancelRequestedAt.None? && t.passport == r.passport
  }

  /// A chain starts, its first step awaiting the source.
  predicate Awaits(file: File, m: Move, minted: Uuid) {
    var t := m.processing.row;
    && StagesNothing(m)
    && file.steps != []
    && t.awaitingSource && t.state == S.Processing && t.jobId == minted && t.stepIndex == 0 && t.cancelRequestedAt.None?
  }

  /// A step is asked of Jobs, and becomes the running job: `create` is the one
  /// command staged, made as Jobs wants it.
  ghost predicate Launches(file: File, m: Move, index: nat, jobId: Uuid) {
    var t := m.processing.row;
    && t.IsRunning() && t.jobId == jobId && t.stepIndex == index && index < |file.steps|
    && |m.commands| == 1 && m.commands[0].JobCreate?
    && m.commands[0].create.jobId == jobId && m.commands[0].create.step == index
    && MadeFor(file, m.commands[0].create)
  }

  ghost predicate MadeFor(file: File, create: CreateJob) {
    && create.parentJobId.None? && create.producer == file.service && create.sourceBc == Some(file.service)
    && create.sourceEntityId == Some(file.id)
    && create.step < |file.steps| && create.runnerType == file.steps[create.step].runnerType
    && create.options == file.steps[create.step].options
    && create.passport.Some? && Decode(create.passport.value).Some?
    && exists initiator: Option<Initiator> {:trigger TriggeredByOf(Decode(create.passport.value).value, initiator)} ::
         create.triggeredBy == TriggeredByOf(Decode(create.passport.value).value, initiator)
  }

  lemma CreateIsMadeFor(file: File, index: nat, jobId: Uuid, initiator: Option<Initiator>, passport: Passport,
                        priority: Option<int>)
    requires index < |file.steps|
    ensures MadeFor(file, CreateOf(file, index, jobId, initiator, passport, priority))
  {
    assert CreateOf(file, index, jobId, initiator, passport, priority).triggeredBy == TriggeredByOf(passport, initiator);
  }

  /// On a settled file a chain starts with its step 0: awaiting the source when
  /// it is pending, asked of Jobs otherwise.
  lemma StartTurns(file: File, p: S.Aggregate, rulesetId: Option<Uuid>, trigger: S.Trigger, initiator: Initiator,
                   passport: Passport, priority: Option<int>, sourcePending: bool, minted: Uuid, at: Instant)
    requires S.Sound(p.row) && p.row.state != S.Processing && S.Fresh(p.row, minted) && file.steps != []
    ensures var moved := StartChain(file, p, rulesetId, trigger, initiator, passport, priority, sourcePending, minted, at);
            && moved.Some?
            && S.Sound(moved.value.processing.row)
            && (if sourcePending then Awaits(file, moved.value, minted) else Launches(file, moved.value, 0, minted))
  {
    if sourcePending {
      StartAwaits(file, p, rulesetId, trigger, initiator, passport, priority, minted, at);
    } else {
      StartLaunches(file, p, rulesetId, trigger, initiator, passport, priority, minted, at);
    }
  }

  lemma StartAwaits(file: File, p: S.Aggregate, rulesetId: Option<Uuid>, trigger: S.Trigger, initiator: Initiator,
                    passport: Passport, priority: Option<int>, minted: Uuid, at: Instant)
    requires S.Sound(p.row) && p.row.state != S.Processing && S.Fresh(p.row, minted) && file.steps != []
    ensures var moved := StartChain(file, p, rulesetId, trigger, initiator, passport, priority, true, minted, at);
            moved.Some? && S.Sound(moved.value.processing.row) && Awaits(file, moved.value, minted)
  {
  }

  lemma StartLaunches(file: File, p: S.Aggregate, rulesetId: Option<Uuid>, trigger: S.Trigger, initiator: Initiator,
                      passport: Passport, priority: Option<int>, minted: Uuid, at: Instant)
    requires S.Sound(p.row) && p.row.state != S.Processing && S.Fresh(p.row, minted) && file.steps != []
    ensures var moved := StartChain(file, p, rulesetId, trigger, initiator, passport, priority, false, minted, at);
            moved.Some? && S.Sound(moved.value.processing.row) && Launches(file, moved.value, 0, minted)
  {
    CreateIsMadeFor(file, 0, minted, Some(initiator), passport, priority);
  }

  /// A chain's start forgets no job of the file.
  lemma StartRemembers(file: File, p: S.Aggregate, rulesetId: Option<Uuid>, trigger: S.Trigger, initiator: Initiator,
                       passport: Passport, priority: Option<int>, sourcePending: bool, minted: Uuid, at: Instant)
    requires file.steps != [] && p.row.jobId != minted
    ensures var moved := StartChain(file, p, rulesetId, trigger, initiator, passport, priority, sourcePending, minted, at);
            && moved.Some?
            && (forall job :: p.row.Knows(job) && job != Nil ==> moved.value.processing.row.Knows(job))
            && (forall job :: moved.value.processing.row.Knows(job) ==> job == minted || p.row.Knows(job))
  {
  }

  lemma ReportDoneTurns(file: File, p: S.Aggregate, minted: Uuid, at: Instant)
    requires S.Sound(p.row) && p.row.IsRunning() && S.Fresh(p.row, minted)
    ensures var m := ReportDone(file, p, minted, at);
            && S.Sound(m.processing.row)
            && (Settles(p.row, m) || Holds(file, p.row, m, minted))
  {
  }

  lemma StopTurns(file: File, p: S.Aggregate, reason: string, message: Option<string>, at: Instant)
    requires S.Sound(p.row) && p.row.state == S.Processing
    ensures var m := CancelProcessing(file, p, at);
            && m.Some? && S.Sound(m.value.processing.row)
            && if p.row.IsRunning() then Stays(p.row, m.value) && m.value.processing.row.cancelRequestedAt.Some?
               else Settles(p.row, m.value)
    ensures var m := Freeze(file, p, at); S.Sound(m.processing.row) && Settles(p.row, m)
    ensures var m := ReportFailed(p, reason, message, at); S.Sound(m.processing.row) && Settles(p.row, m)
  {
  }

  lemma ReleaseTurns(file: File, p: S.Aggregate, at: Instant)
    requires S.Sound(p.row) && p.row.nextJobId.Some? && HasNext(file, p.row) && p.row.cancelRequestedAt.None?
    ensures var m := ReleaseNextStep(file, p, at);
            && m.Some? && S.Sound(m.value.processing.row)
            && if ChainPassport(p.row.passport).Ok?
               then Launches(file, m.value, p.row.stepIndex + 1, p.row.nextJobId.value)
                    && m.value.processing.row.pastJobIds == p.row.pastJobIds + [p.row.jobId]
               else Settles(p.row, m.value)
  {
    if ChainPassport(p.row.passport).Ok? {
      CreateIsMadeFor(file, p.row.stepIndex + 1, p.row.nextJobId.value, p.row.triggeredBy,
                      ChainPassport(p.row.passport).value, p.row.priority);
    }
  }

  lemma PromotedTurns(file: File, p: S.Aggregate, at: Instant)
    requires S.Sound(p.row)
    requires p.row.awaitingSource ==> p.row.stepIndex < |file.steps|
    ensures var m := SourcePromoted(file, p, at);
            && m.Some? && S.Sound(m.value.processing.row)
            && if !p.row.awaitingSource then m.value == Move(p, [])
               else if ChainPassport(p.row.passport).Ok?
               then Launches(file, m.value, p.row.stepIndex, p.row.jobId)
                    && m.value.processing.row.pastJobIds == p.row.pastJobIds
               else Settles(p.row, m.value)
  {
    if p.row.awaitingSource && ChainPassport(p.row.passport).Ok? {
      CreateIsMadeFor(file, p.row.stepIndex, p.row.jobId, p.row.triggeredBy,
                      ChainPassport(p.row.passport).value, p.row.priority);
    }
  }

  /// A fact releases a held step exactly when it ends the job the step waits for.
  predicate Releases(row: S.Row, jobId: Uuid, sent: S.Received) {
    jobId == row.jobId && row.nextJobId.Some? && sent.End()
  }

  lemma ReactTurns(file: File, p: S.Aggregate, jobId: Uuid, sent: S.Received, at: Instant)
    requires S.Sound(p.row)
    requires p.row.nextJobId.Some? ==> HasNext(file, p.row) && p.row.cancelRequestedAt.None?
    ensures var m := React(file, p, jobId, sent, at);
            && m.Some? && S.Sound(m.value.processing.row)
            && if !Releases(p.row, jobId, sent)
               then Stays(p.row, m.value) || (Settles(p.row, m.value) && p.row.IsRunning() && jobId == p.row.jobId)
               else if ChainPassport(p.row.passport).Ok?
               then Launches(file, m.value, p.row.stepIndex + 1, p.row.nextJobId.value)
                    && m.value.processing.row.pastJobIds == p.row.pastJobIds + [p.row.jobId]
               else Settles(p.row, m.value)
  {
    var (received, applied) := S.Receive(p, jobId, sent, at);
    assert applied == S.Released <==> Releases(p.row, jobId, sent);
    if applied == S.Released {
      assert received.row == p.row;
      ReleaseTurns(file, received, at);
    }
  }
}
