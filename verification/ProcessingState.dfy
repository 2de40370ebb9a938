/// A file's processing as a value: its row, the events that move it, and what
/// each state-changing operation makes of it.
module ProcessingState {
  import opened Common
  import opened Contract

  const CANCELLED := "cancelled"
  const JOB_ALREADY_ENDED := "job_already_ended"
  const NOT_THE_CURRENT_JOB := "not_the_current_job"
  const ALREADY_KNOWN := "already_known"

  datatype Trigger = Upload | Reprocess | RegeneratePage

  datatype State = Pending | Processing | Ready | Failed

  datatype Event =
    | ChainStarted(trigger: Trigger, rulesetId: Option<Uuid>, steps: seq<Step>, priority: Option<int>)
    | JobCreated(jobId: Uuid, stepIndex: nat, runnerType: string)
    | JobReportedDone(jobId: Uuid)
    | JobReportedFailed(jobId: Uuid, reasonCode: string, message: Option<string>)
    | JobFailed(jobId: Uuid, failureCause: string, reasonCode: string, note: Option<string>)
    | JobCancelled(jobId: Uuid)
    | JobCreationRejected(jobId: Uuid, reasonCode: string, params: Params)
    | JobCancelSent(jobId: Uuid)
    | StepSkipped(stepIndex: nat, runnerType: string, afterJobId: Uuid)
    | JobPlanDeclared(jobId: Uuid, runId: Uuid, labels: seq<string>)
    | JobStepStarted(jobId: Uuid, runId: Uuid, index: int, caption: string, startedAt: Instant)
    | JobQueued(jobId: Uuid, runnerType: string)
    | JobStarted(jobId: Uuid, runId: Uuid)
    | JobCompleted(jobId: Uuid)
    | StepAbandoned(stepIndex: nat, runnerType: string, afterJobId: Uuid, reasonCode: string)
    | JobFactIgnored(jobId: Uuid, received: Event, why: string)
    | JobCancelledOnFreeze(jobId: Uuid)
    | NextStepHeld(stepIndex: nat, runnerType: string, jobId: Uuid, afterJobId: Uuid)
    | SourceAwaited(stepIndex: nat, runnerType: string, jobId: Uuid)
    | AwaitedStepDropped(stepIndex: nat, runnerType: string, jobId: Uuid, reasonCode: string)

  /// An event with the instant of the gesture behind it.
  datatype Stamped = Stamped(event: Event, at: Instant)

  /// A fact Jobs sent about a job of the file.
  datatype Received =
    | Queued(runnerType: string)
    | Started(runId: Uuid)
    | Completed
    | PlanDeclared(runId: Uuid, labels: seq<string>)
    | StepStarted(runId: Uuid, index: int, caption: string, startedAt: Instant)
    | JobsFailed(failureCause: string, reasonCode: string, note: Option<string>)
    | Cancelled
    | CreationRejected(reasonCode: string, params: Params)
  {
    /// Whether Jobs settled the job, or refused it.
    predicate End() {
      Completed? || JobsFailed? || Cancelled? || CreationRejected?
    }

    /// The fact with its instants at the store's precision, microseconds.
    function AtStorePrecision(): Received {
      if StepStarted? then this.(startedAt := startedAt - startedAt % 1000) else this
    }

    function AsEvent(jobId: Uuid): Event {
      match this
      case Queued(runnerType) => JobQueued(jobId, runnerType)
      case Started(runId) => JobStarted(jobId, runId)
      case Completed => JobCompleted(jobId)
      case PlanDeclared(runId, labels) => JobPlanDeclared(jobId, runId, labels)
      case StepStarted(runId, index, caption, startedAt) => JobStepStarted(jobId, runId, index, caption, startedAt)
      case JobsFailed(cause, reason, note) => JobFailed(jobId, cause, reason, note)
      case Cancelled => JobCancelled(jobId)
      case CreationRejected(reason, params) => JobCreationRejected(jobId, reason, params)
    }
  }

  /// What a received fact did to the file's processing.
  datatype Applied = Ended | Progressed | Noted | Ignored | Released

  /// `drive.file_processing`: the file's last job and where its chain stands.
  datatype Row = Row(
    state: State, jobId: Uuid, stepIndex: nat, trigger: Option<Trigger>, triggeredBy: Option<Initiator>,
    jobCreatedAt: Instant, errorCode: Option<string>, errorMessage: Option<string>,
    plan: Option<seq<string>>, planIndex: Option<int>, planLabel: Option<string>, planAt: Option<Instant>,
    cancelRequestedAt: Option<Instant>, pastJobIds: seq<Uuid>, updatedAt: Instant,
    passport: Option<Document>, nextJobId: Option<Uuid>, awaitingSource: bool, priority: Option<int>)
  {
    /// The last job runs: it is not reported done with a step held, nor awaiting the source.
    predicate IsRunning() {
      state == Processing && nextJobId.None? && !awaitingSource
    }

    /// Every job the row recognises: the current one and the earlier ones.
    predicate Knows(job: Uuid) {
      job == jobId || job in pastJobIds
    }
  }

  /// What holds of a row at every save.
  ghost predicate Sound(r: Row) {
    && r.state != Pending
    && (r.nextJobId.Some? || r.awaitingSource ==> r.state == Processing)
    && !(r.nextJobId.Some? && r.awaitingSource)
    && (r.passport.Some? || r.priority.Some? ==> r.state == Processing)
    && (r.errorCode.Some? <==> r.state == Failed)
    && (r.errorMessage.Some? ==> r.state == Failed)
    && Distinct(r.pastJobIds)
    && r.jobId !in r.pastJobIds && Nil !in r.pastJobIds
    && (r.nextJobId.Some? ==> r.nextJobId.value !in r.pastJobIds && r.nextJobId.value != r.jobId && r.nextJobId.value != Nil)
    && (r.state == Processing ==> r.jobId != Nil)
    && r.planIndex.Some? == r.planAt.Some? == r.planLabel.Some?
  }

  /// An id the row has never seen.
  predicate Fresh(r: Row, minted: Uuid) {
    minted.V7? && !r.Knows(minted) && r.nextJobId != Some(minted)
  }

  /// The row of a file never processed: no job yet.
  function Blank(at: Instant): Row {
    Row(Ready, Nil, 0, None, None, at, None, None, None, None, None, None, None, [], at, None, None, false, None)
  }

  /// It has no job, shows nothing, holds and awaits nothing, and knows no job but the nil one.
  lemma BlankSays(at: Instant)
    ensures var r := Blank(at);
            && r.state == Ready && r.jobId == Nil && r.stepIndex == 0 && r.trigger.None? && r.triggeredBy.None?
            && r.jobCreatedAt == at && r.updatedAt == at && r.plan.None? && r.planIndex.None? && r.planLabel.None? && r.planAt.None?
            && r.cancelRequestedAt.None? && r.errorCode.None? && r.errorMessage.None? && r.passport.None? && r.priority.None?
            && r.nextJobId.None? && !r.awaitingSource && (forall job :: r.Knows(job) <==> job == Nil)
  {
  }

  /// The aggregate: its row, its version, the events not yet handed to the host.
  datatype Aggregate = Aggregate(row: Row, version: nat, pending: seq<Stamped>) {
    function Push(event: Event, at: Instant): Aggregate {
      Aggregate(row, version + 1, pending + [Stamped(event, at)])
    }

    function With(changed: Row): Aggregate {
      Aggregate(changed, version, pending)
    }

    /// The version before the pending events.
    function Base(): int {
      version - |pending|
    }
  }

  function StartChain(p: Aggregate, trigger: Trigger, rulesetId: Option<Uuid>, steps: seq<Step>,
                      passport: Document, priority: Option<int>, at: Instant): Aggregate
  {
    p.With(p.row.(passport := Some(passport), priority := priority, updatedAt := at))
     .Push(ChainStarted(trigger, rulesetId, steps, priority), at)
  }

  function RetireCurrentJob(r: Row): Row {
    r.(pastJobIds := if r.jobId != Nil && r.jobId !in r.pastJobIds then r.pastJobIds + [r.jobId] else r.pastJobIds,
       errorCode := None, errorMessage := None, plan := None, planIndex := None, planLabel := None,
       planAt := None, cancelRequestedAt := None)
  }

  function CreateJob(p: Aggregate, jobId: Uuid, stepIndex: nat, runnerType: string, trigger: Option<Trigger>,
                     triggeredBy: Option<Initiator>, passport: Document, at: Instant): Aggregate
  {
    var r := if p.row.jobId != jobId then RetireCurrentJob(p.row) else p.row;
    p.With(r.(passport := Some(passport), nextJobId := None, awaitingSource := false, state := Processing,
              jobId := jobId, stepIndex := stepIndex, trigger := trigger, triggeredBy := triggeredBy,
              jobCreatedAt := at, updatedAt := at))
     .Push(JobCreated(jobId, stepIndex, runnerType), at)
  }

  function AwaitSource(p: Aggregate, jobId: Uuid, stepIndex: nat, runnerType: string, trigger: Option<Trigger>,
                       triggeredBy: Option<Initiator>, at: Instant): Aggregate
  {
    p.With(RetireCurrentJob(p.row).(nextJobId := None, awaitingSource := true, state := Processing,
              jobId := jobId, stepIndex := stepIndex, trigger := trigger, triggeredBy := triggeredBy,
              jobCreatedAt := at, updatedAt := at))
     .Push(SourceAwaited(stepIndex, runnerType, jobId), at)
  }

  /// The running job ended: READY, or FAILED with a code and a message.
  function End(r: Row, error: Option<(string, Option<string>)>, at: Instant): Row {
    r.(passport := None, priority := None, nextJobId := None, awaitingSource := false,
       state := if error.Some? then Failed else Ready,
       errorCode := if error.Some? then Some(error.value.0) else None,
       errorMessage := if error.Some? then error.value.1 else None,
       updatedAt := at)
  }

  function DropAwaitedStep(p: Aggregate, runnerType: string, reason: string, at: Instant): Aggregate {
    p.With(End(p.row, Some((reason, None)), at))
     .Push(AwaitedStepDropped(p.row.stepIndex, runnerType, p.row.jobId, reason), at)
  }

  function ReportDone(p: Aggregate, at: Instant): Aggregate {
    p.With(End(p.row, None, at)).Push(JobReportedDone(p.row.jobId), at)
  }

  function ReportDoneHolding(p: Aggregate, stepIndex: nat, runnerType: string, next: Uuid, at: Instant): Aggregate {
    p.With(p.row.(nextJobId := Some(next), updatedAt := at))
     .Push(JobReportedDone(p.row.jobId), at)
     .Push(NextStepHeld(stepIndex, runnerType, next, p.row.jobId), at)
  }

  function ReportFailed(p: Aggregate, reason: string, message: Option<string>, at: Instant): Aggregate {
    p.With(End(p.row, Some((reason, message)), at)).Push(JobReportedFailed(p.row.jobId, reason, message), at)
  }

  function SkipStep(p: Aggregate, stepIndex: nat, runnerType: string, at: Instant): Aggregate {
    p.With(End(p.row, Some((CANCELLED, None)), at)).Push(StepSkipped(stepIndex, runnerType, p.row.jobId), at)
  }

  function AbandonStep(p: Aggregate, stepIndex: nat, runnerType: string, reason: string, at: Instant): Aggregate {
    p.With(End(p.row, Some((reason, None)), at)).Push(StepAbandoned(stepIndex, runnerType, p.row.jobId, reason), at)
  }

  function RequestCancel(p: Aggregate, at: Instant): Aggregate {
    p.With(p.row.(cancelRequestedAt := Some(p.row.cancelRequestedAt.GetOr(at)), updatedAt := at))
     .Push(JobCancelSent(p.row.jobId), at)
  }

  function CancelOnFreeze(p: Aggregate, at: Instant): Aggregate {
    var q := RequestCancel(p, at);
    q.With(End(q.row, Some((CANCELLED, None)), at)).Push(JobCancelledOnFreeze(p.row.jobId), at)
  }

  function Ignore(p: Aggregate, jobId: Uuid, received: Event, why: string, at: Instant): (Aggregate, Applied) {
    (p.Push(JobFactIgnored(jobId, received, why), at), Ignored)
  }

  /// A start after the latest one known, by its instant, then its index.
  predicate Later(r: Row, startedAt: Instant, index: int) {
    r.planAt.None?
    || startedAt > r.planAt.value
    || (startedAt == r.planAt.value && index > r.planIndex.GetOr(0))
  }

  /// Records a Jobs fact about `jobId` and says what it did.
  function Receive(p: Aggregate, jobId: Uuid, sent: Received, at: Instant): (Aggregate, Applied) {
    var fact := sent.AtStorePrecision();
    var event := fact.AsEvent(jobId);
    var r := p.row;
    if jobId != r.jobId then Ignore(p, jobId, event, NOT_THE_CURRENT_JOB, at)
    else if r.nextJobId.Some? && fact.Completed? then (p.Push(event, at), Released)
    else if r.nextJobId.Some? && fact.End() then (Ignore(p, jobId, event, JOB_ALREADY_ENDED, at).0, Released)
    else
      match fact
      case Queued(_) => (p.Push(event, at), Noted)
      case Started(_) => (p.Push(event, at), Noted)
      case Completed => (p.Push(event, at), Noted)
      case PlanDeclared(_, labels) =>
        if !r.IsRunning() then Ignore(p, jobId, event, JOB_ALREADY_ENDED, at)
        else if r.plan == Some(labels) then Ignore(p, jobId, event, ALREADY_KNOWN, at)
        else (p.With(r.(plan := Some(labels))).Push(event, at), Progressed)
      case StepStarted(_, index, caption, startedAt) =>
        if !r.IsRunning() then Ignore(p, jobId, event, JOB_ALREADY_ENDED, at)
        else if !Later(r, startedAt, index) then Ignore(p, jobId, event, ALREADY_KNOWN, at)
        else (p.With(r.(planIndex := Some(index), planLabel := Some(caption), planAt := Some(startedAt))).Push(event, at), Progressed)
      case JobsFailed(_, reason, note) =>
        if !r.IsRunning() then Ignore(p, jobId, event, JOB_ALREADY_ENDED, at)
        else (p.With(End(r, Some((reason, note)), at)).Push(event, at), Applied.Ended)
      case Cancelled =>
        if !r.IsRunning() then Ignore(p, jobId, event, JOB_ALREADY_ENDED, at)
        else (p.With(End(r, Some((CANCELLED, None)), at)).Push(event, at), Applied.Ended)
      case CreationRejected(reason, _) =>
        if !r.IsRunning() then Ignore(p, jobId, event, JOB_ALREADY_ENDED, at)
        else (p.With(End(r, Some((reason, None)), at)).Push(event, at), Applied.Ended)
  }
}
