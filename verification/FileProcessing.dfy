/// The aggregate as the library holds it: an object whose methods update its
/// fields and push the events that moved them.
module FileProcessings {
  import opened Common
  import opened Contract
  import S = ProcessingState

  class FileProcessing {
    const fileId: Uuid
    /// The columns of `drive.file_processing`.
    var row: S.Row
    var version: nat
    /// The events not yet handed to the host.
    var pending: seq<S.Stamped>

    function Value(): S.Aggregate
      reads this
    {
      S.Aggregate(row, version, pending)
    }

    /// The processing read from its stored row, or a blank one at version 0.
    constructor (fileId: Uuid, row: S.Row, version: nat)
      ensures this.fileId == fileId
      ensures Value() == S.Aggregate(row, version, [])
    {
      this.fileId, this.row, this.version, this.pending := fileId, row, version, [];
    }

    method Push(event: S.Event, at: Instant)
      modifies this`version, this`pending
      ensures Value() == old(Value()).Push(event, at)
    {
      version := version + 1;
      pending := pending + [S.Stamped(event, at)];
    }

    method ClearPending()
      modifies this`pending
      ensures pending == []
    {
      pending := [];
    }

    method StartChain(trigger: S.Trigger, rulesetId: Option<Uuid>, steps: seq<Step>, document: Document,
                      priority: Option<int>, at: Instant)
      modifies this
      ensures Value() == S.StartChain(old(Value()), trigger, rulesetId, steps, document, priority, at)
    {
      row := row.(passport := Some(document));
      row := row.(priority := priority);
      row := row.(updatedAt := at);
      Push(S.ChainStarted(trigger, rulesetId, steps, priority), at);
    }

    method RetireCurrentJob()
      modifies this`row
      ensures row == S.RetireCurrentJob(old(row))
    {
      if row.jobId != Nil && row.jobId !in row.pastJobIds {
        row := row.(pastJobIds := row.pastJobIds + [row.jobId]);
      }
      row := row.(errorCode := None, errorMessage := None);
      row := row.(plan := None, planIndex := None, planLabel := None, planAt := None);
      row := row.(cancelRequestedAt := None);
    }

    method CreateJob(job: Uuid, step: nat, runnerType: string, trigger: Option<S.Trigger>,
                     triggeredBy: Option<Initiator>, document: Document, at: Instant)
      modifies this
      ensures Value() == S.CreateJob(old(Value()), job, step, runnerType, trigger, triggeredBy, document, at)
    {
      if row.jobId != job {
        RetireCurrentJob();
      }
      row := row.(passport := Some(document), nextJobId := None, awaitingSource := false);
      row := row.(state := S.Processing, jobId := job, stepIndex := step);
      row := row.(trigger := trigger, triggeredBy := triggeredBy, jobCreatedAt := at, updatedAt := at);
      Push(S.JobCreated(job, step, runnerType), at);
    }

    method AwaitSource(job: Uuid, step: nat, runnerType: string, trigger: Option<S.Trigger>,
                       triggeredBy: Option<Initiator>, at: Instant)
      modifies this
      ensures Value() == S.AwaitSource(old(Value()), job, step, runnerType, trigger, triggeredBy, at)
    {
      RetireCurrentJob();
      row := row.(nextJobId := None, awaitingSource := true);
      row := row.(state := S.Processing, jobId := job, stepIndex := step);
      row := row.(trigger := trigger, triggeredBy := triggeredBy, jobCreatedAt := at, updatedAt := at);
      Push(S.SourceAwaited(step, runnerType, job), at);
    }

    method End(error: Option<(string, Option<string>)>, at: Instant)
      modifies this`row
      ensures row == S.End(old(row), error, at)
    {
      row := row.(passport := None, priority := None, nextJobId := None, awaitingSource := false);
      match error {
        case Some((code, message)) =>
          row := row.(state := S.Failed, errorCode := Some(code), errorMessage := message);
        case None =>
          row := row.(state := S.Ready, errorCode := None, errorMessage := None);
      }
      row := row.(updatedAt := at);
    }

    method DropAwaitedStep(runnerType: string, reason: string, at: Instant)
      modifies this
      ensures Value() == S.DropAwaitedStep(old(Value()), runnerType, reason, at)
    {
      var job, step := row.jobId, row.stepIndex;
      End(Some((reason, None)), at);
      Push(S.AwaitedStepDropped(step, runnerType, job, reason), at);
    }

    method ReportDone(at: Instant)
      modifies this
      ensures Value() == S.ReportDone(old(Value()), at)
    {
      var job := row.jobId;
      End(None, at);
      Push(S.JobReportedDone(job), at);
    }

    method ReportDoneHolding(step: nat, runnerType: string, next: Uuid, at: Instant)
      modifies this
      ensures Value() == S.ReportDoneHolding(old(Value()), step, runnerType, next, at)
    {
      row := row.(nextJobId := Some(next));
      row := row.(updatedAt := at);
      Push(S.JobReportedDone(row.jobId), at);
      Push(S.NextStepHeld(step, runnerType, next, row.jobId), at);
    }

    method ReportFailed(reason: string, message: Option<string>, at: Instant)
      modifies this
      ensures Value() == S.ReportFailed(old(Value()), reason, message, at)
    {
      var job := row.jobId;
      End(Some((reason, message)), at);
      Push(S.JobReportedFailed(job, reason, message), at);
    }

    method SkipStep(step: nat, runnerType: string, at: Instant)
      modifies this
      ensures Value() == S.SkipStep(old(Value()), step, runnerType, at)
    {
      var after := row.jobId;
      End(Some((S.CANCELLED, None)), at);
      Push(S.StepSkipped(step, runnerType, after), at);
    }

    method AbandonStep(step: nat, runnerType: string, reason: string, at: Instant)
      modifies this
      ensures Value() == S.AbandonStep(old(Value()), step, runnerType, reason, at)
    {
      var after := row.jobId;
      End(Some((reason, None)), at);
      Push(S.StepAbandoned(step, runnerType, after, reason), at);
    }

    method TakePassport() returns (taken: Option<Document>)
      modifies this`row
      ensures taken == old(row.passport)
      ensures row == old(row).(passport := None)
    {
      taken := row.passport;
      row := row.(passport := None);
    }

    method RequestCancel(at: Instant)
      modifies this
      ensures Value() == S.RequestCancel(old(Value()), at)
    {
      if row.cancelRequestedAt.None? {
        row := row.(cancelRequestedAt := Some(at));
      }
      row := row.(updatedAt := at);
      Push(S.JobCancelSent(row.jobId), at);
    }

    method CancelOnFreeze(at: Instant)
      modifies this
      ensures Value() == S.CancelOnFreeze(old(Value()), at)
    {
      var job := row.jobId;
      RequestCancel(at);
      End(Some((S.CANCELLED, None)), at);
      Push(S.JobCancelledOnFreeze(job), at);
    }

    method Ignore(job: Uuid, received: S.Event, why: string, at: Instant) returns (applied: S.Applied)
      modifies this
      ensures (Value(), applied) == S.Ignore(old(Value()), job, received, why, at)
    {
      Push(S.JobFactIgnored(job, received, why), at);
      applied := S.Ignored;
    }

    method Receive(job: Uuid, sent: S.Received, at: Instant) returns (applied: S.Applied)
      modifies this
      ensures (Value(), applied) == S.Receive(old(Value()), job, sent, at)
    {
      var fact := sent.AtStorePrecision();
      var event := fact.AsEvent(job);
      if job != row.jobId {
        applied := Ignore(job, event, S.NOT_THE_CURRENT_JOB, at);
        return;
      }
      if row.nextJobId.Some? {
        if fact.Completed? {
          Push(event, at);
          return S.Released;
        }
        if fact.JobsFailed? || fact.Cancelled? || fact.CreationRejected? {
          applied := Ignore(job, event, S.JOB_ALREADY_ENDED, at);
          return S.Released;
        }
      }
      if fact.Queued? || fact.Started? || fact.Completed? {
        Push(event, at);
        return S.Noted;
      }
      if !row.IsRunning() {
        applied := Ignore(job, event, S.JOB_ALREADY_ENDED, at);
        return;
      }
      applied := S.Applied.Ended;
      match fact {
        case PlanDeclared(_, labels) =>
          if row.plan == Some(labels) {
            applied := Ignore(job, event, S.ALREADY_KNOWN, at);
            return;
          }
          row := row.(plan := Some(labels));
          applied := S.Progressed;
        case StepStarted(_, index, caption, startedAt) =>
          if !S.Later(row, startedAt, index) {
            applied := Ignore(job, event, S.ALREADY_KNOWN, at);
            return;
          }
          row := row.(planIndex := Some(index), planLabel := Some(caption), planAt := Some(startedAt));
          applied := S.Progressed;
        case JobsFailed(_, reason, note) =>
          End(Some((reason, note)), at);
        case Cancelled =>
          End(Some((S.CANCELLED, None)), at);
        case CreationRejected(reason, _) =>
          End(Some((reason, None)), at);
      }
      Push(event, at);
    }
  }
}
