/// What each gesture and reaction leaves, column by column, event by event and
/// command by command.
module GestureLaws {
  import opened Common
  import opened Contract
  import opened S = ProcessingState
  import C = Chain

  // ---- what is said of a change ----

  /// The events of a gesture, pushed in this order at its instant.
  ghost predicate Tells(p: Aggregate, q: Aggregate, events: seq<Event>, at: Instant) {
    && q.version == p.version + |events|
    && q.pending == p.pending + seq(|events|, i requires 0 <= i < |events| => Stamped(events[i], at))
  }

  predicate SameJob(r: Row, t: Row) {
    && t.jobId == r.jobId && t.stepIndex == r.stepIndex && t.trigger == r.trigger && t.triggeredBy == r.triggeredBy
    && t.jobCreatedAt == r.jobCreatedAt && t.pastJobIds == r.pastJobIds
  }

  predicate SameProgress(r: Row, t: Row) {
    t.plan == r.plan && t.planIndex == r.planIndex && t.planLabel == r.planLabel && t.planAt == r.planAt
  }

  predicate NoProgress(t: Row) {
    t.plan.None? && t.planIndex.None? && t.planLabel.None? && t.planAt.None?
  }

  /// The chain is over: READY, or FAILED with a code and maybe a message. Its last
  /// job and what it showed stay; Passport, priority, held step and wait go.
  predicate Over(r: Row, t: Row, code: Option<string>, message: Option<string>, at: Instant) {
    && t.state == (if code.Some? then Failed else Ready) && t.errorCode == code && t.errorMessage == message
    && t.passport.None? && t.priority.None? && t.nextJobId.None? && !t.awaitingSource && t.updatedAt == at
    && SameJob(r, t) && SameProgress(r, t)
  }

  /// ... and no cancel was asked meanwhile.
  predicate OverAsItWas(r: Row, t: Row, code: Option<string>, message: Option<string>, at: Instant) {
    Over(r, t, code, message, at) && t.cancelRequestedAt == r.cancelRequestedAt
  }

  /// FAILED for want of a Passport that reads, with the reason.
  predicate Unreadable(stored: Option<Document>, reason: string) {
    || (stored.None? && reason == "passport_missing")
    || (stored.Some? && stored.value.Garbled? && reason == "passport_unreadable")
  }

  /// The job that was current joins the earlier ones, once; the nil one does not.
  predicate Joins(r: Row, t: Row) {
    t.pastJobIds == if r.jobId == Nil || r.jobId in r.pastJobIds then r.pastJobIds else r.pastJobIds + [r.jobId]
  }

  /// A job of the chain becomes the current one: nothing is shown of the one before.
  predicate Replaces(r: Row, t: Row) {
    Joins(r, t) && NoProgress(t) && t.errorCode.None? && t.errorMessage.None? && t.cancelRequestedAt.None?
  }

  predicate Current(t: Row, jobId: Uuid, index: nat, trigger: Option<Trigger>, initiator: Option<Initiator>, at: Instant) {
    && t.state == Processing && t.jobId == jobId && t.stepIndex == index && t.trigger == trigger && t.triggeredBy == initiator
    && t.jobCreatedAt == at && t.updatedAt == at && t.nextJobId.None?
  }

  /// The `job.create` of a step: the file as its source, no parent, the chain's Passport and priority.
  predicate Asks(file: C.File, command: Command, index: nat, jobId: Uuid, passport: Passport, initiator: Option<Initiator>,
                 priority: Option<int>)
  {
    && command.JobCreate? && index < |file.steps|
    && var create := command.create;
       && create.jobId == jobId && create.step == index
       && create.runnerType == file.steps[index].runnerType && create.options == file.steps[index].options
       && create.producer == file.service && create.sourceBc == Some(file.service) && create.sourceEntityId == Some(file.id)
       && create.parentJobId.None? && create.priority == priority
       && create.passport == Some(Encoded(passport)) && create.triggeredBy == TriggeredByOf(passport, initiator)
  }

  /// Step `index` runs as `jobId`, asked of Jobs under the Passport and the priority of the chain.
  ghost predicate Launched(file: C.File, p: Aggregate, m: C.Move, index: nat, jobId: Uuid, passport: Passport, at: Instant) {
    var r, t := p.row, m.processing.row;
    && Current(t, jobId, index, r.trigger, r.triggeredBy, at) && !t.awaitingSource
    && t.passport == Some(Encoded(passport)) && t.priority == r.priority
    && (if jobId != r.jobId then Replaces(r, t)
        else SameProgress(r, t) && t.pastJobIds == r.pastJobIds && t.errorCode == r.errorCode && t.errorMessage == r.errorMessage
             && t.cancelRequestedAt == r.cancelRequestedAt)
    && |m.commands| == 1 && Asks(file, m.commands[0], index, jobId, passport, r.triggeredBy, r.priority)
    && Tells(p, m.processing, [JobCreated(jobId, index, file.steps[index].runnerType)], at)
  }

  /// The runner type of a step of the plan; blank past its end.
  function TypeAt(file: C.File, index: nat): string {
    if index < |file.steps| then file.steps[index].runnerType else ""
  }

  // ---- the runner's final report ----

  lemma DoneAsks(file: C.File, p: Aggregate, minted: Uuid, at: Instant)
    ensures C.ReportDone(file, p, minted, at).commands == [JobFinish(p.row.jobId)]
  {
  }

  lemma DoneEnds(file: C.File, p: Aggregate, minted: Uuid, at: Instant)
    requires p.row.stepIndex + 1 >= |file.steps|
    ensures var q := C.ReportDone(file, p, minted, at).processing;
            OverAsItWas(p.row, q.row, None, None, at) && Tells(p, q, [JobReportedDone(p.row.jobId)], at)
  {
  }

  lemma DoneSkips(file: C.File, p: Aggregate, minted: Uuid, at: Instant)
    requires p.row.stepIndex + 1 < |file.steps| && p.row.cancelRequestedAt.Some?
    ensures var q, next := C.ReportDone(file, p, minted, at).processing, p.row.stepIndex + 1;
            && OverAsItWas(p.row, q.row, Some("cancelled"), None, at)
            && Tells(p, q, [JobReportedDone(p.row.jobId), StepSkipped(next, TypeAt(file, next), p.row.jobId)], at)
  {
  }

  lemma DoneHolds(file: C.File, p: Aggregate, minted: Uuid, at: Instant)
    requires p.row.stepIndex + 1 < |file.steps| && p.row.cancelRequestedAt.None?
    requires p.row.passport.Some? && p.row.passport.value.Encoded?
    ensures var q, next := C.ReportDone(file, p, minted, at).processing, p.row.stepIndex + 1;
            && q.row == p.row.(nextJobId := Some(minted), updatedAt := at)
            && Tells(p, q, [JobReportedDone(p.row.jobId), NextStepHeld(next, TypeAt(file, next), minted, p.row.jobId)], at)
  {
  }

  lemma DoneAbandons(file: C.File, p: Aggregate, minted: Uuid, at: Instant, reason: string)
    requires p.row.stepIndex + 1 < |file.steps| && p.row.cancelRequestedAt.None? && Unreadable(p.row.passport, reason)
    ensures var q, next := C.ReportDone(file, p, minted, at).processing, p.row.stepIndex + 1;
            && OverAsItWas(p.row, q.row, Some(reason), None, at)
            && Tells(p, q, [JobReportedDone(p.row.jobId), StepAbandoned(next, TypeAt(file, next), p.row.jobId, reason)], at)
  {
  }

  /// Past the last step the chain ends READY; before another one it stops on a
  /// cancel, or for want of a Passport, or holds exactly the next step.
  lemma DoneSays(file: C.File, p: Aggregate, minted: Uuid, at: Instant)
    ensures var q, r, next := C.ReportDone(file, p, minted, at).processing, p.row, p.row.stepIndex + 1;
            var done := JobReportedDone(r.jobId);
            if next >= |file.steps| then OverAsItWas(r, q.row, None, None, at) && Tells(p, q, [done], at)
            else if r.cancelRequestedAt.Some? then
              && OverAsItWas(r, q.row, Some("cancelled"), None, at)
              && Tells(p, q, [done, StepSkipped(next, TypeAt(file, next), r.jobId)], at)
            else if r.passport.Some? && r.passport.value.Encoded? then
              && q.row == r.(nextJobId := Some(minted), updatedAt := at)
              && Tells(p, q, [done, NextStepHeld(next, TypeAt(file, next), minted, r.jobId)], at)
            else exists reason ::
              && Unreadable(r.passport, reason) && OverAsItWas(r, q.row, Some(reason), None, at)
              && Tells(p, q, [done, StepAbandoned(next, TypeAt(file, next), r.jobId, reason)], at)
  {
    if p.row.stepIndex + 1 >= |file.steps| {
      DoneEnds(file, p, minted, at);
    } else if p.row.cancelRequestedAt.Some? {
      DoneSkips(file, p, minted, at);
    } else if p.row.passport.Some? && p.row.passport.value.Encoded? {
      DoneHolds(file, p, minted, at);
    } else {
      DoneAbandons(file, p, minted, at, if p.row.passport.None? then "passport_missing" else "passport_unreadable");
    }
  }

  /// A declared failure ends the chain with the runner's own reason and message.
  lemma FailureSays(p: Aggregate, reason: string, message: Option<string>, at: Instant)
    ensures var m := C.ReportFailed(p, reason, message, at);
            && OverAsItWas(p.row, m.processing.row, Some(reason), message, at)
            && Tells(p, m.processing, [JobReportedFailed(p.row.jobId, reason, message)], at)
            && m.commands == [JobFail(p.row.jobId, if message.Some? then reason + ": " + message.value else reason)]
  {
  }

  // ---- the stops ----

  /// The first cancel asked is the one shown.
  predicate CancelShown(r: Row, t: Row, at: Instant) {
    t.cancelRequestedAt == Some(if r.cancelRequestedAt.Some? then r.cancelRequestedAt.value else at)
  }

  /// A user's cancel: Jobs is asked for a running job, which runs on; a held step is
  /// skipped at once; a step awaiting its source is dropped, and nothing is asked.
  lemma CancelSays(file: C.File, p: Aggregate, at: Instant)
    requires p.row.state == Processing
    ensures var m, r := C.CancelProcessing(file, p, at), p.row;
            && m.Some?
            && var q, t := m.value.processing, m.value.processing.row;
               if r.awaitingSource then
                 && m.value.commands == [] && OverAsItWas(r, t, Some("cancelled"), None, at)
                 && Tells(p, q, [AwaitedStepDropped(r.stepIndex, TypeAt(file, r.stepIndex), r.jobId, "cancelled")], at)
               else
                 && m.value.commands == [JobCancel(r.jobId)] && CancelShown(r, t, at)
                 && if r.nextJobId.Some? then
                      var next := r.stepIndex + 1;
                      && Over(r, t, Some("cancelled"), None, at)
                      && Tells(p, q, [JobCancelSent(r.jobId), StepSkipped(next, TypeAt(file, next), r.jobId)], at)
                    else
                      && t == r.(cancelRequestedAt := t.cancelRequestedAt, updatedAt := at)
                      && Tells(p, q, [JobCancelSent(r.jobId)], at)
  {
  }

  lemma CancelRefuses(file: C.File, p: Aggregate, at: Instant)
    ensures C.CancelProcessing(file, p, at).None? <==> p.row.state != Processing
  {
  }

  /// A freeze ends the chain whatever it waits for, and asks Jobs to cancel a running job only.
  lemma FreezeSays(file: C.File, p: Aggregate, at: Instant)
    ensures var m, r, next := C.Freeze(file, p, at), p.row, p.row.stepIndex + 1;
            var q, t := m.processing, m.processing.row;
            && Over(r, t, Some("cancelled"), None, at)
            && if r.awaitingSource then
                 && m.commands == [] && t.cancelRequestedAt == r.cancelRequestedAt
                 && Tells(p, q, [AwaitedStepDropped(r.stepIndex, TypeAt(file, r.stepIndex), r.jobId, "cancelled")], at)
               else if r.nextJobId.Some? then
                 && m.commands == [] && t.cancelRequestedAt == r.cancelRequestedAt
                 && Tells(p, q, [StepSkipped(next, TypeAt(file, next), r.jobId)], at)
               else
                 && m.commands == [JobCancel(r.jobId)] && CancelShown(r, t, at)
                 && Tells(p, q, [JobCancelSent(r.jobId), JobCancelledOnFreeze(r.jobId)], at)
  {
  }

  // ---- the start, and the steps that waited ----

  /// What a start asks of Jobs: nothing on a pending source, its step 0 otherwise.
  lemma StartAsks(file: C.File, p: Aggregate, rulesetId: Option<Uuid>, trigger: Trigger, initiator: Initiator, passport: Passport,
                  priority: Option<int>, sourcePending: bool, minted: Uuid, at: Instant)
    ensures var m := C.StartChain(file, p, rulesetId, trigger, initiator, passport, priority, sourcePending, minted, at);
            && (m.Some? <==> file.steps != [])
            && (m.Some? ==>
                  var t := m.value.processing.row;
                  && t.jobId == minted && t.stepIndex == 0 && t.awaitingSource == sourcePending
                  && if sourcePending then m.value.commands == []
                     else |m.value.commands| == 1 && Asks(file, m.value.commands[0], 0, minted, passport, Some(initiator), priority))
  {
  }

  /// A chain's start. Awaiting its source, step 0 has its id and nothing is asked;
  /// otherwise it runs.
  lemma StartSays(file: C.File, p: Aggregate, rulesetId: Option<Uuid>, trigger: Trigger, initiator: Initiator, passport: Passport,
                  priority: Option<int>, sourcePending: bool, minted: Uuid, at: Instant)
    requires p.row.jobId != minted
    ensures var m := C.StartChain(file, p, rulesetId, trigger, initiator, passport, priority, sourcePending, minted, at);
            && (m.None? <==> file.steps == [])
            && (m.Some? ==>
                  var q, t := m.value.processing, m.value.processing.row;
                  && Current(t, minted, 0, Some(trigger), Some(initiator), at) && Replaces(p.row, t)
                  && t.passport == Some(Encoded(passport)) && t.priority == priority && t.awaitingSource == sourcePending
                  && if sourcePending then
                       && m.value.commands == []
                       && Tells(p, q, [ChainStarted(trigger, rulesetId, file.steps, priority),
                                       SourceAwaited(0, file.steps[0].runnerType, minted)], at)
                     else
                       && |m.value.commands| == 1
                       && Asks(file, m.value.commands[0], 0, minted, passport, Some(initiator), priority)
                       && Tells(p, q, [ChainStarted(trigger, rulesetId, file.steps, priority),
                                       JobCreated(minted, 0, file.steps[0].runnerType)], at))
  {
  }

  /// Jobs ended the reported job: a cancel skips the held step, a Passport that reads
  /// launches it under its own id, none abandons it.
  lemma ReleaseSays(file: C.File, p: Aggregate, at: Instant)
    requires p.row.nextJobId.Some? && p.row.stepIndex + 1 < |file.steps| && p.row.nextJobId.value != p.row.jobId
    ensures var m, r, next := C.ReleaseNextStep(file, p, at), p.row, p.row.stepIndex + 1;
            && m.Some?
            && var q, t := m.value.processing, m.value.processing.row;
               if r.cancelRequestedAt.Some? then
                 && m.value.commands == [] && OverAsItWas(r, t, Some("cancelled"), None, at)
                 && Tells(p, q, [StepSkipped(next, TypeAt(file, next), r.jobId)], at)
               else if r.passport.Some? && r.passport.value.Encoded? then
                 Launched(file, p, m.value, next, r.nextJobId.value, r.passport.value.passport, at)
               else exists reason ::
                 && Unreadable(r.passport, reason) && m.value.commands == [] && OverAsItWas(r, t, Some(reason), None, at)
                 && Tells(p, q, [StepAbandoned(next, TypeAt(file, next), r.jobId, reason)], at)
  {
    if p.row.cancelRequestedAt.None? {
      HeldSays(file, p.With(p.row.(passport := None)), p.row.passport, p.row.nextJobId.value, at);
    }
  }

  lemma HeldSays(file: C.File, p: Aggregate, taken: Option<Document>, jobId: Uuid, at: Instant)
    requires p.row.stepIndex + 1 < |file.steps|
    ensures var m, next := C.HeldStep(file, p, taken, jobId, at), p.row.stepIndex + 1;
            && m.Some?
            && if taken.Some? && taken.value.Encoded? then Launched(file, p, m.value, next, jobId, taken.value.passport, at)
               else exists reason ::
                 && Unreadable(taken, reason) && m.value.commands == []
                 && OverAsItWas(p.row, m.value.processing.row, Some(reason), None, at)
                 && Tells(p, m.value.processing, [StepAbandoned(next, TypeAt(file, next), p.row.jobId, reason)], at)
  {
    var reason := if taken.None? then "passport_missing" else "passport_unreadable";
    assert taken.None? || taken.value.Garbled? ==> Unreadable(taken, reason);
  }

  /// Nothing is released with no step held, or past the plan.
  lemma NothingToRelease(file: C.File, p: Aggregate, at: Instant)
    ensures p.row.nextJobId.None? ==> C.ReleaseNextStep(file, p, at).None?
    ensures (p.row.cancelRequestedAt.None? && p.row.stepIndex + 1 >= |file.steps|
             && p.row.passport.Some? && p.row.passport.value.Encoded?) ==> C.ReleaseNextStep(file, p, at).None?
  {
  }

  /// The source's promotion: an awaited step is launched under the id it has, or
  /// dropped for want of a Passport; any other file is left as it is.
  lemma PromotionSays(file: C.File, p: Aggregate, at: Instant)
    requires p.row.awaitingSource ==> p.row.stepIndex < |file.steps|
    ensures var m, r := C.SourcePromoted(file, p, at), p.row;
            && m.Some?
            && var q, t := m.value.processing, m.value.processing.row;
               if !r.awaitingSource then q == p && m.value.commands == []
               else if r.passport.Some? && r.passport.value.Encoded? then
                 Launched(file, p, m.value, r.stepIndex, r.jobId, r.passport.value.passport, at)
               else exists reason ::
                 && Unreadable(r.passport, reason) && m.value.commands == [] && OverAsItWas(r, t, Some(reason), None, at)
                 && Tells(p, q, [AwaitedStepDropped(r.stepIndex, TypeAt(file, r.stepIndex), r.jobId, reason)], at)
  {
    var reason := if p.row.passport.None? then "passport_missing" else "passport_unreadable";
    assert p.row.passport.None? || p.row.passport.value.Garbled? ==> Unreadable(p.row.passport, reason);
  }

  // ---- a fact of Jobs ----

  /// The event a fact is recorded as, its instant cut to the microsecond.
  function Recorded(jobId: Uuid, sent: Received): Event {
    match sent
    case Queued(runnerType) => JobQueued(jobId, runnerType)
    case Started(runId) => JobStarted(jobId, runId)
    case Completed => JobCompleted(jobId)
    case PlanDeclared(runId, labels) => JobPlanDeclared(jobId, runId, labels)
    case StepStarted(runId, index, caption, startedAt) =>
      JobStepStarted(jobId, runId, index, caption, startedAt - startedAt % 1000)
    case JobsFailed(cause, reason, note) => JobFailed(jobId, cause, reason, note)
    case Cancelled => JobCancelled(jobId)
    case CreationRejected(reason, params) => JobCreationRejected(jobId, reason, params)
  }

  /// The fact changes nothing but the log, which says why.
  ghost predicate IsIgnored(p: Aggregate, q: Aggregate, jobId: Uuid, sent: Received, why: string, at: Instant) {
    q.row == p.row && Tells(p, q, [JobFactIgnored(jobId, Recorded(jobId, sent), why)], at)
  }

  /// A fact about another job than the current one is ignored.
  lemma OtherJobSays(p: Aggregate, jobId: Uuid, sent: Received, at: Instant)
    requires jobId != p.row.jobId
    ensures var (q, applied) := Receive(p, jobId, sent, at);
            IsIgnored(p, q, jobId, sent, "not_the_current_job", at) && applied.Ignored?
  {
  }

  /// An end releases the held step: a completion is recorded, any other end is late.
  lemma HeldEndSays(p: Aggregate, sent: Received, at: Instant)
    requires p.row.nextJobId.Some? && (sent.Completed? || sent.JobsFailed? || sent.Cancelled? || sent.CreationRejected?)
    ensures var (q, applied) := Receive(p, p.row.jobId, sent, at);
            && applied.Released?
            && if sent.Completed? then q.row == p.row && Tells(p, q, [JobCompleted(p.row.jobId)], at)
               else IsIgnored(p, q, p.row.jobId, sent, "job_already_ended", at)
  {
  }

  /// What only notes: queued, started, and a completion nothing waits for.
  lemma NotedSays(p: Aggregate, sent: Received, at: Instant)
    requires sent.Queued? || sent.Started? || (sent.Completed? && p.row.nextJobId.None?)
    ensures var (q, applied) := Receive(p, p.row.jobId, sent, at);
            q.row == p.row && Tells(p, q, [Recorded(p.row.jobId, sent)], at) && applied.Noted?
  {
  }

  /// Of a job that runs no more, everything else is late.
  lemma LateSays(p: Aggregate, sent: Received, at: Instant)
    requires p.row.state != Processing || p.row.awaitingSource || (p.row.nextJobId.Some? && (sent.PlanDeclared? || sent.StepStarted?))
    requires p.row.state != Processing || p.row.awaitingSource ==> p.row.nextJobId.None?
    requires !sent.Queued? && !sent.Started? && !sent.Completed?
    ensures var (q, applied) := Receive(p, p.row.jobId, sent, at);
            IsIgnored(p, q, p.row.jobId, sent, "job_already_ended", at) && applied.Ignored?
  {
  }

  predicate AtWork(r: Row) {
    r.state == Processing && r.nextJobId.None? && !r.awaitingSource
  }

  /// The running job's plan: the last declared is shown.
  lemma PlanSays(p: Aggregate, sent: Received, at: Instant)
    requires AtWork(p.row) && sent.PlanDeclared?
    ensures var (q, applied) := Receive(p, p.row.jobId, sent, at);
            if p.row.plan == Some(sent.labels) then IsIgnored(p, q, p.row.jobId, sent, "already_known", at) && applied.Ignored?
            else
              && q.row == p.row.(plan := Some(sent.labels)) && Tells(p, q, [Recorded(p.row.jobId, sent)], at) && applied.Progressed?
  {
  }

  /// The running job's step: shown when it is after the one shown, by instant then index.
  lemma StepSays(p: Aggregate, sent: Received, at: Instant)
    requires AtWork(p.row) && sent.StepStarted?
    ensures var (q, applied) := Receive(p, p.row.jobId, sent, at);
            var r, start := p.row, sent.startedAt - sent.startedAt % 1000;
            if r.planAt.None? || start > r.planAt.value || (start == r.planAt.value && sent.index > r.planIndex.GetOr(0)) then
              && q.row == r.(planIndex := Some(sent.index), planLabel := Some(sent.caption), planAt := Some(start))
              && Tells(p, q, [Recorded(r.jobId, sent)], at) && applied.Progressed?
            else IsIgnored(p, q, r.jobId, sent, "already_known", at) && applied.Ignored?
  {
  }

  /// The running job's end: FAILED with what Jobs says of it.
  lemma EndSays(p: Aggregate, sent: Received, at: Instant)
    requires AtWork(p.row) && (sent.JobsFailed? || sent.Cancelled? || sent.CreationRejected?)
    ensures var (q, applied) := Receive(p, p.row.jobId, sent, at);
            var code := if sent.Cancelled? then "cancelled" else sent.reasonCode;
            && OverAsItWas(p.row, q.row, Some(code), if sent.JobsFailed? then sent.note else None, at)
            && Tells(p, q, [Recorded(p.row.jobId, sent)], at) && applied.Ended?
  {
  }

  /// A fact that does not release stages nothing, but a duplicate of the running job
  /// has the live job it names cancelled, when that is about this file of this host.
  lemma ReactionAsks(file: C.File, p: Aggregate, jobId: Uuid, sent: Received, at: Instant)
    requires !(jobId == p.row.jobId && p.row.nextJobId.Some? && sent.End())
    ensures var m := C.React(file, p, jobId, sent, at);
            && m.Some? && m.value.processing == Receive(p, jobId, sent, at).0
            && m.value.commands ==
                 if && jobId == p.row.jobId && AtWork(p.row) && sent.CreationRejected?
                    && sent.reasonCode == "duplicate_active_entity" && sent.params.activeJobId.Some?
                    && (sent.params.sourceEntityId.None? || sent.params.sourceEntityId.value == file.id)
                    && (sent.params.sourceBc.None? || sent.params.sourceBc.value == file.service)
                 then [JobCancel(sent.params.activeJobId.value)] else []
  {
  }
}
