/// The host's copy of a file's processing, rebuilt from the facts handed to it.
module Replay {
  import opened Common
  import opened Contract
  import opened S = ProcessingState
  import C = Chain

  /// A replay: the row so far, and the priority a held step gets back.
  datatype Copy = Copy(row: Row, priority: Option<int>)

  const NOTHING := Copy(Blank(0), None)

  /// The columns once a chain is over.
  function Closed(r: Row, state: State, code: Option<string>, message: Option<string>, at: Instant): Row {
    r.(state := state, errorCode := code, errorMessage := message, updatedAt := at,
       passport := None, priority := None, nextJobId := None, awaitingSource := false)
  }

  function FailedAs(r: Row, code: string, message: Option<string>, at: Instant): Row {
    Closed(r, Failed, Some(code), message, at)
  }

  /// The columns once another job than the current one takes its place.
  function Cleared(r: Row): Row {
    var past := if r.jobId == Nil || r.jobId in r.pastJobIds then r.pastJobIds else r.pastJobIds + [r.jobId];
    r.(pastJobIds := past, errorCode := None, errorMessage := None, cancelRequestedAt := None,
       plan := None, planIndex := None, planLabel := None, planAt := None)
  }

  /// What a fact says on its own. A reported job reads as the chain's end until
  /// the fact right after it says that its next step is held.
  function Replayed(c: Copy, fact: Stamped): Copy {
    var r, at := c.row, fact.at;
    match fact.event
    case ChainStarted(trigger, _, _, priority) =>
      c.(row := r.(trigger := Some(trigger), priority := priority, updatedAt := at))
    case JobCreated(job, step, _) =>
      var cleared := if r.jobId != job then Cleared(r) else r;
      c.(row := cleared.(state := Processing, jobId := job, stepIndex := step, nextJobId := None,
                         awaitingSource := false, jobCreatedAt := at, updatedAt := at))
    case SourceAwaited(step, _, job) =>
      c.(row := Cleared(r).(state := Processing, jobId := job, stepIndex := step, nextJobId := None,
                            awaitingSource := true, jobCreatedAt := at, updatedAt := at))
    case JobReportedDone(_) => Copy(Closed(r, Ready, None, None, at), r.priority)
    case NextStepHeld(_, _, next, _) =>
      c.(row := r.(state := Processing, nextJobId := Some(next), priority := c.priority, updatedAt := at))
    case JobReportedFailed(_, reason, message) => c.(row := FailedAs(r, reason, message, at))
    case JobFailed(_, _, reason, note) => c.(row := FailedAs(r, reason, note, at))
    case JobCancelled(_) => c.(row := FailedAs(r, "cancelled", None, at))
    case JobCancelledOnFreeze(_) => c.(row := FailedAs(r, "cancelled", None, at))
    case JobCreationRejected(_, reason, _) => c.(row := FailedAs(r, reason, None, at))
    case StepSkipped(_, _, _) => c.(row := FailedAs(r, "cancelled", None, at))
    case StepAbandoned(_, _, _, reason) => c.(row := FailedAs(r, reason, None, at))
    case AwaitedStepDropped(_, _, _, reason) => c.(row := FailedAs(r, reason, None, at))
    case JobCancelSent(_) =>
      c.(row := r.(cancelRequestedAt := Some(if r.cancelRequestedAt.Some? then r.cancelRequestedAt.value else at), updatedAt := at))
    case JobPlanDeclared(_, _, labels) => c.(row := r.(plan := Some(labels)))
    case JobStepStarted(_, _, index, caption, startedAt) =>
      c.(row := r.(planIndex := Some(index), planLabel := Some(caption), planAt := Some(startedAt)))
    case JobQueued(_, _) => c
    case JobStarted(_, _) => c
    case JobCompleted(_) => c
    case JobFactIgnored(_, _, _) => c
  }

  function Fold(c: Copy, facts: seq<Stamped>): Copy {
    if facts == [] then c else Replayed(Fold(c, facts[..|facts| - 1]), facts[|facts| - 1])
  }

  lemma FoldOne(c: Copy, facts: seq<Stamped>, fact: Stamped)
    ensures Fold(c, facts + [fact]) == Replayed(Fold(c, facts), fact)
  {
    assert (facts + [fact])[..|facts|] == facts;
  }

  lemma {:induction false} FoldMore(c: Copy, first: seq<Stamped>, more: seq<Stamped>)
    ensures Fold(c, first + more) == Fold(Fold(c, first), more)
  {
    if more == [] {
      assert first + more == first;
    } else {
      var last := more[|more| - 1];
      assert first + more == (first + more[..|more| - 1]) + [last];
      FoldOne(c, first + more[..|more| - 1], last);
      FoldMore(c, first, more[..|more| - 1]);
    }
  }

  /// What the facts tell of a row: all but who started the chain, and the
  /// Passport it acts under.
  function Told(r: Row): Row {
    r.(passport := None, triggeredBy := None)
  }

  /// The copy `c`, carried over the events of `p` not yet handed, tells its row;
  /// the version counts them.
  ghost predicate Tracks(c: Copy, base: nat, p: Aggregate) {
    Told(Fold(c, p.pending).row) == Told(p.row) && p.version == base + |p.pending|
  }

  // ---- every operation is told by the facts it pushes ----

  /// An operation that pushes one event saying what it did.
  lemma OneTold(c: Copy, base: nat, p: Aggregate, q: Aggregate, event: Event, at: Instant)
    requires Tracks(c, base, p)
    requires q == p.With(q.row).Push(event, at)
    requires Told(Replayed(Fold(c, p.pending), Stamped(event, at)).row) == Told(q.row)
    ensures Tracks(c, base, q)
  {
    FoldOne(c, p.pending, Stamped(event, at));
  }

  /// The columns an error, or none, leaves a chain with.
  function ClosedBy(r: Row, error: Option<(string, Option<string>)>, at: Instant): Row {
    if error.None? then Closed(r, Ready, None, None, at) else FailedAs(r, error.value.0, error.value.1, at)
  }

  lemma EndTold(a: Row, b: Row, error: Option<(string, Option<string>)>, at: Instant)
    requires Told(a) == Told(b)
    ensures Told(ClosedBy(a, error, at)) == Told(End(b, error, at))
  {
  }

  lemma ReportDoneTold(c: Copy, base: nat, p: Aggregate, at: Instant)
    requires Tracks(c, base, p)
    ensures Tracks(c, base, ReportDone(p, at))
  {
    EndsTold(c, base, p, None, JobReportedDone(p.row.jobId), at);
  }

  /// An operation that ends the chain, its event telling how.
  lemma EndsTold(c: Copy, base: nat, p: Aggregate, error: Option<(string, Option<string>)>, event: Event, at: Instant)
    requires Tracks(c, base, p)
    requires forall d: Copy {:trigger Replayed(d, Stamped(event, at))} :: Replayed(d, Stamped(event, at)).row == ClosedBy(d.row, error, at)
    ensures Tracks(c, base, p.With(End(p.row, error, at)).Push(event, at))
  {
    EndTold(Fold(c, p.pending).row, p.row, error, at);
    OneTold(c, base, p, p.With(End(p.row, error, at)).Push(event, at), event, at);
  }

  lemma SkipTold(c: Copy, base: nat, p: Aggregate, step: nat, runnerType: string, at: Instant)
    requires Tracks(c, base, p)
    ensures Tracks(c, base, SkipStep(p, step, runnerType, at))
  {
    EndsTold(c, base, p, Some((CANCELLED, None)), StepSkipped(step, runnerType, p.row.jobId), at);
  }

  lemma AbandonTold(c: Copy, base: nat, p: Aggregate, step: nat, runnerType: string, reason: string, at: Instant)
    requires Tracks(c, base, p)
    ensures Tracks(c, base, AbandonStep(p, step, runnerType, reason, at))
  {
    EndsTold(c, base, p, Some((reason, None)), StepAbandoned(step, runnerType, p.row.jobId, reason), at);
  }

  lemma DropTold(c: Copy, base: nat, p: Aggregate, runnerType: string, reason: string, at: Instant)
    requires Tracks(c, base, p)
    ensures Tracks(c, base, DropAwaitedStep(p, runnerType, reason, at))
  {
    EndsTold(c, base, p, Some((reason, None)), AwaitedStepDropped(p.row.stepIndex, runnerType, p.row.jobId, reason), at);
  }

  lemma RequestCancelTold(c: Copy, base: nat, p: Aggregate, at: Instant)
    requires Tracks(c, base, p)
    ensures Tracks(c, base, RequestCancel(p, at))
  {
    OneTold(c, base, p, RequestCancel(p, at), JobCancelSent(p.row.jobId), at);
  }

  lemma CancelOnFreezeTold(c: Copy, base: nat, p: Aggregate, at: Instant)
    requires Tracks(c, base, p)
    ensures Tracks(c, base, CancelOnFreeze(p, at))
  {
    RequestCancelTold(c, base, p, at);
    var q := RequestCancel(p, at);
    EndsTold(c, base, q, Some((CANCELLED, None)), JobCancelledOnFreeze(p.row.jobId), at);
  }

  /// The report and the hold that follows it read back as the job still current,
  /// the chain going on under the priority it had.
  lemma HoldTold(c: Copy, base: nat, p: Aggregate, step: nat, runnerType: string, next: Uuid, at: Instant)
    requires Tracks(c, base, p) && Sound(p.row) && p.row.IsRunning()
    ensures Tracks(c, base, ReportDoneHolding(p, step, runnerType, next, at))
  {
    var reported, held := Stamped(JobReportedDone(p.row.jobId), at), Stamped(NextStepHeld(step, runnerType, next, p.row.jobId), at);
    FoldOne(c, p.pending, reported);
    FoldOne(c, p.pending + [reported], held);
  }

  /// A job created for the chain the row is in.
  lemma CreateJobTold(c: Copy, base: nat, p: Aggregate, jobId: Uuid, step: nat, runnerType: string,
                      triggeredBy: Option<Initiator>, passport: Document, at: Instant)
    requires Tracks(c, base, p)
    ensures Tracks(c, base, S.CreateJob(p, jobId, step, runnerType, p.row.trigger, triggeredBy, passport, at))
  {
    var q := S.CreateJob(p, jobId, step, runnerType, p.row.trigger, triggeredBy, passport, at);
    OneTold(c, base, p, q, JobCreated(jobId, step, runnerType), at);
  }

  /// A start says the trigger and the priority before it says the step.
  lemma StartTold(c: Copy, p: Aggregate, trigger: Trigger, rulesetId: Option<Uuid>, steps: seq<Step>, passport: Document,
                  priority: Option<int>, jobId: Uuid, step: nat, runnerType: string, triggeredBy: Option<Initiator>, at: Instant)
    requires p.pending == []
    requires Told(c.row).(jobCreatedAt := 0, updatedAt := 0) == Told(p.row).(jobCreatedAt := 0, updatedAt := 0)
    ensures var q := StartChain(p, trigger, rulesetId, steps, passport, priority, at);
            && Tracks(c, p.version, S.CreateJob(q, jobId, step, runnerType, Some(trigger), triggeredBy, passport, at))
            && Tracks(c, p.version, AwaitSource(q, jobId, step, runnerType, Some(trigger), triggeredBy, at))
  {
    var started := Stamped(ChainStarted(trigger, rulesetId, steps, priority), at);
    var created, awaited := Stamped(JobCreated(jobId, step, runnerType), at), Stamped(SourceAwaited(step, runnerType, jobId), at);
    FoldOne(c, [], started);
    FoldOne(c, [started], created);
    FoldOne(c, [started], awaited);
  }

  /// A fact either ends the running job, moves its progress, or changes nothing,
  /// and the one event pushed says which.
  lemma ReceiveTold(c: Copy, base: nat, p: Aggregate, jobId: Uuid, sent: Received, at: Instant)
    requires Tracks(c, base, p)
    ensures Tracks(c, base, Receive(p, jobId, sent, at).0)
  {
    var (q, applied) := Receive(p, jobId, sent, at);
    if applied == Applied.Ended {
      EndingTold(c, base, p, jobId, sent, at);
    } else if applied == Progressed {
      ProgressTold(c, base, p, jobId, sent, at);
    } else {
      ReceiveNotes(p, jobId, sent, at);
      var last := q.pending[|p.pending|];
      OneTold(c, base, p, q, last.event, at);
    }
  }

  lemma EndingTold(c: Copy, base: nat, p: Aggregate, jobId: Uuid, sent: Received, at: Instant)
    requires Tracks(c, base, p) && Receive(p, jobId, sent, at).1 == Applied.Ended
    ensures Tracks(c, base, Receive(p, jobId, sent, at).0)
  {
    var error := if sent.JobsFailed? then Some((sent.reasonCode, sent.note))
                 else if sent.Cancelled? then Some((CANCELLED, None)) else Some((sent.reasonCode, None));
    EndsTold(c, base, p, error, sent.AtStorePrecision().AsEvent(jobId), at);
  }

  lemma ProgressTold(c: Copy, base: nat, p: Aggregate, jobId: Uuid, sent: Received, at: Instant)
    requires Tracks(c, base, p) && Receive(p, jobId, sent, at).1 == Progressed
    ensures Tracks(c, base, Receive(p, jobId, sent, at).0)
  {
    OneTold(c, base, p, Receive(p, jobId, sent, at).0, sent.AtStorePrecision().AsEvent(jobId), at);
  }

  lemma NotesChangeNothing(event: Event, at: Instant)
    requires event.JobFactIgnored? || event.JobQueued? || event.JobStarted? || event.JobCompleted?
    ensures forall d: Copy {:trigger Replayed(d, Stamped(event, at))} :: Replayed(d, Stamped(event, at)) == d
  {
  }

  lemma ReceiveNotes(p: Aggregate, jobId: Uuid, sent: Received, at: Instant)
    requires var (q, applied) := Receive(p, jobId, sent, at); applied != Applied.Ended && applied != Progressed
    ensures var q := Receive(p, jobId, sent, at).0;
            && |q.pending| == |p.pending| + 1 && q.row == p.row
            && q == p.Push(q.pending[|p.pending|].event, at)
            && forall d: Copy {:trigger Replayed(d, q.pending[|p.pending|])} :: Replayed(d, q.pending[|p.pending|]) == d
  {
    var event := Receive(p, jobId, sent, at).0.pending[|p.pending|].event;
    NotesChangeNothing(event, at);
  }

  // ---- every gesture ----

  lemma ReportDoneMoveTold(c: Copy, file: C.File, p: Aggregate, minted: Uuid, at: Instant)
    requires Tracks(c, p.version, p) && Sound(p.row) && p.row.IsRunning()
    ensures Tracks(c, p.version, C.ReportDone(file, p, minted, at).processing)
  {
    var next := p.row.stepIndex + 1;
    var q := ReportDone(p, at);
    ReportDoneTold(c, p.version, p, at);
    if C.HasNext(file, p.row) {
      SkipTold(c, p.version, q, next, C.RunnerTypeOf(file, next), at);
      match ChainPassport(p.row.passport)
      case Err(reason) => AbandonTold(c, p.version, q, next, C.RunnerTypeOf(file, next), reason, at);
      case Ok(_) => HoldTold(c, p.version, p, next, C.RunnerTypeOf(file, next), minted, at);
    }
  }

  lemma StartMoveTold(c: Copy, file: C.File, p: Aggregate, rulesetId: Option<Uuid>, trigger: Trigger, initiator: Initiator,
                      passport: Passport, priority: Option<int>, sourcePending: bool, minted: Uuid, at: Instant)
    requires p.pending == []
    requires Told(c.row).(jobCreatedAt := 0, updatedAt := 0) == Told(p.row).(jobCreatedAt := 0, updatedAt := 0)
    ensures var m := C.StartChain(file, p, rulesetId, trigger, initiator, passport, priority, sourcePending, minted, at);
            m.Some? ==> Tracks(c, p.version, m.value.processing)
  {
    StartTold(c, p, trigger, rulesetId, file.steps, Encoded(passport), priority, minted, 0, C.RunnerTypeOf(file, 0),
              Some(initiator), at);
  }

  lemma CancelMoveTold(c: Copy, file: C.File, p: Aggregate, at: Instant)
    requires Tracks(c, p.version, p) && p.row.state == Processing
    ensures Tracks(c, p.version, C.CancelProcessing(file, p, at).value.processing)
  {
    if p.row.awaitingSource {
      DropTold(c, p.version, p, C.RunnerTypeOf(file, p.row.stepIndex), CANCELLED, at);
    } else {
      var q := RequestCancel(p, at);
      RequestCancelTold(c, p.version, p, at);
      if p.row.nextJobId.Some? {
        SkipTold(c, p.version, q, p.row.stepIndex + 1, C.RunnerTypeOf(file, p.row.stepIndex + 1), at);
      }
    }
  }

  lemma FreezeMoveTold(c: Copy, file: C.File, p: Aggregate, at: Instant)
    requires Tracks(c, p.version, p)
    ensures Tracks(c, p.version, C.Freeze(file, p, at).processing)
  {
    if p.row.awaitingSource {
      DropTold(c, p.version, p, C.RunnerTypeOf(file, p.row.stepIndex), CANCELLED, at);
    } else if p.row.nextJobId.Some? {
      SkipTold(c, p.version, p, p.row.stepIndex + 1, C.RunnerTypeOf(file, p.row.stepIndex + 1), at);
    } else {
      CancelOnFreezeTold(c, p.version, p, at);
    }
  }

  lemma FailureMoveTold(c: Copy, p: Aggregate, reason: string, message: Option<string>, at: Instant)
    requires Tracks(c, p.version, p)
    ensures Tracks(c, p.version, C.ReportFailed(p, reason, message, at).processing)
  {
    EndsTold(c, p.version, p, Some((reason, message)), JobReportedFailed(p.row.jobId, reason, message), at);
  }

  /// The Passport taken out of the row is none of what the facts tell.
  lemma TakenTracks(c: Copy, base: nat, p: Aggregate)
    requires Tracks(c, base, p)
    ensures Tracks(c, base, p.With(p.row.(passport := None)))
  {
  }

  /// A step launched, past the plan or not.
  lemma LaunchTold(c: Copy, base: nat, file: C.File, p: Aggregate, index: nat, jobId: Uuid, initiator: Option<Initiator>,
                   passport: Passport, at: Instant)
    requires Tracks(c, base, p)
    ensures var m := C.LaunchStep(file, p, index, jobId, p.row.trigger, initiator, passport, at);
            m.Some? ==> Tracks(c, base, m.value.processing)
  {
    CreateJobTold(c, base, p, jobId, index, C.RunnerTypeOf(file, index), initiator, Encoded(passport), at);
  }

  lemma SkippedMoveTold(c: Copy, base: nat, file: C.File, p: Aggregate, at: Instant)
    requires Tracks(c, base, p) && p.row.nextJobId.Some? && p.row.cancelRequestedAt.Some?
    ensures var m := C.ReleaseNextStep(file, p, at); m.Some? && Tracks(c, base, m.value.processing)
  {
    var next := p.row.stepIndex + 1;
    SkipTold(c, base, p, next, C.RunnerTypeOf(file, next), at);
  }

  lemma TakenMoveTold(c: Copy, base: nat, file: C.File, p: Aggregate, at: Instant)
    requires Tracks(c, base, p) && p.row.nextJobId.Some? && p.row.cancelRequestedAt.None?
    ensures var m := C.ReleaseNextStep(file, p, at); m.Some? ==> Tracks(c, base, m.value.processing)
  {
    TakenTracks(c, base, p);
    HeldMoveTold(c, base, file, p.row.passport, p.With(p.row.(passport := None)), p.row.nextJobId.value, at);
  }

  /// A held step launched, skipped or abandoned, on the row the chain stands on.
  lemma ReleaseMoveTold(c: Copy, base: nat, file: C.File, p: Aggregate, at: Instant)
    requires Tracks(c, base, p) && p.row.nextJobId.Some?
    ensures C.ReleaseNextStep(file, p, at).Some? ==> Tracks(c, base, C.ReleaseNextStep(file, p, at).value.processing)
  {
    if p.row.cancelRequestedAt.Some? {
      SkippedMoveTold(c, base, file, p, at);
    } else {
      TakenMoveTold(c, base, file, p, at);
    }
  }

  lemma HeldMoveTold(c: Copy, base: nat, file: C.File, taken: Option<Document>, p: Aggregate, jobId: Uuid, at: Instant)
    requires Tracks(c, base, p)
    ensures var m := C.HeldStep(file, p, taken, jobId, at); m.Some? ==> Tracks(c, base, m.value.processing)
  {
    var next := p.row.stepIndex + 1;
    match ChainPassport(taken)
    case Err(reason) => AbandonTold(c, base, p, next, C.RunnerTypeOf(file, next), reason, at);
    case Ok(passport) => LaunchTold(c, base, file, p, next, jobId, p.row.triggeredBy, passport, at);
  }

  /// An awaited step launched or dropped.
  lemma PromotedMoveTold(c: Copy, file: C.File, p: Aggregate, at: Instant)
    requires Tracks(c, p.version, p)
    ensures C.SourcePromoted(file, p, at).Some? ==> Tracks(c, p.version, C.SourcePromoted(file, p, at).value.processing)
  {
    var taken := p.With(p.row.(passport := None));
    TakenTracks(c, p.version, p);
    match ChainPassport(p.row.passport)
    case Err(reason) => DropTold(c, p.version, taken, C.RunnerTypeOf(file, p.row.stepIndex), reason, at);
    case Ok(passport) => LaunchTold(c, p.version, file, taken, p.row.stepIndex, p.row.jobId, p.row.triggeredBy, passport, at);
  }

  lemma ReactMoveTold(c: Copy, file: C.File, p: Aggregate, jobId: Uuid, sent: Received, at: Instant)
    requires Tracks(c, p.version, p)
    ensures C.React(file, p, jobId, sent, at).Some? ==> Tracks(c, p.version, C.React(file, p, jobId, sent, at).value.processing)
  {
    ReceiveTold(c, p.version, p, jobId, sent, at);
    var (received, applied) := Receive(p, jobId, sent, at);
    if applied == Released {
      ReleaseMoveTold(c, p.version, file, received, at);
    }
  }
}
