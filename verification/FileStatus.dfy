/// A file's status as its reads see it: built from its processing in memory, or
/// from the stored columns when the file is loaded.
module FileStatus {
  import opened Common
  import opened Contract
  import S = ProcessingState

  /// What the last job's reads need, as `{kind, ...}` entries.
  datatype Entry =
    | PlanDeclared(steps: seq<string>)
    | StepStarted(index: int, caption: string, startedAt: Instant)
    | CancelRequested(at: Instant)
    | ReportedDone
    | AwaitingSource

  datatype RunProgress = RunProgress(plan: seq<string>, index: Option<int>, caption: Option<string>, at: Option<Instant>)

  datatype Job = Job(jobId: Uuid, stepIndex: nat, trigger: Option<S.Trigger>, triggeredBy: Option<Initiator>,
                     events: seq<Entry>, createdAt: Instant)
  {
    predicate IsReportedDone() {
      exists entry :: entry in events && entry.ReportedDone?
    }

    predicate IsAwaitingSource() {
      exists entry :: entry in events && entry.AwaitingSource?
    }

    predicate IsCancelRequested() {
      exists entry :: entry in events && entry.CancelRequested?
    }

    /// The plan declared last, and the latest step: by its instant, then its index.
    function Progress(): RunProgress {
      var step := Latest(events);
      RunProgress(LastPlan(events),
               if step.Some? then Some(step.value.index) else None,
               if step.Some? then Some(step.value.caption) else None,
               if step.Some? then Some(step.value.startedAt) else None)
    }
  }

  function LastPlan(entries: seq<Entry>): seq<string> {
    if entries == [] then []
    else if entries[|entries| - 1].PlanDeclared? then entries[|entries| - 1].steps
    else LastPlan(entries[..|entries| - 1])
  }

  /// The order of steps.
  predicate NotAfter(a: Entry, b: Entry)
    requires a.StepStarted? && b.StepStarted?
  {
    a.startedAt < b.startedAt || (a.startedAt == b.startedAt && a.index <= b.index)
  }

  /// The greatest step of `entries`, the last one of equals.
  function Latest(entries: seq<Entry>): (latest: Option<Entry>)
    ensures latest.Some? ==> latest.value in entries && latest.value.StepStarted?
    ensures forall entry :: entry in entries && entry.StepStarted? ==> latest.Some? && NotAfter(entry, latest.value)
  {
    if entries == [] then None
    else
      var before, last := Latest(entries[..|entries| - 1]), entries[|entries| - 1];
      if last.StepStarted? && (before.None? || NotAfter(before.value, last)) then Some(last) else before
  }

  /// What the reads know of a running job.
  datatype RunningFacts = RunningFacts(plan: Option<seq<string>>, step: Option<(int, string, Instant)>,
                                       cancelRequestedAt: Option<Instant>, reportedDone: bool, awaitingSource: bool)
  {
    function Entries(): seq<Entry> {
      (if awaitingSource then [AwaitingSource] else [])
      + (if reportedDone then [ReportedDone] else if plan.Some? then [PlanDeclared(plan.value)] else [])
      + (if step.Some? && !reportedDone then [StepStarted(step.value.0, step.value.1, step.value.2)] else [])
      + (if cancelRequestedAt.Some? then [CancelRequested(cancelRequestedAt.value)] else [])
    }
  }

  const NO_FACTS := RunningFacts(None, None, None, false, false)

  datatype Status = Status(state: S.State, error: Option<string>, lastJob: Option<Job>) {
    /// The job a cancel or a freeze is about.
    function ProcessingJob(): Option<Job> {
      if state == S.Processing then lastJob else None
    }

    /// The job running now: neither reported done with a step held, nor awaiting the source.
    function ActiveJob(): Option<Job> {
      var job := ProcessingJob();
      if job.Some? && !job.value.IsReportedDone() && !job.value.IsAwaitingSource() then job else None
    }

    /// A runner's call is about the running job.
    predicate RequireActiveJob(job: Uuid) {
      ActiveJob().Some? && ActiveJob().value.jobId == job
    }
  }

  const REQUESTED := Status(S.Pending, None, None)

  /// The status of a processing in memory.
  function StatusOf(r: S.Row): Status {
    var facts :=
      if r.state == S.Processing then
        RunningFacts(r.plan,
                     if r.planAt.Some? then Some((r.planIndex.GetOr(0), r.planLabel.GetOr(""), r.planAt.value)) else None,
                     r.cancelRequestedAt, r.nextJobId.Some?, r.awaitingSource)
      else NO_FACTS;
    Status(r.state, r.errorCode,
           Some(Job(r.jobId, r.stepIndex, r.trigger, r.triggeredBy, facts.Entries(), r.jobCreatedAt)))
  }

  /// The status read back from the file's row joined with its processing's, if any.
  function Reloaded(committed: bool, stored: Option<S.Row>): Status {
    var state := if stored.Some? then stored.value.state else if committed then S.Ready else S.Pending;
    var lastJob :=
      match stored
      case None => None
      case Some(row) =>
        var step := if row.planAt.Some? then Some((row.planIndex.GetOr(0), row.planLabel.GetOr(""), row.planAt.value)) else None;
        var facts :=
          if state == S.Processing
          then RunningFacts(row.plan, step, row.cancelRequestedAt, row.nextJobId.Some?, row.awaitingSource)
          else NO_FACTS;
        Some(Job(row.jobId, row.stepIndex, row.trigger, row.triggeredBy, facts.Entries(), row.jobCreatedAt));
    Status(state, if stored.Some? then stored.value.errorCode else None, lastJob)
  }

  /// A reload of a processed file reads as its processing in memory does: its state,
  /// its error and its last job. A file never processed is READY once committed.
  lemma ReloadSays(committed: bool, r: S.Row)
    ensures Reloaded(committed, Some(r)) == StatusOf(r)
    ensures Reloaded(committed, None) == Status(if committed then S.Ready else S.Pending, None, None)
    ensures var status := StatusOf(r);
            && status.state == r.state && status.error == r.errorCode && status.lastJob.Some?
            && var job := status.lastJob.value;
               && job.jobId == r.jobId && job.stepIndex == r.stepIndex && job.trigger == r.trigger
               && job.triggeredBy == r.triggeredBy && job.createdAt == r.jobCreatedAt
               && (r.state != S.Processing ==> job.events == [])
    ensures StatusOf(r).ProcessingJob().Some? <==> r.state == S.Processing
  {
  }

  // ---- the entries say what the row says ----

  lemma EntriesSay(r: S.Row)
    requires r.state == S.Processing
    ensures var job := StatusOf(r).lastJob.value;
            && (job.IsReportedDone() <==> r.nextJobId.Some?)
            && (job.IsAwaitingSource() <==> r.awaitingSource)
            && (job.IsCancelRequested() <==> r.cancelRequestedAt.Some?)
  {
    var events := StatusOf(r).lastJob.value.events;
    if r.nextJobId.Some? {
      assert ReportedDone in events;
    }
    if r.awaitingSource {
      assert AwaitingSource in events;
    }
    if r.cancelRequestedAt.Some? {
      assert events[|events| - 1] == CancelRequested(r.cancelRequestedAt.value);
    }
  }

  /// The runner's gate, read through the entries, opens for a job exactly when
  /// the state machine has it running.
  lemma GateOpensForTheRunningJob(r: S.Row, job: Uuid)
    ensures StatusOf(r).RequireActiveJob(job) <==> r.IsRunning() && r.jobId == job
  {
    if r.state == S.Processing {
      EntriesSay(r);
    }
  }

  /// A running job's progress reads as its row's plan and latest step; a job
  /// reported done, or an ended one, shows none.
  lemma ProgressReadsBack(r: S.Row)
    ensures var progress := StatusOf(r).lastJob.value.Progress();
            if r.state == S.Processing && r.nextJobId.None? then
              && progress.plan == r.plan.GetOr([])
              && progress.at == r.planAt
              && (r.planAt.Some? ==> progress.index == Some(r.planIndex.GetOr(0)) && progress.caption == Some(r.planLabel.GetOr("")))
            else progress == RunProgress([], None, None, None)
  {
    var events := StatusOf(r).lastJob.value.events;
    ProgressOfFour(if r.awaitingSource && r.state == S.Processing then [AwaitingSource] else [],
                   if r.state != S.Processing then [] else if r.nextJobId.Some? then [ReportedDone]
                   else if r.plan.Some? then [PlanDeclared(r.plan.value)] else [],
                   if r.state == S.Processing && r.planAt.Some? && r.nextJobId.None?
                   then [StepStarted(r.planIndex.GetOr(0), r.planLabel.GetOr(""), r.planAt.value)] else [],
                   if r.state == S.Processing && r.cancelRequestedAt.Some? then [CancelRequested(r.cancelRequestedAt.value)] else []);
  }

  lemma ProgressOfFour(a: seq<Entry>, b: seq<Entry>, c: seq<Entry>, d: seq<Entry>)
    requires a == [] || a == [AwaitingSource]
    requires |b| <= 1 && (b != [] ==> !b[0].StepStarted?)
    requires |c| <= 1 && (c != [] ==> c[0].StepStarted?)
    requires |d| <= 1 && (d != [] ==> d[0].CancelRequested?)
    ensures Latest(a + b + c + d) == if c == [] then None else Some(c[0])
    ensures LastPlan(a + b + c + d) == if b != [] && b[0].PlanDeclared? then b[0].steps else []
  {
    assert [] + a == a;
    OneMore([], a);
    assert Latest(a) == None && LastPlan(a) == [];
    OneMore(a, b);
    assert Latest(a + b) == None;
    OneMore(a + b, c);
    assert Latest(a + b + c) == (if c == [] then None else Some(c[0])) && LastPlan(a + b + c) == LastPlan(a + b);
    OneMore(a + b + c, d);
  }

  /// What one entry, or none, adds to the progress.
  lemma OneMore(entries: seq<Entry>, more: seq<Entry>)
    requires |more| <= 1
    ensures Latest(entries + more) ==
              if more != [] && more[0].StepStarted? && (Latest(entries).None? || NotAfter(Latest(entries).value, more[0]))
              then Some(more[0]) else Latest(entries)
    ensures LastPlan(entries + more) == if more != [] && more[0].PlanDeclared? then more[0].steps else LastPlan(entries)
  {
    if more == [] {
      assert entries + more == entries;
    } else {
      assert (entries + more)[..|entries|] == entries;
    }
  }
}
