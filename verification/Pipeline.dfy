/// The gestures and reactions that drive a chain, step by step: each leaves in the
/// tables, the facts and the outbox what its turn of the chain says.
module Pipeline {
  import opened Common
  import opened Contract
  import opened Transaction
  import opened FileProcessings
  import S = ProcessingState
  import C = Chain
  import J = JobsLedger
  import F = FileStatus
  import L = FactLog
  import E = CleanUp
  import opened GestureLaws

  /// The engine's state of a blob landed or awaited, and not verified yet.
  const PENDING := "pending"

  /// A processing row is stored with its version.
  ghost predicate Joined(cx: Ops, file: Uuid)
    reads cx, cx.tables
  {
    file in cx.rows <==> L.OfProcessing(file) in cx.tables.log.versions
  }

  /// The file's processing as stored, or a blank one.
  function Stored(rows: map<Uuid, S.Row>, log: L.Log, file: Uuid, at: Instant): S.Aggregate {
    S.Aggregate(if file in rows then rows[file] else S.Blank(at), L.Stored(log, L.OfProcessing(file)), [])
  }

  method LoadProcessing(cx: Ops, file: FileRow, at: Instant) returns (processing: FileProcessing)
    requires Joined(cx, file.id)
    ensures fresh(processing) && processing.Value() == Stored(cx.rows, cx.tables.log, file.id, at)
    ensures InStep(cx, file, processing)
  {
    if file.id in cx.rows {
      processing := new FileProcessing(file.id, cx.rows[file.id], L.Stored(cx.tables.log, L.OfProcessing(file.id)));
    } else {
      processing := new FileProcessing(file.id, S.Blank(at), 0);
    }
  }

  // ---- the steps of a chain ----

  method LaunchStep(cx: Ops, file: FileRow, processing: FileProcessing, index: nat, jobId: Uuid,
                    trigger: Option<S.Trigger>, initiator: Option<Initiator>, passport: Passport, at: Instant)
    returns (launched: bool)
    modifies cx`commands, processing
    ensures var m := C.LaunchStep(file.File(), old(processing.Value()), index, jobId, trigger, initiator, passport, at);
            && launched == m.Some?
            && processing.Value() == (if launched then m.value.processing else old(processing.Value()))
            && cx.commands == old(cx.commands) + if launched then m.value.commands else []
  {
    var steps := file.steps.GetOr([]);
    if index >= |steps| {
      return false;
    }
    var priority := processing.row.priority;
    processing.CreateJob(jobId, index, steps[index].runnerType, trigger, initiator, Encoded(passport), at);
    cx.Stage(JobCreate(CreateJob(jobId, steps[index].runnerType, file.service, index, steps[index].options,
                                 Some(Encoded(passport)), TriggeredByOf(passport, initiator), None,
                                 Some(file.service), Some(file.id), priority)));
    return true;
  }

  method SkipNextStep(cx: Ops, file: FileRow, processing: FileProcessing, next: nat, at: Instant)
    requires InStep(cx, file, processing)
    modifies cx`rows, cx.tables, file`status, file`updatedAt, processing
    ensures Now(cx) == Committed(old(Now(cx)), file.id, C.Move(C.SkipNextStep(file.File(), old(processing.Value()), next, at), []))
    ensures ReadsTrue(cx, file)
  {
    processing.SkipStep(next, C.RunnerTypeOf(file.File(), next), at);
    SaveProcessing(cx, file, processing);
  }

  method AbandonNextStep(cx: Ops, file: FileRow, processing: FileProcessing, next: nat, reason: string, at: Instant)
    requires InStep(cx, file, processing)
    modifies cx`rows, cx.tables, file`status, file`updatedAt, processing
    ensures Now(cx) == Committed(old(Now(cx)), file.id,
                                 C.Move(C.AbandonNextStep(file.File(), old(processing.Value()), next, reason, at), []))
    ensures ReadsTrue(cx, file)
  {
    processing.AbandonStep(next, C.RunnerTypeOf(file.File(), next), reason, at);
    SaveProcessing(cx, file, processing);
  }

  method DropAwaitedStep(cx: Ops, file: FileRow, processing: FileProcessing, reason: string, at: Instant)
    requires InStep(cx, file, processing)
    modifies cx`rows, cx.tables, file`status, file`updatedAt, processing
    ensures Now(cx) == Committed(old(Now(cx)), file.id,
                                 C.Move(C.DropAwaitedStep(file.File(), old(processing.Value()), reason, at), []))
    ensures ReadsTrue(cx, file)
  {
    processing.DropAwaitedStep(C.RunnerTypeOf(file.File(), processing.row.stepIndex), reason, at);
    SaveProcessing(cx, file, processing);
  }

  /// The engine has yet to promote the file's source. Promoted, failed or unknown
  /// to it, a source is not waited for.
  predicate SourcePending(cx: Ops, file: FileRow)
    reads cx`sources
  {
    IsPending(cx.sources, file.id)
  }

  predicate IsPending(sources: map<Uuid, string>, file: Uuid) {
    file in sources && sources[file] == PENDING
  }

  /// Starts the chain the file's plan asks for; refused on a plan without a step.
  method Start(cx: Ops, file: FileRow, processing: FileProcessing, rulesetId: Option<Uuid>, trigger: S.Trigger,
               initiator: Initiator, passport: Passport, priority: Option<int>, minted: Uuid, at: Instant) returns (started: bool)
    requires file.steps.Some?
    modifies cx`commands, processing
    ensures var m := C.StartChain(file.File(), old(processing.Value()), rulesetId, trigger, initiator, passport, priority,
                                  SourcePending(cx, file), minted, at);
            && started == m.Some?
            && cx.commands == old(cx.commands) + (if started then m.value.commands else [])
            && (started ==> processing.Value() == m.value.processing)
    ensures processing.Value().Base() == old(processing.Value().Base())
  {
    processing.StartChain(trigger, rulesetId, file.steps.value, Encoded(passport), priority, at);
    if file.steps.value == [] {
      return false;
    }
    started := FirstStep(cx, file, processing, trigger, initiator, passport, minted, at);
  }

  method FirstStep(cx: Ops, file: FileRow, processing: FileProcessing, trigger: S.Trigger, initiator: Initiator,
                   passport: Passport, minted: Uuid, at: Instant) returns (launched: bool)
    modifies cx`commands, processing
    ensures var m := C.FirstStep(file.File(), old(processing.Value()), trigger, initiator, passport, SourcePending(cx, file),
                                 minted, at);
            && launched == m.Some?
            && cx.commands == old(cx.commands) + (if launched then m.value.commands else [])
            && (launched ==> processing.Value() == m.value.processing)
    ensures processing.Value().Base() == old(processing.Value().Base())
  {
    if SourcePending(cx, file) {
      processing.AwaitSource(minted, 0, C.RunnerTypeOf(file.File(), 0), Some(trigger), Some(initiator), at);
      return true;
    }
    launched := LaunchStep(cx, file, processing, 0, minted, Some(trigger), Some(initiator), passport, at);
  }

  /// A gesture starts a chain: the plan becomes the file's snapshot, and its
  /// first step a job, or a step awaiting the source.
  method StartChain(cx: Ops, file: FileRow, steps: seq<Step>, rulesetId: Option<Uuid>, trigger: S.Trigger,
                    initiator: Initiator, passport: Passport, priority: Option<int>, minted: Uuid, at: Instant)
    returns (started: bool)
    requires Joined(cx, file.id) && file.version == L.Stored(cx.tables.log, L.OfFile(file.id)) + |file.pending|
    modifies cx`rows, cx`plans, cx`commands, cx.tables, file`steps, file`pending, file`status, file`updatedAt
    ensures file.steps == Some(steps) && cx.plans == old(cx.plans)[file.id := steps]
    ensures var p := old(Stored(cx.rows, cx.tables.log, file.id, at));
            var m := C.StartChain(file.File(), p, rulesetId, trigger, initiator, passport, priority,
                                  SourcePending(cx, file), minted, at);
            && started == m.Some?
            && Now(cx) == (if started then Committed(old(Saved(cx, file)), file.id, m.value) else old(Saved(cx, file)))
            && (started ==> ReadsTrue(cx, file))
    ensures started <==> steps != []
    ensures started ==> StartedFrom(old(Now(cx)), Now(cx), file.File(), minted, passport, initiator, priority)
  {
    started := StoreStart(cx, file, steps, rulesetId, trigger, initiator, passport, priority, minted, at);
    MoveIsStarted(old(Now(cx)), old(Saved(cx, file)), file.File(), old(Stored(cx.rows, cx.tables.log, file.id, at)), rulesetId,
                  trigger, initiator, passport, priority, minted, at);
  }

  method StoreStart(cx: Ops, file: FileRow, steps: seq<Step>, rulesetId: Option<Uuid>, trigger: S.Trigger,
                    initiator: Initiator, passport: Passport, priority: Option<int>, minted: Uuid, at: Instant)
    returns (started: bool)
    requires Joined(cx, file.id) && file.version == L.Stored(cx.tables.log, L.OfFile(file.id)) + |file.pending|
    modifies cx`rows, cx`plans, cx`commands, cx.tables, file`steps, file`pending, file`status, file`updatedAt
    ensures file.steps == Some(steps) && cx.plans == old(cx.plans)[file.id := steps]
    ensures var p := old(Stored(cx.rows, cx.tables.log, file.id, at));
            var m := C.StartChain(file.File(), p, rulesetId, trigger, initiator, passport, priority,
                                  SourcePending(cx, file), minted, at);
            && started == m.Some?
            && Now(cx) == (if started then Committed(old(Saved(cx, file)), file.id, m.value) else old(Saved(cx, file)))
            && (started ==> ReadsTrue(cx, file))
  {
    file.steps := Some(steps);
    SaveFile(cx, file);
    assert Now(cx) == old(Saved(cx, file));
    var processing := LoadProcessing(cx, file, at);
    assert processing.Value() == old(Stored(cx.rows, cx.tables.log, file.id, at));
    started := Start(cx, file, processing, rulesetId, trigger, initiator, passport, priority, minted, at);
    if started {
      SaveProcessing(cx, file, processing);
    }
  }

  /// Step 0 waits exactly for a source the engine has as "pending"; any other, or one
  /// it has no blob of, is not waited for, and Jobs is asked for the step.
  predicate StartedFrom(o: Outcome, t: Outcome, file: C.File, minted: Uuid, passport: Passport, initiator: Initiator,
                        priority: Option<int>)
  {
    var waits := file.id in o.sources && o.sources[file.id] == "pending";
    && file.id in t.rows && t.rows[file.id].jobId == minted && t.rows[file.id].stepIndex == 0
    && t.rows[file.id].awaitingSource == waits
    && if waits then t.commands == o.commands
       else |t.commands| == |o.commands| + 1 && t.commands[..|o.commands|] == o.commands
            && Asks(file, t.commands[|o.commands|], 0, minted, passport, Some(initiator), priority)
  }

  lemma MoveIsStarted(o: Outcome, saved: Outcome, file: C.File, p: S.Aggregate, rulesetId: Option<Uuid>, trigger: S.Trigger,
                      initiator: Initiator, passport: Passport, priority: Option<int>, minted: Uuid, at: Instant)
    requires saved.sources == o.sources && saved.commands == o.commands
    ensures var m := C.StartChain(file, p, rulesetId, trigger, initiator, passport, priority, IsPending(o.sources, file.id),
                                  minted, at);
            && (m.Some? <==> file.steps != [])
            && (m.Some? ==> StartedFrom(o, Committed(saved, file.id, m.value), file, minted, passport, initiator, priority))
  {
    StartAsks(file, p, rulesetId, trigger, initiator, passport, priority, IsPending(o.sources, file.id), minted, at);
  }

  /// The tables once the file itself is saved.
  function Saved(cx: Ops, file: FileRow): Outcome
    reads cx, cx.tables, file`pending
  {
    Now(cx).(log := L.Written(cx.tables.log, L.Saves(L.OfFile(file.id), file.pending)))
  }

  /// The reported job has a next step: it is held, or the chain stops before it.
  method HoldOrStop(cx: Ops, file: FileRow, processing: FileProcessing, minted: Uuid, at: Instant)
    requires InStep(cx, file, processing) && C.HasNext(file.File(), processing.row)
    modifies cx`rows, cx.tables, file`status, file`updatedAt, processing
    ensures Now(cx) == Committed(old(Now(cx)), file.id,
                                 C.Move(C.ReportDone(file.File(), old(processing.Value()), minted, at).processing, []))
    ensures ReadsTrue(cx, file)
  {
    var next := processing.row.stepIndex + 1;
    if processing.row.cancelRequestedAt.Some? {
      processing.ReportDone(at);
      SkipNextStep(cx, file, processing, next, at);
      return;
    }
    match ChainPassport(processing.row.passport) {
      case Err(reason) =>
        processing.ReportDone(at);
        AbandonNextStep(cx, file, processing, next, reason, at);
      case Ok(_) =>
        processing.ReportDoneHolding(next, C.RunnerTypeOf(file.File(), next), minted, at);
        SaveProcessing(cx, file, processing);
    }
  }

  /// The last step is reported: the chain is concluded.
  method EndChain(cx: Ops, file: FileRow, processing: FileProcessing, at: Instant)
    returns (trimmed: seq<int>, dropped: seq<string>)
    requires InStep(cx, file, processing) && E.Loaded(cx, file) && E.WellStored(cx)
    modifies cx`rows, cx`plans, cx`pages, cx.tables, cx.blobs, file`version, file`pending, file`status, file`updatedAt, processing
    ensures Now(cx) == Committed(old(Now(cx)).(log := E.Dropped(E.Trimmed(old(cx.tables.log), file.id, trimmed), file.id, dropped)),
                                 file.id, C.Move(S.ReportDone(old(processing.Value()), at), []))
    ensures E.CleanedUp(file.id, file.indexing.pageCount, old(cx.pages), old(cx.blobs.shelf), trimmed, dropped, cx.pages, cx.blobs.shelf)
    ensures ReadsTrue(cx, file) && E.WellStored(cx)
  {
    processing.ReportDone(at);
    trimmed, dropped := E.Conclude(cx, file, at);
    SaveProcessing(cx, file, processing);
  }

  /// The runner's final report on the running job. Past the last step the chain
  /// is concluded first.
  method ReportDone(cx: Ops, file: FileRow, processing: FileProcessing, minted: Uuid, at: Instant)
    returns (trimmed: seq<int>, dropped: seq<string>)
    requires InStep(cx, file, processing) && E.Loaded(cx, file) && E.WellStored(cx)
    modifies cx`rows, cx`plans, cx`pages, cx`commands, cx.tables, cx.blobs, file`version, file`pending, file`status, file`updatedAt, processing
    ensures var m := C.ReportDone(file.File(), old(processing.Value()), minted, at);
            Now(cx) == Committed(old(Now(cx)).(log := E.Dropped(E.Trimmed(old(cx.tables.log), file.id, trimmed), file.id, dropped)),
                                 file.id, m)
    ensures cx.commands == old(cx.commands) + [JobFinish(old(processing.row.jobId))]
    ensures if C.HasNext(file.File(), old(processing.row))
            then trimmed == [] && dropped == [] && cx.pages == old(cx.pages) && cx.blobs.shelf == old(cx.blobs.shelf)
            else E.CleanedUp(file.id, file.indexing.pageCount, old(cx.pages), old(cx.blobs.shelf), trimmed, dropped,
                             cx.pages, cx.blobs.shelf)
    ensures ReadsTrue(cx, file) && E.WellStored(cx)
  {
    trimmed, dropped := [], [];
    E.NothingTrimmed(cx.tables.log, file.id);
    var next := processing.row.stepIndex + 1;
    cx.Stage(JobFinish(processing.row.jobId));
    if !(file.steps.Some? && next < |file.steps.value|) {
      trimmed, dropped := EndChain(cx, file, processing, at);
      return;
    }
    HoldOrStop(cx, file, processing, minted, at);
  }

  /// Jobs ended the reported job. A fault (nothing held, or a plan too short)
  /// stages and saves nothing.
  method ReleaseNextStep(cx: Ops, file: FileRow, processing: FileProcessing, at: Instant) returns (released: bool)
    requires InStep(cx, file, processing)
    modifies cx`rows, cx`commands, cx.tables, file`status, file`updatedAt, processing
    ensures var m := C.ReleaseNextStep(file.File(), old(processing.Value()), at);
            && released == m.Some?
            && Now(cx) == (if released then Committed(old(Now(cx)), file.id, m.value) else old(Now(cx)))
            && (released ==> ReadsTrue(cx, file))
  {
    if processing.row.nextJobId.None? {
      return false;
    }
    var job, next := processing.row.nextJobId.value, processing.row.stepIndex + 1;
    if processing.row.cancelRequestedAt.Some? {
      assert C.ReleaseNextStep(file.File(), processing.Value(), at)
             == Some(C.Move(C.SkipNextStep(file.File(), processing.Value(), next, at), []));
      SkipNextStep(cx, file, processing, next, at);
      return true;
    }
    var stored := processing.TakePassport();
    assert processing.Value() == old(processing.Value()).With(old(processing.row).(passport := None));
    released := ReleaseHeld(cx, file, processing, stored, job, at);
  }

  method ReleaseHeld(cx: Ops, file: FileRow, processing: FileProcessing, taken: Option<Document>, job: Uuid, at: Instant)
    returns (released: bool)
    requires InStep(cx, file, processing)
    modifies cx`rows, cx`commands, cx.tables, file`status, file`updatedAt, processing
    ensures var m := C.HeldStep(file.File(), old(processing.Value()), taken, job, at);
            && released == m.Some?
            && Now(cx) == (if released then Committed(old(Now(cx)), file.id, m.value) else old(Now(cx)))
            && (released ==> ReadsTrue(cx, file))
  {
    var next, passport := processing.row.stepIndex + 1, ChainPassport(taken);
    ghost var m := C.HeldStep(file.File(), processing.Value(), taken, job, at);
    if passport.Err? {
      assert m == Some(C.Move(C.AbandonNextStep(file.File(), processing.Value(), next, passport.error, at), []));
      AbandonNextStep(cx, file, processing, next, passport.error, at);
      return true;
    }
    assert m == C.LaunchStep(file.File(), processing.Value(), next, job, processing.row.trigger, processing.row.triggeredBy,
                             passport.value, at);
    released := LaunchAndSave(cx, file, processing, next, job, passport.value, at);
  }

  /// A step of the chain under way launched, and stored.
  method LaunchAndSave(cx: Ops, file: FileRow, processing: FileProcessing, index: nat, job: Uuid, passport: Passport,
                       at: Instant) returns (launched: bool)
    requires InStep(cx, file, processing)
    modifies cx`rows, cx`commands, cx.tables, file`status, file`updatedAt, processing
    ensures var p := old(processing.Value());
            var m := C.LaunchStep(file.File(), p, index, job, p.row.trigger, p.row.triggeredBy, passport, at);
            && launched == m.Some?
            && Now(cx) == (if launched then Committed(old(Now(cx)), file.id, m.value) else old(Now(cx)))
            && (launched ==> ReadsTrue(cx, file))
  {
    launched := LaunchStep(cx, file, processing, index, job, processing.row.trigger, processing.row.triggeredBy, passport,
                           at);
    if launched {
      SaveProcessing(cx, file, processing);
    }
  }

  method ReleaseAwaitedStep(cx: Ops, file: FileRow, processing: FileProcessing, at: Instant) returns (released: bool)
    requires InStep(cx, file, processing)
    modifies cx`rows, cx`commands, cx.tables, file`status, file`updatedAt, processing
    ensures var m := C.ReleaseAwaitedStep(file.File(), old(processing.Value()), at);
            && released == m.Some?
            && Now(cx) == (if released then Committed(old(Now(cx)), file.id, m.value) else old(Now(cx)))
            && (released ==> ReadsTrue(cx, file))
  {
    var index := processing.row.stepIndex;
    var stored := processing.TakePassport();
    match ChainPassport(stored) {
      case Err(reason) =>
        DropAwaitedStep(cx, file, processing, reason, at);
        return true;
      case Ok(passport) =>
        released := LaunchAndSave(cx, file, processing, index, processing.row.jobId, passport, at);
    }
  }

  method ReportFailed(cx: Ops, file: FileRow, processing: FileProcessing, reason: string, message: Option<string>, at: Instant)
    requires InStep(cx, file, processing)
    modifies cx`rows, cx`commands, cx.tables, file`status, file`updatedAt, processing
    ensures Now(cx) == Committed(old(Now(cx)), file.id, C.ReportFailed(old(processing.Value()), reason, message, at))
    ensures cx.commands == old(cx.commands) + [JobFail(old(processing.row.jobId),
                                                       if message.Some? then reason + ": " + message.value else reason)]
    ensures file.id in cx.rows && OverAsItWas(old(processing.row), cx.rows[file.id], Some(reason), message, at)
    ensures ReadsTrue(cx, file)
  {
    var job := processing.row.jobId;
    FailureSays(processing.Value(), reason, message, at);
    processing.ReportFailed(reason, message, at);
    var note := match message case Some(text) => reason + ": " + text case None => reason;
    cx.Stage(JobFail(job, note));
    SaveProcessing(cx, file, processing);
  }

  // ---- a user's cancel, a promotion, a fact ----

  /// A user's cancel, refused on a file that does not process.
  method CancelProcessing(cx: Ops, file: FileRow, at: Instant) returns (done: bool)
    requires Joined(cx, file.id)
    requires file.status == F.Reloaded(file.committedAt.Some?, if file.id in cx.rows then Some(cx.rows[file.id]) else None)
    modifies cx`rows, cx`commands, cx.tables, file`status, file`updatedAt
    ensures var m := C.CancelProcessing(file.File(), old(Stored(cx.rows, cx.tables.log, file.id, at)), at);
            && done == m.Some?
            && Now(cx) == (if done then Committed(old(Now(cx)), file.id, m.value) else old(Now(cx)))
            && (done ==> ReadsTrue(cx, file))
    ensures done <==> old(file.id in cx.rows && cx.rows[file.id].state == S.Processing)
    ensures done ==> CancelledFrom(old(Now(cx)), Now(cx), file.id, at)
  {
    if file.status.state != S.Processing || file.status.ProcessingJob().None? {
      return false;
    }
    var job := file.status.ProcessingJob().value.jobId;
    var processing := LoadProcessing(cx, file, at);
    MoveIsCancelled(Now(cx), file.File(), processing.Value(), at);
    Cancel(cx, file, processing, job, at);
    return true;
  }

  method Cancel(cx: Ops, file: FileRow, processing: FileProcessing, job: Uuid, at: Instant)
    requires InStep(cx, file, processing) && processing.row.state == S.Processing && processing.row.jobId == job
    modifies cx`rows, cx`commands, cx.tables, file`status, file`updatedAt, processing
    ensures Now(cx) == Committed(old(Now(cx)), file.id, C.CancelProcessing(file.File(), old(processing.Value()), at).value)
    ensures ReadsTrue(cx, file)
  {
    if processing.row.awaitingSource {
      DropAwaitedStep(cx, file, processing, S.CANCELLED, at);
      return;
    }
    processing.RequestCancel(at);
    cx.Stage(JobCancel(job));
    if processing.row.nextJobId.Some? {
      SkipNextStep(cx, file, processing, processing.row.stepIndex + 1, at);
      return;
    }
    SaveProcessing(cx, file, processing);
  }

  /// Jobs is asked to cancel the file's job, unless its step awaits the source; a held
  /// or awaiting file is FAILED `cancelled`; the first cancel of a running job is shown.
  predicate CancelledFrom(o: Outcome, t: Outcome, file: Uuid, at: Instant) {
    && file in o.rows && file in t.rows
    && var r := o.rows[file];
       && t.commands == o.commands + (if r.awaitingSource then [] else [JobCancel(r.jobId)])
       && (r.awaitingSource || r.nextJobId.Some? ==> Over(r, t.rows[file], Some("cancelled"), None, at))
       && (!r.awaitingSource ==> CancelShown(r, t.rows[file], at))
  }

  lemma MoveIsCancelled(o: Outcome, file: C.File, p: S.Aggregate, at: Instant)
    requires file.id in o.rows && p.row == o.rows[file.id] && p.row.state == S.Processing
    ensures var m := C.CancelProcessing(file, p, at);
            m.Some? && CancelledFrom(o, Committed(o, file.id, m.value), file.id, at)
  {
    CancelSays(file, p, at);
  }

  /// The reaction to the source's promotion.
  method OnSourcePromoted(cx: Ops, file: FileRow, at: Instant) returns (done: bool)
    requires Joined(cx, file.id)
    modifies cx`rows, cx`commands, cx.tables, file`status, file`updatedAt
    ensures var p := old(Stored(cx.rows, cx.tables.log, file.id, at));
            if old(file.id !in cx.rows) || !p.row.awaitingSource then done && Now(cx) == old(Now(cx)) && file.status == old(file.status)
            else var m := C.SourcePromoted(file.File(), p, at);
                 && done == m.Some?
                 && Now(cx) == (if done then Committed(old(Now(cx)), file.id, m.value) else old(Now(cx)))
                 && (done ==> ReadsTrue(cx, file))
  {
    if file.id !in cx.rows {
      return true;
    }
    var processing := LoadProcessing(cx, file, at);
    if !processing.row.awaitingSource {
      return true;
    }
    done := ReleaseAwaitedStep(cx, file, processing, at);
  }

  /// The reaction to a Jobs fact about `job`, with what a refused creation cancels.
  method OnFact(cx: Ops, file: FileRow, job: Uuid, sent: S.Received, at: Instant) returns (done: bool)
    requires Joined(cx, file.id)
    modifies cx`rows, cx`commands, cx.tables, file`status, file`updatedAt
    ensures var p := old(Stored(cx.rows, cx.tables.log, file.id, at));
            if old(file.id !in cx.rows) || !p.row.Knows(job) then done && Now(cx) == old(Now(cx))
            else var m := C.React(file.File(), p, job, sent, at);
                 && done == m.Some?
                 && (done ==> Now(cx) == Committed(old(Now(cx)), file.id, m.value) && ReadsTrue(cx, file))
                 && (!done ==> Now(cx) == old(Now(cx)))
  {
    if file.id !in cx.rows || !cx.rows[file.id].Knows(job) {
      return true;
    }
    var processing := LoadProcessing(cx, file, at);
    var applied := processing.Receive(job, sent, at);
    done := OnceReceived(cx, file, processing, sent, applied, at);
  }

  /// The fact is recorded: the held step is released, or what moved is saved.
  method OnceReceived(cx: Ops, file: FileRow, processing: FileProcessing, sent: S.Received, applied: S.Applied, at: Instant)
    returns (done: bool)
    requires InStep(cx, file, processing)
    modifies cx`rows, cx`commands, cx.tables, file`status, file`updatedAt, processing
    ensures var m := C.OnceReceived(file.File(), old(processing.Value()), sent, applied, at);
            && done == m.Some?
            && Now(cx) == (if done then Committed(old(Now(cx)), file.id, m.value) else old(Now(cx)))
            && (done ==> ReadsTrue(cx, file))
  {
    if applied == S.Released {
      done := ReleaseNextStep(cx, file, processing, at);
      return;
    }
    SaveProcessing(cx, file, processing);
    CancelDuplicate(cx, file, sent, applied);
    return true;
  }

  /// On a duplicate, the live job Jobs names is cancelled.
  method CancelDuplicate(cx: Ops, file: FileRow, sent: S.Received, applied: S.Applied)
    modifies cx`commands
    ensures cx.commands == old(cx.commands) + C.AfterFact(file.File(), sent, applied)
  {
    if applied == S.Applied.Ended && sent.CreationRejected? && sent.reasonCode == J.DUPLICATE_ACTIVE_ENTITY {
      var active := C.ActiveJobOf(sent.params, file.File());
      if active.Some? {
        cx.Stage(JobCancel(active.value));
      }
    }
  }
}
