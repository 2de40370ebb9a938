/// What the library asks of Jobs and what it tells the host are one: over every run
/// each command staged has its fact, and a held step its job's finish.
module CommandsTold {
  import opened Common
  import opened Contract
  import opened Protocol
  import opened ProtocolInvariant
  import opened ProtocolSteps
  import opened ProtocolTheorems
  import opened GestureLaws
  import S = ProcessingState
  import C = Chain

  // ---- one gesture ----

  /// The runner's final report tells Jobs the job is finished, whatever the chain does next.
  lemma FinishIsSent(w: World, job: Uuid, minted: Uuid, at: Instant)
    requires Reached(w) && Enabled(w, Library(RunnerReportsDone(job, minted, at)))
    ensures var v := Next(w, Library(RunnerReportsDone(job, minted, at)));
            v.sent == w.sent + {JobFinish(job)} && v.creates == w.creates
  {
    DoneAsks(w.File(), w.Load(at), minted, at);
    NothingStaged([JobFinish(job)], w.chain, |w.steps|);
  }

  /// A declared failure tells Jobs the job failed, and why.
  lemma FailureIsSent(w: World, job: Uuid, reason: string, message: Option<string>, at: Instant)
    requires Reached(w) && Enabled(w, Library(RunnerReportsFailure(job, reason, message, at)))
    ensures var v := Next(w, Library(RunnerReportsFailure(job, reason, message, at)));
            && v.sent == w.sent + {JobFail(job, if message.Some? then reason + ": " + message.value else reason)}
            && v.creates == w.creates && v.row.Some? && Over(w.row.value, v.row.value, Some(reason), message, at)
  {
    FailureSays(w.Load(at), reason, message, at);
    NothingStaged(C.ReportFailed(w.Load(at), reason, message, at).commands, w.chain, |w.steps|);
  }

  /// Where a processing file stands in its plan.
  lemma WithinThePlan(w: World, r: S.Row)
    requires Inv(w) && w.row == Some(r) && r.state == S.Processing
    ensures r.stepIndex < |w.steps| && (r.nextJobId.Some? ==> r.stepIndex + 1 < |w.steps|)
    ensures r.nextJobId.Some? ==> r.nextJobId.value != r.jobId && !r.awaitingSource && r.cancelRequestedAt.None?
  {
  }

  lemma CancelledIs(w: World, at: Instant)
    requires GestureEnabled(w, UserCancels(at))
    ensures Next(w, Library(UserCancels(at))) == CommitIf(w.(closed := true), C.CancelProcessing(w.File(), w.Load(at), at))
  {
  }

  /// What a cancel leaves once committed.
  lemma CancelCommits(v: World, file: C.File, p: S.Aggregate, at: Instant)
    requires p.row.state == S.Processing && (p.row.nextJobId.Some? ==> !p.row.awaitingSource)
    ensures var u, r := CommitIf(v, C.CancelProcessing(file, p, at)), p.row;
            && u.creates == v.creates && u.row.Some?
            && u.sent == v.sent + (if r.awaitingSource then {} else {JobCancel(r.jobId)})
            && (r.awaitingSource || r.nextJobId.Some? ==> Over(r, u.row.value, Some("cancelled"), None, at))
            && (!r.awaitingSource ==> CancelShown(r, u.row.value, at))
            && (r.IsRunning() ==> u.row.value.IsRunning() && u.row.value.jobId == r.jobId)
  {
    CancelSays(file, p, at);
    QuietCommit(v, C.CancelProcessing(file, p, at).value);
  }

  /// A user's cancel asks Jobs to cancel the file's job, unless its step still awaits
  /// the source. A held or awaiting file is FAILED `cancelled` at once; a running one
  /// runs on, the first cancel shown.
  lemma CancelIsSent(w: World, at: Instant)
    requires Reached(w) && Enabled(w, Library(UserCancels(at)))
    ensures var v, r := Next(w, Library(UserCancels(at))), w.row.value;
            && v.creates == w.creates && v.row.Some?
            && v.sent == w.sent + (if r.awaitingSource then {} else {JobCancel(r.jobId)})
            && (r.awaitingSource || r.nextJobId.Some? ==> Over(r, v.row.value, Some("cancelled"), None, at))
            && (!r.awaitingSource ==> CancelShown(r, v.row.value, at))
            && (r.IsRunning() ==> v.row.value.IsRunning() && v.row.value.jobId == r.jobId)
  {
    ReachedHolds(w);
    WithinThePlan(w, w.row.value);
    CancelledIs(w, at);
    CancelCommits(w.(closed := true), w.File(), w.Load(at), at);
  }

  lemma FreezeCommits(v: World, file: C.File, p: S.Aggregate, at: Instant)
    requires p.row.state == S.Processing
    ensures var u, r := Commit(v, C.Freeze(file, p, at)), p.row;
            && u.creates == v.creates && u.row.Some? && Over(r, u.row.value, Some("cancelled"), None, at)
            && u.sent == v.sent + (if r.IsRunning() then {JobCancel(r.jobId)} else {})
  {
    FreezeSays(file, p, at);
    QuietCommit(v, C.Freeze(file, p, at));
  }

  /// A freeze asks Jobs to cancel a running job only, and the file is FAILED `cancelled`.
  lemma FreezeIsSent(w: World, at: Instant)
    requires Reached(w) && Enabled(w, Library(HostFreezes(at)))
    ensures var v, r := Next(w, Library(HostFreezes(at))), w.row.value;
            && v.creates == w.creates && v.row.Some? && Over(r, v.row.value, Some("cancelled"), None, at)
            && v.sent == w.sent + (if r.IsRunning() then {JobCancel(r.jobId)} else {})
  {
    ReachedHolds(w);
    WithinThePlan(w, w.row.value);
    FrozenIs(w, at);
    FreezeCommits(w.(closed := true), w.File(), w.Load(at), at);
  }

  // ---- every command has its fact ----

  function EventsOf(log: seq<S.Stamped>): seq<S.Event> {
    seq(|log|, i requires 0 <= i < |log| => log[i].event)
  }

  datatype Job = Job(id: Uuid, step: nat, runnerType: string)

  /// The jobs created, as the facts tell them.
  function Created(events: seq<S.Event>): seq<Job> {
    if events == [] then []
    else
      var last := events[|events| - 1];
      Created(events[..|events| - 1]) + if last.JobCreated? then [Job(last.jobId, last.stepIndex, last.runnerType)] else []
  }

  function JobOf(create: CreateJob): Job {
    Job(create.jobId, create.step, create.runnerType)
  }

  /// ... and as the outbox asks them.
  function Asked(creates: seq<Staged>): seq<Job> {
    seq(|creates|, i requires 0 <= i < |creates| => JobOf(creates[i].create))
  }

  function Note(reason: string, message: Option<string>): string {
    if message.Some? then reason + ": " + message.value else reason
  }

  /// Who told of a failure, and in what words.
  ghost predicate Declared(events: seq<S.Event>, job: Uuid, note: string) {
    exists reason, message {:trigger S.JobReportedFailed(job, reason, message)} ::
      note == Note(reason, message) && S.JobReportedFailed(job, reason, message) in events
  }

  /// A `job.finish` for exactly the jobs reported done, a `job.fail` for exactly the
  /// failures declared, a `job.cancel` for each cancel told.
  ghost predicate Matches(events: seq<S.Event>, sent: set<Command>) {
    && (forall job :: JobFinish(job) in sent <==> S.JobReportedDone(job) in events)
    && (forall job, note :: JobFail(job, note) in sent <==> Declared(events, job, note))
    && (forall job :: S.JobCancelSent(job) in events ==> JobCancel(job) in sent)
  }

  ghost predicate Told(w: World) {
    && Matches(EventsOf(w.log), w.sent)
    && Created(EventsOf(w.log)) == Asked(w.creates)
    && (w.row.Some? && w.row.value.nextJobId.Some? ==> JobFinish(w.row.value.jobId) in w.sent)
  }

  /// What one move adds: its events, its commands, and the held step it leaves.
  ghost predicate MoveTold(r: S.Row, m: C.Move) {
    var events, t := EventsOf(m.processing.pending), m.processing.row;
    && Matches(events, OthersIn(m.commands))
    && Created(events) == AskedIn(m.commands)
    && (t.nextJobId.Some? ==> JobFinish(t.jobId) in m.commands || (r.nextJobId.Some? && t.jobId == r.jobId))
  }

  function AskedIn(commands: seq<Command>): seq<Job> {
    if commands == [] then []
    else (if commands[0].JobCreate? then [JobOf(commands[0].create)] else []) + AskedIn(commands[1..])
  }

  // ---- one more move keeps them ----

  lemma MatchesMore(events: seq<S.Event>, more: seq<S.Event>, sent: set<Command>, also: set<Command>)
    requires Matches(events, sent) && Matches(more, also)
    ensures Matches(events + more, sent + also)
  {
    forall job, note
      ensures Declared(events + more, job, note) <==> Declared(events, job, note) || Declared(more, job, note)
    {
      DeclaredMore(events, more, job, note);
    }
  }

  lemma DeclaredMore(events: seq<S.Event>, more: seq<S.Event>, job: Uuid, note: string)
    ensures Declared(events + more, job, note) <==> Declared(events, job, note) || Declared(more, job, note)
  {
    assert forall event :: event in events + more <==> event in events || event in more;
  }

  lemma {:induction false} CreatedMore(events: seq<S.Event>, more: seq<S.Event>)
    ensures Created(events + more) == Created(events) + Created(more)
  {
    if more == [] {
      assert events + more == events;
    } else {
      var first, last := more[..|more| - 1], more[|more| - 1];
      assert (events + more)[..|events + more| - 1] == events + first;
      CreatedMore(events, first);
      ConcatInOne(Created(events), Created(first), if last.JobCreated? then [Job(last.jobId, last.stepIndex, last.runnerType)] else []);
    }
  }

  lemma AskedMore(creates: seq<Staged>, more: seq<Staged>)
    ensures Asked(creates + more) == Asked(creates) + Asked(more)
  {
  }

  lemma {:induction false} StagedIsAsked(commands: seq<Command>, chain: nat, length: nat)
    ensures Asked(CreatesIn(commands, chain, length)) == AskedIn(commands)
  {
    if commands != [] {
      var first := if commands[0].JobCreate? then [Staged(commands[0].create, chain, length)] else [];
      StagedIsAsked(commands[1..], chain, length);
      AskedMore(first, CreatesIn(commands[1..], chain, length));
    }
  }

  lemma EventsMore(log: seq<S.Stamped>, more: seq<S.Stamped>)
    ensures EventsOf(log + more) == EventsOf(log) + EventsOf(more)
  {
  }

  lemma CommitTold(w: World, v: World, r: S.Row, m: C.Move)
    requires Told(w) && MoveTold(r, m)
    requires v.log == w.log && v.sent == w.sent && v.creates == w.creates
    requires r.nextJobId.Some? ==> JobFinish(r.jobId) in w.sent
    ensures Told(Commit(v, m))
  {
    var events, more := EventsOf(w.log), EventsOf(m.processing.pending);
    EventsMore(w.log, m.processing.pending);
    MatchesMore(events, more, w.sent, OthersIn(m.commands));
    CreatedMore(events, more);
    StagedIsAsked(m.commands, v.chain, |v.steps|);
    AskedMore(w.creates, CreatesIn(m.commands, v.chain, |v.steps|));
  }

  // ---- each gesture's move ----

  /// Events that tell of no command.
  predicate Quiet(event: S.Event) {
    !event.JobReportedDone? && !event.JobReportedFailed? && !event.JobCancelSent? && !event.JobCreated?
  }

  lemma QuietTold(r: S.Row, m: C.Move)
    requires forall event :: event in EventsOf(m.processing.pending) ==> Quiet(event)
    requires forall command :: command in m.commands ==> command.JobCancel?
    requires m.processing.row.nextJobId.Some? ==> r.nextJobId.Some? && m.processing.row.jobId == r.jobId
    ensures MoveTold(r, m)
  {
    NothingCreated(EventsOf(m.processing.pending));
    NothingAsked(m.commands);
  }

  lemma {:induction false} NothingCreated(events: seq<S.Event>)
    requires forall event :: event in events ==> !event.JobCreated?
    ensures Created(events) == []
  {
    if events != [] {
      var first := events[..|events| - 1];
      assert forall event :: event in first ==> event in events;
      assert events[|events| - 1] in events;
      NothingCreated(first);
    }
  }

  lemma {:induction false} NothingAsked(commands: seq<Command>)
    requires forall command :: command in commands ==> !command.JobCreate?
    ensures AskedIn(commands) == []
  {
    if commands != [] {
      NothingAsked(commands[1..]);
    }
  }

  lemma TellsThese(p: S.Aggregate, q: S.Aggregate, events: seq<S.Event>, at: Instant)
    requires Tells(p, q, events, at)
    ensures EventsOf(q.pending) == EventsOf(p.pending) + events
  {
  }

  lemma DoneTold(file: C.File, p: S.Aggregate, minted: Uuid, at: Instant)
    requires p.pending == []
    ensures MoveTold(p.row, C.ReportDone(file, p, minted, at))
  {
    var m, done, next := C.ReportDone(file, p, minted, at), S.JobReportedDone(p.row.jobId), p.row.stepIndex + 1;
    DoneSays(file, p, minted, at);
    DoneAsks(file, p, minted, at);
    OneDone(p.row, m);
  }

  /// A `job.finish` for the one job reported done, whatever event comes after.
  lemma OneDone(r: S.Row, m: C.Move)
    requires m.commands == [JobFinish(r.jobId)] && m.processing.row.jobId == r.jobId
    requires var events := EventsOf(m.processing.pending);
             && 1 <= |events| <= 2 && events[0] == S.JobReportedDone(r.jobId) && (|events| == 2 ==> Quiet(events[1]))
    ensures MoveTold(r, m)
  {
    var events := EventsOf(m.processing.pending);
    assert forall event :: event in events ==> event == events[0] || Quiet(event);
    NothingCreated(events);
  }

  lemma FailureTold(p: S.Aggregate, reason: string, message: Option<string>, at: Instant)
    requires p.pending == []
    ensures MoveTold(p.row, C.ReportFailed(p, reason, message, at))
  {
    FailureSays(p, reason, message, at);
    var m, event := C.ReportFailed(p, reason, message, at), S.JobReportedFailed(p.row.jobId, reason, message);
    TellsThese(p, m.processing, [event], at);
    assert EventsOf(m.processing.pending) == [event];
    assert [event][..0] == [];
    assert Declared([event], p.row.jobId, Note(reason, message));
  }

  /// A `job.cancel` for the one cancel told, whatever event comes after.
  lemma OneCancel(r: S.Row, m: C.Move)
    requires m.commands == [JobCancel(r.jobId)]
    requires m.processing.row.nextJobId.Some? ==> r.nextJobId.Some? && m.processing.row.jobId == r.jobId
    requires var events := EventsOf(m.processing.pending);
             && 1 <= |events| <= 2 && events[0] == S.JobCancelSent(r.jobId) && (|events| == 2 ==> Quiet(events[1]))
    ensures MoveTold(r, m)
  {
    var events := EventsOf(m.processing.pending);
    assert forall event :: event in events ==> event == events[0] || Quiet(event);
    NothingCreated(events);
  }

  lemma CancelTold(file: C.File, p: S.Aggregate, at: Instant)
    requires p.pending == [] && p.row.state == S.Processing
    ensures var m := C.CancelProcessing(file, p, at); m.Some? && MoveTold(p.row, m.value)
  {
    CancelSays(file, p, at);
    var m := C.CancelProcessing(file, p, at).value;
    if p.row.awaitingSource {
      QuietTold(p.row, m);
    } else {
      OneCancel(p.row, m);
    }
  }

  lemma FreezeTold(file: C.File, p: S.Aggregate, at: Instant)
    requires p.pending == []
    ensures MoveTold(p.row, C.Freeze(file, p, at))
  {
    FreezeSays(file, p, at);
    var m := C.Freeze(file, p, at);
    if p.row.awaitingSource || p.row.nextJobId.Some? {
      QuietTold(p.row, m);
    } else {
      OneCancel(p.row, m);
    }
  }

  /// A `job.create` for the one job told, which comes last.
  lemma OneCreate(r: S.Row, m: C.Move)
    requires |m.commands| == 1 && m.commands[0].JobCreate? && m.processing.row.nextJobId.None?
    requires var events := EventsOf(m.processing.pending);
             var create := m.commands[0].create;
             && 1 <= |events| <= 2 && (|events| == 2 ==> Quiet(events[0]))
             && events[|events| - 1] == S.JobCreated(create.jobId, create.step, create.runnerType)
    ensures MoveTold(r, m)
  {
    var events := EventsOf(m.processing.pending);
    var first := events[..|events| - 1];
    assert forall event :: event in events ==> Quiet(event) || event.JobCreated?;
    assert first == [] || first == [events[0]];
    NothingCreated(first);
    assert AskedIn(m.commands[1..]) == [];
  }

  lemma StartToldOf(file: C.File, p: S.Aggregate, rulesetId: Option<Uuid>, trigger: S.Trigger, initiator: Initiator,
                    passport: Passport, priority: Option<int>, sourcePending: bool, minted: Uuid, at: Instant)
    requires p.pending == [] && p.row.jobId != minted
    ensures var m := C.StartChain(file, p, rulesetId, trigger, initiator, passport, priority, sourcePending, minted, at);
            m.Some? ==> MoveTold(p.row, m.value)
  {
    StartSays(file, p, rulesetId, trigger, initiator, passport, priority, sourcePending, minted, at);
    var m := C.StartChain(file, p, rulesetId, trigger, initiator, passport, priority, sourcePending, minted, at);
    if m.Some? {
      if sourcePending {
        QuietTold(p.row, m.value);
      } else {
        OneCreate(p.row, m.value);
      }
    }
  }

  lemma PromotionTold(file: C.File, p: S.Aggregate, at: Instant)
    requires p.pending == [] && (p.row.awaitingSource ==> p.row.stepIndex < |file.steps|)
    ensures var m := C.SourcePromoted(file, p, at); m.Some? && MoveTold(p.row, m.value)
  {
    PromotionSays(file, p, at);
    var m := C.SourcePromoted(file, p, at).value;
    if p.row.awaitingSource && p.row.passport.Some? && p.row.passport.value.Encoded? {
      OneCreate(p.row, m);
    } else {
      QuietTold(p.row, m);
    }
  }

  /// A fact recorded pushes one event, of no command.
  lemma RecordedIsQuiet(p: S.Aggregate, jobId: Uuid, sent: S.Received, at: Instant)
    ensures var (q, applied) := S.Receive(p, jobId, sent, at);
            && |q.pending| == |p.pending| + 1 && p.pending <= q.pending && Quiet(q.pending[|p.pending|].event)
            && (q.row.nextJobId.Some? ==> p.row.nextJobId.Some? && q.row.jobId == p.row.jobId)
            && (applied.Released? ==> q.row == p.row && jobId == p.row.jobId && p.row.nextJobId.Some?)
  {
  }

  lemma ReactionTold(file: C.File, p: S.Aggregate, jobId: Uuid, sent: S.Received, at: Instant)
    requires p.pending == []
    requires p.row.nextJobId.Some? ==> p.row.stepIndex + 1 < |file.steps| && p.row.nextJobId.value != p.row.jobId
    ensures var m := C.React(file, p, jobId, sent, at); m.Some? && MoveTold(p.row, m.value)
  {
    RecordedIsQuiet(p, jobId, sent, at);
    var (q, applied) := S.Receive(p, jobId, sent, at);
    if applied.Released? {
      ReleaseTold(file, q, at);
    } else {
      QuietTold(p.row, C.React(file, p, jobId, sent, at).value);
    }
  }

  /// A release, after the fact that asks for it.
  lemma ReleaseTold(file: C.File, p: S.Aggregate, at: Instant)
    requires |p.pending| == 1 && Quiet(p.pending[0].event)
    requires p.row.nextJobId.Some? && p.row.stepIndex + 1 < |file.steps| && p.row.nextJobId.value != p.row.jobId
    ensures var m := C.ReleaseNextStep(file, p, at); m.Some? && MoveTold(p.row, m.value)
  {
    ReleaseSays(file, p, at);
    var m := C.ReleaseNextStep(file, p, at).value;
    if p.row.cancelRequestedAt.None? && p.row.passport.Some? && p.row.passport.value.Encoded? {
      OneCreate(p.row, m);
    } else {
      QuietTold(p.row, m);
    }
  }

  // ---- over every run ----

  lemma MovedIsToldToJobs(w: World, g: Gesture)
    requires Inv(w) && GestureEnabled(w, g) && Moved(w, g).Some?
    ensures MoveTold(w.Load(0).row, Moved(w, g).value)
  {
    if g.CommitStart? {
      StartIsToldToJobs(w, g);
    } else if g.FactDelivered? {
      FactIsToldToJobs(w, g);
    } else if g.PromotionDelivered? {
      PromotionIsToldToJobs(w, g);
    } else {
      OwnMoveIsToldToJobs(w, g);
    }
  }

  /// The row a gesture reads tells the same of the held step as the stored one.
  predicate ReadsAs(w: World, r: S.Row) {
    if w.row.Some? then r == w.row.value else r.nextJobId.None?
  }

  lemma MoveToldOfRead(w: World, r: S.Row, m: C.Move)
    requires ReadsAs(w, r) && MoveTold(r, m)
    ensures MoveTold(w.Load(0).row, m)
  {
  }

  lemma StartIsToldToJobs(w: World, g: Gesture)
    requires Inv(w) && GestureEnabled(w, g) && g.CommitStart? && Moved(w, g).Some?
    ensures MoveTold(w.Load(0).row, Moved(w, g).value)
  {
    StartIsFresh(w, g);
    StartToldOf(C.File(w.service, w.fileId, g.steps), w.Load(g.at), g.rulesetId, g.trigger, g.initiator, g.passport, g.priority,
                w.opening.sourcePending, g.minted, g.at);
    MoveToldOfRead(w, w.Load(g.at).row, Moved(w, g).value);
  }

  lemma FactIsToldToJobs(w: World, g: Gesture)
    requires Inv(w) && GestureEnabled(w, g) && g.FactDelivered? && Moved(w, g).Some?
    ensures MoveTold(w.Load(0).row, Moved(w, g).value)
  {
    HeldIsWithinThePlan(w, w.row.value);
    ReactionTold(w.File(), w.Load(g.at), g.fact.jobId, g.fact.received, g.at);
    MoveToldOfRead(w, w.row.value, Moved(w, g).value);
  }

  lemma PromotionIsToldToJobs(w: World, g: Gesture)
    requires Inv(w) && GestureEnabled(w, g) && g.PromotionDelivered? && Moved(w, g).Some?
    ensures MoveTold(w.Load(0).row, Moved(w, g).value)
  {
    HeldIsWithinThePlan(w, w.row.value);
    PromotionTold(w.File(), w.Load(g.at), g.at);
    MoveToldOfRead(w, w.row.value, Moved(w, g).value);
  }

  lemma HeldIsWithinThePlan(w: World, r: S.Row)
    requires Inv(w) && w.row == Some(r)
    ensures r.nextJobId.Some? ==> r.stepIndex + 1 < |w.steps| && r.nextJobId.value != r.jobId
    ensures r.awaitingSource ==> r.stepIndex < |w.steps|
  {
    if r.state == S.Processing {
      WithinThePlan(w, r);
    }
  }

  lemma OwnMoveIsToldToJobs(w: World, g: Gesture)
    requires Inv(w) && GestureEnabled(w, g) && Moved(w, g).Some?
    requires g.RunnerReportsDone? || g.RunnerReportsFailure? || g.UserCancels? || g.HostFreezes?
    ensures MoveTold(w.Load(0).row, Moved(w, g).value)
  {
    WithinThePlan(w, w.row.value);
    match g {
      case RunnerReportsDone(_, minted, at) => DoneTold(w.File(), w.Load(at), minted, at);
      case RunnerReportsFailure(_, reason, message, at) => FailureTold(w.Load(at), reason, message, at);
      case UserCancels(at) => CancelTold(w.File(), w.Load(at), at);
      case HostFreezes(at) => FreezeTold(w.File(), w.Load(at), at);
    }
    MoveToldOfRead(w, w.row.value, Moved(w, g).value);
  }

  lemma AsideTold(w: World, v: World)
    requires Told(w) && v.log == w.log && v.creates == w.creates && w.sent <= v.sent
    requires forall command :: command in v.sent && command !in w.sent ==> command.JobCancel?
    requires v.row.Some? && v.row.value.nextJobId.Some? ==>
               w.row.Some? && w.row.value.nextJobId.Some? && w.row.value.jobId == v.row.value.jobId
    ensures Told(v)
  {
  }

  lemma GestureTold(w: World, g: Gesture)
    requires Inv(w) && Told(w) && GestureEnabled(w, g)
    ensures Told(CommitIf(Beside(w, g), Moved(w, g)))
  {
    BesideTold(w, g);
    if Moved(w, g).Some? {
      MovedIsToldToJobs(w, g);
      CommitTold(w, Beside(w, g), w.Load(0).row, Moved(w, g).value);
    }
  }

  lemma BesideTold(w: World, g: Gesture)
    requires Told(w) && GestureEnabled(w, g)
    ensures var v := Beside(w, g); Told(v) && v.log == w.log && v.sent == w.sent && v.creates == w.creates
  {
    AsideTold(w, Beside(w, g));
  }

  lemma EventTold(w: World, e: Event)
    requires Told(w) && EventEnabled(w, e)
    ensures Told(AfterEvent(w, e))
  {
    AsideTold(w, AfterEvent(w, e));
  }

  lemma DoingTold(w: World, d: Doing)
    requires Told(w) && DoingEnabled(w, d)
    ensures Told(AfterDoing(w, d))
  {
    AsideTold(w, AfterDoing(w, d));
  }

  lemma StepTold(w: World, a: Action)
    requires Inv(w) && Told(w) && Enabled(w, a)
    ensures Told(Next(w, a))
  {
    match a
    case Library(g) => GestureTold(w, g);
    case Around(e) => EventTold(w, e);
    case Jobs(d) => DoingTold(w, d);
  }

  lemma {:induction false} RunTold(w: World, actions: seq<Action>)
    requires Inv(w) && Told(w) && Runs(w, actions)
    ensures Told(After(w, actions))
    decreases |actions|
  {
    if actions != [] {
      StepKeeps(w, actions[0]);
      StepTold(w, actions[0]);
      RunTold(Next(w, actions[0]), actions[1..]);
    }
  }

  /// In every run the facts and the commands are one: a `job.create` for each job
  /// told, in their order; a `job.finish` for exactly the jobs reported done, a
  /// `job.fail` for exactly the failures declared; a `job.cancel` for each cancel told.
  lemma CommandsAreTold(w: World)
    requires Reached(w)
    ensures Matches(EventsOf(w.log), w.sent) && Created(EventsOf(w.log)) == Asked(w.creates)
  {
    ReachedIsTold(w);
  }

  /// In every run a held step waits for a job Jobs was told is finished.
  lemma HeldWasFinished(w: World)
    requires Reached(w)
    ensures w.row.Some? && w.row.value.nextJobId.Some? ==> JobFinish(w.row.value.jobId) in w.sent
  {
    ReachedIsTold(w);
  }

  lemma ReachedIsTold(w: World)
    requires Reached(w)
    ensures Told(w)
  {
    var start, actions :| Initial(start) && Runs(start, actions) && After(start, actions) == w;
    InitialHolds(start);
    RunTold(start, actions);
  }
}
