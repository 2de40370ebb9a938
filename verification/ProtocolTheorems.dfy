/// What holds of every run of the library against Jobs.
module ProtocolTheorems {
  import opened Common
  import opened Contract
  import opened Protocol
  import opened ProtocolInvariant
  import opened ProtocolSteps
  import S = ProcessingState
  import C = Chain
  import J = JobsLedger
  import L = LateFacts

  /// The worlds some run reaches.
  ghost predicate Reached(w: World) {
    exists start, actions {:trigger After(start, actions)} :: Initial(start) && Runs(start, actions) && After(start, actions) == w
  }

  lemma {:induction false} RunKeeps(w: World, actions: seq<Action>)
    requires Inv(w) && Runs(w, actions)
    ensures Inv(After(w, actions))
    decreases |actions|
  {
    if actions != [] {
      StepKeeps(w, actions[0]);
      RunKeeps(Next(w, actions[0]), actions[1..]);
    }
  }

  lemma ReachedHolds(w: World)
    requires Reached(w)
    ensures Inv(w)
  {
    var start, actions :| Initial(start) && Runs(start, actions) && After(start, actions) == w;
    InitialHolds(start);
    RunKeeps(start, actions);
  }

  // ---- hand-off ----

  /// In every run, a step after the first is asked of Jobs right after the step
  /// before it, whose job Jobs accepted and made terminal; Jobs never refuses it
  /// because the file is taken.
  lemma HandOffIsSafe(w: World, i: nat)
    requires Reached(w) && i < |w.creates| && w.creates[i].create.step > 0
    ensures i > 0
    ensures var before := w.creates[i - 1];
            && before.chain == w.creates[i].chain && before.create.step + 1 == w.creates[i].create.step
            && before.create.jobId in w.jobs.held && w.jobs.held[before.create.jobId].terminal
    ensures w.creates[i].create.jobId in w.jobs.rejections ==>
              w.jobs.rejections[w.creates[i].create.jobId].reasonCode != J.DUPLICATE_ACTIVE_ENTITY
  {
    ReachedHolds(w);
    assert HandedOff(w.creates, w.read, w.jobs, i);
  }

  lemma BesideAsksNothing(w: World, g: Gesture)
    requires GestureEnabled(w, g)
    ensures var v := Beside(w, g); v.creates == w.creates && v.jobs == w.jobs && v.read == w.read
  {
  }

  lemma CommitAppends(w: World, moved: Option<C.Move>)
    ensures var v := CommitIf(w, moved); w.creates <= v.creates && v.jobs == w.jobs && v.read == w.read
  {
  }

  lemma GesturesStage(w: World, g: Gesture)
    requires GestureEnabled(w, g)
    ensures var v := Next(w, Library(g)); w.creates <= v.creates && v.jobs == w.jobs && v.read == w.read
  {
    BesideAsksNothing(w, g);
    CommitAppends(Beside(w, g), Moved(w, g));
  }

  lemma EventsStageNothing(w: World, e: Event)
    requires EventEnabled(w, e)
    ensures AfterEvent(w, e).creates == w.creates
  {
  }

  lemma JobsStagesNothing(w: World, d: Doing)
    requires DoingEnabled(w, d)
    ensures AfterDoing(w, d).creates == w.creates
  {
  }

  /// Nothing staged is withdrawn, and only a gesture stages.
  lemma OnlyGesturesStage(w: World, a: Action)
    requires Enabled(w, a)
    ensures w.creates <= Next(w, a).creates
    ensures if a.Library? then Next(w, a).jobs == w.jobs && Next(w, a).read == w.read else Next(w, a).creates == w.creates
  {
    match a
    case Library(g) => GesturesStage(w, g);
    case Around(e) => EventsStageNothing(w, e);
    case Jobs(d) => JobsStagesNothing(w, d);
  }

  /// When a gesture stages a step after the first, Jobs has read everything
  /// staged before it and holds no live job of the file.
  lemma NextStepIsStagedOnAFreeFile(w: World, a: Action, i: nat)
    requires Reached(w) && Enabled(w, a)
    requires |w.creates| <= i < |Next(w, a).creates| && Next(w, a).creates[i].create.step > 0
    ensures i == |w.creates| == w.read && i > 0
    ensures forall job :: job in w.jobs.held ==> w.jobs.held[job].terminal
    ensures w.creates[i - 1].create.jobId in w.jobs.held
  {
    ReachedHolds(w);
    StepKeeps(w, a);
    OnlyGesturesStage(w, a);
    var v := Next(w, a);
    assert HandedOff(v.creates, v.read, v.jobs, i);
  }

  lemma OneLive(creates: seq<Staged>, read: nat, jobs: J.Jobs, source: J.Source, a: Uuid, b: Uuid)
    requires Verdicts(creates, read, jobs, source) && J.Live(jobs.held, a) && J.Live(jobs.held, b)
    ensures a == b
  {
    var i :| 0 <= i < read && i < |creates| && creates[i].create.jobId == a;
    var j :| 0 <= j < read && j < |creates| && creates[j].create.jobId == b;
  }

  /// Jobs never holds two live jobs of the file.
  lemma OneLiveJob(w: World, a: Uuid, b: Uuid)
    requires Reached(w) && J.Live(w.jobs.held, a) && J.Live(w.jobs.held, b)
    ensures a == b
  {
    ReachedHolds(w);
    OneLive(w.creates, w.read, w.jobs, J.Source(w.service, w.fileId), a, b);
  }

  /// Jobs refuses what the library asks only for a retired runner type, or a
  /// first step while an earlier job of the very file still lives; it then names
  /// that job, which the file's row recognises.
  lemma WhyJobsRefuses(w: World)
    requires Reached(w) && w.read < |w.creates|
    ensures var create := w.creates[w.read].create;
            var verdict := J.Judge(w.jobs, create);
            verdict.Some? ==>
              || verdict.value.reasonCode == J.RUNNER_TYPE_RETIRED
              || (&& verdict.value.reasonCode == J.DUPLICATE_ACTIVE_ENTITY && create.step == 0
                  && C.ActiveJobOf(verdict.value.params, w.File()).Some?
                  && var active := C.ActiveJobOf(verdict.value.params, w.File()).value;
                     J.Live(w.jobs.held, active) && (w.row.Some? ==> w.row.value.Knows(active)))
  {
    ReachedHolds(w);
    var create := w.creates[w.read].create;
    NextVerdict(w);
    J.LibraryCreatesAreRefusedOnlyForTheirPlace(w.jobs, create);
    assert forall job :: job in w.jobs.held ==> InFirst(w.creates, w.read, job);
  }

  /// A move that stages nothing, committed.
  lemma QuietCommit(v: World, m: C.Move)
    requires C.StagesNothing(m)
    ensures Commit(v, m) ==
              v.(row := Some(m.processing.row), log := v.log + m.processing.pending, sent := v.sent + OthersIn(m.commands))
  {
    NothingStaged(m.commands, v.chain, |v.steps|);
  }

  /// A move that asks for one step, committed.
  lemma LaunchCommit(v: World, m: C.Move)
    requires |m.commands| == 1 && m.commands[0].JobCreate?
    ensures Commit(v, m) ==
              v.(row := Some(m.processing.row), log := v.log + m.processing.pending,
                 creates := v.creates + [Staged(m.commands[0].create, v.chain, |v.steps|)])
  {
    OneStaged(m.commands, v.chain, |v.steps|);
    assert v.sent + OthersIn(m.commands) == v.sent;
  }

  lemma FrozenIs(w: World, at: Instant)
    requires GestureEnabled(w, HostFreezes(at))
    ensures Next(w, Library(HostFreezes(at))) == Commit(w.(closed := true), C.Freeze(w.File(), w.Load(at), at))
  {
  }

  lemma FreezeTurns(w: World, at: Instant)
    requires Seat(w) && GestureEnabled(w, HostFreezes(at))
    ensures var m := C.Freeze(w.File(), w.Load(at), at); C.StagesNothing(m) && m.processing.row.state != S.Processing
  {
    C.StopTurns(w.File(), w.Load(at), "", None, at);
  }

  /// What a freeze leaves of a running file: settled, Jobs and the outbox as they were.
  lemma FreezeLeavesJobs(w: World, at: Instant)
    requires Seat(w) && Enabled(w, Library(HostFreezes(at)))
    ensures var v := Next(w, Library(HostFreezes(at)));
            && v.Settled() && v.alive && v.opening == Idle && v.creates == w.creates && v.read == w.read && v.jobs == w.jobs
            && v.source == w.source && v.minted == w.minted && v.service == w.service && v.fileId == w.fileId
  {
    FrozenIs(w, at);
    FreezeTurns(w, at);
    QuietCommit(w.(closed := true), C.Freeze(w.File(), w.Load(at), at));
  }

  /// A chain started on a source that is not pending.
  function StartMove(w: World, g: Gesture): Option<C.Move>
    requires g.CommitStart?
  {
    C.StartChain(C.File(w.service, w.fileId, g.steps), w.Load(g.at), g.rulesetId, g.trigger, g.initiator, g.passport, g.priority,
                 false, g.minted, g.at)
  }

  function Opened(w: World, g: Gesture): World
    requires g.CommitStart?
  {
    w.(steps := g.steps, chain := w.chain + 1, closed := false, opening := Idle, minted := w.minted + {g.minted})
  }

  lemma StartedIs(w: World, g: Gesture)
    requires g.CommitStart? && GestureEnabled(w, g) && w.opening == Decided(false) && StartMove(w, g).Some?
    ensures Next(w, Library(g)) == Commit(Opened(w, g), StartMove(w, g).value)
  {
  }

  lemma StartTurnsTo(w: World, g: Gesture)
    requires Seat(w) && StagedOnce(w.creates, w.minted) && g.CommitStart? && GestureEnabled(w, g) && w.opening == Decided(false)
    ensures var m := StartMove(w, g);
            m.Some? && C.Launches(C.File(w.service, w.fileId, g.steps), m.value, 0, g.minted)
  {
    StartIsFresh(w, g);
    C.StartTurns(C.File(w.service, w.fileId, g.steps), w.Load(g.at), g.rulesetId, g.trigger, g.initiator, g.passport, g.priority,
                 false, g.minted, g.at);
  }

  lemma StartIsFresh(w: World, g: Gesture)
    requires Seat(w) && g.CommitStart? && GestureEnabled(w, g)
    ensures var p := w.Load(g.at); S.Sound(p.row) && p.row.state != S.Processing && S.Fresh(p.row, g.minted)
  {
  }

  /// ... asks Jobs for its step 0, and is the running job.
  lemma StartAsksAtOnce(w: World, g: Gesture)
    requires Inv(w) && g.CommitStart? && GestureEnabled(w, g) && w.opening == Decided(false)
    ensures var v, m := Next(w, Library(g)), StartMove(w, g);
            && m.Some? && C.Launches(C.File(w.service, w.fileId, g.steps), m.value, 0, g.minted)
            && v == Opened(w, g).(row := Some(m.value.processing.row), log := w.log + m.value.processing.pending,
                                  creates := w.creates + [Staged(m.value.commands[0].create, w.chain + 1, |g.steps|)])
  {
    StartTurnsTo(w, g);
    StartedIs(w, g);
    LaunchCommit(Opened(w, g), StartMove(w, g).value);
  }

  /// Jobs refuses a `job.create` while it holds a live job of the file.
  lemma TakenIsRefused(w: World, job: Uuid)
    requires Board(w) && w.read < |w.creates| && J.Live(w.jobs.held, job)
    requires w.creates[w.read].create.runnerType !in w.jobs.retired
    ensures var verdict := J.Judge(w.jobs, w.creates[w.read].create);
            verdict.Some? && verdict.value.reasonCode == J.DUPLICATE_ACTIVE_ENTITY
  {
    NextVerdict(w);
    J.LibraryCreatesAreRefusedOnlyForTheirPlace(w.jobs, w.creates[w.read].create);
  }

  lemma ReadRecordsTheVerdict(w: World)
    requires w.read < |w.creates| && J.Judge(w.jobs, w.creates[w.read].create).Some?
    ensures var id := w.creates[w.read].create.jobId;
            var v := AfterDoing(w, ReadsCreate);
            id in v.jobs.rejections && v.jobs.rejections[id] == J.Judge(w.jobs, w.creates[w.read].create).value
  {
  }

  lemma LockAndRead(w: World)
    requires w.Settled() && w.alive && w.opening == Idle && w.source != Pending
    ensures Enabled(w, Library(LockForStart))
    ensures var locked := Next(w, Library(LockForStart));
            Enabled(locked, Library(ReadSource)) && Next(locked, Library(ReadSource)) == w.(opening := Decided(false))
  {
  }

  /// A first step can be refused: in whatever run, a file frozen while its job
  /// still lives in Jobs, and processed again before Jobs ends that job, has its
  /// new first step refused as a duplicate.
  lemma AnEarlyRestartIsRefused(w: World, start: Gesture, at: Instant)
    requires Reached(w) && w.opening == Idle && w.row.Some? && w.row.value.state == S.Processing && w.source != Pending
    requires J.Live(w.jobs.held, w.row.value.jobId) && w.read == |w.creates|
    requires start.CommitStart? && start.steps != [] && FreshId(w, start.minted) && start.steps[0].runnerType !in w.jobs.retired
    ensures var frozen := Next(w, Library(HostFreezes(at)));
            && Enabled(frozen, Library(LockForStart))
            && var locked := Next(frozen, Library(LockForStart));
               var decided := Next(locked, Library(ReadSource));
               && Enabled(decided, Library(start))
               && var started := Next(decided, Library(start));
                  && Enabled(started, Jobs(ReadsCreate))
                  && var read := Next(started, Jobs(ReadsCreate));
                     && start.minted in read.jobs.rejections
                     && read.jobs.rejections[start.minted].reasonCode == J.DUPLICATE_ACTIVE_ENTITY
  {
    ReachedHolds(w);
    var frozen := Next(w, Library(HostFreezes(at)));
    FreezeLeavesJobs(w, at);
    StepKeeps(w, Library(HostFreezes(at)));
    LockAndRead(frozen);
    LockedKeeps(frozen);
    StartedIsRefused(frozen.(opening := Decided(false)), start, w.row.value.jobId);
  }

  lemma LockedKeeps(w: World)
    requires Inv(w) && w.Settled() && w.alive && w.opening == Idle && w.source != Pending
    ensures Inv(w.(opening := Decided(false)))
  {
    OpeningKeeps(w, LockForStart);
    OpeningKeeps(w.(opening := Locked), ReadSource);
  }

  lemma StartedIsRefused(w: World, start: Gesture, job: Uuid)
    requires Inv(w) && start.CommitStart? && GestureEnabled(w, start) && w.opening == Decided(false)
    requires J.Live(w.jobs.held, job) && w.read == |w.creates| && start.steps[0].runnerType !in w.jobs.retired
    ensures var started := Next(w, Library(start));
            && Enabled(started, Jobs(ReadsCreate))
            && var read := Next(started, Jobs(ReadsCreate));
               && start.minted in read.jobs.rejections
               && read.jobs.rejections[start.minted].reasonCode == J.DUPLICATE_ACTIVE_ENTITY
  {
    StartAsksFor(w, start);
    StepKeeps(w, Library(start));
    TakenIsRejected(Next(w, Library(start)), job);
  }

  /// What is asked last, at once.
  lemma StartAsksFor(w: World, g: Gesture)
    requires Inv(w) && g.CommitStart? && GestureEnabled(w, g) && w.opening == Decided(false)
    ensures var v := Next(w, Library(g));
            && |v.creates| == |w.creates| + 1 && v.read == w.read && v.jobs == w.jobs
            && v.creates[|w.creates|].create.jobId == g.minted
            && v.creates[|w.creates|].create.runnerType == g.steps[0].runnerType && v.fileId == w.fileId
  {
    StartAsksAtOnce(w, g);
  }

  lemma TakenIsRejected(w: World, job: Uuid)
    requires Board(w) && w.read < |w.creates| && J.Live(w.jobs.held, job)
    requires w.creates[w.read].create.runnerType !in w.jobs.retired
    ensures var v, id := AfterDoing(w, ReadsCreate), w.creates[w.read].create.jobId;
            id in v.jobs.rejections && v.jobs.rejections[id].reasonCode == J.DUPLICATE_ACTIVE_ENTITY
  {
    TakenIsRefused(w, job);
    ReadRecordsTheVerdict(w);
  }

  // ---- a run of it ----

  lemma {:induction false} RunOneMore(start: World, actions: seq<Action>, a: Action)
    requires Runs(start, actions) && Enabled(After(start, actions), a)
    ensures Runs(start, actions + [a]) && After(start, actions + [a]) == Next(After(start, actions), a)
    decreases |actions|
  {
    var more := actions + [a];
    if actions == [] {
      assert more[1..] == [];
    } else {
      assert more[0] == actions[0] && more[1..] == actions[1..] + [a];
      RunOneMore(Next(start, actions[0]), actions[1..], a);
    }
  }

  lemma Extend(w: World, a: Action)
    requires Reached(w) && Enabled(w, a)
    ensures Reached(Next(w, a))
  {
    var start, actions :| Initial(start) && Runs(start, actions) && After(start, actions) == w;
    RunOneMore(start, actions, a);
  }

  /// The file `file` just requested, its source promoted.
  function Requested(service: string, file: Uuid): World {
    World(service, file, true, None, [], [], Idle, Promoted, false, false, [], 0, {},
          J.Jobs(map[], map[], {}, false), {}, {}, 0, false)
  }

  lemma RequestedIsReached(service: string, file: Uuid)
    requires file.V7?
    ensures Reached(Requested(service, file))
  {
    var w := Requested(service, file);
    assert Initial(w) && Runs(w, []) && After(w, []) == w;
  }

  lemma LockedIsReached(w: World)
    requires Reached(w) && w.Settled() && w.alive && w.opening == Idle && w.source != Pending
    ensures Reached(w.(opening := Decided(false)))
  {
    LockAndRead(w);
    Extend(w, Library(LockForStart));
    Extend(Next(w, Library(LockForStart)), Library(ReadSource));
  }

  /// A first start of a requested file: its step 0 is asked, nothing before it.
  lemma FirstStart(w: World, start: Gesture) returns (v: World)
    requires Reached(w) && w.opening == Decided(false) && w.creates == [] && w.read == 0 && w.minted == {}
    requires start.CommitStart? && start.steps != [] && start.minted.V7?
    ensures Reached(v) && v.opening == Idle && v.source == w.source && v.minted == {start.minted}
    ensures v.row.Some? && v.row.value.IsRunning() && v.row.value.jobId == start.minted
    ensures |v.creates| == 1 && v.creates[0].create.jobId == start.minted && v.read == 0 && v.jobs == w.jobs
    ensures v.fileId == w.fileId && v.service == w.service
  {
    ReachedHolds(w);
    StartAsksAtOnce(w, start);
    Extend(w, Library(start));
    v := Next(w, Library(start));
  }

  /// Jobs, empty, accepts what it reads first.
  lemma FirstIsAccepted(w: World) returns (v: World)
    requires Reached(w) && |w.creates| == 1 && w.read == 0 && w.jobs == J.Jobs(map[], map[], {}, false)
    ensures Reached(v) && J.Live(v.jobs.held, w.creates[0].create.jobId) && v.jobs.retired == {}
    ensures v == w.(jobs := v.jobs, facts := v.facts, read := 1)
  {
    ReachedHolds(w);
    NextVerdict(w);
    J.LibraryCreatesAreRefusedOnlyForTheirPlace(w.jobs, w.creates[0].create);
    Extend(w, Jobs(ReadsCreate));
    v := AfterDoing(w, ReadsCreate);
  }

  /// A first start on the requested file, read by Jobs: its job lives.
  lemma FirstStartLives(service: string, file: Uuid, start: Gesture) returns (w: World)
    requires file.V7? && start.CommitStart? && start.steps != [] && start.minted.V7?
    ensures Reached(w) && w.opening == Idle && w.source == Promoted && w.read == |w.creates| && w.jobs.retired == {}
    ensures w.row.Some? && w.row.value.state == S.Processing && w.row.value.jobId == start.minted
    ensures J.Live(w.jobs.held, start.minted) && w.minted == {start.minted} && w.fileId == file && w.service == service
  {
    var first := Requested(service, file);
    RequestedIsReached(service, file);
    LockedIsReached(first);
    var started := FirstStart(first.(opening := Decided(false)), start);
    w := FirstIsAccepted(started);
  }

  /// A processing file is frozen, then taken for a new start, Jobs knowing nothing of it.
  lemma FrozenThenLocked(w: World, at: Instant) returns (v: World)
    requires Reached(w) && w.opening == Idle && w.row.Some? && w.row.value.state == S.Processing && w.source != Pending
    ensures Reached(v) && v.opening == Decided(false) && v.creates == w.creates && v.read == w.read && v.jobs == w.jobs
    ensures v.minted == w.minted && v.fileId == w.fileId
  {
    ReachedHolds(w);
    FreezeLeavesJobs(w, at);
    Extend(w, Library(HostFreezes(at)));
    var frozen := Next(w, Library(HostFreezes(at)));
    LockedIsReached(frozen);
    v := frozen.(opening := Decided(false));
  }

  /// A start while a job of the file lives, read by Jobs.
  lemma RestartIsRefused(w: World, start: Gesture, job: Uuid) returns (v: World)
    requires Reached(w) && w.opening == Decided(false) && J.Live(w.jobs.held, job) && w.read == |w.creates|
    requires start.CommitStart? && start.steps != [] && FreshId(w, start.minted) && start.steps[0].runnerType !in w.jobs.retired
    ensures Reached(v) && v.fileId == w.fileId && start.minted in v.jobs.rejections
    ensures v.jobs.rejections[start.minted].reasonCode == J.DUPLICATE_ACTIVE_ENTITY
  {
    ReachedHolds(w);
    StartAsksFor(w, start);
    Extend(w, Library(start));
    v := TakenIsReached(Next(w, Library(start)), job);
  }

  lemma TakenIsReached(w: World, job: Uuid) returns (v: World)
    requires Reached(w) && w.read < |w.creates| && J.Live(w.jobs.held, job)
    requires w.creates[w.read].create.runnerType !in w.jobs.retired
    ensures Reached(v) && v.fileId == w.fileId && w.creates[w.read].create.jobId in v.jobs.rejections
    ensures v.jobs.rejections[w.creates[w.read].create.jobId].reasonCode == J.DUPLICATE_ACTIVE_ENTITY
  {
    ReachedHolds(w);
    TakenIsRejected(w, job);
    Extend(w, Jobs(ReadsCreate));
    v := AfterDoing(w, ReadsCreate);
  }

  /// A run in which Jobs refuses a first step: a file is processed, frozen while its
  /// job lives, and processed again at once.
  lemma ARestartIsRefused(service: string, file: Uuid, start: Gesture, again: Gesture, at: Instant) returns (w: World)
    requires file.V7? && start.CommitStart? && start.steps != [] && start.minted.V7?
    requires again.CommitStart? && again.steps != [] && again.minted.V7? && again.minted != start.minted
    ensures Reached(w) && w.fileId == file && again.minted in w.jobs.rejections
    ensures w.jobs.rejections[again.minted].reasonCode == J.DUPLICATE_ACTIVE_ENTITY
  {
    var live := FirstStartLives(service, file, start);
    var decided := FrozenThenLocked(live, at);
    w := RestartIsRefused(decided, again, start.minted);
  }

  // ---- creation discipline ----

  /// In every run a job id is asked of Jobs once, whatever is redelivered.
  lemma EachIdIsAskedOnce(w: World, i: nat, j: nat)
    requires Reached(w) && i < |w.creates| && j < |w.creates|
    requires w.creates[i].create.jobId == w.creates[j].create.jobId
    ensures i == j
  {
    ReachedHolds(w);
  }

  /// A chain's steps are asked one after the other, from its first: the step at
  /// place `i` has its chain's earlier steps right before it.
  lemma {:induction false} ChainStartsAtZero(w: World, i: nat, k: nat)
    requires Reached(w) && i < |w.creates| && k <= w.creates[i].create.step
    ensures k <= i
    ensures w.creates[i - k].chain == w.creates[i].chain
    ensures w.creates[i - k].create.step == w.creates[i].create.step - k
    decreases k
  {
    if k > 0 {
      ChainStartsAtZero(w, i, k - 1);
      HandOffIsSafe(w, i - (k - 1));
    }
  }

  lemma OrderedChains(w: World, i: nat, j: nat)
    requires Reached(w) && i <= j < |w.creates|
    ensures w.creates[i].chain <= w.creates[j].chain && w.creates[j].create.step < w.creates[j].length
    ensures i < j && w.creates[i].chain == w.creates[j].chain ==> w.creates[j].create.step > 0
  {
    ReachedHolds(w);
  }

  /// No step of a chain is asked twice, and none past its plan: the indexes of a
  /// chain are 0, 1, 2, ... in the order they are asked, fewer than its steps.
  lemma {:induction false} ChainNeverRepeats(w: World, i: nat, j: nat)
    requires Reached(w) && i < j < |w.creates| && w.creates[i].chain == w.creates[j].chain
    ensures w.creates[i].create.step < w.creates[j].create.step < w.creates[j].length
    decreases j
  {
    OrderedChains(w, i, j);
    HandOffIsSafe(w, j);
    if i < j - 1 {
      ChainNeverRepeats(w, i, j - 1);
    }
  }

  lemma ClosedGesture(w: World, g: Gesture)
    requires Inv(w) && GestureEnabled(w, g) && w.closed && !g.CommitStart?
    ensures var v := CommitIf(Beside(w, g), Moved(w, g)); v.creates == w.creates && v.closed
  {
    ClosedTurns(w, g);
    BesideStaysClosed(w, g);
    QuietCommitIf(Beside(w, g), Moved(w, g));
  }

  lemma BesideStaysClosed(w: World, g: Gesture)
    requires GestureEnabled(w, g) && w.closed && !g.CommitStart?
    ensures Beside(w, g).closed && Beside(w, g).creates == w.creates
  {
  }

  lemma QuietCommitIf(v: World, moved: Option<C.Move>)
    requires moved.Some? ==> C.StagesNothing(moved.value)
    ensures CommitIf(v, moved).creates == v.creates && CommitIf(v, moved).closed == v.closed
  {
    if moved.Some? {
      QuietCommit(v, moved.value);
    }
  }

  lemma ClosedEvent(w: World, e: Event)
    requires EventEnabled(w, e) && w.closed
    ensures AfterEvent(w, e).creates == w.creates && AfterEvent(w, e).closed
  {
  }

  lemma ClosedDoing(w: World, d: Doing)
    requires DoingEnabled(w, d) && w.closed
    ensures AfterDoing(w, d).creates == w.creates && AfterDoing(w, d).closed
  {
  }

  /// While the chain is closed no gesture but a new start asks anything of Jobs.
  lemma ClosedStagesNothing(w: World, a: Action)
    requires Inv(w) && Enabled(w, a) && w.closed && !(a.Library? && a.gesture.CommitStart?)
    ensures Next(w, a).creates == w.creates && Next(w, a).closed
  {
    match a
    case Library(g) => ClosedGesture(w, g);
    case Around(e) => ClosedEvent(w, e);
    case Jobs(d) => ClosedDoing(w, d);
  }

  lemma ClosedTurns(w: World, g: Gesture)
    requires Inv(w) && GestureEnabled(w, g) && w.closed && !g.CommitStart?
    ensures Moved(w, g).Some? ==> C.StagesNothing(Moved(w, g).value)
  {
    if g.FactDelivered? && w.row.Some? {
      ClosedFactTurns(w, w.row.value, w.Load(g.at), g.fact, g.at);
    } else if g.PromotionDelivered? && w.row.Some? {
      ClosedPromotionTurns(w, w.row.value, w.Load(g.at), g.at);
    } else if g.RunnerReportsDone? || g.RunnerReportsFailure? || g.UserCancels? || g.HostFreezes? {
      OwnGesturesStageNothing(w, g);
    }
  }

  lemma OwnGesturesStageNothing(w: World, g: Gesture)
    requires GestureEnabled(w, g) && (g.RunnerReportsDone? || g.RunnerReportsFailure? || g.UserCancels? || g.HostFreezes?)
    ensures Moved(w, g).Some? ==> C.StagesNothing(Moved(w, g).value)
  {
  }

  lemma ClosedPromotionTurns(w: World, r: S.Row, p: S.Aggregate, at: Instant)
    requires Seat(w) && w.row == Some(r) && w.closed && p.row == r
    ensures var m := C.SourcePromoted(w.File(), p, at); m.Some? && C.StagesNothing(m.value)
  {
    C.PromotedTurns(w.File(), p, at);
  }

  lemma ClosedFactTurns(w: World, r: S.Row, p: S.Aggregate, fact: Fact, at: Instant)
    requires Seat(w) && w.row == Some(r) && w.closed && p.row == r
    ensures var m := C.React(w.File(), p, fact.jobId, fact.received, at); m.Some? && C.StagesNothing(m.value)
  {
    C.ReactTurns(w.File(), p, fact.jobId, fact.received, at);
  }

  predicate Closes(a: Action) {
    (a.Library? && (a.gesture.UserCancels? || a.gesture.HostFreezes?)) || (a.Around? && a.event.PassportLost?)
  }

  lemma {:induction false} ClosedRunStagesNothing(w: World, actions: seq<Action>)
    requires Inv(w) && w.closed && Runs(w, actions)
    requires forall a :: a in actions ==> !(a.Library? && a.gesture.CommitStart?)
    ensures After(w, actions).creates == w.creates
    decreases |actions|
  {
    if actions != [] {
      ClosedStagesNothing(w, actions[0]);
      StepKeeps(w, actions[0]);
      ClosedRunStagesNothing(Next(w, actions[0]), actions[1..]);
    }
  }

  /// From a user's cancel, a freeze or a lost Passport on, nothing is asked of
  /// Jobs until a new chain starts.
  lemma NothingIsAskedAfterAStop(w: World, stop: Action, actions: seq<Action>)
    requires Reached(w) && Enabled(w, stop) && Closes(stop) && Runs(Next(w, stop), actions)
    requires forall a :: a in actions ==> !(a.Library? && a.gesture.CommitStart?)
    ensures After(Next(w, stop), actions).creates == w.creates
  {
    ReachedHolds(w);
    StepKeeps(w, stop);
    StopStagesNothing(w, stop);
    ClosedRunStagesNothing(Next(w, stop), actions);
  }

  lemma StoppedBy(w: World, g: Gesture)
    requires GestureEnabled(w, g) && (g.UserCancels? || g.HostFreezes?)
    ensures var v := CommitIf(Beside(w, g), Moved(w, g)); v.creates == w.creates && v.closed
  {
    OwnGesturesStageNothing(w, g);
    QuietCommitIf(Beside(w, g), Moved(w, g));
  }

  lemma StopStagesNothing(w: World, stop: Action)
    requires Enabled(w, stop) && Closes(stop)
    ensures Next(w, stop).creates == w.creates && Next(w, stop).closed
  {
    if stop.Library? {
      StoppedBy(w, stop.gesture);
    }
  }

  // ---- the source ----

  /// No wake-up is lost: a first step awaiting a promoted source has its
  /// promotion under way; and nothing is asked of Jobs while the source is pending.
  lemma NoLostWakeUp(w: World)
    requires Reached(w)
    ensures w.source == Promoted && w.row.Some? && w.row.value.awaitingSource ==> w.promotionDue
    ensures w.source == Pending ==> w.creates == []
  {
    ReachedHolds(w);
  }

  /// The promotion wakes the step: asked of Jobs under the id minted at the
  /// start, or dropped when its Passport no longer reads.
  lemma PromotionWakes(w: World, at: Instant)
    requires Reached(w) && Enabled(w, Library(PromotionDelivered(at))) && w.row.Some? && w.row.value.awaitingSource
    ensures var v := Next(w, Library(PromotionDelivered(at)));
            && v.row.Some? && !v.row.value.awaitingSource
            && if Readable(w.row.value.passport)
               then |v.creates| == |w.creates| + 1 && w.creates <= v.creates
                    && v.creates[|w.creates|].create.jobId == w.row.value.jobId
                    && v.creates[|w.creates|].create.step == 0
               else v.creates == w.creates && v.row.value.state == S.Failed
  {
    ReachedHolds(w);
    PromotedIs(w, at);
    PromotedCommits(w, w.(promotionDue := false), w.Load(at), at);
  }

  lemma PromotedIs(w: World, at: Instant)
    requires GestureEnabled(w, PromotionDelivered(at)) && w.row.Some?
    ensures Next(w, Library(PromotionDelivered(at))) ==
              CommitIf(w.(promotionDue := false), C.SourcePromoted(w.File(), w.Load(at), at))
  {
  }

  lemma PromotedCommits(w: World, v: World, p: S.Aggregate, at: Instant)
    requires Seat(w) && w.row == Some(p.row) && p.row.awaitingSource && v.creates == w.creates
    ensures var m := C.SourcePromoted(w.File(), p, at);
            && m.Some?
            && var u := Commit(v, m.value);
               && u.row.Some? && !u.row.value.awaitingSource
               && if Readable(p.row.passport)
                  then |u.creates| == |w.creates| + 1 && w.creates <= u.creates
                       && u.creates[|w.creates|].create.jobId == p.row.jobId && u.creates[|w.creates|].create.step == 0
                  else u.creates == w.creates && u.row.value.state == S.Failed
  {
    C.PromotedTurns(w.File(), p, at);
    var m := C.SourcePromoted(w.File(), p, at).value;
    if Readable(p.row.passport) {
      LaunchCommit(v, m);
    } else {
      QuietCommit(v, m);
    }
  }

  // ---- the row ----

  /// At every save the row is sound and recognises every job asked of Jobs, so a
  /// fact in flight always finds the file.
  lemma EveryFactFindsItsFile(w: World)
    requires Reached(w)
    ensures w.row.Some? ==> S.Sound(w.row.value)
    ensures w.row.Some? ==> forall i :: 0 <= i < |w.creates| ==> w.row.value.Knows(w.creates[i].create.jobId)
    ensures w.alive ==> forall fact :: fact in w.facts ==> w.row.Some? && w.row.value.Knows(fact.jobId)
  {
    ReachedHolds(w);
    forall fact | fact in w.facts && w.alive
      ensures w.row.Some? && w.row.value.Knows(fact.jobId)
    {
      assert InFirst(w.creates, w.read, fact.jobId);
      var i :| 0 <= i < w.read && i < |w.creates| && w.creates[i].create.jobId == fact.jobId;
      assert w.row.Some?;
    }
  }

  /// In every run, a fact about an earlier job of the file, or about its last one
  /// once its processing ended, is recorded and changes nothing.
  lemma LateFactsAreOnlyRecorded(w: World, fact: Fact, at: Instant)
    requires Reached(w) && Enabled(w, Library(FactDelivered(fact, at))) && w.row.Some? && w.row.value.Knows(fact.jobId)
    requires fact.jobId in w.row.value.pastJobIds || w.row.value.state != S.Processing
    ensures var v := Next(w, Library(FactDelivered(fact, at)));
            && v.row == w.row && v.creates == w.creates && v.sent == w.sent && |v.log| == |w.log| + 1
  {
    ReachedHolds(w);
    L.LateOne(w.File(), w.Load(at), L.Delivery(fact.jobId, fact.received, at));
    NothingStaged([], w.chain, |w.steps|);
  }

  /// No gesture faults: a held step is there when it is released, and within the
  /// plan. Nothing moves only while a start opens, or when a delivery finds no
  /// processing any more.
  lemma NoGestureFaults(w: World, g: Gesture)
    requires Reached(w) && Enabled(w, Library(g)) && Moved(w, g).None?
    ensures g.LockForStart? || g.ReadSource? || g.RefuseStart?
            || (w.row.None? && (g.PromotionDelivered? || (g.FactDelivered? && !w.alive)))
  {
    ReachedHolds(w);
    EveryFactFindsItsFile(w);
    match g
    case FactDelivered(fact, at) =>
      if w.row.Some? {
        C.ReactTurns(w.File(), w.Load(at), fact.jobId, fact.received, at);
      }
    case PromotionDelivered(at) =>
      if w.row.Some? {
        C.PromotedTurns(w.File(), w.Load(at), at);
      }
    case UserCancels(at) => C.StopTurns(w.File(), w.Load(at), "", None, at);
    case _ =>
  }
}
