/// A whole chain: a run that takes a plan from its start to READY, each step asked,
/// accepted, reported done and ended before the next.
module WholeChain {
  import opened Common
  import opened Contract
  import opened Protocol
  import opened ProtocolInvariant
  import opened ProtocolSteps
  import opened ProtocolTheorems
  import opened GestureLaws
  import T = CommandsTold
  import S = ProcessingState
  import C = Chain
  import J = JobsLedger

  /// The first `n` steps of the plan are asked, in order, each under its id.
  predicate FirstAsked(w: World, steps: seq<Step>, ids: seq<Uuid>, n: nat) {
    && n <= |ids| == |steps| && |w.creates| == n
    && forall i :: 0 <= i < n ==>
         && w.creates[i].create.jobId == ids[i] && w.creates[i].create.step == i
         && w.creates[i].create.runnerType == steps[i].runnerType && w.creates[i].create.options == steps[i].options
  }

  predicate FirstFinished(w: World, ids: seq<Uuid>, n: nat) {
    n <= |ids| && forall i :: 0 <= i < n ==> JobFinish(ids[i]) in w.sent
  }

  predicate Current(w: World, job: Uuid, step: nat) {
    && w.opening == Idle && w.row.Some? && w.row.value.jobId == job && w.row.value.stepIndex == step
    && w.row.value.state == S.Processing && !w.row.value.awaitingSource && w.row.value.cancelRequestedAt.None?
    && w.row.value.passport.Some? && w.row.value.passport.value.Encoded?
  }

  /// Where a chain stands once step `k` is asked, before Jobs reads it.
  ghost predicate IsAsked(w: World, ids: seq<Uuid>, k: nat) {
    && Reached(w) && k < |ids| && FirstAsked(w, w.steps, ids, k + 1) && FirstFinished(w, ids, k) && w.read == k
    && Current(w, ids[k], k) && w.row.value.nextJobId.None? && (forall id :: id in w.minted ==> id in ids[..k + 1])
    && w.jobs.retired == {} && Free(w.jobs)
  }

  /// ... and once Jobs accepted it.
  ghost predicate IsAt(w: World, ids: seq<Uuid>, k: nat) {
    && Reached(w) && k < |ids| && FirstAsked(w, w.steps, ids, k + 1) && FirstFinished(w, ids, k) && w.read == k + 1
    && Current(w, ids[k], k) && w.row.value.nextJobId.None? && (forall id :: id in w.minted ==> id in ids[..k + 1])
    && w.jobs.retired == {} && J.Live(w.jobs.held, ids[k])
  }

  /// Jobs, with no live job of the file, accepts what it reads next.
  lemma NextIsAccepted(w: World)
    requires Board(w) && w.read < |w.creates| && Free(w.jobs) && w.jobs.retired == {}
    ensures J.Judge(w.jobs, w.creates[w.read].create).None? && w.creates[w.read].create.jobId !in w.jobs.held
  {
    NextVerdict(w);
    J.LibraryCreatesAreRefusedOnlyForTheirPlace(w.jobs, w.creates[w.read].create);
  }

  lemma ReadsNext(w: World) returns (v: World)
    requires Reached(w) && w.read < |w.creates| && Free(w.jobs) && w.jobs.retired == {}
    ensures Reached(v) && v == w.(jobs := v.jobs, facts := v.facts, read := w.read + 1)
    ensures J.Live(v.jobs.held, w.creates[w.read].create.jobId) && v.jobs.retired == {}
  {
    ReachedHolds(w);
    NextIsAccepted(w);
    J.ConsumedSays(w.jobs, JobCreate(w.creates[w.read].create));
    Extend(w, Jobs(ReadsCreate));
    v := AfterDoing(w, ReadsCreate);
  }

  lemma Accepts(w: World, ids: seq<Uuid>, k: nat) returns (v: World)
    requires IsAsked(w, ids, k)
    ensures IsAt(v, ids, k) && v.fileId == w.fileId && v.steps == w.steps && v.promotionSent == w.promotionSent
  {
    v := ReadsNext(w);
  }

  /// The runner reports a step done, not the last: the next one is held.
  lemma Holds(w: World, ids: seq<Uuid>, k: nat, at: Instant) returns (v: World)
    requires IsAt(w, ids, k) && k + 1 < |ids| && FreshId(w, ids[k + 1])
    ensures Reached(v)
    ensures v == w.(row := Some(w.row.value.(nextJobId := Some(ids[k + 1]), updatedAt := at)), log := v.log,
                    sent := w.sent + {JobFinish(ids[k])}, minted := w.minted + {ids[k + 1]})
  {
    var g := RunnerReportsDone(ids[k], ids[k + 1], at);
    DoneHolds(w.File(), w.Load(at), ids[k + 1], at);
    DoneAsks(w.File(), w.Load(at), ids[k + 1], at);
    QuietCommit(w.(minted := w.minted + {ids[k + 1]}), C.ReportDone(w.File(), w.Load(at), ids[k + 1], at));
    Extend(w, Library(g));
    v := Next(w, Library(g));
  }

  /// Jobs reads the finish, ends the job and says so.
  lemma Ends(w: World, job: Uuid) returns (v: World)
    requires Reached(w) && JobFinish(job) in w.sent && J.Live(w.jobs.held, job)
    ensures Reached(v) && v == w.(jobs := v.jobs, facts := v.facts)
    ensures v.jobs.retired == w.jobs.retired && Fact(job, S.Completed) in v.facts && job in v.jobs.held && v.jobs.held[job].terminal
  {
    J.ConsumedSays(w.jobs, JobFinish(job));
    Extend(w, Jobs(ReadsOther(JobFinish(job))));
    var ended := AfterDoing(w, ReadsOther(JobFinish(job)));
    Extend(ended, Jobs(Publishes(Fact(job, S.Completed))));
    v := AfterDoing(ended, Publishes(Fact(job, S.Completed)));
  }

  /// What a completion makes of a held step.
  lemma CompletedReleases(file: C.File, p: S.Aggregate, at: Instant)
    requires p.row.nextJobId.Some? && p.row.stepIndex + 1 < |file.steps| && p.row.nextJobId.value != p.row.jobId
    requires p.row.cancelRequestedAt.None? && p.row.passport.Some? && p.row.passport.value.Encoded?
    ensures var m, r := C.React(file, p, p.row.jobId, S.Completed, at), p.row;
            && m.Some?
            && var q := S.Receive(p, r.jobId, S.Completed, at).0;
               && q.row == r && Launched(file, q, m.value, r.stepIndex + 1, r.nextJobId.value, r.passport.value.passport, at)
  {
    HeldEndSays(p, S.Completed, at);
    ReleaseSays(file, S.Receive(p, p.row.jobId, S.Completed, at).0, at);
  }

  /// A move that launches a step, committed.
  ghost predicate Steps(w: World, v: World, next: Uuid, index: nat) {
    && |v.creates| == |w.creates| + 1 && index < |w.steps|
    && v == w.(row := v.row, log := v.log, creates := w.creates + [v.creates[|w.creates|]])
    && v.creates[|w.creates|].create.jobId == next && v.creates[|w.creates|].create.step == index
    && v.creates[|w.creates|].create.runnerType == w.steps[index].runnerType
    && v.creates[|w.creates|].create.options == w.steps[index].options
    && (w.opening == Idle ==> Current(v, next, index)) && v.row.Some? && v.row.value.nextJobId.None?
  }

  lemma LaunchSteps(w: World, p: S.Aggregate, m: C.Move, next: Uuid, index: nat, passport: Passport, at: Instant)
    requires Launched(w.File(), p, m, index, next, passport, at) && (next != p.row.jobId || p.row.cancelRequestedAt.None?)
    ensures Steps(w, Commit(w, m), next, index)
  {
    LaunchCommit(w, m);
  }

  lemma HeldIsLaunched(w: World, at: Instant)
    requires w.row.Some? && w.row.value.nextJobId.Some? && Current(w, w.row.value.jobId, w.row.value.stepIndex)
    requires w.row.value.stepIndex + 1 < |w.steps| && w.row.value.nextJobId.value != w.row.value.jobId
    ensures var m, r := C.React(w.File(), w.Load(at), w.row.value.jobId, S.Completed, at), w.row.value;
            m.Some? && Steps(w, Commit(w, m.value), r.nextJobId.value, r.stepIndex + 1)
  {
    var r, q := w.row.value, S.Receive(w.Load(at), w.row.value.jobId, S.Completed, at).0;
    CompletedReleases(w.File(), w.Load(at), at);
    LaunchSteps(w, q, C.React(w.File(), w.Load(at), r.jobId, S.Completed, at).value, r.nextJobId.value, r.stepIndex + 1,
                r.passport.value.passport, at);
  }

  lemma HeldIsPlanned(w: World)
    requires Reached(w) && w.row.Some? && w.row.value.state == S.Processing && w.row.value.nextJobId.Some?
    ensures w.row.value.stepIndex + 1 < |w.steps| && w.row.value.nextJobId.value != w.row.value.jobId
  {
    ReachedHolds(w);
    T.WithinThePlan(w, w.row.value);
  }

  /// The completion delivered, the held step is asked.
  lemma Releases(w: World, job: Uuid, at: Instant) returns (v: World)
    requires Reached(w) && w.row.Some? && Current(w, job, w.row.value.stepIndex) && Fact(job, S.Completed) in w.facts
    requires w.row.value.nextJobId.Some?
    ensures Reached(v) && Steps(w, v, w.row.value.nextJobId.value, w.row.value.stepIndex + 1)
  {
    HeldIsPlanned(w);
    HeldIsLaunched(w, at);
    DeliveredIs(w, Fact(job, S.Completed), at);
    Extend(w, Library(FactDelivered(Fact(job, S.Completed), at)));
    v := Next(w, Library(FactDelivered(Fact(job, S.Completed), at)));
  }

  lemma DeliveredIs(w: World, fact: Fact, at: Instant)
    requires GestureEnabled(w, FactDelivered(fact, at)) && w.row.Some? && w.row.value.jobId == fact.jobId
    ensures Next(w, Library(FactDelivered(fact, at))) == CommitIf(w, C.React(w.File(), w.Load(at), fact.jobId, fact.received, at))
  {
  }

  /// Once its predecessor ended, a step asked finds Jobs with no live job.
  lemma AskedIsFree(w: World, k: nat)
    requires Reached(w) && w.read == k && |w.creates| == k + 1 && w.creates[k].create.step > 0
    ensures Free(w.jobs)
  {
    ReachedHolds(w);
    assert HandedOff(w.creates, w.read, w.jobs, k);
  }

  /// One step to the next.
  lemma Advances(w: World, ids: seq<Uuid>, k: nat, at: Instant) returns (v: World)
    requires IsAt(w, ids, k) && k + 1 < |ids| && FreshId(w, ids[k + 1])
    ensures IsAt(v, ids, k + 1) && v.fileId == w.fileId && v.steps == w.steps && v.promotionSent == w.promotionSent
  {
    var held := Holds(w, ids, k, at);
    var ended := Ends(held, ids[k]);
    var asked := Releases(ended, ids[k], at);
    AskedIsFree(asked, k + 1);
    NextIsAsked(w, ids, k, asked);
    v := Accepts(asked, ids, k + 1);
  }

  lemma NextIsAsked(w: World, ids: seq<Uuid>, k: nat, v: World)
    requires IsAt(w, ids, k) && k + 1 < |ids| && Reached(v) && Free(v.jobs) && v.jobs.retired == {} && v.steps == w.steps
    requires |v.creates| == k + 2 && v.creates[..k + 1] == w.creates && v.read == w.read && k + 1 < |w.steps|
    requires v.creates[k + 1].create.jobId == ids[k + 1] && v.creates[k + 1].create.step == k + 1
    requires v.creates[k + 1].create.runnerType == w.steps[k + 1].runnerType
    requires v.creates[k + 1].create.options == w.steps[k + 1].options
    requires Current(v, ids[k + 1], k + 1) && v.row.value.nextJobId.None?
    requires v.sent == w.sent + {JobFinish(ids[k])} && v.minted == w.minted + {ids[k + 1]}
    ensures IsAsked(v, ids, k + 1)
  {
    assert ids[..k + 2] == ids[..k + 1] + [ids[k + 1]];
    OneMoreAsked(w, ids, k, v);
  }

  lemma OneMoreAsked(w: World, ids: seq<Uuid>, k: nat, v: World)
    requires k + 1 < |ids| && FirstAsked(w, w.steps, ids, k + 1) && FirstFinished(w, ids, k)
    requires |v.creates| == k + 2 && v.creates[..k + 1] == w.creates && v.sent == w.sent + {JobFinish(ids[k])}
    requires v.creates[k + 1].create.jobId == ids[k + 1] && v.creates[k + 1].create.step == k + 1
    requires v.creates[k + 1].create.runnerType == w.steps[k + 1].runnerType
    requires v.creates[k + 1].create.options == w.steps[k + 1].options
    ensures FirstAsked(v, w.steps, ids, k + 2) && FirstFinished(v, ids, k + 1)
  {
    assert forall i :: 0 <= i <= k ==> v.creates[i] == v.creates[..k + 1][i];
  }

  /// The last step reported done: the file is READY.
  lemma Concludes(w: World, ids: seq<Uuid>, k: nat, minted: Uuid, at: Instant) returns (v: World)
    requires IsAt(w, ids, k) && k + 1 == |ids| && FreshId(w, minted)
    ensures Reached(v) && v.fileId == w.fileId && v.row.Some? && v.row.value.state == S.Ready && v.promotionSent == w.promotionSent
    ensures FirstAsked(v, w.steps, ids, |ids|) && FirstFinished(v, ids, |ids|) && v.read == |ids| && v.jobs.retired == {}
  {
    var g := RunnerReportsDone(ids[k], minted, at);
    DoneEnds(w.File(), w.Load(at), minted, at);
    DoneAsks(w.File(), w.Load(at), minted, at);
    QuietCommit(w.(minted := w.minted + {minted}), C.ReportDone(w.File(), w.Load(at), minted, at));
    Extend(w, Library(g));
    v := Next(w, Library(g));
  }

  lemma {:induction false} RunsOn(w: World, ids: seq<Uuid>, k: nat, last: Uuid, at: Instant) returns (v: World)
    requires IsAt(w, ids, k) && Distinct(ids + [last]) && (forall id :: id in ids + [last] ==> id.V7?)
    ensures Reached(v) && v.fileId == w.fileId && v.row.Some? && v.row.value.state == S.Ready && v.promotionSent == w.promotionSent
    ensures FirstAsked(v, w.steps, ids, |ids|) && FirstFinished(v, ids, |ids|) && v.read == |ids|
    decreases |ids| - k
  {
    var all := ids + [last];
    assert all[k + 1] in all && forall i :: 0 <= i <= k ==> all[i] == ids[i] && all[i] != all[k + 1];
    if k + 1 == |ids| {
      v := Concludes(w, ids, k, last, at);
    } else {
      v := Advances(w, ids, k, at);
      v := RunsOn(v, ids, k + 1, last, at);
    }
  }

  lemma StartMoves(w: World, start: Gesture)
    requires Seat(w) && start.CommitStart? && GestureEnabled(w, start)
    ensures var m := StartMove(w, start);
            && m.Some? && |m.value.commands| == 1
            && Asks(C.File(w.service, w.fileId, start.steps), m.value.commands[0], 0, start.minted, start.passport,
                    Some(start.initiator), start.priority)
            && var t := m.value.processing.row;
               && t.jobId == start.minted && t.stepIndex == 0 && t.state == S.Processing && !t.awaitingSource
               && t.cancelRequestedAt.None? && t.passport == Some(Encoded(start.passport)) && t.nextJobId.None?
  {
    StartIsFresh(w, start);
    StartSays(C.File(w.service, w.fileId, start.steps), w.Load(start.at), start.rulesetId, start.trigger, start.initiator,
              start.passport, start.priority, false, start.minted, start.at);
  }

  /// A first start: step 0 asked.
  lemma StartsNow(w: World, start: Gesture)
    requires Seat(w) && w.opening == Decided(false) && start.CommitStart? && GestureEnabled(w, start)
    ensures var v := Next(w, Library(start));
            && v == w.(row := v.row, log := v.log, creates := v.creates, steps := start.steps, chain := w.chain + 1, closed := false,
                       opening := Idle, minted := w.minted + {start.minted})
            && |v.creates| == |w.creates| + 1 && v.creates[..|w.creates|] == w.creates
            && Asks(v.File(), JobCreate(v.creates[|w.creates|].create), 0, start.minted, start.passport, Some(start.initiator),
                    start.priority)
            && Current(v, start.minted, 0) && v.row.value.nextJobId.None?
  {
    StartMoves(w, start);
    LaunchCommit(Opened(w, start), StartMove(w, start).value);
  }

  lemma Starts(w: World, start: Gesture, ids: seq<Uuid>) returns (v: World)
    requires Reached(w) && w.opening == Decided(false) && w.creates == [] && w.read == 0 && w.minted == {}
    requires w.jobs == J.Jobs(map[], map[], {}, false)
    requires start.CommitStart? && start.steps != [] && start.minted.V7?
    requires |ids| == |start.steps| && ids[0] == start.minted
    ensures IsAsked(v, ids, 0)
    ensures v.steps == start.steps && v.fileId == w.fileId && v.promotionSent == w.promotionSent
  {
    ReachedIsSeated(w);
    StartsNow(w, start);
    Extend(w, Library(start));
    v := Next(w, Library(start));
    StartIsAsked(v, start, ids);
  }

  lemma ReachedIsSeated(w: World)
    requires Reached(w)
    ensures Seat(w)
  {
    ReachedHolds(w);
  }

  lemma StartIsAsked(v: World, start: Gesture, ids: seq<Uuid>)
    requires Reached(v) && |v.creates| == 1 && v.read == 0 && start.CommitStart? && v.minted == {start.minted}
    requires v.jobs == J.Jobs(map[], map[], {}, false)
    requires v.steps == start.steps && |ids| == |start.steps| && start.steps != [] && ids[0] == start.minted
    requires v.creates[0].create.jobId == start.minted && v.creates[0].create.step == 0
    requires v.creates[0].create.runnerType == start.steps[0].runnerType && v.creates[0].create.options == start.steps[0].options
    requires Current(v, start.minted, 0) && v.row.value.nextJobId.None?
    ensures IsAsked(v, ids, 0)
  {
  }

  /// A start that read its source pending: step 0 awaits it, and nothing is asked.
  predicate Waits(w: World, start: Gesture) {
    && start.CommitStart? && w.opening == Idle && w.row.Some? && w.row.value.jobId == start.minted && w.row.value.stepIndex == 0
    && w.row.value.state == S.Processing && w.row.value.awaitingSource && w.row.value.cancelRequestedAt.None?
    && w.row.value.passport == Some(Encoded(start.passport)) && w.row.value.nextJobId.None?
  }

  lemma WaitMoves(w: World, start: Gesture)
    requires Seat(w) && w.opening == Decided(true) && start.CommitStart? && GestureEnabled(w, start)
    ensures Moved(w, start).Some? && Moved(w, start).value.commands == []
    ensures Waits(Opened(w, start).(row := Some(Moved(w, start).value.processing.row)), start)
  {
    StartIsFresh(w, start);
    StartSays(C.File(w.service, w.fileId, start.steps), w.Load(start.at), start.rulesetId, start.trigger, start.initiator,
              start.passport, start.priority, true, start.minted, start.at);
  }

  lemma StartWaits(w: World, start: Gesture) returns (v: World)
    requires Reached(w) && w.opening == Decided(true) && start.CommitStart? && GestureEnabled(w, start)
    ensures Reached(v) && Waits(v, start)
    ensures v == w.(row := v.row, log := v.log, steps := start.steps, chain := w.chain + 1, closed := false, opening := Idle,
                    minted := w.minted + {start.minted})
  {
    ReachedIsSeated(w);
    WaitMoves(w, start);
    QuietCommit(Opened(w, start), Moved(w, start).value);
    Extend(w, Library(start));
    v := Next(w, Library(start));
  }

  lemma AwaitedIsLaunched(w: World, v: World, start: Gesture, at: Instant)
    requires Waits(w, start) && start.steps != [] && w.steps == start.steps && v == w.(promotionDue := false)
    ensures var m := C.SourcePromoted(w.File(), w.Load(at), at); m.Some? && Steps(v, Commit(v, m.value), start.minted, 0)
  {
    PromotionSays(w.File(), w.Load(at), at);
    LaunchSteps(v, w.Load(at), C.SourcePromoted(w.File(), w.Load(at), at).value, start.minted, 0, start.passport, at);
  }

  /// The promotion delivered, the awaited step is asked.
  lemma Wakes(w: World, start: Gesture, at: Instant) returns (v: World)
    requires Reached(w) && Waits(w, start) && start.steps != [] && w.steps == start.steps && w.promotionSent
    ensures Reached(v) && Steps(w.(promotionDue := false), v, start.minted, 0)
  {
    AwaitedIsLaunched(w, w.(promotionDue := false), start, at);
    PromotedIs(w, at);
    Extend(w, Library(PromotionDelivered(at)));
    v := Next(w, Library(PromotionDelivered(at)));
  }

  /// A start raced by the promotion: it reads the source pending, the engine promotes
  /// it, the start commits; the promotion, delivered, asks for the step.
  lemma RacedStart(service: string, file: Uuid, start: Gesture, ids: seq<Uuid>, at: Instant) returns (v: World)
    requires file.V7? && start.CommitStart? && start.steps != [] && start.minted.V7?
    requires |ids| == |start.steps| && ids[0] == start.minted
    ensures IsAsked(v, ids, 0) && v.steps == start.steps && v.fileId == file && v.promotionSent
  {
    var raced := ReadThenPromoted(service, file);
    var waiting := StartWaits(raced, start);
    v := Wakes(waiting, start, at);
    StartIsAsked(v, start, ids);
  }

  lemma ReadThenPromoted(service: string, file: Uuid) returns (v: World)
    requires file.V7?
    ensures Reached(v)
    ensures v == Requested(service, file).(opening := Decided(true), promotionSent := true, promotionDue := true)
  {
    var w := Requested(service, file).(source := Pending);
    assert Initial(w) && Runs(w, []) && After(w, []) == w;
    Extend(w, Library(LockForStart));
    Extend(w.(opening := Locked), Library(ReadSource));
    Extend(w.(opening := Decided(true)), Around(SourcePromotes));
    v := AfterEvent(w.(opening := Decided(true)), SourcePromotes);
  }

  /// Whatever the plan, a chain can run whole: from a file just requested, through
  /// its steps one by one, each under the id minted for it, to READY; so it can when
  /// the promotion of its source races its start.
  lemma AWholeChainRuns(service: string, file: Uuid, start: Gesture, ids: seq<Uuid>, last: Uuid, raced: bool, at: Instant)
    returns (w: World)
    requires file.V7? && start.CommitStart? && start.steps != []
    requires |ids| == |start.steps| && ids[0] == start.minted && Distinct(ids + [last])
    requires forall id :: id in ids + [last] ==> id.V7?
    ensures Reached(w) && w.fileId == file && w.row.Some? && w.row.value.state == S.Ready && w.promotionSent == raced
    ensures FirstAsked(w, start.steps, ids, |ids|) && FirstFinished(w, ids, |ids|) && w.read == |ids|
  {
    assert (ids + [last])[0] == start.minted;
    if raced {
      w := RacedStart(service, file, start, ids, at);
    } else {
      var first := Requested(service, file);
      RequestedIsReached(service, file);
      LockedIsReached(first);
      w := Starts(first.(opening := Decided(false)), start, ids);
    }
    w := Accepts(w, ids, 0);
    w := RunsOn(w, ids, 0, last, at);
  }
}
