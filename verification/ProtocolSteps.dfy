/// Each step of the protocol keeps the invariant.
module ProtocolSteps {
  import opened Common
  import opened Contract
  import opened Protocol
  import opened ProtocolInvariant
  import S = ProcessingState
  import C = Chain
  import J = JobsLedger

  // ---- the engine, the erase, the deletion ----

  lemma PassportLostSeat(w: World, left: Option<Document>)
    requires Seat(w) && EventEnabled(w, PassportLost(left))
    ensures Seat(AfterEvent(w, PassportLost(left)))
  {
  }

  lemma PassportLostKeeps(w: World, left: Option<Document>)
    requires Inv(w) && EventEnabled(w, PassportLost(left))
    ensures Inv(AfterEvent(w, PassportLost(left)))
  {
    PassportLostSeat(w, left);
    QuietBoard(w, AfterEvent(w, PassportLost(left)));
  }

  lemma DeletionKeeps(w: World)
    requires Inv(w) && EventEnabled(w, FileDeleted)
    ensures Inv(AfterEvent(w, FileDeleted))
  {
  }

  lemma EventKeeps(w: World, e: Event)
    requires Inv(w) && EventEnabled(w, e)
    ensures Inv(AfterEvent(w, e))
  {
    match e
    case PassportLost(left) => PassportLostKeeps(w, left);
    case FileDeleted => DeletionKeeps(w);
    case SourcePromotes =>
    case SourceFails =>
  }

  // ---- Jobs' part ----

  /// Whatever Jobs does, the rest stands as long as it forgets no job.
  lemma JobsSideKeeps(w: World, jobs: J.Jobs, facts: set<Fact>)
    requires Inv(w)
    requires Verdicts(w.creates, w.read, jobs, J.Source(w.service, w.fileId))
    requires Truthful(facts, jobs)
    requires HandsOff(w.creates, w.read, jobs)
    requires forall job :: job in w.jobs.held ==> job in jobs.held
    ensures Inv(w.(jobs := jobs, facts := facts))
  {
  }

  // ---- Jobs ends a job ----

  lemma SettleVerdicts(creates: seq<Staged>, read: nat, jobs: J.Jobs, source: J.Source, job: Uuid)
    requires Verdicts(creates, read, jobs, source)
    ensures Verdicts(creates, read, J.Settle(jobs, job), source)
  {
    assert forall other :: J.Live(J.Settle(jobs, job).held, other) ==> J.Live(jobs.held, other);
  }

  lemma SettleTruthful(facts: set<Fact>, jobs: J.Jobs, job: Uuid)
    requires Truthful(facts, jobs)
    ensures Truthful(facts, J.Settle(jobs, job))
  {
  }

  lemma SettleHandsOff(creates: seq<Staged>, read: nat, jobs: J.Jobs, job: Uuid)
    requires HandsOff(creates, read, jobs)
    ensures HandsOff(creates, read, J.Settle(jobs, job))
  {
    forall i | 0 <= i < |creates| && creates[i].create.step > 0
      ensures HandedOff(creates, read, J.Settle(jobs, job), i)
    {
      assert HandedOff(creates, read, jobs, i);
    }
  }

  lemma SettleKeeps(w: World, job: Uuid)
    requires Inv(w)
    ensures Inv(w.(jobs := J.Settle(w.jobs, job)))
  {
    SettleVerdicts(w.creates, w.read, w.jobs, J.Source(w.service, w.fileId), job);
    SettleTruthful(w.facts, w.jobs, job);
    SettleHandsOff(w.creates, w.read, w.jobs, job);
    JobsSideKeeps(w, J.Settle(w.jobs, job), w.facts);
  }

  // ---- Jobs reads a `job.create` ----

  /// The verdict on the next `job.create` to be read: refused only for its
  /// runner type or, a first step, for the live job of the file.
  lemma NextVerdict(w: World)
    requires Board(w) && w.read < |w.creates|
    ensures var create := w.creates[w.read].create;
            && create.jobId !in w.jobs.held && create.jobId !in w.jobs.rejections
            && J.SourceOf(create) == Some(J.Source(w.service, w.fileId))
            && (J.Judge(w.jobs, create).None? ==> Free(w.jobs))
            && (J.Judge(w.jobs, create).Some? && J.Judge(w.jobs, create).value.reasonCode == J.DUPLICATE_ACTIVE_ENTITY ==>
                  create.step == 0)
  {
    var create := w.creates[w.read].create;
    assert !InFirst(w.creates, w.read, create.jobId);
    J.LibraryCreatesAreRefusedOnlyForTheirPlace(w.jobs, create);
    if create.step > 0 {
      assert HandedOff(w.creates, w.read, w.jobs, w.read);
    }
  }

  /// Jobs read one more: accepted on a free file, or refused.
  ghost predicate Judged(jobs: J.Jobs, after: J.Jobs, create: CreateJob, source: J.Source) {
    var id := create.jobId;
    && id !in jobs.held && id !in jobs.rejections
    && if id in after.held then
         Free(jobs) && after == jobs.(held := jobs.held[id := J.Held(Some(create), Some(source), false, false)])
       else
         && id in after.rejections && after == jobs.(rejections := jobs.rejections[id := after.rejections[id]])
         && (after.rejections[id].reasonCode == J.DUPLICATE_ACTIVE_ENTITY ==> create.step == 0)
  }

  lemma ReadIsJudged(w: World)
    requires Board(w) && w.read < |w.creates|
    ensures var v := AfterDoing(w, ReadsCreate);
            && v == w.(read := w.read + 1, jobs := v.jobs, facts := v.facts)
            && Judged(w.jobs, v.jobs, w.creates[w.read].create, J.Source(w.service, w.fileId))
  {
    NextVerdict(w);
  }

  lemma ReadOneMore(creates: seq<Staged>, read: nat, job: Uuid)
    requires read < |creates|
    ensures InFirst(creates, read + 1, job) <==> InFirst(creates, read, job) || job == creates[read].create.jobId
  {
  }

  lemma AcceptedVerdicts(creates: seq<Staged>, read: nat, jobs: J.Jobs, after: J.Jobs, source: J.Source)
    requires Verdicts(creates, read, jobs, source)
    requires read < |creates| && Judged(jobs, after, creates[read].create, source) && creates[read].create.jobId in after.held
    requires forall i :: 0 <= i < read ==> creates[i].create.jobId != creates[read].create.jobId
    ensures Verdicts(creates, read + 1, after, source)
  {
    forall job | job in after.held || job in after.rejections
      ensures InFirst(creates, read + 1, job)
    {
      ReadOneMore(creates, read, job);
    }
    forall i, k | 0 <= i < k < read + 1 && creates[k].create.jobId in after.held
      ensures !J.Live(after.held, creates[i].create.jobId)
    {
      assert creates[i].create.jobId != creates[read].create.jobId;
    }
  }

  lemma RefusedVerdicts(creates: seq<Staged>, read: nat, jobs: J.Jobs, after: J.Jobs, source: J.Source)
    requires Verdicts(creates, read, jobs, source)
    requires read < |creates| && Judged(jobs, after, creates[read].create, source) && creates[read].create.jobId !in after.held
    ensures Verdicts(creates, read + 1, after, source)
  {
    forall job | job in after.held || job in after.rejections
      ensures InFirst(creates, read + 1, job)
    {
      ReadOneMore(creates, read, job);
    }
  }

  lemma JudgedVerdicts(creates: seq<Staged>, minted: set<Uuid>, read: nat, jobs: J.Jobs, after: J.Jobs, source: J.Source)
    requires StagedOnce(creates, minted) && Verdicts(creates, read, jobs, source)
    requires read < |creates| && Judged(jobs, after, creates[read].create, source)
    ensures Verdicts(creates, read + 1, after, source)
  {
    if creates[read].create.jobId in after.held {
      AcceptedVerdicts(creates, read, jobs, after, source);
    } else {
      RefusedVerdicts(creates, read, jobs, after, source);
    }
  }

  lemma JudgedHandsOff(creates: seq<Staged>, minted: set<Uuid>, read: nat, jobs: J.Jobs, after: J.Jobs, source: J.Source)
    requires StagedOnce(creates, minted) && HandsOff(creates, read, jobs)
    requires read < |creates| && Judged(jobs, after, creates[read].create, source)
    ensures HandsOff(creates, read + 1, after)
  {
    forall i | 0 <= i < |creates| && creates[i].create.step > 0
      ensures HandedOff(creates, read + 1, after, i)
    {
      assert HandedOff(creates, read, jobs, i);
    }
  }

  lemma ReadTruthful(w: World)
    requires Board(w) && w.read < |w.creates|
    ensures var v := AfterDoing(w, ReadsCreate); Truthful(v.facts, v.jobs)
  {
    NextVerdict(w);
  }

  lemma ReadKeeps(w: World)
    requires Inv(w) && w.read < |w.creates|
    ensures Inv(AfterDoing(w, ReadsCreate))
  {
    var v := AfterDoing(w, ReadsCreate);
    ReadIsJudged(w);
    JudgedVerdicts(w.creates, w.minted, w.read, w.jobs, v.jobs, J.Source(w.service, w.fileId));
    JudgedHandsOff(w.creates, w.minted, w.read, w.jobs, v.jobs, J.Source(w.service, w.fileId));
    ReadTruthful(w);
  }

  // ---- Jobs reads anything else ----

  /// Anything else than a `job.create` settles its job at most, and only a job
  /// it settled is published cancelled.
  lemma OtherReads(w: World, command: Command)
    requires !command.JobCreate?
    ensures var v := JobsReads(w, command);
            && v == w.(jobs := v.jobs, facts := v.facts)
            && (v.jobs == w.jobs || v.jobs == J.Settle(w.jobs, command.jobId))
            && v.facts <= w.facts + {Fact(command.jobId, S.Cancelled)}
            && (v.facts <= w.facts || (v.jobs == J.Settle(w.jobs, command.jobId) && command.jobId in w.jobs.held))
            && w.facts <= v.facts
  {
  }

  lemma OtherKeeps(w: World, command: Command)
    requires Inv(w) && command in w.sent && !command.JobCreate?
    ensures Inv(AfterDoing(w, ReadsOther(command)))
  {
    OtherReads(w, command);
    var v := JobsReads(w, command);
    SettleVerdicts(w.creates, w.read, w.jobs, J.Source(w.service, w.fileId), command.jobId);
    SettleTruthful(w.facts, w.jobs, command.jobId);
    SettleHandsOff(w.creates, w.read, w.jobs, command.jobId);
    PublishedTruthful(w.facts, v.facts, v.jobs, Fact(command.jobId, S.Cancelled));
    JobsSideKeeps(w, v.jobs, v.facts);
  }

  lemma PublishedTruthful(facts: set<Fact>, more: set<Fact>, jobs: J.Jobs, one: Fact)
    requires Truthful(facts, jobs)
    requires more <= facts + {one}
    requires more <= facts || (!one.received.CreationRejected? && one.jobId in jobs.held && jobs.held[one.jobId].terminal)
    ensures Truthful(more, jobs)
  {
  }

  lemma DoingKeeps(w: World, d: Doing)
    requires Inv(w) && DoingEnabled(w, d)
    ensures Inv(AfterDoing(w, d))
  {
    match d
    case ReadsCreate => ReadKeeps(w);
    case ReadsOther(command) => OtherKeeps(w, command);
    case EndsJob(job) => SettleKeeps(w, job);
    case Publishes(fact) => PublishesKeeps(w, fact);
    case Retires(types) => RetiresKeeps(w, types);
  }

  lemma PublishesKeeps(w: World, fact: Fact)
    requires Inv(w) && DoingEnabled(w, Publishes(fact))
    ensures Inv(w.(facts := w.facts + {fact}))
  {
    JobsSideKeeps(w, w.jobs, w.facts + {fact});
  }

  lemma RetiresKeeps(w: World, types: set<string>)
    requires Inv(w)
    ensures Inv(w.(jobs := w.jobs.(retired := types)))
  {
    var jobs := w.jobs.(retired := types);
    forall i | 0 <= i < |w.creates| && w.creates[i].create.step > 0
      ensures HandedOff(w.creates, w.read, jobs, i)
    {
      assert HandedOff(w.creates, w.read, w.jobs, i);
    }
    JobsSideKeeps(w, jobs, w.facts);
  }

  // ---- the library ----

  lemma {:induction false} NothingStaged(commands: seq<Command>, chain: nat, length: nat)
    requires forall command :: command in commands ==> !command.JobCreate?
    ensures CreatesIn(commands, chain, length) == []
  {
    if commands != [] {
      NothingStaged(commands[1..], chain, length);
    }
  }

  lemma OneStaged(commands: seq<Command>, chain: nat, length: nat)
    requires |commands| == 1 && commands[0].JobCreate?
    ensures CreatesIn(commands, chain, length) == [Staged(commands[0].create, chain, length)]
  {
    assert CreatesIn(commands[1..], chain, length) == [];
  }

  /// The outbox's part of the invariant, once nothing new is asked of Jobs.
  lemma QuietBoard(w: World, v: World)
    requires Board(w)
    requires v.creates == w.creates && v.read == w.read && v.jobs == w.jobs && v.facts == w.facts
    requires v.service == w.service && v.fileId == w.fileId
    requires w.minted <= v.minted && (forall id :: id in v.minted ==> id.V7?) && w.chain <= v.chain
    ensures Board(v)
  {
  }

  /// Asking one more step of Jobs: a first step on a promoted source, or a next
  /// step once Jobs ended the previous one's job.
  lemma StageBoard(w: World, v: World, one: Staged)
    requires Board(w)
    requires v.creates == w.creates + [one] && v.read == w.read && v.jobs == w.jobs && v.facts == w.facts
    requires v.service == w.service && v.fileId == w.fileId
    requires w.minted <= v.minted && (forall id :: id in v.minted ==> id.V7?) && w.chain <= v.chain
    requires one.create.jobId in v.minted && !InFirst(w.creates, |w.creates|, one.create.jobId)
    requires J.FromLibrary(one.create) && one.create.sourceBc == Some(w.service) && one.create.sourceEntityId == Some(w.fileId)
    requires one.chain == v.chain && one.create.step < one.length
    requires one.create.step == 0 ==> forall i :: 0 <= i < |w.creates| ==> w.creates[i].chain < v.chain
    requires one.create.step > 0 ==>
               && w.creates != [] && w.read == |w.creates| && Free(w.jobs) && v.chain == w.chain
               && var last := w.creates[|w.creates| - 1];
                  last.create.step + 1 == one.create.step && last.chain == w.chain && last.create.jobId in w.jobs.held
    ensures Board(v)
  {
    var source := J.Source(w.service, w.fileId);
    ReadIsStaged(w.creates, w.read, one.create.jobId);
    StageOnce(w.creates, one, w.minted, v.minted);
    StageVerdicts(w.creates, one, w.read, w.jobs, source);
    StageHandsOff(w.creates, one, w.read, w.jobs);
    StageOrdered(w.creates, one, w.chain, v.chain);
    StageWellMade(w.creates, one, w.service, w.fileId);
  }

  lemma StageWellMade(creates: seq<Staged>, one: Staged, service: string, fileId: Uuid)
    requires WellMade(creates, service, fileId)
    requires J.FromLibrary(one.create) && one.create.sourceBc == Some(service) && one.create.sourceEntityId == Some(fileId)
    ensures WellMade(creates + [one], service, fileId)
  {
  }

  lemma ReadIsStaged(creates: seq<Staged>, n: nat, job: Uuid)
    ensures InFirst(creates, n, job) ==> InFirst(creates, |creates|, job)
  {
  }

  lemma StageOnce(creates: seq<Staged>, one: Staged, minted: set<Uuid>, more: set<Uuid>)
    requires StagedOnce(creates, minted) && minted <= more && (forall id :: id in more ==> id.V7?)
    requires one.create.jobId in more && !InFirst(creates, |creates|, one.create.jobId)
    ensures StagedOnce(creates + [one], more)
  {
    forall i | 0 <= i < |creates|
      ensures creates[i].create.jobId != one.create.jobId
    {
    }
  }

  lemma StageOrdered(creates: seq<Staged>, one: Staged, chain: nat, now: nat)
    requires Ordered(creates, chain) && chain <= now && one.chain == now && one.create.step < one.length
    requires one.create.step == 0 ==> forall i :: 0 <= i < |creates| ==> creates[i].chain < now
    ensures Ordered(creates + [one], now)
  {
  }

  lemma StageVerdicts(creates: seq<Staged>, one: Staged, read: nat, jobs: J.Jobs, source: J.Source)
    requires Verdicts(creates, read, jobs, source)
    ensures Verdicts(creates + [one], read, jobs, source)
  {
    forall job | InFirst(creates, read, job)
      ensures InFirst(creates + [one], read, job)
    {
      var i :| 0 <= i < read && i < |creates| && creates[i].create.jobId == job;
      assert (creates + [one])[i].create.jobId == job;
    }
  }

  lemma StageHandsOff(creates: seq<Staged>, one: Staged, read: nat, jobs: J.Jobs)
    requires HandsOff(creates, read, jobs) && read <= |creates|
    requires one.create.jobId !in jobs.rejections
    requires one.create.step > 0 ==>
               && creates != [] && read == |creates| && Free(jobs)
               && var last := creates[|creates| - 1];
                  last.create.step + 1 == one.create.step && last.chain == one.chain && last.create.jobId in jobs.held
    ensures HandsOff(creates + [one], read, jobs)
  {
    var more := creates + [one];
    forall i | 0 <= i < |more| && more[i].create.step > 0
      ensures HandedOff(more, read, jobs, i)
    {
      if i < |creates| {
        assert HandedOff(creates, read, jobs, i);
      }
    }
  }

  /// A move that stages nothing leaves the outbox's part as it was.
  lemma QuietCommitKeepsBoard(w: World, v: World, m: C.Move)
    requires Board(w) && C.StagesNothing(m)
    requires v.creates == w.creates && v.read == w.read && v.jobs == w.jobs && v.facts == w.facts
    requires v.service == w.service && v.fileId == w.fileId
    requires w.minted <= v.minted && (forall id :: id in v.minted ==> id.V7?) && w.chain <= v.chain
    ensures Board(Commit(v, m))
    ensures Commit(v, m).creates == w.creates
  {
    NothingStaged(m.commands, v.chain, |v.steps|);
    QuietBoard(w, Commit(v, m));
  }

  /// Where a chain that stays stood, it stands.
  lemma StaysPhase(w: World, u: World, r: S.Row, m: C.Move)
    requires C.Stays(r, m) && r.state == S.Processing && Phase(r, w)
    requires u.creates == w.creates && u.read == w.read && u.jobs == w.jobs && u.chain == w.chain && u.steps == w.steps
    ensures Phase(m.processing.row, u)
    ensures Closing(r) || (r.IsRunning() && m.processing.row.cancelRequestedAt.Some?) ==> Closing(m.processing.row)
  {
  }

  /// The row's part, the outbox and Jobs as they were.
  lemma QuietSeat(w: World, u: World, t: S.Row)
    requires Seat(w) && w.row.Some? && w.opening == Idle && u.row == Some(t)
    requires u.alive == w.alive && u.opening == Idle && u.creates == w.creates && w.minted <= u.minted
    requires S.Sound(t) && t.jobId == w.row.value.jobId && t.pastJobIds == w.row.value.pastJobIds
    requires t.nextJobId.Some? ==> t.nextJobId.value in u.minted
    requires t.state == S.Processing ==> Phase(t, u) && (u.closed ==> Closing(t))
    ensures Seat(u)
  {
  }

  lemma StaysKeepsInv(w: World, v: World, m: C.Move)
    requires Inv(w) && w.row.Some? && w.opening == Idle && C.Stays(w.row.value, m) && S.Sound(m.processing.row)
    requires v == w || (v == w.(closed := true) && w.row.value.IsRunning() && m.processing.row.cancelRequestedAt.Some?)
    ensures Inv(Commit(v, m))
  {
    QuietCommitKeepsBoard(w, v, m);
    var r, t, u := w.row.value, m.processing.row, Commit(v, m);
    if r.state == S.Processing {
      StaysPhase(w, u, r, m);
    }
    QuietSeat(w, u, t);
  }

  lemma SettlesKeepsInv(w: World, v: World, m: C.Move)
    requires Inv(w) && w.row.Some? && w.opening == Idle && C.Settles(w.row.value, m) && S.Sound(m.processing.row)
    requires v == w.(promotionDue := v.promotionDue, closed := v.closed, minted := v.minted)
    requires v.promotionDue ==> w.promotionDue
    requires w.minted <= v.minted && (forall id :: id in v.minted ==> id.V7?)
    ensures Inv(Commit(v, m))
  {
    QuietCommitKeepsBoard(w, v, m);
    QuietSeat(w, Commit(v, m), m.processing.row);
  }

  lemma HoldsSeat(w: World, u: World, m: C.Move, minted: Uuid)
    requires Board(w) && Seat(w) && w.row.Some? && w.opening == Idle && C.Holds(w.File(), w.row.value, m, minted)
    requires S.Sound(m.processing.row) && w.row.value.jobId in w.jobs.held && FreshId(w, minted)
    requires u == w.(minted := w.minted + {minted}, row := Some(m.processing.row), log := u.log, sent := u.sent)
    ensures Seat(u)
  {
    HoldsPhase(w, w.row.value, u, m.processing.row, minted);
    QuietSeat(w, u, m.processing.row);
  }

  lemma HoldsKeepsInv(w: World, v: World, m: C.Move, minted: Uuid)
    requires Inv(w) && w.row.Some? && w.opening == Idle && C.Holds(w.File(), w.row.value, m, minted) && S.Sound(m.processing.row)
    requires w.row.value.jobId in w.jobs.held
    requires FreshId(w, minted) && v == w.(minted := w.minted + {minted})
    ensures Inv(Commit(v, m))
  {
    MintedAreOurs(w, minted);
    QuietCommitKeepsBoard(w, v, m);
    HoldsSeat(w, Commit(v, m), m, minted);
  }

  /// A held step waits for the last job Jobs was asked, which Jobs read.
  lemma HoldsPhase(w: World, r: S.Row, u: World, t: S.Row, minted: Uuid)
    requires StagedOnce(w.creates, w.minted) && Verdicts(w.creates, w.read, w.jobs, J.Source(w.service, w.fileId))
    requires LastIsCurrent(r, w.creates, w.chain, |w.steps|) && r.jobId in w.jobs.held && minted !in w.minted
    requires t.state == S.Processing && t.nextJobId == Some(minted) && !t.awaitingSource && t.cancelRequestedAt.None?
    requires t.jobId == r.jobId && t.stepIndex == r.stepIndex && C.HasNext(w.File(), r)
    requires u.creates == w.creates && u.read == w.read && u.jobs == w.jobs && u.chain == w.chain && u.steps == w.steps
    ensures Phase(t, u)
  {
    LastIsRead(w.creates, w.minted, w.read, w.jobs, J.Source(w.service, w.fileId), r.jobId);
    NeverAsked(w.creates, w.minted, minted);
  }

  /// Jobs holds the last job asked: it read all that was.
  lemma LastIsRead(creates: seq<Staged>, minted: set<Uuid>, read: nat, jobs: J.Jobs, source: J.Source, job: Uuid)
    requires StagedOnce(creates, minted) && Verdicts(creates, read, jobs, source)
    requires creates != [] && creates[|creates| - 1].create.jobId == job && job in jobs.held
    ensures read == |creates|
  {
    assert InFirst(creates, read, job);
    var i :| 0 <= i < read && i < |creates| && creates[i].create.jobId == job;
  }

  lemma NeverAsked(creates: seq<Staged>, minted: set<Uuid>, id: Uuid)
    requires StagedOnce(creates, minted) && id !in minted
    ensures !InFirst(creates, |creates|, id)
  {
  }

  lemma AwaitsKeepsInv(w: World, v: World, m: C.Move, minted: Uuid)
    requires Inv(w) && w.opening == Decided(true) && FreshId(w, minted)
    requires v == w.(steps := v.steps, chain := w.chain + 1, closed := false, opening := Idle, minted := w.minted + {minted})
    requires C.Awaits(v.File(), m, minted) && S.Sound(m.processing.row)
    requires forall job :: m.processing.row.Knows(job) ==> job in v.minted
    requires forall i :: 0 <= i < |w.creates| ==> m.processing.row.Knows(w.creates[i].create.jobId)
    ensures Inv(Commit(v, m))
  {
    QuietCommitKeepsBoard(w, v, m);
    assert !InFirst(w.creates, |w.creates|, minted);
  }

  lemma LaunchBoard(w: World, v: World, m: C.Move, index: nat, jobId: Uuid)
    requires Board(w) && C.Launches(v.File(), m, index, jobId)
    requires v == w.(steps := v.steps, chain := v.chain, closed := v.closed, opening := v.opening, minted := v.minted,
                     promotionDue := v.promotionDue)
    requires w.minted <= v.minted && (forall id :: id in v.minted ==> id.V7?) && w.chain <= v.chain
    requires jobId in v.minted && !InFirst(w.creates, |w.creates|, jobId)
    requires index == 0 ==> forall i :: 0 <= i < |w.creates| ==> w.creates[i].chain < v.chain
    requires index > 0 ==>
               && w.creates != [] && w.read == |w.creates| && Free(w.jobs) && v.chain == w.chain
               && var last := w.creates[|w.creates| - 1];
                  last.create.step + 1 == index && last.chain == w.chain && last.create.jobId in w.jobs.held
    ensures Board(Commit(v, m))
    ensures Commit(v, m).creates == w.creates + [Staged(m.commands[0].create, v.chain, |v.steps|)]
  {
    OneStaged(m.commands, v.chain, |v.steps|);
    var create := m.commands[0].create;
    assert J.FromLibrary(create) by {
      var passport := Decode(create.passport.value).value;
      var initiator: Option<Initiator> :| create.triggeredBy == TriggeredByOf(passport, initiator);
    }
    StageBoard(w, Commit(v, m), Staged(create, v.chain, |v.steps|));
  }

  lemma LaunchSeat(w: World, v: World, m: C.Move, index: nat, jobId: Uuid)
    requires C.Launches(v.File(), m, index, jobId) && S.Sound(m.processing.row)
    requires v.alive && v.opening == Idle && !v.closed
    requires Commit(v, m).creates == w.creates + [Staged(m.commands[0].create, v.chain, |v.steps|)]
    requires forall job :: m.processing.row.Knows(job) ==> job in v.minted
    requires forall i :: 0 <= i < |w.creates| ==> m.processing.row.Knows(w.creates[i].create.jobId)
    ensures Seat(Commit(v, m))
  {
    var u := Commit(v, m);
    forall i | 0 <= i < |u.creates|
      ensures m.processing.row.Knows(u.creates[i].create.jobId)
    {
    }
  }

  /// Jobs ended the last job it accepted, nothing left to read: the file is free.
  lemma LastEndedIsFree(creates: seq<Staged>, read: nat, jobs: J.Jobs, source: J.Source)
    requires Verdicts(creates, read, jobs, source) && creates != [] && read == |creates|
    requires var last := creates[|creates| - 1].create.jobId; last in jobs.held && jobs.held[last].terminal
    ensures Free(jobs)
  {
    forall job | job in jobs.held
      ensures jobs.held[job].terminal
    {
      var i :| 0 <= i < read && i < |creates| && creates[i].create.jobId == job;
      if i < |creates| - 1 {
        assert !J.Live(jobs.held, creates[i].create.jobId);
      }
    }
  }

  lemma EndIsTerminal(facts: set<Fact>, jobs: J.Jobs, fact: Fact)
    requires Truthful(facts, jobs) && fact in facts && fact.received.End()
    requires fact.jobId in jobs.held ==> fact.jobId !in jobs.rejections
    ensures fact.jobId in jobs.held ==> jobs.held[fact.jobId].terminal
  {
  }

  lemma StartKeeps(w: World, v: World, p: S.Aggregate, rulesetId: Option<Uuid>, trigger: S.Trigger, initiator: Initiator,
                   passport: Passport, priority: Option<int>, minted: Uuid, at: Instant)
    requires Inv(w) && w.opening.Decided? && FreshId(w, minted) && p == w.Load(at) && v.steps != []
    requires v == w.(steps := v.steps, chain := w.chain + 1, closed := false, opening := Idle, minted := w.minted + {minted})
    ensures Inv(CommitIf(v, C.StartChain(v.File(), p, rulesetId, trigger, initiator, passport, priority,
                                         w.opening.sourcePending, minted, at)))
  {
    C.StartTurns(v.File(), p, rulesetId, trigger, initiator, passport, priority, w.opening.sourcePending, minted, at);
    C.StartRemembers(v.File(), p, rulesetId, trigger, initiator, passport, priority, w.opening.sourcePending, minted, at);
    var m := C.StartChain(v.File(), p, rulesetId, trigger, initiator, passport, priority,
                          w.opening.sourcePending, minted, at).value;
    StartKnows(w, p, m.processing.row, minted, at);
    if w.opening.sourcePending {
      AwaitsKeepsInv(w, v, m, minted);
    } else {
      StartLaunches(w, v, m, minted);
    }
  }

  /// The ids a started chain's row knows, and the jobs it recognises.
  lemma StartKnows(w: World, p: S.Aggregate, t: S.Row, minted: Uuid, at: Instant)
    requires Seat(w) && StagedOnce(w.creates, w.minted) && w.alive && p == w.Load(at) && S.Sound(t) && t.state == S.Processing
    requires forall job :: p.row.Knows(job) && job != Nil ==> t.Knows(job)
    requires forall job :: t.Knows(job) ==> job == minted || p.row.Knows(job)
    ensures forall job :: t.Knows(job) ==> job in w.minted + {minted}
    ensures forall i :: 0 <= i < |w.creates| ==> t.Knows(w.creates[i].create.jobId)
  {
    assert !t.Knows(Nil);
    forall i | 0 <= i < |w.creates|
      ensures t.Knows(w.creates[i].create.jobId)
    {
      assert w.creates[i].create.jobId in w.minted;
      assert p.row.Knows(w.creates[i].create.jobId);
    }
  }

  lemma StartLaunches(w: World, v: World, m: C.Move, minted: Uuid)
    requires Inv(w) && w.opening == Decided(false) && FreshId(w, minted)
    requires v == w.(steps := v.steps, chain := w.chain + 1, closed := false, opening := Idle, minted := w.minted + {minted})
    requires C.Launches(v.File(), m, 0, minted) && S.Sound(m.processing.row)
    requires forall job :: m.processing.row.Knows(job) ==> job in v.minted
    requires forall i :: 0 <= i < |w.creates| ==> m.processing.row.Knows(w.creates[i].create.jobId)
    ensures Inv(Commit(v, m))
  {
    LaunchBoard(w, v, m, 0, minted);
    LaunchSeat(w, v, m, 0, minted);
  }

  lemma ReportedKeeps(w: World, v: World, m: C.Move, minted: Uuid)
    requires Inv(w) && w.opening == Idle && w.row.Some? && w.row.value.jobId in w.jobs.held && FreshId(w, minted)
    requires S.Sound(m.processing.row)
    requires C.Settles(w.row.value, m) || C.Holds(w.File(), w.row.value, m, minted)
    requires v == w.(minted := w.minted + {minted}) && forall id :: id in v.minted ==> id.V7?
    ensures Inv(Commit(v, m))
  {
    if C.Settles(w.row.value, m) {
      SettlesKeepsInv(w, v, m);
    } else {
      HoldsKeepsInv(w, v, m, minted);
    }
  }

  lemma ReportDoneKeeps(w: World, p: S.Aggregate, minted: Uuid, at: Instant)
    requires Inv(w) && w.opening == Idle && w.row.Some? && w.row.value.IsRunning() && w.row.value.jobId in w.jobs.held
    requires FreshId(w, minted) && p == w.Load(at)
    ensures Inv(Commit(w.(minted := w.minted + {minted}), C.ReportDone(w.File(), p, minted, at)))
  {
    var v, m := w.(minted := w.minted + {minted}), C.ReportDone(w.File(), p, minted, at);
    ReportedTurns(w, w.row.value, p, m, minted, at);
    MintedAreOurs(w, minted);
    ReportedKeeps(w, v, m, minted);
  }

  lemma ReportedTurns(w: World, r: S.Row, p: S.Aggregate, m: C.Move, minted: Uuid, at: Instant)
    requires Seat(w) && w.row == Some(r) && r.IsRunning() && FreshId(w, minted) && p.row == r
    requires m == C.ReportDone(w.File(), p, minted, at)
    ensures S.Sound(m.processing.row) && (C.Settles(r, m) || C.Holds(w.File(), r, m, minted))
  {
    MintedIsFresh(w, minted);
    C.ReportDoneTurns(w.File(), p, minted, at);
  }

  lemma MintedAreOurs(w: World, minted: Uuid)
    requires StagedOnce(w.creates, w.minted) && FreshId(w, minted)
    ensures forall id :: id in w.minted + {minted} ==> id.V7?
  {
  }

  lemma MintedIsFresh(w: World, minted: Uuid)
    requires Seat(w) && w.row.Some? && FreshId(w, minted)
    ensures S.Fresh(w.row.value, minted)
  {
  }

  lemma FailsKeeps(w: World, p: S.Aggregate, reason: string, message: Option<string>, at: Instant)
    requires Inv(w) && w.opening == Idle && w.row.Some? && w.row.value.state == S.Processing && p == w.Load(at)
    ensures Inv(Commit(w, C.ReportFailed(p, reason, message, at)))
  {
    C.StopTurns(w.File(), p, reason, message, at);
    SettlesKeepsInv(w, w, C.ReportFailed(p, reason, message, at));
  }

  lemma FreezeKeeps(w: World, p: S.Aggregate, at: Instant)
    requires Inv(w) && w.opening == Idle && w.row.Some? && w.row.value.state == S.Processing && p == w.Load(at)
    ensures Inv(Commit(w.(closed := true), C.Freeze(w.File(), p, at)))
  {
    C.StopTurns(w.File(), p, "", None, at);
    SettlesKeepsInv(w, w.(closed := true), C.Freeze(w.File(), p, at));
  }

  lemma CancelKeeps(w: World, p: S.Aggregate, at: Instant)
    requires Inv(w) && w.opening == Idle && w.row.Some? && w.row.value.state == S.Processing && p == w.Load(at)
    ensures Inv(CommitIf(w.(closed := true), C.CancelProcessing(w.File(), p, at)))
  {
    C.StopTurns(w.File(), p, "", None, at);
    var m := C.CancelProcessing(w.File(), p, at).value;
    if p.row.IsRunning() {
      StaysKeepsInv(w, w.(closed := true), m);
    } else {
      SettlesKeepsInv(w, w.(closed := true), m);
    }
  }

  /// Once Jobs ended the job a held step waits for, the file is free.
  lemma HeldIsFree(w: World, r: S.Row, fact: Fact)
    requires Board(w) && Phase(r, w) && fact in w.facts && C.Releases(r, fact.jobId, fact.received)
    ensures w.read == |w.creates| && Free(w.jobs) && LastIsCurrent(r, w.creates, w.chain, |w.steps|) && r.jobId in w.jobs.held
  {
    EndIsTerminal(w.facts, w.jobs, fact);
    LastEndedIsFree(w.creates, w.read, w.jobs, J.Source(w.service, w.fileId));
  }

  /// The released job's row still recognises every job of the file.
  lemma ReleaseKnows(creates: seq<Staged>, minted: set<Uuid>, r: S.Row, t: S.Row)
    requires RowKnows(r, creates, minted) && r.nextJobId == Some(t.jobId)
    requires t.pastJobIds == r.pastJobIds + [r.jobId]
    ensures forall job :: t.Knows(job) ==> job in minted
    ensures forall i :: 0 <= i < |creates| ==> t.Knows(creates[i].create.jobId)
  {
    assert forall job :: r.Knows(job) ==> t.Knows(job);
  }

  /// A released step is asked of Jobs on a free file.
  lemma ReleaseKeeps(w: World, r: S.Row, m: C.Move, fact: Fact)
    requires Inv(w) && w.opening == Idle && w.row == Some(r) && fact in w.facts && C.Releases(r, fact.jobId, fact.received)
    requires Readable(r.passport) && S.Sound(m.processing.row)
    requires r.nextJobId.Some? && C.Launches(w.File(), m, r.stepIndex + 1, r.nextJobId.value)
    requires m.processing.row.pastJobIds == r.pastJobIds + [r.jobId]
    ensures Inv(Commit(w, m))
  {
    HeldIsFree(w, r, fact);
    ReleaseKnows(w.creates, w.minted, r, m.processing.row);
    LaunchBoard(w, w, m, r.stepIndex + 1, r.nextJobId.value);
    LaunchSeat(w, w, m, r.stepIndex + 1, r.nextJobId.value);
  }

  lemma FactKeeps(w: World, p: S.Aggregate, fact: Fact, at: Instant)
    requires Inv(w) && w.opening == Idle && w.row.Some? && fact in w.facts && p == w.Load(at)
    ensures Inv(CommitIf(w, C.React(w.File(), p, fact.jobId, fact.received, at)))
  {
    C.ReactTurns(w.File(), p, fact.jobId, fact.received, at);
    var m := C.React(w.File(), p, fact.jobId, fact.received, at).value;
    if C.Stays(p.row, m) {
      StaysKeepsInv(w, w, m);
    } else if C.Settles(p.row, m) {
      SettlesKeepsInv(w, w, m);
    } else {
      ReleaseKeeps(w, p.row, m, fact);
    }
  }

  /// An awaited step is asked of Jobs once its source is promoted.
  lemma PromotedKeeps(w: World, v: World, r: S.Row, m: C.Move)
    requires Inv(w) && w.opening == Idle && w.row == Some(r) && r.awaitingSource && w.promotionSent
    requires v == w.(promotionDue := false) && Readable(r.passport) && S.Sound(m.processing.row)
    requires C.Launches(v.File(), m, r.stepIndex, r.jobId) && m.processing.row.pastJobIds == r.pastJobIds
    ensures Inv(Commit(v, m))
  {
    LaunchBoard(w, v, m, r.stepIndex, r.jobId);
    LaunchSeat(w, v, m, r.stepIndex, r.jobId);
  }

  lemma NothingMoved(v: World, m: C.Move)
    requires v.row == Some(m.processing.row) && m.processing.pending == [] && m.commands == []
    ensures Commit(v, m) == v
  {
  }

  lemma PromotionKeeps(w: World, v: World, p: S.Aggregate, at: Instant)
    requires Inv(w) && w.opening == Idle && w.promotionSent && w.row.Some? && p == w.Load(at)
    requires v == w.(promotionDue := false)
    ensures Inv(CommitIf(v, C.SourcePromoted(w.File(), p, at)))
  {
    C.PromotedTurns(w.File(), p, at);
    var m := C.SourcePromoted(w.File(), p, at).value;
    if !p.row.awaitingSource {
      NothingMoved(v, m);
    } else if C.Settles(p.row, m) {
      SettlesKeepsInv(w, v, m);
    } else {
      PromotedKeeps(w, v, p.row, m);
    }
  }

  lemma OpeningKeeps(w: World, g: Gesture)
    requires Inv(w) && GestureEnabled(w, g) && (g.LockForStart? || g.ReadSource? || g.RefuseStart?)
    ensures Inv(Beside(w, g))
  {
  }

  lemma OwnGestureKeeps(w: World, g: Gesture)
    requires Inv(w) && GestureEnabled(w, g)
    requires g.RunnerReportsDone? || g.RunnerReportsFailure? || g.UserCancels? || g.HostFreezes?
    ensures Inv(CommitIf(Beside(w, g), Moved(w, g)))
  {
    match g
    case RunnerReportsDone(_, minted, at) => ReportDoneKeeps(w, w.Load(at), minted, at);
    case RunnerReportsFailure(_, reason, message, at) => FailsKeeps(w, w.Load(at), reason, message, at);
    case UserCancels(at) => CancelKeeps(w, w.Load(at), at);
    case HostFreezes(at) => FreezeKeeps(w, w.Load(at), at);
  }

  lemma DeliveryKeeps(w: World, g: Gesture)
    requires Inv(w) && GestureEnabled(w, g) && (g.FactDelivered? || g.PromotionDelivered?)
    ensures Inv(CommitIf(Beside(w, g), Moved(w, g)))
  {
    if w.row.Some? {
      match g
      case FactDelivered(fact, at) => FactKeeps(w, w.Load(at), fact, at);
      case PromotionDelivered(at) => PromotionKeeps(w, Beside(w, g), w.Load(at), at);
    }
  }

  lemma StartGestureKeeps(w: World, g: Gesture)
    requires Inv(w) && GestureEnabled(w, g) && g.CommitStart?
    ensures Inv(CommitIf(Beside(w, g), Moved(w, g)))
  {
    StartKeeps(w, Beside(w, g), w.Load(g.at), g.rulesetId, g.trigger, g.initiator, g.passport, g.priority, g.minted, g.at);
  }

  lemma GestureKeeps(w: World, g: Gesture)
    requires Inv(w) && GestureEnabled(w, g)
    ensures Inv(CommitIf(Beside(w, g), Moved(w, g)))
  {
    if g.CommitStart? {
      StartGestureKeeps(w, g);
    } else if g.LockForStart? || g.ReadSource? || g.RefuseStart? {
      OpeningKeeps(w, g);
    } else if g.FactDelivered? || g.PromotionDelivered? {
      DeliveryKeeps(w, g);
    } else {
      OwnGestureKeeps(w, g);
    }
  }

  /// Every step keeps the invariant.
  lemma StepKeeps(w: World, a: Action)
    requires Inv(w) && Enabled(w, a)
    ensures Inv(Next(w, a))
  {
    match a
    case Library(gesture) => GestureKeeps(w, gesture);
    case Around(event) => EventKeeps(w, event);
    case Jobs(doing) => DoingKeeps(w, doing);
  }
}
