/// What every step of the protocol keeps.
module ProtocolInvariant {
  import opened Common
  import opened Contract
  import opened Protocol
  import S = ProcessingState
  import C = Chain
  import J = JobsLedger

  // ---- the outbox and Jobs ----

  predicate InFirst(creates: seq<Staged>, n: nat, job: Uuid) {
    exists i :: 0 <= i < n && i < |creates| && creates[i].create.jobId == job
  }

  /// A `job.create` is staged once per id, and every id is minted.
  predicate StagedOnce(creates: seq<Staged>, minted: set<Uuid>) {
    && (forall id :: id in minted ==> id.V7?)
    && (forall i :: 0 <= i < |creates| ==> creates[i].create.jobId in minted)
    && (forall i, j :: 0 <= i < j < |creates| ==> creates[i].create.jobId != creates[j].create.jobId)
  }

  /// Jobs holds or refused only what it read, for this file, and the live job, if
  /// any, is the last one it accepted.
  ghost predicate Verdicts(creates: seq<Staged>, read: nat, jobs: J.Jobs, source: J.Source) {
    && read <= |creates|
    && (forall job :: job in jobs.held ==> InFirst(creates, read, job) && job !in jobs.rejections)
    && (forall job :: job in jobs.rejections ==> InFirst(creates, read, job))
    && (forall job :: job in jobs.held ==> jobs.held[job].source == Some(source))
    && (forall i, k :: 0 <= i < k < read && creates[k].create.jobId in jobs.held ==>
          !J.Live(jobs.held, creates[i].create.jobId))
  }

  predicate Free(jobs: J.Jobs) {
    forall job :: job in jobs.held ==> jobs.held[job].terminal
  }

  /// A fact in flight tells what Jobs did.
  ghost predicate Truthful(facts: set<Fact>, jobs: J.Jobs) {
    forall fact :: fact in facts ==>
      if fact.received.CreationRejected? then fact.jobId in jobs.rejections
      else fact.jobId in jobs.held && (fact.received.End() ==> jobs.held[fact.jobId].terminal)
  }

  /// A next step's `job.create` follows its previous step's, whose job Jobs made
  /// terminal, and finds the file free; Jobs never refuses it as a duplicate.
  ghost predicate HandsOff(creates: seq<Staged>, read: nat, jobs: J.Jobs) {
    forall i :: 0 <= i < |creates| && creates[i].create.step > 0 ==> HandedOff(creates, read, jobs, i)
  }

  ghost predicate HandedOff(creates: seq<Staged>, read: nat, jobs: J.Jobs, i: nat)
    requires i < |creates|
  {
    && i > 0
    && creates[i - 1].create.step + 1 == creates[i].create.step
    && creates[i - 1].chain == creates[i].chain
    && creates[i - 1].create.jobId in jobs.held
    && jobs.held[creates[i - 1].create.jobId].terminal
    && (i >= read ==> i == read && Free(jobs))
    && (creates[i].create.jobId in jobs.rejections ==>
          jobs.rejections[creates[i].create.jobId].reasonCode != J.DUPLICATE_ACTIVE_ENTITY)
  }

  /// Chains are staged one after the other, each from its step 0.
  predicate Ordered(creates: seq<Staged>, chain: nat) {
    && (forall i :: 0 <= i < |creates| ==> creates[i].chain <= chain && creates[i].create.step < creates[i].length)
    && (forall i, j :: 0 <= i < j < |creates| ==> creates[i].chain <= creates[j].chain)
    && (forall i, j :: 0 <= i < j < |creates| && creates[j].create.step == 0 ==> creates[i].chain < creates[j].chain)
  }

  /// Every `job.create` staged is one Jobs can only refuse for its place.
  ghost predicate WellMade(creates: seq<Staged>, service: string, fileId: Uuid) {
    forall i :: 0 <= i < |creates| ==>
      && J.FromLibrary(creates[i].create)
      && creates[i].create.sourceBc == Some(service)
      && creates[i].create.sourceEntityId == Some(fileId)
  }

  ghost predicate Board(w: World) {
    && w.fileId.V7?
    && StagedOnce(w.creates, w.minted)
    && Verdicts(w.creates, w.read, w.jobs, J.Source(w.service, w.fileId))
    && Truthful(w.facts, w.jobs)
    && HandsOff(w.creates, w.read, w.jobs)
    && Ordered(w.creates, w.chain)
    && WellMade(w.creates, w.service, w.fileId)
  }

  // ---- the row ----

  /// The row recognises every job ever asked of Jobs, and every id it holds was minted.
  ghost predicate RowKnows(r: S.Row, creates: seq<Staged>, minted: set<Uuid>) {
    && S.Sound(r)
    && (forall job :: r.Knows(job) ==> job in minted)
    && (r.nextJobId.Some? ==> r.nextJobId.value in minted)
    && (forall i :: 0 <= i < |creates| ==> r.Knows(creates[i].create.jobId))
  }

  /// The last `job.create` staged is the one of the row's last job.
  predicate LastIsCurrent(r: S.Row, creates: seq<Staged>, chain: nat, length: nat) {
    && creates != []
    && creates[|creates| - 1].create.jobId == r.jobId
    && creates[|creates| - 1].create.step == r.stepIndex
    && creates[|creates| - 1].chain == chain
    && creates[|creates| - 1].length == length
  }

  ghost predicate Phase(r: S.Row, w: World) {
    && r.stepIndex < |w.steps|
    && (r.IsRunning() ==> LastIsCurrent(r, w.creates, w.chain, |w.steps|))
    && (r.nextJobId.Some? ==>
          && LastIsCurrent(r, w.creates, w.chain, |w.steps|)
          && C.HasNext(w.File(), r) && r.cancelRequestedAt.None?
          && w.read == |w.creates| && r.jobId in w.jobs.held
          && !InFirst(w.creates, |w.creates|, r.nextJobId.value))
    && (r.awaitingSource ==>
          && r.stepIndex == 0 && r.cancelRequestedAt.None?
          && !InFirst(w.creates, |w.creates|, r.jobId)
          && forall i :: 0 <= i < |w.creates| ==> w.creates[i].chain < w.chain)
  }

  predicate Readable(stored: Option<Document>) {
    ChainPassport(stored).Ok?
  }

  /// After a cancel, a freeze or a lost Passport the chain can only end.
  predicate Closing(r: S.Row) {
    !Readable(r.passport) || (r.IsRunning() && r.cancelRequestedAt.Some?)
  }

  ghost predicate Seat(w: World) {
    && (w.row.None? && w.alive ==> w.creates == [] && w.log == [])
    && (w.opening != Idle ==> w.alive && w.Settled())
    && (w.row.Some? ==>
          && w.alive
          && RowKnows(w.row.value, w.creates, w.minted)
          && (w.row.value.state == S.Processing ==>
                Phase(w.row.value, w) && (w.closed ==> Closing(w.row.value))))
  }

  // ---- the source ----

  /// No wake-up is lost, and nothing is asked of Jobs on a pending source.
  ghost predicate Awake(w: World) {
    && (w.promotionDue ==> w.promotionSent)
    && (w.promotionSent ==> w.source == Promoted)
    && (w.source == Pending ==> w.creates == [])
    && (w.opening == Decided(false) ==> w.source != Pending)
    && (w.source == Promoted && w.alive && w.opening == Decided(true) ==> w.promotionDue)
    && (w.source == Promoted && w.row.Some? && w.row.value.awaitingSource ==> w.promotionDue)
  }

  ghost predicate Inv(w: World) {
    Board(w) && Seat(w) && Awake(w)
  }

  lemma InitialHolds(w: World)
    requires Initial(w)
    ensures Inv(w)
  {
  }
}
