/// One file's processing against Jobs, as a transition system: the library's
/// gestures and reactions, the outbox, Jobs, the facts in flight, and the
/// engine promoting the file's source.
///
/// A gesture or a reaction is one step, since it locks the file first; a chain's
/// start is three, the promotion's own transaction running beside it. Jobs reads
/// the `job.create`s in the order they were staged, each once; every other
/// command and every fact is read in any order, any number of times, or never.
module Protocol {
  import opened Common
  import opened Contract
  import S = ProcessingState
  import C = Chain
  import J = JobsLedger

  /// The source's blob: awaiting the engine's promotion, promoted, or never to be.
  datatype Source = Pending | Promoted | Unpromotable

  /// A chain's start under the file's lock: taken, then the blob's state read.
  datatype Opening = Idle | Locked | Decided(sourcePending: bool)

  /// A `job.create` as staged, with the number and the length of its chain.
  datatype Staged = Staged(create: CreateJob, chain: nat, length: nat)

  datatype Fact = Fact(jobId: Uuid, received: S.Received)

  datatype World = World(
    service: string, fileId: Uuid,
    alive: bool,                 // the file exists
    row: Option<S.Row>,          // its processing row
    log: seq<S.Stamped>,         // every event of its processing, as handed to the host
    steps: seq<Step>,            // its steps snapshot
    opening: Opening,
    source: Source,
    promotionSent: bool,         // `SourcePromoted` was enqueued
    promotionDue: bool,          // ... and not delivered yet
    creates: seq<Staged>,        // every `job.create` staged, in order
    read: nat,                   // how many of them Jobs read
    sent: set<Command>,          // every other command staged
    jobs: J.Jobs,
    facts: set<Fact>,            // every fact Jobs published
    minted: set<Uuid>,           // every id minted
    chain: nat,                  // how many chains started
    closed: bool)                // a cancel, a freeze or a lost Passport since the last start
  {
    function File(): C.File {
      C.File(service, fileId, steps)
    }

    /// The processing as a gesture loads it: the stored one, or a blank.
    function Load(at: Instant): S.Aggregate {
      if row.Some? then S.Aggregate(row.value, |log|, []) else S.Aggregate(S.Blank(at), 0, [])
    }

    predicate Settled() {
      row.None? || row.value.state != S.Processing
    }
  }

  /// The library's gestures and reactions.
  datatype Gesture =
    | LockForStart
    | ReadSource
    | RefuseStart
    | CommitStart(steps: seq<Step>, rulesetId: Option<Uuid>, trigger: S.Trigger, initiator: Initiator,
                  passport: Passport, priority: Option<int>, minted: Uuid, at: Instant)
    | RunnerReportsDone(jobId: Uuid, minted: Uuid, at: Instant)
    | RunnerReportsFailure(jobId: Uuid, reason: string, message: Option<string>, at: Instant)
    | UserCancels(at: Instant)
    | HostFreezes(at: Instant)
    | FactDelivered(fact: Fact, at: Instant)
    | PromotionDelivered(at: Instant)

  /// The engine, the erase of a person, the file's deletion.
  datatype Event =
    | SourcePromotes
    | SourceFails
    | PassportLost(left: Option<Document>)
    | FileDeleted

  /// Jobs reads what it was sent, ends its jobs, and publishes.
  datatype Doing =
    | ReadsCreate
    | ReadsOther(command: Command)
    | EndsJob(jobId: Uuid)
    | Publishes(fact: Fact)
    | Retires(types: set<string>)

  datatype Action = Library(gesture: Gesture) | Around(event: Event) | Jobs(doing: Doing)

  function CreatesIn(commands: seq<Command>, chain: nat, length: nat): seq<Staged> {
    if commands == [] then []
    else (if commands[0].JobCreate? then [Staged(commands[0].create, chain, length)] else [])
         + CreatesIn(commands[1..], chain, length)
  }

  function OthersIn(commands: seq<Command>): set<Command> {
    set command | command in commands && !command.JobCreate?
  }

  /// The gesture's transaction commits: the row, its facts, its commands.
  function Commit(w: World, moved: C.Move): World {
    w.(row := Some(moved.processing.row), log := w.log + moved.processing.pending,
       creates := w.creates + CreatesIn(moved.commands, w.chain, |w.steps|),
       sent := w.sent + OthersIn(moved.commands))
  }

  /// A gesture that faults is rolled back.
  function CommitIf(w: World, moved: Option<C.Move>): World {
    if moved.Some? then Commit(w, moved.value) else w
  }

  function AsFact(published: J.Published): Fact {
    match published
    case Queued(id, runnerType) => Fact(id, S.Queued(runnerType))
    case Rejected(rejection) => Fact(rejection.jobId, S.CreationRejected(rejection.reasonCode, rejection.params))
    case Cancelled(id) => Fact(id, S.Cancelled)
  }

  ghost function JobsReads(w: World, command: Command): World {
    var published := J.PublishedOn(w.jobs, command);
    w.(jobs := J.Consumed(w.jobs, command), facts := w.facts + (set p | p in published :: AsFact(p)))
  }

  predicate FreshId(w: World, id: Uuid) {
    id.V7? && id !in w.minted
  }

  predicate GestureEnabled(w: World, g: Gesture) {
    match g
    case LockForStart => w.opening == Idle && w.alive && w.Settled()
    case ReadSource => w.opening == Locked
    case RefuseStart => w.opening != Idle
    case CommitStart(steps, _, _, _, _, _, minted, _) => w.opening.Decided? && steps != [] && FreshId(w, minted)
    // A runner only ever works on a job Jobs accepted, and only the running job is its to report.
    case RunnerReportsDone(job, minted, _) =>
      w.opening == Idle && w.row.Some? && w.row.value.IsRunning() && w.row.value.jobId == job
      && job in w.jobs.held && FreshId(w, minted)
    case RunnerReportsFailure(job, _, _, _) =>
      w.opening == Idle && w.row.Some? && w.row.value.IsRunning() && w.row.value.jobId == job && job in w.jobs.held
    case UserCancels(_) => w.opening == Idle && w.row.Some? && w.row.value.state == S.Processing
    case HostFreezes(_) => w.opening == Idle && w.row.Some? && w.row.value.state == S.Processing
    case FactDelivered(fact, _) => w.opening == Idle && fact in w.facts
    case PromotionDelivered(_) => w.opening == Idle && w.promotionSent
  }

  /// What the gesture makes of the processing; `None` when it leaves it alone or faults.
  function Moved(w: World, g: Gesture): Option<C.Move>
    requires GestureEnabled(w, g)
  {
    match g
    case CommitStart(steps, rulesetId, trigger, initiator, passport, priority, minted, at) =>
      C.StartChain(C.File(w.service, w.fileId, steps), w.Load(at), rulesetId, trigger, initiator, passport, priority,
                   w.opening.sourcePending, minted, at)
    case RunnerReportsDone(_, minted, at) => Some(C.ReportDone(w.File(), w.Load(at), minted, at))
    case RunnerReportsFailure(_, reason, message, at) => Some(C.ReportFailed(w.Load(at), reason, message, at))
    case UserCancels(at) => C.CancelProcessing(w.File(), w.Load(at), at)
    case HostFreezes(at) => Some(C.Freeze(w.File(), w.Load(at), at))
    case FactDelivered(fact, at) =>
      if w.row.Some? && w.row.value.Knows(fact.jobId)
      then C.React(w.File(), w.Load(at), fact.jobId, fact.received, at)
      else None
    case PromotionDelivered(at) => if w.row.Some? then C.SourcePromoted(w.File(), w.Load(at), at) else None
    case LockForStart => None
    case ReadSource => None
    case RefuseStart => None
  }

  /// What the gesture moves beside the processing.
  function Beside(w: World, g: Gesture): World {
    match g
    case LockForStart => w.(opening := Locked)
    case ReadSource => w.(opening := Decided(w.source == Pending))
    case RefuseStart => w.(opening := Idle)
    case CommitStart(steps, _, _, _, _, _, minted, _) =>
      w.(steps := steps, chain := w.chain + 1, closed := false, opening := Idle, minted := w.minted + {minted})
    case RunnerReportsDone(_, minted, _) => w.(minted := w.minted + {minted})
    case RunnerReportsFailure(_, _, _, _) => w
    case UserCancels(_) => w.(closed := true)
    case HostFreezes(_) => w.(closed := true)
    case FactDelivered(_, _) => w
    case PromotionDelivered(_) => w.(promotionDue := false)
  }

  predicate EventEnabled(w: World, e: Event) {
    match e
    case SourcePromotes => w.source == Pending
    case SourceFails => w.source == Pending
    case PassportLost(left) => w.row.Some? && w.row.value.passport.Some? && ChainPassport(left).Err?
    case FileDeleted => w.opening == Idle && w.alive
  }

  function AfterEvent(w: World, e: Event): World
    requires EventEnabled(w, e)
  {
    match e
    case SourcePromotes =>
      w.(source := Promoted, promotionSent := w.promotionSent || w.alive, promotionDue := w.promotionDue || w.alive)
    case SourceFails => w.(source := Unpromotable)
    case PassportLost(left) => w.(row := Some(w.row.value.(passport := left)), closed := true)
    case FileDeleted =>
      var cancelled := if w.row.Some? && w.row.value.IsRunning() then {JobCancel(w.row.value.jobId)} else {};
      w.(alive := false, row := None, sent := w.sent + cancelled)
  }

  predicate DoingEnabled(w: World, d: Doing) {
    match d
    case ReadsCreate => w.read < |w.creates|
    case ReadsOther(command) => command in w.sent && !command.JobCreate?
    case EndsJob(job) => job in w.jobs.held
    case Publishes(fact) =>
      fact.jobId in w.jobs.held && !fact.received.CreationRejected?
      && (fact.received.End() ==> w.jobs.held[fact.jobId].terminal)
    case Retires(_) => true
  }

  ghost function AfterDoing(w: World, d: Doing): World
    requires DoingEnabled(w, d)
  {
    match d
    case ReadsCreate => JobsReads(w, JobCreate(w.creates[w.read].create)).(read := w.read + 1)
    case ReadsOther(command) => JobsReads(w, command)
    case EndsJob(job) => w.(jobs := J.Settle(w.jobs, job))
    case Publishes(fact) => w.(facts := w.facts + {fact})
    case Retires(types) => w.(jobs := w.jobs.(retired := types))
  }

  predicate Enabled(w: World, a: Action) {
    match a
    case Library(gesture) => GestureEnabled(w, gesture)
    case Around(event) => EventEnabled(w, event)
    case Jobs(doing) => DoingEnabled(w, doing)
  }

  ghost function Next(w: World, a: Action): World
    requires Enabled(w, a)
  {
    match a
    case Library(gesture) => CommitIf(Beside(w, gesture), Moved(w, gesture))
    case Around(event) => AfterEvent(w, event)
    case Jobs(doing) => AfterDoing(w, doing)
  }

  /// A file just requested, its source in any state: nothing processed, nothing asked of Jobs.
  predicate Initial(w: World) {
    && w.fileId.V7? && w.alive && w.row.None? && w.log == [] && w.opening == Idle
    && !w.promotionSent && !w.promotionDue && w.creates == [] && w.read == 0 && w.sent == {}
    && w.jobs.held == map[] && w.jobs.rejections == map[] && w.facts == {} && w.minted == {}
    && w.chain == 0 && !w.closed
  }

  /// The worlds a run goes through: each action possible where it happens.
  ghost predicate Runs(w: World, actions: seq<Action>)
    decreases |actions|
  {
    actions != [] ==> Enabled(w, actions[0]) && Runs(Next(w, actions[0]), actions[1..])
  }

  ghost function After(w: World, actions: seq<Action>): World
    requires Runs(w, actions)
    decreases |actions|
  {
    if actions == [] then w else After(Next(w, actions[0]), actions[1..])
  }
}
