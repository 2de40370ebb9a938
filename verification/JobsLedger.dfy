/// Jobs' side of the protocol: the verdict it gives on a `job.create`, and what
/// each command does to the jobs it holds.
module JobsLedger {
  import opened Common
  import opened Text
  import opened Contract

  const RUNNER_TYPE_RETIRED := "runner_type_retired"
  const ID_REUSE := "id_reuse"
  const DUPLICATE_ACTIVE_ENTITY := "duplicate_active_entity"

  datatype Source = Source(bc: string, entity: Uuid)

  /// One job Jobs holds; `declared` is absent for a job the library never asked for.
  datatype Held = Held(declared: Option<CreateJob>, source: Option<Source>, terminal: bool, deleted: bool)

  datatype Rejection = Rejection(jobId: Uuid, reasonCode: string, params: Params)

  datatype Jobs = Jobs(held: map<Uuid, Held>, rejections: map<Uuid, Rejection>,
                       retired: set<string>, droppingCancels: bool)

  /// What Jobs publishes when it consumes a command.
  datatype Published = Queued(jobId: Uuid, runnerType: string) | Rejected(rejection: Rejection) | Cancelled(jobId: Uuid)

  predicate Live(jobs: map<Uuid, Held>, id: Uuid) {
    id in jobs && !jobs[id].terminal
  }

  function SourceOf(create: CreateJob): Option<Source> {
    if create.sourceBc.Some? && create.sourceEntityId.Some?
    then Some(Source(create.sourceBc.value, create.sourceEntityId.value))
    else None
  }

  /// The input checks Jobs runs before its domain.
  function Malformed(create: CreateJob): Option<(string, Blame)> {
    if !create.jobId.V7? then Some(("not_uuid_v7", Field("job_id")))
    else if create.sourceBc.Some? && create.sourceEntityId.Some? && create.sourceBc.value != create.producer then
      Some(("corrupt_state", Field("source_bc_is_not_the_producer")))
    else if create.sourceBc.Some? && create.sourceEntityId.Some? && !create.sourceEntityId.value.V7? then
      Some(("not_uuid_v7", Field("source_entity_id")))
    else if create.sourceBc.Some? != create.sourceEntityId.Some? then Some(("blank_value", Field("source_entity_id")))
    else if create.parentJobId.Some? && !create.parentJobId.value.V7? then Some(("not_uuid_v7", Field("parent_job_id")))
    else if create.triggeredBy.Some? && MalformedInitiator(create.triggeredBy.value).Some? then
      MalformedInitiator(create.triggeredBy.value)
    else if create.passport.Some? && Decode(create.passport.value).None? then Some(("passport_malformed", Field("passport")))
    else None
  }

  /// An anonymous initiator is shown as its id, which is neither blank nor long.
  function MalformedInitiator(user: TriggeredBy): Option<(string, Blame)> {
    if !user.id.V7? then Some(("not_uuid_v7", Field("triggered_by")))
    else if user.Anonymous? then None
    else if Trim(user.displayName) == [] then Some(("blank_value", Field("display_name")))
    else if |user.displayName| > 512 then Some(("value_too_long", Field("display_name")))
    else None
  }

  function PassportRefusal(create: CreateJob): Option<string> {
    match create.passport
    case None => if create.parentJobId.None? then Some("passport_required") else None
    case Some(document) =>
      match Decode(document)
      case None => None
      case Some(passport) =>
        if create.triggeredBy.None? then None
        else if passport.UserId() == Some(create.triggeredBy.value.id) then None
        else Some("passport_user_mismatch")
  }

  function ParentRefusal(held: map<Uuid, Held>, create: CreateJob): Option<(string, Blame)> {
    match create.parentJobId
    case None => None
    case Some(parent) =>
      if parent == create.jobId then Some(("self_reference", Field("parent_job_id")))
      else if parent !in held then Some(("parent_job_unknown", Parent(parent)))
      else if held[parent].deleted then Some(("parent_job_deleted", Parent(parent)))
      else if held[parent].terminal then Some(("parent_job_terminal", Parent(parent)))
      else None
  }

  /// The order of ids, of which the last live one is named to the host.
  predicate UpTo(a: Uuid, b: Uuid) {
    Rank(a) < Rank(b) || (Rank(a) == Rank(b) && (a.Nil? || a.n <= b.n))
  }

  function Rank(id: Uuid): nat {
    if id.Nil? then 0 else if id.Other? then 1 else 2
  }

  lemma {:induction false} LastExists(ids: set<Uuid>) returns (last: Uuid)
    requires ids != {}
    ensures last in ids
    ensures forall id :: id in ids ==> UpTo(id, last)
  {
    last :| last in ids;
    if ids != {last} {
      var rest := LastExists(ids - {last});
      var first := last;
      last := if UpTo(first, rest) then rest else first;
      forall id | id in ids
        ensures UpTo(id, last)
      {
        assert id == first || id in ids - {first};
      }
    }
  }

  ghost function LiveOn(held: map<Uuid, Held>, source: Source): set<Uuid> {
    set id | id in held && !held[id].terminal && held[id].source == Some(source)
  }

  /// The live job of `source`, the last by id, if Jobs holds one.
  ghost function ActiveOn(held: map<Uuid, Held>, source: Source): (active: Option<Uuid>)
    ensures active.Some? ==> Live(held, active.value) && held[active.value].source == Some(source)
    ensures active.None? ==> forall id :: id in held && held[id].source == Some(source) ==> held[id].terminal
    ensures active.Some? <==> LiveOn(held, source) != {}
    ensures active.Some? ==> forall id :: id in LiveOn(held, source) ==> UpTo(id, active.value)
  {
    var live := LiveOn(held, source);
    if live == {} then
      assert forall id :: id in held && held[id].source == Some(source) && !held[id].terminal ==> id in live;
      None
    else
      assert exists last :: last in live && forall id :: id in live ==> UpTo(id, last) by {
        var last := LastExists(live);
      }
      var last :| last in live && forall id :: id in live ==> UpTo(id, last);
      Some(last)
  }

  function Refuse(create: CreateJob, refusal: (string, Blame), active: Option<Uuid>): Option<Rejection> {
    var named := SourceOf(create).Some?;
    Some(Rejection(create.jobId, refusal.0,
                   Params(Some(create.jobId), refusal.1, active, if named then create.sourceEntityId else None,
                          if named then create.sourceBc else None)))
  }

  /// The verdict on `create`, in Jobs' order: input, runner type, id reuse,
  /// source, parent, passport. `None` accepts it.
  ghost function Judge(jobs: Jobs, create: CreateJob): (verdict: Option<Rejection>)
    ensures verdict.Some? ==> verdict.value.jobId == create.jobId && verdict.value.params.jobId == Some(create.jobId)
  {
    if Malformed(create).Some? then Refuse(create, Malformed(create).value, None)
    else if create.runnerType in jobs.retired then Refuse(create, (RUNNER_TYPE_RETIRED, RunnerType(create.runnerType)), None)
    else if create.jobId in jobs.held then
      if jobs.held[create.jobId].declared == Some(create) then None else Refuse(create, (ID_REUSE, Nothing), None)
    else
      var source := SourceOf(create);
      var active := if source.Some? then ActiveOn(jobs.held, source.value) else None;
      if active.Some? then Refuse(create, (DUPLICATE_ACTIVE_ENTITY, Nothing), active)
      else if ParentRefusal(jobs.held, create).Some? then Refuse(create, ParentRefusal(jobs.held, create).value, None)
      else if PassportRefusal(create).Some? then Refuse(create, (PassportRefusal(create).value, Nothing), None)
      else None
  }

  function Accept(jobs: Jobs, create: CreateJob): Jobs {
    if create.jobId in jobs.held then jobs
    else jobs.(held := jobs.held[create.jobId := Held(Some(create), SourceOf(create), false, false)])
  }

  function Settle(jobs: Jobs, id: Uuid): Jobs {
    if Live(jobs.held, id) then jobs.(held := jobs.held[id := jobs.held[id].(terminal := true)]) else jobs
  }

  /// What consuming `command` makes of the jobs Jobs holds.
  ghost function Consumed(jobs: Jobs, command: Command): Jobs {
    match command
    case JobCreate(create) =>
      var verdict := Judge(jobs, create);
      if verdict.Some? then jobs.(rejections := jobs.rejections[create.jobId := verdict.value]) else Accept(jobs, create)
    case JobFinish(id) => Settle(jobs, id)
    case JobFail(id, _) => Settle(jobs, id)
    case JobCancel(id) => if jobs.droppingCancels then jobs else Settle(jobs, id)
  }

  ghost function PublishedOn(jobs: Jobs, command: Command): seq<Published> {
    match command
    case JobCreate(create) =>
      var verdict := Judge(jobs, create);
      if verdict.Some? then [Rejected(verdict.value)] else [Queued(create.jobId, create.runnerType)]
    case JobFinish(_) => []
    case JobFail(_, _) => []
    case JobCancel(id) => if !jobs.droppingCancels && Live(jobs.held, id) then [Cancelled(id)] else []
  }

  /// A `job.create` in the shape the library gives it: a root job of its own
  /// source, under a Passport that reads, naming nobody but that Passport's user.
  ghost predicate FromLibrary(create: CreateJob) {
    && create.jobId.V7?
    && create.parentJobId.None?
    && create.sourceBc == Some(create.producer)
    && create.sourceEntityId.Some? && create.sourceEntityId.value.V7?
    && create.passport.Some?
    && Decode(create.passport.value).Some?
    && exists initiator: Option<Initiator> ::
         create.triggeredBy == TriggeredByOf(Decode(create.passport.value).value, initiator)
  }

  lemma NamedAsJobsAccepts(initiator: Initiator)
    ensures NamedToJobs(initiator).Some? ==>
              && NamedToJobs(initiator).value.id == initiator.id
              && MalformedInitiator(NamedToJobs(initiator).value).None?
  {
    if initiator.id.V7? && initiator.displayName.Some? {
      var trimmed := Trim(initiator.displayName.value);
      TrimIsSolid(initiator.displayName.value);
      if trimmed != [] {
        SolidStartTrimsToSome(if |trimmed| <= MAX_DISPLAY_NAME_CHARS then trimmed else trimmed[..MAX_DISPLAY_NAME_CHARS]);
      }
    }
  }

  /// Jobs never finds fault with the shape of a library's `job.create`: it is
  /// accepted exactly when its runner type is not retired and its id is known
  /// for this very declaration or no live job holds its source, and refused for
  /// no other reason.
  lemma LibraryCreatesAreRefusedOnlyForTheirPlace(jobs: Jobs, create: CreateJob)
    requires FromLibrary(create)
    ensures Judge(jobs, create).None? <==>
              && create.runnerType !in jobs.retired
              && if create.jobId in jobs.held then jobs.held[create.jobId].declared == Some(create)
                 else forall id :: id in jobs.held && jobs.held[id].source == SourceOf(create) ==> jobs.held[id].terminal
    ensures Judge(jobs, create).Some? ==>
              var refusal := Judge(jobs, create).value;
              || (&& refusal.reasonCode == RUNNER_TYPE_RETIRED && create.runnerType in jobs.retired
                  && refusal.params.blame == RunnerType(create.runnerType))
              || (refusal.reasonCode == ID_REUSE && create.jobId in jobs.held)
              || (refusal.reasonCode == DUPLICATE_ACTIVE_ENTITY
                  && refusal.params.activeJobId.Some? && Live(jobs.held, refusal.params.activeJobId.value)
                  && jobs.held[refusal.params.activeJobId.value].source == SourceOf(create)
                  && refusal.params.sourceEntityId == create.sourceEntityId
                  && refusal.params.sourceBc == create.sourceBc)
  {
    var passport := Decode(create.passport.value).value;
    var initiator: Option<Initiator> :| create.triggeredBy == TriggeredByOf(passport, initiator);
    if passport.UserId().Some? {
      var user := passport.UserId().value;
      NamedAsJobsAccepts(Initiator(user,
        if initiator.Some? && initiator.value.id == user then initiator.value.displayName else None));
    }
  }

  // ---- the verdict and its effects, case by case ----

  /// A declaration whole and of the right shape.
  predicate WellFormed(create: CreateJob) {
    && create.jobId.V7?
    && (create.sourceBc.Some? <==> create.sourceEntityId.Some?)
    && (create.sourceBc.Some? ==> create.sourceBc.value == create.producer && create.sourceEntityId.value.V7?)
    && (create.parentJobId.Some? ==> create.parentJobId.value.V7?)
    && (create.triggeredBy.Some? ==> create.triggeredBy.value.id.V7?)
    && (create.triggeredBy.Some? && create.triggeredBy.value.Identified? ==>
          Trim(create.triggeredBy.value.displayName) != "" && |create.triggeredBy.value.displayName| <= 512)
    && (create.passport.Some? ==> create.passport.value.Encoded?)
  }

  /// A parent, if any, is another job, held, neither deleted nor ended.
  predicate UnderALiveParent(held: map<Uuid, Held>, create: CreateJob) {
    create.parentJobId.Some? ==>
      && create.parentJobId.value != create.jobId && create.parentJobId.value in held
      && !held[create.parentJobId.value].deleted && !held[create.parentJobId.value].terminal
  }

  /// A root job has a Passport; who triggered a job is that Passport's own user.
  predicate UnderItsPassport(create: CreateJob) {
    match create.passport
    case None => create.parentJobId.Some?
    case Some(document) =>
      document.Encoded? && create.triggeredBy.Some? ==>
        document.passport.Human? && document.passport.user == create.triggeredBy.value.id
  }

  /// What Jobs accepts, and what it refuses the rest for.
  lemma JudgeSays(jobs: Jobs, create: CreateJob)
    ensures var verdict := Judge(jobs, create);
            if !WellFormed(create) then
              verdict.Some? && verdict.value.reasonCode in
                ["not_uuid_v7", "corrupt_state", "blank_value", "value_too_long", "passport_malformed"]
            else if create.runnerType in jobs.retired then
              verdict.Some? && verdict.value.reasonCode == "runner_type_retired"
            else if create.jobId in jobs.held then
              if jobs.held[create.jobId].declared == Some(create) then verdict.None?
              else verdict.Some? && verdict.value.reasonCode == "id_reuse"
            else if exists id :: Live(jobs.held, id) && SourceOf(create).Some? && jobs.held[id].source == SourceOf(create) then
              verdict.Some? && verdict.value.reasonCode == "duplicate_active_entity"
            else if !UnderALiveParent(jobs.held, create) then
              verdict.Some? && verdict.value.reasonCode in
                ["self_reference", "parent_job_unknown", "parent_job_deleted", "parent_job_terminal"]
            else if !UnderItsPassport(create) then
              verdict.Some? && verdict.value.reasonCode in ["passport_required", "passport_user_mismatch"]
            else verdict.None?
  {
  }

  /// What a refusal blames for each reason of its own.
  function BlameFor(create: CreateJob, reason: string): Blame {
    if reason == "runner_type_retired" then RunnerType(create.runnerType)
    else if reason == "self_reference" then Field("parent_job_id")
    else if create.parentJobId.Some? && reason in ["parent_job_unknown", "parent_job_deleted", "parent_job_terminal"] then
      Parent(create.parentJobId.value)
    else Nothing
  }

  lemma ParentSays(held: map<Uuid, Held>, create: CreateJob)
    ensures ParentRefusal(held, create).None? <==> UnderALiveParent(held, create)
    ensures ParentRefusal(held, create).Some? ==>
              var parent := create.parentJobId.value;
              ParentRefusal(held, create).value.0 ==
                if parent == create.jobId then "self_reference" else if parent !in held then "parent_job_unknown"
                else if held[parent].deleted then "parent_job_deleted" else "parent_job_terminal"
    ensures var refusal := ParentRefusal(held, create);
            refusal.Some? ==> && refusal.value.1 == BlameFor(create, refusal.value.0)
                              && refusal.value.0 != "duplicate_active_entity"
  {
  }

  lemma PassportRefusalSays(create: CreateJob)
    requires create.passport.Some? ==> create.passport.value.Encoded?
    ensures PassportRefusal(create) ==
              if create.passport.None? && create.parentJobId.None? then Some("passport_required")
              else if create.passport.Some? && create.triggeredBy.Some?
                      && (create.passport.value.passport.Service? || create.passport.value.passport.user != create.triggeredBy.value.id)
              then Some("passport_user_mismatch") else None
  {
  }

  /// A declaration in shape is refused for a retired type, a parent, or nothing it
  /// can be blamed for; a live job is named exactly when it holds the source.
  lemma BlameSays(jobs: Jobs, create: CreateJob)
    requires WellFormed(create) && Judge(jobs, create).Some?
    ensures var verdict := Judge(jobs, create).value;
            && verdict.params.blame == BlameFor(create, verdict.reasonCode)
            && (verdict.params.activeJobId.Some? <==> verdict.reasonCode == "duplicate_active_entity")
  {
    var reason := Judge(jobs, create).value.reasonCode;
    ParentSays(jobs.held, create);
    if create.runnerType in jobs.retired {
      assert reason == "runner_type_retired";
    } else if create.jobId in jobs.held {
      assert reason == "id_reuse";
    } else if SourceOf(create).Some? && ActiveOn(jobs.held, SourceOf(create).value).Some? {
      assert reason == "duplicate_active_entity";
    }
  }

  /// What each refusal of the shape blames, in the order it is looked for.
  lemma MalformedSays(create: CreateJob)
    requires !WellFormed(create)
    ensures Malformed(create) == Some(
              if !create.jobId.V7? then ("not_uuid_v7", Field("job_id"))
              else if create.sourceBc.Some? && create.sourceEntityId.Some? && create.sourceBc.value != create.producer then
                ("corrupt_state", Field("source_bc_is_not_the_producer"))
              else if create.sourceBc.Some? && create.sourceEntityId.Some? && !create.sourceEntityId.value.V7? then
                ("not_uuid_v7", Field("source_entity_id"))
              else if create.sourceBc.None? != create.sourceEntityId.None? then ("blank_value", Field("source_entity_id"))
              else if create.parentJobId.Some? && !create.parentJobId.value.V7? then ("not_uuid_v7", Field("parent_job_id"))
              else if create.triggeredBy.Some? && !create.triggeredBy.value.id.V7? then ("not_uuid_v7", Field("triggered_by"))
              else if create.triggeredBy.Some? && create.triggeredBy.value.Identified?
                      && Trim(create.triggeredBy.value.displayName) == "" then ("blank_value", Field("display_name"))
              else if create.triggeredBy.Some? && create.triggeredBy.value.Identified?
                      && |create.triggeredBy.value.displayName| > 512 then ("value_too_long", Field("display_name"))
              else ("passport_malformed", Field("passport")))
  {
  }

  /// A create accepted is held, live, under the source it names; a finish, a failure
  /// and a cancel end the job they name, unless cancels are dropped; nothing else moves.
  lemma ConsumedSays(jobs: Jobs, command: Command)
    ensures var after := Consumed(jobs, command);
            && after.retired == jobs.retired && after.droppingCancels == jobs.droppingCancels
            && match command
               case JobCreate(create) =>
                 if Judge(jobs, create).Some? then
                   after.held == jobs.held && after.rejections == jobs.rejections[create.jobId := Judge(jobs, create).value]
                 else
                   && after.rejections == jobs.rejections
                   && after.held == (if create.jobId in jobs.held then jobs.held
                                     else jobs.held[create.jobId := Held(Some(create), SourceOf(create), false, false)])
               case JobFinish(id) => after.rejections == jobs.rejections && Ended(jobs.held, after.held, id)
               case JobFail(id, _) => after.rejections == jobs.rejections && Ended(jobs.held, after.held, id)
               case JobCancel(id) =>
                 && after.rejections == jobs.rejections
                 && (if jobs.droppingCancels then after.held == jobs.held else Ended(jobs.held, after.held, id))
  {
  }

  /// The job, if held, is terminal; the others are as they were.
  predicate Ended(before: map<Uuid, Held>, after: map<Uuid, Held>, id: Uuid) {
    && after.Keys == before.Keys
    && forall other :: other in before ==>
         if other == id then after[id] == before[id].(terminal := true) else after[other] == before[other]
  }

  /// What Jobs publishes: a creation queued or rejected, and a cancel of a job that lived.
  lemma PublishedSays(jobs: Jobs, command: Command)
    ensures PublishedOn(jobs, command) ==
              match command
              case JobCreate(create) =>
                [if Judge(jobs, create).Some? then Rejected(Judge(jobs, create).value) else Queued(create.jobId, create.runnerType)]
              case JobCancel(id) =>
                if id in jobs.held && !jobs.held[id].terminal && !jobs.droppingCancels then [Cancelled(id)] else []
              case _ => []
  {
  }

  /// The double's ledger, consuming commands as they arrive.
  class Ledger {
    var held: map<Uuid, Held>
    var rejections: map<Uuid, Rejection>
    var retired: set<string>
    var droppingCancels: bool

    constructor ()
      ensures Value() == Jobs(map[], map[], {}, false)
    {
      held, rejections, retired, droppingCancels := map[], map[], {}, false;
    }

    function Value(): Jobs
      reads this
    {
      Jobs(held, rejections, retired, droppingCancels)
    }

    method AcceptJob(create: CreateJob)
      modifies this
      ensures Value() == Accept(old(Value()), create)
    {
      if create.jobId !in held {
        held := held[create.jobId := Held(Some(create), SourceOf(create), false, false)];
      }
    }

    /// Marks a job terminal; `true` when it was live.
    method SettleJob(id: Uuid) returns (live: bool)
      modifies this
      ensures live == Live(old(held), id)
      ensures Value() == Settle(old(Value()), id)
      ensures !Live(held, id)
      ensures forall other :: other != id ==> Live(held, other) == Live(old(held), other)
    {
      live := false;
      if id in held && !held[id].terminal {
        held := held[id := held[id].(terminal := true)];
        live := true;
      }
    }

    /// The live job of `source`, the last by id, found by going through the jobs.
    method FindActive(source: Source) returns (active: Option<Uuid>)
      ensures active == ActiveOn(held, source)
    {
      active := None;
      var rest := held.Keys;
      while rest != {}
        invariant rest <= held.Keys
        invariant active.None? ==> LiveOn(held, source) <= rest
        invariant active.Some? ==> active.value in LiveOn(held, source)
        invariant active.Some? ==> forall id :: id in LiveOn(held, source) - rest ==> UpTo(id, active.value)
        decreases rest
      {
        var id :| id in rest;
        ghost var before := active;
        if !held[id].terminal && held[id].source == Some(source) && (active.None? || UpTo(active.value, id)) {
          active := Some(id);
        }
        forall seen | active.Some? && seen in LiveOn(held, source) - (rest - {id})
          ensures UpTo(seen, active.value)
        {
          assert seen == id || seen in LiveOn(held, source) - rest;
          assert before.Some? && seen != id ==> UpTo(seen, before.value);
        }
        rest := rest - {id};
      }
      assert LiveOn(held, source) - rest == LiveOn(held, source);
      ghost var last := ActiveOn(held, source);
      assert last.Some? && active.Some? ==> UpTo(last.value, active.value) && UpTo(active.value, last.value);
    }

    method Verdict(create: CreateJob) returns (verdict: Option<Rejection>)
      ensures verdict == Judge(Value(), create)
    {
      var active := None;
      if SourceOf(create).Some? {
        active := FindActive(SourceOf(create).value);
      }
      if Malformed(create).Some? {
        verdict := Refuse(create, Malformed(create).value, None);
      } else if create.runnerType in retired {
        verdict := Refuse(create, (RUNNER_TYPE_RETIRED, RunnerType(create.runnerType)), None);
      } else if create.jobId in held {
        verdict := if held[create.jobId].declared == Some(create) then None else Refuse(create, (ID_REUSE, Nothing), None);
      } else if active.Some? {
        verdict := Refuse(create, (DUPLICATE_ACTIVE_ENTITY, Nothing), active);
      } else if ParentRefusal(held, create).Some? {
        verdict := Refuse(create, ParentRefusal(held, create).value, None);
      } else if PassportRefusal(create).Some? {
        verdict := Refuse(create, (PassportRefusal(create).value, Nothing), None);
      } else {
        verdict := None;
      }
    }

    /// One command read off the queue.
    method Consume(command: Command) returns (published: seq<Published>)
      modifies this
      ensures Value() == Consumed(old(Value()), command)
      ensures published == PublishedOn(old(Value()), command)
    {
      published := [];
      match command
      case JobCreate(create) =>
        var verdict := Verdict(create);
        if verdict.Some? {
          rejections := rejections[create.jobId := verdict.value];
          published := [Rejected(verdict.value)];
        } else {
          AcceptJob(create);
          published := [Queued(create.jobId, create.runnerType)];
        }
      case JobFinish(id) =>
        var _ := SettleJob(id);
      case JobFail(id, _) =>
        var _ := SettleJob(id);
      case JobCancel(id) =>
        if !droppingCancels {
          var live := SettleJob(id);
          if live {
            published := [Cancelled(id)];
          }
        }
    }
  }
}
