/// The gestures as they run, on the tables and the outbox, take what shows a world
/// of the protocol to what shows the next one.
module Refinement {
  import opened Common
  import opened Contract
  import opened Protocol
  import opened Transaction
  import opened ProtocolInvariant
  import S = ProcessingState
  import C = Chain
  import L = FactLog
  import F = FileStatus
  import E = CleanUp
  import P = Pipeline
  import RunnerReports
  import Freeze
  import H = ProtocolTheorems

  /// The `job.create`s among the commands staged, in order.
  function Creates(commands: seq<Command>): seq<CreateJob> {
    if commands == [] then []
    else
      var last := commands[|commands| - 1];
      Creates(commands[..|commands| - 1]) + if last.JobCreate? then [last.create] else []
  }

  /// The events of the file's processing among the facts handed, in order.
  function Handed(facts: seq<L.Fact>, file: Uuid): seq<S.Stamped> {
    if facts == [] then []
    else
      var last := facts[|facts| - 1];
      Handed(facts[..|facts| - 1], file)
      + if last.key == L.OfProcessing(file) && last.payload.ProcessingSays? then [last.payload.stamped] else []
  }

  function CreatesAsked(creates: seq<Staged>): seq<CreateJob> {
    seq(|creates|, i requires 0 <= i < |creates| => creates[i].create)
  }

  /// The tables, the facts and the outbox show the world.
  ghost predicate Shows(o: Outcome, w: World) {
    && (w.fileId in o.rows <==> w.row.Some?) && (w.row.Some? ==> o.rows[w.fileId] == w.row.value)
    && (w.fileId in o.rows <==> L.OfProcessing(w.fileId) in o.log.versions)
    && L.Stored(o.log, L.OfProcessing(w.fileId)) == (if w.row.Some? then |w.log| else 0)
    && Handed(o.log.facts, w.fileId) == w.log
    && Creates(o.commands) == CreatesAsked(w.creates)
    && OthersIn(o.commands) == w.sent
    && (w.source == Pending <==> w.fileId in o.sources && o.sources[w.fileId] == "pending")
  }

  /// A gesture loads what the protocol loads.
  lemma LoadsTheSame(o: Outcome, w: World, at: Instant)
    requires Shows(o, w)
    ensures P.Stored(o.rows, o.log, w.fileId, at) == w.Load(at)
  {
  }

  lemma {:induction false} CreatesMore(first: seq<Command>, more: seq<Command>)
    ensures Creates(first + more) == Creates(first) + Creates(more)
  {
    if more == [] {
      assert first + more == first;
    } else {
      assert (first + more)[..|first + more| - 1] == first + more[..|more| - 1];
      CreatesMore(first, more[..|more| - 1]);
    }
  }

  lemma {:induction false} CreatesAreStaged(commands: seq<Command>, chain: nat, length: nat)
    ensures CreatesAsked(CreatesIn(commands, chain, length)) == Creates(commands)
  {
    if commands != [] {
      CreatesAreStaged(commands[1..], chain, length);
      assert commands == [commands[0]] + commands[1..];
      CreatesMore([commands[0]], commands[1..]);
      assert Creates([commands[0]]) == if commands[0].JobCreate? then [commands[0].create] else [] by {
        assert [commands[0]][..0] == [];
      }
    }
  }

  lemma HandedOneMore(facts: seq<L.Fact>, fact: L.Fact, file: Uuid)
    ensures Handed(facts + [fact], file) ==
              Handed(facts, file)
              + if fact.key == L.OfProcessing(file) && fact.payload.ProcessingSays? then [fact.payload.stamped] else []
  {
    assert (facts + [fact])[..|facts|] == facts;
  }

  lemma SaidOneMore(key: L.Key, base: nat, first: seq<S.Stamped>, last: S.Stamped)
    ensures L.FactsOf(key, base, Said(first + [last])) ==
              L.FactsOf(key, base, Said(first)) + [L.Fact(key, base + |first| + 1, L.ProcessingSays(last))]
  {
  }

  /// A save hands the events it saves, after those handed before.
  lemma {:induction false} SavedIsHanded(facts: seq<L.Fact>, file: Uuid, base: nat, events: seq<S.Stamped>)
    ensures Handed(facts + L.FactsOf(L.OfProcessing(file), base, Said(events)), file) == Handed(facts, file) + events
  {
    var key := L.OfProcessing(file);
    var more := L.FactsOf(key, base, Said(events));
    if events == [] {
      assert facts + more == facts;
    } else {
      var first, last := events[..|events| - 1], events[|events| - 1];
      var before := L.FactsOf(key, base, Said(first));
      SavedIsHanded(facts, file, base, first);
      var fact := L.Fact(key, base + |events|, L.ProcessingSays(last));
      assert events == first + [last];
      SaidOneMore(key, base, first, last);
      ConcatInOne(facts, before, [fact]);
      HandedOneMore(facts + before, fact, file);
      ConcatInOne(Handed(facts, file), first, [last]);
    }
  }

  lemma {:induction false} OthersAreNotHanded(facts: seq<L.Fact>, more: seq<L.Fact>, file: Uuid)
    requires forall i :: 0 <= i < |more| ==> more[i].key != L.OfProcessing(file)
    ensures Handed(facts + more, file) == Handed(facts, file)
  {
    if more == [] {
      assert facts + more == facts;
    } else {
      assert (facts + more)[..|facts + more| - 1] == facts + more[..|more| - 1];
      OthersAreNotHanded(facts, more[..|more| - 1], file);
    }
  }

  /// The writes of a gesture on the file and its pages.
  predicate OnTheSide(write: L.Write) {
    match write
    case Saves(key, _) => key.OfFile?
    case Bulks(keys, _) => forall i :: 0 <= i < |keys| ==> keys[i].OfPage?
    case Goes(_, _) => false
  }

  /// What a gesture writes beside the processing (the file's plan and facts, the
  /// pages trimmed) changes nothing the world shows.
  lemma OtherWritesShow(o: Outcome, w: World, write: L.Write)
    requires Shows(o, w) && OnTheSide(write)
    ensures Shows(o.(log := L.Written(o.log, write)), w)
  {
    var after := L.Written(o.log, write);
    assert after.facts == o.log.facts + after.facts[|o.log.facts|..];
    OthersAreNotHanded(o.log.facts, after.facts[|o.log.facts|..], w.fileId);
  }

  /// Storing a move shows the world the protocol's commit makes of it.
  lemma CommitShows(o: Outcome, w: World, v: World, m: C.Move)
    requires Shows(o, w) && v.fileId == w.fileId && v.row == w.row && v.log == w.log && v.creates == w.creates && v.sent == w.sent
    requires v.source == w.source
    requires w.row.Some? || w.log == []
    ensures Shows(Committed(o, w.fileId, m), Commit(v, m))
  {
    var key := L.OfProcessing(w.fileId);
    SavedIsHanded(o.log.facts, w.fileId, L.Stored(o.log, key), m.processing.pending);
    StagedShows(o.commands, w, v, m.commands);
  }

  /// The commands staged show in the outbox.
  lemma StagedShows(commands: seq<Command>, w: World, v: World, more: seq<Command>)
    requires Creates(commands) == CreatesAsked(w.creates) && OthersIn(commands) == w.sent
    ensures var staged := CreatesIn(more, v.chain, |v.steps|);
            Creates(commands + more) == CreatesAsked(w.creates + staged) && OthersIn(commands + more) == w.sent + OthersIn(more)
  {
    CreatesMore(commands, more);
    CreatesAreStaged(more, v.chain, |v.steps|);
    var staged := CreatesIn(more, v.chain, |v.steps|);
    assert CreatesAsked(w.creates + staged) == CreatesAsked(w.creates) + CreatesAsked(staged);
    assert OthersIn(commands + more) == OthersIn(commands) + OthersIn(more);
  }

  /// Every gesture of every run: from tables that show the world, the move it makes
  /// of the stored processing leaves tables that show the next one.
  lemma MovesShow(o: Outcome, w: World, g: Gesture)
    requires H.Reached(w) && Enabled(w, Library(g)) && Shows(o, w)
    ensures Moved(w, g).Some? ==> Shows(Committed(o, w.fileId, Moved(w, g).value), Next(w, Library(g)))
    ensures Moved(w, g).None? ==> Shows(o, Next(w, Library(g)))
  {
    H.ReachedHolds(w);
    var v := Beside(w, g);
    assert v.fileId == w.fileId && v.row == w.row && v.log == w.log && v.creates == w.creates && v.sent == w.sent && v.source == w.source;
    if Moved(w, g).Some? {
      CommitShows(o, w, v, Moved(w, g).value);
    }
  }

  predicate OnSameFile(w: World, v: World, steps: seq<Step>) {
    v.alive && v.fileId == w.fileId && v.service == w.service && v.steps == steps
  }

  /// The gesture moves what its loaded processing and file say, and never faults.
  lemma GestureShows(o: Outcome, w: World, g: Gesture)
    requires H.Reached(w) && Enabled(w, Library(g)) && Shows(o, w)
    requires w.alive && !g.LockForStart? && !g.ReadSource? && !g.RefuseStart? && (g.PromotionDelivered? ==> w.row.Some?)
    ensures Moved(w, g).Some? && Shows(Committed(o, w.fileId, Moved(w, g).value), Next(w, Library(g)))
    ensures OnSameFile(w, Next(w, Library(g)), if g.CommitStart? then g.steps else w.steps)
  {
    if Moved(w, g).None? {
      H.NoGestureFaults(w, g);
      H.EveryFactFindsItsFile(w);
    }
    MovesShow(o, w, g);
  }

  // ---- what happens around the gestures ----

  /// What Jobs does, and what becomes of the source, write nothing here.
  lemma JobsShows(o: Outcome, w: World, d: Doing)
    requires Shows(o, w) && DoingEnabled(w, d)
    ensures Shows(o, AfterDoing(w, d))
  {
    var v := AfterDoing(w, d);
    assert v.fileId == w.fileId && v.row == w.row && v.log == w.log && v.creates == w.creates && v.sent == w.sent && v.source == w.source;
  }

  /// The engine writes another state of the source, or forgets it.
  lemma SourceShows(o: Outcome, w: World, e: Event, state: string)
    requires Shows(o, w) && EventEnabled(w, e) && (e.SourcePromotes? || e.SourceFails?) && state != "pending"
    ensures Shows(o.(sources := o.sources[w.fileId := state]), AfterEvent(w, e))
    ensures Shows(o.(sources := o.sources - {w.fileId}), AfterEvent(w, e))
  {
    var v := AfterEvent(w, e);
    assert v.fileId == w.fileId && v.row == w.row && v.log == w.log && v.creates == w.creates && v.sent == w.sent;
  }

  /// An erase writes the Passport over; nothing is handed.
  lemma LossShows(o: Outcome, w: World, left: Option<Document>)
    requires Shows(o, w) && EventEnabled(w, PassportLost(left))
    ensures Shows(o.(rows := o.rows[w.fileId := o.rows[w.fileId].(passport := left)]), AfterEvent(w, PassportLost(left)))
  {
  }

  lemma GoneIsNotHanded(log: L.Log, file: Uuid, payload: L.Payload)
    requires payload.Last()
    ensures var after := L.Written(log, L.Goes([file], payload));
            L.OfProcessing(file) !in after.versions && Handed(after.facts, file) == Handed(log.facts, file)
  {
    var after := L.Written(log, L.Goes([file], payload));
    assert after.facts == log.facts + after.facts[|log.facts|..];
    OthersAreNotHanded(log.facts, after.facts[|log.facts|..], file);
  }

  lemma CancelsAreNoCreates(commands: seq<Command>, cancels: seq<Command>)
    requires forall command :: command in cancels ==> command.JobCancel?
    ensures Creates(commands + cancels) == Creates(commands)
    ensures OthersIn(commands + cancels) == OthersIn(commands) + (set command | command in cancels)
  {
    CreatesMore(commands, cancels);
    NoCreates(cancels);
  }

  lemma {:induction false} NoCreates(commands: seq<Command>)
    requires forall command :: command in commands ==> !command.JobCreate?
    ensures Creates(commands) == []
  {
    if commands != [] {
      NoCreates(commands[..|commands| - 1]);
    }
  }

  /// A deleted file takes its processing with it, and cancels the running job.
  lemma DeletionShows(o: Outcome, w: World, payload: L.Payload)
    requires Shows(o, w) && EventEnabled(w, FileDeleted) && payload.Last()
    ensures var cancelled := if w.row.Some? && w.row.value.IsRunning() then [JobCancel(w.row.value.jobId)] else [];
            Shows(o.(rows := o.rows - {w.fileId}, log := L.Written(o.log, L.Goes([w.fileId], payload)),
                     commands := o.commands + cancelled),
                  AfterEvent(w, FileDeleted))
  {
    var cancelled := if w.row.Some? && w.row.value.IsRunning() then [JobCancel(w.row.value.jobId)] else [];
    GoneIsNotHanded(o.log, w.fileId, payload);
    CancelsAreNoCreates(o.commands, cancelled);
  }

  // ---- over a run ----

  /// Tables that know nothing of a file show it just requested.
  lemma RequestedShows(o: Outcome, w: World)
    requires Initial(w) && w.fileId !in o.rows && L.OfProcessing(w.fileId) !in o.log.versions
    requires Handed(o.log.facts, w.fileId) == [] && Creates(o.commands) == [] && OthersIn(o.commands) == {}
    requires w.source == Pending <==> w.fileId in o.sources && o.sources[w.fileId] == "pending"
    ensures Shows(o, w)
  {
  }

  function Aside(o: Outcome, writes: seq<L.Write>): Outcome {
    if writes == [] then o
    else
      var before := Aside(o, writes[..|writes| - 1]);
      before.(log := L.Written(before.log, writes[|writes| - 1]))
  }

  lemma {:induction false} AsideShows(o: Outcome, w: World, writes: seq<L.Write>)
    requires Shows(o, w) && forall write :: write in writes ==> OnTheSide(write)
    ensures Shows(Aside(o, writes), w)
  {
    if writes != [] {
      var first, last := writes[..|writes| - 1], writes[|writes| - 1];
      assert writes == first + [last];
      AsideShows(o, w, first);
      OtherWritesShow(Aside(o, first), w, last);
    }
  }

  /// What an action leaves in the tables and the outbox; a gesture, beside its move,
  /// writes `aside`.
  ghost function Leaves(o: Outcome, w: World, a: Action, aside: seq<L.Write>): Outcome
    requires Enabled(w, a)
  {
    match a
    case Library(g) =>
      var saved := Aside(o, aside);
      if Moved(w, g).Some? then Committed(saved, w.fileId, Moved(w, g).value) else saved
    case Around(PassportLost(left)) =>
      if w.fileId in o.rows then o.(rows := o.rows[w.fileId := o.rows[w.fileId].(passport := left)]) else o
    case Around(FileDeleted) => Deleted(o, w)
    case Around(SourcePromotes) => o.(sources := o.sources[w.fileId := "uploaded"])
    case Around(SourceFails) => o.(sources := o.sources - {w.fileId})
    case Jobs(_) => o
  }

  ghost function Deleted(o: Outcome, w: World): Outcome {
    var cancelled := if w.row.Some? && w.row.value.IsRunning() then [JobCancel(w.row.value.jobId)] else [];
    o.(rows := o.rows - {w.fileId}, log := L.Written(o.log, L.Goes([w.fileId], L.FileSays(L.Deleted))),
       commands := o.commands + cancelled)
  }

  lemma LeavesShows(o: Outcome, w: World, a: Action, aside: seq<L.Write>)
    requires H.Reached(w) && Shows(o, w) && Enabled(w, a) && forall write :: write in aside ==> OnTheSide(write)
    ensures Shows(Leaves(o, w, a, aside), Next(w, a))
  {
    match a
    case Library(g) =>
      AsideShows(o, w, aside);
      MovesShow(Aside(o, aside), w, g);
    case Around(PassportLost(left)) => LossShows(o, w, left);
    case Around(FileDeleted) => DeletionShows(o, w, L.FileSays(L.Deleted));
    case Around(e) => SourceShows(o, w, e, "uploaded");
    case Jobs(d) => JobsShows(o, w, d);
  }

  ghost function LeftBy(o: Outcome, w: World, actions: seq<Action>, asides: seq<seq<L.Write>>): Outcome
    requires Runs(w, actions) && |asides| == |actions|
    decreases |actions|
  {
    if actions == [] then o
    else LeftBy(Leaves(o, w, actions[0], asides[0]), Next(w, actions[0]), actions[1..], asides[1..])
  }

  /// Every run: tables that show its first world, written over action by action,
  /// show the world it reaches, whatever the gestures write of files and pages.
  lemma {:induction false} RunShows(o: Outcome, w: World, actions: seq<Action>, asides: seq<seq<L.Write>>)
    requires H.Reached(w) && Shows(o, w) && Runs(w, actions) && |asides| == |actions|
    requires forall i :: 0 <= i < |asides| ==> forall write :: write in asides[i] ==> OnTheSide(write)
    ensures Shows(LeftBy(o, w, actions, asides), After(w, actions))
    decreases |actions|
  {
    if actions != [] {
      LeavesShows(o, w, actions[0], asides[0]);
      H.Extend(w, actions[0]);
      RunShows(Leaves(o, w, actions[0], asides[0]), Next(w, actions[0]), actions[1..], asides[1..]);
    }
  }

  // ---- the gestures ----

  /// The tables show the world, and the file in hand is the world's as it is loaded.
  ghost predicate InHand(cx: Ops, file: FileRow, w: World)
    reads cx, cx.tables, file
  {
    && Shows(Now(cx), w) && w.alive
    && file.id == w.fileId && file.service == w.service && file.steps.GetOr([]) == w.steps
    && file.status == F.Reloaded(file.committedAt.Some?, w.row)
  }

  /// Saved, the file in hand reads as the tables do.
  lemma StillInHand(cx: Ops, file: FileRow, w: World, v: World)
    requires Shows(Now(cx), v) && ReadsTrue(cx, file)
    requires file.id == w.fileId && file.service == w.service && OnSameFile(w, v, file.steps.GetOr([]))
    ensures InHand(cx, file, v)
  {
  }

  /// A start reads of its source what the protocol reads: the engine's own word for it.
  lemma SourceIsRead(cx: Ops, file: FileRow, w: World)
    requires InHand(cx, file, w) && Enabled(w, Library(ReadSource))
    ensures P.SourcePending(cx, file) <==> w.source == Pending
    ensures InHand(cx, file, Next(w, Library(ReadSource)))
    ensures Next(w, Library(ReadSource)).opening == Decided(P.SourcePending(cx, file))
  {
  }

  /// A promotion that falls between a start's read and its commit leaves what it
  /// leaves right after the commit.
  lemma PromotionCommutes(w: World, start: Gesture)
    requires w.opening.Decided? && start.CommitStart? && GestureEnabled(w, start) && EventEnabled(w, SourcePromotes)
    ensures GestureEnabled(AfterEvent(w, SourcePromotes), start)
    ensures EventEnabled(CommitIf(Beside(w, start), Moved(w, start)), SourcePromotes)
    ensures var v := AfterEvent(w, SourcePromotes);
            CommitIf(Beside(v, start), Moved(v, start)) == AfterEvent(CommitIf(Beside(w, start), Moved(w, start)), SourcePromotes)
  {
    var v := AfterEvent(w, SourcePromotes);
    assert Moved(v, start) == Moved(w, start);
    PromotedCommit(Beside(w, start), Beside(v, start), Moved(w, start));
  }

  lemma PromotedCommit(w: World, v: World, moved: Option<C.Move>)
    requires EventEnabled(w, SourcePromotes) && v == AfterEvent(w, SourcePromotes)
    ensures EventEnabled(CommitIf(w, moved), SourcePromotes)
    ensures CommitIf(v, moved) == AfterEvent(CommitIf(w, moved), SourcePromotes)
  {
  }

  lemma StartShows(o: Outcome, w: World, events: seq<L.Payload>, g: Gesture)
    requires H.Reached(w) && w.alive && Shows(o, w) && g.CommitStart? && Enabled(w, Library(g))
    ensures var m := C.StartChain(C.File(w.service, w.fileId, g.steps), P.Stored(o.rows, o.log, w.fileId, g.at), g.rulesetId,
                                  g.trigger, g.initiator, g.passport, g.priority, w.opening.sourcePending, g.minted, g.at);
            && m.Some?
            && Shows(Committed(o.(log := L.Written(o.log, L.Saves(L.OfFile(w.fileId), events))), w.fileId, m.value),
                     Next(w, Library(g)))
    ensures OnSameFile(w, Next(w, Library(g)), g.steps)
  {
    var saved := o.(log := L.Written(o.log, L.Saves(L.OfFile(w.fileId), events)));
    OtherWritesShow(o, w, L.Saves(L.OfFile(w.fileId), events));
    LoadsTheSame(o, w, g.at);
    GestureShows(saved, w, g);
  }

  /// A chain starts on a file just locked: the source read, then the start committed.
  method Start(cx: Ops, file: FileRow, start: Gesture, ghost w: World)
    requires H.Reached(w) && InHand(cx, file, w) && Enabled(w, Library(ReadSource))
    requires file.version == L.Stored(cx.tables.log, L.OfFile(file.id)) + |file.pending|
    requires start.CommitStart? && Enabled(Next(w, Library(ReadSource)), Library(start))
    modifies cx`rows, cx`plans, cx`commands, cx.tables, file`steps, file`pending, file`status, file`updatedAt
    ensures InHand(cx, file, Next(Next(w, Library(ReadSource)), Library(start)))
  {
    ghost var read := Next(w, Library(ReadSource));
    SourceIsRead(cx, file, w);
    H.Extend(w, Library(ReadSource));
    StartAsRead(cx, file, start, read);
  }

  /// ... on what it read of the source.
  method StartAsRead(cx: Ops, file: FileRow, start: Gesture, ghost w: World)
    requires H.Reached(w) && InHand(cx, file, w) && w.opening == Decided(P.SourcePending(cx, file))
    requires file.version == L.Stored(cx.tables.log, L.OfFile(file.id)) + |file.pending|
    requires start.CommitStart? && Enabled(w, Library(start))
    modifies cx`rows, cx`plans, cx`commands, cx.tables, file`steps, file`pending, file`status, file`updatedAt
    ensures InHand(cx, file, Next(w, Library(start)))
  {
    ghost var v := Next(w, Library(start));
    StartShows(Now(cx), w, file.pending, start);
    var started := P.StartChain(cx, file, start.steps, start.rulesetId, start.trigger, start.initiator, start.passport,
                                start.priority, start.minted, start.at);
    assert file.File() == C.File(w.service, w.fileId, start.steps);
    StillInHand(cx, file, w, v);
  }

  /// A runner reports. A final report let through is the protocol's; any other
  /// report, and a refusal, moves nothing of it.
  method Report(cx: Ops, file: FileRow, report: RunnerReports.Report, minted: Uuid, at: Instant, ghost w: World)
    returns (refused: Option<string>, t: RunnerReports.Tally)
    requires H.Reached(w) && InHand(cx, file, w) && E.Loaded(cx, file) && E.WellStored(cx)
    requires report.done && w.row.Some? && w.row.value.IsRunning() && w.row.value.jobId == report.jobId ==>
               Enabled(w, Library(RunnerReportsDone(report.jobId, minted, at)))
    modifies cx`rows, cx`plans, cx`pages, cx`commands, cx.tables, cx.blobs,
             file`indexing, file`version, file`pending, file`status, file`updatedAt
    ensures if refused.None? && report.done
            then Enabled(w, Library(RunnerReportsDone(report.jobId, minted, at)))
                 && InHand(cx, file, Next(w, Library(RunnerReportsDone(report.jobId, minted, at))))
            else InHand(cx, file, w)
  {
    ghost var o, before := Now(cx), file.indexing;
    refused, t := RunnerReports.RunnerReport(cx, file, report, minted, at);
    ReportIsInHand(cx, file, w, o, before, report, minted, at, refused.None?, t);
  }

  lemma ReportIsInHand(cx: Ops, file: FileRow, w: World, o: Outcome, before: Indexing, report: RunnerReports.Report,
                       minted: Uuid, at: Instant, taken: bool, t: RunnerReports.Tally)
    requires H.Reached(w) && w.alive && Shows(o, w) && file.File() == w.File()
    requires Now(cx) == if taken then RunnerReports.Reporting(o, w.File(), before, report, minted, at, t) else o
    requires taken && report.done ==>
               ReadsTrue(cx, file) && Enabled(w, Library(RunnerReportsDone(report.jobId, minted, at)))
    requires !(taken && report.done) ==> file.status == F.Reloaded(file.committedAt.Some?, w.row)
    ensures if taken && report.done then InHand(cx, file, Next(w, Library(RunnerReportsDone(report.jobId, minted, at))))
            else InHand(cx, file, w)
  {
    if taken {
      ReportShows(o, w, before, report, minted, at, t);
      if report.done {
        StillInHand(cx, file, w, Next(w, Library(RunnerReportsDone(report.jobId, minted, at))));
      }
    }
  }

  lemma ReportShows(o: Outcome, w: World, before: Indexing, report: RunnerReports.Report, minted: Uuid, at: Instant,
                    t: RunnerReports.Tally)
    requires H.Reached(w) && w.alive && Shows(o, w)
    requires report.done ==> Enabled(w, Library(RunnerReportsDone(report.jobId, minted, at)))
    ensures Shows(RunnerReports.Reporting(o, w.File(), before, report, minted, at, t),
                  if report.done then Next(w, Library(RunnerReportsDone(report.jobId, minted, at))) else w)
    ensures report.done ==> OnSameFile(w, Next(w, Library(RunnerReportsDone(report.jobId, minted, at))), w.steps)
  {
    var written := L.Bulks(L.Pages(w.fileId, t.written), L.PageReported(report.jobId));
    OtherWritesShow(o, w, written);
    var o1 := o.(log := L.Written(o.log, written));
    OtherWritesShow(o1, w, L.Saves(L.OfFile(w.fileId), RunnerReports.FileFacts(before, report, t.stale)));
    var o2 := o.(log := RunnerReports.Stored(o.log, w.fileId, before, report, t.written, t.stale));
    if report.done {
      EndShows(o2, w, t.trimmed, t.dropped);
      GestureShows(o2.(log := E.Dropped(E.Trimmed(o2.log, w.fileId, t.trimmed), w.fileId, t.dropped)), w,
                   RunnerReportsDone(report.jobId, minted, at));
      LoadsTheSame(o, w, at);
    }
  }

  /// What the end of a chain trims and drops changes nothing the world shows.
  lemma EndShows(o: Outcome, w: World, trimmed: seq<int>, dropped: seq<string>)
    requires Shows(o, w)
    ensures Shows(o.(log := E.Dropped(E.Trimmed(o.log, w.fileId, trimmed), w.fileId, dropped)), w)
  {
    OtherWritesShow(o, w, L.Bulks(L.Pages(w.fileId, trimmed), L.PageTrimmed));
    var short := o.(log := E.Trimmed(o.log, w.fileId, trimmed));
    if dropped != [] {
      OtherWritesShow(short, w, L.Saves(L.OfFile(w.fileId), [L.FileSays(L.ImagesDropped(dropped))]));
    }
  }

  lemma FailureShows(o: Outcome, w: World, job: Uuid, reason: string, message: Option<string>, at: Instant)
    requires H.Reached(w) && w.alive && Shows(o, w) && Enabled(w, Library(RunnerReportsFailure(job, reason, message, at)))
    ensures var v := Next(w, Library(RunnerReportsFailure(job, reason, message, at)));
            && Shows(Committed(o, w.fileId, C.ReportFailed(P.Stored(o.rows, o.log, w.fileId, at), reason, message, at)), v)
            && OnSameFile(w, v, w.steps)
  {
    LoadsTheSame(o, w, at);
    GestureShows(o, w, RunnerReportsFailure(job, reason, message, at));
  }

  /// A runner declares a failure of the running job.
  method ReportFailure(cx: Ops, file: FileRow, job: Uuid, reason: string, message: Option<string>, at: Instant, ghost w: World)
    requires H.Reached(w) && InHand(cx, file, w) && Enabled(w, Library(RunnerReportsFailure(job, reason, message, at)))
    modifies cx`rows, cx`commands, cx.tables, file`status, file`updatedAt
    ensures InHand(cx, file, Next(w, Library(RunnerReportsFailure(job, reason, message, at))))
  {
    FailureShows(Now(cx), w, job, reason, message, at);
    var processing := P.LoadProcessing(cx, file, at);
    P.ReportFailed(cx, file, processing, reason, message, at);
  }

  /// A user cancels.
  method Cancel(cx: Ops, file: FileRow, at: Instant, ghost w: World)
    requires H.Reached(w) && InHand(cx, file, w) && Enabled(w, Library(UserCancels(at)))
    modifies cx`rows, cx`commands, cx.tables, file`status, file`updatedAt
    ensures InHand(cx, file, Next(w, Library(UserCancels(at))))
  {
    LoadsTheSame(Now(cx), w, at);
    GestureShows(Now(cx), w, UserCancels(at));
    var done := P.CancelProcessing(cx, file, at);
  }

  /// The file's drive is frozen.
  method EndOnFreeze(cx: Ops, file: FileRow, at: Instant, ghost w: World)
    requires H.Reached(w) && InHand(cx, file, w) && Enabled(w, Library(HostFreezes(at)))
    modifies cx`rows, cx`commands, cx.tables, file`status, file`updatedAt
    ensures InHand(cx, file, Next(w, Library(HostFreezes(at))))
  {
    LoadsTheSame(Now(cx), w, at);
    GestureShows(Now(cx), w, HostFreezes(at));
    Freeze.EndProcessing(cx, file, at);
  }

  /// A fact of Jobs arrives.
  method Deliver(cx: Ops, file: FileRow, fact: Fact, at: Instant, ghost w: World)
    requires H.Reached(w) && InHand(cx, file, w) && Enabled(w, Library(FactDelivered(fact, at)))
    modifies cx`rows, cx`commands, cx.tables, file`status, file`updatedAt
    ensures InHand(cx, file, Next(w, Library(FactDelivered(fact, at))))
  {
    LoadsTheSame(Now(cx), w, at);
    GestureShows(Now(cx), w, FactDelivered(fact, at));
    var done := P.OnFact(cx, file, fact.jobId, fact.received, at);
  }

  lemma PromotionShows(o: Outcome, w: World, at: Instant)
    requires H.Reached(w) && w.alive && Shows(o, w) && Enabled(w, Library(PromotionDelivered(at)))
    ensures var v, p := Next(w, Library(PromotionDelivered(at))), P.Stored(o.rows, o.log, w.fileId, at);
            && OnSameFile(w, v, w.steps)
            && if w.row.None? || !p.row.awaitingSource then Shows(o, v)
               else var m := C.SourcePromoted(w.File(), p, at); m.Some? && Shows(Committed(o, w.fileId, m.value), v)
  {
    LoadsTheSame(o, w, at);
    if w.row.None? {
      MovesShow(o, w, PromotionDelivered(at));
    } else {
      GestureShows(o, w, PromotionDelivered(at));
      NothingCommitted(o, w, at);
    }
  }

  lemma NothingCommitted(o: Outcome, w: World, at: Instant)
    requires Shows(o, w) && w.row.Some?
    ensures Committed(o, w.fileId, C.Move(w.Load(at), [])) == o
  {
    assert Said([]) == [];
  }

  /// The source's promotion arrives.
  method Promote(cx: Ops, file: FileRow, at: Instant, ghost w: World)
    requires H.Reached(w) && InHand(cx, file, w) && Enabled(w, Library(PromotionDelivered(at)))
    modifies cx`rows, cx`commands, cx.tables, file`status, file`updatedAt
    ensures InHand(cx, file, Next(w, Library(PromotionDelivered(at))))
  {
    PromotionShows(Now(cx), w, at);
    var done := P.OnSourcePromoted(cx, file, at);
  }

  /// A delivery that finds no file moves nothing.
  lemma DeliveryToNobodyShows(o: Outcome, w: World, g: Gesture)
    requires H.Reached(w) && !w.alive && Shows(o, w) && Enabled(w, Library(g))
    ensures (g.FactDelivered? || g.PromotionDelivered?) && Shows(o, Next(w, Library(g)))
  {
    H.ReachedHolds(w);
    MovesShow(o, w, g);
  }
}
