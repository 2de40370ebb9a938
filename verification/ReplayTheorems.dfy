/// The facts handed to the host rebuild the row, over every run.
module ReplayTheorems {
  import opened Common
  import opened Contract
  import opened Protocol
  import opened ProtocolInvariant
  import opened ProtocolSteps
  import opened ProtocolTheorems
  import opened Replay
  import C = Chain

  ghost predicate Retold(w: World) {
    w.row.Some? ==> Told(Fold(NOTHING, w.log).row) == Told(w.row.value)
  }

  /// A processing read, or blank, is what was told of it but for its instants.
  lemma LoadIsTold(w: World, at: Instant)
    requires Seat(w) && Retold(w) && w.alive
    ensures Told(Fold(NOTHING, w.log).row).(jobCreatedAt := 0, updatedAt := 0)
            == Told(w.Load(at).row).(jobCreatedAt := 0, updatedAt := 0)
    ensures w.Load(at).pending == [] && w.Load(at).version == |w.log|
  {
  }

  lemma StartIsTold(w: World, g: Gesture)
    requires Seat(w) && Retold(w) && g.CommitStart? && GestureEnabled(w, g)
    ensures Moved(w, g).Some? ==> Tracks(Fold(NOTHING, w.log), |w.log|, Moved(w, g).value.processing)
  {
    LoadIsTold(w, g.at);
    StartMoveTold(Fold(NOTHING, w.log), C.File(w.service, w.fileId, g.steps), w.Load(g.at), g.rulesetId, g.trigger, g.initiator,
                  g.passport, g.priority, w.opening.sourcePending, g.minted, g.at);
  }

  lemma DeliveryIsTold(w: World, g: Gesture)
    requires Retold(w) && (g.FactDelivered? || g.PromotionDelivered?) && GestureEnabled(w, g) && Moved(w, g).Some?
    ensures Tracks(Fold(NOTHING, w.log), |w.log|, Moved(w, g).value.processing)
  {
    var c, file := Fold(NOTHING, w.log), w.File();
    match g
    case FactDelivered(fact, at) => ReactMoveTold(c, file, w.Load(at), fact.jobId, fact.received, at);
    case PromotionDelivered(at) => PromotedMoveTold(c, file, w.Load(at), at);
  }

  lemma OwnMoveIsTold(w: World, g: Gesture)
    requires Inv(w) && Retold(w) && GestureEnabled(w, g) && Moved(w, g).Some?
    requires g.RunnerReportsDone? || g.RunnerReportsFailure? || g.UserCancels? || g.HostFreezes?
    ensures Tracks(Fold(NOTHING, w.log), |w.log|, Moved(w, g).value.processing)
  {
    var c, file := Fold(NOTHING, w.log), w.File();
    match g
    case RunnerReportsDone(_, minted, at) => ReportDoneMoveTold(c, file, w.Load(at), minted, at);
    case RunnerReportsFailure(_, reason, message, at) => FailureMoveTold(c, w.Load(at), reason, message, at);
    case UserCancels(at) => CancelMoveTold(c, file, w.Load(at), at);
    case HostFreezes(at) => FreezeMoveTold(c, file, w.Load(at), at);
  }

  /// What a gesture pushes tells what it did to the row, and its version counts it.
  lemma MovedIsTold(w: World, g: Gesture)
    requires Inv(w) && Retold(w) && GestureEnabled(w, g) && Moved(w, g).Some?
    ensures Tracks(Fold(NOTHING, w.log), |w.log|, Moved(w, g).value.processing)
  {
    if g.CommitStart? {
      StartIsTold(w, g);
    } else if g.FactDelivered? || g.PromotionDelivered? {
      DeliveryIsTold(w, g);
    } else {
      OwnMoveIsTold(w, g);
    }
  }

  lemma CommitRetold(w: World, v: World, m: C.Move)
    requires v.log == w.log && Tracks(Fold(NOTHING, w.log), |w.log|, m.processing)
    ensures Retold(Commit(v, m))
  {
    FoldMore(NOTHING, w.log, m.processing.pending);
  }

  lemma DoingLeavesTheRow(w: World, d: Doing)
    requires DoingEnabled(w, d)
    ensures AfterDoing(w, d).row == w.row && AfterDoing(w, d).log == w.log
  {
  }

  lemma EventRetold(w: World, e: Event)
    requires Retold(w) && EventEnabled(w, e)
    ensures Retold(AfterEvent(w, e))
  {
    assert AfterEvent(w, e).log == w.log;
    if AfterEvent(w, e).row.Some? {
      assert Told(AfterEvent(w, e).row.value) == Told(w.row.value);
    }
  }

  lemma BesideRetold(w: World, g: Gesture)
    requires Retold(w)
    ensures Retold(Beside(w, g)) && Beside(w, g).log == w.log
  {
  }

  lemma StepRetold(w: World, a: Action)
    requires Inv(w) && Retold(w) && Enabled(w, a)
    ensures Retold(Next(w, a))
  {
    match a
    case Around(event) => EventRetold(w, event);
    case Jobs(doing) => DoingLeavesTheRow(w, doing);
    case Library(gesture) =>
      BesideRetold(w, gesture);
      if Moved(w, gesture).Some? {
        MovedIsTold(w, gesture);
        CommitRetold(w, Beside(w, gesture), Moved(w, gesture).value);
      }
  }

  lemma {:induction false} RunRetold(w: World, actions: seq<Action>)
    requires Inv(w) && Retold(w) && Runs(w, actions)
    ensures Retold(After(w, actions))
    decreases |actions|
  {
    if actions != [] {
      StepKeeps(w, actions[0]);
      StepRetold(w, actions[0]);
      RunRetold(Next(w, actions[0]), actions[1..]);
    }
  }

  /// In every run, the facts handed to the host, folded from nothing, give back
  /// the stored row: its state, its job, its step, the held step, the wait for
  /// the source, the error, the plan, the latest step, the first cancel, the
  /// earlier jobs, the priority.
  lemma FactsRebuildTheRow(w: World)
    requires Reached(w)
    ensures w.row.Some? ==> Told(Fold(NOTHING, w.log).row) == Told(w.row.value)
  {
    var start, actions :| Initial(start) && Runs(start, actions) && After(start, actions) == w;
    InitialHolds(start);
    RunRetold(start, actions);
  }

  /// In every run the stored version counts the facts handed: the facts of one
  /// processing are numbered 1, 2, 3, ... with none left out.
  lemma VersionCountsTheFacts(w: World, g: Gesture)
    requires Reached(w) && Enabled(w, Library(g)) && Moved(w, g).Some?
    ensures Moved(w, g).value.processing.version == |Next(w, Library(g)).log|
  {
    ReachedHolds(w);
    FactsRebuildTheRow(w);
    MovedIsTold(w, g);
  }
}
