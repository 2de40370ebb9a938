/// Facts of Jobs in any order, late, repeated: the first end wins, a held step is
/// released once, and progress does not depend on the order it came in.
module LateFacts {
  import opened Common
  import opened Contract
  import opened S = ProcessingState
  import C = Chain
  import F = FileStatus

  datatype Delivery = Delivery(jobId: Uuid, sent: Received, at: Instant)

  /// The reactions to a sequence of deliveries: where the last one leaves the
  /// processing, and every command staged; `None` once one faults.
  function ReactAll(file: C.File, p: Aggregate, deliveries: seq<Delivery>): Option<C.Move> {
    if deliveries == [] then Some(C.Move(p, []))
    else
      var before := ReactAll(file, p, deliveries[..|deliveries| - 1]);
      if before.None? then None
      else
        var d := deliveries[|deliveries| - 1];
        Then(before.value, C.React(file, before.value.processing, d.jobId, d.sent, d.at))
  }

  /// One move after another.
  function Then(first: C.Move, next: Option<C.Move>): Option<C.Move> {
    if next.None? then None else Some(C.Move(next.value.processing, first.commands + next.value.commands))
  }

  lemma ReactAllOne(file: C.File, p: Aggregate, deliveries: seq<Delivery>, d: Delivery)
    requires ReactAll(file, p, deliveries).Some?
    ensures var before := ReactAll(file, p, deliveries).value;
            ReactAll(file, p, deliveries + [d]) == Then(before, C.React(file, before.processing, d.jobId, d.sent, d.at))
  {
    assert (deliveries + [d])[..|deliveries|] == deliveries;
  }

  /// Only the version and the log moved, one fact recorded per delivery.
  predicate OnlyRecorded(p: Aggregate, q: Aggregate, n: nat) {
    && q.row == p.row && q.version == p.version + n
    && |q.pending| == |p.pending| + n && p.pending <= q.pending
  }

  // ---- the first end wins ----

  /// No job of `deliveries` runs, nor is reported done with a step held.
  predicate AllSettled(r: Row, deliveries: seq<Delivery>) {
    forall d :: d in deliveries ==> d.jobId != r.jobId || (!r.IsRunning() && r.nextJobId.None?)
  }

  lemma LateOne(file: C.File, p: Aggregate, d: Delivery)
    requires d.jobId != p.row.jobId || (!p.row.IsRunning() && p.row.nextJobId.None?)
    ensures var m := C.React(file, p, d.jobId, d.sent, d.at);
            m.Some? && OnlyRecorded(p, m.value.processing, 1) && m.value.commands == []
  {
  }

  /// Once a job ended or was replaced, whatever Jobs says of it, in any order and
  /// any number of times, is recorded and changes nothing.
  lemma {:induction false} FirstEndWins(file: C.File, p: Aggregate, deliveries: seq<Delivery>)
    requires AllSettled(p.row, deliveries)
    ensures var m := ReactAll(file, p, deliveries);
            m.Some? && OnlyRecorded(p, m.value.processing, |deliveries|) && m.value.commands == []
  {
    if deliveries != [] {
      var first := deliveries[..|deliveries| - 1];
      assert forall d :: d in first ==> d in deliveries;
      FirstEndWins(file, p, first);
      LateOne(file, ReactAll(file, p, first).value.processing, deliveries[|deliveries| - 1]);
    }
  }

  /// An end, whichever it is, settles the running job on the spot.
  lemma AnEndSettles(file: C.File, p: Aggregate, d: Delivery, more: seq<Delivery>)
    requires p.row.IsRunning() && d.jobId == p.row.jobId && d.sent.End() && !d.sent.Completed?
    requires forall late :: late in more ==> late.jobId == d.jobId
    ensures var ended := C.React(file, p, d.jobId, d.sent, d.at);
            && ended.Some? && ended.value.processing.row.state == Failed
            && var m := ReactAll(file, ended.value.processing, more);
               m.Some? && m.value.processing.row == ended.value.processing.row && m.value.commands == []
  {
    var ended := C.React(file, p, d.jobId, d.sent, d.at).value.processing;
    FirstEndWins(file, ended, more);
  }

  // ---- a held step is released once ----

  predicate Held(file: C.File, r: Row) {
    && r.state == Processing && !r.awaitingSource
    && r.nextJobId.Some? && r.nextJobId.value != r.jobId && C.HasNext(file, r) && r.cancelRequestedAt.None?
  }

  lemma HeldOne(file: C.File, p: Aggregate, d: Delivery)
    requires Held(file, p.row) && d.jobId == p.row.jobId && !d.sent.End()
    ensures var m := C.React(file, p, d.jobId, d.sent, d.at);
            m.Some? && OnlyRecorded(p, m.value.processing, 1) && m.value.commands == []
  {
  }

  /// Before Jobs ends the reported job, the held step stays held.
  lemma {:induction false} HeldUntilTheEnd(file: C.File, p: Aggregate, deliveries: seq<Delivery>)
    requires Held(file, p.row)
    requires forall d :: d in deliveries ==> d.jobId == p.row.jobId && !d.sent.End()
    ensures var m := ReactAll(file, p, deliveries);
            m.Some? && OnlyRecorded(p, m.value.processing, |deliveries|) && m.value.commands == []
  {
    if deliveries != [] {
      var first := deliveries[..|deliveries| - 1];
      assert forall d :: d in first ==> d in deliveries;
      HeldUntilTheEnd(file, p, first);
      HeldOne(file, ReactAll(file, p, first).value.processing, deliveries[|deliveries| - 1]);
    }
  }

  /// What the release of the held step makes of the row at `at`: the step's job
  /// running, or the chain abandoned. The reported job is not marked failed.
  function ReleasedRow(file: C.File, r: Row, at: Instant): Row
    requires Held(file, r)
  {
    C.ReleaseNextStep(file, Aggregate(r, 0, []), at).value.processing.row
  }

  lemma ReleaseOne(file: C.File, p: Aggregate, d: Delivery)
    requires Held(file, p.row) && d.jobId == p.row.jobId && d.sent.End()
    ensures var m := C.React(file, p, d.jobId, d.sent, d.at);
            && m.Some? && m.value.processing.row == ReleasedRow(file, p.row, d.at)
            && |m.value.commands| == (if ChainPassport(p.row.passport).Ok? then 1 else 0)
            && (forall c :: c in m.value.commands ==> c.JobCreate? && c.create.jobId == p.row.nextJobId.value)
  {
    var received := Receive(p, d.jobId, d.sent, d.at).0;
    assert received.row == p.row;
  }

  lemma FirstEndReleases(file: C.File, p: Aggregate, before: seq<Delivery>, end: Delivery)
    requires Held(file, p.row) && end.jobId == p.row.jobId && end.sent.End()
    requires forall d :: d in before ==> d.jobId == p.row.jobId && !d.sent.End()
    ensures var m := ReactAll(file, p, before + [end]);
            && m.Some?
            && m.value.processing.row == ReleasedRow(file, p.row, end.at)
            && |m.value.commands| == (if ChainPassport(p.row.passport).Ok? then 1 else 0)
            && (forall c :: c in m.value.commands ==> c.JobCreate? && c.create.jobId == p.row.nextJobId.value)
  {
    HeldUntilTheEnd(file, p, before);
    ReleaseOne(file, ReactAll(file, p, before).value.processing, end);
    ReactAllOne(file, p, before, end);
  }

  /// Jobs' facts about a reported job, in any order and any number of times,
  /// release its held step exactly once, at its first end, whichever end that is;
  /// everything before and after it is only recorded.
  lemma {:induction false} HeldStepIsReleasedOnce(file: C.File, p: Aggregate, before: seq<Delivery>, end: Delivery,
                                                  after: seq<Delivery>)
    requires Held(file, p.row) && end.jobId == p.row.jobId && end.sent.End()
    requires forall d :: d in before ==> d.jobId == p.row.jobId && !d.sent.End()
    requires forall d :: d in after ==> d.jobId == p.row.jobId
    ensures var m := ReactAll(file, p, before + [end] + after);
            && m.Some?
            && m.value.processing.row == ReleasedRow(file, p.row, end.at)
            && |m.value.commands| == (if ChainPassport(p.row.passport).Ok? then 1 else 0)
            && (forall c :: c in m.value.commands ==> c.JobCreate? && c.create.jobId == p.row.nextJobId.value)
    decreases after
  {
    if after == [] {
      FirstEndReleases(file, p, before, end);
      assert before + [end] + after == before + [end];
    } else {
      var first, last := after[..|after| - 1], after[|after| - 1];
      var facts := before + [end] + first;
      assert after == first + [last];
      ConcatInOne(before + [end], first, [last]);
      HeldStepIsReleasedOnce(file, p, before, end, first);
      ReleasedIsSettled(file, p.row, end.at);
      LateIsRecorded(file, p, facts, last);
    }
  }

  /// One more fact about a job that ended moves nothing.
  lemma LateIsRecorded(file: C.File, p: Aggregate, facts: seq<Delivery>, last: Delivery)
    requires ReactAll(file, p, facts).Some?
    requires var r := ReactAll(file, p, facts).value.processing.row;
             last.jobId != r.jobId || (!r.IsRunning() && r.nextJobId.None?)
    ensures var m, n := ReactAll(file, p, facts).value, ReactAll(file, p, facts + [last]);
            n.Some? && n.value.processing.row == m.processing.row && n.value.commands == m.commands
  {
    LateOne(file, ReactAll(file, p, facts).value.processing, last);
    ReactAllOne(file, p, facts, last);
  }

  lemma ReleasedIsSettled(file: C.File, r: Row, at: Instant)
    requires Held(file, r)
    ensures var t := ReleasedRow(file, r, at); r.jobId != t.jobId || (!t.IsRunning() && t.nextJobId.None?)
  {
  }

  // ---- progress does not depend on the order ----

  /// The steps among the deliveries, as the reads would list them.
  function Steps(deliveries: seq<Delivery>): seq<F.Entry> {
    if deliveries == [] then [] else WithStep(Steps(deliveries[..|deliveries| - 1]), deliveries[|deliveries| - 1].sent)
  }

  function WithStep(entries: seq<F.Entry>, sent: Received): seq<F.Entry> {
    var fact := sent.AtStorePrecision();
    if fact.StepStarted? then entries + [F.StepStarted(fact.index, fact.caption, fact.startedAt)] else entries
  }

  lemma RunsOnOne(file: C.File, p: Aggregate, d: Delivery)
    requires p.row.IsRunning() && d.jobId == p.row.jobId && !d.sent.End()
    ensures var m := C.React(file, p, d.jobId, d.sent, d.at);
            m.Some? && m.value.processing.row.IsRunning() && m.value.processing.row.jobId == p.row.jobId && m.value.commands == []
  {
  }

  lemma {:induction false} RunsOn(file: C.File, p: Aggregate, deliveries: seq<Delivery>)
    requires p.row.IsRunning()
    requires forall d :: d in deliveries ==> d.jobId == p.row.jobId && !d.sent.End()
    ensures var m := ReactAll(file, p, deliveries);
            m.Some? && m.value.processing.row.IsRunning() && m.value.processing.row.jobId == p.row.jobId && m.value.commands == []
  {
    if deliveries != [] {
      var first := deliveries[..|deliveries| - 1];
      assert forall d :: d in first ==> d in deliveries;
      RunsOn(file, p, first);
      RunsOnOne(file, ReactAll(file, p, first).value.processing, deliveries[|deliveries| - 1]);
    }
  }

  /// No step was received yet.
  predicate Unstarted(r: Row) {
    r.planAt.None? && r.planIndex.None? && r.planLabel.None?
  }

  /// The greatest step of `entries`, the first one of equals: what `receive` keeps,
  /// where the reads' own maximum keeps the last.
  function FirstGreatest(entries: seq<F.Entry>): (kept: Option<F.Entry>)
    ensures kept.Some? ==> kept.value in entries && kept.value.StepStarted?
    ensures forall e :: e in entries && e.StepStarted? ==> kept.Some? && F.NotAfter(e, kept.value)
  {
    if entries == [] then None
    else
      var before, last := FirstGreatest(entries[..|entries| - 1]), entries[|entries| - 1];
      if last.StepStarted? && (before.None? || !F.NotAfter(last, before.value)) then Some(last) else before
  }

  /// Two steps that no order tells apart.
  predicate Tied(a: F.Entry, b: F.Entry) {
    a.StepStarted? && b.StepStarted? && a.startedAt == b.startedAt && a.index == b.index
  }

  /// The two maxima are tied: they differ by their label at most.
  lemma MaximaAreTied(entries: seq<F.Entry>)
    ensures FirstGreatest(entries).Some? <==> F.Latest(entries).Some?
    ensures F.Latest(entries).Some? ==> Tied(FirstGreatest(entries).value, F.Latest(entries).value)
  {
    var kept, latest := FirstGreatest(entries), F.Latest(entries);
    assert kept.Some? && latest.Some? ==> F.NotAfter(kept.value, latest.value) && F.NotAfter(latest.value, kept.value);
  }

  /// The row shows the greatest of `entries`, under the label it first came with.
  predicate Shows(r: Row, entries: seq<F.Entry>) {
    var kept := FirstGreatest(entries);
    if kept.None? then Unstarted(r)
    else r.planAt == Some(kept.value.startedAt) && r.planIndex == Some(kept.value.index) && r.planLabel == Some(kept.value.caption)
  }

  lemma FirstGreatestOfOneMore(entries: seq<F.Entry>, one: F.Entry)
    requires one.StepStarted?
    ensures var kept := FirstGreatest(entries);
            FirstGreatest(entries + [one]) == if kept.None? || !F.NotAfter(one, kept.value) then Some(one) else kept
  {
    assert (entries + [one])[..|entries|] == entries;
  }

  lemma ShowsOneMore(file: C.File, p: Aggregate, d: Delivery, entries: seq<F.Entry>)
    requires p.row.IsRunning() && d.jobId == p.row.jobId && !d.sent.End() && Shows(p.row, entries)
    ensures var m := C.React(file, p, d.jobId, d.sent, d.at);
            m.Some? && Shows(m.value.processing.row, WithStep(entries, d.sent))
  {
    var fact := d.sent.AtStorePrecision();
    if fact.StepStarted? {
      FirstGreatestOfOneMore(entries, F.StepStarted(fact.index, fact.caption, fact.startedAt));
    }
  }

  /// Facts of the running job, none of them an end.
  predicate AboutTheRun(r: Row, deliveries: seq<Delivery>) {
    forall d :: d in deliveries ==> d.jobId == r.jobId && !d.sent.End()
  }

  /// The running job's latest step is the greatest of all the steps received, by
  /// instant then index, under the label it first came with.
  lemma {:induction false} ProgressIsTheLatestStep(file: C.File, p: Aggregate, deliveries: seq<Delivery>)
    requires p.row.IsRunning() && Unstarted(p.row) && AboutTheRun(p.row, deliveries)
    ensures ReactAll(file, p, deliveries).Some?
    ensures Shows(ReactAll(file, p, deliveries).value.processing.row, Steps(deliveries))
  {
    if deliveries != [] {
      var first, last := deliveries[..|deliveries| - 1], deliveries[|deliveries| - 1];
      assert deliveries == first + [last];
      RunsOn(file, p, first);
      ProgressIsTheLatestStep(file, p, first);
      ShowsOneMore(file, ReactAll(file, p, first).value.processing, last, Steps(first));
      ReactAllOne(file, p, first, last);
    }
  }

  /// It is the instant and the index the reads compute from the whole list.
  lemma ProgressIsTheReadsOwn(file: C.File, p: Aggregate, deliveries: seq<Delivery>)
    requires p.row.IsRunning() && Unstarted(p.row) && AboutTheRun(p.row, deliveries)
    ensures ReactAll(file, p, deliveries).Some?
    ensures var r, latest := ReactAll(file, p, deliveries).value.processing.row, F.Latest(Steps(deliveries));
            if latest.None? then Unstarted(r)
            else r.planAt == Some(latest.value.startedAt) && r.planIndex == Some(latest.value.index)
  {
    ProgressIsTheLatestStep(file, p, deliveries);
    MaximaAreTied(Steps(deliveries));
  }

  /// The same steps, in whatever order and however often.
  ghost predicate SameSteps(a: seq<Delivery>, b: seq<Delivery>) {
    forall e :: e in Steps(a) <==> e in Steps(b)
  }

  /// The steps no other is after carry one label.
  predicate OneLabel(entries: seq<F.Entry>) {
    var kept := FirstGreatest(entries);
    kept.Some? ==> forall e :: e in entries && Tied(e, kept.value) ==> e.caption == kept.value.caption
  }

  /// Two lists of the same steps have tied maxima; equal ones when they carry one label.
  lemma GreatestIsOrderFree(a: seq<F.Entry>, b: seq<F.Entry>)
    requires forall e :: e in a <==> e in b
    ensures FirstGreatest(a).Some? <==> FirstGreatest(b).Some?
    ensures FirstGreatest(a).Some? ==> Tied(FirstGreatest(a).value, FirstGreatest(b).value)
    ensures OneLabel(a) ==> FirstGreatest(a) == FirstGreatest(b)
  {
    var x, y := FirstGreatest(a), FirstGreatest(b);
    assert x.Some? ==> x.value in b;
    assert y.Some? ==> y.value in a;
    assert x.Some? && y.Some? ==> F.NotAfter(x.value, y.value) && F.NotAfter(y.value, x.value);
  }

  /// The reads' own maximum is order-free too; and so is its label when equal
  /// steps carry equal labels.
  lemma LatestIsOrderFree(a: seq<F.Entry>, b: seq<F.Entry>)
    requires forall e :: e in a <==> e in b
    ensures F.Latest(a).Some? <==> F.Latest(b).Some?
    ensures F.Latest(a).Some? ==> Tied(F.Latest(a).value, F.Latest(b).value)
    ensures OneLabel(a) ==> F.Latest(a) == F.Latest(b)
  {
    MaximaAreTied(a);
    MaximaAreTied(b);
    GreatestIsOrderFree(a, b);
  }

  /// Two deliveries of the same steps, in any orders and with any repeats, leave
  /// the same instant and index; and the same label when the greatest carry one.
  lemma ProgressIsOrderFree(file: C.File, p: Aggregate, a: seq<Delivery>, b: seq<Delivery>)
    requires p.row.IsRunning() && Unstarted(p.row) && AboutTheRun(p.row, a) && AboutTheRun(p.row, b) && SameSteps(a, b)
    ensures ReactAll(file, p, a).Some? && ReactAll(file, p, b).Some?
    ensures var r, t := ReactAll(file, p, a).value.processing.row, ReactAll(file, p, b).value.processing.row;
            && r.planAt == t.planAt && r.planIndex == t.planIndex
            && (OneLabel(Steps(a)) ==> r.planLabel == t.planLabel)
  {
    ProgressIsTheLatestStep(file, p, a);
    ProgressIsTheLatestStep(file, p, b);
    GreatestIsOrderFree(Steps(a), Steps(b));
  }

  // ---- the label does, unless the greatest steps carry one ----

  /// The label the row is left with.
  function LabelAfter(file: C.File, p: Aggregate, deliveries: seq<Delivery>): Option<string> {
    var m := ReactAll(file, p, deliveries);
    if m.Some? then m.value.processing.row.planLabel else None
  }

  lemma {:induction false} StepsOfMore(first: seq<Delivery>, more: seq<Delivery>)
    ensures Steps(first + more) == Steps(first) + Steps(more)
  {
    if more == [] {
      assert first + more == first;
    } else {
      assert (first + more)[..|first + more| - 1] == first + more[..|more| - 1];
      StepsOfMore(first, more[..|more| - 1]);
    }
  }

  /// Each step of the list was delivered.
  lemma {:induction false} StepWasDelivered(deliveries: seq<Delivery>, step: F.Entry) returns (d: Delivery)
    requires step in Steps(deliveries)
    ensures d in deliveries && Steps([d]) == [step]
  {
    var first, last := deliveries[..|deliveries| - 1], deliveries[|deliveries| - 1];
    assert deliveries == first + [last] && [last][..0] == [];
    if step in Steps(first) {
      d := StepWasDelivered(first, step);
    } else {
      d := last;
    }
  }

  /// A step no other is after, received first, is the one that stays.
  lemma {:induction false} FirstStays(step: F.Entry, entries: seq<F.Entry>)
    requires step.StepStarted? && forall e :: e in entries && e.StepStarted? ==> F.NotAfter(e, step)
    ensures FirstGreatest([step] + entries) == Some(step)
  {
    if entries == [] {
      assert [step] + entries == [step] && [step][..0] == [];
    } else {
      var first := entries[..|entries| - 1];
      assert ([step] + entries)[..|entries|] == [step] + first;
      FirstStays(step, first);
    }
  }

  /// With two labels among the greatest steps, one more repetition of one of them,
  /// received first, leaves the other label.
  lemma TwoLabelsTellTheOrder(file: C.File, p: Aggregate, a: seq<Delivery>) returns (b: seq<Delivery>)
    requires p.row.IsRunning() && Unstarted(p.row) && AboutTheRun(p.row, a) && !OneLabel(Steps(a))
    ensures AboutTheRun(p.row, b) && SameSteps(a, b) && LabelAfter(file, p, b) != LabelAfter(file, p, a)
  {
    var kept := FirstGreatest(Steps(a)).value;
    var other :| other in Steps(a) && Tied(other, kept) && other.caption != kept.caption;
    var d := StepWasDelivered(a, other);
    b := [d] + a;
    StepsOfMore([d], a);
    FirstStays(other, Steps(a));
    ProgressIsTheLatestStep(file, p, a);
    ProgressIsTheLatestStep(file, p, b);
  }

  /// Every order and repetition of the steps received leaves the same label exactly
  /// when the greatest of them carry one.
  lemma LabelIsOrderFree(file: C.File, p: Aggregate, a: seq<Delivery>)
    requires p.row.IsRunning() && Unstarted(p.row) && AboutTheRun(p.row, a)
    ensures OneLabel(Steps(a)) <==>
              forall b :: AboutTheRun(p.row, b) && SameSteps(a, b) ==> LabelAfter(file, p, b) == LabelAfter(file, p, a)
  {
    if OneLabel(Steps(a)) {
      forall b | AboutTheRun(p.row, b) && SameSteps(a, b)
        ensures LabelAfter(file, p, b) == LabelAfter(file, p, a)
      {
        ProgressIsOrderFree(file, p, a, b);
      }
    } else {
      var b := TwoLabelsTellTheOrder(file, p, a);
    }
  }

  /// Of two steps that fall in one microsecond under one index, the first received
  /// gives its label.
  lemma FirstLabelStays(file: C.File, p: Aggregate, d: Delivery, e: Delivery)
    requires p.row.IsRunning() && Unstarted(p.row) && d.jobId == e.jobId == p.row.jobId
    requires d.sent.StepStarted? && e.sent.StepStarted? && d.sent.index == e.sent.index
    requires d.sent.AtStorePrecision().startedAt == e.sent.AtStorePrecision().startedAt
    ensures LabelAfter(file, p, [d, e]) == Some(d.sent.caption) && LabelAfter(file, p, [e, d]) == Some(e.sent.caption)
  {
    TwoSteps(file, p, d, e);
    TwoSteps(file, p, e, d);
  }

  lemma StepsOfOne(d: Delivery)
    ensures Steps([d]) == WithStep([], d.sent)
  {
    assert [d][..0] == [];
  }

  lemma TwoSteps(file: C.File, p: Aggregate, d: Delivery, e: Delivery)
    requires p.row.IsRunning() && Unstarted(p.row) && d.jobId == e.jobId == p.row.jobId
    requires d.sent.StepStarted? && e.sent.StepStarted? && d.sent.index == e.sent.index
    requires d.sent.AtStorePrecision().startedAt == e.sent.AtStorePrecision().startedAt
    ensures LabelAfter(file, p, [d, e]) == Some(d.sent.caption)
  {
    assert [d, e] == [d] + [e];
    StepsOfOne(d);
    StepsOfOne(e);
    StepsOfMore([d], [e]);
    FirstStays(Steps([d])[0], Steps([e]));
    ProgressIsTheLatestStep(file, p, [d, e]);
  }
}
