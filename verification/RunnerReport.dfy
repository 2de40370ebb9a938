/// A runner's report: pages, an indexing, and, when it is final, the end of its job.
module RunnerReports {
  import opened Common
  import opened Contract
  import opened Transaction
  import opened FileProcessings
  import S = ProcessingState
  import C = Chain
  import F = FileStatus
  import L = FactLog
  import B = BlobSlots
  import N = ImageNames
  import R = ImageReferences
  import E = CleanUp
  import P = Pipeline

  const MAX_REPORT_PAGES: nat := 512
  const INVALID_PAGE_ORIGIN := "INVALID_PAGE_ORIGIN"
  const BATCH_TOO_LARGE := "BATCH_TOO_LARGE"
  const INVALID_PAGE := "INVALID_PAGE"
  const INDEXER_FIELDS_TOGETHER := "INDEXER_FIELDS_TOGETHER"
  const INVALID_INDEXER_VALUE := "INVALID_INDEXER_VALUE"
  const NOTHING_TO_CHANGE := "NOTHING_TO_CHANGE"
  const JOB_NOT_ACTIVE := "JOB_NOT_ACTIVE"

  datatype Reported = Reported(number: int, markdown: string)

  datatype Report = Report(jobId: Uuid, pages: seq<Reported>, origin: Origin, summary: Option<string>,
                           pageCount: Option<int>, estimatedTokens: Option<int>, done: bool)

  predicate NumbersAreSound(pages: seq<Reported>) {
    && (forall i :: 0 <= i < |pages| ==> pages[i].number >= 1)
    && (forall i, j :: 0 <= i < j < |pages| ==> pages[i].number != pages[j].number)
  }

  /// What a report is refused for, before the file is looked at.
  function Invalid(report: Report): Option<string> {
    if report.origin.Edited? then Some(INVALID_PAGE_ORIGIN)
    else if |report.pages| > MAX_REPORT_PAGES then Some(BATCH_TOO_LARGE)
    else if !NumbersAreSound(report.pages) then Some(INVALID_PAGE)
    else if report.summary.Some? != report.pageCount.Some? || (report.estimatedTokens.Some? && report.summary.None?) then
      Some(INDEXER_FIELDS_TOGETHER)
    else if (report.pageCount.Some? && report.pageCount.value < 0)
            || (report.estimatedTokens.Some? && report.estimatedTokens.value < 0) then
      Some(INVALID_INDEXER_VALUE)
    else if report.pages == [] && report.summary.None? && !report.done then Some(NOTHING_TO_CHANGE)
    else None
  }

  /// A page a person edited is kept, unless the run regenerates it.
  predicate Kept(pages: map<L.Key, Page>, file: Uuid, trigger: Option<S.Trigger>, number: int) {
    var key := L.OfPage(file, number);
    trigger != Some(S.RegeneratePage) && key in pages && pages[key].origin.Edited?
  }

  /// What a report is refused for, in this order.
  lemma InvalidSays(report: Report)
    ensures Invalid(report) ==
              if report.origin == Edited then Some("INVALID_PAGE_ORIGIN")
              else if |report.pages| > 512 then Some("BATCH_TOO_LARGE")
              else if (exists i :: 0 <= i < |report.pages| && report.pages[i].number < 1)
                      || (exists i, j :: 0 <= i < j < |report.pages| && report.pages[i].number == report.pages[j].number)
              then Some("INVALID_PAGE")
              else if (report.summary.None? && (report.pageCount.Some? || report.estimatedTokens.Some?))
                      || (report.summary.Some? && report.pageCount.None?)
              then Some("INDEXER_FIELDS_TOGETHER")
              else if report.pageCount.GetOr(0) < 0 || report.estimatedTokens.GetOr(0) < 0 then Some("INVALID_INDEXER_VALUE")
              else if |report.pages| == 0 && report.summary == None && !report.done then Some("NOTHING_TO_CHANGE")
              else None
  {
  }

  /// Only a page a person edited is kept, and not by a run that regenerates.
  lemma KeptSays(pages: map<L.Key, Page>, file: Uuid, trigger: Option<S.Trigger>, number: int)
    ensures Kept(pages, file, trigger, number) <==>
              L.OfPage(file, number) in pages && pages[L.OfPage(file, number)].origin == Edited
              && (trigger.None? || trigger.value == S.Upload || trigger.value == S.Reprocess)
  {
  }

  /// The pages written are those reported that no person's page stands for.
  lemma WritesSay(pages: map<L.Key, Page>, file: Uuid, trigger: Option<S.Trigger>, reported: seq<Reported>, w: Reported)
    ensures w in Writes(pages, file, trigger, reported) <==>
              w in reported && !(L.OfPage(file, w.number) in pages && pages[L.OfPage(file, w.number)].origin == Edited
                                 && (trigger.None? || trigger.value == S.Upload || trigger.value == S.Reprocess))
  {
    WritesAreNotKept(pages, file, trigger, reported);
    KeptSays(pages, file, trigger, w.number);
  }

  /// The pages a report writes.
  function Writes(pages: map<L.Key, Page>, file: Uuid, trigger: Option<S.Trigger>, reported: seq<Reported>): seq<Reported> {
    if reported == [] then []
    else
      var before, last := Writes(pages, file, trigger, reported[..|reported| - 1]), reported[|reported| - 1];
      if Kept(pages, file, trigger, last.number) then before else before + [last]
  }

  /// The pages written are those reported and not kept.
  lemma {:induction false} WritesAreNotKept(pages: map<L.Key, Page>, file: Uuid, trigger: Option<S.Trigger>, reported: seq<Reported>)
    ensures forall w :: w in Writes(pages, file, trigger, reported) <==> w in reported && !Kept(pages, file, trigger, w.number)
  {
    if reported != [] {
      var first, last := reported[..|reported| - 1], reported[|reported| - 1];
      WritesAreNotKept(pages, file, trigger, first);
      assert reported == first + [last];
    }
  }

  lemma {:induction false} WritesStaySound(pages: map<L.Key, Page>, file: Uuid, trigger: Option<S.Trigger>, reported: seq<Reported>)
    requires NumbersAreSound(reported)
    ensures NumbersAreSound(Writes(pages, file, trigger, reported))
  {
    if reported != [] {
      var first, last := reported[..|reported| - 1], reported[|reported| - 1];
      WritesStaySound(pages, file, trigger, first);
      WritesAreNotKept(pages, file, trigger, first);
      var before := Writes(pages, file, trigger, first);
      forall i | 0 <= i < |before|
        ensures before[i].number != last.number
      {
        assert before[i] in first;
      }
    }
  }

  /// A page kept from a person's hand is not among those written.
  lemma KeptIsNotWritten(pages: map<L.Key, Page>, file: Uuid, trigger: Option<S.Trigger>, reported: seq<Reported>, number: int)
    requires Kept(pages, file, trigger, number)
    ensures !Numbered(Writes(pages, file, trigger, reported), number)
  {
    var writes := Writes(pages, file, trigger, reported);
    WritesAreNotKept(pages, file, trigger, reported);
    assert forall i :: 0 <= i < |writes| ==> writes[i] in writes;
  }

  // ---- the pages ----

  predicate WrittenIn(pages: map<L.Key, Page>, file: Uuid, writes: seq<Reported>, origin: Origin) {
    forall i :: 0 <= i < |writes| ==>
      var key := L.OfPage(file, writes[i].number); key in pages && pages[key] == Page(writes[i].markdown, origin)
  }

  predicate Numbered(writes: seq<Reported>, number: int) {
    exists i :: 0 <= i < |writes| && writes[i].number == number
  }

  predicate Names(writes: seq<Reported>, key: L.Key, file: Uuid) {
    key.OfPage? && key.file == file && Numbered(writes, key.number)
  }

  /// The pages of the list are written, and no other.
  predicate Wrote(before: map<L.Key, Page>, after: map<L.Key, Page>, file: Uuid, writes: seq<Reported>, origin: Origin) {
    && WrittenIn(after, file, writes, origin)
    && (forall key :: key in before ==> key in after)
    && (forall key :: key in after && !Names(writes, key, file) ==> key in before && after[key] == before[key])
  }

  /// The end of a chain takes the pages above the count.
  predicate Above(key: L.Key, file: Uuid, count: Option<int>) {
    count.Some? && key.OfPage? && key.file == file && key.number > count.value
  }

  /// The pages of the list are written, less those above `count`; the others left
  /// are as they were.
  ghost predicate Left(before: map<L.Key, Page>, after: map<L.Key, Page>, file: Uuid, writes: seq<Reported>, origin: Origin,
                 count: Option<int>)
  {
    && (forall key :: key in after <==> (key in before || Names(writes, key, file)) && !Above(key, file, count))
    && (forall i :: 0 <= i < |writes| ==>
          var key := L.OfPage(file, writes[i].number); key in after ==> after[key] == Page(writes[i].markdown, origin))
    && (forall key :: key in after && !Names(writes, key, file) ==> after[key] == before[key])
  }

  lemma WrittenThenTrimmed(before: map<L.Key, Page>, between: map<L.Key, Page>, after: map<L.Key, Page>, file: Uuid,
                           writes: seq<Reported>, origin: Origin, count: Option<int>)
    requires Wrote(before, between, file, writes, origin)
    requires after == map key | key in between && !Above(key, file, count) :: between[key]
    ensures Left(before, after, file, writes, origin, count)
  {
    forall key | Names(writes, key, file)
      ensures key in between
    {
      var i :| 0 <= i < |writes| && writes[i].number == key.number;
    }
  }

  method WriteTexts(cx: Ops, file: Uuid, writes: seq<Reported>, origin: Origin)
    requires NumbersAreSound(writes)
    modifies cx`pages
    ensures Wrote(old(cx.pages), cx.pages, file, writes, origin)
  {
    for n := 0 to |writes|
      invariant Wrote(old(cx.pages), cx.pages, file, writes[..n], origin)
    {
      assert writes[..n + 1] == writes[..n] + [writes[n]];
      WroteOneMore(old(cx.pages), cx.pages, file, writes[..n], writes[n], origin);
      cx.pages := cx.pages[L.OfPage(file, writes[n].number) := Page(writes[n].markdown, origin)];
    }
    assert writes[..|writes|] == writes;
  }

  lemma WroteOneMore(before: map<L.Key, Page>, after: map<L.Key, Page>, file: Uuid, writes: seq<Reported>, w: Reported, origin: Origin)
    requires Wrote(before, after, file, writes, origin) && !Numbered(writes, w.number)
    ensures Wrote(before, after[L.OfPage(file, w.number) := Page(w.markdown, origin)], file, writes + [w], origin)
  {
    var more := writes + [w];
    assert more[|writes|] == w;
    forall number | Numbered(writes, number)
      ensures Numbered(more, number)
    {
      var i :| 0 <= i < |writes| && writes[i].number == number;
      assert more[i] == writes[i];
    }
  }

  /// Which rows a statement over the pages `written` leaves stored.
  lemma UpsertedRows(log: L.Log, file: Uuid, written: seq<int>, job: Uuid, key: L.Key)
    ensures key in L.Written(log, L.Bulks(L.Pages(file, written), L.PageReported(job))).versions
            <==> key in log.versions || (key.OfPage? && key.file == file && key.number in written)
  {
    var keys := L.Pages(file, written);
    if key.OfPage? && key.file == file && key.number in written {
      var i :| 0 <= i < |written| && written[i] == key.number;
      assert keys[i] == key;
    }
  }

  /// Writes each page of the list and no other, one fact per page.
  method WritePages(cx: Ops, file: Uuid, writes: seq<Reported>, origin: Origin, job: Uuid) returns (written: seq<int>)
    requires NumbersAreSound(writes) && E.WellStored(cx)
    modifies cx`pages, cx.tables
    ensures Wrote(old(cx.pages), cx.pages, file, writes, origin)
    ensures Distinct(written) && forall n :: n in written <==> Numbered(writes, n)
    ensures cx.tables.log == L.Written(old(cx.tables.log), L.Bulks(L.Pages(file, written), L.PageReported(job)))
    ensures E.WellStored(cx)
  {
    var numbers := set i | 0 <= i < |writes| :: writes[i].number;
    written := cx.tables.UpsertPages(file, numbers, job);
    WriteTexts(cx, file, writes, origin);
    forall key: L.Key | key.OfPage?
      ensures key in cx.pages <==> key in cx.tables.log.versions
    {
      UpsertedRows(old(cx.tables.log), file, written, job, key);
      assert Names(writes, key, file) ==> key in cx.pages;
    }
  }

  // ---- the images of regenerated pages ----

  /// An image of the page `w` that its new text no longer references.
  predicate StaleFor(w: Reported, name: string) {
    N.PageOf(name) == Some(w.number) && !R.References(w.markdown, name)
  }

  predicate Stale(writes: seq<Reported>, name: string) {
    exists i :: 0 <= i < |writes| && StaleFor(writes[i], name)
  }

  lemma {:induction false} RemoveInTwo(s: B.Shelf, first: seq<B.Key>, more: seq<B.Key>)
    ensures B.RemovedAll(B.RemovedAll(s, first), more) == B.RemovedAll(s, first + more)
  {
    if more == [] {
      assert first + more == first;
    } else {
      var before, last := more[..|more| - 1], more[|more| - 1];
      assert first + more == (first + before) + [last];
      assert (first + more)[..|first + more| - 1] == first + before;
      RemoveInTwo(s, first, before);
    }
  }

  predicate HasImage(shelf: B.Shelf, file: Uuid, name: string) {
    B.OfImage(file, name) in shelf.slots
  }

  /// The images of the page `w` its new text does not reference.
  method StaleOfPage(cx: Ops, file: Uuid, w: Reported) returns (names: seq<string>)
    ensures forall name :: name in names <==> HasImage(cx.blobs.shelf, file, name) && StaleFor(w, name)
  {
    names := [];
    var images := set key | key in cx.blobs.shelf.slots && key.OfImage? && key.file == file :: key.name;
    var rest := images;
    while rest != {}
      invariant rest <= images
      invariant forall name :: name in names <==> name in images - rest && StaleFor(w, name)
    {
      var name :| name in rest;
      rest := rest - {name};
      if StaleFor(w, name) {
        names := names + [name];
      }
    }
  }

  /// The images dropped so far and those of one more page, dropped in two times.
  lemma DropInTwo(before: B.Shelf, file: Uuid, first: seq<string>, more: seq<string>)
    ensures var between := B.RemovedAll(before, E.ImageKeys(file, first));
            && B.RemovedAll(between, E.ImageKeys(file, more)) == B.RemovedAll(before, E.ImageKeys(file, first + more))
            && forall name :: HasImage(between, file, name) <==> HasImage(before, file, name) && name !in first
  {
    RemoveInTwo(before, E.ImageKeys(file, first), E.ImageKeys(file, more));
    assert E.ImageKeys(file, first + more) == E.ImageKeys(file, first) + E.ImageKeys(file, more);
    forall name
      ensures HasImage(B.RemovedAll(before, E.ImageKeys(file, first)), file, name) <==> HasImage(before, file, name) && name !in first
    {
      E.DropTakesExactly(before, file, first, B.OfImage(file, name));
    }
  }

  lemma StaleOfMore(writes: seq<Reported>, n: nat, name: string)
    requires n < |writes|
    ensures Stale(writes[..n + 1], name) <==> Stale(writes[..n], name) || StaleFor(writes[n], name)
  {
    assert writes[..n + 1] == writes[..n] + [writes[n]];
    if Stale(writes[..n], name) {
      var i :| 0 <= i < n && StaleFor(writes[..n][i], name);
      assert StaleFor(writes[..n + 1][i], name);
    }
    assert StaleFor(writes[n], name) ==> StaleFor(writes[..n + 1][n], name);
  }

  /// Drops the stale images, page by page.
  method DropStale(cx: Ops, file: Uuid, writes: seq<Reported>) returns (dropped: seq<string>)
    modifies cx.blobs
    ensures forall name :: name in dropped <==> HasImage(old(cx.blobs.shelf), file, name) && Stale(writes, name)
    ensures cx.blobs.shelf == B.After(old(cx.blobs.shelf), B.Remove(E.ImageKeys(file, dropped)))
    ensures old(B.Canonical(cx.blobs.shelf)) ==> B.Canonical(cx.blobs.shelf)
  {
    dropped := [];
    ghost var before := cx.blobs.shelf;
    assert E.ImageKeys(file, []) == [];
    for n := 0 to |writes|
      invariant forall name :: name in dropped <==> HasImage(before, file, name) && Stale(writes[..n], name)
      invariant cx.blobs.shelf == B.RemovedAll(before, E.ImageKeys(file, dropped))
    {
      var names := StaleOfPage(cx, file, writes[n]);
      DropInTwo(before, file, dropped, names);
      cx.blobs.Drop(E.ImageKeys(file, names));
      dropped := dropped + names;
      forall name
        ensures Stale(writes[..n + 1], name) <==> Stale(writes[..n], name) || StaleFor(writes[n], name)
      {
        StaleOfMore(writes, n, name);
      }
    }
    assert writes[..|writes|] == writes;
    if B.Canonical(before) {
      B.RemovedStaysCanonical(before, E.ImageKeys(file, dropped));
    }
  }

  // ---- the file's own facts ----

  /// The indexing a report leaves: the three fields describe one indexing.
  function Indexed(before: Indexing, report: Report): Indexing {
    if report.summary.Some? && report.pageCount.Some? then Indexing(report.summary, report.pageCount, report.estimatedTokens)
    else before
  }

  /// The three fields replace the indexing together, or leave it.
  lemma IndexedSays(before: Indexing, report: Report)
    ensures Invalid(report).None? ==>
              var after := Indexed(before, report);
              if report.summary.None? then after == before
              else after.summary == report.summary && after.pageCount == report.pageCount
                   && after.estimatedTokens == report.estimatedTokens
  {
  }

  /// The file says which images went, and that its indexing changed when it did.
  lemma FileFactsSay(before: Indexing, report: Report, dropped: seq<string>)
    ensures var facts, moved := FileFacts(before, report, dropped), Indexed(before, report) != before;
            && |facts| == (if |dropped| > 0 then 1 else 0) + (if moved then 1 else 0)
            && (|dropped| > 0 ==> facts[0] == L.FileSays(L.ImagesDropped(dropped)))
            && (moved ==> facts[|facts| - 1] == L.FileSays(L.ReportStored(report.jobId, report.done)))
  {
  }

  /// An image is stale when it is a written page's and the page's new text holds it
  /// nowhere on its own.
  lemma StaleSays(w: Reported, name: string)
    ensures StaleFor(w, name) <==> N.PageOf(name) == Some(w.number) && !exists i :: R.Mentions(w.markdown, name, i)
  {
    if N.PageOf(name).Some? {
      R.ImageNamesQualify(name);
      R.ScanIsExact(w.markdown, name);
    }
  }

  function FileFacts(before: Indexing, report: Report, dropped: seq<string>): seq<L.Payload> {
    (if dropped != [] then [L.FileSays(L.ImagesDropped(dropped))] else [])
    + (if Indexed(before, report) != before then [L.FileSays(L.ReportStored(report.jobId, report.done))] else [])
  }

  /// What a report stores before it ends its job: its pages, less those kept from
  /// a person's hand; the images they no longer reference dropped when they were
  /// regenerated; its indexing.
  method Store(cx: Ops, file: FileRow, report: Report, trigger: Option<S.Trigger>, at: Instant)
    returns (written: seq<int>, dropped: seq<string>)
    requires E.Loaded(cx, file) && E.WellStored(cx) && NumbersAreSound(report.pages)
    modifies cx`pages, cx`plans, cx.tables, cx.blobs, file`indexing, file`version, file`pending, file`updatedAt
    ensures var writes := Writes(old(cx.pages), file.id, trigger, report.pages);
            && Wrote(old(cx.pages), cx.pages, file.id, writes, report.origin)
            && Distinct(written) && (forall n :: n in written <==> Numbered(writes, n))
            && (forall name :: name in dropped <==>
                  report.origin.Regenerated? && HasImage(old(cx.blobs.shelf), file.id, name) && Stale(writes, name))
    ensures cx.blobs.shelf == B.After(old(cx.blobs.shelf), B.Remove(E.ImageKeys(file.id, dropped)))
    ensures file.indexing == Indexed(old(file.indexing), report)
    ensures cx.tables.log == Stored(old(cx.tables.log), file.id, old(file.indexing), report, written, dropped)
    ensures cx.plans == old(cx.plans) && E.Loaded(cx, file) && E.WellStored(cx)
    ensures KeepsGapFree(old(cx.tables.log), cx.tables.log, file.id)
  {
    var writes := Writes(cx.pages, file.id, trigger, report.pages);
    WritesStaySound(cx.pages, file.id, trigger, report.pages);
    dropped := [];
    if report.origin.Regenerated? {
      dropped := DropStale(cx, file.id, writes);
    }
    written := WritePages(cx, file.id, writes, report.origin, report.jobId);
    RecordReport(cx, file, report, dropped, at);
    StoredKeeps(old(cx.tables.log), file.id, old(file.indexing), report, written, dropped);
  }

  /// The file and its processing are stored rows.
  ghost predicate Known(log: L.Log, file: Uuid) {
    L.OfFile(file) in log.versions && L.OfProcessing(file) in log.versions
  }

  /// No fact was handed out of its place.
  ghost predicate KeepsGapFree(before: L.Log, after: L.Log, file: Uuid) {
    Known(before, file) ==> Known(after, file) && (L.GapFree(before) ==> L.GapFree(after))
  }

  /// The facts a report hands before it ends its job.
  function Stored(log: L.Log, file: Uuid, before: Indexing, report: Report, written: seq<int>, dropped: seq<string>): L.Log {
    L.Written(L.Written(log, L.Bulks(L.Pages(file, written), L.PageReported(report.jobId))),
              L.Saves(L.OfFile(file), FileFacts(before, report, dropped)))
  }

  /// A page written says which job reported it, once.
  lemma StoredSays(log: L.Log, file: Uuid, before: Indexing, report: Report, written: seq<int>, dropped: seq<string>)
    ensures var pages := seq(|written|, i requires 0 <= i < |written| =>
              L.Fact(L.OfPage(file, written[i]), L.Stored(log, L.OfPage(file, written[i])) + 1, L.PageReported(report.jobId)));
            var facts := FileFacts(before, report, dropped);
            Stored(log, file, before, report, written, dropped).facts ==
              log.facts + pages + L.FactsOf(L.OfFile(file), L.Stored(log, L.OfFile(file)), facts)
  {
  }

  /// Records the images dropped and the indexing on the file, and saves it.
  method RecordReport(cx: Ops, file: FileRow, report: Report, dropped: seq<string>, at: Instant)
    requires E.Loaded(cx, file)
    modifies cx`plans, cx.tables, file`indexing, file`version, file`pending, file`updatedAt
    ensures file.indexing == Indexed(old(file.indexing), report)
    ensures cx.tables.log == L.Written(old(cx.tables.log), L.Saves(L.OfFile(file.id), FileFacts(old(file.indexing), report, dropped)))
    ensures cx.plans == old(cx.plans) && E.Loaded(cx, file)
    ensures old(E.WellStored(cx)) ==> E.WellStored(cx)
  {
    if dropped != [] {
      file.Record(L.ImagesDropped(dropped), at);
    }
    if report.summary.Some? && report.pageCount.Some? {
      var indexing := Indexing(report.summary, report.pageCount, report.estimatedTokens);
      if file.indexing != indexing {
        file.indexing := indexing;
        file.Record(L.ReportStored(report.jobId, report.done), at);
      }
    }
    SaveFile(cx, file);
  }

  lemma GateIsTheRow(committed: bool, stored: Option<S.Row>, job: Uuid)
    ensures F.Reloaded(committed, stored).RequireActiveJob(job) <==>
              stored.Some? && stored.value.IsRunning() && stored.value.jobId == job
  {
    if stored.Some? {
      F.GateOpensForTheRunningJob(stored.value, job);
    }
  }

  /// What a report wrote and dropped: the pages, the images its regenerated pages no
  /// longer reference; then, at a chain's end, the pages above the count and the
  /// images no page left mentions.
  datatype Tally = Tally(written: seq<int>, stale: seq<string>, trimmed: seq<int>, dropped: seq<string>)

  const NOTHING := Tally([], [], [], [])

  /// The pages above the count are named, each once.
  ghost predicate PagesGone(before: map<L.Key, Page>, file: Uuid, count: Option<int>, trimmed: seq<int>) {
    Distinct(trimmed) && forall n :: n in trimmed <==> L.OfPage(file, n) in before && Above(L.OfPage(file, n), file, count)
  }

  /// The pages written and those trimmed, as the report's facts name them.
  ghost predicate PagesTold(before: map<L.Key, Page>, file: Uuid, writes: seq<Reported>, count: Option<int>, t: Tally) {
    && Distinct(t.written) && (forall n :: n in t.written <==> Numbered(writes, n))
    && Distinct(t.trimmed)
    && (forall n :: n in t.trimmed <==>
          (L.OfPage(file, n) in before || Numbered(writes, n)) && Above(L.OfPage(file, n), file, count))
  }

  /// The images a report leaves: those it names are gone and released, and no other.
  ghost predicate ImagesLeft(before: B.Shelf, after: B.Shelf, file: Uuid, writes: seq<Reported>, origin: Origin,
                             ends: bool, pages: map<L.Key, Page>, t: Tally)
  {
    var between := B.After(before, B.Remove(E.ImageKeys(file, t.stale)));
    && (forall name :: name in t.stale <==> origin.Regenerated? && HasImage(before, file, name) && Stale(writes, name))
    && (forall name :: name in t.dropped <==> ends && HasImage(between, file, name) && !E.Mentioned(pages, file, name))
    && after == B.After(between, B.Remove(E.ImageKeys(file, t.dropped)))
  }

  /// What a report commits: its pages and the file's facts, then, when it is final,
  /// the end of its job.
  function Reporting(o: Outcome, file: C.File, before: Indexing, report: Report, minted: Uuid, at: Instant, t: Tally): Outcome {
    var stored := o.(log := Stored(o.log, file.id, before, report, t.written, t.stale));
    if report.done then Ending(stored, file, minted, at, t.trimmed, t.dropped) else stored
  }

  /// The pages and images gone, and the running job ended.
  function Ending(o: Outcome, file: C.File, minted: Uuid, at: Instant, trimmed: seq<int>, dropped: seq<string>): Outcome {
    Committed(o.(log := E.Dropped(E.Trimmed(o.log, file.id, trimmed), file.id, dropped)), file.id,
              C.ReportDone(file, P.Stored(o.rows, o.log, file.id, at), minted, at))
  }

  /// A report let through that is not final.
  method TakePart(cx: Ops, file: FileRow, report: Report, trigger: Option<S.Trigger>, minted: Uuid, at: Instant) returns (t: Tally)
    requires E.Loaded(cx, file) && E.WellStored(cx) && NumbersAreSound(report.pages) && !report.done
    modifies cx`pages, cx`plans, cx.tables, cx.blobs, file`indexing, file`version, file`pending, file`updatedAt
    ensures Now(cx) == Reporting(old(Now(cx)), file.File(), old(file.indexing), report, minted, at, t)
    ensures var writes := Writes(old(cx.pages), file.id, trigger, report.pages);
            && Left(old(cx.pages), cx.pages, file.id, writes, report.origin, None)
            && PagesTold(old(cx.pages), file.id, writes, None, t)
            && ImagesLeft(old(cx.blobs.shelf), cx.blobs.shelf, file.id, writes, report.origin, false, cx.pages, t)
    ensures E.WellStored(cx) && KeepsGapFree(old(cx.tables.log), cx.tables.log, file.id)
  {
    ghost var writes := Writes(cx.pages, file.id, trigger, report.pages);
    var written, stale := Store(cx, file, report, trigger, at);
    t := Tally(written, stale, [], []);
    NoPageGoes(cx.pages, file.id);
    NoImageGoes(cx.blobs.shelf, file.id);
    TakenTells(old(cx.pages), cx.pages, cx.pages, file.id, writes, report.origin, None, t);
    ImagesTell(old(cx.blobs.shelf), cx.blobs.shelf, cx.blobs.shelf, file.id, writes, report.origin, false, cx.pages, t);
  }

  /// A final report let through: stored, then its job ended.
  method TakeFinal(cx: Ops, file: FileRow, report: Report, trigger: Option<S.Trigger>, minted: Uuid, at: Instant) returns (t: Tally)
    requires E.Loaded(cx, file) && E.WellStored(cx) && P.Joined(cx, file.id) && NumbersAreSound(report.pages) && report.done
    modifies cx`rows, cx`plans, cx`pages, cx`commands, cx.tables, cx.blobs,
             file`indexing, file`version, file`pending, file`status, file`updatedAt
    ensures Now(cx) == Reporting(old(Now(cx)), file.File(), old(file.indexing), report, minted, at, t) && ReadsTrue(cx, file)
    ensures var writes := Writes(old(cx.pages), file.id, trigger, report.pages);
            var row := old(P.Stored(cx.rows, cx.tables.log, file.id, at)).row;
            && Left(old(cx.pages), cx.pages, file.id, writes, report.origin, Trimming(file, row))
            && PagesTold(old(cx.pages), file.id, writes, Trimming(file, row), t)
            && ImagesLeft(old(cx.blobs.shelf), cx.blobs.shelf, file.id, writes, report.origin, !C.HasNext(file.File(), row),
                          cx.pages, t)
    ensures E.WellStored(cx) && KeepsGapFree(old(cx.tables.log), cx.tables.log, file.id)
  {
    ghost var row := P.Stored(cx.rows, cx.tables.log, file.id, at).row;
    ghost var writes := Writes(cx.pages, file.id, trigger, report.pages);
    var written, stale := Store(cx, file, report, trigger, at);
    ghost var between, shelf, o := cx.pages, cx.blobs.shelf, Now(cx);
    assert P.Stored(cx.rows, cx.tables.log, file.id, at).row == row;
    var trimmed, dropped := EndReportedJob(cx, file, minted, at);
    t := Tally(written, stale, trimmed, dropped);
    assert Now(cx) == Ending(o, file.File(), minted, at, trimmed, dropped);
    TakenTells(old(cx.pages), between, cx.pages, file.id, writes, report.origin, Trimming(file, row), t);
    ImagesTell(old(cx.blobs.shelf), shelf, cx.blobs.shelf, file.id, writes, report.origin, !C.HasNext(file.File(), row),
               cx.pages, t);
  }

  lemma ImagesTell(before: B.Shelf, between: B.Shelf, after: B.Shelf, file: Uuid, writes: seq<Reported>, origin: Origin,
                   ends: bool, pages: map<L.Key, Page>, t: Tally)
    requires between == B.After(before, B.Remove(E.ImageKeys(file, t.stale)))
    requires forall name :: name in t.stale <==> origin.Regenerated? && HasImage(before, file, name) && Stale(writes, name)
    requires forall name :: name in t.dropped <==> ends && HasImage(between, file, name) && !E.Mentioned(pages, file, name)
    requires after == B.After(between, B.Remove(E.ImageKeys(file, t.dropped)))
    ensures ImagesLeft(before, after, file, writes, origin, ends, pages, t)
  {
  }

  /// The pages written, then trimmed, are those the tally names.
  lemma TakenTells(before: map<L.Key, Page>, between: map<L.Key, Page>, after: map<L.Key, Page>, file: Uuid,
                   writes: seq<Reported>, origin: Origin, count: Option<int>, t: Tally)
    requires Wrote(before, between, file, writes, origin)
    requires after == map key | key in between && !Above(key, file, count) :: between[key]
    requires Distinct(t.written) && (forall n :: n in t.written <==> Numbered(writes, n))
    requires PagesGone(between, file, count, t.trimmed)
    ensures Left(before, after, file, writes, origin, count) && PagesTold(before, file, writes, count, t)
  {
    WrittenThenTrimmed(before, between, after, file, writes, origin, count);
    forall n
      ensures L.OfPage(file, n) in between <==> L.OfPage(file, n) in before || Numbered(writes, n)
    {
      if Numbered(writes, n) {
        var i :| 0 <= i < |writes| && writes[i].number == n;
      }
      assert Names(writes, L.OfPage(file, n), file) <==> Numbered(writes, n);
    }
  }

  /// The gesture. It goes through exactly for a valid report about the running job.
  method RunnerReport(cx: Ops, file: FileRow, report: Report, minted: Uuid, at: Instant)
    returns (refused: Option<string>, t: Tally)
    requires E.Loaded(cx, file) && E.WellStored(cx) && P.Joined(cx, file.id)
    requires file.status == F.Reloaded(file.committedAt.Some?, if file.id in cx.rows then Some(cx.rows[file.id]) else None)
    modifies cx`rows, cx`plans, cx`pages, cx`commands, cx.tables, cx.blobs,
             file`indexing, file`version, file`pending, file`status, file`updatedAt
    ensures refused == (if Invalid(report).Some? then Invalid(report)
                        else if old(file.id in cx.rows && cx.rows[file.id].IsRunning() && cx.rows[file.id].jobId == report.jobId) then None
                        else Some(JOB_NOT_ACTIVE))
    ensures refused.Some? ==> Now(cx) == old(Now(cx)) && cx.pages == old(cx.pages) && cx.blobs.shelf == old(cx.blobs.shelf)
    ensures refused.None? ==> Now(cx) == Reporting(old(Now(cx)), file.File(), old(file.indexing), report, minted, at, t)
    ensures if refused.None? && report.done then ReadsTrue(cx, file) else file.status == old(file.status)
    ensures refused.None? ==>
              var writes := Writes(old(cx.pages), file.id, old(cx.rows)[file.id].trigger, report.pages);
              var ends := report.done && !C.HasNext(file.File(), old(cx.rows)[file.id]);
              var count := if ends then file.indexing.pageCount else None;
              && Left(old(cx.pages), cx.pages, file.id, writes, report.origin, count)
              && PagesTold(old(cx.pages), file.id, writes, count, t)
              && ImagesLeft(old(cx.blobs.shelf), cx.blobs.shelf, file.id, writes, report.origin, ends, cx.pages, t)
    ensures E.WellStored(cx) && KeepsGapFree(old(cx.tables.log), cx.tables.log, file.id)
  {
    t := NOTHING;
    refused := Invalid(report);
    if refused.Some? {
      return;
    }
    GateIsTheRow(file.committedAt.Some?, if file.id in cx.rows then Some(cx.rows[file.id]) else None, report.jobId);
    if !file.status.RequireActiveJob(report.jobId) {
      return Some(JOB_NOT_ACTIVE), t;
    }
    if report.done {
      t := TakeFinal(cx, file, report, file.status.ActiveJob().value.trigger, minted, at);
    } else {
      t := TakePart(cx, file, report, file.status.ActiveJob().value.trigger, minted, at);
    }
  }

  lemma PagesAreDistinct(file: Uuid, numbers: seq<int>)
    requires Distinct(numbers)
    ensures Distinct(L.Pages(file, numbers))
  {
  }

  lemma StoredKeeps(log: L.Log, file: Uuid, before: Indexing, report: Report, written: seq<int>, dropped: seq<string>)
    requires Distinct(written)
    ensures KeepsGapFree(log, Stored(log, file, before, report, written, dropped), file)
  {
    PagesAreDistinct(file, written);
    var events := FileFacts(before, report, dropped);
    assert forall i :: 0 <= i < |events| ==> !events[i].Last();
    TwoWritesKeep(log, file, L.Pages(file, written), L.PageReported(report.jobId), events);
  }

  /// A statement on pages of the file, then a save of it.
  lemma TwoWritesKeep(log: L.Log, file: Uuid, keys: seq<L.Key>, payload: L.Payload, events: seq<L.Payload>)
    requires Distinct(keys) && (forall i :: 0 <= i < |keys| ==> keys[i].OfPage? && keys[i].file == file) && !payload.Last()
    requires forall i :: 0 <= i < |events| ==> !events[i].Last()
    ensures KeepsGapFree(log, L.Written(L.Written(log, L.Bulks(keys, payload)), L.Saves(L.OfFile(file), events)), file)
  {
    if L.GapFree(log) && Known(log, file) {
      L.BulksKeep(log, keys, payload);
      L.SavesKeep(L.Written(log, L.Bulks(keys, payload)), L.OfFile(file), events);
    }
  }

  /// The count a final report trims the pages to: at the last step only.
  function Trimming(file: FileRow, row: S.Row): Option<int>
    reads file`steps, file`indexing
  {
    if C.HasNext(file.File(), row) then None else file.indexing.pageCount
  }

  /// What the end of a chain leaves, page by page and image by image.
  lemma CleanedUpSays(file: Uuid, count: Option<int>, pages: map<L.Key, Page>, shelf: B.Shelf, trimmed: seq<int>,
                      dropped: seq<string>, pagesAfter: map<L.Key, Page>, shelfAfter: B.Shelf)
    requires E.CleanedUp(file, count, pages, shelf, trimmed, dropped, pagesAfter, shelfAfter)
    ensures pagesAfter == map key | key in pages && !Above(key, file, count) :: pages[key]
    ensures PagesGone(pages, file, count, trimmed)
    ensures forall name :: name in dropped <==> HasImage(shelf, file, name) && !E.Mentioned(pagesAfter, file, name)
    ensures shelfAfter == B.After(shelf, B.Remove(E.ImageKeys(file, dropped)))
  {
  }

  lemma NoPageGoes(pages: map<L.Key, Page>, file: Uuid)
    ensures pages == map key | key in pages && !Above(key, file, None) :: pages[key]
    ensures PagesGone(pages, file, None, [])
  {
  }

  lemma NoImageGoes(shelf: B.Shelf, file: Uuid)
    ensures shelf == B.After(shelf, B.Remove(E.ImageKeys(file, [])))
  {
    assert E.ImageKeys(file, []) == [];
  }

  /// The final report ends the job, in the same transaction.
  method EndReportedJob(cx: Ops, file: FileRow, minted: Uuid, at: Instant) returns (trimmed: seq<int>, dropped: seq<string>)
    requires E.Loaded(cx, file) && E.WellStored(cx) && P.Joined(cx, file.id)
    modifies cx`rows, cx`plans, cx`pages, cx`commands, cx.tables, cx.blobs, file`version, file`pending, file`status, file`updatedAt
    ensures Now(cx) == Ending(old(Now(cx)), file.File(), minted, at, trimmed, dropped)
    ensures ReadsTrue(cx, file) && E.WellStored(cx)
    ensures var row := old(P.Stored(cx.rows, cx.tables.log, file.id, at)).row;
            && cx.pages == (map key | key in old(cx.pages) && !Above(key, file.id, Trimming(file, row)) :: old(cx.pages)[key])
            && PagesGone(old(cx.pages), file.id, Trimming(file, row), trimmed)
            && (forall name :: name in dropped <==>
                  !C.HasNext(file.File(), row) && HasImage(old(cx.blobs.shelf), file.id, name) && !E.Mentioned(cx.pages, file.id, name))
    ensures cx.blobs.shelf == B.After(old(cx.blobs.shelf), B.Remove(E.ImageKeys(file.id, dropped)))
    ensures KeepsGapFree(old(cx.tables.log), cx.tables.log, file.id)
  {
    var processing := P.LoadProcessing(cx, file, at);
    ghost var p := processing.Value();
    trimmed, dropped := P.ReportDone(cx, file, processing, minted, at);
    if C.HasNext(file.File(), p.row) {
      NoPageGoes(cx.pages, file.id);
      NoImageGoes(cx.blobs.shelf, file.id);
    } else {
      CleanedUpSays(file.id, file.indexing.pageCount, old(cx.pages), old(cx.blobs.shelf), trimmed, dropped,
                    cx.pages, cx.blobs.shelf);
    }
    EndedKeeps(old(cx.tables.log), file.id, trimmed, dropped, Said(C.ReportDone(file.File(), p, minted, at).processing.pending));
  }

  lemma EndedKeeps(log: L.Log, file: Uuid, trimmed: seq<int>, dropped: seq<string>, events: seq<L.Payload>)
    requires Distinct(trimmed) && forall n :: n in trimmed ==> L.OfPage(file, n) in log.versions
    requires forall i :: 0 <= i < |events| ==> !events[i].Last()
    ensures KeepsGapFree(log, L.Written(E.Dropped(E.Trimmed(log, file, trimmed), file, dropped),
                                        L.Saves(L.OfProcessing(file), events)), file)
  {
    PagesAreDistinct(file, trimmed);
    var short := E.Trimmed(log, file, trimmed);
    if L.GapFree(log) && Known(log, file) {
      L.BulksKeep(log, L.Pages(file, trimmed), L.PageTrimmed);
      if dropped != [] {
        L.SavesKeep(short, L.OfFile(file), [L.FileSays(L.ImagesDropped(dropped))]);
      }
      L.SavesKeep(E.Dropped(short, file, dropped), L.OfProcessing(file), events);
    }
  }
}
