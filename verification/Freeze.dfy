/// A drive's freeze: every file in flight settles, in one loop.
module Freeze {
  import opened Common
  import opened Contract
  import opened Transaction
  import opened FileProcessings
  import S = ProcessingState
  import C = Chain
  import F = FileStatus
  import L = FactLog
  import B = BlobSlots
  import P = Pipeline

  datatype Info = Info(drive: Uuid, service: string, committed: bool)

  /// The drive's tables, and what the freeze ended so far.
  datatype Room = Room(files: map<Uuid, Info>, plans: map<Uuid, seq<Step>>, outcome: Outcome, shelf: B.Shelf,
                       abandoned: nat, cancelled: nat)

  /// An upload not confirmed, or a file that processes.
  predicate InFlight(r: Room, id: Uuid) {
    id in r.files && (!r.files[id].committed || Processes(r, id))
  }

  predicate Processes(r: Room, id: Uuid) {
    id in r.files && r.files[id].committed && id in r.outcome.rows && r.outcome.rows[id].state == S.Processing
  }

  predicate Runs(r: Room, id: Uuid) {
    Processes(r, id) && r.outcome.rows[id].IsRunning()
  }

  function FileOf(r: Room, id: Uuid): C.File
    requires id in r.files
  {
    C.File(r.files[id].service, id, if id in r.plans then r.plans[id] else [])
  }

  /// What the freeze makes of one file it read as in flight.
  function FreezeOne(r: Room, id: Uuid, at: Instant): Room {
    if id !in r.files then r
    else if !r.files[id].committed then
      r.(files := r.files - {id},
         outcome := r.outcome.(rows := r.outcome.rows - {id},
                               log := L.Written(r.outcome.log, L.Goes([id], L.FileSays(L.UploadAbandoned)))),
         shelf := B.After(r.shelf, B.Remove([B.OfSource(id)])),
         abandoned := r.abandoned + 1)
    else if !Processes(r, id) then r
    else
      r.(outcome := Committed(r.outcome, id, C.Freeze(FileOf(r, id), P.Stored(r.outcome.rows, r.outcome.log, id, at), at)),
         cancelled := r.cancelled + 1)
  }

  function FreezeAll(r: Room, ids: seq<Uuid>, at: Instant): Room {
    if ids == [] then r else FreezeOne(FreezeAll(r, ids[..|ids| - 1], at), ids[|ids| - 1], at)
  }

  /// The cancels of the running jobs of `ids`, in the order of the loop.
  function Cancels(r: Room, ids: seq<Uuid>): seq<Command> {
    if ids == [] then []
    else
      var last := ids[|ids| - 1];
      Cancels(r, ids[..|ids| - 1]) + if Runs(r, last) then [JobCancel(r.outcome.rows[last].jobId)] else []
  }

  function HowMany(r: Room, ids: seq<Uuid>, processing: bool): nat {
    if ids == [] then 0
    else
      var last := ids[|ids| - 1];
      HowMany(r, ids[..|ids| - 1], processing)
      + if (if processing then Processes(r, last) else last in r.files && !r.files[last].committed) then 1 else 0
  }

  /// A file reads the same in both rooms.
  predicate Same(r: Room, t: Room, id: Uuid) {
    && (id in r.files <==> id in t.files) && (id in r.files ==> r.files[id] == t.files[id])
    && (id in r.outcome.rows <==> id in t.outcome.rows) && (id in r.outcome.rows ==> r.outcome.rows[id] == t.outcome.rows[id])
    && (B.OfSource(id) in r.shelf.slots <==> B.OfSource(id) in t.shelf.slots)
    && (B.OfSource(id) in r.shelf.slots ==> r.shelf.slots[B.OfSource(id)] == t.shelf.slots[B.OfSource(id)])
    && r.plans == t.plans
  }

  /// A file that processed is FAILED `cancelled`; an upload in flight is gone,
  /// its object released.
  predicate Settled(r: Room, t: Room, id: Uuid) {
    if Processes(r, id) then
      && id in t.files && t.files[id] == r.files[id] && id in t.outcome.rows
      && t.outcome.rows[id].state == S.Failed && t.outcome.rows[id].errorCode == Some(S.CANCELLED)
      && t.outcome.rows[id].jobId == r.outcome.rows[id].jobId
    else
      && id !in t.files && B.OfSource(id) !in t.shelf.slots
      && (B.OfSource(id) in r.shelf.slots ==> r.shelf.slots[B.OfSource(id)].current.reference in t.shelf.released)
  }

  predicate StayReleased(before: B.Shelf, after: B.Shelf) {
    forall reference :: reference in before.released ==> reference in after.released
  }

  lemma OneSettles(r: Room, id: Uuid, at: Instant)
    ensures var t := FreezeOne(r, id, at);
            && (forall other :: other != id ==> Same(r, t, other))
            && (if InFlight(r, id) then Settled(r, t, id) && !InFlight(t, id) else t == r)
            && t.outcome.commands == r.outcome.commands + (if Runs(r, id) then [JobCancel(r.outcome.rows[id].jobId)] else [])
            && t.plans == r.plans && StayReleased(r.shelf, t.shelf)
  {
    if id in r.files && !r.files[id].committed {
      SourceGoes(r.shelf, id);
    }
  }

  lemma SourceGoes(shelf: B.Shelf, id: Uuid)
    ensures var source, after := B.OfSource(id), B.After(shelf, B.Remove([B.OfSource(id)]));
            && after.slots == shelf.slots - {source} && StayReleased(shelf, after)
            && (source in shelf.slots ==> shelf.slots[source].current.reference in after.released)
  {
    var source := B.OfSource(id);
    assert [source][..0] == [];
    assert B.RemovedAll(shelf, [source]) == B.Removed(shelf, source);
  }

  /// One pass over the ids leaves every file of them out of flight, and the others
  /// as they were.
  lemma {:induction false} FreezeSettles(r: Room, ids: seq<Uuid>, at: Instant)
    requires Distinct(ids)
    ensures var t := FreezeAll(r, ids, at);
            && (forall id :: id in ids && InFlight(r, id) ==> Settled(r, t, id) && !InFlight(t, id))
            && (forall id :: id !in ids || !InFlight(r, id) ==> Same(r, t, id))
            && StayReleased(r.shelf, t.shelf)
  {
    if ids != [] {
      var first, last := ids[..|ids| - 1], ids[|ids| - 1];
      assert ids == first + [last] && last !in first;
      FreezeSettles(r, first, at);
      var s := FreezeAll(r, first, at);
      OneSettles(s, last, at);
      var t := FreezeOne(s, last, at);
      forall id | id != last
        ensures (id in ids && InFlight(r, id) ==> Settled(r, t, id) && !InFlight(t, id))
                && (id !in ids || !InFlight(r, id) ==> Same(r, t, id))
      {
        assert Same(s, t, id) && (id in ids <==> id in first);
      }
      assert Same(r, s, last);
    }
  }

  /// It stages a cancel exactly for each running job, and counts the processings it
  /// ended and the uploads it abandoned.
  lemma {:induction false} FreezeCounts(r: Room, ids: seq<Uuid>, at: Instant)
    requires Distinct(ids)
    ensures var t := FreezeAll(r, ids, at);
            && t.outcome.commands == r.outcome.commands + Cancels(r, ids)
            && t.cancelled == r.cancelled + HowMany(r, ids, true)
            && t.abandoned == r.abandoned + HowMany(r, ids, false)
  {
    if ids != [] {
      var first, last := ids[..|ids| - 1], ids[|ids| - 1];
      assert ids == first + [last] && last !in first;
      FreezeCounts(r, first, at);
      FreezeSettles(r, first, at);
      assert Same(r, FreezeAll(r, first, at), last);
      OneSettles(FreezeAll(r, first, at), last, at);
    }
  }

  /// The list read before the lock holds every file of the drive still in flight;
  /// some of it may have settled, or gone, since.
  ghost predicate Covers(r: Room, drive: Uuid, ids: seq<Uuid>) {
    Distinct(ids) && forall id :: InFlight(r, id) && r.files[id].drive == drive ==> id in ids
  }

  lemma {:induction false} NothingToFreeze(r: Room, ids: seq<Uuid>, at: Instant)
    requires forall id :: id in ids ==> !InFlight(r, id)
    ensures FreezeAll(r, ids, at) == r
  {
    if ids != [] {
      var first, last := ids[..|ids| - 1], ids[|ids| - 1];
      assert forall id :: id in first ==> id in ids;
      NothingToFreeze(r, first, at);
      OneSettles(r, last, at);
    }
  }

  /// After a freeze nothing of the drive is in flight, what was settled is as it
  /// was, and freezing its files again ends nothing.
  lemma FrozenDriveIsAtRest(r: Room, drive: Uuid, ids: seq<Uuid>, again: seq<Uuid>, at: Instant)
    requires Covers(r, drive, ids)
    requires forall id :: id in again && id in r.files ==> r.files[id].drive == drive
    ensures var t := FreezeAll(r, ids, at);
            && (forall id :: id in t.files && t.files[id].drive == drive ==> !InFlight(t, id))
            && (forall id :: !InFlight(r, id) ==> Same(r, t, id))
            && FreezeAll(t, again, at) == t
  {
    FreezeSettles(r, ids, at);
    var t := FreezeAll(r, ids, at);
    forall id | id in t.files && id in r.files && r.files[id].drive == drive
      ensures !InFlight(t, id)
    {
      assert id in ids || Same(r, t, id);
    }
    forall id | id in t.files
      ensures id in r.files && t.files[id] == r.files[id]
    {
      assert (id in ids && InFlight(r, id)) || Same(r, t, id);
    }
    NothingToFreeze(t, again, at);
  }

  // ---- the facts handed ----

  /// An upload abandoned says so, as the file's last fact, and hands nothing else; its
  /// rows go.
  lemma AbandonSays(r: Room, id: Uuid, at: Instant)
    requires id in r.files && !r.files[id].committed
    ensures var t, log := FreezeOne(r, id, at), r.outcome.log;
            && t.files == r.files - {id} && t.outcome.rows == r.outcome.rows - {id}
            && t.outcome.log.facts == log.facts + [L.Fact(L.OfFile(id), L.Stored(log, L.OfFile(id)) + 1, L.FileSays(L.UploadAbandoned))]
            && t.abandoned == r.abandoned + 1 && t.cancelled == r.cancelled
  {
  }

  /// The facts handed are without a gap, the files and their processings stored rows.
  ghost predicate Numbered(files: map<Uuid, Info>, o: Outcome) {
    && L.GapFree(o.log)
    && forall id :: id in files ==>
         L.OfFile(id) in o.log.versions && (id in o.rows <==> L.OfProcessing(id) in o.log.versions)
  }

  lemma OnlyTheRowsOfOneGo(log: L.Log, id: Uuid, key: L.Key)
    ensures key in L.Written(log, L.Goes([id], L.FileSays(L.UploadAbandoned))).versions <==> key in log.versions && key.Owner() != id
  {
  }

  lemma AbandonedStaysNumbered(files: map<Uuid, Info>, o: Outcome, id: Uuid)
    requires Numbered(files, o) && id in files
    ensures var log := L.Written(o.log, L.Goes([id], L.FileSays(L.UploadAbandoned)));
            Numbered(files - {id}, o.(rows := o.rows - {id}, log := log))
  {
    L.GoesKeep(o.log, [id], L.FileSays(L.UploadAbandoned));
    var after := L.Written(o.log, L.Goes([id], L.FileSays(L.UploadAbandoned)));
    forall other | other in files - {id}
      ensures L.OfFile(other) in after.versions && (other in o.rows - {id} <==> L.OfProcessing(other) in after.versions)
    {
      OnlyTheRowsOfOneGo(o.log, id, L.OfFile(other));
      OnlyTheRowsOfOneGo(o.log, id, L.OfProcessing(other));
    }
  }

  lemma EndedStaysNumbered(files: map<Uuid, Info>, o: Outcome, id: Uuid, m: C.Move)
    requires Numbered(files, o) && id in files && id in o.rows
    ensures Numbered(files, Committed(o, id, m))
  {
    L.SavesKeep(o.log, L.OfProcessing(id), Said(m.processing.pending));
  }

  lemma OneStaysNumbered(r: Room, id: Uuid, at: Instant)
    requires Numbered(r.files, r.outcome)
    ensures var t := FreezeOne(r, id, at); Numbered(t.files, t.outcome)
  {
    if id in r.files && !r.files[id].committed {
      AbandonedStaysNumbered(r.files, r.outcome, id);
    } else if Processes(r, id) {
      EndedStaysNumbered(r.files, r.outcome, id, C.Freeze(FileOf(r, id), P.Stored(r.outcome.rows, r.outcome.log, id, at), at));
    }
  }

  /// A whole freeze keeps every row's numbering; the uploads it abandons end theirs.
  lemma {:induction false} FreezeStaysNumbered(r: Room, ids: seq<Uuid>, at: Instant)
    requires Numbered(r.files, r.outcome)
    ensures var t := FreezeAll(r, ids, at); Numbered(t.files, t.outcome)
  {
    if ids != [] {
      var first, last := ids[..|ids| - 1], ids[|ids| - 1];
      FreezeStaysNumbered(r, first, at);
      OneStaysNumbered(FreezeAll(r, first, at), last, at);
    }
  }

  // ---- the loop ----

  /// The gesture's view of the drive's files.
  class Files {
    var table: map<Uuid, Info>

    constructor (table: map<Uuid, Info>)
      ensures this.table == table
    {
      this.table := table;
    }
  }

  function RoomOf(files: Files, cx: Ops): Room
    reads files, cx, cx.tables, cx.blobs
  {
    Room(files.table, cx.plans, Now(cx), cx.blobs.shelf, 0, 0)
  }

  ghost predicate AllJoined(files: Files, cx: Ops)
    reads files, cx, cx.tables
  {
    forall id :: id in files.table ==> P.Joined(cx, id) && L.OfFile(id) in cx.tables.log.versions
  }

  /// Abandons an upload as its deadline would: its row goes, and its object with it.
  method AbandonUpload(files: Files, cx: Ops, id: Uuid)
    requires id in files.table && AllJoined(files, cx)
    modifies files, cx`rows, cx.tables, cx.blobs
    ensures files.table == old(files.table) - {id} && cx.rows == old(cx.rows) - {id}
    ensures cx.tables.log == L.Written(old(cx.tables.log), L.Goes([id], L.FileSays(L.UploadAbandoned)))
    ensures cx.blobs.shelf == B.After(old(cx.blobs.shelf), B.Remove([B.OfSource(id)]))
    ensures AllJoined(files, cx)
  {
    cx.tables.HandGone(id, L.Stored(cx.tables.log, L.OfFile(id)), L.UploadAbandoned);
    files.table := files.table - {id};
    cx.rows := cx.rows - {id};
    cx.blobs.Drop([B.OfSource(id)]);
  }

  /// Ends the processing of a file that processes.
  method EndProcessing(cx: Ops, file: FileRow, at: Instant)
    requires P.Joined(cx, file.id) && ReadsTrue(cx, file) && cx.rows[file.id].state == S.Processing
    modifies cx`rows, cx`commands, cx.tables, file`status, file`updatedAt
    ensures Now(cx) == Committed(old(Now(cx)), file.id,
                                 C.Freeze(file.File(), old(P.Stored(cx.rows, cx.tables.log, file.id, at)), at))
    ensures ReadsTrue(cx, file)
  {
    var job := file.status.ProcessingJob().value.jobId;
    var processing := P.LoadProcessing(cx, file, at);
    ghost var m := C.Freeze(file.File(), processing.Value(), at);
    if processing.row.awaitingSource {
      assert m == C.Move(C.DropAwaitedStep(file.File(), processing.Value(), S.CANCELLED, at), []);
      P.DropAwaitedStep(cx, file, processing, S.CANCELLED, at);
    } else if processing.row.nextJobId.Some? {
      assert m == C.Move(C.SkipNextStep(file.File(), processing.Value(), processing.row.stepIndex + 1, at), []);
      P.SkipNextStep(cx, file, processing, processing.row.stepIndex + 1, at);
    } else {
      assert m == C.Move(S.CancelOnFreeze(processing.Value(), at), [JobCancel(job)]);
      processing.CancelOnFreeze(at);
      cx.Stage(JobCancel(job));
      SaveProcessing(cx, file, processing);
    }
  }

  /// Settles one file of the list; what settled since the list was read is left alone.
  method FreezeFile(files: Files, cx: Ops, id: Uuid, at: Instant) returns (abandoned: nat, cancelled: nat)
    requires id in files.table && AllJoined(files, cx)
    modifies files, cx`rows, cx`commands, cx.tables, cx.blobs
    ensures RoomOf(files, cx).(abandoned := abandoned, cancelled := cancelled) == FreezeOne(old(RoomOf(files, cx)), id, at)
    ensures AllJoined(files, cx)
  {
    abandoned, cancelled := 0, 0;
    ghost var r := RoomOf(files, cx);
    var info := files.table[id];
    if !info.committed {
      AbandonUpload(files, cx, id);
      return 1, 0;
    }
    var status := F.Reloaded(true, if id in cx.rows then Some(cx.rows[id]) else None);
    if status.ProcessingJob().None? {
      assert FreezeOne(r, id, at) == r;
      return;
    }
    var file := new FileRow(id, info.service, Some(if id in cx.plans then cx.plans[id] else []), Some(at), status, at,
                            L.Stored(cx.tables.log, L.OfFile(id)));
    assert file.File() == FileOf(r, id) && Processes(r, id);
    EndProcessing(cx, file, at);
    return 0, 1;
  }

  lemma CountsAdd(r: Room, id: Uuid, at: Instant, abandoned: nat, cancelled: nat)
    ensures var t := FreezeOne(r, id, at);
            FreezeOne(r.(abandoned := r.abandoned + abandoned, cancelled := r.cancelled + cancelled), id, at)
            == t.(abandoned := t.abandoned + abandoned, cancelled := t.cancelled + cancelled)
  {
  }

  /// Freezes the files `ids`, read as in flight and locked since; those gone
  /// meanwhile are passed over.
  method FreezeDrive(files: Files, cx: Ops, ids: seq<Uuid>, at: Instant) returns (abandoned: nat, cancelled: nat)
    requires AllJoined(files, cx)
    modifies files, cx`rows, cx`commands, cx.tables, cx.blobs
    ensures RoomOf(files, cx).(abandoned := abandoned, cancelled := cancelled) == FreezeAll(old(RoomOf(files, cx)), ids, at)
  {
    abandoned, cancelled := 0, 0;
    for i := 0 to |ids|
      invariant AllJoined(files, cx)
      invariant RoomOf(files, cx).(abandoned := abandoned, cancelled := cancelled) == FreezeAll(old(RoomOf(files, cx)), ids[..i], at)
    {
      assert ids[..i + 1][..i] == ids[..i];
      CountsAdd(RoomOf(files, cx), ids[i], at, abandoned, cancelled);
      if ids[i] in files.table {
        var a, c := FreezeFile(files, cx, ids[i], at);
        abandoned, cancelled := abandoned + a, cancelled + c;
      }
    }
    assert ids[..|ids|] == ids;
  }
}
