/// A gesture's transaction: the library's tables, the outbox, and the loaded file.
module Transaction {
  import opened Common
  import opened Contract
  import S = ProcessingState
  import opened FileProcessings
  import C = Chain
  import F = FileStatus
  import L = FactLog
  import B = BlobSlots

  /// Whose hand a page is from.
  datatype Origin = Runner | Regenerated | Edited

  datatype Page = Page(markdown: string, origin: Origin)

  /// What the last indexing said of a file.
  datatype Indexing = Indexing(summary: Option<string>, pageCount: Option<int>, estimatedTokens: Option<int>)

  class Ops {
    const tables: L.Tables
    const blobs: B.Store
    /// `drive.file_processing`
    var rows: map<Uuid, S.Row>
    /// `drive.file.steps`
    var plans: map<Uuid, seq<Step>>
    /// `drive.file_page`
    var pages: map<L.Key, Page>
    /// The engine's state of each file's source, for those it has a blob of.
    var sources: map<Uuid, string>
    /// What the transaction stages through the outbox, in order.
    var commands: seq<Command>

    constructor (tables: L.Tables, blobs: B.Store)
      ensures this.tables == tables && this.blobs == blobs
    {
      this.tables, this.blobs := tables, blobs;
      rows, plans, pages, sources, commands := map[], map[], map[], map[], [];
    }

    method Stage(command: Command)
      modifies this`commands
      ensures commands == old(commands) + [command]
    {
      commands := commands + [command];
    }
  }

  /// The loaded file.
  class FileRow {
    const id: Uuid
    const service: string
    var steps: Option<seq<Step>>
    var indexing: Indexing
    var committedAt: Option<Instant>
    var status: F.Status
    var updatedAt: Instant
    var version: nat
    var pending: seq<L.Payload>

    constructor (id: Uuid, service: string, steps: Option<seq<Step>>, committedAt: Option<Instant>, status: F.Status,
                 updatedAt: Instant, version: nat, indexing: Indexing := Indexing(None, None, None))
      ensures this.id == id && this.service == service && this.steps == steps && this.committedAt == committedAt
      ensures this.status == status && this.updatedAt == updatedAt && this.version == version && pending == [] && this.indexing == indexing
    {
      this.id, this.service, this.steps, this.committedAt := id, service, steps, committedAt;
      this.status, this.updatedAt, this.version, this.pending := status, updatedAt, version, [];
      this.indexing := indexing;
    }

    function File(): C.File
      reads this`steps
    {
      C.File(service, id, steps.GetOr([]))
    }

    method Record(event: L.FileEvent, at: Instant)
      modifies this`version, this`pending, this`updatedAt
      ensures version == old(version) + 1 && pending == old(pending) + [L.FileSays(event)]
      ensures updatedAt == Max(old(updatedAt), at)
    {
      version := version + 1;
      pending := pending + [L.FileSays(event)];
      updatedAt := Max(updatedAt, at);
    }
  }

  function Said(events: seq<S.Stamped>): seq<L.Payload> {
    seq(|events|, i requires 0 <= i < |events| => L.ProcessingSays(events[i]))
  }

  /// The aggregate in hand is the stored one, and the events it pushed since.
  ghost predicate InStep(cx: Ops, file: FileRow, processing: FileProcessing)
    reads cx.tables, processing
  {
    && processing.fileId == file.id
    && processing.version == L.Stored(cx.tables.log, L.OfProcessing(file.id)) + |processing.pending|
  }

  // ---- what a committed gesture leaves ----

  /// The processing rows, the facts handed, the commands staged, and the engine's
  /// states of the files' sources.
  datatype Outcome = Outcome(rows: map<Uuid, S.Row>, log: L.Log, commands: seq<Command>, sources: map<Uuid, string>)

  function Now(cx: Ops): Outcome
    reads cx, cx.tables
  {
    Outcome(cx.rows, cx.tables.log, cx.commands, cx.sources)
  }

  /// What `moved` leaves once its processing is saved.
  function Committed(o: Outcome, file: Uuid, moved: C.Move): Outcome {
    o.(rows := o.rows[file := moved.processing.row],
       log := L.Written(o.log, L.Saves(L.OfProcessing(file), Said(moved.processing.pending))),
       commands := o.commands + moved.commands)
  }

  /// The file reads as a reload of its row would.
  ghost predicate ReadsTrue(cx: Ops, file: FileRow)
    reads cx, file
  {
    file.id in cx.rows && file.status == F.Reloaded(true, Some(cx.rows[file.id]))
  }

  // ---- saving ----

  method SaveProcessing(cx: Ops, file: FileRow, processing: FileProcessing)
    requires InStep(cx, file, processing)
    modifies cx`rows, cx.tables, file`status, file`updatedAt, processing`pending
    ensures Now(cx) == Committed(old(Now(cx)), file.id, C.Move(old(processing.Value()), []))
    ensures InStep(cx, file, processing) && processing.pending == [] && ReadsTrue(cx, file)
    ensures file.updatedAt == Max(old(file.updatedAt), processing.row.updatedAt)
  {
    cx.rows := cx.rows[file.id := processing.row];
    cx.tables.Save(L.OfProcessing(file.id), processing.version, Said(processing.pending));
    processing.ClearPending();
    file.status := F.StatusOf(processing.row);
    file.updatedAt := Max(file.updatedAt, processing.row.updatedAt);
  }

  method SaveFile(cx: Ops, file: FileRow)
    requires file.version == L.Stored(cx.tables.log, L.OfFile(file.id)) + |file.pending|
    modifies cx`plans, cx.tables, file`pending
    ensures cx.plans == old(cx.plans)[file.id := file.steps.GetOr([])]
    ensures cx.tables.log == L.Written(old(cx.tables.log), L.Saves(L.OfFile(file.id), old(file.pending)))
    ensures file.pending == [] && file.version == L.Stored(cx.tables.log, L.OfFile(file.id))
  {
    cx.plans := cx.plans[file.id := file.steps.GetOr([])];
    cx.tables.Save(L.OfFile(file.id), file.version, file.pending);
    file.pending := [];
  }
}
