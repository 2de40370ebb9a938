/// The facts handed to the host: one per event, numbered by the version of the
/// aggregate it is about, whatever statement wrote the row.
module FactLog {
  import opened Common
  import S = ProcessingState

  datatype Key = OfFile(id: Uuid) | OfPage(file: Uuid, number: int) | OfProcessing(file: Uuid) {
    /// The file the row goes with.
    function Owner(): Uuid {
      match this
      case OfFile(id) => id
      case OfPage(file, _) => file
      case OfProcessing(file) => file
    }
  }

  datatype FileEvent =
    | ImagesDropped(names: seq<string>)
    | ReportStored(jobId: Uuid, done: bool)
    | FolderMoved(fromPath: string, toPath: string)
    | UploadAbandoned
    | Deleted
    | FolderDeleted(prefix: string)
    | DriveDeleted
    | AnyOther(n: nat)

  datatype Payload =
    | FileSays(event: FileEvent)
    | PageReported(jobId: Uuid)
    | PageTrimmed
    | ProcessingSays(stamped: S.Stamped)
  {
    /// The last fact of a row: it goes with it.
    predicate Last() {
      PageTrimmed? || (FileSays? && (event.UploadAbandoned? || event.Deleted? || event.FolderDeleted? || event.DriveDeleted?))
    }
  }

  datatype Fact = Fact(key: Key, number: nat, payload: Payload) {
    /// The row of `other` goes with this fact: it is its own last, or its file's.
    predicate Takes(other: Key) {
      payload.Last() && (key == other || key == OfFile(other.Owner()))
    }
  }

  /// The stored versions, and every fact handed.
  datatype Log = Log(versions: map<Key, nat>, facts: seq<Fact>)

  function Stored(log: Log, key: Key): nat {
    if key in log.versions then log.versions[key] else 0
  }

  /// The facts of `events`, pending on `key` whose version before them was `base`.
  function FactsOf(key: Key, base: nat, events: seq<Payload>): seq<Fact> {
    seq(|events|, i requires 0 <= i < |events| => Fact(key, base + i + 1, events[i]))
  }

  /// An aggregate saved at `version` with `events` pending.
  function Saved(log: Log, key: Key, version: nat, events: seq<Payload>): Log
    requires |events| <= version
  {
    Log(log.versions[key := version], log.facts + FactsOf(key, version - |events|, events))
  }

  /// The facts of one statement, one per row.
  function Handed(log: Log, keys: seq<Key>, payload: Payload): seq<Fact> {
    seq(|keys|, i requires 0 <= i < |keys| => Fact(keys[i], Stored(log, keys[i]) + 1, payload))
  }

  /// One statement over the rows `keys`: each bumped (a page it inserts starts at
  /// 1) or, on a last fact, deleted; one fact per row.
  function Bulk(log: Log, keys: seq<Key>, payload: Payload): Log {
    var rows := set key | key in keys;
    Log(if payload.Last() then log.versions - rows
        else log.versions + (map key | key in rows :: Stored(log, key) + 1),
        log.facts + Handed(log, keys, payload))
  }

  /// Files deleted: what hangs on them goes without a fact of its own.
  function Gone(log: Log, ids: seq<Uuid>, payload: Payload): Log {
    var deleted := Bulk(log, seq(|ids|, i requires 0 <= i < |ids| => OfFile(ids[i])), payload);
    deleted.(versions := map key | key in deleted.versions && key.Owner() !in ids :: deleted.versions[key])
  }

  // ---- what the host reads ----

  /// Where the facts leave one row: nothing yet (or gone, itself or with its file),
  /// at a version, or at a fact out of its place.
  datatype Reading = Nothing | At(version: nat) | Broken {
    function Then(fact: Fact, key: Key): Reading {
      var next := match this case Nothing => 1 case At(version) => version + 1 case Broken => 0;
      if Broken? || (fact.key == key && fact.number != next) then Broken
      else if fact.Takes(key) then Nothing
      else if fact.key == key then At(next) else this
    }
  }

  function Read(facts: seq<Fact>, key: Key): Reading {
    if facts == [] then Nothing else Read(facts[..|facts| - 1], key).Then(facts[|facts| - 1], key)
  }

  /// The facts of the row since it was last created.
  function Lifetime(facts: seq<Fact>, key: Key): seq<Fact> {
    if facts == [] then []
    else
      var before, last := Lifetime(facts[..|facts| - 1], key), facts[|facts| - 1];
      if last.Takes(key) then [] else if last.key == key then before + [last] else before
  }

  /// A row read without a break has its facts numbered 1, 2, 3, ... up to its version.
  lemma {:induction false} ReadIsNumbered(facts: seq<Fact>, key: Key)
    requires !Read(facts, key).Broken?
    ensures forall i :: 0 <= i < |Lifetime(facts, key)| ==> Lifetime(facts, key)[i].number == i + 1
    ensures |Lifetime(facts, key)| == match Read(facts, key) case At(version) => version case _ => 0
  {
    if facts != [] {
      ReadIsNumbered(facts[..|facts| - 1], key);
    }
  }

  lemma ReadOne(facts: seq<Fact>, fact: Fact, key: Key)
    ensures Read(facts + [fact], key) == Read(facts, key).Then(fact, key)
  {
    assert (facts + [fact])[..|facts|] == facts;
  }

  /// Facts of other rows change nothing to a row's, but its file's last one.
  lemma {:induction false} ReadOthers(facts: seq<Fact>, more: seq<Fact>, key: Key)
    requires forall i :: 0 <= i < |more| ==> more[i].key != key && !more[i].Takes(key)
    ensures Read(facts + more, key) == Read(facts, key)
  {
    if more == [] {
      assert facts + more == facts;
    } else {
      var first := more[..|more| - 1];
      assert facts + more == (facts + first) + [more[|more| - 1]];
      ReadOthers(facts, first, key);
      ReadOne(facts + first, more[|more| - 1], key);
    }
  }

  /// The events of one save move the row on from its base.
  lemma {:induction false} ReadSaved(facts: seq<Fact>, key: Key, base: nat, events: seq<Payload>)
    requires Read(facts, key) == if base == 0 then Nothing else At(base)
    requires forall i :: 0 <= i < |events| ==> !events[i].Last()
    ensures Read(facts + FactsOf(key, base, events), key) == if base + |events| == 0 then Nothing else At(base + |events|)
  {
    if events == [] {
      assert facts + FactsOf(key, base, events) == facts;
    } else {
      var first := events[..|events| - 1];
      ReadSaved(facts, key, base, first);
      var last := Fact(key, base + |events|, events[|events| - 1]);
      assert facts + FactsOf(key, base, events) == (facts + FactsOf(key, base, first)) + [last];
      ReadOne(facts + FactsOf(key, base, first), last, key);
    }
  }

  /// A fact among others of no concern to a row.
  lemma ReadBulk(facts: seq<Fact>, more: seq<Fact>, i: nat, key: Key)
    requires i < |more| && forall j :: 0 <= j < |more| && j != i ==> more[j].key != key && !more[j].Takes(key)
    ensures Read(facts + more, key) == Read(facts, key).Then(more[i], key)
  {
    assert facts + more == ((facts + more[..i]) + [more[i]]) + more[i + 1..];
    ReadOthers(facts, more[..i], key);
    ReadOne(facts + more[..i], more[i], key);
    ReadOthers((facts + more[..i]) + [more[i]], more[i + 1..], key);
  }

  // ---- what every write keeps ----

  /// A stored row is at the number of its last fact, and a row that is not stored
  /// has none left to continue.
  ghost predicate KeyIsGapFree(log: Log, key: Key) {
    if key in log.versions then log.versions[key] > 0 && Read(log.facts, key) == At(log.versions[key])
    else Read(log.facts, key) == Nothing
  }

  ghost predicate GapFree(log: Log) {
    forall key: Key :: KeyIsGapFree(log, key)
  }

  datatype Write =
    | Saves(key: Key, events: seq<Payload>)
    | Bulks(keys: seq<Key>, payload: Payload)
    | Goes(ids: seq<Uuid>, payload: Payload)
  {
    /// The write hands a fact under the key.
    predicate Names(key: Key) {
      match this
      case Saves(saved, events) => saved == key && events != []
      case Bulks(keys, _) => key in keys
      case Goes(ids, _) => key.OfFile? && key.id in ids
    }

    /// The write takes the key's row away, itself or with its file.
    predicate Removes(key: Key) {
      match this
      case Saves(_, _) => false
      case Bulks(keys, payload) => payload.Last() && key in keys
      case Goes(ids, _) => key.Owner() in ids
    }
  }

  /// A page or a processing refers to its file's row.
  predicate Hangs(log: Log, key: Key) {
    key.OfFile? || OfFile(key.Owner()) in log.versions
  }

  /// What the store asks of its writers: an aggregate loaded under its lock, or
  /// created; a statement that names stored rows once (or new pages). A file's id
  /// is the client's, and may come back once its file is deleted.
  ghost predicate Allowed(log: Log, write: Write) {
    match write
    case Saves(key, events) =>
      && Hangs(log, key) && (key in log.versions || events != [])
      && forall i :: 0 <= i < |events| ==> !events[i].Last()
    case Bulks(keys, payload) =>
      && Distinct(keys) && (forall i :: 0 <= i < |keys| ==> Hangs(log, keys[i]))
      && (payload.Last() ==> forall i :: 0 <= i < |keys| ==> keys[i] in log.versions && keys[i].OfPage?)
    case Goes(ids, payload) =>
      && Distinct(ids) && payload.Last()
      && (forall i :: 0 <= i < |ids| ==> OfFile(ids[i]) in log.versions)
  }

  function Written(log: Log, write: Write): Log {
    match write
    case Saves(key, events) => Saved(log, key, Stored(log, key) + |events|, events)
    case Bulks(keys, payload) => Bulk(log, keys, payload)
    case Goes(ids, payload) => Gone(log, ids, payload)
  }

  lemma SavesKeep(log: Log, key: Key, events: seq<Payload>)
    requires GapFree(log) && Allowed(log, Saves(key, events))
    ensures GapFree(Written(log, Saves(key, events)))
  {
    var after := Written(log, Saves(key, events));
    forall other: Key
      ensures KeyIsGapFree(after, other)
    {
      assert KeyIsGapFree(log, other);
      if other != key {
        ReadOthers(log.facts, FactsOf(key, Stored(log, key), events), other);
      } else {
        ReadSaved(log.facts, key, Stored(log, key), events);
      }
    }
  }

  predicate OfPages(keys: seq<Key>) {
    forall i :: 0 <= i < |keys| ==> keys[i].OfPage?
  }

  /// Of the facts of a statement, one at most is of concern to a row.
  lemma HandedToOthers(log: Log, keys: seq<Key>, payload: Payload, key: Key, j: nat)
    requires (payload.Last() ==> OfPages(keys)) && j < |keys| && keys[j] != key
    ensures var fact := Handed(log, keys, payload)[j]; fact.key != key && !fact.Takes(key)
  {
  }

  lemma ReadHanded(log: Log, keys: seq<Key>, payload: Payload, key: Key)
    requires Distinct(keys) && (payload.Last() ==> OfPages(keys))
    ensures var after := log.facts + Handed(log, keys, payload);
            && (key !in keys ==> Read(after, key) == Read(log.facts, key))
            && (key in keys ==> Read(after, key) == Read(log.facts, key).Then(Fact(key, Stored(log, key) + 1, payload), key))
  {
    var more := Handed(log, keys, payload);
    forall j | 0 <= j < |more| && keys[j] != key
      ensures more[j].key != key && !more[j].Takes(key)
    {
      HandedToOthers(log, keys, payload, key, j);
    }
    if key in keys {
      var i :| 0 <= i < |keys| && keys[i] == key;
      ReadBulk(log.facts, more, i, key);
    } else {
      ReadOthers(log.facts, more, key);
    }
  }

  lemma BulksKeepOne(log: Log, keys: seq<Key>, payload: Payload, key: Key)
    requires GapFree(log) && Allowed(log, Bulks(keys, payload))
    ensures KeyIsGapFree(Bulk(log, keys, payload), key)
  {
    assert KeyIsGapFree(log, key);
    ReadHanded(log, keys, payload, key);
  }

  lemma BulksKeep(log: Log, keys: seq<Key>, payload: Payload)
    requires GapFree(log) && Allowed(log, Bulks(keys, payload))
    ensures GapFree(Bulk(log, keys, payload))
  {
    forall key: Key
      ensures KeyIsGapFree(Bulk(log, keys, payload), key)
    {
      BulksKeepOne(log, keys, payload, key);
    }
  }

  lemma GoesReads(log: Log, ids: seq<Uuid>, payload: Payload, key: Key)
    requires GapFree(log) && Allowed(log, Goes(ids, payload))
    ensures Read(Gone(log, ids, payload).facts, key) == if key.Owner() in ids then Nothing else Read(log.facts, key)
  {
    var keys := seq(|ids|, i requires 0 <= i < |ids| => OfFile(ids[i]));
    var more := Handed(log, keys, payload);
    assert Gone(log, ids, payload).facts == log.facts + more;
    if key.Owner() in ids {
      var i :| 0 <= i < |ids| && ids[i] == key.Owner();
      assert KeyIsGapFree(log, OfFile(ids[i])) && KeyIsGapFree(log, key);
      ReadBulk(log.facts, more, i, key);
    } else {
      ReadOthers(log.facts, more, key);
    }
  }

  lemma GoesTakes(log: Log, ids: seq<Uuid>, payload: Payload, key: Key)
    requires payload.Last()
    ensures var after := Gone(log, ids, payload);
            && (key in after.versions <==> key in log.versions && key.Owner() !in ids)
            && (key in after.versions ==> after.versions[key] == log.versions[key])
  {
    if key.OfFile? && key.id in ids {
      assert key.Owner() in ids;
    }
  }

  lemma GoesKeep(log: Log, ids: seq<Uuid>, payload: Payload)
    requires GapFree(log) && Allowed(log, Goes(ids, payload))
    ensures GapFree(Gone(log, ids, payload))
  {
    forall key: Key
      ensures KeyIsGapFree(Gone(log, ids, payload), key)
    {
      assert KeyIsGapFree(log, key);
      GoesReads(log, ids, payload, key);
      GoesTakes(log, ids, payload, key);
    }
  }

  ghost predicate Writes(log: Log, writes: seq<Write>)
    decreases |writes|
  {
    writes != [] ==> Allowed(log, writes[0]) && Writes(Written(log, writes[0]), writes[1..])
  }

  ghost function Final(log: Log, writes: seq<Write>): Log
    requires Writes(log, writes)
    decreases |writes|
  {
    if writes == [] then log else Final(Written(log, writes[0]), writes[1..])
  }

  lemma WriteKeeps(log: Log, write: Write)
    requires GapFree(log) && Allowed(log, write)
    ensures GapFree(Written(log, write))
  {
    match write
    case Saves(key, events) => SavesKeep(log, key, events);
    case Bulks(keys, payload) => BulksKeep(log, keys, payload);
    case Goes(ids, payload) => GoesKeep(log, ids, payload);
  }

  lemma {:induction false} WritesKeep(log: Log, writes: seq<Write>)
    requires GapFree(log) && Writes(log, writes)
    ensures GapFree(Final(log, writes))
    decreases |writes|
  {
    if writes != [] {
      WriteKeeps(log, writes[0]);
      WritesKeep(Written(log, writes[0]), writes[1..]);
    }
  }

  /// Nothing stored, nothing handed.
  const EMPTY := Log(map[], [])

  /// In every run of saves, bulk statements and deletions, the facts of a stored
  /// row are numbered 1, 2, 3, ... since it was created, its stored version is
  /// their count, and no fact was ever handed out of its place.
  lemma FactsAreGapFree(writes: seq<Write>, key: Key)
    requires Writes(EMPTY, writes)
    ensures var log := Final(EMPTY, writes);
            && !Read(log.facts, key).Broken?
            && (forall i :: 0 <= i < |Lifetime(log.facts, key)| ==> Lifetime(log.facts, key)[i].number == i + 1)
            && (key in log.versions ==> |Lifetime(log.facts, key)| == log.versions[key])
  {
    WritesKeep(EMPTY, writes);
    var log := Final(EMPTY, writes);
    assert KeyIsGapFree(log, key);
    ReadIsNumbered(log.facts, key);
  }

  // ---- one numbering per key ----

  /// Every fact ever handed under a key, over all its lives.
  function Of(facts: seq<Fact>, key: Key): seq<Fact> {
    if facts == [] then []
    else
      var last := facts[|facts| - 1];
      Of(facts[..|facts| - 1], key) + if last.key == key then [last] else []
  }

  /// The numbering the documentation promises: 1, 2, 3, ... per key.
  predicate OneNumbering(facts: seq<Fact>, key: Key) {
    var all := Of(facts, key);
    forall i :: 0 <= i < |all| ==> all[i].number == i + 1
  }

  /// A key has at most one fact of each number, as a unique index would have it.
  predicate Unrepeated(facts: seq<Fact>, key: Key) {
    var all := Of(facts, key);
    forall i, j :: 0 <= i < j < |all| ==> all[i].number != all[j].number
  }

  /// What became of a key: never named, named, taken away, or named again after.
  datatype Fate = Unborn | Alive | Dead | Back {
    function Then(named: bool, removed: bool): Fate {
      var f := if !named then this else if Unborn? || Alive? then Alive else Back;
      if removed && f.Alive? then Dead else f
    }
  }

  function FateOf(facts: seq<Fact>, key: Key): Fate {
    if facts == [] then Unborn
    else
      var last := facts[|facts| - 1];
      FateOf(facts[..|facts| - 1], key).Then(last.key == key, last.Takes(key))
  }

  /// The facts under a key, as its fate says; a key that came back has two facts of
  /// number 1.
  ghost predicate Says(fate: Fate, all: seq<Fact>, reading: Reading) {
    match fate
    case Unborn => all == [] && reading == Nothing
    case Alive => all != [] && reading == At(|all|) && forall i :: 0 <= i < |all| ==> all[i].number == i + 1
    case Dead => all != [] && reading == Nothing && forall i :: 0 <= i < |all| ==> all[i].number == i + 1
    case Back => exists i :: 0 < i < |all| && all[0].number == all[i].number == 1
  }

  lemma SaysOneLater(fate: Fate, all: seq<Fact>, reading: Reading, fact: Fact, key: Key)
    requires Says(fate, all, reading) && !reading.Then(fact, key).Broken?
    ensures Says(fate.Then(fact.key == key, fact.Takes(key)), if fact.key == key then all + [fact] else all,
                 reading.Then(fact, key))
  {
    var more := if fact.key == key then all + [fact] else all;
    if fate.Back? {
      var i :| 0 < i < |all| && all[0].number == all[i].number == 1;
      assert more[0] == all[0] && more[i] == all[i];
    } else if fate.Dead? && fact.key == key {
      assert more[0] == all[0] && more[|all|] == fact;
    }
  }

  lemma {:induction false} FateSays(facts: seq<Fact>, key: Key)
    requires !Read(facts, key).Broken?
    ensures Says(FateOf(facts, key), Of(facts, key), Read(facts, key))
  {
    if facts != [] {
      var first, last := facts[..|facts| - 1], facts[|facts| - 1];
      FateSays(first, key);
      SaysOneLater(FateOf(first, key), Of(first, key), Read(first, key), last, key);
      assert Of(first, key) + [] == Of(first, key);
    }
  }

  /// A key has one numbering exactly when it has no number twice, that is when it
  /// did not come back.
  lemma FateTellsTheNumbering(facts: seq<Fact>, key: Key)
    requires !Read(facts, key).Broken?
    ensures OneNumbering(facts, key) <==> !FateOf(facts, key).Back?
    ensures Unrepeated(facts, key) <==> !FateOf(facts, key).Back?
  {
    FateSays(facts, key);
  }

  // ---- the same, on the writes ----

  lemma {:induction false} FateOfOthers(facts: seq<Fact>, more: seq<Fact>, key: Key)
    requires forall i :: 0 <= i < |more| ==> more[i].key != key && !more[i].Takes(key)
    ensures FateOf(facts + more, key) == FateOf(facts, key)
  {
    if more == [] {
      assert facts + more == facts;
    } else {
      assert (facts + more)[..|facts + more| - 1] == facts + more[..|more| - 1];
      FateOfOthers(facts, more[..|more| - 1], key);
    }
  }

  lemma {:induction false} FateOfSaved(facts: seq<Fact>, key: Key, base: nat, events: seq<Payload>)
    requires events != [] && forall i :: 0 <= i < |events| ==> !events[i].Last()
    ensures FateOf(facts + FactsOf(key, base, events), key) == FateOf(facts, key).Then(true, false)
  {
    var more, first := FactsOf(key, base, events), events[..|events| - 1];
    assert (facts + more)[..|facts + more| - 1] == facts + FactsOf(key, base, first);
    if first == [] {
      assert facts + FactsOf(key, base, first) == facts;
    } else {
      FateOfSaved(facts, key, base, first);
    }
  }

  lemma FateOfBulk(facts: seq<Fact>, more: seq<Fact>, i: nat, key: Key)
    requires i < |more| && forall j :: 0 <= j < |more| && j != i ==> more[j].key != key && !more[j].Takes(key)
    ensures FateOf(facts + more, key) == FateOf(facts, key).Then(more[i].key == key, more[i].Takes(key))
  {
    var first := facts + more[..i];
    assert facts + more == (first + [more[i]]) + more[i + 1..];
    FateOfOthers(facts, more[..i], key);
    assert (first + [more[i]])[..|first|] == first;
    FateOfOthers(first + [more[i]], more[i + 1..], key);
  }

  lemma SavesFate(log: Log, saved: Key, events: seq<Payload>, key: Key)
    requires Allowed(log, Saves(saved, events))
    ensures FateOf(Written(log, Saves(saved, events)).facts, key) ==
              FateOf(log.facts, key).Then(saved == key && events != [], false)
  {
    var more := FactsOf(saved, Stored(log, saved), events);
    if saved == key && events != [] {
      FateOfSaved(log.facts, key, Stored(log, key), events);
    } else {
      FateOfOthers(log.facts, more, key);
    }
  }

  lemma BulksFate(log: Log, keys: seq<Key>, payload: Payload, key: Key)
    requires Allowed(log, Bulks(keys, payload))
    ensures FateOf(Bulk(log, keys, payload).facts, key) ==
              FateOf(log.facts, key).Then(key in keys, payload.Last() && key in keys)
  {
    var more := Handed(log, keys, payload);
    assert Bulk(log, keys, payload).facts == log.facts + more;
    if key in keys {
      var i :| 0 <= i < |keys| && keys[i] == key;
      FateOfBulk(log.facts, more, i, key);
    } else {
      FateOfOthers(log.facts, more, key);
    }
  }

  lemma GoesFate(log: Log, ids: seq<Uuid>, payload: Payload, key: Key)
    requires Allowed(log, Goes(ids, payload))
    ensures FateOf(Gone(log, ids, payload).facts, key) ==
              FateOf(log.facts, key).Then(key.OfFile? && key.id in ids, key.Owner() in ids)
  {
    var keys := seq(|ids|, i requires 0 <= i < |ids| => OfFile(ids[i]));
    var more := Handed(log, keys, payload);
    assert Gone(log, ids, payload).facts == log.facts + more;
    if key.Owner() in ids {
      var i :| 0 <= i < |ids| && ids[i] == key.Owner();
      FateOfBulk(log.facts, more, i, key);
    } else {
      FateOfOthers(log.facts, more, key);
    }
  }

  lemma WriteFate(log: Log, write: Write, key: Key)
    requires Allowed(log, write)
    ensures FateOf(Written(log, write).facts, key) == FateOf(log.facts, key).Then(write.Names(key), write.Removes(key))
  {
    match write
    case Saves(saved, events) => SavesFate(log, saved, events, key);
    case Bulks(keys, payload) => BulksFate(log, keys, payload, key);
    case Goes(ids, payload) => GoesFate(log, ids, payload, key);
  }

  lemma {:induction false} OneMoreWrite(log: Log, first: seq<Write>, last: Write)
    requires Writes(log, first + [last])
    ensures Writes(log, first) && Allowed(Final(log, first), last)
    ensures Final(log, first + [last]) == Written(Final(log, first), last)
    decreases |first|
  {
    var writes := first + [last];
    if first == [] {
      assert writes[1..] == [];
    } else {
      assert writes[0] == first[0] && writes[1..] == first[1..] + [last];
      OneMoreWrite(Written(log, first[0]), first[1..], last);
    }
  }

  predicate Named(writes: seq<Write>, key: Key) {
    exists i :: 0 <= i < |writes| && writes[i].Names(key)
  }

  /// Once named, the key was taken away, itself or with its file.
  predicate Removed(writes: seq<Write>, key: Key) {
    exists i, j :: 0 <= i <= j < |writes| && writes[i].Names(key) && writes[j].Removes(key)
  }

  /// ... and named again after.
  predicate Resumed(writes: seq<Write>, key: Key) {
    exists n :: 0 <= n < |writes| && writes[n].Names(key) && Removed(writes[..n], key)
  }

  lemma NamedOneLater(first: seq<Write>, last: Write, key: Key)
    ensures Named(first + [last], key) <==> Named(first, key) || last.Names(key)
  {
    var writes := first + [last];
    assert writes[|first|] == last;
    if Named(first, key) {
      var i :| 0 <= i < |first| && first[i].Names(key);
      assert writes[i].Names(key);
    }
  }

  lemma RemovedOneLater(first: seq<Write>, last: Write, key: Key)
    ensures Removed(first + [last], key) <==> Removed(first, key) || (Named(first + [last], key) && last.Removes(key))
  {
    var writes, n := first + [last], |first|;
    assert writes[n] == last;
    if Removed(first, key) {
      var i, j :| 0 <= i <= j < n && first[i].Names(key) && first[j].Removes(key);
      assert writes[i].Names(key) && writes[j].Removes(key);
    }
    if Named(writes, key) && last.Removes(key) {
      var i :| 0 <= i < |writes| && writes[i].Names(key);
      assert i <= n && writes[n].Removes(key);
    }
    if Removed(writes, key) {
      var i, j :| 0 <= i <= j < |writes| && writes[i].Names(key) && writes[j].Removes(key);
      assert j < n ==> first[i].Names(key) && first[j].Removes(key);
    }
  }

  lemma ResumedStays(first: seq<Write>, last: Write, key: Key)
    requires Resumed(first, key)
    ensures Resumed(first + [last], key)
  {
    var writes := first + [last];
    var n :| 0 <= n < |first| && first[n].Names(key) && Removed(first[..n], key);
    assert writes[n] == first[n] && writes[..n] == first[..n];
  }

  lemma ResumedOneLater(first: seq<Write>, last: Write, key: Key)
    ensures Resumed(first + [last], key) <==> Resumed(first, key) || (Removed(first, key) && last.Names(key))
  {
    var writes := first + [last];
    assert writes[|first|] == last && writes[..|first|] == first;
    if Resumed(first, key) {
      ResumedStays(first, last, key);
    }
    if Resumed(writes, key) {
      var n :| 0 <= n < |writes| && writes[n].Names(key) && Removed(writes[..n], key);
      if n < |first| {
        assert writes[n] == first[n] && writes[..n] == first[..n];
      }
    }
  }

  /// What a fate tells of a key: named, taken away, named again.
  predicate Tells(fate: Fate, named: bool, removed: bool, resumed: bool) {
    (!fate.Unborn? <==> named) && (fate.Dead? || fate.Back? <==> removed) && (fate.Back? <==> resumed)
  }

  lemma TellsOneLater(fate: Fate, named: bool, removed: bool, resumed: bool, names: bool, removes: bool)
    requires Tells(fate, named, removed, resumed)
    ensures Tells(fate.Then(names, removes), named || names, removed || ((named || names) && removes),
                  resumed || (removed && names))
  {
  }

  /// The fate of a key, read off the writes.
  lemma {:induction false} WritesTellTheFate(writes: seq<Write>, key: Key)
    requires Writes(EMPTY, writes)
    ensures Tells(FateOf(Final(EMPTY, writes).facts, key), Named(writes, key), Removed(writes, key), Resumed(writes, key))
  {
    if writes != [] {
      var first, last := writes[..|writes| - 1], writes[|writes| - 1];
      assert writes == first + [last];
      OneMoreWrite(EMPTY, first, last);
      WritesTellTheFate(first, key);
      WriteFate(Final(EMPTY, first), last, key);
      FateOneLater(FateOf(Final(EMPTY, first).facts, key), first, last, key);
    }
  }

  lemma FateOneLater(fate: Fate, first: seq<Write>, last: Write, key: Key)
    requires Tells(fate, Named(first, key), Removed(first, key), Resumed(first, key))
    ensures var writes := first + [last];
            Tells(fate.Then(last.Names(key), last.Removes(key)), Named(writes, key), Removed(writes, key), Resumed(writes, key))
  {
    TellsOneLater(fate, Named(first, key), Removed(first, key), Resumed(first, key), last.Names(key), last.Removes(key));
    NamedOneLater(first, last, key);
    RemovedOneLater(first, last, key);
    ResumedOneLater(first, last, key);
  }

  /// In every run, the facts under a key are numbered 1, 2, 3, ... over the whole log
  /// exactly when no write names the key after it was taken away, itself or with its
  /// file; and exactly then no number of it is handed twice.
  lemma OneNumberingUnlessResumed(writes: seq<Write>, key: Key)
    requires Writes(EMPTY, writes)
    ensures var facts := Final(EMPTY, writes).facts;
            && (OneNumbering(facts, key) <==> !Resumed(writes, key))
            && (Unrepeated(facts, key) <==> !Resumed(writes, key))
  {
    FactsAreGapFree(writes, key);
    WritesTellTheFate(writes, key);
    FateTellsTheNumbering(Final(EMPTY, writes).facts, key);
  }

  /// A host that keeps its facts unique by key and number refuses, of the writes of
  /// a run, exactly those that name a key taken away before.
  lemma UniqueFactsRefuse(writes: seq<Write>, write: Write, key: Key)
    requires Writes(EMPTY, writes + [write]) && Writes(EMPTY, writes) && Unrepeated(Final(EMPTY, writes).facts, key)
    ensures Unrepeated(Final(EMPTY, writes + [write]).facts, key) <==> !(write.Names(key) && Removed(writes, key))
  {
    OneNumberingUnlessResumed(writes, key);
    OneNumberingUnlessResumed(writes + [write], key);
    ResumedOneLater(writes, write, key);
  }

  // ---- an id requested once ----

  predicate Deletes(write: Write, id: Uuid) {
    write.Goes? && id in write.ids
  }

  predicate IsDeleted(writes: seq<Write>, id: Uuid) {
    exists i :: 0 <= i < |writes| && Deletes(writes[i], id)
  }

  /// Once the file `id` was deleted, its id is not requested again.
  predicate RequestedOnce(writes: seq<Write>, id: Uuid) {
    forall n :: 0 <= n < |writes| && IsDeleted(writes[..n], id) ==> !writes[n].Names(OfFile(id))
  }

  lemma DeletedOneLater(first: seq<Write>, last: Write, id: Uuid)
    ensures IsDeleted(first + [last], id) <==> IsDeleted(first, id) || Deletes(last, id)
  {
    var writes := first + [last];
    assert writes[|first|] == last;
    if IsDeleted(first, id) {
      var i :| 0 <= i < |first| && Deletes(first[i], id);
      assert Deletes(writes[i], id);
    }
  }

  lemma RequestedOnceBefore(first: seq<Write>, last: Write, id: Uuid)
    requires RequestedOnce(first + [last], id)
    ensures RequestedOnce(first, id) && (IsDeleted(first, id) ==> !last.Names(OfFile(id)))
  {
    var writes := first + [last];
    assert writes[|first|] == last && writes[..|first|] == first;
    forall n | 0 <= n < |first|
      ensures writes[n] == first[n] && writes[..n] == first[..n]
    {
    }
  }

  lemma RowsComeWithAFact(log: Log, write: Write, id: Uuid)
    requires Allowed(log, write) && OfFile(id) !in log.versions && !write.Names(OfFile(id))
    ensures OfFile(id) !in Written(log, write).versions
  {
  }

  lemma RowsGo(log: Log, write: Write, id: Uuid)
    requires Allowed(log, write) && Deletes(write, id)
    ensures OfFile(id) !in Written(log, write).versions
  {
    assert OfFile(id).Owner() in write.ids;
  }

  /// Whatever hangs on a file is named only while the file is stored.
  lemma NamesTheStored(log: Log, write: Write, key: Key)
    requires Allowed(log, write)
    ensures write.Names(key) ==> key.OfFile? || OfFile(key.Owner()) in log.versions
  {
  }

  /// A file deleted for good stays so.
  lemma {:induction false} StaysDeleted(writes: seq<Write>, id: Uuid)
    requires Writes(EMPTY, writes) && RequestedOnce(writes, id) && IsDeleted(writes, id)
    ensures OfFile(id) !in Final(EMPTY, writes).versions
  {
    var first, last := writes[..|writes| - 1], writes[|writes| - 1];
    assert writes == first + [last];
    OneMoreWrite(EMPTY, first, last);
    RequestedOnceBefore(first, last, id);
    DeletedOneLater(first, last, id);
    if Deletes(last, id) {
      RowsGo(Final(EMPTY, first), last, id);
    } else {
      StaysDeleted(first, id);
      RowsComeWithAFact(Final(EMPTY, first), last, id);
    }
  }

  /// A file and its processing have one numbering when the file's id is requested
  /// once; the file, only then.
  lemma FilesAreNumberedOnce(writes: seq<Write>, id: Uuid)
    requires Writes(EMPTY, writes)
    ensures OneNumbering(Final(EMPTY, writes).facts, OfFile(id)) <==> RequestedOnce(writes, id)
    ensures RequestedOnce(writes, id) ==> OneNumbering(Final(EMPTY, writes).facts, OfProcessing(id))
  {
    OneNumberingUnlessResumed(writes, OfFile(id));
    OneNumberingUnlessResumed(writes, OfProcessing(id));
    if RequestedOnce(writes, id) {
      NotResumed(writes, OfFile(id));
      NotResumed(writes, OfProcessing(id));
    } else {
      var n :| 0 <= n < |writes| && IsDeleted(writes[..n], id) && writes[n].Names(OfFile(id));
      DeletedIsRemoved(writes[..n], id);
    }
  }

  lemma DeletedIsRemoved(writes: seq<Write>, id: Uuid)
    requires IsDeleted(writes, id)
    ensures Removed(writes, OfFile(id))
  {
    var i :| 0 <= i < |writes| && Deletes(writes[i], id);
    assert writes[i].Names(OfFile(id)) && writes[i].Removes(OfFile(id));
  }

  lemma {:induction false} NotResumed(writes: seq<Write>, key: Key)
    requires Writes(EMPTY, writes) && RequestedOnce(writes, key.Owner()) && !key.OfPage?
    ensures !Resumed(writes, key)
  {
    if writes != [] {
      var first, last := writes[..|writes| - 1], writes[|writes| - 1];
      assert writes == first + [last];
      OneMoreWrite(EMPTY, first, last);
      RequestedOnceBefore(first, last, key.Owner());
      NotResumed(first, key);
      ResumedOneLater(first, last, key);
      if Removed(first, key) {
        WasDeleted(first, key);
        StaysDeleted(first, key.Owner());
        NamesTheStored(Final(EMPTY, first), last, key);
      }
    }
  }

  predicate TrimsOnlyPages(write: Write) {
    write.Bulks? && write.payload.Last() ==> OfPages(write.keys)
  }

  lemma {:induction false} RunTrimsOnlyPages(log: Log, writes: seq<Write>)
    requires Writes(log, writes)
    ensures forall i :: 0 <= i < |writes| ==> TrimsOnlyPages(writes[i])
    decreases |writes|
  {
    if writes != [] {
      RunTrimsOnlyPages(Written(log, writes[0]), writes[1..]);
      forall i | 0 < i < |writes|
        ensures TrimsOnlyPages(writes[i])
      {
        assert writes[i] == writes[1..][i - 1];
      }
    }
  }

  /// What is no page goes with its file.
  lemma WasDeleted(writes: seq<Write>, key: Key)
    requires Writes(EMPTY, writes) && Removed(writes, key) && !key.OfPage?
    ensures IsDeleted(writes, key.Owner())
  {
    RunTrimsOnlyPages(EMPTY, writes);
    var i, j :| 0 <= i <= j < |writes| && writes[i].Names(key) && writes[j].Removes(key);
    assert TrimsOnlyPages(writes[j]);
    assert Deletes(writes[j], key.Owner());
  }

  // ---- two runs that start over ----

  ghost predicate Leads(log: Log, write: Write, after: Log) {
    Allowed(log, write) && Written(log, write) == after
  }

  /// The logs a run goes through.
  lemma {:induction false} RunGoesThrough(logs: seq<Log>, writes: seq<Write>)
    requires |logs| == |writes| + 1 && forall i :: 0 <= i < |writes| ==> Leads(logs[i], writes[i], logs[i + 1])
    ensures Writes(logs[0], writes) && Final(logs[0], writes) == logs[|writes|]
    decreases |writes|
  {
    if writes != [] {
      RunGoesThrough(logs[1..], writes[1..]);
    }
  }

  lemma SavesTo(log: Log, key: Key, event: Payload, after: Log)
    requires Hangs(log, key) && !event.Last() && after.versions == log.versions[key := Stored(log, key) + 1]
    requires after.facts == log.facts + [Fact(key, Stored(log, key) + 1, event)]
    ensures Leads(log, Saves(key, [event]), after)
  {
  }

  lemma ReportsTo(log: Log, page: Key, job: Uuid, after: Log)
    requires Hangs(log, page) && after.versions == log.versions[page := Stored(log, page) + 1]
    requires after.facts == log.facts + [Fact(page, Stored(log, page) + 1, PageReported(job))]
    ensures Leads(log, Bulks([page], PageReported(job)), after)
  {
  }

  lemma TrimsTo(log: Log, page: Key, after: Log)
    requires Hangs(log, page) && page in log.versions && page.OfPage? && after.versions == log.versions - {page}
    requires after.facts == log.facts + [Fact(page, Stored(log, page) + 1, PageTrimmed)]
    ensures Leads(log, Bulks([page], PageTrimmed), after)
  {
    assert (set key | key in [page]) == {page};
  }

  lemma GoesTo(log: Log, id: Uuid, payload: Payload, after: Log)
    requires payload.Last() && OfFile(id) in log.versions && forall key :: key in log.versions ==> key.Owner() == id
    requires after == Log(map[], log.facts + [Fact(OfFile(id), Stored(log, OfFile(id)) + 1, payload)])
    ensures Leads(log, Goes([id], payload), after)
  {
  }

  lemma OfPrefix(facts: seq<Fact>, n: nat, key: Key)
    requires 0 < n <= |facts|
    ensures Of(facts[..n], key) == Of(facts[..n - 1], key) + if facts[n - 1].key == key then [facts[n - 1]] else []
    ensures n == |facts| ==> facts[..n] == facts
    ensures facts[..0] == []
  {
    assert facts[..n][..n - 1] == facts[..n - 1];
  }

  /// A file requested, a page of it reported, trimmed, and reported again.
  function PageRun(file: Uuid, number: int, n: nat, job: Uuid, other: Uuid): seq<Write> {
    var page := OfPage(file, number);
    [Saves(OfFile(file), [FileSays(AnyOther(n))]), Bulks([page], PageReported(job)), Bulks([page], PageTrimmed),
     Bulks([page], PageReported(other))]
  }

  function PageFacts(file: Uuid, number: int, n: nat, job: Uuid, other: Uuid): seq<Fact> {
    var page := OfPage(file, number);
    [Fact(OfFile(file), 1, FileSays(AnyOther(n))), Fact(page, 1, PageReported(job)), Fact(page, 2, PageTrimmed),
     Fact(page, 1, PageReported(other))]
  }

  function PageLogs(file: Uuid, number: int, n: nat, job: Uuid, other: Uuid): seq<Log> {
    var page, row, facts := OfPage(file, number), OfFile(file), PageFacts(file, number, n, job, other);
    [EMPTY, Log(map[row := 1], facts[..1]), Log(map[row := 1, page := 1], facts[..2]), Log(map[row := 1], facts[..3]),
     Log(map[row := 1, page := 1], facts)]
  }

  lemma PageRunLeads(file: Uuid, number: int, n: nat, job: Uuid, other: Uuid, i: nat)
    requires i < 4
    ensures var logs := PageLogs(file, number, n, job, other); Leads(logs[i], PageRun(file, number, n, job, other)[i], logs[i + 1])
  {
    var page, logs := OfPage(file, number), PageLogs(file, number, n, job, other);
    if i == 0 {
      SavesTo(logs[0], OfFile(file), FileSays(AnyOther(n)), logs[1]);
    } else if i == 1 {
      ReportsTo(logs[1], page, job, logs[2]);
    } else if i == 2 {
      TrimsTo(logs[2], page, logs[3]);
    } else {
      ReportsTo(logs[3], page, other, logs[4]);
    }
  }

  lemma PageRunEnds(file: Uuid, number: int, n: nat, job: Uuid, other: Uuid)
    ensures var writes := PageRun(file, number, n, job, other);
            Writes(EMPTY, writes) && Final(EMPTY, writes).facts == PageFacts(file, number, n, job, other)
  {
    var logs, writes := PageLogs(file, number, n, job, other), PageRun(file, number, n, job, other);
    forall i | 0 <= i < 4
      ensures Leads(logs[i], writes[i], logs[i + 1])
    {
      PageRunLeads(file, number, n, job, other, i);
    }
    RunGoesThrough(logs, writes);
  }

  /// A page trimmed and reported again starts over: 1, 2, then 1.
  lemma PageStartsOver(file: Uuid, number: int, n: nat, job: Uuid, other: Uuid)
    ensures var writes, page := PageRun(file, number, n, job, other), OfPage(file, number);
            && Writes(EMPTY, writes)
            && Of(Final(EMPTY, writes).facts, page)
               == [Fact(page, 1, PageReported(job)), Fact(page, 2, PageTrimmed), Fact(page, 1, PageReported(other))]
            && !OneNumbering(Final(EMPTY, writes).facts, page) && !Unrepeated(Final(EMPTY, writes).facts, page)
  {
    PageRunEnds(file, number, n, job, other);
    var page, facts := OfPage(file, number), PageFacts(file, number, n, job, other);
    OfPrefix(facts, 1, page);
    OfPrefix(facts, 2, page);
    OfPrefix(facts, 3, page);
    OfPrefix(facts, 4, page);
    var all := Of(facts, page);
    assert all[0].number == all[2].number == 1;
  }

  /// A file requested and processed, deleted, requested again under its id and processed.
  function FileRun(file: Uuid, n: nat, stamped: S.Stamped): seq<Write> {
    var requested := Saves(OfFile(file), [FileSays(AnyOther(n))]);
    var started := Saves(OfProcessing(file), [ProcessingSays(stamped)]);
    [requested, started, Goes([file], FileSays(Deleted)), requested, started]
  }

  function FileFacts(file: Uuid, n: nat, stamped: S.Stamped): seq<Fact> {
    var requested := Fact(OfFile(file), 1, FileSays(AnyOther(n)));
    var started := Fact(OfProcessing(file), 1, ProcessingSays(stamped));
    [requested, started, Fact(OfFile(file), 2, FileSays(Deleted)), requested, started]
  }

  function FileLogs(file: Uuid, n: nat, stamped: S.Stamped): seq<Log> {
    var row, processing, facts := OfFile(file), OfProcessing(file), FileFacts(file, n, stamped);
    [EMPTY, Log(map[row := 1], facts[..1]), Log(map[row := 1, processing := 1], facts[..2]), Log(map[], facts[..3]),
     Log(map[row := 1], facts[..4]), Log(map[row := 1, processing := 1], facts)]
  }

  lemma FileRunLeads(file: Uuid, n: nat, stamped: S.Stamped, i: nat)
    requires i < 5
    ensures var logs := FileLogs(file, n, stamped); Leads(logs[i], FileRun(file, n, stamped)[i], logs[i + 1])
  {
    var logs := FileLogs(file, n, stamped);
    if i == 0 || i == 3 {
      SavesTo(logs[i], OfFile(file), FileSays(AnyOther(n)), logs[i + 1]);
    } else if i == 1 || i == 4 {
      SavesTo(logs[i], OfProcessing(file), ProcessingSays(stamped), logs[i + 1]);
    } else {
      GoesTo(logs[2], file, FileSays(Deleted), logs[3]);
    }
  }

  lemma FileRunEnds(file: Uuid, n: nat, stamped: S.Stamped)
    ensures var writes := FileRun(file, n, stamped);
            Writes(EMPTY, writes) && Final(EMPTY, writes).facts == FileFacts(file, n, stamped)
  {
    var logs, writes := FileLogs(file, n, stamped), FileRun(file, n, stamped);
    forall i | 0 <= i < 5
      ensures Leads(logs[i], writes[i], logs[i + 1])
    {
      FileRunLeads(file, n, stamped, i);
    }
    RunGoesThrough(logs, writes);
  }

  /// A file's id requested again once its file is deleted: its processing starts
  /// over, 1 then 1.
  lemma ProcessingStartsOver(file: Uuid, n: nat, stamped: S.Stamped)
    ensures var writes, processing := FileRun(file, n, stamped), OfProcessing(file);
            && Writes(EMPTY, writes)
            && Of(Final(EMPTY, writes).facts, processing)
               == [Fact(processing, 1, ProcessingSays(stamped)), Fact(processing, 1, ProcessingSays(stamped))]
            && !OneNumbering(Final(EMPTY, writes).facts, processing) && !Unrepeated(Final(EMPTY, writes).facts, processing)
  {
    FileRunEnds(file, n, stamped);
    var processing, facts := OfProcessing(file), FileFacts(file, n, stamped);
    OfPrefix(facts, 1, processing);
    OfPrefix(facts, 2, processing);
    OfPrefix(facts, 3, processing);
    OfPrefix(facts, 4, processing);
    OfPrefix(facts, 5, processing);
    var all := Of(facts, processing);
    assert all[0].number == all[1].number == 1;
  }

  /// Saving an aggregate twice in a gesture hands what one save would have.
  lemma SavingTwiceIsSavingOnce(log: Log, key: Key, first: seq<Payload>, more: seq<Payload>)
    ensures Written(Written(log, Saves(key, first)), Saves(key, more)) == Written(log, Saves(key, first + more))
  {
    var base := Stored(log, key);
    assert FactsOf(key, base, first + more) == FactsOf(key, base, first) + FactsOf(key, base + |first|, more);
  }

  // ---- the store ----

  /// The library's tables and what its transactions handed.
  class Tables {
    var log: Log

    constructor ()
      ensures log == Log(map[], [])
    {
      log := Log(map[], []);
    }

    /// Saves an aggregate loaded (or created) under its lock: its row at `version`,
    /// the events it pushed since.
    method Save(key: Key, version: nat, events: seq<Payload>)
      requires version == Stored(log, key) + |events|
      modifies this
      ensures log == Written(old(log), Saves(key, events))
    {
      log := log.(versions := log.versions[key := version]);
      log := log.(facts := log.facts + FactsOf(key, version - |events|, events));
    }

    /// The rows of a statement, in the order the database answers them.
    method Matching(keys: set<Key>) returns (rows: seq<Key>)
      ensures Distinct(rows) && forall key :: key in rows <==> key in keys && key in log.versions
    {
      rows := [];
      var rest := keys;
      while rest != {}
        invariant rest <= keys && Distinct(rows)
        invariant forall key :: key in rows <==> key in keys - rest && key in log.versions
      {
        var key :| key in rest;
        rest := rest - {key};
        if key in log.versions {
          rows := rows + [key];
        }
      }
    }

    /// Bumps each stored file of `ids` in one statement.
    method RecordOnFiles(ids: set<Uuid>, event: FileEvent) returns (rows: seq<Key>)
      requires !FileSays(event).Last()
      modifies this
      ensures Distinct(rows) && forall key :: key in rows <==> key.OfFile? && key.id in ids && key in old(log.versions)
      ensures log == Written(old(log), Bulks(rows, FileSays(event)))
    {
      rows := Matching(set id | id in ids :: OfFile(id));
      log := Bulk(log, rows, FileSays(event));
    }

    /// The numbers in order, as the written rows are sorted.
    method Sorted(numbers: set<int>) returns (sorted: seq<int>)
      ensures forall i, j :: 0 <= i < j < |sorted| ==> sorted[i] < sorted[j]
      ensures forall n :: n in sorted <==> n in numbers
    {
      sorted := [];
      var rest := numbers;
      while rest != {}
        invariant rest <= numbers
        invariant forall i, j :: 0 <= i < j < |sorted| ==> sorted[i] < sorted[j]
        invariant forall n :: n in sorted <==> n in numbers - rest
        invariant forall i, n :: 0 <= i < |sorted| && n in rest ==> sorted[i] < n
      {
        ghost var lowest := LeastExists(rest);
        var least :| least in rest && forall n :: n in rest ==> least <= n;
        rest := rest - {least};
        sorted := sorted + [least];
      }
    }

    /// Writes the pages `numbers` of `file`: new at 1, or bumped.
    method UpsertPages(file: Uuid, numbers: set<int>, jobId: Uuid) returns (written: seq<int>)
      modifies this
      ensures forall i, j :: 0 <= i < j < |written| ==> written[i] < written[j]
      ensures forall n :: n in written <==> n in numbers
      ensures log == Written(old(log), Bulks(Pages(file, written), PageReported(jobId)))
    {
      written := Sorted(numbers);
      log := Bulk(log, Pages(file, written), PageReported(jobId));
    }

    /// Deletes the pages of `file` above `count`, in order.
    method TrimPages(file: Uuid, count: int) returns (trimmed: seq<int>)
      modifies this
      ensures forall i, j :: 0 <= i < j < |trimmed| ==> trimmed[i] < trimmed[j]
      ensures forall n :: n in trimmed <==> n > count && OfPage(file, n) in old(log.versions)
      ensures log == Written(old(log), Bulks(Pages(file, trimmed), PageTrimmed))
      ensures forall n :: n > count ==> OfPage(file, n) !in log.versions
      ensures forall key :: key in old(log.versions) && !(key.OfPage? && key.file == file && key.number > count) ==>
                key in log.versions && log.versions[key] == old(log.versions)[key]
    {
      var above := set key | key in log.versions && key.OfPage? && key.file == file && key.number > count :: key.number;
      trimmed := Sorted(above);
      ghost var keys := Pages(file, trimmed);
      forall n | n in trimmed
        ensures OfPage(file, n) in keys
      {
        var i :| 0 <= i < |trimmed| && trimmed[i] == n;
        assert keys[i] == OfPage(file, n);
      }
      log := Bulk(log, Pages(file, trimmed), PageTrimmed);
    }

    /// Hands the last fact of the loaded file `id`, and deletes it.
    method HandGone(id: Uuid, version: nat, event: FileEvent)
      requires FileSays(event).Last() && version == Stored(log, OfFile(id))
      modifies this
      ensures log == Written(old(log), Goes([id], FileSays(event)))
    {
      log := log.(facts := log.facts + [Fact(OfFile(id), version + 1, FileSays(event))]);
      log := log.(versions := map key | key in log.versions && key.Owner() != id :: log.versions[key]);
    }
  }

  function Pages(file: Uuid, numbers: seq<int>): seq<Key> {
    seq(|numbers|, i requires 0 <= i < |numbers| => OfPage(file, numbers[i]))
  }

  /// A set with no number in it is the empty one.
  lemma SomeNumber(numbers: set<int>)
    ensures numbers == {} || exists n :: n in numbers
  {
    if forall n :: n !in numbers {
      assert numbers == {};
    }
  }

  lemma {:induction false} LeastExists(numbers: set<int>) returns (least: int)
    requires numbers != {}
    ensures least in numbers && forall n :: n in numbers ==> least <= n
  {
    SomeNumber(numbers);
    least :| least in numbers;
    if numbers != {least} {
      var rest := LeastExists(numbers - {least});
      assert forall n :: n in numbers ==> n == least || n in numbers - {least};
      least := if least < rest then least else rest;
    }
  }
}
