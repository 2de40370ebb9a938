/// Moving a folder: every file under it, in one statement.
module FolderMove {
  import opened Common
  import opened Text
  import opened Paths

  const INVALID_PATH := "INVALID_PATH"
  const NOTHING_TO_CHANGE := "NOTHING_TO_CHANGE"
  const FOLDER_INTO_ITSELF := "FOLDER_INTO_ITSELF"
  const FOLDER_NOT_FOUND := "FOLDER_NOT_FOUND"
  const DRIVE_NOT_FOUND := "DRIVE_NOT_FOUND"
  const NAME_TAKEN := "NAME_TAKEN"

  datatype Entry = Entry(drive: Uuid, path: string, name: string)

  /// Every path is one the library reads back, and no two files share a place.
  ghost predicate Sound(table: map<Uuid, Entry>) {
    && (forall id :: id in table ==> IsPath(table[id].path))
    && (forall a, b :: a in table && b in table && table[a] == table[b] ==> a == b)
  }

  /// The files of the drive under `prefix`, as the store selects them.
  function Under(table: map<Uuid, Entry>, drive: Uuid, prefix: string): set<Uuid> {
    set id | id in table && table[id].drive == drive && UnderPrefix(table[id].path, prefix)
  }

  /// The table once the bulk statement moved the files `ids`.
  function MovedTable(table: map<Uuid, Entry>, ids: set<Uuid>, from: string, to: string): map<Uuid, Entry> {
    map id | id in table :: if id in ids then table[id].(path := Moved(table[id].path, from, to)) else table[id]
  }

  /// A moving file has no place to land: too long a path, or a name taken by a
  /// file that stays.
  predicate Fails(table: map<Uuid, Entry>, drive: Uuid, from: string, to: string, id: Uuid)
    requires id in table
  {
    Rebased(table[id].path, from, to).None? || Taken(table, drive, from, to, id)
  }

  predicate Taken(table: map<Uuid, Entry>, drive: Uuid, from: string, to: string, id: Uuid)
    requires id in table
  {
    var landing := Rebased(table[id].path, from, to);
    landing.Some? && exists other :: other in Under(table, drive, to) - Under(table, drive, from)
                                     && table[other].path == landing.value && table[other].name == table[id].name
  }

  /// What the gesture answers before it looks at the files.
  function Guard(table: map<Uuid, Entry>, drives: set<Uuid>, drive: Uuid, oldRaw: string, newRaw: string): Option<string> {
    if Parse(oldRaw).None? || Parse(newRaw).None? then Some(INVALID_PATH)
    else
      var from, to := Parse(oldRaw).value, Parse(newRaw).value;
      if from == "" then Some(INVALID_PATH)
      else if from == to then Some(NOTHING_TO_CHANGE)
      else if IsWithin(to, from) then Some(FOLDER_INTO_ITSELF)
      else if drive !in drives then Some(DRIVE_NOT_FOUND)
      else if Under(table, drive, from) == {} then Some(FOLDER_NOT_FOUND)
      else None
  }

  /// A file stands in the folder, or under it.
  predicate StandsIn(entry: Entry, drive: Uuid, folder: string) {
    entry.drive == drive && (folder == "" || entry.path == folder || folder + "/" <= entry.path)
  }

  lemma UnderSays(table: map<Uuid, Entry>, drive: Uuid, folder: string, id: Uuid)
    ensures id in Under(table, drive, folder) <==> id in table && StandsIn(table[id], drive, folder)
  {
    if id in table && folder + "/" <= table[id].path {
      assert Left(table[id].path, |folder| + 1) == folder + "/";
    }
  }

  /// What a move is refused for before its files are looked at, in this order.
  lemma GuardSays(table: map<Uuid, Entry>, drives: set<Uuid>, drive: Uuid, oldRaw: string, newRaw: string)
    ensures var refused := Guard(table, drives, drive, oldRaw, newRaw);
            if Parse(oldRaw).None? || Parse(newRaw).None? || Parse(oldRaw) == Some("") then refused == Some("INVALID_PATH")
            else
              var from, to := Parse(oldRaw).value, Parse(newRaw).value;
              if from == to then refused == Some("NOTHING_TO_CHANGE")
              else if from + "/" <= to then refused == Some("FOLDER_INTO_ITSELF")
              else if drive !in drives then refused == Some("DRIVE_NOT_FOUND")
              else refused == if exists id :: id in table && StandsIn(table[id], drive, from) then None else Some("FOLDER_NOT_FOUND")
  {
    if Parse(oldRaw).Some? && Parse(newRaw).Some? && Parse(oldRaw) != Some("") {
      var from, to := Parse(oldRaw).value, Parse(newRaw).value;
      WithinSays(to, from);
      forall id
        ensures id in Under(table, drive, from) <==> id in table && StandsIn(table[id], drive, from)
      {
        UnderSays(table, drive, from, id);
      }
      assert Under(table, drive, from) == {} <==> forall id :: id !in Under(table, drive, from);
    }
  }

  lemma WithinSays(path: string, folder: string)
    requires folder != ""
    ensures IsWithin(path, folder) <==> path == folder || folder + "/" <= path
  {
    if folder + "/" <= path {
      assert path[|folder|] == (folder + "/")[|folder|];
      assert folder <= folder + "/";
    }
    if folder <= path && |path| > |folder| && path[|folder|] == '/' {
      assert path[..|folder| + 1] == folder + "/";
    }
  }

  /// Every file of the folder stands where its path says below the new one; every
  /// other file stands where it stood.
  ghost predicate MovesFiles(before: map<Uuid, Entry>, after: map<Uuid, Entry>, drive: Uuid, from: string, to: string) {
    && before.Keys == after.Keys
    && forall id :: id in before ==>
         && after[id].drive == before[id].drive && after[id].name == before[id].name
         && if !StandsIn(before[id], drive, from) then after[id].path == before[id].path
            else if before[id].path == from then after[id].path == to
            else
              var rest := before[id].path[|from| + 1..];
              after[id].path == if to == "" then rest else to + "/" + rest
  }

  lemma MoveSays(table: map<Uuid, Entry>, drive: Uuid, from: string, to: string)
    requires Sound(table) && IsPath(from) && IsPath(to) && from != "" && Accepts(table, drive, from, to)
    ensures MovesFiles(table, MovedTable(table, Under(table, drive, from), from, to), drive, from, to)
  {
    var after := MovedTable(table, Under(table, drive, from), from, to);
    forall id | id in table
      ensures if !StandsIn(table[id], drive, from) then after[id].path == table[id].path
              else if table[id].path == from then after[id].path == to
              else
                var rest := table[id].path[|from| + 1..];
                after[id].path == if to == "" then rest else to + "/" + rest
    {
      UnderSays(table, drive, from, id);
      if id in Under(table, drive, from) {
        assert !Fails(table, drive, from, to, id);
        LandsUnder(table, drive, from, to, id);
        RebasedSays(table[id].path, from, to);
      }
    }
  }

  /// Where the library rebases a path of the folder.
  lemma RebasedSays(path: string, from: string, to: string)
    requires IsPath(path) && from != "" && (path == from || from + "/" <= path) && Rebased(path, from, to).Some?
    ensures path == from ==> Rebased(path, from, to).value == to
    ensures path != from ==>
              var rest := path[|from| + 1..]; Rebased(path, from, to).value == if to == "" then rest else to + "/" + rest
  {
    if path != from {
      assert path[|from|] == (from + "/")[|from|] && from <= from + "/";
      RestIsAPath(path, from);
    }
  }

  ghost predicate Accepts(table: map<Uuid, Entry>, drive: Uuid, from: string, to: string) {
    forall id :: id in Under(table, drive, from) ==> !Fails(table, drive, from, to, id)
  }

  // ---- what a move keeps ----

  /// A file under `from` lands where the library said, under `to`.
  lemma LandsUnder(table: map<Uuid, Entry>, drive: Uuid, from: string, to: string, id: Uuid)
    requires Sound(table) && IsPath(from) && IsPath(to) && from != "" && id in Under(table, drive, from)
    requires Rebased(table[id].path, from, to).Some?
    ensures Moved(table[id].path, from, to) == Rebased(table[id].path, from, to).value
    ensures IsPath(Moved(table[id].path, from, to)) && UnderPrefix(Moved(table[id].path, from, to), to)
  {
    var path := table[id].path;
    StoreMovesAsRebased(path, from, to);
    RebasedMovesSegments(path, from, to);
    RestSegments(path, from);
    RestOfLanded(to, Rest(path, from));
    StorePrefixIsWithin(Moved(path, from, to), to);
  }

  /// Two moving files, or a moving and a staying one, do not meet.
  lemma NoTwoMeet(table: map<Uuid, Entry>, drive: Uuid, from: string, to: string, a: Uuid, b: Uuid)
    requires Sound(table) && IsPath(from) && IsPath(to) && from != "" && Accepts(table, drive, from, to)
    requires a in Under(table, drive, from) && b in table && a != b
    ensures var after := MovedTable(table, Under(table, drive, from), from, to); after[a] != after[b]
  {
    var ids := Under(table, drive, from);
    var after := MovedTable(table, ids, from, to);
    assert !Fails(table, drive, from, to, a);
    LandsUnder(table, drive, from, to, a);
    if b in ids {
      assert !Fails(table, drive, from, to, b);
      LandsUnder(table, drive, from, to, b);
      if after[a] == after[b] {
        RebasedIsInjective(table[a].path, table[b].path, from, to);
      }
    } else {
      assert after[a] == after[b] ==> b in Under(table, drive, to) - ids;
    }
  }

  /// An accepted move keeps every path well-formed and every place unique, even
  /// when the old and the new positions of the moving files overlap.
  lemma AcceptedMoveIsSound(table: map<Uuid, Entry>, drive: Uuid, from: string, to: string)
    requires Sound(table) && IsPath(from) && IsPath(to) && from != "" && Accepts(table, drive, from, to)
    ensures Sound(MovedTable(table, Under(table, drive, from), from, to))
  {
    var ids := Under(table, drive, from);
    var after := MovedTable(table, ids, from, to);
    forall id | id in table
      ensures IsPath(after[id].path)
    {
      if id in ids {
        assert !Fails(table, drive, from, to, id);
        LandsUnder(table, drive, from, to, id);
      }
    }
    forall a, b | a in table && b in table && a != b
      ensures after[a] != after[b]
    {
      if a in ids {
        NoTwoMeet(table, drive, from, to, a, b);
      } else if b in ids {
        NoTwoMeet(table, drive, from, to, b, a);
      }
    }
  }

  /// A move is refused for its files only when it could not be sound: a path would
  /// grow too long, or two files would share a place.
  lemma RefusedMoveWouldClash(table: map<Uuid, Entry>, drive: Uuid, from: string, to: string, id: Uuid)
    requires Sound(table) && IsPath(from) && IsPath(to) && from != ""
    requires id in Under(table, drive, from) && Fails(table, drive, from, to, id)
    ensures IsWithin(table[id].path, from)
    ensures Bytes(Landed(to, Rest(table[id].path, from))) > MAX_PATH_BYTES
            || !Sound(MovedTable(table, Under(table, drive, from), from, to))
  {
    StorePrefixIsWithin(table[id].path, from);
    if Rebased(table[id].path, from, to).Some? {
      LandsUnder(table, drive, from, to, id);
      var after := MovedTable(table, Under(table, drive, from), from, to);
      var other :| other in Under(table, drive, to) - Under(table, drive, from)
                   && table[other].path == Rebased(table[id].path, from, to).value && table[other].name == table[id].name;
      assert after[other] == after[id];
    }
  }

  /// The places of the files under `to` that do not move themselves.
  function Occupied(table: map<Uuid, Entry>, drive: Uuid, from: string, to: string): set<(string, string)> {
    set id | id in Under(table, drive, to) && id !in Under(table, drive, from) :: (table[id].path, table[id].name)
  }

  lemma FailsOnOccupied(table: map<Uuid, Entry>, drive: Uuid, from: string, to: string, id: Uuid)
    requires id in Under(table, drive, from) && IsPath(from) && IsPath(to) && Sound(table)
    ensures var landing := Rebased(table[id].path, from, to);
            Fails(table, drive, from, to, id) <==>
              landing.None? || (landing.value, table[id].name) in Occupied(table, drive, from, to)
  {
  }

  // ---- the gesture ----

  class Drives {
    var drives: set<Uuid>
    var table: map<Uuid, Entry>

    constructor (drives: set<Uuid>, table: map<Uuid, Entry>)
      ensures this.drives == drives && this.table == table
    {
      this.drives, this.table := drives, table;
    }

    /// Whether a file of the folder stops its move, and why.
    method FirstFailure(drive: Uuid, from: string, to: string) returns (refused: Option<string>)
      requires IsPath(from) && IsPath(to) && Sound(table)
      ensures refused.None? <==> Accepts(table, drive, from, to)
      ensures refused.Some? ==>
                exists id ::
                  && id in Under(table, drive, from) && Fails(table, drive, from, to, id)
                  && refused == Some(if Rebased(table[id].path, from, to).None? then INVALID_PATH else NAME_TAKEN)
    {
      var files, occupied := Under(table, drive, from), Occupied(table, drive, from, to);
      var rest := files;
      while rest != {}
        invariant rest <= files
        invariant forall id :: id in files - rest ==> !Fails(table, drive, from, to, id)
      {
        var id :| id in rest;
        rest := rest - {id};
        FailsOnOccupied(table, drive, from, to, id);
        var landing := Rebased(table[id].path, from, to);
        if landing.None? {
          return Some(INVALID_PATH);
        }
        if (landing.value, table[id].name) in occupied {
          return Some(NAME_TAKEN);
        }
      }
      return None;
    }

    /// Moves a folder, or says why not; a refusal changes nothing.
    method MoveFolder(drive: Uuid, oldRaw: string, newRaw: string) returns (refused: Option<string>)
      requires Sound(table)
      modifies this`table
      ensures Sound(table)
      ensures refused.Some? ==> table == old(table)
      ensures Guard(old(table), drives, drive, oldRaw, newRaw).Some? ==> refused == Guard(old(table), drives, drive, oldRaw, newRaw)
      ensures Guard(old(table), drives, drive, oldRaw, newRaw).None? ==>
                var from, to := Parse(oldRaw).value, Parse(newRaw).value;
                && (refused.None? <==> Accepts(old(table), drive, from, to))
                && (refused.None? ==> table == MovedTable(old(table), Under(old(table), drive, from), from, to))
                && (refused.None? ==> MovesFiles(old(table), table, drive, from, to))
                && (refused.Some? ==>
                      exists id ::
                        && id in Under(old(table), drive, from) && Fails(old(table), drive, from, to, id)
                        && refused == Some(if Rebased(old(table)[id].path, from, to).None? then INVALID_PATH else NAME_TAKEN))
    {
      refused := Guard(table, drives, drive, oldRaw, newRaw);
      if refused.Some? {
        return;
      }
      var from, to := Parse(oldRaw).value, Parse(newRaw).value;
      refused := FirstFailure(drive, from, to);
      if refused.Some? {
        return;
      }
      AcceptedMoveIsSound(table, drive, from, to);
      MoveSays(table, drive, from, to);
      table := MovedTable(table, Under(table, drive, from), from, to);
    }
  }
}
