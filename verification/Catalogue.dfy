/// The copy of Jobs' runner-type catalogue, kept by a watch opened before a scan.
module Catalogue {
  import opened Common
  import opened Text

  const RUNNER_TYPE_PREFIX := "jobs.runner_type."
  const MAX_RUNNER_TYPE_BYTES: nat := 128
  /// The wire version the library speaks, Jobs' own constant.
  const WIRE_VERSION: nat

  datatype Lifecycle = Active | Deprecated

  /// A bucket's value: a runner-type entry, another JSON document, or no JSON at all.
  datatype Value = Entry(runnerType: string, lifecycle: Lifecycle, version: nat) | OtherJson(n: nat) | NotJson(n: nat)

  /// A put, or a delete (`None`).
  datatype Change = Change(key: string, value: Option<Value>)

  datatype Known = Known(lifecycle: Lifecycle, version: nat)

  function NameOf(key: string): Option<string> {
    if RUNNER_TYPE_PREFIX <= key then Some(key[|RUNNER_TYPE_PREFIX|..]) else None
  }

  /// The entry the copy trusts under `key`.
  function Parse(key: string, value: Value): Option<Value> {
    if NameOf(key).None? then None
    else
      var name := NameOf(key).value;
      if name == "" || Bytes(name) > MAX_RUNNER_TYPE_BYTES then None
      else if !value.Entry? || value.version != WIRE_VERSION || value.runnerType != name then None
      else Some(value)
  }

  /// What the copy should hold of a key's value.
  function Trusted(key: string, value: Option<Value>): Option<Known> {
    if value.Some? && Parse(key, value.value).Some? then Some(Known(value.value.lifecycle, value.value.version)) else None
  }

  /// The copy trusts a type's entry under its own key, at the version the library
  /// speaks, when its name is neither blank nor long; and copies its lifecycle.
  predicate Holds(known: Option<Known>, name: string, value: Option<Value>) {
    if && value.Some? && value.value.Entry? && value.value.runnerType == name && value.value.version == WIRE_VERSION
       && name != "" && Bytes(name) <= 128
    then known == Some(Known(value.value.lifecycle, WIRE_VERSION)) else known.None?
  }

  lemma TrustedSays(name: string, value: Option<Value>)
    ensures Holds(Trusted("jobs.runner_type." + name, value), name, value)
  {
    KeyOfName("jobs.runner_type." + name, name);
  }

  /// Only a key under the prefix has a name, the rest of it.
  lemma NameSays(key: string, name: string)
    ensures NameOf(key) == Some(name) <==> key == "jobs.runner_type." + name
    ensures NameOf(key).Some? <==> "jobs.runner_type." <= key
  {
    KeyOfName(key, name);
  }

  function Get(table: map<string, Known>, name: string): Option<Known> {
    if name in table then Some(table[name]) else None
  }

  // ---- the bucket ----

  /// The last change of `key`, if it was ever changed.
  function LastChange(history: seq<Change>, key: string): Option<Change> {
    if history == [] then None
    else if history[|history| - 1].key == key then Some(history[|history| - 1])
    else LastChange(history[..|history| - 1], key)
  }

  /// What the bucket holds under `key` once `history` happened.
  function ValueAt(history: seq<Change>, key: string): Option<Value> {
    var last := LastChange(history, key);
    if last.Some? then last.value.value else None
  }

  /// The bucket's parseable entries, as the copy should hold them.
  ghost predicate Mirrors(table: map<string, Known>, history: seq<Change>) {
    forall name :: Get(table, name) == Trusted(RUNNER_TYPE_PREFIX + name, ValueAt(history, RUNNER_TYPE_PREFIX + name))
  }

  /// A scan begun once `history[..open]` had happened: each key read at a moment
  /// of its own since, listed when it held JSON then.
  ghost predicate Scans(entries: seq<(string, Value)>, history: seq<Change>, open: nat)
    requires open <= |history|
  {
    && (forall i, j :: 0 <= i < j < |entries| ==> entries[i].0 != entries[j].0)
    && (forall i :: 0 <= i < |entries| ==>
          NameOf(entries[i].0).Some? && !entries[i].1.NotJson?
          && exists moment {:trigger history[..moment]} :: open <= moment <= |history| && ValueAt(history[..moment], entries[i].0) == Some(entries[i].1))
    && (forall key :: NameOf(key).Some? && !Listed(entries, key) ==>
          exists moment {:trigger history[..moment]} ::
            open <= moment <= |history|
            && var value := ValueAt(history[..moment], key); value.None? || value.value.NotJson?)
  }

  predicate Listed(entries: seq<(string, Value)>, key: string) {
    exists i :: 0 <= i < |entries| && entries[i].0 == key
  }

  lemma {:induction false} LastOfMore(first: seq<Change>, more: seq<Change>, key: string)
    ensures LastChange(first + more, key) == if LastChange(more, key).Some? then LastChange(more, key) else LastChange(first, key)
  {
    if more == [] {
      assert first + more == first;
    } else {
      assert (first + more)[..|first + more| - 1] == first + more[..|more| - 1];
      LastOfMore(first, more[..|more| - 1], key);
    }
  }

  // ---- the copy ----

  /// What one change does to the copy.
  function Applied(table: map<string, Known>, change: Change): map<string, Known> {
    if NameOf(change.key).None? then table
    else
      var name, known := NameOf(change.key).value, Trusted(change.key, change.value);
      if known.Some? then table[name := known.value] else table - {name}
  }

  function Drained(table: map<string, Known>, changes: seq<Change>): map<string, Known> {
    if changes == [] then table else Applied(Drained(table, changes[..|changes| - 1]), changes[|changes| - 1])
  }

  lemma KeyOfName(key: string, name: string)
    ensures NameOf(RUNNER_TYPE_PREFIX + name) == Some(name)
    ensures NameOf(key) == Some(name) ==> key == RUNNER_TYPE_PREFIX + name
  {
    assert (RUNNER_TYPE_PREFIX + name)[|RUNNER_TYPE_PREFIX|..] == name;
    if NameOf(key).Some? {
      assert key == key[..|RUNNER_TYPE_PREFIX|] + key[|RUNNER_TYPE_PREFIX|..];
    }
  }

  /// Once drained, a name reads as the last of the changes to it, if there is one.
  lemma {:induction false} DrainedReads(table: map<string, Known>, changes: seq<Change>, name: string)
    ensures var key := RUNNER_TYPE_PREFIX + name;
            Get(Drained(table, changes), name) ==
              if LastChange(changes, key).Some? then Trusted(key, LastChange(changes, key).value.value) else Get(table, name)
  {
    if changes != [] {
      KeyOfName(changes[|changes| - 1].key, name);
      DrainedReads(table, changes[..|changes| - 1], name);
    }
  }

  /// The table after the scan: what it listed, and nothing else.
  ghost predicate ScannedTable(table: map<string, Known>, entries: seq<(string, Value)>) {
    && (forall i :: 0 <= i < |entries| && NameOf(entries[i].0).Some? ==>
          Get(table, NameOf(entries[i].0).value) == Trusted(entries[i].0, Some(entries[i].1)))
    && (forall name :: !Listed(entries, RUNNER_TYPE_PREFIX + name) ==> Get(table, name).None?)
  }

  lemma NoChangeSince(history: seq<Change>, open: nat, moment: nat, key: string)
    requires open <= moment <= |history| && LastChange(history[open..], key).None?
    ensures ValueAt(history[..moment], key) == ValueAt(history, key)
  {
    var before, after, between := history[..moment], history[moment..], history[open..moment];
    assert history == before + after && history[open..] == between + after;
    LastOfMore(before, after, key);
    LastOfMore(between, after, key);
  }

  /// The copy converges: with the watch opened before the scan, each key scanned
  /// at any later moment, and the changes since the opening delivered in order,
  /// the drained copy holds exactly the bucket's parseable entries, whatever it
  /// held before.
  lemma DrainedCopyMirrors(scanned: map<string, Known>, entries: seq<(string, Value)>, history: seq<Change>, open: nat)
    requires open <= |history| && Scans(entries, history, open) && ScannedTable(scanned, entries)
    ensures Mirrors(Drained(scanned, history[open..]), history)
  {
    forall name
      ensures Get(Drained(scanned, history[open..]), name)
              == Trusted(RUNNER_TYPE_PREFIX + name, ValueAt(history, RUNNER_TYPE_PREFIX + name))
    {
      var key := RUNNER_TYPE_PREFIX + name;
      KeyOfName(key, name);
      DrainedReads(scanned, history[open..], name);
      if LastChange(history[open..], key).Some? {
        LastOfMore(history[..open], history[open..], key);
        assert history[..open] + history[open..] == history;
      } else if Listed(entries, key) {
        var i :| 0 <= i < |entries| && entries[i].0 == key;
        var moment :| open <= moment <= |history| && ValueAt(history[..moment], key) == Some(entries[i].1);
        NoChangeSince(history, open, moment, key);
      } else {
        var moment :| open <= moment <= |history| && (ValueAt(history[..moment], key).None? || ValueAt(history[..moment], key).value.NotJson?);
        NoChangeSince(history, open, moment, key);
      }
    }
  }

  /// The copy in the library's own table.
  class Copy {
    var table: map<string, Known>

    constructor (table: map<string, Known>)
      ensures this.table == table
    {
      this.table := table;
    }

    method Upsert(name: string, known: Known)
      modifies this
      ensures table == old(table)[name := known]
    {
      table := table[name := known];
    }

    method Forget(name: string)
      modifies this
      ensures table == old(table) - {name}
    {
      table := table - {name};
    }

    /// Removes every type not named.
    method Retain(names: seq<string>)
      modifies this
      ensures table == map name | name in old(table) && name in names :: old(table)[name]
    {
      table := map name | name in table && name in names :: table[name];
    }

    method ApplyPut(key: string, value: Value) returns (name: Option<string>)
      modifies this
      ensures table == Applied(old(table), Change(key, Some(value)))
      ensures name == if Parse(key, value).Some? then NameOf(key) else None
    {
      if Parse(key, value).Some? {
        Upsert(value.runnerType, Known(value.lifecycle, value.version));
        return Some(value.runnerType);
      }
      if NameOf(key).Some? {
        Forget(NameOf(key).value);
      }
      return None;
    }

    /// Applies the scan, and keeps nothing else.
    method ApplyScan(entries: seq<(string, Value)>)
      requires forall i, j :: 0 <= i < j < |entries| ==> entries[i].0 != entries[j].0
      requires forall i :: 0 <= i < |entries| ==> NameOf(entries[i].0).Some?
      modifies this
      ensures ScannedTable(table, entries)
    {
      var present := [];
      for n := 0 to |entries|
        invariant forall i :: 0 <= i < n ==>
                    Get(table, NameOf(entries[i].0).value) == Trusted(entries[i].0, Some(entries[i].1))
        invariant forall i :: 0 <= i < n ==>
                    (Trusted(entries[i].0, Some(entries[i].1)).Some? ==> NameOf(entries[i].0).value in present)
        invariant forall name :: name in present ==> Listed(entries, RUNNER_TYPE_PREFIX + name)
      {
        var (key, value) := entries[n];
        forall i | 0 <= i < n
          ensures NameOf(entries[i].0) != NameOf(key)
        {
          KeyOfName(entries[i].0, NameOf(entries[i].0).value);
          KeyOfName(key, NameOf(key).value);
        }
        KeyOfName(key, NameOf(key).value);
        var name := ApplyPut(key, value);
        if name.Some? {
          present := present + [name.value];
        }
      }
      Retain(present);
    }

    /// One change of the watch applied.
    method ApplyChange(change: Change)
      modifies this
      ensures table == Applied(old(table), change)
    {
      if change.value.Some? {
        if change.value.value.NotJson? {
          if NameOf(change.key).Some? {
            Forget(NameOf(change.key).value);
          }
        } else {
          var _ := ApplyPut(change.key, change.value.value);
        }
      } else if NameOf(change.key).Some? {
        Forget(NameOf(change.key).value);
      }
    }

    /// One attempt: the scan applied, then the watch drained.
    method SyncOnce(entries: seq<(string, Value)>, ghost history: seq<Change>, ghost open: nat, delivered: seq<Change>)
      requires open <= |history| && Scans(entries, history, open) && delivered == history[open..]
      modifies this
      ensures Mirrors(table, history)
      ensures forall name :: Holds(Get(table, name), name, ValueAt(history, "jobs.runner_type." + name))
    {
      ApplyScan(entries);
      ghost var scanned := table;
      for n := 0 to |delivered|
        invariant table == Drained(scanned, delivered[..n])
      {
        assert delivered[..n + 1][..n] == delivered[..n];
        ApplyChange(delivered[n]);
      }
      assert delivered[..|delivered|] == delivered;
      DrainedCopyMirrors(scanned, entries, history, open);
      forall name
        ensures Holds(Get(table, name), name, ValueAt(history, "jobs.runner_type." + name))
      {
        TrustedSays(name, ValueAt(history, "jobs.runner_type." + name));
      }
    }
  }
}
