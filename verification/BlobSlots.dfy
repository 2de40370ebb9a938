/// The objects of a file's images and renditions: one current, at most one
/// replacement in flight, every other reference released.
module BlobSlots {
  import opened Common
  import N = ImageNames

  /// A stored object: its reference, and what the row says of it (media type,
  /// size, digest, a rendition's kind).
  datatype Blob = Blob(reference: Uuid, about: nat)

  datatype Landing = First | Swapped | NotAwaited

  /// The blob part of an image's or a rendition's record.
  datatype Slot = Slot(current: Blob, landedAt: Option<Instant>, pending: Option<Blob>, requestedAt: Instant) {
    predicate AwaitsUpload() {
      pending.Some? || landedAt.None?
    }

    /// An upload of this name is still in flight inside `window`.
    predicate IsLanding(now: Instant, window: nat) {
      AwaitsUpload() && requestedAt + window > now
    }
  }

  function New(blob: Blob, at: Instant): Slot {
    Slot(blob, None, None, at)
  }

  /// The slot once `blob` is requested for it, and the references it drops.
  function Requested(slot: Slot, blob: Blob, at: Instant): (Slot, seq<Uuid>) {
    var stale := if slot.pending.Some? then [slot.pending.value.reference] else [];
    if slot.landedAt.None? then (Slot(blob, None, None, at), stale + [slot.current.reference])
    else (Slot(slot.current, slot.landedAt, Some(blob), at), stale)
  }

  /// The slot once the object `reference` landed.
  function Landed(slot: Slot, reference: Uuid, at: Instant): (Slot, Landing) {
    if slot.pending.Some? && slot.pending.value.reference == reference
    then (Slot(slot.pending.value, Some(at), None, slot.requestedAt), Swapped)
    else if slot.current.reference == reference && slot.landedAt.None?
    then (slot.(landedAt := Some(at)), First)
    else (slot, NotAwaited)
  }

  /// An image's or a rendition's record.
  class Record {
    var current: Blob
    var landedAt: Option<Instant>
    var pending: Option<Blob>
    var requestedAt: Instant

    function Value(): Slot
      reads this
    {
      Slot(current, landedAt, pending, requestedAt)
    }

    constructor (slot: Slot)
      ensures Value() == slot
    {
      current, landedAt, pending, requestedAt := slot.current, slot.landedAt, slot.pending, slot.requestedAt;
    }

    method RequestReplacement(blob: Blob, at: Instant) returns (released: seq<Uuid>)
      modifies this
      ensures (Value(), released) == Requested(old(Value()), blob, at)
    {
      released := [];
      if pending.Some? {
        released := [pending.value.reference];
        pending := None;
      }
      if landedAt.None? {
        released := released + [current.reference];
        assert old(pending).None? ==> released == [old(current).reference];
        current := blob;
      } else {
        pending := Some(blob);
      }
      requestedAt := at;
    }

    method Land(reference: Uuid, at: Instant) returns (landing: Landing)
      modifies this
      ensures (Value(), landing) == Landed(old(Value()), reference, at)
    {
      if pending.Some? && pending.value.reference == reference {
        current, pending := pending.value, None;
        landedAt := Some(at);
        return Swapped;
      }
      if current.reference == reference && landedAt.None? {
        landedAt := Some(at);
        return First;
      }
      return NotAwaited;
    }
  }

  // ---- the shelf: every record of every file ----

  datatype Key = OfSource(file: Uuid) | OfImage(file: Uuid, name: string) | OfRendition(file: Uuid, name: string)

  /// The records, the references ever issued, and those released, in order.
  datatype Shelf = Shelf(slots: map<Key, Slot>, issued: set<Uuid>, released: seq<Uuid>)

  datatype Action =
    | Request(key: Key, blob: Blob, now: Instant, window: nat)
    | Land(key: Key, reference: Uuid, at: Instant)
    | Remove(keys: seq<Key>)

  /// An image's record has an image's name.
  predicate Named(key: Key) {
    key.OfImage? ==> N.PageOf(key.name).Some?
  }

  /// A request is refused while an upload of the name is in flight; a source is
  /// only ever requested with its file. Every issued reference is a new one.
  predicate Enabled(s: Shelf, a: Action) {
    match a
    case Request(key, blob, now, window) =>
      && blob.reference !in s.issued && Named(key)
      && (key in s.slots ==> !key.OfSource? && !s.slots[key].IsLanding(now, window))
    case Land(_, _, _) => true
    case Remove(_) => true
  }

  function References(slot: Slot): seq<Uuid> {
    [slot.current.reference] + if slot.pending.Some? then [slot.pending.value.reference] else []
  }

  /// A landing message, replayed or not: a swap releases what was current.
  function OnLanded(s: Shelf, key: Key, reference: Uuid, at: Instant): Shelf {
    if key !in s.slots then s
    else
      var (slot, landing) := Landed(s.slots[key], reference, at);
      match landing
      case NotAwaited => s
      case First => s.(slots := s.slots[key := slot])
      case Swapped => s.(slots := s.slots[key := slot], released := s.released + [s.slots[key].current.reference])
  }

  function OnRequested(s: Shelf, key: Key, blob: Blob, at: Instant): Shelf {
    var issued := s.issued + {blob.reference};
    if key !in s.slots then Shelf(s.slots[key := New(blob, at)], issued, s.released)
    else
      var (slot, dropped) := Requested(s.slots[key], blob, at);
      Shelf(s.slots[key := slot], issued, s.released + dropped)
  }

  function Removed(s: Shelf, key: Key): Shelf {
    if key !in s.slots then s
    else Shelf(s.slots - {key}, s.issued, s.released + References(s.slots[key]))
  }

  /// Records removed: images dropped, or all of a deleted file's.
  function RemovedAll(s: Shelf, keys: seq<Key>): Shelf {
    if keys == [] then s else Removed(RemovedAll(s, keys[..|keys| - 1]), keys[|keys| - 1])
  }

  function After(s: Shelf, a: Action): Shelf {
    match a
    case Request(key, blob, now, _) => OnRequested(s, key, blob, now)
    case Land(key, reference, at) => OnLanded(s, key, reference, at)
    case Remove(keys) => RemovedAll(s, keys)
  }

  // ---- conservation ----

  datatype Place = Current(key: Key) | Pending(key: Key) | Freed(index: nat)

  /// Where a reference is.
  predicate At(s: Shelf, reference: Uuid, place: Place) {
    match place
    case Current(key) => key in s.slots && s.slots[key].current.reference == reference
    case Pending(key) => key in s.slots && s.slots[key].pending.Some? && s.slots[key].pending.value.reference == reference
    case Freed(index) => index < |s.released| && s.released[index] == reference
  }

  /// Each issued reference is at exactly one place, and nothing else is anywhere.
  ghost predicate Conserved(s: Shelf) {
    && (forall reference, place :: At(s, reference, place) ==> reference in s.issued)
    && (forall reference :: reference in s.issued ==> exists place :: At(s, reference, place))
    && (forall reference, place, other :: At(s, reference, place) && At(s, reference, other) ==> place == other)
  }

  /// A replacement is in flight only over a landed object.
  ghost predicate OverLanded(s: Shelf) {
    forall key :: key in s.slots && s.slots[key].pending.Some? ==> s.slots[key].landedAt.Some?
  }

  ghost predicate Canonical(s: Shelf) {
    forall key :: key in s.slots ==> Named(key)
  }

  lemma RemovedStaysCanonical(s: Shelf, keys: seq<Key>)
    requires Canonical(s)
    ensures Canonical(RemovedAll(s, keys))
  {
    forall key | key in RemovedAll(s, keys).slots
      ensures Named(key)
    {
      RemovedAllLeaves(s, keys, key);
    }
  }

  ghost predicate Kept(s: Shelf) {
    Conserved(s) && OverLanded(s) && Canonical(s)
  }

  /// A step that brings every reference from one place, and one new reference home,
  /// conserves them.
  lemma Traced(s: Shelf, t: Shelf, added: set<Uuid>, origin: map<Place, Place>)
    requires Conserved(s) && t.issued == s.issued + added && added !! s.issued
    requires forall reference, place :: At(t, reference, place) && place in origin ==> At(s, reference, origin[place])
    requires forall reference, place :: At(t, reference, place) && place !in origin ==> At(s, reference, place) || reference in added
    requires forall reference, p, q :: reference in added && At(t, reference, p) && At(t, reference, q) ==> p == q
    requires forall p :: p in origin ==> origin[p] in origin || forall reference :: At(t, reference, origin[p]) ==> reference in added
    requires forall p, q :: p in origin && q in origin && origin[p] == origin[q] ==> p == q
    requires forall reference :: reference in t.issued ==> exists place :: At(t, reference, place)
    ensures Conserved(t)
  {
    forall reference, p, q | At(t, reference, p) && At(t, reference, q)
      ensures p == q
    {
      if reference in s.issued {
        var before, beforeToo := if p in origin then origin[p] else p, if q in origin then origin[q] else q;
        assert At(s, reference, before) && At(s, reference, beforeToo);
      }
    }
  }

  /// The place of a reference just requested, and no other.
  function Home(s: Shelf, key: Key): Place {
    if key in s.slots && s.slots[key].landedAt.Some? then Pending(key) else Current(key)
  }

  lemma RequestedIsHome(s: Shelf, key: Key, blob: Blob, at: Instant, place: Place)
    requires Kept(s) && blob.reference !in s.issued
    ensures At(OnRequested(s, key, blob, at), blob.reference, place) <==> place == Home(s, key)
  {
    assert !At(s, blob.reference, place) && !At(s, blob.reference, Current(key)) && !At(s, blob.reference, Pending(key));
  }

  lemma RequestLoses(s: Shelf, key: Key, blob: Blob, at: Instant, reference: Uuid)
    requires Kept(s) && reference in s.issued && blob.reference !in s.issued
    ensures exists place :: At(OnRequested(s, key, blob, at), reference, place)
  {
    var t, n := OnRequested(s, key, blob, at), |s.released|;
    var place :| At(s, reference, place);
    assert At(t, reference, place) || At(t, reference, Freed(n));
  }

  lemma RequestKeeps(s: Shelf, key: Key, blob: Blob, at: Instant)
    requires Kept(s) && blob.reference !in s.issued && Named(key)
    ensures Kept(OnRequested(s, key, blob, at))
  {
    var t, n, home := OnRequested(s, key, blob, at), |s.released|, Home(s, key);
    RequestedIsHome(s, key, blob, at, home);
    forall place | At(t, blob.reference, place)
      ensures place == home
    {
      RequestedIsHome(s, key, blob, at, place);
    }
    forall reference | reference in s.issued
      ensures exists place :: At(t, reference, place)
    {
      RequestLoses(s, key, blob, at, reference);
    }
    Traced(s, t, {blob.reference}, if key in s.slots && n < |t.released| then map[Freed(n) := home] else map[]);
  }

  lemma LandLoses(s: Shelf, key: Key, reference: Uuid, at: Instant, other: Uuid)
    requires Kept(s) && other in s.issued
    ensures exists place :: At(OnLanded(s, key, reference, at), other, place)
  {
    var t, n := OnLanded(s, key, reference, at), |s.released|;
    var place :| At(s, other, place);
    assert At(t, other, place) || At(t, other, Freed(n)) || At(t, other, Current(key));
  }

  lemma LandKeeps(s: Shelf, key: Key, reference: Uuid, at: Instant)
    requires Kept(s)
    ensures Kept(OnLanded(s, key, reference, at))
  {
    var t, n := OnLanded(s, key, reference, at), |s.released|;
    forall other | other in s.issued
      ensures exists place :: At(t, other, place)
    {
      LandLoses(s, key, reference, at, other);
    }
    Traced(s, t, {}, if n < |t.released| then map[Freed(n) := Current(key), Current(key) := Pending(key)] else map[]);
  }

  lemma RemoveLoses(s: Shelf, key: Key, other: Uuid)
    requires Kept(s) && other in s.issued
    ensures exists place :: At(Removed(s, key), other, place)
  {
    var t, n := Removed(s, key), |s.released|;
    var place :| At(s, other, place);
    assert At(t, other, place) || At(t, other, Freed(n)) || At(t, other, Freed(n + 1));
  }

  lemma RemoveKeeps(s: Shelf, key: Key)
    requires Kept(s)
    ensures Kept(Removed(s, key))
  {
    var t, n := Removed(s, key), |s.released|;
    forall other | other in s.issued
      ensures exists place :: At(t, other, place)
    {
      RemoveLoses(s, key, other);
    }
    Traced(s, t, {}, if n < |t.released| then map[Freed(n) := Current(key), Freed(n + 1) := Pending(key)] else map[]);
  }

  lemma {:induction false} RemoveAllKeeps(s: Shelf, keys: seq<Key>)
    requires Kept(s)
    ensures Kept(RemovedAll(s, keys))
  {
    if keys != [] {
      RemoveAllKeeps(s, keys[..|keys| - 1]);
      RemoveKeeps(RemovedAll(s, keys[..|keys| - 1]), keys[|keys| - 1]);
    }
  }

  lemma StepKeeps(s: Shelf, a: Action)
    requires Kept(s) && Enabled(s, a)
    ensures Kept(After(s, a))
  {
    match a
    case Request(key, blob, now, _) => RequestKeeps(s, key, blob, now);
    case Land(key, reference, at) => LandKeeps(s, key, reference, at);
    case Remove(keys) => RemoveAllKeeps(s, keys);
  }

  ghost predicate Runs(s: Shelf, actions: seq<Action>)
    decreases |actions|
  {
    actions != [] ==> Enabled(s, actions[0]) && Runs(After(s, actions[0]), actions[1..])
  }

  ghost function Final(s: Shelf, actions: seq<Action>): Shelf
    requires Runs(s, actions)
    decreases |actions|
  {
    if actions == [] then s else Final(After(s, actions[0]), actions[1..])
  }

  /// Over every run of requests, landings, replays, drops and deletions, each
  /// reference issued is current, pending, or was released once, and only one of
  /// these; a replacement is pending only over a landed object, and every image has
  /// an image's name.
  lemma {:induction false} ReferencesAreConserved(s: Shelf, actions: seq<Action>)
    requires Kept(s) && Runs(s, actions)
    ensures Conserved(Final(s, actions)) && OverLanded(Final(s, actions)) && Canonical(Final(s, actions))
    decreases |actions|
  {
    if actions != [] {
      StepKeeps(s, actions[0]);
      ReferencesAreConserved(After(s, actions[0]), actions[1..]);
    }
  }

  lemma EmptyShelfIsKept()
    ensures Kept(Shelf(map[], {}, []))
  {
  }

  // ---- a landed object stays until its replacement lands ----

  lemma {:induction false} RemovedAllLeaves(s: Shelf, keys: seq<Key>, key: Key)
    ensures var t := RemovedAll(s, keys);
            && s.released <= t.released
            && (key in t.slots <==> key in s.slots && key !in keys)
            && (key in t.slots ==> t.slots[key] == s.slots[key])
            && (key in s.slots && key in keys ==>
                  s.slots[key].current.reference in t.released
                  && (s.slots[key].pending.Some? ==> s.slots[key].pending.value.reference in t.released))
  {
    if keys != [] {
      var first, last := keys[..|keys| - 1], keys[|keys| - 1];
      assert keys == first + [last];
      RemovedAllLeaves(s, first, key);
    }
  }

  /// Nothing else is released than what the removed records refer to.
  lemma {:induction false} RemovedAllReleases(s: Shelf, keys: seq<Key>, i: nat)
    requires |s.released| <= i < |RemovedAll(s, keys).released|
    ensures exists key :: key in keys && key in s.slots && RemovedAll(s, keys).released[i] in References(s.slots[key])
  {
    if keys != [] {
      var first, last := keys[..|keys| - 1], keys[|keys| - 1];
      var t := RemovedAll(s, first);
      RemovedAllLeaves(s, first, last);
      if i < |t.released| {
        RemovedAllReleases(s, first, i);
      } else {
        assert last in keys && last in s.slots;
      }
    }
  }

  /// A landed object stops being current only when the replacement requested for
  /// it lands, or its record is removed; it is then released.
  lemma LandedStaysCurrent(s: Shelf, a: Action, key: Key)
    requires Enabled(s, a) && key in s.slots && s.slots[key].landedAt.Some?
    ensures var t, landed := After(s, a), s.slots[key].current;
            || (key in t.slots && t.slots[key].current == landed && t.slots[key].landedAt.Some?)
            || (&& landed.reference in t.released
                && if a.Land? then a.key == key && s.slots[key].pending.Some? && a.reference == s.slots[key].pending.value.reference
                                   && key in t.slots && t.slots[key].current == s.slots[key].pending.value
                   else a.Remove? && key in a.keys && key !in t.slots)
  {
    if a.Remove? {
      RemovedAllLeaves(s, a.keys, key);
    }
  }

  // ---- what a request and a landing do, field by field ----

  /// The object `reference` landed under `key`: the awaited replacement takes the
  /// current one's place, which is released; a first object is landed; any other
  /// landing changes nothing.
  predicate LandedOn(s: Shelf, t: Shelf, key: Key, reference: Uuid, now: Instant) {
    if key in s.slots && s.slots[key].pending.Some? && s.slots[key].pending.value.reference == reference then
      && t.slots == s.slots[key := Slot(s.slots[key].pending.value, Some(now), None, s.slots[key].requestedAt)]
      && t.released == s.released + [s.slots[key].current.reference] && t.issued == s.issued
    else if key in s.slots && s.slots[key].current.reference == reference && s.slots[key].landedAt.None? then
      && t.slots == s.slots[key := Slot(s.slots[key].current, Some(now), s.slots[key].pending, s.slots[key].requestedAt)]
      && t.released == s.released && t.issued == s.issued
    else t == s
  }

  lemma LandingSays(s: Shelf, key: Key, reference: Uuid, now: Instant)
    ensures LandedOn(s, After(s, Land(key, reference, now)), key, reference, now)
  {
  }

  /// An upload of the name is in flight: asked within the window, and not landed yet.
  predicate InFlight(s: Shelf, key: Key, now: Instant, window: nat) {
    && key in s.slots && (s.slots[key].pending.Some? || s.slots[key].landedAt.None?)
    && s.slots[key].requestedAt + window > now
  }

  /// `blob` requested under `key`: a new name has it as its object, not landed; over a
  /// landed object it waits, in the place of what waited; a first object never landed
  /// is replaced. What loses its place is released.
  predicate RequestedOn(s: Shelf, t: Shelf, key: Key, blob: Blob, now: Instant) {
    && t.issued == s.issued + {blob.reference}
    && if key !in s.slots then t.slots == s.slots[key := Slot(blob, None, None, now)] && t.released == s.released
       else
         var slot := s.slots[key];
         var waited := if slot.pending.Some? then [slot.pending.value.reference] else [];
         if slot.landedAt.Some? then
           t.slots == s.slots[key := Slot(slot.current, slot.landedAt, Some(blob), now)] && t.released == s.released + waited
         else
           && t.slots == s.slots[key := Slot(blob, None, None, now)]
           && t.released == s.released + waited + [slot.current.reference]
  }

  lemma RequestSays(s: Shelf, key: Key, blob: Blob, now: Instant, window: nat)
    ensures RequestedOn(s, After(s, Request(key, blob, now, window)), key, blob, now)
    ensures blob.reference !in s.issued && !key.OfSource? && (key.OfImage? ==> N.PageOf(key.name).Some?) ==>
              (Enabled(s, Request(key, blob, now, window)) <==> !InFlight(s, key, now, window))
  {
    if key in s.slots && s.slots[key].landedAt.None? {
      var slot := s.slots[key];
      var waited := if slot.pending.Some? then [slot.pending.value.reference] else [];
      ConcatInOne(s.released, waited, [slot.current.reference]);
    }
  }

  /// From an empty shelf, an object is requested and lands; another is requested
  /// over it and lands in its place, the first one released; then the record goes.
  lemma ARunLandsAndSwaps(key: Key, one: Blob, two: Blob, window: nat, asked: Instant, landed: Instant, again: Instant,
                          swapped: Instant)
    requires !key.OfSource? && Named(key) && one.reference != two.reference
    ensures var empty := Shelf(map[], {}, []);
            var first := [Request(key, one, asked, window), Land(key, one.reference, landed)];
            var second := [Request(key, two, again, window), Land(key, two.reference, swapped)];
            && Runs(empty, first) && Final(empty, first) == Shelf(map[key := Slot(one, Some(landed), None, asked)], {one.reference}, [])
            && Runs(Final(empty, first), second)
            && Final(Final(empty, first), second) ==
                 Shelf(map[key := Slot(two, Some(swapped), None, again)], {one.reference, two.reference}, [one.reference])
            && Runs(Final(Final(empty, first), second), [Remove([key])])
            && Final(Final(Final(empty, first), second), [Remove([key])]) ==
                 Shelf(map[], {one.reference, two.reference}, [one.reference, two.reference])
  {
    var empty := Shelf(map[], {}, []);
    var a, b := Request(key, one, asked, window), Land(key, one.reference, landed);
    var c, d := Request(key, two, again, window), Land(key, two.reference, swapped);
    TwoActions(empty, a, b);
    var s := Shelf(map[key := Slot(one, Some(landed), None, asked)], {one.reference}, []);
    assert After(After(empty, a), b) == s;
    TwoActions(s, c, d);
    Goes(Final(s, [c, d]), key);
  }

  lemma Goes(s: Shelf, key: Key)
    requires key in s.slots && s.slots[key].pending.None?
    ensures Runs(s, [Remove([key])])
    ensures Final(s, [Remove([key])]) == Shelf(s.slots - {key}, s.issued, s.released + [s.slots[key].current.reference])
  {
    assert [key][..0] == [] && [Remove([key])][1..] == [];
    assert RemovedAll(s, []) == s;
  }

  lemma TwoActions(s: Shelf, a: Action, b: Action)
    requires Enabled(s, a) && Enabled(After(s, a), b)
    ensures Runs(s, [a, b]) && Final(s, [a, b]) == After(After(s, a), b)
  {
    assert [a, b][1..] == [b] && [b][1..] == [];
    assert Runs(After(s, a), [b]) && Final(After(s, a), [b]) == After(After(s, a), b);
  }

  // ---- the store ----

  /// The record tables, and the engine's releases.
  class Store {
    var shelf: Shelf

    constructor ()
      ensures Kept(shelf) && shelf.slots == map[]
    {
      shelf := Shelf(map[], {}, []);
      EmptyShelfIsKept();
    }

    /// Stages an upload: a new record, or the replacement of the one the name has.
    method Stage(key: Key, blob: Blob, now: Instant, window: nat) returns (staged: bool)
      requires blob.reference !in shelf.issued && !key.OfSource? && Named(key)
      modifies this
      ensures staged <==> Enabled(old(shelf), Request(key, blob, now, window))
      ensures shelf == if staged then After(old(shelf), Request(key, blob, now, window)) else old(shelf)
      ensures staged <==> !InFlight(old(shelf), key, now, window)
      ensures staged ==> RequestedOn(old(shelf), shelf, key, blob, now)
    {
      RequestSays(shelf, key, blob, now, window);
      if key in shelf.slots && shelf.slots[key].IsLanding(now, window) {
        return false;
      }
      if key in shelf.slots {
        var record := new Record(shelf.slots[key]);
        var dropped := record.RequestReplacement(blob, now);
        shelf := Shelf(shelf.slots[key := record.Value()], shelf.issued + {blob.reference}, shelf.released + dropped);
      } else {
        shelf := Shelf(shelf.slots[key := New(blob, now)], shelf.issued + {blob.reference}, shelf.released);
      }
      return true;
    }

    /// The reaction to a landing message.
    method OnLanding(key: Key, reference: Uuid, now: Instant)
      modifies this
      ensures shelf == After(old(shelf), Land(key, reference, now))
      ensures LandedOn(old(shelf), shelf, key, reference, now)
    {
      LandingSays(shelf, key, reference, now);
      if key in shelf.slots {
        var record := new Record(shelf.slots[key]);
        var previous := record.current.reference;
        var landing := record.Land(reference, now);
        if landing != NotAwaited {
          shelf := shelf.(slots := shelf.slots[key := record.Value()]);
          if landing == Swapped {
            shelf := shelf.(released := shelf.released + [previous]);
          }
        }
      }
    }

    /// Drops the records `keys` and releases all they refer to.
    method Drop(keys: seq<Key>)
      modifies this
      ensures shelf == After(old(shelf), Remove(keys))
    {
      for i := 0 to |keys|
        invariant shelf == RemovedAll(old(shelf), keys[..i])
      {
        assert keys[..i + 1][..i] == keys[..i];
        if keys[i] in shelf.slots {
          shelf := Shelf(shelf.slots - {keys[i]}, shelf.issued, shelf.released + References(shelf.slots[keys[i]]));
        }
      }
      assert keys[..|keys|] == keys;
    }

    /// Deletes a file: its source, its images and its renditions go.
    method DeleteFile(file: Uuid) returns (keys: seq<Key>)
      modifies this
      ensures forall key :: key in keys <==> key in old(shelf.slots) && key.file == file
      ensures shelf == After(old(shelf), Remove(keys))
    {
      keys := [];
      var rest := set key | key in shelf.slots && key.file == file;
      ghost var all := rest;
      while rest != {}
        invariant rest <= all
        invariant forall key :: key in keys <==> key in all - rest
      {
        var key :| key in rest;
        rest := rest - {key};
        keys := keys + [key];
      }
      Drop(keys);
    }
  }
}
