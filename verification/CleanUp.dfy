/// The end of a chain: the pages past the count go, and the images no page
/// references any more.
module CleanUp {
  import opened Common
  import opened Transaction
  import L = FactLog
  import B = BlobSlots
  import N = ImageNames
  import R = ImageReferences

  /// A page of `file` references the image `name`, as the scan finds it.
  predicate Referenced(pages: map<L.Key, Page>, file: Uuid, name: string) {
    exists key :: key in pages && key.OfPage? && key.file == file && R.References(pages[key].markdown, name)
  }

  /// A page of `file` holds `name` somewhere on its own.
  ghost predicate Mentioned(pages: map<L.Key, Page>, file: Uuid, name: string) {
    exists key, i :: key in pages && key.OfPage? && key.file == file && R.Mentions(pages[key].markdown, name, i)
  }

  /// For an image's name the two are one.
  lemma ReferencedIsMentioned(pages: map<L.Key, Page>, file: Uuid, name: string)
    requires N.PageOf(name).Some?
    ensures Referenced(pages, file, name) <==> Mentioned(pages, file, name)
  {
    R.ImageNamesQualify(name);
    forall key | key in pages
      ensures R.References(pages[key].markdown, name) <==> exists i :: R.Mentions(pages[key].markdown, name, i)
    {
      R.ScanIsExact(pages[key].markdown, name);
    }
  }

  /// The pages table and its versions are one, and an image's record has an image's name.
  ghost predicate WellStored(cx: Ops)
    reads cx, cx.tables, cx.blobs
  {
    && (forall key: L.Key :: key.OfPage? ==> (key in cx.pages <==> key in cx.tables.log.versions))
    && B.Canonical(cx.blobs.shelf)
  }

  /// The file in hand is the stored one, nothing of it pending.
  ghost predicate Loaded(cx: Ops, file: FileRow)
    reads cx, cx.tables, file
  {
    && file.pending == [] && file.version == L.Stored(cx.tables.log, L.OfFile(file.id))
    && file.id in cx.plans && cx.plans[file.id] == file.steps.GetOr([])
  }

  function ImageKeys(file: Uuid, names: seq<string>): seq<B.Key> {
    seq(|names|, i requires 0 <= i < |names| => B.OfImage(file, names[i]))
  }

  /// The file's images no page references.
  method UnreferencedImages(cx: Ops, file: Uuid) returns (names: seq<string>)
    ensures Distinct(names)
    ensures forall name :: name in names <==> B.OfImage(file, name) in cx.blobs.shelf.slots && !Referenced(cx.pages, file, name)
  {
    names := [];
    var images := set key | key in cx.blobs.shelf.slots && key.OfImage? && key.file == file :: key.name;
    var rest := images;
    while rest != {}
      invariant rest <= images && Distinct(names)
      invariant forall name :: name in names <==> name in images - rest && !Referenced(cx.pages, file, name)
    {
      var name :| name in rest;
      rest := rest - {name};
      if !Referenced(cx.pages, file, name) {
        names := names + [name];
      }
    }
  }

  /// The rows and the facts once the pages `trimmed` of a file are gone.
  function Trimmed(log: L.Log, file: Uuid, trimmed: seq<int>): L.Log {
    L.Written(log, L.Bulks(L.Pages(file, trimmed), L.PageTrimmed))
  }

  /// ... and once the images `dropped` are.
  function Dropped(log: L.Log, file: Uuid, dropped: seq<string>): L.Log {
    if dropped == [] then log else L.Written(log, L.Saves(L.OfFile(file), [L.FileSays(L.ImagesDropped(dropped))]))
  }

  /// A page trimmed says so, once; the images dropped are told on the file, if any.
  lemma CleanUpSays(log: L.Log, file: Uuid, trimmed: seq<int>, dropped: seq<string>)
    ensures Trimmed(log, file, trimmed).facts ==
              log.facts + seq(|trimmed|, i requires 0 <= i < |trimmed| =>
                L.Fact(L.OfPage(file, trimmed[i]), L.Stored(log, L.OfPage(file, trimmed[i])) + 1, L.PageTrimmed))
    ensures Dropped(log, file, dropped).facts ==
              log.facts + if |dropped| == 0 then []
                          else [L.Fact(L.OfFile(file), L.Stored(log, L.OfFile(file)) + 1, L.FileSays(L.ImagesDropped(dropped)))]
  {
  }

  lemma NothingTrimmed(log: L.Log, file: Uuid)
    ensures Trimmed(log, file, []) == log
  {
    assert L.Pages(file, []) == [];
  }

  predicate IsTrimmed(key: L.Key, file: Uuid, trimmed: seq<int>) {
    key.OfPage? && key.file == file && key.number in trimmed
  }

  /// The pages numbered above the file's page count go, edited ones included.
  method TrimToCount(cx: Ops, file: FileRow) returns (trimmed: seq<int>)
    requires WellStored(cx)
    modifies cx`pages, cx.tables
    ensures Distinct(trimmed)
    ensures forall n :: n in trimmed <==> file.indexing.pageCount.Some? && n > file.indexing.pageCount.value && L.OfPage(file.id, n) in old(cx.pages)
    ensures cx.pages == map key | key in old(cx.pages) && !IsTrimmed(key, file.id, trimmed) :: old(cx.pages)[key]
    ensures cx.tables.log == Trimmed(old(cx.tables.log), file.id, trimmed)
    ensures forall key: L.Key :: !key.OfPage? ==> L.Stored(cx.tables.log, key) == L.Stored(old(cx.tables.log), key)
    ensures WellStored(cx)
  {
    if file.indexing.pageCount.None? {
      NothingTrimmed(cx.tables.log, file.id);
      return [];
    }
    trimmed := cx.tables.TrimPages(file.id, file.indexing.pageCount.value);
    cx.pages := map key | key in cx.pages && !IsTrimmed(key, file.id, trimmed) :: cx.pages[key];
  }

  /// The images no page references any more go, and what they refer to is released.
  method DropUnreferenced(cx: Ops, file: FileRow, at: Instant) returns (dropped: seq<string>)
    requires Loaded(cx, file)
    modifies cx`plans, cx.tables, cx.blobs, file`version, file`pending, file`updatedAt
    ensures Distinct(dropped)
    ensures forall name :: name in dropped <==>
              B.OfImage(file.id, name) in old(cx.blobs.shelf).slots && !Referenced(cx.pages, file.id, name)
    ensures cx.blobs.shelf == B.After(old(cx.blobs.shelf), B.Remove(ImageKeys(file.id, dropped)))
    ensures cx.tables.log == Dropped(old(cx.tables.log), file.id, dropped)
    ensures cx.plans == old(cx.plans) && Loaded(cx, file)
  {
    dropped := UnreferencedImages(cx, file.id);
    if dropped != [] {
      cx.blobs.Drop(ImageKeys(file.id, dropped));
      file.Record(L.ImagesDropped(dropped), at);
      SaveFile(cx, file);
    }
  }

  /// What the end of a chain leaves: no page above the count, the other pages as
  /// they were; every image left mentioned by a page left, and the records of the
  /// others gone.
  ghost predicate CleanedUp(file: Uuid, pageCount: Option<int>, pages: map<L.Key, Page>, shelf: B.Shelf,
                            trimmed: seq<int>, dropped: seq<string>, pagesAfter: map<L.Key, Page>, shelfAfter: B.Shelf)
  {
    && Distinct(trimmed)
    && (forall n :: n in trimmed <==> pageCount.Some? && n > pageCount.value && L.OfPage(file, n) in pages)
    && pagesAfter == (map key | key in pages && !IsTrimmed(key, file, trimmed) :: pages[key])
    && Distinct(dropped) && (forall name :: name in dropped ==> B.OfImage(file, name) in shelf.slots)
    && (forall name :: B.OfImage(file, name) in shelf.slots ==>
          (name !in dropped <==> Mentioned(pagesAfter, file, name)))
    && shelfAfter == B.After(shelf, B.Remove(ImageKeys(file, dropped)))
  }

  /// The chain is over.
  method Conclude(cx: Ops, file: FileRow, at: Instant) returns (trimmed: seq<int>, dropped: seq<string>)
    requires Loaded(cx, file) && WellStored(cx)
    modifies cx`pages, cx`plans, cx.tables, cx.blobs, file`version, file`pending, file`updatedAt
    ensures CleanedUp(file.id, file.indexing.pageCount, old(cx.pages), old(cx.blobs.shelf), trimmed, dropped, cx.pages, cx.blobs.shelf)
    ensures cx.tables.log == Dropped(Trimmed(old(cx.tables.log), file.id, trimmed), file.id, dropped)
    ensures cx.plans == old(cx.plans) && Loaded(cx, file) && WellStored(cx)
  {
    trimmed := TrimToCount(cx, file);
    dropped := DropUnreferenced(cx, file, at);
    B.RemovedStaysCanonical(old(cx.blobs.shelf), ImageKeys(file.id, dropped));
    forall name | B.OfImage(file.id, name) in old(cx.blobs.shelf).slots
      ensures Referenced(cx.pages, file.id, name) <==> Mentioned(cx.pages, file.id, name)
    {
      assert B.Named(B.OfImage(file.id, name));
      ReferencedIsMentioned(cx.pages, file.id, name);
    }
  }

  /// Dropping the images `names` takes exactly their records, and releases every
  /// reference they held.
  lemma DropTakesExactly(shelf: B.Shelf, file: Uuid, names: seq<string>, key: B.Key)
    ensures var after := B.After(shelf, B.Remove(ImageKeys(file, names)));
            && (key in after.slots <==> key in shelf.slots && !(key.OfImage? && key.file == file && key.name in names))
            && (key in after.slots ==> after.slots[key] == shelf.slots[key])
            && (key in shelf.slots && key !in after.slots ==>
                  forall reference :: reference in B.References(shelf.slots[key]) ==> reference in after.released)
  {
    B.RemovedAllLeaves(shelf, ImageKeys(file, names), key);
    if key.OfImage? && key.file == file && key.name in names {
      var i :| 0 <= i < |names| && names[i] == key.name;
      assert ImageKeys(file, names)[i] == key;
    }
  }
}
