/// Paths of a drive: strings that stand for lists of segments.
module Paths {
  import opened Common
  import opened Text

  const MAX_SEGMENT_BYTES: nat := 255
  const MAX_PATH_BYTES: nat := 1024

  predicate SegmentIsSound(segment: string) {
    && segment != "" && segment != "." && segment != ".."
    && Bytes(segment) <= MAX_SEGMENT_BYTES
    && Trim(segment) == segment
    && forall c :: c in segment ==> !IsControl(c) && c != '\\'
  }

  /// `split('/')`: always one segment at least.
  function Split(s: string): (segments: seq<string>)
    ensures segments != []
    ensures forall segment :: segment in segments ==> '/' !in segment
  {
    if s == "" then [""]
    else
      var rest := Split(s[1..]);
      if s[0] == '/' then [""] + rest else [[s[0]] + rest[0]] + rest[1..]
  }

  function Join(segments: seq<string>): string {
    if segments == [] then "" else if |segments| == 1 then segments[0] else segments[0] + "/" + Join(segments[1..])
  }

  function TrimSlashStart(s: string): string {
    if s != "" && s[0] == '/' then TrimSlashStart(s[1..]) else s
  }

  function TrimSlashEnd(s: string): string {
    if s != "" && s[|s| - 1] == '/' then TrimSlashEnd(s[..|s| - 1]) else s
  }

  /// `trim_matches('/')`, and the store's `trim(both '/' from ...)`.
  function TrimSlashes(s: string): string {
    TrimSlashEnd(TrimSlashStart(s))
  }

  /// A path as the library holds one.
  predicate IsPath(s: string) {
    s == "" || (Bytes(s) <= MAX_PATH_BYTES && forall segment :: segment in Split(s) ==> SegmentIsSound(segment))
  }

  function Parse(raw: string): (path: Option<string>)
    ensures path == if IsPath(TrimSlashes(raw)) then Some(TrimSlashes(raw)) else None
  {
    var trimmed := TrimSlashes(raw);
    if trimmed == "" then Some("")
    else if Bytes(trimmed) > MAX_PATH_BYTES || (exists segment :: segment in Split(trimmed) && !SegmentIsSound(segment)) then None
    else Some(trimmed)
  }

  /// The segments a path stands for: none for the root.
  function Segments(path: string): seq<string> {
    if path == "" then [] else Split(path)
  }

  predicate IsWithin(path: string, prefix: string) {
    prefix == "" || path == prefix || (prefix <= path && |path| > |prefix| && path[|prefix|] == '/')
  }

  /// Where `path` lands when `from` becomes `to`.
  function Rebased(path: string, from: string, to: string): Option<string> {
    if !IsWithin(path, from) then None
    else
      var rest := if from == "" then path else TrimSlashStart(path[|from|..]);
      var landed := if to == "" then rest else if rest == "" then to else to + "/" + rest;
      if Bytes(landed) <= MAX_PATH_BYTES then Some(landed) else None
  }

  // ---- the store's own forms ----

  function Left(s: string, n: nat): string {
    if n <= |s| then s[..n] else s
  }

  /// `substr(s, start)`, counted from 1.
  function Substr(s: string, start: nat): string
    requires start > 0
  {
    if start - 1 <= |s| then s[start - 1..] else ""
  }

  predicate UnderPrefix(path: string, prefix: string) {
    prefix == "" || path == prefix || Left(path, |prefix| + 1) == prefix + "/"
  }

  function Moved(path: string, from: string, to: string): string {
    TrimSlashes(to + "/" + Substr(path, |from| + 2))
  }

  // ---- strings and segments ----

  lemma JoinCons(first: string, rest: seq<string>)
    requires rest != []
    ensures Join([first] + rest) == first + "/" + Join(rest)
  {
    assert ([first] + rest)[1..] == rest;
  }

  lemma JoinGrow(c: char, first: string, rest: seq<string>)
    ensures Join([[c] + first] + rest) == [c] + Join([first] + rest)
  {
    if rest != [] {
      JoinCons([c] + first, rest);
      JoinCons(first, rest);
      PutBefore(c, first, Join(rest));
    }
  }

  lemma PutBefore(c: char, x: string, y: string)
    ensures ([c] + x) + "/" + y == [c] + (x + "/" + y)
  {
  }

  lemma {:induction false} JoinSplit(s: string)
    ensures Join(Split(s)) == s
  {
    if s != "" {
      JoinSplit(s[1..]);
      if s[0] == '/' {
        JoinCons("", Split(s[1..]));
        assert s == "" + "/" + s[1..];
      } else {
        JoinGrow(s[0], Split(s[1..])[0], Split(s[1..])[1..]);
        assert Split(s[1..]) == [Split(s[1..])[0]] + Split(s[1..])[1..];
        assert s == [s[0]] + s[1..];
      }
    }
  }

  lemma {:induction false} SplitSegment(segment: string)
    requires '/' !in segment
    ensures Split(segment) == [segment]
  {
    if segment != "" {
      assert segment[0] in segment;
      assert forall c :: c in segment[1..] ==> c in segment;
      SplitSegment(segment[1..]);
      assert segment == [segment[0]] + segment[1..];
    }
  }

  /// A path goes on after a slash with its other segments.
  lemma {:induction false} SplitAtSlash(a: string, b: string)
    ensures Split(a + "/" + b) == Split(a) + Split(b)
  {
    if a == "" {
      assert (a + "/" + b)[1..] == b;
    } else {
      assert (a + "/" + b)[1..] == a[1..] + "/" + b;
      SplitAtSlash(a[1..], b);
      GrowConcat(a[0], Split(a[1..]), Split(b));
      assert ([""] + Split(a[1..])) + Split(b) == [""] + (Split(a[1..]) + Split(b));
    }
  }

  lemma GrowConcat(c: char, left: seq<string>, right: seq<string>)
    requires left != []
    ensures [[c] + (left + right)[0]] + (left + right)[1..] == ([[c] + left[0]] + left[1..]) + right
  {
  }

  lemma SegmentsTellThePath(path: string, other: string)
    requires Segments(path) == Segments(other) && IsPath(path) && IsPath(other)
    ensures path == other
  {
    JoinSplit(path);
    JoinSplit(other);
  }

  lemma SplitAfterSlash(front: string)
    ensures "" in Split(front + "/")
  {
    SplitAtSlash(front, "");
    assert front + "/" + "" == front + "/";
    assert (Split(front) + Split(""))[|Split(front)|] == "";
  }

  lemma EdgeSlashSplits(s: string)
    requires s != "" && (s[0] == '/' || s[|s| - 1] == '/')
    ensures "" in Split(s)
  {
    if s[0] == '/' {
      assert Split(s)[0] == "";
    } else {
      SplitAfterSlash(s[..|s| - 1]);
      assert s == s[..|s| - 1] + "/";
    }
  }

  /// A path neither starts nor ends with a slash.
  lemma PathEdges(path: string)
    requires IsPath(path) && path != ""
    ensures path[0] != '/' && path[|path| - 1] != '/'
  {
    if path[0] == '/' || path[|path| - 1] == '/' {
      EdgeSlashSplits(path);
    }
  }

  /// What follows a prefix, when something does.
  lemma RestIsAPath(path: string, prefix: string)
    requires IsPath(path) && prefix <= path && |path| > |prefix| && path[|prefix|] == '/'
    ensures var rest := path[|prefix| + 1..];
            && rest != "" && IsPath(rest) && path == prefix + "/" + rest
            && Split(path) == Split(prefix) + Split(rest)
            && TrimSlashStart(path[|prefix|..]) == rest
  {
    var rest := path[|prefix| + 1..];
    PathEdges(path);
    assert path == prefix + "/" + rest;
    SplitAtSlash(prefix, rest);
    BytesConcat(prefix + "/", rest);
    forall segment | segment in Split(rest)
      ensures SegmentIsSound(segment)
    {
      assert segment in Split(path);
    }
    assert path[|prefix|..][1..] == rest;
    if rest != "" {
      PathEdges(rest);
    }
  }

  lemma JoinedIsWithin(path: string, prefix: string, rest: string)
    requires path == prefix + "/" + rest
    ensures prefix <= path && |path| > |prefix| && path[|prefix|] == '/'
  {
  }

  lemma SegmentPrefixIsWithin(path: string, prefix: string, segments: seq<string>, others: seq<string>)
    requires segments != [] && prefix == Join(segments) && path == Join(segments + others)
    ensures path == prefix || (prefix <= path && |path| > |prefix| && path[|prefix|] == '/')
  {
    JoinConcat(segments, others);
    if others != [] {
      JoinedIsWithin(path, prefix, Join(others));
    }
  }

  /// `is_within` on strings is being a prefix on lists of segments.
  lemma WithinIsPrefix(path: string, prefix: string)
    requires IsPath(path) && IsPath(prefix)
    ensures IsWithin(path, prefix) <==> Segments(prefix) <= Segments(path)
  {
    if prefix <= path && |path| > |prefix| && path[|prefix|] == '/' {
      RestIsAPath(path, prefix);
    }
    if path != "" && prefix != "" && Split(prefix) <= Split(path) {
      var others := Split(path)[|Split(prefix)|..];
      assert Split(path) == Split(prefix) + others;
      JoinSplit(path);
      JoinSplit(prefix);
      SegmentPrefixIsWithin(path, prefix, Split(prefix), others);
    }
  }

  lemma {:induction false} JoinConcat(a: seq<string>, b: seq<string>)
    requires a != []
    ensures Join(a + b) == if b == [] then Join(a) else Join(a) + "/" + Join(b)
  {
    if b == [] {
      assert a + b == a;
    } else if |a| == 1 {
      assert (a + b)[1..] == b;
    } else {
      assert (a + b)[1..] == a[1..] + b;
      JoinConcat(a[1..], b);
      assert a[0] + "/" + (Join(a[1..]) + "/" + Join(b)) == (a[0] + "/" + Join(a[1..])) + "/" + Join(b);
    }
  }

  /// A rebased path has the segments of `to`, then those that followed `from`; it
  /// is refused only outside `from` or when it grows too long.
  lemma RebasedMovesSegments(path: string, from: string, to: string)
    requires IsPath(path) && IsPath(from) && IsPath(to)
    ensures Rebased(path, from, to).Some? ==>
              && Segments(from) <= Segments(path)
              && IsPath(Rebased(path, from, to).value)
              && Segments(Rebased(path, from, to).value) == Segments(to) + Segments(path)[|Segments(from)|..]
    ensures Rebased(path, from, to).None? <==>
              !(Segments(from) <= Segments(path))
              || Bytes(Join(Segments(to) + Segments(path)[|Segments(from)|..])) > MAX_PATH_BYTES
  {
    WithinIsPrefix(path, from);
    if IsWithin(path, from) {
      var rest := Rest(path, from);
      RestSegments(path, from);
      JoinLanding(to, rest);
    }
  }

  /// What of `path` is below `from`.
  function Rest(path: string, from: string): string
    requires IsWithin(path, from)
  {
    if from == "" then path else TrimSlashStart(path[|from|..])
  }

  lemma RestSegments(path: string, from: string)
    requires IsPath(path) && IsPath(from) && IsWithin(path, from)
    ensures IsPath(Rest(path, from))
    ensures Segments(path) == Segments(from) + Segments(Rest(path, from))
  {
    if from != "" && path != from {
      RestIsAPath(path, from);
    } else if from != "" {
      assert path[|from|..] == "";
    }
  }

  function Landed(to: string, rest: string): string {
    if to == "" then rest else if rest == "" then to else to + "/" + rest
  }

  lemma JoinLanding(to: string, rest: string)
    requires IsPath(to) && IsPath(rest)
    ensures Segments(Landed(to, rest)) == Segments(to) + Segments(rest)
    ensures Join(Segments(to) + Segments(rest)) == Landed(to, rest)
    ensures Bytes(Landed(to, rest)) <= MAX_PATH_BYTES ==> IsPath(Landed(to, rest))
  {
    JoinSplit(to);
    JoinSplit(rest);
    JoinSplit(Landed(to, rest));
    if to != "" && rest != "" {
      SplitAtSlash(to, rest);
    }
    assert [] + Segments(rest) == Segments(rest) && Segments(to) + [] == Segments(to);
  }

  lemma LandedIsInjective(to: string, a: string, b: string)
    requires Landed(to, a) == Landed(to, b)
    ensures a == b
  {
    if to != "" && a != "" && b != "" {
      assert (to + "/" + a)[|to| + 1..] == a && (to + "/" + b)[|to| + 1..] == b;
    }
  }

  /// Two paths under `from` never land on the same place.
  lemma RebasedIsInjective(path: string, other: string, from: string, to: string)
    requires IsPath(path) && IsPath(other) && IsPath(from)
    requires Rebased(path, from, to).Some? && Rebased(path, from, to) == Rebased(other, from, to)
    ensures path == other
  {
    LandedIsInjective(to, Rest(path, from), Rest(other, from));
    RestSegments(path, from);
    RestSegments(other, from);
    SegmentsTellThePath(path, other);
  }

  /// What landed under `to` is what was below `from`.
  lemma RestOfLanded(to: string, rest: string)
    requires IsPath(to) && IsPath(rest) && IsPath(Landed(to, rest))
    ensures IsWithin(Landed(to, rest), to) && Rest(Landed(to, rest), to) == rest
  {
    if to != "" && rest != "" {
      RestIsAPath(Landed(to, rest), to);
    }
  }

  lemma LandedRest(path: string, from: string)
    requires IsPath(path) && IsPath(from) && IsWithin(path, from)
    ensures Landed(from, Rest(path, from)) == path
  {
    if from != "" && path != from {
      RestIsAPath(path, from);
    }
  }

  /// Moving back brings a path back.
  lemma RebasedBack(path: string, from: string, to: string)
    requires IsPath(path) && IsPath(from) && IsPath(to) && Rebased(path, from, to).Some?
    ensures Rebased(Rebased(path, from, to).value, to, from) == Some(path)
  {
    RestSegments(path, from);
    JoinLanding(to, Rest(path, from));
    RestOfLanded(to, Rest(path, from));
    LandedRest(path, from);
  }

  // ---- the store computes the same ----

  lemma StorePrefixIsWithin(path: string, prefix: string)
    ensures UnderPrefix(path, prefix) <==> IsWithin(path, prefix)
  {
    if |path| > |prefix| && prefix <= path && path[|prefix|] == '/' {
      assert path[..|prefix| + 1] == prefix + "/";
    }
    if Left(path, |prefix| + 1) == prefix + "/" {
      assert path[..|prefix|] == path[..|prefix| + 1][..|prefix|];
    }
  }

  lemma TrimSlashesKeeps(s: string)
    requires s == "" || (s[0] != '/' && s[|s| - 1] != '/')
    ensures TrimSlashes(s) == s && TrimSlashes("/" + s) == s && TrimSlashes(s + "/") == s
  {
    assert ("/" + s)[1..] == s;
    if s == "" {
      assert s + "/" == "/" && "/"[1..] == "";
    } else {
      assert (s + "/")[0] == s[0] && (s + "/")[|s|] == '/' && (s + "/")[..|s|] == s;
      assert TrimSlashEnd(s) == s;
    }
  }

  /// The bulk statement writes what the library checked.
  lemma StoreMovesAsRebased(path: string, from: string, to: string)
    requires IsPath(path) && IsPath(from) && IsPath(to) && from != "" && Rebased(path, from, to).Some?
    ensures Moved(path, from, to) == Rebased(path, from, to).value
  {
    var landed := Rebased(path, from, to).value;
    RebasedMovesSegments(path, from, to);
    if landed != "" {
      PathEdges(landed);
    }
    TrimSlashesKeeps(landed);
    StoreLands(path, from, to);
  }

  /// Before its slashes are trimmed, what the statement writes is the landing.
  lemma StoreLands(path: string, from: string, to: string)
    requires IsPath(path) && IsPath(from) && from != "" && IsWithin(path, from)
    ensures var written, landed := to + "/" + Substr(path, |from| + 2), Landed(to, Rest(path, from));
            written == landed || written == landed + "/" || written == "/" + landed
  {
    if path == from {
      assert Substr(path, |from| + 2) == "" && path[|from|..] == "";
    } else {
      RestIsAPath(path, from);
      assert Substr(path, |from| + 2) == path[|from| + 1..];
    }
  }

  // ---- what a path is made of ----

  /// A segment names something, and is neither long, nor edged with white, nor holding
  /// a control or a backslash.
  lemma SegmentSays(segment: string)
    ensures SegmentIsSound(segment) <==>
              && segment != "" && segment != "." && segment != ".." && Bytes(segment) <= 255
              && !IsWhite(segment[0]) && !IsWhite(segment[|segment| - 1])
              && forall c :: c in segment ==> !IsControl(c) && c as int != 92
  {
    if segment != "" {
      TrimKeeps(segment);
    }
  }

  /// A path is the root, or 1024 bytes at most of sound segments.
  lemma PathSays(path: string)
    ensures IsPath(path) <==>
              path == "" || (Bytes(path) <= 1024 && forall segment :: segment in Split(path) ==> SegmentIsSound(segment))
  {
  }

  predicate AllSlashes(s: string) {
    forall c :: c in s ==> c == '/'
  }

  /// What is trimmed off a path as it is given are its outer slashes, all of them.
  lemma TrimSlashesSays(s: string) returns (front: string, back: string)
    ensures s == front + TrimSlashes(s) + back && AllSlashes(front) && AllSlashes(back)
    ensures TrimSlashes(s) != "" ==> TrimSlashes(s)[0] != '/' && TrimSlashes(s)[|TrimSlashes(s)| - 1] != '/'
  {
    front := SlashStartSays(s);
    back := SlashEndSays(TrimSlashStart(s));
    ConcatInOne(front, TrimSlashes(s), back);
  }

  lemma {:induction false} SlashStartSays(s: string) returns (front: string)
    ensures s == front + TrimSlashStart(s) && AllSlashes(front)
    ensures TrimSlashStart(s) != "" ==> TrimSlashStart(s)[0] != '/'
  {
    front := "";
    if s != "" && s[0] == '/' {
      var more := SlashStartSays(s[1..]);
      front := [s[0]] + more;
      assert s == [s[0]] + s[1..];
    }
  }

  lemma {:induction false} SlashEndSays(s: string) returns (back: string)
    ensures s == TrimSlashEnd(s) + back && AllSlashes(back)
    ensures TrimSlashEnd(s) <= s && (TrimSlashEnd(s) != "" ==> TrimSlashEnd(s)[|TrimSlashEnd(s)| - 1] != '/')
  {
    back := "";
    if s != "" && s[|s| - 1] == '/' {
      var more := SlashEndSays(s[..|s| - 1]);
      back := more + [s[|s| - 1]];
      ConcatInOne(TrimSlashEnd(s), more, [s[|s| - 1]]);
      assert s == s[..|s| - 1] + [s[|s| - 1]];
    }
  }
}
