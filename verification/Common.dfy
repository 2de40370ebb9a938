/// Shared vocabulary: optional values, identifiers, instants and text.
module Common {

  datatype Option<+T> = None | Some(value: T) {
    function GetOr(default: T): T {
      if Some? then value else default
    }
  }

  datatype Result<+T, +E> = Ok(value: T) | Err(error: E)

  /// A UUID: the nil one, a time-ordered one (version 7), or any other.
  datatype Uuid = Nil | V7(n: nat) | Other(n: nat)

  /// An instant, in nanoseconds.
  type Instant = int

  /// No value stands at two places of `s`.
  ghost predicate Distinct<T>(s: seq<T>) {
    forall i, j :: 0 <= i < j < |s| ==> s[i] != s[j]
  }

  lemma ConcatInOne<T>(a: seq<T>, b: seq<T>, c: seq<T>)
    ensures a + b + c == a + (b + c)
  {
  }

  function Max(a: int, b: int): int {
    if a < b then b else a
  }
}

/// Unicode text as the library reads it.
module Text {
  import opened Common

  /// `White_Space`, the characters `str::trim` removes.
  predicate IsWhite(c: char) {
    || '\t' <= c <= '\r' || c == ' ' || c == '\U{85}' || c == '\U{A0}' || c == '\U{1680}'
    || '\U{2000}' <= c <= '\U{200A}' || c == '\U{2028}' || c == '\U{2029}' || c == '\U{202F}'
    || c == '\U{205F}' || c == '\U{3000}'
  }

  /// `Cc`: the control characters.
  predicate IsControl(c: char) {
    c <= '\U{1F}' || '\U{7F}' <= c <= '\U{9F}'
  }

  function TrimStart(s: string): (r: string)
    ensures r != [] ==> !IsWhite(r[0])
  {
    if s != [] && IsWhite(s[0]) then TrimStart(s[1..]) else s
  }

  function TrimEnd(s: string): (r: string)
    ensures r <= s
    ensures r != [] ==> !IsWhite(r[|r| - 1])
  {
    if s != [] && IsWhite(s[|s| - 1]) then TrimEnd(s[..|s| - 1]) else s
  }

  function Trim(s: string): string {
    TrimEnd(TrimStart(s))
  }

  /// The length of `s` in UTF-8 bytes.
  function Bytes(s: string): (n: nat)
    ensures |s| <= n
  {
    if s == [] then 0 else Bytes(s[..|s| - 1]) + Width(s[|s| - 1])
  }

  function Width(c: char): nat {
    if c < '\U{80}' then 1 else if c < '\U{800}' then 2 else if c < '\U{10000}' then 3 else 4
  }

  lemma {:induction false} BytesConcat(a: string, b: string)
    ensures Bytes(a + b) == Bytes(a) + Bytes(b)
  {
    if b == [] {
      assert a + b == a;
    } else {
      assert (a + b)[..|a + b| - 1] == a + b[..|b| - 1];
      BytesConcat(a, b[..|b| - 1]);
    }
  }

  /// A trimmed text holds nothing to trim, and starts with what is kept.
  lemma TrimIsSolid(s: string)
    ensures Trim(s) != [] ==> !IsWhite(Trim(s)[0])
    ensures Trim(s) != [] ==> !IsWhite(Trim(s)[|Trim(s)| - 1])
  {
    var t := TrimStart(s);
    assert TrimEnd(t) <= t;
  }

  predicate AllWhite(s: string) {
    forall c :: c in s ==> IsWhite(c)
  }

  /// What is trimmed off a text's ends is white, and all of it that is.
  lemma TrimSays(s: string) returns (front: string, back: string)
    ensures s == front + Trim(s) + back && AllWhite(front) && AllWhite(back)
    ensures Trim(s) != [] ==> !IsWhite(Trim(s)[0]) && !IsWhite(Trim(s)[|Trim(s)| - 1])
  {
    TrimIsSolid(s);
    front := TrimStartSays(s);
    back := TrimEndSays(TrimStart(s));
    ConcatInOne(front, Trim(s), back);
  }

  lemma {:induction false} TrimStartSays(s: string) returns (front: string)
    ensures s == front + TrimStart(s) && AllWhite(front)
  {
    front := [];
    if s != [] && IsWhite(s[0]) {
      var more := TrimStartSays(s[1..]);
      front := [s[0]] + more;
      assert s == [s[0]] + s[1..];
    }
  }

  lemma {:induction false} TrimEndSays(s: string) returns (back: string)
    ensures s == TrimEnd(s) + back && AllWhite(back)
  {
    back := [];
    if s != [] && IsWhite(s[|s| - 1]) {
      var more := TrimEndSays(s[..|s| - 1]);
      back := more + [s[|s| - 1]];
      ConcatInOne(TrimEnd(s), more, [s[|s| - 1]]);
      assert s == s[..|s| - 1] + [s[|s| - 1]];
    }
  }

  /// A text with no white end is left as it is, and only such a text.
  lemma TrimKeeps(s: string)
    requires s != []
    ensures Trim(s) == s <==> !IsWhite(s[0]) && !IsWhite(s[|s| - 1])
  {
    TrimIsSolid(s);
    if !IsWhite(s[0]) {
      assert TrimStart(s) == s;
    }
  }

  /// The white characters, the controls and the widths in bytes, by code point.
  lemma CharactersSay(c: char)
    ensures IsWhite(c) <==> c as int in {9, 10, 11, 12, 13, 32, 133, 160, 5760, 8192, 8193, 8194, 8195, 8196, 8197, 8198, 8199,
                                         8200, 8201, 8202, 8232, 8233, 8239, 8287, 12288}
    ensures IsControl(c) <==> c as int < 32 || 127 <= c as int < 160
    ensures Width(c) == if c as int < 128 then 1 else if c as int < 2048 then 2 else if c as int < 65536 then 3 else 4
  {
  }

  lemma {:induction false} SolidStartTrimsToSome(s: string)
    requires s != [] && !IsWhite(s[0])
    ensures Trim(s) != []
  {
    assert TrimStart(s) == s;
    KeepsSolidStart(s);
  }

  lemma {:induction false} KeepsSolidStart(s: string)
    requires s != [] && !IsWhite(s[0])
    ensures TrimEnd(s) != []
    decreases |s|
  {
    if IsWhite(s[|s| - 1]) {
      KeepsSolidStart(s[..|s| - 1]);
    }
  }
}
