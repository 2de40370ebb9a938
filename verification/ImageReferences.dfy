/// Whether a page's text references an image, by its whole name.
module ImageReferences {
  import opened Common
  import N = ImageNames

  /// A character that can be part of a name: a reference is bounded by others.
  predicate IsNameChar(c: char) {
    'a' <= c <= 'z' || 'A' <= c <= 'Z' || '0' <= c <= '9' || c == '.' || c == '-' || c == '_'
  }

  predicate MatchesAt(text: string, name: string, i: int) {
    0 <= i <= |text| && name <= text[i..]
  }

  /// Neither side of the match goes on with a name's character. Read by
  /// character: a byte of a longer one is no name's.
  predicate BoundedAt(text: string, name: string, i: int)
    requires MatchesAt(text, name, i)
  {
    (i == 0 || !IsNameChar(text[i - 1])) && (i + |name| == |text| || !IsNameChar(text[i + |name|]))
  }

  /// The matches from `from` on, each looked for after the one before it.
  predicate Scan(text: string, name: string, from: nat)
    requires from <= |text| && name != []
    decreases |text| - from
  {
    if from + |name| > |text| then false
    else if MatchesAt(text, name, from) then BoundedAt(text, name, from) || Scan(text, name, from + |name|)
    else Scan(text, name, from + 1)
  }

  predicate References(text: string, name: string) {
    name != [] && Scan(text, name, 0)
  }

  predicate Mentions(text: string, name: string, i: int) {
    MatchesAt(text, name, i) && BoundedAt(text, name, i)
  }

  lemma {:induction false} ScanFinds(text: string, name: string, from: nat)
    requires from <= |text| && name != [] && Scan(text, name, from)
    ensures exists i :: from <= i && Mentions(text, name, i)
    decreases |text| - from
  {
    if MatchesAt(text, name, from) && BoundedAt(text, name, from) {
      assert Mentions(text, name, from);
    } else {
      ScanFinds(text, name, if MatchesAt(text, name, from) then from + |name| else from + 1);
    }
  }

  /// A match that overlaps a later position puts a name's character in front of it.
  lemma OverlapIsUnbounded(text: string, name: string, from: int, i: int)
    requires MatchesAt(text, name, from) && forall c :: c in name ==> IsNameChar(c)
    ensures from < i < from + |name| ==> IsNameChar(text[i - 1])
  {
    if from < i < from + |name| {
      assert text[i - 1] == text[from..][i - 1 - from] == name[i - 1 - from];
    }
  }

  /// No bounded occurrence is stepped over.
  lemma {:induction false} ScanMissesNone(text: string, name: string, from: nat, i: int)
    requires name != [] && (forall c :: c in name ==> IsNameChar(c))
    requires from <= i && Mentions(text, name, i)
    ensures from <= |text| && Scan(text, name, from)
    decreases |text| - from
  {
    if from < i {
      if MatchesAt(text, name, from) {
        OverlapIsUnbounded(text, name, from, i);
        ScanMissesNone(text, name, from + |name|, i);
      } else {
        ScanMissesNone(text, name, from + 1, i);
      }
    }
  }

  /// The scan finds a reference exactly when the name occurs somewhere on its own.
  lemma ScanIsExact(text: string, name: string)
    requires name != [] && forall c :: c in name ==> IsNameChar(c)
    ensures References(text, name) <==> exists i :: Mentions(text, name, i)
  {
    if References(text, name) {
      ScanFinds(text, name, 0);
    }
    if i :| Mentions(text, name, i) {
      ScanMissesNone(text, name, 0, i);
    }
  }

  predicate Qualifies(text: string) {
    forall c :: c in text ==> IsNameChar(c)
  }

  lemma JoinsQualify(a: string, b: string)
    ensures Qualifies(a + b) <==> Qualifies(a) && Qualifies(b)
  {
    assert forall c :: c in a + b <==> c in a || c in b;
  }

  lemma JoinsOfSixQualify(a: string, b: string, c: string, d: string, e: string, f: string)
    requires Qualifies(a) && Qualifies(b) && Qualifies(c) && Qualifies(d) && Qualifies(e) && Qualifies(f)
    ensures Qualifies(a + (b + (c + (d + (e + f)))))
  {
    JoinsQualify(e, f);
    JoinsQualify(d, e + f);
    JoinsQualify(c, d + (e + f));
    JoinsQualify(b, c + (d + (e + f)));
    JoinsQualify(a, b + (c + (d + (e + f))));
  }

  lemma LiteralsQualify()
    ensures Qualifies("p") && Qualifies("-img") && Qualifies(".")
  {
  }

  lemma DigitsQualify(digits: string)
    requires N.AllDigits(digits)
    ensures Qualifies(digits)
  {
  }

  /// Every image's name is made of names' characters.
  lemma ImageNamesQualify(name: string)
    requires N.PageOf(name).Some?
    ensures name != [] && forall c :: c in name ==> IsNameChar(c)
  {
    var parts := N.SplitName(name).value;
    N.SplitIsDigits(name);
    DigitsQualify(parts.page);
    DigitsQualify(parts.index);
    LiteralsQualify();
    JoinsOfSixQualify("p", parts.page, "-img", parts.index, ".", parts.extension);
  }

  /// The characters that go on with a name: ASCII letters and digits, and three marks.
  lemma NameCharSays(c: char)
    ensures IsNameChar(c) <==>
              97 <= c as int <= 122 || 65 <= c as int <= 90 || 48 <= c as int <= 57 || c as int in {45, 46, 95}
  {
  }

  /// A text holds a name on its own where it stands whole, nothing of a name at its sides.
  lemma MentionsSays(text: string, name: string, i: int)
    ensures Mentions(text, name, i) <==>
              && 0 <= i && i + |name| <= |text| && text[i..i + |name|] == name
              && (i > 0 ==> !IsNameChar(text[i - 1])) && (i + |name| < |text| ==> !IsNameChar(text[i + |name|]))
  {
    if 0 <= i <= |text| && name <= text[i..] {
      assert text[i..][..|name|] == text[i..i + |name|];
    }
    if 0 <= i && i + |name| <= |text| && text[i..i + |name|] == name {
      assert text[i..][..|name|] == text[i..i + |name|];
    }
  }
}
