/// The one spelling of an image's name: `p{page:03}-img{index:02}.{ext}`.
module ImageNames {
  import opened Common
  import opened Text

  const MAX_IMAGE_NAME_BYTES: nat := 64
  const I32_MAX: nat := 0x7FFF_FFFF

  predicate IsDigit(c: char) {
    '0' <= c <= '9'
  }

  predicate AllDigits(s: string) {
    forall i :: 0 <= i < |s| ==> IsDigit(s[i])
  }

  predicate AllZeros(s: string) {
    forall i :: 0 <= i < |s| ==> s[i] == '0'
  }

  function StripPrefix(raw: string, prefix: string): Option<string> {
    if prefix <= raw then Some(raw[|prefix|..]) else None
  }

  /// Splits `raw` at its leading ASCII digits.
  function LeadingDigits(raw: string): (string, string) {
    if raw == [] || !IsDigit(raw[0]) then ([], raw)
    else
      var (digits, rest) := LeadingDigits(raw[1..]);
      ([raw[0]] + digits, rest)
  }

  /// A counter spelled the one way: as wide as asked, or wider without a leading zero.
  predicate Padded(digits: string, width: nat) {
    |digits| == width || (|digits| > width && digits[0] != '0')
  }

  function Value(digits: string): nat
    requires AllDigits(digits)
  {
    if digits == [] then 0 else Value(digits[..|digits| - 1]) * 10 + (digits[|digits| - 1] as int - '0' as int)
  }

  predicate ExtensionIsSound(extension: string) {
    1 <= Bytes(extension) <= 8 && forall c :: c in extension ==> 'a' <= c <= 'z' || IsDigit(c)
  }

  /// The digits of the page and of the index, and the extension.
  datatype Parts = Parts(page: string, index: string, extension: string)

  function SplitName(raw: string): Option<Parts> {
    if StripPrefix(raw, "p").None? then None
    else
      var (page, afterPage) := LeadingDigits(StripPrefix(raw, "p").value);
      if StripPrefix(afterPage, "-img").None? then None
      else
        var (index, afterIndex) := LeadingDigits(StripPrefix(afterPage, "-img").value);
        if StripPrefix(afterIndex, ".").None? then None
        else Some(Parts(page, index, StripPrefix(afterIndex, ".").value))
  }

  /// The page an image's name says, if it is a name.
  function PageOf(raw: string): Option<nat> {
    if Bytes(raw) > MAX_IMAGE_NAME_BYTES || SplitName(raw).None? then None
    else
      var parts := SplitName(raw).value;
      SplitIsDigits(raw);
      if !Padded(parts.page, 3) || !Padded(parts.index, 2) || !ExtensionIsSound(parts.extension) || Value(parts.page) > I32_MAX
      then None
      else if Value(parts.page) < 1 || AllZeros(parts.index) then None
      else Some(Value(parts.page))
  }

  /// A number printed at least `width` digits wide.
  function Print(n: nat, width: nat): string
    decreases n + width
  {
    if n == 0 && width == 0 then ""
    else Print(n / 10, if width > 0 then width - 1 else 0) + ['0' + (n % 10) as char]
  }

  function Name(page: nat, index: nat, extension: string): string {
    "p" + (Print(page, 3) + AfterPage(index, extension))
  }

  function AfterPage(index: nat, extension: string): string {
    "-img" + (Print(index, 2) + ("." + extension))
  }

  // ---- digits ----

  lemma {:induction false} LeadingDigitsSplit(raw: string)
    ensures var (digits, rest) := LeadingDigits(raw);
            raw == digits + rest && AllDigits(digits) && (rest == [] || !IsDigit(rest[0]))
  {
    if raw != [] && IsDigit(raw[0]) {
      LeadingDigitsSplit(raw[1..]);
    }
  }

  /// What a text that splits is made of.
  lemma SplitIsDigits(raw: string)
    requires SplitName(raw).Some?
    ensures var parts := SplitName(raw).value;
            && AllDigits(parts.page) && AllDigits(parts.index)
            && raw == "p" + (parts.page + ("-img" + (parts.index + ("." + parts.extension))))
  {
    var (page, afterPage) := LeadingDigits(raw[1..]);
    LeadingDigitsSplit(raw[1..]);
    var (index, afterIndex) := LeadingDigits(afterPage[4..]);
    LeadingDigitsSplit(afterPage[4..]);
    assert afterIndex == "." + afterIndex[1..];
    assert afterPage == "-img" + (index + afterIndex);
    assert raw == "p" + (page + afterPage);
  }

  lemma {:induction false} LeadingDigitsOf(digits: string, rest: string)
    requires AllDigits(digits) && (rest == [] || !IsDigit(rest[0]))
    ensures LeadingDigits(digits + rest) == (digits, rest)
  {
    if digits == [] {
      assert digits + rest == rest;
    } else {
      assert [digits[0]] + digits[1..] == digits;
      assert (digits + rest)[1..] == digits[1..] + rest;
      LeadingDigitsOf(digits[1..], rest);
    }
  }

  lemma ValueOfMore(digits: string, c: char)
    requires AllDigits(digits) && IsDigit(c)
    ensures AllDigits(digits + [c]) && Value(digits + [c]) == Value(digits) * 10 + (c as int - '0' as int)
  {
    assert (digits + [c])[..|digits|] == digits;
  }

  /// A printed number reads back, spelled as the names are.
  lemma {:induction false} PrintReads(n: nat, width: nat)
    ensures AllDigits(Print(n, width)) && Value(Print(n, width)) == n && Padded(Print(n, width), width)
    decreases n + width
  {
    if n != 0 || width != 0 {
      var narrower := if width > 0 then width - 1 else 0;
      PrintReads(n / 10, narrower);
      ValueOfMore(Print(n / 10, narrower), '0' + (n % 10) as char);
    }
  }

  lemma LastDigit(n: nat, c: char)
    requires IsDigit(c)
    ensures var m := n * 10 + (c as int - '0' as int); m / 10 == n && '0' + (m % 10) as char == c
  {
  }

  /// Digits spelled as the names are, are their number printed.
  lemma {:induction false} ReadPrints(digits: string, width: nat)
    requires AllDigits(digits) && Padded(digits, width)
    ensures Print(Value(digits), width) == digits
  {
    if digits != [] {
      var front, last := digits[..|digits| - 1], digits[|digits| - 1];
      assert digits == front + [last];
      ReadPrints(front, if width > 0 then width - 1 else 0);
      LastDigit(Value(front), last);
    }
  }

  lemma {:induction false} ZerosAreZero(digits: string)
    requires AllDigits(digits)
    ensures Value(digits) == 0 <==> AllZeros(digits)
  {
    if digits != [] {
      var front, last := digits[..|digits| - 1], digits[|digits| - 1];
      assert digits == front + [last];
      ZerosAreZero(front);
    }
  }

  // ---- names ----

  lemma Stripped(prefix: string, rest: string)
    ensures StripPrefix(prefix + rest, prefix) == Some(rest)
  {
    assert prefix <= prefix + rest && (prefix + rest)[|prefix|..] == rest;
  }

  lemma SplitsAt(raw: string, first: string, afterPage: string, second: string, afterIndex: string, parts: Parts)
    requires StripPrefix(raw, "p") == Some(first) && LeadingDigits(first) == (parts.page, afterPage)
    requires StripPrefix(afterPage, "-img") == Some(second) && LeadingDigits(second) == (parts.index, afterIndex)
    requires StripPrefix(afterIndex, ".") == Some(parts.extension)
    ensures SplitName(raw) == Some(parts)
  {
  }

  lemma DotIsNoDigit(extension: string)
    ensures !IsDigit(("." + extension)[0])
  {
  }

  lemma AfterPageIsNoDigit(index: nat, extension: string)
    ensures !IsDigit(AfterPage(index, extension)[0])
  {
  }

  /// Where a printed name splits.
  lemma NameSplits(page: nat, index: nat, extension: string)
    ensures SplitName(Name(page, index, extension)) == Some(Parts(Print(page, 3), Print(index, 2), extension))
  {
    var after, end := AfterPage(index, extension), "." + extension;
    PrintReads(page, 3);
    PrintReads(index, 2);
    AfterPageIsNoDigit(index, extension);
    DotIsNoDigit(extension);
    LeadingDigitsOf(Print(page, 3), after);
    LeadingDigitsOf(Print(index, 2), end);
    Stripped("p", Print(page, 3) + after);
    Stripped("-img", Print(index, 2) + end);
    Stripped(".", extension);
    SplitsAt(Name(page, index, extension), Print(page, 3) + after, after, Print(index, 2) + end, end,
             Parts(Print(page, 3), Print(index, 2), extension));
  }

  /// The name of a triple reads back to its page.
  lemma NameReads(page: nat, index: nat, extension: string)
    requires 1 <= page <= I32_MAX && 1 <= index && ExtensionIsSound(extension)
    requires Bytes(Name(page, index, extension)) <= MAX_IMAGE_NAME_BYTES
    ensures PageOf(Name(page, index, extension)) == Some(page)
  {
    NameSplits(page, index, extension);
    PrintReads(page, 3);
    PrintReads(index, 2);
    ZerosAreZero(Print(index, 2));
  }

  /// What reads is the name of a triple.
  lemma ReadNames(raw: string) returns (index: nat, extension: string)
    requires PageOf(raw).Some?
    ensures 1 <= PageOf(raw).value <= I32_MAX && 1 <= index && ExtensionIsSound(extension)
    ensures raw == Name(PageOf(raw).value, index, extension)
  {
    var parts := SplitName(raw).value;
    SplitIsDigits(raw);
    ReadPrints(parts.page, 3);
    ReadPrints(parts.index, 2);
    ZerosAreZero(parts.index);
    index, extension := Value(parts.index), parts.extension;
  }

  /// A text is an image's name exactly when it is the printed form of a page, an
  /// index and an extension, within the length; and it says that page.
  lemma NamesAreCanonical(raw: string, page: nat)
    ensures PageOf(raw) == Some(page) <==>
              && Bytes(raw) <= MAX_IMAGE_NAME_BYTES && 1 <= page <= I32_MAX
              && exists index: nat, extension {:trigger Name(page, index, extension)} ::
                   1 <= index && ExtensionIsSound(extension) && raw == Name(page, index, extension)
  {
    if PageOf(raw) == Some(page) {
      var index, extension := ReadNames(raw);
      assert raw == Name(page, index, extension);
    }
    forall index: nat, extension | 1 <= page <= I32_MAX && 1 <= index && ExtensionIsSound(extension)
                                   && Bytes(Name(page, index, extension)) <= MAX_IMAGE_NAME_BYTES
      ensures PageOf(Name(page, index, extension)) == Some(page)
    {
      NameReads(page, index, extension);
    }
  }

  /// Two triples never share a name.
  lemma NamesAreDistinct(page: nat, index: nat, extension: string, otherPage: nat, otherIndex: nat, otherExtension: string)
    requires Name(page, index, extension) == Name(otherPage, otherIndex, otherExtension)
    ensures page == otherPage && index == otherIndex && extension == otherExtension
  {
    NameSplits(page, index, extension);
    NameSplits(otherPage, otherIndex, otherExtension);
    PrintReads(page, 3);
    PrintReads(index, 2);
    PrintReads(otherPage, 3);
    PrintReads(otherIndex, 2);
  }

  /// How a triple is spelled, and what its parts may be.
  lemma NameSays(page: nat, index: nat, extension: string)
    ensures Name(page, index, extension) == "p" + Print(page, 3) + "-img" + Print(index, 2) + "." + extension
    ensures ExtensionIsSound(extension) <==>
              1 <= |extension| <= 8 && forall c :: c in extension ==> 97 <= c as int <= 122 || 48 <= c as int <= 57
    ensures MAX_IMAGE_NAME_BYTES == 64 && I32_MAX == 2147483647
  {
    var p, i := Print(page, 3), Print(index, 2);
    assert Name(page, index, extension) == "p" + (p + ("-img" + (i + ("." + extension))));
    assert "p" + (p + ("-img" + (i + ("." + extension)))) == "p" + p + "-img" + i + "." + extension;
    NarrowBytes(extension);
  }

  lemma {:induction false} NarrowBytes(s: string)
    ensures (forall c :: c in s ==> c as int < 128) ==> Bytes(s) == |s|
  {
    if s != "" && forall c :: c in s ==> c as int < 128 {
      var first, last := s[..|s| - 1], s[|s| - 1];
      assert last in s && forall c :: c in first ==> c in s;
      NarrowBytes(first);
      assert Width(last) == 1;
      assert Bytes(s) == Bytes(first) + 1;
    }
  }

  /// A number is printed in decimal, zeros before it up to the width.
  lemma {:induction false} PrintSays(n: nat, width: nat)
    ensures |Print(n, width)| >= width && (n < Power(width) ==> |Print(n, width)| == width)
    ensures forall c :: c in Print(n, width) ==> IsDigit(c)
    decreases n + width
  {
    if n != 0 || width != 0 {
      PrintSays(n / 10, if width > 0 then width - 1 else 0);
    }
  }

  function Power(width: nat): nat {
    if width == 0 then 1 else 10 * Power(width - 1)
  }
}
