/** internal/helpers: postal-code normalisation and validation.

    A Go string is a sequence of bytes that `strings.Map` decodes as UTF-8
    runes; here a string is the sequence of its runes (Dafny's `char` is a
    Unicode scalar value) and Go's `len`, which counts bytes, is `ByteLen`. */
module Helpers {

  /** Unicode general category Nd (decimal digit) above U+00FF, as of
      Unicode 15.0, range by range in the order of the Go unicode package's
      `Digit` table. */
  predicate IsWideDigit(c: int)
    // every such digit lies above Latin-1, so it takes at least two UTF-8 bytes
    ensures IsWideDigit(c) ==> 0x0660 <= c <= 0x1FBF9
  {
    0x0660 <= c <= 0x0669 || 0x06F0 <= c <= 0x06F9 || 0x07C0 <= c <= 0x07C9 || 0x0966 <= c <= 0x096F
    || 0x09E6 <= c <= 0x09EF || 0x0A66 <= c <= 0x0A6F || 0x0AE6 <= c <= 0x0AEF || 0x0B66 <= c <= 0x0B6F
    || 0x0BE6 <= c <= 0x0BEF || 0x0C66 <= c <= 0x0C6F || 0x0CE6 <= c <= 0x0CEF || 0x0D66 <= c <= 0x0D6F
    || 0x0DE6 <= c <= 0x0DEF || 0x0E50 <= c <= 0x0E59 || 0x0ED0 <= c <= 0x0ED9 || 0x0F20 <= c <= 0x0F29
    || 0x1040 <= c <= 0x1049 || 0x1090 <= c <= 0x1099 || 0x17E0 <= c <= 0x17E9 || 0x1810 <= c <= 0x1819
    || 0x1946 <= c <= 0x194F || 0x19D0 <= c <= 0x19D9 || 0x1A80 <= c <= 0x1A89 || 0x1A90 <= c <= 0x1A99
    || 0x1B50 <= c <= 0x1B59 || 0x1BB0 <= c <= 0x1BB9 || 0x1C40 <= c <= 0x1C49 || 0x1C50 <= c <= 0x1C59
    || 0xA620 <= c <= 0xA629 || 0xA8D0 <= c <= 0xA8D9 || 0xA900 <= c <= 0xA909 || 0xA9D0 <= c <= 0xA9D9
    || 0xA9F0 <= c <= 0xA9F9 || 0xAA50 <= c <= 0xAA59 || 0xABF0 <= c <= 0xABF9 || 0xFF10 <= c <= 0xFF19
    || 0x104A0 <= c <= 0x104A9 || 0x10D30 <= c <= 0x10D39 || 0x11066 <= c <= 0x1106F || 0x110F0 <= c <= 0x110F9
    || 0x11136 <= c <= 0x1113F || 0x111D0 <= c <= 0x111D9 || 0x112F0 <= c <= 0x112F9 || 0x11450 <= c <= 0x11459
    || 0x114D0 <= c <= 0x114D9 || 0x11650 <= c <= 0x11659 || 0x116C0 <= c <= 0x116C9 || 0x11730 <= c <= 0x11739
    || 0x118E0 <= c <= 0x118E9 || 0x11950 <= c <= 0x11959 || 0x11C50 <= c <= 0x11C59 || 0x11D50 <= c <= 0x11D59
    || 0x11DA0 <= c <= 0x11DA9 || 0x11F50 <= c <= 0x11F59 || 0x16A60 <= c <= 0x16A69 || 0x16AC0 <= c <= 0x16AC9
    || 0x16B50 <= c <= 0x16B59 || 0x1D7CE <= c <= 0x1D7FF || 0x1E140 <= c <= 0x1E149 || 0x1E2F0 <= c <= 0x1E2F9
    || 0x1E4F0 <= c <= 0x1E4F9 || 0x1E950 <= c <= 0x1E959 || 0x1FBF0 <= c <= 0x1FBF9
  }

  /** `unicode.IsDigit`: within Latin-1 only '0'..'9'; above it, category Nd. */
  predicate IsDigit(r: char)
    ensures '0' <= r <= '9' ==> IsDigit(r)
    // the only one-byte digits are the ASCII ones; every other digit is above U+065F
    ensures IsDigit(r) ==> '0' <= r <= '9' || r as int >= 0x0660
  {
    if r as int <= 0xFF then '0' <= r <= '9' else IsWideDigit(r as int)
  }

  /** Number of bytes of the UTF-8 encoding of one rune. */
  function RuneLen(r: char): (n: nat)
    ensures 1 <= n <= 4
    ensures n == 1 <==> r as int < 0x80
  {
    if r as int < 0x80 then 1
    else if r as int < 0x800 then 2
    else if r as int < 0x10000 then 3
    else 4
  }

  /** Go's `len` of a string: its length in UTF-8 bytes. */
  function ByteLen(s: string): (n: nat)
    ensures |s| <= n <= 4 * |s|
    ensures n == 0 <==> s == []
  {
    if s == [] then 0 else RuneLen(s[0]) + ByteLen(s[1..])
  }

  predicate AllDigits(s: string) {
    forall i :: 0 <= i < |s| ==> IsDigit(s[i])
  }

  /** `NormalizeZipCode`: keeps the runes that are digits, in order, and drops
      every other rune (the mapping returns -1 for them). */
  function NormalizeZipCode(zipcode: string): (r: string)
    ensures |r| <= |zipcode|
    ensures AllDigits(r)
  {
    if zipcode == [] then []
    else if IsDigit(zipcode[0]) then [zipcode[0]] + NormalizeZipCode(zipcode[1..])
    else NormalizeZipCode(zipcode[1..])
  }

  /** `ValidateZipCode`: the normalised code is exactly 8 bytes long. Since a
      digit rune takes 1 to 4 bytes, that is between 2 and 8 digits. */
  predicate ValidateZipCode(zipcode: string)
    ensures ValidateZipCode(zipcode) ==> 2 <= |NormalizeZipCode(zipcode)| <= 8
    // when the digits kept are all ASCII, it is a CEP's rule of exactly 8 digits
    ensures (forall i :: 0 <= i < |NormalizeZipCode(zipcode)| ==> NormalizeZipCode(zipcode)[i] as int < 0x80) ==>
      (ValidateZipCode(zipcode) <==> |NormalizeZipCode(zipcode)| == 8)
  {
    var n := NormalizeZipCode(zipcode);
    if forall i :: 0 <= i < |n| ==> n[i] as int < 0x80 then
      ByteLenAscii(n);
      ByteLen(n) == 8
    else
      ByteLen(n) == 8
  }

  lemma {:induction false} ByteLenConcat(a: string, b: string)
    ensures ByteLen(a + b) == ByteLen(a) + ByteLen(b)
  {
    if a == [] {
      assert a + b == b;
    } else {
      assert (a + b)[1..] == a[1..] + b;
      ByteLenConcat(a[1..], b);
    }
  }

  /** A string of runes below U+0080 has one byte per rune. */
  lemma {:induction false} ByteLenAscii(s: string)
    requires forall i :: 0 <= i < |s| ==> s[i] as int < 0x80
    ensures ByteLen(s) == |s|
  {
    if s != [] {
      ByteLenAscii(s[1..]);
    }
  }

  /** Normalisation distributes over concatenation: it is a filter that looks
      at each rune on its own. */
  lemma {:induction false} NormalizeConcat(a: string, b: string)
    ensures NormalizeZipCode(a + b) == NormalizeZipCode(a) + NormalizeZipCode(b)
  {
    if a == [] {
      assert a + b == b;
    } else {
      assert (a + b)[1..] == a[1..] + b;
      assert (a + b)[0] == a[0];
      NormalizeConcat(a[1..], b);
    }
  }

  /** A string is returned unchanged exactly when it is made only of digits. */
  lemma {:induction false} NormalizeFixesExactlyDigitStrings(s: string)
    ensures NormalizeZipCode(s) == s <==> AllDigits(s)
  {
    if s != [] && AllDigits(s) {
      assert AllDigits(s[1..]) by {
        forall i | 0 <= i < |s[1..]| ensures IsDigit(s[1..][i]) { assert s[1..][i] == s[i + 1]; }
      }
      NormalizeFixesExactlyDigitStrings(s[1..]);
    }
  }

  lemma NormalizeIdempotent(s: string)
    ensures NormalizeZipCode(NormalizeZipCode(s)) == NormalizeZipCode(s)
  {
    NormalizeFixesExactlyDigitStrings(NormalizeZipCode(s));
  }

  /** Each rune occurs in the result as often as in the input when it is a
      digit, and never otherwise: nothing is invented, nothing digit is lost. */
  lemma {:induction false} NormalizeCounts(s: string, c: char)
    ensures multiset(NormalizeZipCode(s))[c] == if IsDigit(c) then multiset(s)[c] else 0
  {
    if s != [] {
      assert s == [s[0]] + s[1..];
      NormalizeCounts(s[1..], c);
    }
  }

  /** Validating a normalised code gives the same answer as validating the raw
      one, which is why `NewCep` may validate after normalising. */
  lemma ValidateIgnoresNormalization(s: string)
    ensures ValidateZipCode(NormalizeZipCode(s)) == ValidateZipCode(s)
  {
    NormalizeIdempotent(s);
  }

  /** When every digit rune of the input is an ASCII digit, validation is a
      CEP's rule: exactly 8 digits after stripping the rest. */
  lemma ValidateAsciiDigits(s: string)
    requires forall i :: 0 <= i < |s| && IsDigit(s[i]) ==> '0' <= s[i] <= '9'
    ensures ValidateZipCode(s) <==> |NormalizeZipCode(s)| == 8
  {
    var n := NormalizeZipCode(s);
    forall i | 0 <= i < |n| ensures n[i] as int < 0x80 {
      NormalizeCounts(s, n[i]);
      assert n[i] in multiset(n);
      assert n[i] in multiset(s);
      var k :| 0 <= k < |s| && s[k] == n[i];
    }
    ByteLenAscii(n);
  }

  /** Byte counting lets four Arabic-Indic digits (two bytes each) pass as an
      8-digit postal code. */
  lemma WideDigitsPassValidation()
    ensures ValidateZipCode("\U{0660}\U{0661}\U{0662}\U{0663}")
    ensures |NormalizeZipCode("\U{0660}\U{0661}\U{0662}\U{0663}")| == 4
  {
    var s := "\U{0660}\U{0661}\U{0662}\U{0663}";
    assert forall i :: 0 <= i < |s| ==> IsDigit(s[i]);
    NormalizeFixesExactlyDigitStrings(s);
  }
}
