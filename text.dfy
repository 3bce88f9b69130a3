/** Character and string helpers: ASCII digits, upper-casing as `str.upper`
    does it on the Latin letters, the word and digit classes of the regular
    expressions, and the decimal rendering of integers that f-strings and
    `str` produce. */
module Text {

  predicate IsDigit(c: char) { '0' <= c <= '9' }

  predicate AllDigits(s: string) { forall i :: 0 <= i < |s| ==> IsDigit(s[i]) }

  function DigitValue(c: char): (n: nat)
    requires IsDigit(c)
    ensures n <= 9
  {
    c as int - '0' as int
  }

  function DigitChar(n: nat): (c: char)
    requires n <= 9
    ensures IsDigit(c) && DigitValue(c) == n
  {
    ('0' as int + n) as char
  }

  /** The number a string of ASCII digits denotes, as `int(s)` reads it. */
  function DigitsValue(s: string): nat
    requires AllDigits(s)
  {
    if s == [] then 0 else DigitsValue(s[..|s| - 1]) * 10 + DigitValue(s[|s| - 1])
  }

  /** Ten to the power `k`. */
  function Pow10(k: nat): (p: nat)
    ensures p >= 1
  {
    if k == 0 then 1 else 10 * Pow10(k - 1)
  }

  /** `str(n)` for a natural number: no leading zeros, at least one digit. */
  function NatToString(n: nat): (s: string)
    ensures |s| >= 1 && AllDigits(s)
    ensures DigitsValue(s) == n
    ensures s[0] == '0' ==> n == 0 && |s| == 1
  {
    if n < 10 then [DigitChar(n)]
    else
      var prefix := NatToString(n / 10);
      var s := prefix + [DigitChar(n % 10)];
      assert s[..|s| - 1] == prefix;
      s
  }

  /** `str(i)` for an integer. */
  function IntToString(i: int): (s: string)
    ensures |s| >= 1
    ensures i >= 0 ==> s == NatToString(i)
    ensures i < 0 ==> s[0] == '-' && s[1..] == NatToString(-i)
  {
    if i >= 0 then NatToString(i) else "-" + NatToString(-i)
  }

  /** `"%0<width>d" % n`: the digits of `n`, left-padded with zeros. */
  function PadNat(n: nat, width: nat): (s: string)
    ensures |s| >= width && AllDigits(s)
    ensures DigitsValue(s) == n
    ensures |NatToString(n)| <= width ==> |s| == width
    decreases width
  {
    var digits := NatToString(n);
    if |digits| >= width then digits
    else
      var rest := PadNat(n, width - 1);
      ZeroPrefixKeepsValue(rest);
      "0" + rest
  }

  lemma {:induction false} ZeroPrefixKeepsValue(s: string)
    requires AllDigits(s)
    ensures AllDigits("0" + s) && DigitsValue("0" + s) == DigitsValue(s)
  {
    var t := "0" + s;
    if s != [] {
      assert t[..|t| - 1] == "0" + s[..|s| - 1];
      ZeroPrefixKeepsValue(s[..|s| - 1]);
    } else {
      assert t[..|t| - 1] == [];
    }
  }

  /** `str.upper` of one character, as Python's Unicode tables give it on
      Basic Latin, Latin-1 and Latin Extended-A and on the Latin ligatures:
      a letter becomes its capital, `ß` becomes `SS`, `ŉ` becomes `ʼN`,
      `ı` becomes `I`, `ſ` becomes `S`, `µ` becomes the Greek capital mu,
      `ÿ` becomes `Ÿ`, and a ligature becomes its letters. */
  function UpperChar(c: char): (u: string)
    ensures 1 <= |u| <= 3
    ensures c as int < 0x80 ==> |u| == 1 && (u[0] == c) == !('a' <= c <= 'z')
  {
    var n := c as int;
    if ('a' <= c <= 'z') || (0xE0 <= n <= 0xFE && n != 0xF7) then [(n - 32) as char]
    else if n == 0xB5 then [0x39C as char]
    else if n == 0xDF then "SS"
    else if n == 0xFF then [0x178 as char]
    else if (0x100 <= n <= 0x137 && n % 2 == 1 && n != 0x131) || (0x139 <= n <= 0x148 && n % 2 == 0)
         || (0x14A <= n <= 0x177 && n % 2 == 1) || (0x179 <= n <= 0x17E && n % 2 == 0) then [(n - 1) as char]
    else if n == 0x131 then "I"
    else if n == 0x149 then [0x2BC as char, 'N']
    else if n == 0x17F then "S"
    else if n == 0xFB00 then "FF"
    else if n == 0xFB01 then "FI"
    else if n == 0xFB02 then "FL"
    else if n == 0xFB03 then "FFI"
    else if n == 0xFB04 then "FFL"
    else if n == 0xFB05 || n == 0xFB06 then "ST"
    else [c]
  }

  /** A character `str.upper` changes. */
  predicate IsLower(c: char) { UpperChar(c) != [c] }

  /** What `str.upper` gives is already upper-case. */
  lemma UpperCharIsUpper(c: char)
    ensures forall k :: 0 <= k < |UpperChar(c)| ==> !IsLower(UpperChar(c)[k])
  {
  }

  /** `str.upper`: each character replaced by its upper-case form, which
      for a few characters is longer than one. */
  function Upper(s: string): (u: string)
    ensures |u| >= |s|
  {
    if s == [] then [] else UpperChar(s[0]) + Upper(s[1..])
  }

  predicate NoLower(s: string) { forall i :: 0 <= i < |s| ==> !IsLower(s[i]) }

  /** Upper-casing goes character by character, so it distributes over
      concatenation. */
  lemma {:induction false} UpperConcat(a: string, b: string)
    ensures Upper(a + b) == Upper(a) + Upper(b)
  {
    if a != [] {
      assert (a + b)[0] == a[0] && (a + b)[1..] == a[1..] + b;
      UpperConcat(a[1..], b);
    } else {
      assert a + b == b;
    }
  }

  lemma NoLowerConcat(a: string, b: string)
    requires NoLower(a) && NoLower(b)
    ensures NoLower(a + b)
  {
    forall i | 0 <= i < |a + b| ensures !IsLower((a + b)[i]) {
      if i >= |a| { assert (a + b)[i] == b[i - |a|]; }
    }
  }

  /** Upper-casing leaves no lower-case letter and is idempotent. */
  lemma {:induction false} UpperNormalizes(s: string)
    ensures NoLower(Upper(s))
    ensures Upper(Upper(s)) == Upper(s)
  {
    if s != [] {
      UpperNormalizes(s[1..]);
      UpperCharIsUpper(s[0]);
      NoLowerConcat(UpperChar(s[0]), Upper(s[1..]));
    }
    UpperOfNoLower(Upper(s));
  }

  /** A string without lower-case letters is its own upper-case form. */
  lemma {:induction false} UpperOfNoLower(s: string)
    requires NoLower(s)
    ensures Upper(s) == s
  {
    if s != [] {
      assert NoLower(s[1..]) by {
        forall i | 0 <= i < |s[1..]| ensures !IsLower(s[1..][i]) { assert s[1..][i] == s[i + 1]; }
      }
      UpperOfNoLower(s[1..]);
      assert !IsLower(s[0]);
      assert s == [s[0]] + s[1..];
    }
  }

  /** The characters `\s` matches in a `str` pattern, the ones
      `str.isspace` accepts: `\t` to `\r`, the separators `\x1c` to `\x1f`,
      the space, U+0085, the no-break space U+00A0, the Ogham space mark
      U+1680, the spaces U+2000 to U+200A, the line and paragraph separators
      U+2028 and U+2029, U+202F, U+205F and the ideographic space U+3000. */
  predicate IsSpace(c: char)
  {
    var n := c as int;
    (9 <= n <= 13) || (28 <= n <= 32) || n == 0x85 || n == 0xA0 || n == 0x1680
    || (0x2000 <= n <= 0x200A) || n == 0x2028 || n == 0x2029 || n == 0x202F || n == 0x205F || n == 0x3000
  }

  /** The characters from U+0080 to U+07FF that the `regex` crate's
      Unicode `\w` matches (alphabetic, marks, decimal digits, connector
      punctuation; Unicode 15.0), as closed ranges of code points. */
  const WordRanges: seq<(int, int)> :=
    [(0xAA, 0xAA), (0xB5, 0xB5), (0xBA, 0xBA), (0xC0, 0xD6), (0xD8, 0xF6), (0xF8, 0x2C1), (0x2C6, 0x2D1), (0x2E0, 0x2E4),
     (0x2EC, 0x2EC), (0x2EE, 0x2EE), (0x300, 0x374), (0x376, 0x377), (0x37A, 0x37D), (0x37F, 0x37F), (0x386, 0x386), (0x388, 0x38A),
     (0x38C, 0x38C), (0x38E, 0x3A1), (0x3A3, 0x3F5), (0x3F7, 0x481), (0x483, 0x52F), (0x531, 0x556), (0x559, 0x559), (0x560, 0x588)] +
    [(0x591, 0x5BD), (0x5BF, 0x5BF), (0x5C1, 0x5C2), (0x5C4, 0x5C5), (0x5C7, 0x5C7), (0x5D0, 0x5EA), (0x5EF, 0x5F2), (0x610, 0x61A),
     (0x620, 0x669), (0x66E, 0x6D3), (0x6D5, 0x6DC), (0x6DF, 0x6E8), (0x6EA, 0x6FC), (0x6FF, 0x6FF), (0x710, 0x74A), (0x74D, 0x7B1),
     (0x7C0, 0x7F5), (0x7FA, 0x7FA), (0x7FD, 0x7FD)]

  /** Characters `\w` matches: the ASCII letters, digits and `_`, and the
      word characters of `WordRanges`. */
  predicate IsWordChar(c: char)
  {
    IsDigit(c) || ('a' <= c <= 'z') || ('A' <= c <= 'Z') || c == '_'
    || (0x80 <= c as int < 0x800 && exists k | 0 <= k < |WordRanges| :: WordRanges[k].0 <= c as int <= WordRanges[k].1)
  }

  /** The first code point of each run of ten Unicode decimal digits
      (general category Nd, Unicode 15.0), zero to nine. */
  const DecimalZeros: seq<int> :=
    [0x30, 0x660, 0x6F0, 0x7C0, 0x966, 0x9E6, 0xA66, 0xAE6,
     0xB66, 0xBE6, 0xC66, 0xCE6, 0xD66, 0xDE6, 0xE50, 0xED0,
     0xF20, 0x1040, 0x1090, 0x17E0, 0x1810, 0x1946, 0x19D0, 0x1A80] +
    [0x1A90, 0x1B50, 0x1BB0, 0x1C40, 0x1C50, 0xA620, 0xA8D0, 0xA900,
     0xA9D0, 0xA9F0, 0xAA50, 0xABF0, 0xFF10, 0x104A0, 0x10D30, 0x11066,
     0x110F0, 0x11136, 0x111D0, 0x112F0, 0x11450, 0x114D0, 0x11650, 0x116C0] +
    [0x11730, 0x118E0, 0x11950, 0x11C50, 0x11D50, 0x11DA0, 0x11F50, 0x16A60,
     0x16AC0, 0x16B50, 0x1D7CE, 0x1D7D8, 0x1D7E2, 0x1D7EC, 0x1D7F6, 0x1E140,
     0x1E2F0, 0x1E4F0, 0x1E950, 0x1FBF0]

  /** Characters the Unicode `\d` of Python's `re` and of the `regex`
      crate matches: any decimal digit, not only the ASCII ones. */
  predicate IsDecimalDigit(c: char)
  {
    exists k | 0 <= k < |DecimalZeros| :: DecimalZeros[k] <= c as int < DecimalZeros[k] + 10
  }

  predicate AllDecimalDigits(s: string) { forall i :: 0 <= i < |s| ==> IsDecimalDigit(s[i]) }

  /** ASCII digits are decimal digits. */
  lemma AsciiDigitsAreDecimal(s: string)
    requires AllDigits(s)
    ensures AllDecimalDigits(s)
  {
    forall i | 0 <= i < |s| ensures IsDecimalDigit(s[i]) {
      assert DecimalZeros[0] <= s[i] as int < DecimalZeros[0] + 10;
    }
  }
}
