/** The two `pattern=` constraints of the schemas. Pydantic applies them
    with the Rust `regex` crate as a search anywhere in the string; `$`
    matches only at the very end. `\d` is any Unicode decimal digit, while
    `[0-9]` is ASCII only. */
module Patterns {
  import opened Text

  /** `^(?:\d{4}|G\d{3})$` on merchant_category. */
  const MerchantCategoryPatternSource: string := "^(?:\\d{4}|G\\d{3})$"

  predicate MerchantCategoryPattern(s: string)
  {
    |s| == 4 && (AllDecimalDigits(s) || (s[0] == 'G' && AllDecimalDigits(s[1..])))
  }

  /** `\b[2-9][0-9]{5}-[0-9]{4}\b` on reporter_id, with no anchors. */
  const ReporterIdPatternSource: string := "\\b[2-9][0-9]{5}-[0-9]{4}\\b"

  /** A word boundary before position `i`: exactly one of the characters
      around it is a word character, the outside of the text not being one. */
  predicate WordBoundary(s: string, i: int)
    requires 0 <= i <= |s|
  {
    (i > 0 && IsWordChar(s[i - 1])) != (i < |s| && IsWordChar(s[i]))
  }

  /** An organisation number of the pattern's shape starts at `i`. */
  predicate ReporterIdAt(s: string, i: int)
  {
    0 <= i && i + 11 <= |s|
    && '2' <= s[i] <= '9' && AllDigits(s[i + 1..i + 6]) && s[i + 6] == '-' && AllDigits(s[i + 7..i + 11])
    && WordBoundary(s, i) && WordBoundary(s, i + 11)
  }

  predicate ContainsReporterId(s: string)
  {
    exists i | 0 <= i <= |s| :: ReporterIdAt(s, i)
  }

  /** The leftmost match, as the regex engine finds it scanning from `from`. */
  function FindReporterId(s: string, from: nat): (r: int)
    requires from <= |s|
    ensures -1 <= r < |s|
    ensures r >= 0 ==> from <= r && ReporterIdAt(s, r) && forall j :: from <= j < r ==> !ReporterIdAt(s, j)
    ensures r == -1 ==> forall j :: from <= j ==> !ReporterIdAt(s, j)
    decreases |s| - from
  {
    if from + 11 > |s| then -1
    else if ReporterIdAt(s, from) then from
    else FindReporterId(s, from + 1)
  }

  /** The search finds a match exactly when there is one. */
  lemma FindReporterIdIsSearch(s: string)
    ensures FindReporterId(s, 0) >= 0 <==> ContainsReporterId(s)
  {
    if FindReporterId(s, 0) >= 0 {
      assert ReporterIdAt(s, FindReporterId(s, 0));
    }
  }

  /** With no anchors, an organisation number passes wherever it stands,
      as long as it is not glued to a letter, digit or underscore. */
  lemma {:induction false} ReporterIdAnywhere(prefix: string, id: string, suffix: string)
    requires ReporterIdAt(id, 0) && |id| == 11
    requires prefix == [] || !IsWordChar(prefix[|prefix| - 1])
    requires suffix == [] || !IsWordChar(suffix[0])
    ensures ContainsReporterId(prefix + id + suffix)
  {
    var s := prefix + id + suffix;
    var i := |prefix|;
    assert s[i..i + 11] == id;
    assert s[i + 1..i + 6] == id[1..6];
    assert s[i + 7..i + 11] == id[7..11];
    assert s[i] == id[0] && s[i + 6] == id[6] && s[i + 10] == id[10];
    assert i > 0 ==> s[i - 1] == prefix[|prefix| - 1];
    assert i + 11 < |s| ==> s[i + 11] == suffix[0];
    assert ReporterIdAt(s, i);
  }

  /** A country prefix glued to the number hides the word boundary, so the
      pattern does not match. */
  lemma GluedPrefixRejected()
    ensures ReporterIdAt("556677-8899", 0)
    ensures !ContainsReporterId("SE556677-8899")
  {
    var s := "SE556677-8899";
    assert "556677-8899"[1..6] == "56677";
    assert "556677-8899"[7..11] == "8899";
    assert !ReporterIdAt(s, 0) && !ReporterIdAt(s, 1);
    assert !WordBoundary(s, 2);
  }

  /** Word characters are Unicode ones: a Swedish letter glued to the
      number hides the boundary as an ASCII letter would. */
  lemma GluedNonAsciiLetterRejected()
    ensures !ContainsReporterId("\U{F6}556677-8899")
  {
    var s := "\U{F6}556677-8899";
    assert WordRanges[4].0 <= s[0] as int <= WordRanges[4].1;
    assert IsWordChar(s[0]) && IsWordChar(s[1]);
    assert !WordBoundary(s, 1);
    assert !ReporterIdAt(s, 0);
  }

  /** `\d` takes any decimal digit, so a merchant category in
      Arabic-Indic digits passes the pattern. */
  lemma MerchantCategoryTakesUnicodeDigits()
    ensures MerchantCategoryPattern("\U{661}\U{662}\U{663}\U{664}")
  {
    var s := "\U{661}\U{662}\U{663}\U{664}";
    forall i | 0 <= i < 4 ensures IsDecimalDigit(s[i]) {
      assert DecimalZeros[1] <= s[i] as int < DecimalZeros[1] + 10;
    }
  }
}
