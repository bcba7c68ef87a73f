/**
 * File-name sanitising of test names and hosts (`sanitized`), as written and
 * as evidently intended.
 */
module SanitizeProperties {
  import opened Screentest

  /** Sanitising twice is sanitising once. */
  lemma SanitizedIdempotent(text: string)
    ensures Sanitized(Sanitized(text)) == Sanitized(text)
  {
    var once := Sanitized(text);
    assert forall i :: 0 <= i < |once| ==> Sanitized(once)[i] == once[i];
  }

  /** No character of the class survives, and nothing else is touched: backslash included. */
  lemma SanitizedAvoidsClass(text: string)
    ensures forall i :: 0 <= i < |text| ==> Sanitized(text)[i] !in SanitizeSet
    ensures forall i :: 0 <= i < |text| ==> (text[i] == '\\' <==> Sanitized(text)[i] == '\\')
  {
  }

  /** Backslash, a path separator on Windows, passes through unchanged: "a\b" stays "a\b". */
  lemma BackslashSurvivesSanitized()
    ensures Sanitized("a\\b") == "a\\b"
  {
    assert Sanitized("a\\b")[1] == '\\';
  }

  /**
   * The characters unsafe in a file name: the class above plus backslash, the
   * Windows path separator that the `/\\:` in the pattern was evidently
   * written to cover beside '/' and ':'.
   */
  const FileNameUnsafe: set<char> := SanitizeSet + {'\\'}

  /** sanitized with the backslash the pattern "[.*<>?`'|/\\: ]" was evidently meant to include. */
  function SanitizedIntended(text: string): (r: string)
    ensures |r| == |text|
    ensures forall i :: 0 <= i < |text| ==> r[i] !in FileNameUnsafe
    ensures forall i :: 0 <= i < |text| ==> (text[i] !in FileNameUnsafe ==> r[i] == text[i])
  {
    if text == [] then []
    else [if text[0] in FileNameUnsafe then '-' else text[0]] + SanitizedIntended(text[1..])
  }

  /** The intended function is idempotent too. */
  lemma SanitizedIntendedIdempotent(text: string)
    ensures SanitizedIntended(SanitizedIntended(text)) == SanitizedIntended(text)
  {
    var once := SanitizedIntended(text);
    assert forall i :: 0 <= i < |once| ==> SanitizedIntended(once)[i] == once[i];
  }

  /** The two agree on every text without a backslash, and differ on "a\b". */
  lemma {:induction false} SanitizedAgreesWithoutBackslash(text: string)
    ensures '\\' !in text ==> SanitizedIntended(text) == Sanitized(text)
    ensures SanitizedIntended("a\\b") == "a-b" != Sanitized("a\\b")
  {
    if '\\' !in text && text != [] {
      SanitizedAgreesWithoutBackslash(text[1..]);
    }
    BackslashSurvivesSanitized();
    assert SanitizedIntended("a\\b")[1] == '-';
  }
}
