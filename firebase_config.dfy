/**
 * Extraction of the realtime database URL from the Firebase configuration
 * snippet that the web client embeds.
 */
module FirebaseConfig {
  import opened Optional
  import opened JavaStrings

  /** `k` is the first position at or after `from` holding `c`. */
  predicate FirstFrom(s: string, c: char, from: nat, k: int) {
    from <= k < |s| && s[k] == c && forall i :: from <= i < k ==> s[i] != c
  }

  /** `k` is the first position where `t` occurs in `s`. */
  predicate FirstOccurrence(s: string, t: string, k: int) {
    OccursAt(s, t, k) && forall i :: 0 <= i < k ==> !OccursAt(s, t, i)
  }

  /**
   * parseFirebaseUrl: find "databaseURL", the next ':' after it, the next '"'
   * after that, and return the text up to the following '"'. No step checks
   * for -1, so a missing key or colon only moves the search start; the result
   * is None exactly where the final substring call throws.
   */
  function ParseFirebaseUrl(snippet: string): (r: Option<string>)
    ensures r.Some? ==> '"' !in r.value
    ensures r.Some? ==> exists i, j :: 0 <= i <= j <= |snippet| && snippet[i..j] == r.value
  {
    var idx := IndexOfString(snippet, "databaseURL", 0);
    var colon := IndexOf(snippet, ':', idx + 11);
    var openQuote := IndexOf(snippet, '"', colon);
    var closeQuote := IndexOf(snippet, '"', openQuote + 1);
    var r := Substring(snippet, openQuote + 1, closeQuote);
    assert r.Some? ==> snippet[openQuote + 1..closeQuote] == r.value;
    r
  }

  /**
   * When the snippet has "databaseURL", then a ':', then two '"', the result
   * is exactly the text between the first '"' after that colon and the next.
   */
  lemma ParseExtractsQuotedValue(snippet: string, key: nat, colon: nat, open: nat, close: nat)
    requires FirstOccurrence(snippet, "databaseURL", key)
    requires FirstFrom(snippet, ':', key + 11, colon)
    requires FirstFrom(snippet, '"', colon, open)
    requires FirstFrom(snippet, '"', open + 1, close)
    ensures ParseFirebaseUrl(snippet) == Some(snippet[open + 1..close])
  {
  }

  /**
   * The missing-key path: with no "databaseURL" and no ':' from position 10
   * on, both -1 results go unchecked and the search for quotes starts at the
   * beginning, so the result is the text inside the first two '"'.
   */
  lemma ParseWithoutKey(snippet: string, open: nat, close: nat)
    requires forall i :: !OccursAt(snippet, "databaseURL", i)
    requires forall i :: 10 <= i < |snippet| ==> snippet[i] != ':'
    requires FirstFrom(snippet, '"', 0, open)
    requires FirstFrom(snippet, '"', open + 1, close)
    ensures ParseFirebaseUrl(snippet) == Some(snippet[open + 1..close])
  {
  }

  /** An instance of the missing-key path: a snippet that is just a quoted word yields that word. */
  lemma MissingKeyStillParses()
    ensures ParseFirebaseUrl("\"db\"") == Some("db")
  {
    var s := "\"db\"";
    assert IndexOfString(s, "databaseURL", 0) == -1;
    assert IndexOf(s, ':', 10) == -1;
    assert IndexOf(s, '"', -1) == 0;
    assert IndexOf(s, '"', 1) == 3;
    assert s[1..3] == "db";
  }
}
