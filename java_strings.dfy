/**
 * The pieces of java.lang.String that the game entity relies on: a String
 * reference that may be null, string conversion, indexOf and substring.
 */
module JavaStrings {
  import opened Optional

  /** A Java String reference: null, or a character sequence. */
  datatype NullableString = Null | Str(value: string)

  /** The text string concatenation produces for a reference: null becomes "null". */
  function Render(s: NullableString): string {
    match s
    case Null => "null"
    case Str(v) => v
  }

  /** Where a search starting at `from` really begins: Java clamps a negative start to 0. */
  function Clamp(from: int): nat {
    if from < 0 then 0 else from
  }

  /**
   * String.indexOf(char, fromIndex): the first position at or after the
   * clamped start holding `c`, or -1 when there is none.
   */
  function IndexOf(s: string, c: char, from: int): (r: int)
    ensures r == -1 || (Clamp(from) <= r < |s| && s[r] == c)
    ensures forall i :: Clamp(from) <= i < |s| && (r == -1 || i < r) ==> s[i] != c
    decreases |s| - from
  {
    if from < 0 then IndexOf(s, c, 0)
    else if from >= |s| then -1
    else if s[from] == c then from
    else IndexOf(s, c, from + 1)
  }

  /** `t` occurs in `s` starting at position `k`. */
  predicate OccursAt(s: string, t: string, k: int) {
    0 <= k && k + |t| <= |s| && s[k..k + |t|] == t
  }

  /**
   * String.indexOf(String) searching from `from`, for a non-empty `t`: the
   * first position at or after `from` where `t` occurs, or -1 when it occurs
   * nowhere there. (For an empty `t` past the end Java returns the length.)
   */
  function IndexOfString(s: string, t: string, from: nat): (r: int)
    ensures r == -1 || (from <= r && OccursAt(s, t, r))
    ensures forall k :: from <= k && (r == -1 || k < r) ==> !OccursAt(s, t, k)
    decreases |s| - from
  {
    if from + |t| > |s| then -1
    else if s[from..from + |t|] == t then from
    else IndexOfString(s, t, from + 1)
  }

  /**
   * String.substring(begin, end); None where Java throws
   * StringIndexOutOfBoundsException.
   */
  function Substring(s: string, begin: int, end: int): (r: Option<string>)
    ensures r.Some? <==> 0 <= begin <= end <= |s|
    ensures r.Some? ==> |r.value| == end - begin && forall i :: 0 <= i < |r.value| ==> r.value[i] == s[begin + i]
  {
    if 0 <= begin <= end <= |s| then Some(s[begin..end]) else None
  }
}
