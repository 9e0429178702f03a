/** String helpers shared by the builder (package tool). */
module Tool {

  /** Linear membership test: scans `arr` from the front and stops at the
      first element equal to `s`. */
  function IsStringInArray(s: string, arr: seq<string>): (found: bool)
    ensures found <==> s in arr
    ensures found <==> exists i :: 0 <= i < |arr| && arr[i] == s
  {
    if |arr| == 0 then false
    else if arr[0] == s then true
    else IsStringInArray(s, arr[1..])
  }

  /** Appending one element adds exactly that element to what is found. */
  lemma IsStringInArrayAppend(s: string, arr: seq<string>, x: string)
    ensures IsStringInArray(s, arr + [x]) == (IsStringInArray(s, arr) || x == s)
  {
  }

  /** The scan returns true as soon as it meets a match: whatever follows
      the first occurrence of `s` does not change the answer. */
  lemma IsStringInArrayStopsAtFirstMatch(s: string, prefix: seq<string>, rest: seq<string>)
    ensures IsStringInArray(s, prefix + [s] + rest)
  {
    assert (prefix + [s] + rest)[|prefix|] == s;
  }

  /** The answer depends only on which elements occur, not on their order
      or on how often they repeat. */
  lemma IsStringInArrayOnlyElementsMatter(s: string, a: seq<string>, b: seq<string>)
    requires forall x :: x in a <==> x in b
    ensures IsStringInArray(s, a) == IsStringInArray(s, b)
  {
  }
}
