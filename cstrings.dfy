/**
 * The two C library string routines the hooks rely on, `strrchr` and `strstr`,
 * over `string` (a C string is the sequence of characters before its NUL).
 */
module CStrings {
  import opened Wrappers

  /** `strrchr(s, c)`: the index of the last occurrence of `c` in `s`, or None when `c` does not occur. */
  function LastIndexOf(s: string, c: char): (r: Option<nat>)
    ensures r.Some? ==> r.value < |s| && s[r.value] == c
    ensures r.Some? ==> forall j :: r.value < j < |s| ==> s[j] != c
    ensures r.None? <==> c !in s
  {
    if |s| == 0 then None
    else if s[|s| - 1] == c then Some(|s| - 1)
    else LastIndexOf(s[..|s| - 1], c)
  }

  /** `strstr(haystack, needle) != NULL`: scan the start positions of `haystack` left to right for a copy of `needle`. */
  predicate Contains(haystack: string, needle: string)
  {
    needle <= haystack || (|haystack| > 0 && Contains(haystack[1..], needle))
  }

  /** `Contains` holds exactly when `needle` starts at some position of `haystack`. */
  lemma {:induction false} ContainsIff(haystack: string, needle: string)
    ensures Contains(haystack, needle) <==> exists i :: 0 <= i <= |haystack| && needle <= haystack[i..]
  {
    if needle <= haystack {
      assert haystack[0..] == haystack;
    } else if |haystack| > 0 {
      ContainsIff(haystack[1..], needle);
      if exists i :: 0 <= i <= |haystack| && needle <= haystack[i..] {
        var i :| 0 <= i <= |haystack| && needle <= haystack[i..];
        assert i != 0;
        assert haystack[1..][i - 1..] == haystack[i..];
      }
      if Contains(haystack[1..], needle) {
        var i :| 0 <= i <= |haystack| - 1 && needle <= haystack[1..][i..];
        assert haystack[1..][i..] == haystack[i + 1..];
      }
    }
  }
}
