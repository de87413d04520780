/**
 * The string operations the article pipeline relies on: Python's prefix
 * slice `s[:n]`, `str.lower()` restricted to ASCII letters, and the
 * substring test `needle in haystack`.
 */
module Text {

  /** Python's `s[:n]`: the first `n` elements, or all but the last `-n`
      elements when `n` is negative. */
  function Take<T>(s: seq<T>, n: int): (r: seq<T>)
    ensures r <= s
    ensures 0 <= n ==> |r| == (if n < |s| then n else |s|)
    ensures n < 0 ==> |r| == (if |s| + n < 0 then 0 else |s| + n)
  {
    if 0 <= n then
      (if n < |s| then s[..n] else s)
    else
      (if |s| + n < 0 then [] else s[..|s| + n])
  }

  /** `str.lower()` on one character: ASCII upper-case letters only;
      every other character (digits, spaces, `°`) is left unchanged. */
  function LowerChar(c: char): char
  {
    if 'A' <= c <= 'Z' then (c as int + 32) as char else c
  }

  /** `str.lower()`: the same length, no ASCII upper-case letter left,
      and every other character kept. */
  function Lower(s: string): (r: string)
    ensures |r| == |s|
    ensures forall i :: 0 <= i < |r| ==> !('A' <= r[i] <= 'Z')
    ensures forall i :: 0 <= i < |s| && !('A' <= s[i] <= 'Z') ==> r[i] == s[i]
    ensures forall i :: 0 <= i < |s| && 'A' <= s[i] <= 'Z' ==> r[i] as int == s[i] as int + 32
  {
    seq(|s|, i requires 0 <= i < |s| => LowerChar(s[i]))
  }

  lemma LowerIdempotent(s: string)
    ensures Lower(Lower(s)) == Lower(s)
  {
    assert forall i :: 0 <= i < |s| ==> Lower(Lower(s))[i] == Lower(s)[i];
  }

  /** `needle` occurs in `hay` starting at index `i`. */
  ghost predicate OccursAt(needle: string, hay: string, i: int)
  {
    0 <= i && i + |needle| <= |hay| && hay[i..i + |needle|] == needle
  }

  /** Python's `needle in hay` on strings: is `needle` a prefix of some
      suffix of `hay`. The empty string occurs in every string. */
  predicate IsSubstring(needle: string, hay: string): (b: bool)
    ensures needle <= hay ==> b
    ensures b ==> |needle| <= |hay|
    decreases |hay|
  {
    needle <= hay || (0 < |hay| && IsSubstring(needle, hay[1..]))
  }

  /** The executable substring test agrees with the positional definition,
      in both directions. */
  lemma {:induction false} IsSubstringOccurs(needle: string, hay: string)
    ensures IsSubstring(needle, hay) <==> exists i :: OccursAt(needle, hay, i)
    decreases |hay|
  {
    if needle <= hay {
      assert OccursAt(needle, hay, 0);
    } else if 0 < |hay| {
      IsSubstringOccurs(needle, hay[1..]);
      if IsSubstring(needle, hay[1..]) {
        var i :| OccursAt(needle, hay[1..], i);
        assert hay[1..][i..i + |needle|] == hay[i + 1..i + 1 + |needle|];
        assert OccursAt(needle, hay, i + 1);
      } else {
        assert !OccursAt(needle, hay, 0);
        forall i | OccursAt(needle, hay, i) && 0 < i
          ensures OccursAt(needle, hay[1..], i - 1)
        {
          assert hay[1..][i - 1..i - 1 + |needle|] == hay[i..i + |needle|];
        }
      }
    } else {
      assert 0 < |needle|;
    }
  }

  /** Every character of a substring occurs in the haystack. */
  lemma SubstringCharsOccur(needle: string, hay: string)
    ensures IsSubstring(needle, hay) ==> forall k :: 0 <= k < |needle| ==> needle[k] in hay
  {
    IsSubstringOccurs(needle, hay);
    forall i, k | OccursAt(needle, hay, i) && 0 <= k < |needle|
      ensures needle[k] in hay
    {
      assert hay[i + k] == needle[k];
    }
  }

  /** A needle found at a known position is a substring. */
  lemma OccursIsSubstring(needle: string, hay: string, i: int)
    requires OccursAt(needle, hay, i)
    ensures IsSubstring(needle, hay)
  {
    IsSubstringOccurs(needle, hay);
  }
}
