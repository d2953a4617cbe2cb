/**
 The string operations the country search relies on: lower-casing
 (`String.prototype.toLowerCase`) and substring search
 (`String.prototype.includes`).

 Lower-casing is modelled as the ASCII fold 'A'..'Z' -> 'a'..'z'; every other
 character is left as it is.
 */
module Text {

  predicate IsUpper(c: char) {
    'A' <= c <= 'Z'
  }

  predicate IsLower(c: char) {
    'a' <= c <= 'z'
  }

  function LowerChar(c: char): char {
    if IsUpper(c) then (c as int - 'A' as int + 'a' as int) as char else c
  }

  function UpperChar(c: char): char {
    if IsLower(c) then (c as int - 'a' as int + 'A' as int) as char else c
  }

  /** `s.toLowerCase()`, character by character. */
  function Lower(s: string): (r: string)
    ensures |r| == |s|
    ensures forall i :: 0 <= i < |s| ==> !IsUpper(r[i])
  {
    seq(|s|, i requires 0 <= i < |s| => LowerChar(s[i]))
  }

  /** Upper-casing as the ASCII fold 'a'..'z' -> 'A'..'Z', character by character. */
  function Upper(s: string): (r: string)
    ensures |r| == |s|
    ensures forall i :: 0 <= i < |s| ==> !IsLower(r[i])
  {
    seq(|s|, i requires 0 <= i < |s| => UpperChar(s[i]))
  }

  /** `y` is `x`, or `x` is a letter and `y` is the same letter in the other case. */
  predicate SameCharUpToCase(x: char, y: char) {
    || x == y
    || (IsLower(x) && y == UpperChar(x))
    || (IsUpper(x) && y == LowerChar(x))
  }

  /** Two strings that differ at most in the case of some of their letters. */
  predicate SameUpToCase(a: string, b: string) {
    |a| == |b| && forall i :: 0 <= i < |a| ==> SameCharUpToCase(a[i], b[i])
  }

  /** Two characters fold to the same character exactly when they differ at most in case. */
  lemma LowerCharEqualIffSameCase(x: char, y: char)
    ensures LowerChar(x) == LowerChar(y) <==> SameCharUpToCase(x, y)
  {
  }

  /** Folding case twice is folding it once. */
  lemma LowerIdempotent(s: string)
    ensures Lower(Lower(s)) == Lower(s)
  {
  }

  /** Lower-cased strings are equal exactly when the originals agree up to case. */
  lemma LowerEqualIffSameUpToCase(a: string, b: string)
    ensures Lower(a) == Lower(b) <==> SameUpToCase(a, b)
  {
    if Lower(a) == Lower(b) {
      forall i | 0 <= i < |a|
        ensures SameCharUpToCase(a[i], b[i])
      {
        assert Lower(a)[i] == Lower(b)[i];
        LowerCharEqualIffSameCase(a[i], b[i]);
      }
    }
    if SameUpToCase(a, b) {
      forall i | 0 <= i < |a|
        ensures Lower(a)[i] == Lower(b)[i]
      {
        LowerCharEqualIffSameCase(a[i], b[i]);
      }
    }
  }

  /** Changing the case of any letter of a string keeps it the same up to case. */
  lemma UpperSameUpToCase(s: string)
    ensures SameUpToCase(s, Upper(s))
    ensures Lower(Upper(s)) == Lower(s)
  {
    LowerEqualIffSameUpToCase(s, Upper(s));
  }

  /** `needle` occurs in `hay` starting at position `k`. */
  predicate OccursAt(hay: string, needle: string, k: int) {
    0 <= k && k + |needle| <= |hay| && hay[k..k + |needle|] == needle
  }

  /** `hay` contains `needle` as a contiguous substring (`hay.includes(needle)`). */
  predicate Contains(hay: string, needle: string)
    ensures Contains(hay, needle) ==> |needle| <= |hay|
    ensures hay == needle ==> Contains(hay, needle)
  {
    assert OccursAt(hay, hay, 0);
    exists k :: 0 <= k <= |hay| && OccursAt(hay, needle, k)
  }

  /** The empty string is a substring of every string. */
  lemma ContainsEmpty(hay: string)
    ensures Contains(hay, "")
  {
    assert OccursAt(hay, "", 0);
  }

  /**
   The scan `String.prototype.includes` performs: try every start position
   from the left until one matches.
   */
  method Includes(hay: string, needle: string) returns (found: bool)
    ensures found <==> Contains(hay, needle)
  {
    if |needle| > |hay| {
      return false;
    }
    var k := 0;
    while k <= |hay| - |needle|
      invariant 0 <= k <= |hay| - |needle| + 1
      invariant forall j :: 0 <= j < k ==> !OccursAt(hay, needle, j)
    {
      if hay[k..k + |needle|] == needle {
        assert OccursAt(hay, needle, k);
        return true;
      }
      k := k + 1;
    }
    return false;
  }
}
