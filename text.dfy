/**
 * The two string operations the keyword classifier relies on: Python's
 * `str.lower()` and the substring test `p in s`.
 */
module Text {

  /** Upper-case letters of ASCII and of the Latin-1 supplement (À..Þ except ×). */
  predicate IsUpper(c: char)
  {
    ('A' <= c <= 'Z') || ('À' <= c <= 'Þ' && c != '×')
  }

  /** Lower-casing of one character: each upper-case letter sits 32 code points below its lower-case form. */
  function LowerChar(c: char): (r: char)
    ensures !IsUpper(r)
    ensures !IsUpper(c) ==> r == c
    ensures IsUpper(c) ==> r as int == c as int + 32
  {
    if IsUpper(c) then (c as int + 32) as char else c
  }

  /** `s.lower()`: a character-by-character map that keeps the length. */
  function Lower(s: string): (r: string)
    ensures |r| == |s|
    ensures forall i :: 0 <= i < |s| ==> r[i] == LowerChar(s[i])
  {
    seq(|s|, i requires 0 <= i < |s| => LowerChar(s[i]))
  }

  /** Lower-casing twice is lower-casing once. */
  lemma LowerIdempotent(s: string)
    ensures Lower(Lower(s)) == Lower(s)
  {
  }

  /** `p` occurs in `s` starting at index `i`. */
  predicate OccursAt(s: string, p: string, i: int)
  {
    0 <= i && i + |p| <= |s| && s[i..i + |p|] == p
  }

  /**
   * Python's `p in s`: `p` is a contiguous substring of `s`. The empty string
   * is in every string, and nothing longer than `s` is in `s`.
   */
  function Contains(s: string, p: string): (r: bool)
    ensures |p| == 0 ==> r
    ensures |p| > |s| ==> !r
  {
    assert |p| == 0 ==> OccursAt(s, p, 0);
    exists i | 0 <= i <= |s| - |p| :: OccursAt(s, p, i)
  }

  /** A string that lacks one of the characters of `p` cannot contain `p`. */
  lemma MissingCharExcludes(s: string, p: string, k: nat)
    requires k < |p| && p[k] !in s
    ensures !Contains(s, p)
  {
  }

  /** A string in which two adjacent characters of `p` never stand side by side cannot contain `p`. */
  lemma MissingPairExcludes(s: string, p: string, k: nat)
    requires k + 1 < |p|
    requires forall i :: 0 <= i < |s| - 1 ==> !(s[i] == p[k] && s[i + 1] == p[k + 1])
    ensures !Contains(s, p)
  {
    forall i | 0 <= i <= |s| - |p| ensures !OccursAt(s, p, i) {
      assert !(s[i + k] == p[k] && s[i + k + 1] == p[k + 1]);
      assert s[i..i + |p|][k] == s[i + k] && s[i..i + |p|][k + 1] == s[i + k + 1];
    }
  }
}
