/** The string operations the page relies on: `toLowerCase`, `includes` and `startsWith`.
    Lower-casing is modelled on ASCII letters only; every other character is left as it is. */
module Strings {

  /** One character lower-cased: `A`..`Z` map to `a`..`z`. */
  function LowerChar(c: char): (r: char)
    ensures 'A' <= c <= 'Z' ==> 'a' <= r <= 'z' && r as int == c as int + 32
    ensures !('A' <= c <= 'Z') ==> r == c
    ensures !('A' <= r <= 'Z')
  {
    if 'A' <= c <= 'Z' then (c as int + 32) as char else c
  }

  /** `s.toLowerCase()`, character by character. */
  function Lower(s: string): (r: string)
    ensures |r| == |s|
    ensures forall i :: 0 <= i < |s| ==> r[i] == LowerChar(s[i])
  {
    seq(|s|, i requires 0 <= i < |s| => LowerChar(s[i]))
  }

  /** Lower-casing twice is lower-casing once. */
  lemma LowerIdempotent(s: string)
    ensures Lower(Lower(s)) == Lower(s)
  {
    assert forall i :: 0 <= i < |s| ==> Lower(Lower(s))[i] == Lower(s)[i];
  }

  /** The only strings that lower-case to "k" are "k" and "K". */
  lemma LowerIsK(s: string)
    ensures Lower(s) == "k" <==> s == "k" || s == "K"
  {
    if Lower(s) == "k" {
      assert |s| == 1 && LowerChar(s[0]) == 'k';
      assert s == [s[0]];
    }
    if s == "k" || s == "K" {
      assert Lower(s)[0] == 'k';
    }
  }

  /** `t` occurs in `s` starting at index `i`. */
  ghost predicate OccursAt(s: string, t: string, i: nat)
  {
    i + |t| <= |s| && s[i..i + |t|] == t
  }

  /** `s.includes(t)`: scans `s` from the left for an occurrence of `t`. */
  function Includes(s: string, t: string): (r: bool)
    ensures r <==> exists i: nat :: OccursAt(s, t, i)
  {
    if |t| > |s| then false
    else if s[..|t|] == t then (assert OccursAt(s, t, 0); true)
    else
      var r := Includes(s[1..], t);
      assert r ==> exists i: nat :: OccursAt(s, t, i) by {
        if r {
          var i: nat :| OccursAt(s[1..], t, i);
          assert s[1..][i..i + |t|] == s[i + 1..i + 1 + |t|];
          assert OccursAt(s, t, i + 1);
        }
      }
      assert forall i: nat :: OccursAt(s, t, i) ==> r by {
        forall i: nat | OccursAt(s, t, i) ensures r {
          if i != 0 {
            assert s[1..][i - 1..i - 1 + |t|] == s[i..i + |t|];
            assert OccursAt(s[1..], t, i - 1);
          }
        }
      }
      r
  }

  /** `s.startsWith(p)`: `p` is a prefix of `s`, so in particular `s` includes `p`. */
  function StartsWith(s: string, p: string): (r: bool)
    ensures r <==> p <= s
    ensures r ==> Includes(s, p)
  {
    |p| <= |s| && s[..|p|] == p
  }

  /** The empty string occurs in every string. */
  lemma IncludesEmpty(s: string)
    ensures Includes(s, "")
  {
    assert OccursAt(s, "", 0);
  }
}
