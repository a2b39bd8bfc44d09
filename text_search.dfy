/**
 * The two string primitives the catalog search is built from:
 * `String.prototype.toLowerCase` and `String.prototype.includes`.
 */
module TextSearch {

  predicate IsUpper(c: char) {
    'A' <= c <= 'Z'
  }

  /** Lower-cases one character (ASCII letters only; every other character maps to itself). */
  function LowerChar(c: char): (r: char)
    ensures !IsUpper(r)
    ensures IsUpper(c) ==> r == "abcdefghijklmnopqrstuvwxyz"[c as int - 'A' as int]
    ensures !IsUpper(c) ==> r == c
  {
    if IsUpper(c) then (c as int - 'A' as int + 'a' as int) as char else c
  }

  /** `s.toLowerCase()`, character by character. */
  function Lower(s: string): (r: string)
    ensures |r| == |s|
    ensures forall i :: 0 <= i < |s| ==> r[i] == LowerChar(s[i])
  {
    seq(|s|, i requires 0 <= i < |s| => LowerChar(s[i]))
  }

  /** Lowering twice is lowering once. */
  lemma LowerIdempotent(s: string)
    ensures Lower(Lower(s)) == Lower(s)
  {
  }

  /** Lowering commutes with taking a slice. */
  lemma LowerSlice(s: string, i: nat, j: nat)
    requires i <= j <= |s|
    ensures Lower(s[i..j]) == Lower(s)[i..j]
  {
  }

  /** `pat` occurs in `s` at position `i`. */
  predicate OccursAt(s: string, pat: string, i: nat) {
    i + |pat| <= |s| && s[i..i + |pat|] == pat
  }

  /** `s.includes(pat)`, defined by scanning `s` from the front. */
  function Includes(s: string, pat: string): (r: bool)
    ensures pat == [] ==> r
    ensures r ==> |pat| <= |s|
    decreases |s|
  {
    (|pat| <= |s| && s[..|pat|] == pat) || (|s| > 0 && Includes(s[1..], pat))
  }

  /** An occurrence at any position is found by the scan. */
  lemma {:induction false} IncludesFrom(s: string, pat: string, i: nat)
    requires OccursAt(s, pat, i)
    ensures Includes(s, pat)
    decreases i
  {
    if i > 0 {
      assert s[1..][i - 1..i - 1 + |pat|] == s[i..i + |pat|];
      IncludesFrom(s[1..], pat, i - 1);
    }
  }

  /** When the scan succeeds, the pattern occurs at the returned position. */
  lemma {:induction false} IncludesWitness(s: string, pat: string) returns (i: nat)
    requires Includes(s, pat)
    ensures OccursAt(s, pat, i)
    decreases |s|
  {
    if |pat| <= |s| && s[..|pat|] == pat {
      i := 0;
    } else {
      var j := IncludesWitness(s[1..], pat);
      assert s[1..][j..j + |pat|] == s[j + 1..j + 1 + |pat|];
      i := j + 1;
    }
  }

  /** The scan agrees with the positional definition of an occurrence, in both directions. */
  lemma IncludesIffOccurs(s: string, pat: string)
    ensures Includes(s, pat) <==> exists i: nat :: OccursAt(s, pat, i)
  {
    if Includes(s, pat) {
      var i := IncludesWitness(s, pat);
    }
    forall i: nat | OccursAt(s, pat, i) ensures Includes(s, pat) {
      IncludesFrom(s, pat, i);
    }
  }

  /** A verbatim occurrence survives lowering both sides. */
  lemma IncludesLowered(s: string, pat: string)
    requires Includes(s, pat)
    ensures Includes(Lower(s), Lower(pat))
  {
    IncludesIffOccurs(s, pat);
    var i: nat :| OccursAt(s, pat, i);
    LowerSlice(s, i, i + |pat|);
    assert OccursAt(Lower(s), Lower(pat), i);
    IncludesIffOccurs(Lower(s), Lower(pat));
  }
}
