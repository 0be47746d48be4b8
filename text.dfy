/**
 * The string operations the handlers use: substring search (Go's
 * `strings.Contains`) and lower-casing (Go's `strings.ToLower`, restricted
 * here to ASCII letters).
 *
 * A Dafny `string` is a sequence of Unicode scalar values, so `|s|` is the
 * number of code points Go's `utf8.RuneCountInString` reports, and a
 * substring match on code points coincides with Go's match on the UTF-8
 * bytes of valid text.
 */
module Text {

  /** `t` occurs in `s` at position `i`. */
  predicate OccursAt(s: string, t: string, i: nat) {
    i + |t| <= |s| && s[i..i + |t|] == t
  }

  /** Substring search, scanning `s` from the left. */
  function Contains(s: string, t: string): bool
    decreases |s|
  {
    if |t| > |s| then false
    else s[..|t|] == t || Contains(s[1..], t)
  }

  /** The scan finds `t` exactly when `t` occurs somewhere in `s`. */
  lemma {:induction false} ContainsIff(s: string, t: string)
    ensures Contains(s, t) <==> exists i: nat :: OccursAt(s, t, i)
    decreases |s|
  {
    if |t| > |s| {
      forall i: nat ensures !OccursAt(s, t, i) { }
    } else if s[..|t|] == t {
      assert OccursAt(s, t, 0);
    } else {
      ContainsIff(s[1..], t);
      if Contains(s[1..], t) {
        var i: nat :| OccursAt(s[1..], t, i);
        assert s[i + 1..i + 1 + |t|] == s[1..][i..i + |t|];
        assert OccursAt(s, t, i + 1);
      } else {
        forall i: nat | OccursAt(s, t, i) ensures false {
          if i > 0 {
            assert s[1..][i - 1..i - 1 + |t|] == s[i..i + |t|];
            assert OccursAt(s[1..], t, i - 1);
          }
        }
      }
    }
  }

  function LowerChar(c: char): (l: char) {
    if 'A' <= c <= 'Z' then (c as int - 'A' as int + 'a' as int) as char else c
  }

  /** ASCII lower-casing: upper-case letters become lower case, every other code point is kept. */
  function Lower(s: string): (r: string)
    ensures |r| == |s|
    ensures forall i :: 0 <= i < |s| ==> r[i] == LowerChar(s[i])
  {
    seq(|s|, i requires 0 <= i < |s| => LowerChar(s[i]))
  }

  /** Lower-casing commutes with taking a slice. */
  lemma LowerSlice(s: string, i: nat, j: nat)
    requires i <= j <= |s|
    ensures Lower(s)[i..j] == Lower(s[i..j])
  {
  }

  /**
   * The check `Contains(Lower(s), w)` for an all-lower-case word `w` is case
   * insensitive: any spelling of `w` in `s`, whatever the case of its
   * letters, is found.
   */
  lemma {:induction false} CaseInsensitiveMatch(s: string, w: string, i: nat)
    requires i + |w| <= |s|
    requires Lower(s[i..i + |w|]) == w
    ensures Contains(Lower(s), w)
  {
    LowerSlice(s, i, i + |w|);
    assert OccursAt(Lower(s), w, i);
    ContainsIff(Lower(s), w);
  }
}
