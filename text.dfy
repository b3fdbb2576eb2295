/** Strings as the sources use them: `toLowerCase()` (restricted to ASCII)
    and `includes()` (substring search). */
module Text {

  /** `toLowerCase()` on one character: ASCII capitals map to lower case,
      every other character is kept. */
  function LowerChar(c: char): (r: char)
    ensures 'A' <= c <= 'Z' ==> 'a' <= r <= 'z' && r as int == c as int + 32
    ensures !('A' <= c <= 'Z') ==> r == c
  {
    if 'A' <= c <= 'Z' then (c as int + 32) as char else c
  }

  /** `s.toLowerCase()`. */
  function Lower(s: string): (r: string)
    ensures |r| == |s|
    ensures forall i | 0 <= i < |s| :: r[i] == LowerChar(s[i])
  {
    seq(|s|, i requires 0 <= i < |s| => LowerChar(s[i]))
  }

  predicate IsUpper(c: char) { 'A' <= c <= 'Z' }

  predicate HasUpper(s: string) { exists i | 0 <= i < |s| :: IsUpper(s[i]) }

  /** `s.includes(t)`: some window of `s` equals `t`. The empty string is
      contained in every string, as in JavaScript. */
  predicate Contains(s: string, t: string) {
    exists i | 0 <= i <= |s| - |t| :: MatchesAt(s, t, i)
  }

  /** `t` occurs in `s` starting at index `i`. */
  predicate MatchesAt(s: string, t: string, i: int) {
    0 <= i <= |s| - |t| && s[i..i + |t|] == t
  }

  /** `s` is some prefix, then `t`, then some suffix: the same relation as
      `Contains`, in the form proofs about built-up strings use. */
  ghost predicate Infix(s: string, t: string) {
    exists a, c :: s == a + t + c
  }

  /** `s` begins with `p`. */
  ghost predicate StartsWith(s: string, p: string) {
    exists rest :: s == p + rest
  }

  /** A lower-cased string holds no capital letter. */
  lemma LowerHasNoUpper(s: string)
    ensures !HasUpper(Lower(s))
  {
  }

  /** Lower-casing twice is lower-casing once. */
  lemma LowerIdempotent(s: string)
    ensures Lower(Lower(s)) == Lower(s)
  {
  }

  /** The window search finds exactly the infixes. */
  lemma ContainsIffInfix(s: string, t: string)
    ensures Contains(s, t) <==> Infix(s, t)
  {
    if Contains(s, t) {
      var i :| 0 <= i <= |s| - |t| && MatchesAt(s, t, i);
      assert s == s[..i] + t + s[i + |t|..];
    }
    if Infix(s, t) {
      var a, c :| s == a + t + c;
      assert s[|a|..|a| + |t|] == t;
      assert MatchesAt(s, t, |a|);
    }
  }

  /** A concatenation starts with its first part. */
  lemma StartsWithAppend(p: string, rest: string)
    ensures StartsWith(p + rest, p)
  {
  }

  /** A character of `t` that `s` lacks rules out `s.includes(t)`. */
  lemma MissingLetter(s: string, t: string, ch: char)
    requires ch in t && ch !in s
    ensures !Contains(s, t)
  {
    var k :| 0 <= k < |t| && t[k] == ch;
    forall i | 0 <= i <= |s| - |t| ensures !MatchesAt(s, t, i) {
      assert s[i..i + |t|][k] == s[i + k] != ch;
    }
  }

  /** A lower-case letter of `t` that `s` lacks in both cases rules out
      `s.toLowerCase().includes(t)`. */
  lemma MissingLetterAnyCase(s: string, t: string, ch: char)
    requires 'a' <= ch <= 'z' && ch in t
    requires ch !in s && (ch as int - 32) as char !in s
    ensures !Contains(Lower(s), t)
  {
    forall i | 0 <= i < |s| ensures Lower(s)[i] != ch {
      assert s[i] != ch && s[i] != (ch as int - 32) as char;
    }
    MissingLetter(Lower(s), t, ch);
  }

  /** A string shorter than `t` cannot contain it. */
  lemma TooShort(s: string, t: string)
    requires |s| < |t|
    ensures !Contains(s, t)
  {
  }
}
