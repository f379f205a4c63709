/**
 * The string primitives the pages use: `toLowerCase` (modelled as ASCII
 * lowering), `includes`, `startsWith`, and the CJK test `/[一-龥]/`.
 */
module Text {

  function LowerChar(c: char): char
  {
    if 'A' <= c <= 'Z' then (c as int + 32) as char else c
  }

  /** `toLowerCase`, restricted to ASCII letters. */
  function AsciiLower(s: string): (r: string)
    ensures |r| == |s|
    ensures forall i :: 0 <= i < |s| ==> r[i] == LowerChar(s[i])
  {
    if s == [] then [] else [LowerChar(s[0])] + AsciiLower(s[1..])
  }

  lemma AsciiLowerIdempotent(s: string)
    ensures AsciiLower(AsciiLower(s)) == AsciiLower(s)
  {
  }

  predicate StartsWith(s: string, prefix: string)
  {
    |prefix| <= |s| && s[..|prefix|] == prefix
  }

  /** `s.includes(sub)`: `sub` occurs in `s` at some offset (the empty string occurs everywhere). */
  predicate Includes(s: string, sub: string)
    decreases |s|
  {
    StartsWith(s, sub) || (|s| > 0 && Includes(s[1..], sub))
  }

  lemma {:induction false} IncludesAt(s: string, sub: string, k: nat)
    requires k + |sub| <= |s| && s[k..k + |sub|] == sub
    ensures Includes(s, sub)
    decreases k
  {
    if k > 0 {
      assert s[1..][k - 1..k - 1 + |sub|] == s[k..k + |sub|];
      IncludesAt(s[1..], sub, k - 1);
    }
  }

  lemma {:induction false} IncludesWitness(s: string, sub: string) returns (k: nat)
    requires Includes(s, sub)
    ensures k + |sub| <= |s| && s[k..k + |sub|] == sub
    decreases |s|
  {
    if StartsWith(s, sub) {
      k := 0;
    } else {
      var k' := IncludesWitness(s[1..], sub);
      k := k' + 1;
      assert s[k..k + |sub|] == s[1..][k'..k' + |sub|];
    }
  }

  /** A character in the block U+4E00 to U+9FA5 (common CJK ideographs). */
  predicate IsCjk(c: char)
  {
    '\U{4E00}' <= c <= '\U{9FA5}'
  }

  predicate HasCjk(s: string)
  {
    exists i :: 0 <= i < |s| && IsCjk(s[i])
  }

  lemma AsciiLowerKeepsCjk(s: string)
    ensures HasCjk(AsciiLower(s)) <==> HasCjk(s)
  {
    if HasCjk(s) {
      var i :| 0 <= i < |s| && IsCjk(s[i]);
      assert AsciiLower(s)[i] == s[i];
    }
    if HasCjk(AsciiLower(s)) {
      var i :| 0 <= i < |s| && IsCjk(AsciiLower(s)[i]);
      assert AsciiLower(s)[i] == s[i];
    }
  }

  lemma MissingCharNotIncluded(s: string, sub: string, c: char)
    requires c in sub && c !in s
    ensures !Includes(s, sub)
  {
    if Includes(s, sub) {
      var k := IncludesWitness(s, sub);
    }
  }
}
