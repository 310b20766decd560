/** String helpers shared by the client and the backend: ASCII lower-casing
    (the model of JavaScript's `toLowerCase`) and the substring, prefix and
    suffix tests used to state where fixed phrases sit in generated text. */
module Text {

  /** Lower-cases one ASCII letter; every other character is returned as is. */
  function LowerChar(c: char): (d: char)
    ensures 'A' <= c <= 'Z' ==> 'a' <= d <= 'z' && d as int == c as int + 32
    ensures !('A' <= c <= 'Z') ==> d == c
  {
    if 'A' <= c <= 'Z' then (c as int - 'A' as int + 'a' as int) as char else c
  }

  /** True when `s` holds no ASCII upper-case letter. */
  predicate NoUpper(s: string) {
    forall i :: 0 <= i < |s| ==> !('A' <= s[i] <= 'Z')
  }

  /** Character-by-character ASCII lower-casing of a whole string. */
  function ToLower(s: string): (r: string)
    ensures |r| == |s|
    ensures forall i :: 0 <= i < |s| ==> r[i] == LowerChar(s[i])
    ensures NoUpper(r)
  {
    if s == [] then [] else [LowerChar(s[0])] + ToLower(s[1..])
  }

  /** `p` is a prefix of `s`. */
  predicate StartsWith(s: string, p: string) {
    |p| <= |s| && s[..|p|] == p
  }

  /** `q` is a suffix of `s`. */
  predicate EndsWith(s: string, q: string) {
    |q| <= |s| && s[|s| - |q|..] == q
  }

  /** `sub` occurs in `s` starting at position `i`. */
  predicate OccursAt(s: string, sub: string, i: nat) {
    i + |sub| <= |s| && s[i..i + |sub|] == sub
  }

  /** `sub` occurs somewhere in `s` (JavaScript `includes`, Python `in`):
      it is a prefix of `s` or occurs in the tail of `s`. */
  predicate Contains(s: string, sub: string)
    decreases |s|
  {
    StartsWith(s, sub) || (|s| > 0 && Contains(s[1..], sub))
  }

  /** Lower-casing commutes with concatenation. */
  lemma ToLowerConcat(a: string, b: string)
    ensures ToLower(a + b) == ToLower(a) + ToLower(b)
  {
    var l, r := ToLower(a + b), ToLower(a) + ToLower(b);
    assert |l| == |r|;
    forall i | 0 <= i < |l| ensures l[i] == r[i] {
      if i < |a| { assert (a + b)[i] == a[i]; } else { assert (a + b)[i] == b[i - |a|]; }
    }
  }

  /** A string without upper-case letters is its own lower-case form. */
  lemma ToLowerOfLower(s: string)
    requires NoUpper(s)
    ensures ToLower(s) == s
  {
    var l := ToLower(s);
    forall i | 0 <= i < |s| ensures l[i] == s[i] {
      assert !('A' <= s[i] <= 'Z');
    }
  }

  /** Lower-casing twice is lower-casing once. */
  lemma ToLowerIdempotent(s: string)
    ensures ToLower(ToLower(s)) == ToLower(s)
  {
    ToLowerOfLower(ToLower(s));
  }

  /** A string is a prefix of any extension of it. */
  lemma PrefixOfConcat(x: string, y: string)
    ensures StartsWith(x + y, x)
  {
    assert (x + y)[..|x|] == x;
  }

  /** A prefix stays a prefix when more text is appended. */
  lemma StartsWithExtend(s: string, y: string, p: string)
    requires StartsWith(s, p)
    ensures StartsWith(s + y, p)
  {
    assert (s + y)[..|p|] == s[..|p|];
  }

  /** A string is a suffix of anything it ends. */
  lemma SuffixOfConcat(x: string, y: string)
    ensures EndsWith(x + y, y)
  {
    assert (x + y)[|x|..] == y;
  }

  /** A suffix stays a suffix when more text is prepended. */
  lemma EndsWithPrepend(x: string, s: string, q: string)
    requires EndsWith(s, q)
    ensures EndsWith(x + s, q)
  {
    assert (x + s)[|x + s| - |q|..] == s[|s| - |q|..];
  }

  /** The middle part of a concatenation occurs right after the first part. */
  lemma OccursMiddle(a: string, sub: string, b: string)
    ensures OccursAt(a + sub + b, sub, |a|)
  {
    assert (a + sub + b)[|a|..|a| + |sub|] == sub;
  }

  /** An occurrence stays where it is when text is appended. */
  lemma OccursExtend(s: string, y: string, sub: string, i: nat)
    requires OccursAt(s, sub, i)
    ensures OccursAt(s + y, sub, i)
  {
    assert (s + y)[i..i + |sub|] == s[i..i + |sub|];
  }

  /** An occurrence moves right by the length of prepended text. */
  lemma OccursPrepend(x: string, s: string, sub: string, i: nat)
    requires OccursAt(s, sub, i)
    ensures OccursAt(x + s, sub, |x| + i)
  {
    assert (x + s)[|x| + i..|x| + i + |sub|] == s[i..i + |sub|];
  }

  /** An occurrence at a known position makes `Contains` true. */
  lemma {:induction false} ContainsAt(s: string, sub: string, i: nat)
    requires OccursAt(s, sub, i)
    ensures Contains(s, sub)
  {
    if i == 0 {
      assert s[..|sub|] == sub;
    } else {
      assert s[1..][i - 1..i - 1 + |sub|] == s[i..i + |sub|];
      ContainsAt(s[1..], sub, i - 1);
    }
  }

  /** `Contains` always has a witness position: the two definitions of
      "occurs in" agree. */
  lemma {:induction false} ContainsWitness(s: string, sub: string) returns (i: nat)
    requires Contains(s, sub)
    ensures OccursAt(s, sub, i)
    decreases |s|
  {
    if StartsWith(s, sub) {
      i := 0;
    } else {
      var j := ContainsWitness(s[1..], sub);
      assert s[1..][j..j + |sub|] == s[j + 1..j + 1 + |sub|];
      i := j + 1;
    }
  }

  /** A string with no occurrence at any position does not contain `sub`. */
  lemma NotContains(s: string, sub: string)
    requires forall i: nat :: !OccursAt(s, sub, i)
    ensures !Contains(s, sub)
  {
    if Contains(s, sub) {
      var i := ContainsWitness(s, sub);
    }
  }

  /** `sub` cannot occur in `s` when the character at offset `k` of `sub`
      appears nowhere in `s` from position `k` on. */
  lemma AbsentChar(s: string, sub: string, k: nat)
    requires k < |sub|
    requires forall i :: k <= i < |s| ==> s[i] != sub[k]
    ensures !Contains(s, sub)
  {
    forall i: nat ensures !OccursAt(s, sub, i) {
      if i + |sub| <= |s| {
        assert s[i..i + |sub|][k] == s[i + k];
      }
    }
    NotContains(s, sub);
  }

  /** Every string contains itself. */
  lemma ContainsSelf(s: string)
    ensures Contains(s, s)
  {
    assert s[..|s|] == s;
  }

  /** A string always occurs in any string built around it. */
  lemma ContainsMiddle(a: string, sub: string, b: string)
    ensures Contains(a + sub + b, sub)
  {
    OccursMiddle(a, sub, b);
    ContainsAt(a + sub + b, sub, |a|);
  }

  /** An occurrence survives appending text. */
  lemma ContainsExtend(s: string, y: string, sub: string)
    requires Contains(s, sub)
    ensures Contains(s + y, sub)
  {
    var i := ContainsWitness(s, sub);
    OccursExtend(s, y, sub, i);
    ContainsAt(s + y, sub, i);
  }

  /** An occurrence survives prepending text. */
  lemma ContainsPrepend(x: string, s: string, sub: string)
    requires Contains(s, sub)
    ensures Contains(x + s, sub)
  {
    var i := ContainsWitness(s, sub);
    OccursPrepend(x, s, sub, i);
    ContainsAt(x + s, sub, |x| + i);
  }
}
