/** The JavaScript string operations the engine relies on: `toLowerCase`,
    `split(" ")[0]`, `includes` and the decimal rendering of a number in a
    template literal. */
module Text {

  /** `toLowerCase` on one character; only ASCII letters are mapped. */
  function LowerChar(c: char): char {
    if 'A' <= c <= 'Z' then (c as int + 32) as char else c
  }

  function ToLower(s: string): (r: string)
    ensures |r| == |s|
    ensures forall i :: 0 <= i < |s| ==> r[i] == LowerChar(s[i])
  {
    if s == [] then [] else [LowerChar(s[0])] + ToLower(s[1..])
  }

  /** `s.split(" ")[0]`: everything before the first space. */
  function FirstToken(s: string): (t: string)
    ensures t <= s
    ensures ' ' !in t
    ensures |t| < |s| ==> s[|t|] == ' '
  {
    if s == [] || s[0] == ' ' then [] else [s[0]] + FirstToken(s[1..])
  }

  /** The three properties of FirstToken determine it: a space-free prefix
      that ends at a space or at the end of the string is the first token. */
  lemma {:induction false} FirstTokenUnique(s: string, t: string)
    requires t <= s && ' ' !in t && (|t| < |s| ==> s[|t|] == ' ')
    ensures FirstToken(s) == t
  {
    if s != [] && s[0] != ' ' {
      assert t != [];
      assert t[0] == s[0];
      assert t[1..] <= s[1..];
      FirstTokenUnique(s[1..], t[1..]);
      assert t == [s[0]] + t[1..];
    }
  }

  /** `s.includes(t)`: `t` occurs in `s` at some position. */
  predicate Contains(s: string, t: string) {
    t <= s || (s != [] && Contains(s[1..], t))
  }

  /** A string shorter than `t` cannot contain it. */
  lemma {:induction false} ContainsNeedsRoom(s: string, t: string)
    requires |s| < |t|
    ensures !Contains(s, t)
  {
    if s != [] {
      ContainsNeedsRoom(s[1..], t);
    }
  }

  /** `t` occurs in `s` starting at position `i`. */
  predicate OccursAt(s: string, t: string, i: nat) {
    i + |t| <= |s| && s[i..i + |t|] == t
  }

  /** Contains agrees with the positional definition of a substring. */
  lemma {:induction false} ContainsAt(s: string, t: string)
    ensures Contains(s, t) <==> exists i: nat :: OccursAt(s, t, i)
  {
    if t <= s {
      assert OccursAt(s, t, 0);
    } else if s == [] {
    } else {
      ContainsAt(s[1..], t);
      forall i: nat | OccursAt(s[1..], t, i)
        ensures OccursAt(s, t, i + 1)
      {
        TailSlice(s, i + 1, |t|);
      }
      forall i: nat | 0 < i && OccursAt(s, t, i)
        ensures OccursAt(s[1..], t, i - 1)
      {
        TailSlice(s, i, |t|);
      }
      assert !OccursAt(s, t, 0);
    }
  }

  /** A slice from position `i >= 1` is the slice of the tail from `i - 1`. */
  lemma TailSlice(s: string, i: nat, n: nat)
    requires 1 <= i && i + n <= |s|
    ensures s[i..i + n] == s[1..][i - 1..i - 1 + n]
  {
    var a, b := s[i..i + n], s[1..][i - 1..i - 1 + n];
    forall k | 0 <= k < n
      ensures a[k] == b[k]
    {
    }
  }

  function Digit(d: nat): (c: char)
    requires d < 10
    ensures '0' <= c <= '9'
  {
    ('0' as int + d) as char
  }

  /** The decimal rendering `${n}` of a natural number. */
  function NatToString(n: nat): (s: string)
    ensures 1 <= |s|
    ensures |s| == 1 <==> n < 10
    ensures forall i :: 0 <= i < |s| ==> '0' <= s[i] <= '9'
  {
    if n < 10 then [Digit(n)] else NatToString(n / 10) + [Digit(n % 10)]
  }

  /** Distinct numbers render as distinct strings. */
  lemma {:induction false} NatToStringInjective(a: nat, b: nat)
    requires NatToString(a) == NatToString(b)
    ensures a == b
  {
    var sa, sb := NatToString(a), NatToString(b);
    if 10 <= a && 10 <= b {
      assert sa[|sa| - 1] == Digit(a % 10) && sb[|sb| - 1] == Digit(b % 10);
      assert sa[..|sa| - 1] == NatToString(a / 10);
      assert sb[..|sb| - 1] == NatToString(b / 10);
      NatToStringInjective(a / 10, b / 10);
    } else if a < 10 && b < 10 {
      assert sa[0] == Digit(a) && sb[0] == Digit(b);
    }
  }

  /** A fixed prefix followed by a number, as in `resource-${n}`, names the
      number uniquely. */
  lemma PrefixedNumberInjective(prefix: string, a: nat, b: nat)
    requires prefix + NatToString(a) == prefix + NatToString(b)
    ensures a == b
  {
    assert (prefix + NatToString(a))[|prefix|..] == NatToString(a);
    assert (prefix + NatToString(b))[|prefix|..] == NatToString(b);
    NatToStringInjective(a, b);
  }
}
