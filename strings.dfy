/** Decimal rendering of numbers (JavaScript's `${n}` for a non-negative integer) and infix search. */
module Strings {
  import Seqs

  function Digit(d: nat): char
    requires d < 10
  {
    "0123456789"[d]
  }

  /** `${n}` for a non-negative integer `n`. */
  function NatToString(n: nat): (s: string)
    ensures |s| >= 1
    ensures n >= 10 ==> |s| >= 2
  {
    if n < 10 then [Digit(n)] else NatToString(n / 10) + [Digit(n % 10)]
  }

  /** Different numbers render differently, so `theme-${i}` identifiers are unique. */
  lemma {:induction false} NatToStringInjective(a: nat, b: nat)
    requires NatToString(a) == NatToString(b)
    ensures a == b
  {
    var sa, sb := NatToString(a), NatToString(b);
    assert Digit(a % 10) == sa[|sa| - 1] == sb[|sb| - 1] == Digit(b % 10);
    assert a % 10 == b % 10;
    if a >= 10 && b >= 10 {
      assert NatToString(a / 10) == sa[..|sa| - 1] == sb[..|sb| - 1] == NatToString(b / 10);
      NatToStringInjective(a / 10, b / 10);
    }
  }

  /** `x` occurs in `s` starting at position `i`. */
  predicate OccursAt(x: string, s: string, i: nat)
  {
    i + |x| <= |s| && s[i..i + |x|] == x
  }

  /** `s.includes(x)`. */
  predicate Contains(s: string, x: string)
  {
    exists i: nat | i <= |s| :: OccursAt(x, s, i)
  }

  /** A piece of a three-part concatenation occurs in it. */
  lemma InfixOfConcat(a: string, x: string, b: string)
    ensures OccursAt(x, a + x + b, |a|) && Contains(a + x + b, x)
  {
    var s := a + x + b;
    assert s[|a|..|a| + |x|] == x;
    assert OccursAt(x, s, |a|);
  }

  /** Text added in front keeps every occurrence. */
  lemma ContainsAfter(a: string, s: string, x: string)
    requires Contains(s, x)
    ensures Contains(a + s, x)
  {
    var i: nat :| i <= |s| && OccursAt(x, s, i);
    var t := a + s;
    assert t[|a| + i..|a| + i + |x|] == s[i..i + |x|];
    assert OccursAt(x, t, |a| + i);
  }

  /** Text added behind keeps every occurrence. */
  lemma ContainsBefore(s: string, b: string, x: string)
    requires Contains(s, x)
    ensures Contains(s + b, x)
  {
    var i: nat :| i <= |s| && OccursAt(x, s, i);
    var t := s + b;
    assert t[i..i + |x|] == s[i..i + |x|];
    assert OccursAt(x, t, i);
  }

  /** `a + x + b + y + c` holds both `x` and `y`: the shape of a two-value template. */
  lemma ContainsBoth(a: string, x: string, b: string, y: string, c: string)
    ensures Contains(a + x + b + y + c, x) && Contains(a + x + b + y + c, y)
  {
    InfixOfConcat(a, x, b);
    ContainsBefore(a + x + b, y + c, x);
    assert a + x + b + (y + c) == a + x + b + y + c;
    InfixOfConcat(a + x + b, y, c);
  }

  /** A string starts with `p` when `p` is its prefix. */
  predicate StartsWith(s: string, p: string)
  {
    |p| <= |s| && s[..|p|] == p
  }

  /** Text added behind keeps a prefix. */
  lemma StartsWithAppend(s: string, p: string, t: string)
    requires StartsWith(s, p)
    ensures StartsWith(s + t, p)
  {
    assert (s + t)[..|p|] == s[..|p|];
  }

  /** Every part of `parts.join(sep)` occurs in the joined string. */
  lemma {:induction false} JoinContains(parts: seq<string>, sep: string, i: nat)
    requires i < |parts|
    ensures Contains(Seqs.Join(parts, sep), parts[i])
  {
    var j := Seqs.Join(parts, sep);
    if |parts| == 1 {
      assert OccursAt(parts[0], j, 0);
    } else if i == 0 {
      assert j[..|parts[0]|] == parts[0];
      assert OccursAt(parts[0], j, 0);
    } else {
      JoinContains(parts[1..], sep, i - 1);
      ContainsAfter(parts[0] + sep, Seqs.Join(parts[1..], sep), parts[i]);
    }
  }
}
