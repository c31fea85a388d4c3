/**
 * The two JavaScript primitives the catch blocks rely on: `String.prototype.indexOf`
 * with its default start position, and the truthiness of numbers and strings.
 * Strings are sequences of characters; JavaScript's UTF-16 code units are not modelled.
 */
module Js {

  /** `t` occurs in `s` starting at position `k`. */
  predicate OccursAt(s: string, t: string, k: int)
  {
    0 <= k && k + |t| <= |s| && s[k..k + |t|] == t
  }

  /** The search that `indexOf` performs from position `i` onwards. */
  function IndexOfFrom(s: string, t: string, i: nat): (r: int)
    decreases |s| - i
    ensures r == -1 || (i <= r && OccursAt(s, t, r))
    ensures r == -1 ==> forall k :: i <= k ==> !OccursAt(s, t, k)
    ensures r != -1 ==> forall k :: i <= k < r ==> !OccursAt(s, t, k)
  {
    if i + |t| > |s| then -1
    else if s[i..i + |t|] == t then i
    else IndexOfFrom(s, t, i + 1)
  }

  /** `s.indexOf(t)`: the first position at which `t` occurs in `s`, or -1 when it does not occur. */
  function IndexOf(s: string, t: string): (r: int)
    ensures r == -1 <==> forall k :: !OccursAt(s, t, k)
    ensures r != -1 ==> OccursAt(s, t, r) && forall k :: 0 <= k < r ==> !OccursAt(s, t, k)
  {
    IndexOfFrom(s, t, 0)
  }

  /** A number used as a condition is truthy unless it is 0 (`indexOf` never yields NaN). */
  predicate TruthyNumber(n: int)
  {
    n != 0
  }

  /** A string used as a condition is truthy unless it is empty; an absent string is modelled as "". */
  predicate TruthyString(s: string)
  {
    s != ""
  }

  /** `indexOf` returns 0 exactly when `t` is a prefix of `s`; so `if (s.indexOf(t))` tests "`s` does not start with `t`". */
  lemma IndexOfZeroIffPrefix(s: string, t: string)
    ensures IndexOf(s, t) == 0 <==> t <= s
  {
    if t <= s {
      assert OccursAt(s, t, 0);
    }
  }

  /** The condition `if (s.indexOf(t))` is false exactly when `s` starts with `t`. */
  lemma IndexOfTruthyIffNotPrefix(s: string, t: string)
    ensures TruthyNumber(IndexOf(s, t)) <==> !(t <= s)
  {
    IndexOfZeroIffPrefix(s, t);
  }

  /** A string that starts with `p` cannot start with a different string `q` of the same length,
      so `s.indexOf(q)` is truthy for every such `s`. */
  lemma DistinctPrefixTruthy(s: string, p: string, q: string)
    requires p <= s && |p| == |q| && p != q
    ensures TruthyNumber(IndexOf(s, q))
  {
    IndexOfTruthyIffNotPrefix(s, q);
  }
}
