/** Values as the JavaScript component sees them: an absent (`undefined` or
    `null`) value, JavaScript truthiness of the strings and numbers the panel
    tests with `!x`, and the first-match search that lodash's `find` performs. */
module Base {

  /** An optional value: `None` stands for `undefined` (or `null`). */
  datatype Option<+T> = None | Some(value: T)

  /** `!!s` for an optional string: absent and empty strings are falsy. */
  predicate Truthy(s: Option<string>)
  {
    s.Some? && s.value != ""
  }

  /** `!!n` for an optional number: absent and zero are falsy (NaN is not modelled). */
  predicate TruthyNumber(n: Option<real>)
  {
    n.Some? && n.value != 0.0
  }

  /** `i` is the position of the first element of `s` that satisfies `p`. */
  ghost predicate IsFirstMatch<T>(s: seq<T>, p: T -> bool, i: nat)
  {
    i < |s| && p(s[i]) && forall j :: 0 <= j < i ==> !p(s[j])
  }

  /** The index of the first element satisfying `p`, if any (lodash `findIndex`). */
  function FindIndex<T>(s: seq<T>, p: T -> bool): (r: Option<nat>)
    ensures r.Some? ==> IsFirstMatch(s, p, r.value)
    ensures r.None? ==> forall j :: 0 <= j < |s| ==> !p(s[j])
  {
    if |s| == 0 then None
    else if p(s[0]) then Some(0)
    else
      match FindIndex(s[1..], p)
      case None => None
      case Some(i) => Some(i + 1)
  }

  /** The first element satisfying `p`, if any (lodash `find`). */
  function Find<T>(s: seq<T>, p: T -> bool): (r: Option<T>)
    ensures r.None? <==> forall j :: 0 <= j < |s| ==> !p(s[j])
    ensures r.Some? ==> exists i: nat :: IsFirstMatch(s, p, i) && r.value == s[i]
  {
    match FindIndex(s, p)
    case None => None
    case Some(i) => Some(s[i])
  }

  /** Two searches whose predicates agree position by position stop at the same index. */
  lemma {:induction false} FindIndexPointwise<T, U>(s: seq<T>, p: T -> bool, t: seq<U>, q: U -> bool)
    requires |s| == |t|
    requires forall j :: 0 <= j < |s| ==> p(s[j]) == q(t[j])
    ensures FindIndex(s, p) == FindIndex(t, q)
  {
    if |s| > 0 && !p(s[0]) {
      assert forall j :: 0 <= j < |s| - 1 ==> s[1..][j] == s[j + 1] && t[1..][j] == t[j + 1];
      FindIndexPointwise(s[1..], p, t[1..], q);
    }
  }
}
