/** Small sequence helpers shared by the filters: the JavaScript `Array.filter`
    and `Array.find` the components use, and an optional value for `find`'s
    `undefined` result. */
module Seqs {

  datatype Option<T> = None | Some(value: T)

  /** `a` is `b` with some elements dropped and the rest kept in order. */
  ghost predicate IsSubsequence<T>(a: seq<T>, b: seq<T>)
    decreases |b|
  {
    a == [] ||
    (b != [] &&
     (IsSubsequence(a, b[1..]) || (a[0] == b[0] && IsSubsequence(a[1..], b[1..]))))
  }

  /** `Array.prototype.filter`: the elements of `s` that satisfy `keep`, in order. */
  function Filter<T>(s: seq<T>, keep: T -> bool): (r: seq<T>)
    ensures |r| <= |s|
  {
    if s == [] then []
    else if keep(s[0]) then [s[0]] + Filter(s[1..], keep)
    else Filter(s[1..], keep)
  }

  /** The filter result is `s` with elements dropped, order kept. */
  lemma {:induction false} FilterIsSubsequence<T>(s: seq<T>, keep: T -> bool)
    ensures IsSubsequence(Filter(s, keep), s)
    decreases |s|
  {
    if s != [] {
      FilterIsSubsequence(s[1..], keep);
    }
  }

  /** An element is in the filter result iff it is in `s` and passes `keep`. */
  lemma {:induction false} FilterMembers<T>(s: seq<T>, keep: T -> bool)
    ensures forall x | x in Filter(s, keep) :: x in s && keep(x)
    ensures forall x | x in s && keep(x) :: x in Filter(s, keep)
    decreases |s|
  {
    if s != [] {
      FilterMembers(s[1..], keep);
      assert forall x | x in s :: x == s[0] || x in s[1..];
    }
  }

  /** When every element passes, the filter is the identity. */
  lemma {:induction false} FilterKeepsAll<T>(s: seq<T>, keep: T -> bool)
    requires forall x | x in s :: keep(x)
    ensures Filter(s, keep) == s
    decreases |s|
  {
    if s != [] {
      assert s[0] in s;
      assert forall x | x in s[1..] :: x in s;
      FilterKeepsAll(s[1..], keep);
    }
  }

  /** One step of `Filter` on a sequence given by its head and tail. */
  lemma FilterCons<T>(x: T, s: seq<T>, keep: T -> bool)
    ensures Filter([x] + s, keep) == if keep(x) then [x] + Filter(s, keep) else Filter(s, keep)
  {
  }

  /** `i` is the first position of `s` whose element satisfies `p`. */
  ghost predicate IsFirstMatch<T>(s: seq<T>, p: T -> bool, i: int)
  {
    0 <= i < |s| && p(s[i]) && forall j | 0 <= j < i :: !p(s[j])
  }

  /** `Array.prototype.find`: the first element satisfying `p`, or `None`
      (JavaScript's `undefined`) when there is none. */
  function Find<T>(s: seq<T>, p: T -> bool): (r: Option<T>)
    ensures r.None? <==> forall i | 0 <= i < |s| :: !p(s[i])
    ensures r.Some? ==> exists i :: IsFirstMatch(s, p, i) && s[i] == r.value
  {
    if s == [] then None
    else if p(s[0]) then
      assert IsFirstMatch(s, p, 0);
      Some(s[0])
    else
      var r := Find(s[1..], p);
      assert r.Some? ==> exists i :: IsFirstMatch(s, p, i) && s[i] == r.value by {
        if r.Some? {
          var i :| IsFirstMatch(s[1..], p, i) && s[1..][i] == r.value;
          assert IsFirstMatch(s, p, i + 1);
        }
      }
      r
  }
}
