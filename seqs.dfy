/** Order-preserving selections over sequences: what `Array.prototype.filter`,
    a loop that pushes the matching elements, `filter(...)[0]` and a loop that
    keeps overwriting a variable with the latest match compute. */
module Seqs {
  import opened Wrappers

  /** The elements of `s` that satisfy `p`, in their original order. */
  function Filter<T>(s: seq<T>, p: T -> bool): seq<T>
    decreases |s|
  {
    if s == [] then []
    else Filter(s[..|s| - 1], p) + (if p(s[|s| - 1]) then [s[|s| - 1]] else [])
  }

  /** Filtering never adds elements and keeps exactly the ones that satisfy `p`. */
  lemma {:induction false} FilterMembers<T>(s: seq<T>, p: T -> bool)
    ensures |Filter(s, p)| <= |s|
    ensures forall x :: x in Filter(s, p) <==> x in s && p(x)
    decreases |s|
  {
    if s != [] {
      var init := s[..|s| - 1];
      FilterMembers(init, p);
      assert s == init + [s[|s| - 1]];
    }
  }

  /** Each element is kept as many times as it occurs, if it satisfies `p`, and never otherwise. */
  lemma {:induction false} FilterCount<T>(s: seq<T>, p: T -> bool, x: T)
    ensures multiset(Filter(s, p))[x] == if p(x) then multiset(s)[x] else 0
    decreases |s|
  {
    if s != [] {
      var init := s[..|s| - 1];
      FilterCount(init, p, x);
      assert s == init + [s[|s| - 1]];
    }
  }

  /** When no element satisfies `p`, filtering returns nothing. */
  lemma {:induction false} FilterNone<T>(s: seq<T>, p: T -> bool)
    requires forall i :: 0 <= i < |s| ==> !p(s[i])
    ensures Filter(s, p) == []
    decreases |s|
  {
    if s != [] {
      FilterNone(s[..|s| - 1], p);
    }
  }

  /** Two tests that agree on every element select the same elements. */
  lemma {:induction false} FilterSame<T>(s: seq<T>, p: T -> bool, q: T -> bool)
    requires forall i :: 0 <= i < |s| ==> p(s[i]) == q(s[i])
    ensures Filter(s, p) == Filter(s, q)
    decreases |s|
  {
    if s != [] {
      FilterSame(s[..|s| - 1], p, q);
    }
  }

  /** `i` is the position of the first element of `s` that satisfies `p`. */
  ghost predicate FirstMatchAt<T>(s: seq<T>, p: T -> bool, i: int)
  {
    0 <= i < |s| && p(s[i]) && forall j :: 0 <= j < i ==> !p(s[j])
  }

  /** The head of the filtered sequence is the first match. */
  lemma {:induction false} FilterHead<T>(s: seq<T>, p: T -> bool)
    ensures Filter(s, p) == [] <==> forall i :: 0 <= i < |s| ==> !p(s[i])
    ensures Filter(s, p) != [] ==> exists i :: FirstMatchAt(s, p, i) && Filter(s, p)[0] == s[i]
    decreases |s|
  {
    if s != [] {
      var init := s[..|s| - 1];
      FilterHead(init, p);
      if Filter(init, p) != [] {
        var i :| FirstMatchAt(init, p, i) && Filter(init, p)[0] == init[i];
        assert FirstMatchAt(s, p, i);
      } else if p(s[|s| - 1]) {
        assert FirstMatchAt(s, p, |s| - 1);
      }
    }
  }

  /** `filter(p)[0]`: the first element that satisfies `p`, or undefined. */
  function First<T>(s: seq<T>, p: T -> bool): (r: Option<T>)
    ensures r.None? <==> forall i :: 0 <= i < |s| ==> !p(s[i])
    ensures r.Some? ==> exists i :: FirstMatchAt(s, p, i) && s[i] == r.value
  {
    FilterHead(s, p);
    var matches := Filter(s, p);
    if |matches| == 0 then None else Some(matches[0])
  }

  /** `i` is the position of the last element of `s` that satisfies `p`. */
  ghost predicate LastMatchAt<T>(s: seq<T>, p: T -> bool, i: int)
  {
    0 <= i < |s| && p(s[i]) && forall j :: i < j < |s| ==> !p(s[j])
  }

  /** The value a loop that overwrites a variable at every match leaves behind. */
  function Last<T>(s: seq<T>, p: T -> bool): (r: Option<T>)
    ensures r.None? <==> forall i :: 0 <= i < |s| ==> !p(s[i])
    ensures r.Some? ==> exists i :: LastMatchAt(s, p, i) && s[i] == r.value
    decreases |s|
  {
    if s == [] then None
    else if p(s[|s| - 1]) then
      assert LastMatchAt(s, p, |s| - 1);
      Some(s[|s| - 1])
    else
      var r := Last(s[..|s| - 1], p);
      assert r.Some? ==> exists i :: LastMatchAt(s, p, i) && s[i] == r.value by {
        if r.Some? {
          var i :| LastMatchAt(s[..|s| - 1], p, i) && s[..|s| - 1][i] == r.value;
          assert LastMatchAt(s, p, i);
        }
      }
      r
  }

  /** A loop that pushes every element satisfying `p` onto an initially empty list. */
  method Collect<T>(s: seq<T>, p: T -> bool) returns (r: seq<T>)
    ensures r == Filter(s, p)
  {
    r := [];
    var i := 0;
    while i < |s|
      invariant 0 <= i <= |s|
      invariant r == Filter(s[..i], p)
    {
      assert s[..i + 1][..i] == s[..i];
      if p(s[i]) {
        r := r + [s[i]];
      }
      i := i + 1;
    }
    assert s[..|s|] == s;
  }

  /** A loop that overwrites its result with every element satisfying `p`. */
  method FindLast<T>(s: seq<T>, p: T -> bool) returns (r: Option<T>)
    ensures r == Last(s, p)
  {
    r := None;
    var i := 0;
    while i < |s|
      invariant 0 <= i <= |s|
      invariant r == Last(s[..i], p)
    {
      assert s[..i + 1][..i] == s[..i];
      if p(s[i]) {
        r := Some(s[i]);
      }
      i := i + 1;
    }
    assert s[..|s|] == s;
  }
}
