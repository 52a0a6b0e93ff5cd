/**
  Ascending order of integers, as the library sort produces it.
 */
module Sorting {
  ghost predicate Ascending(s: seq<int>) { forall i, j :: 0 <= i < j < |s| ==> s[i] <= s[j] }

  /** The value put in its place. */
  function Insert(s: seq<int>, v: int): seq<int> {
    if s == [] || s[|s| - 1] <= v then s + [v] else Insert(s[..|s| - 1], v) + [s[|s| - 1]]
  }

  lemma {:induction false} InsertAdds(s: seq<int>, v: int)
    ensures multiset(Insert(s, v)) == multiset(s) + multiset{v}
  {
    if s != [] && s[|s| - 1] > v {
      InsertAdds(s[..|s| - 1], v);
      assert s == s[..|s| - 1] + [s[|s| - 1]];
    }
  }

  ghost predicate AtMost(s: seq<int>, bound: int) { forall i :: 0 <= i < |s| ==> s[i] <= bound }

  lemma {:induction false} InsertAtMost(s: seq<int>, v: int, bound: int)
    requires AtMost(s, bound) && v <= bound
    ensures AtMost(Insert(s, v), bound)
  {
    if s != [] && s[|s| - 1] > v {
      InsertAtMost(s[..|s| - 1], v, bound);
    }
  }

  lemma {:induction false} InsertAscends(s: seq<int>, v: int)
    requires Ascending(s)
    ensures Ascending(Insert(s, v))
  {
    if s != [] && s[|s| - 1] > v {
      InsertAscends(s[..|s| - 1], v);
      InsertAtMost(s[..|s| - 1], v, s[|s| - 1]);
    }
  }

  method Sort(values: seq<int>) returns (sorted: seq<int>)
    ensures Ascending(sorted) && multiset(sorted) == multiset(values)
  {
    sorted := [];
    for i := 0 to |values|
      invariant Ascending(sorted) && multiset(sorted) == multiset(values[..i])
    {
      assert values[..i + 1] == values[..i] + [values[i]];
      InsertAdds(sorted, values[i]);
      InsertAscends(sorted, values[i]);
      sorted := Insert(sorted, values[i]);
    }
    assert values[..|values|] == values;
  }

  lemma DropLast(a: seq<int>)
    requires a != []
    ensures multiset(a[..|a| - 1]) == multiset(a) - multiset{a[|a| - 1]}
  {
    assert a == a[..|a| - 1] + [a[|a| - 1]];
  }

  lemma SameLength(a: seq<int>, b: seq<int>)
    requires multiset(a) == multiset(b)
    ensures |a| == |b|
  {
    assert |a| == |multiset(a)| && |b| == |multiset(b)|;
  }

  lemma LastGreatest(a: seq<int>, b: seq<int>)
    requires Ascending(a) && multiset(a) == multiset(b) && a != [] && b != []
    ensures b[|b| - 1] <= a[|a| - 1]
  {
    assert b[|b| - 1] in multiset(b);
    assert b[|b| - 1] in multiset(a);
  }

  /** Only one ascending list has given elements. */
  lemma {:induction false} AscendingUnique(a: seq<int>, b: seq<int>)
    requires Ascending(a) && Ascending(b) && multiset(a) == multiset(b)
    ensures a == b
    decreases |a|
  {
    SameLength(a, b);
    if a != [] {
      LastGreatest(a, b);
      LastGreatest(b, a);
      DropLast(a);
      DropLast(b);
      AscendingUnique(a[..|a| - 1], b[..|b| - 1]);
      Restored(a, b);
    }
  }

  lemma Restored(a: seq<int>, b: seq<int>)
    requires a != [] && |a| == |b| && a[|a| - 1] == b[|b| - 1] && a[..|a| - 1] == b[..|b| - 1]
    ensures a == b
  {
    assert a == a[..|a| - 1] + [a[|a| - 1]] && b == b[..|b| - 1] + [b[|b| - 1]];
  }
}
