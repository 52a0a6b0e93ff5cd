/**
  Seeding order of the tables of a schema: a layered topological sort over the foreign keys,
  with everything that reaches a dependency cycle placed last. The main result, `OrderTables`,
  says that the output lists every table key once, that a table which reaches no cycle comes
  after all its parents, and that the cycle-reaching tables are exactly the sorted tail.
 */
module TableOrder {

  // ---------------------------------------------------------------- keys and their order

  datatype Key = Key(schema: string, name: string)
  datatype Table = Table(key: Key, columns: seq<string>)
  datatype Column = Column(table: Key, name: string)

  /** Lexicographic order of strings by character. */
  predicate StringLeq(a: string, b: string) {
    a == "" || (b != "" && (a[0] < b[0] || (a[0] == b[0] && StringLeq(a[1..], b[1..]))))
  }

  /** Order of (schema, name) pairs. */
  predicate Leq(a: Key, b: Key) {
    if a.schema == b.schema then StringLeq(a.name, b.name) else StringLeq(a.schema, b.schema)
  }

  lemma {:induction false} StringOrder(a: string, b: string)
    ensures StringLeq(a, b) || StringLeq(b, a)
    ensures StringLeq(a, b) && StringLeq(b, a) ==> a == b
  {
    if a != "" && b != "" && a[0] == b[0] {
      StringOrder(a[1..], b[1..]);
      assert a == [a[0]] + a[1..] && b == [b[0]] + b[1..];
    }
  }

  lemma {:induction false} StringTransitive(a: string, b: string, c: string)
    requires StringLeq(a, b) && StringLeq(b, c)
    ensures StringLeq(a, c)
  {
    if a != "" && a[0] == b[0] && b[0] == c[0] {
      StringTransitive(a[1..], b[1..], c[1..]);
    }
  }

  lemma KeyOrder(a: Key, b: Key)
    ensures Leq(a, b) || Leq(b, a)
    ensures Leq(a, b) && Leq(b, a) ==> a == b
  {
    StringOrder(a.schema, b.schema);
    StringOrder(a.name, b.name);
  }

  lemma KeyTransitive(a: Key, b: Key, c: Key)
    requires Leq(a, b) && Leq(b, c)
    ensures Leq(a, c)
  {
    if a.schema == b.schema && b.schema == c.schema {
      StringTransitive(a.name, b.name, c.name);
    } else if a.schema != b.schema && b.schema != c.schema {
      StringTransitive(a.schema, b.schema, c.schema);
      StringOrder(a.schema, b.schema);
    }
  }

  predicate IsLeast(k: Key, s: set<Key>) {
    k in s && forall x :: x in s ==> Leq(k, x)
  }

  lemma {:induction false} LeastExists(s: set<Key>)
    requires s != {}
    ensures exists k :: IsLeast(k, s)
    decreases |s|
  {
    var x :| x in s;
    KeyOrder(x, x);
    var rest := s - {x};
    if rest == {} {
      assert s == {x};
      assert IsLeast(x, s);
    } else {
      LeastExists(rest);
      var m :| IsLeast(m, rest);
      KeyOrder(x, m);
      if Leq(x, m) {
        forall y | y in s ensures Leq(x, y) {
          if y != x { KeyTransitive(x, m, y); }
        }
        assert IsLeast(x, s);
      } else {
        assert IsLeast(m, s);
      }
    }
  }

  lemma LeastUnique(a: Key, b: Key, s: set<Key>)
    requires IsLeast(a, s) && IsLeast(b, s)
    ensures a == b
  {
    KeyOrder(a, b);
  }

  /** The first key of a set. */
  function Least(s: set<Key>): (k: Key)
    requires s != {}
    ensures IsLeast(k, s)
  {
    LeastExists(s);
    assert forall a, b :: IsLeast(a, s) && IsLeast(b, s) ==> a == b by {
      forall a, b | IsLeast(a, s) && IsLeast(b, s) ensures a == b { LeastUnique(a, b, s); }
    }
    var k :| k in s && IsLeast(k, s);
    k
  }

  /** The sequence lists every element of the set exactly once. */
  ghost predicate ListsOnce(r: seq<Key>, s: set<Key>) {
    && (forall x :: x in s <==> x in r)
    && (forall i, j :: 0 <= i < j < |r| ==> r[i] != r[j])
  }

  ghost predicate Ascending(r: seq<Key>) {
    forall i, j :: 0 <= i < j < |r| ==> Leq(r[i], r[j])
  }

  ghost predicate Sorting(r: seq<Key>, s: set<Key>) {
    ListsOnce(r, s) && Ascending(r)
  }

  /** The least key in front of a sorting of the rest. */
  lemma SortingCons(s: set<Key>, k: Key, rest: seq<Key>)
    requires IsLeast(k, s) && Sorting(rest, s - {k})
    ensures Sorting([k] + rest, s)
  {
    forall j | 0 <= j < |rest| ensures rest[j] != k && Leq(k, rest[j]) {
      assert rest[j] in rest;
    }
  }

  lemma {:induction false} SortingExists(s: set<Key>)
    ensures exists r :: Sorting(r, s)
    decreases |s|
  {
    if s == {} {
      assert Sorting([], s);
    } else {
      var k := Least(s);
      SortingExists(s - {k});
      var rest :| Sorting(rest, s - {k});
      SortingCons(s, k, rest);
    }
  }

  lemma {:induction false} SortingUnique(a: seq<Key>, b: seq<Key>, s: set<Key>)
    requires Sorting(a, s) && Sorting(b, s)
    ensures a == b
  {
    if a != [] { NonemptyTogether(a, b, s); }
    if b != [] { NonemptyTogether(b, a, s); }
    if a != [] && b != [] {
      SortingHead(a, s);
      SortingHead(b, s);
      LeastUnique(a[0], b[0], s);
      SortingUnique(a[1..], b[1..], s - {a[0]});
    }
  }

  lemma NonemptyTogether(a: seq<Key>, b: seq<Key>, s: set<Key>)
    requires Sorting(a, s) && Sorting(b, s) && a != []
    ensures b != []
  {
    assert a[0] in a;
    assert a[0] in b;
  }

  lemma SortingHead(r: seq<Key>, s: set<Key>)
    requires Sorting(r, s) && r != []
    ensures IsLeast(r[0], s) && Sorting(r[1..], s - {r[0]})
  {
    KeyOrder(r[0], r[0]);
    assert r[0] in r;
    forall x | x in s ensures Leq(r[0], x) {
      var i :| 0 <= i < |r| && r[i] == x;
    }
    var rest := r[1..];
    forall x | x in s - {r[0]} ensures x in rest {
      var i :| 0 <= i < |r| && r[i] == x;
      assert rest[i - 1] == x;
    }
    forall x | x in rest ensures x in s - {r[0]} {
      var i :| 0 <= i < |rest| && rest[i] == x;
      assert r[i + 1] == x && x in r;
    }
  }

  /** The keys of a set in ascending order. */
  ghost function Sorted(s: set<Key>): (r: seq<Key>)
    ensures Sorting(r, s)
  {
    SortingExists(s);
    var r :| Sorting(r, s);
    r
  }

  /** The library sort: the least key, then the rest. */
  method Sort(s: set<Key>) returns (r: seq<Key>)
    ensures r == Sorted(s)
    decreases |s|
  {
    if s == {} {
      r := [];
      SortingUnique(r, Sorted(s), s);
    } else {
      var k := Least(s);
      var rest := Sort(s - {k});
      r := [k] + rest;
      SortedUnfolds(s, k);
    }
  }

  lemma SortedUnfolds(s: set<Key>, k: Key)
    requires IsLeast(k, s)
    ensures Sorted(s) == [k] + Sorted(s - {k})
  {
    SortingCons(s, k, Sorted(s - {k}));
    SortingUnique(Sorted(s), [k] + Sorted(s - {k}), s);
  }

  // ---------------------------------------------------------------- dependencies

  type Dependencies = map<Key, set<Key>>

  /** The nullable edge of the payment-order and policy-decision cycle, left out of the order. */
  const NULLABLE_EDGE := Column(Key("public", "payment_orders"), "policy_decision_id")

  /** A foreign key makes table `c` wait for table `p`. */
  ghost predicate Waits(keys: set<Key>, fks: seq<(Column, Column)>, c: Key, p: Key) {
    c in keys && p in keys && c != p
    && exists i :: 0 <= i < |fks| && fks[i].0 != NULLABLE_EDGE && fks[i].0.table == c && fks[i].1.table == p
  }

  /** Collects the parents every table has to wait for. */
  method Collect(keys: set<Key>, fks: seq<(Column, Column)>) returns (deps: Dependencies)
    ensures deps.Keys == keys
    ensures forall c, p :: c in keys ==> (p in deps[c] <==> Waits(keys, fks, c, p))
  {
    deps := map k | k in keys :: {};
    for i := 0 to |fks|
      invariant deps.Keys == keys
      invariant forall c, p :: c in keys ==> (p in deps[c] <==> Waits(keys, fks[..i], c, p))
    {
      var (child, parent) := fks[i];
      ghost var before := deps;
      if child != NULLABLE_EDGE {
        var c, p := child.table, parent.table;
        if c in deps && p in keys && c != p {
          deps := deps[c := deps[c] + {p}];
        }
      }
      forall c, p | c in keys ensures p in deps[c] <==> Waits(keys, fks[..i + 1], c, p) {
        WaitsStep(keys, fks, i, c, p);
      }
    }
    assert fks[..|fks|] == fks;
  }

  lemma WaitsStep(keys: set<Key>, fks: seq<(Column, Column)>, i: nat, c: Key, p: Key)
    requires i < |fks|
    ensures Waits(keys, fks[..i + 1], c, p) <==>
            Waits(keys, fks[..i], c, p)
            || (c in keys && p in keys && c != p && fks[i].0 != NULLABLE_EDGE && fks[i].0.table == c
              && fks[i].1.table == p)
  {
    var now, before := fks[..i + 1], fks[..i];
    assert now[i] == fks[i];
    assert forall k :: 0 <= k < i ==> now[k] == before[k];
  }

  /** Every dependency is itself a key. */
  ghost predicate Closed(deps: Dependencies) {
    forall c, p :: c in deps && p in deps[c] ==> p in deps
  }

  // ---------------------------------------------------------------- cycles

  /** A walk along dependencies. */
  ghost predicate Walk(deps: Dependencies, p: seq<Key>) {
    |p| > 0 && forall i :: 0 <= i < |p| - 1 ==> p[i] in deps && p[i + 1] in deps[p[i]]
  }

  ghost predicate Repeats(p: seq<Key>) {
    exists i, j :: 0 <= i < j < |p| && p[i] == p[j]
  }

  /** Some walk from the key comes back to a table it has passed. */
  ghost predicate ReachesCycle(deps: Dependencies, k: Key) {
    exists p :: Walk(deps, p) && p[0] == k && Repeats(p)
  }

  /** Without repetition a sequence is no longer than the set it draws from. */
  lemma {:induction false} Pigeonhole(p: seq<Key>, s: set<Key>)
    requires forall i :: 0 <= i < |p| ==> p[i] in s
    requires |p| > |s|
    ensures Repeats(p)
  {
    var n := |p| - 1;
    var last := p[n];
    if last in p[..n] {
      var i :| 0 <= i < n && p[i] == last;
      assert p[i] == p[n];
    } else {
      Pigeonhole(p[..n], s - {last});
      var i, j :| 0 <= i < j < n && p[..n][i] == p[..n][j];
      assert p[i] == p[j];
    }
  }

  /** In a set where every member waits for a member, walks of any length stay inside. */
  lemma {:induction false} WalkInside(deps: Dependencies, s: set<Key>, k: Key, n: nat) returns (p: seq<Key>)
    requires k in s && forall x :: x in s ==> x in deps && deps[x] * s != {}
    ensures Walk(deps, p) && p[0] == k && |p| == n + 1
    ensures forall i :: 0 <= i < |p| ==> p[i] in s
    decreases n
  {
    if n == 0 {
      p := [k];
    } else {
      assert deps[k] * s != {};
      var next :| next in deps[k] * s;
      var q := WalkInside(deps, s, next, n - 1);
      p := [k] + q;
      forall i | 0 <= i < |p| - 1 ensures p[i] in deps && p[i + 1] in deps[p[i]] {
        if i > 0 { assert p[i] == q[i - 1] && p[i + 1] == q[i]; }
      }
    }
  }

  /** When nothing is ready, every remaining table reaches a cycle. */
  lemma StuckReachesCycle(deps: Dependencies, remaining: set<Key>, k: Key)
    requires remaining <= deps.Keys && Ready(deps, remaining) == {} && k in remaining
    ensures ReachesCycle(deps, k)
  {
    forall x | x in remaining ensures deps[x] * remaining != {} {
      assert x !in Ready(deps, remaining);
    }
    var p := WalkInside(deps, remaining, k, |remaining|);
    Pigeonhole(p, remaining);
  }

  /** On tables that reach no cycle the fallback branch is never taken. */
  lemma FallbackNeverTaken(deps: Dependencies, remaining: set<Key>)
    requires remaining <= deps.Keys && remaining != {}
    requires forall k :: k in remaining ==> !ReachesCycle(deps, k)
    ensures Ready(deps, remaining) != {}
  {
    var k :| k in remaining;
    if Ready(deps, remaining) == {} { StuckReachesCycle(deps, remaining, k); }
  }

  // ---------------------------------------------------------------- layers

  /** The remaining tables none of whose parents remain. */
  function Ready(deps: Dependencies, remaining: set<Key>): set<Key>
    requires remaining <= deps.Keys
  {
    set k | k in remaining && deps[k] * remaining == {}
  }

  /** The order the layered sort gives the remaining tables. */
  ghost function Layered(deps: Dependencies, remaining: set<Key>): seq<Key>
    requires remaining <= deps.Keys
    decreases |remaining|
  {
    if remaining == {} then []
    else
      var ready := Ready(deps, remaining);
      if ready == {} then Sorted(remaining)
      else
        assert |remaining - ready| < |remaining| by { Shrinks(remaining, ready); }
        Sorted(ready) + Layered(deps, remaining - ready)
  }

  lemma Shrinks(s: set<Key>, t: set<Key>)
    requires t <= s && t != {}
    ensures |s - t| < |s|
  {
    assert s == (s - t) + t && (s - t) !! t;
  }

  /** All parents of the key come earlier. */
  ghost predicate ParentsBefore(deps: Dependencies, r: seq<Key>, i: nat)
    requires i < |r|
  {
    r[i] in deps && forall p :: p in deps[r[i]] ==> p in r[..i]
  }

  ghost predicate WellPlaced(deps: Dependencies, r: seq<Key>) {
    forall i {:trigger ParentsBefore(deps, r, i)} :: 0 <= i < |r| ==> ParentsBefore(deps, r, i)
  }

  /** In a well-placed sequence a walk strictly descends, so it never repeats. */
  lemma {:induction false} WalkDescends(deps: Dependencies, r: seq<Key>, p: seq<Key>, at: nat) returns (ats: seq<nat>)
    requires WellPlaced(deps, r) && Walk(deps, p) && at < |r| && p[0] == r[at]
    ensures |ats| == |p| && ats[0] == at
    ensures forall i :: 0 <= i < |p| ==> ats[i] < |r| && r[ats[i]] == p[i]
    ensures forall i, j :: 0 <= i < j < |p| ==> ats[j] < ats[i]
    decreases |p|
  {
    if |p| == 1 {
      ats := [at];
    } else {
      assert ParentsBefore(deps, r, at);
      assert p[1] in r[..at];
      var next :| 0 <= next < at && r[next] == p[1];
      var q := p[1..];
      forall i | 0 <= i < |q| - 1 ensures q[i] in deps && q[i + 1] in deps[q[i]] {
        assert q[i] == p[i + 1] && q[i + 1] == p[i + 2];
      }
      var rest := WalkDescends(deps, r, q, next);
      ats := [at] + rest;
    }
  }

  lemma WellPlacedReachesNoCycle(deps: Dependencies, r: seq<Key>, at: nat)
    requires WellPlaced(deps, r) && at < |r|
    requires forall i, j :: 0 <= i < j < |r| ==> r[i] != r[j]
    ensures !ReachesCycle(deps, r[at])
  {
    forall p | Walk(deps, p) && p[0] == r[at] ensures !Repeats(p) {
      var ats := WalkDescends(deps, r, p, at);
      forall i, j | 0 <= i < j < |p| ensures p[i] != p[j] {
        assert ats[j] < ats[i];
      }
    }
  }

  /** What the final order promises about one position. */
  ghost predicate Placed(deps: Dependencies, r: seq<Key>, i: nat)
    requires i < |r|
  {
    && (!ReachesCycle(deps, r[i]) ==> ParentsBefore(deps, r, i))
    && (ReachesCycle(deps, r[i]) ==> forall j :: i <= j < |r| ==> ReachesCycle(deps, r[j]))
    && (ReachesCycle(deps, r[i]) ==> forall j :: i <= j < |r| ==> Leq(r[i], r[j]))
  }

  ghost predicate AllPlaced(deps: Dependencies, r: seq<Key>) {
    forall i {:trigger Placed(deps, r, i)} :: 0 <= i < |r| ==> Placed(deps, r, i)
  }

  /** The fallback appends only cycle-reaching tables. */
  lemma FallbackPlaced(deps: Dependencies, done: seq<Key>, remaining: set<Key>)
    requires remaining <= deps.Keys && Ready(deps, remaining) == {}
    requires WellPlaced(deps, done) && ListsOnce(done, deps.Keys - remaining)
    ensures AllPlaced(deps, done + Sorted(remaining))
  {
    var r := done + Sorted(remaining);
    forall i | |done| <= i < |r| ensures ReachesCycle(deps, r[i]) {
      assert r[i] in Sorted(remaining);
      StuckReachesCycle(deps, remaining, r[i]);
    }
    forall i | 0 <= i < |r| ensures Placed(deps, r, i) {
      if i < |done| {
        assert ParentsBefore(deps, done, i) && r[..i] == done[..i];
        WellPlacedReachesNoCycle(deps, done, i);
      } else {
        forall j | i <= j < |r| ensures Leq(r[i], r[j]) {
          KeyOrder(r[i], r[i]);
          assert r[j] == Sorted(remaining)[j - |done|];
        }
      }
    }
  }

  /** A ready layer keeps the sequence well placed. */
  lemma LayerWellPlaced(deps: Dependencies, done: seq<Key>, remaining: set<Key>)
    requires Closed(deps) && remaining <= deps.Keys && WellPlaced(deps, done)
    requires forall k :: k in deps ==> k in remaining || k in done
    ensures WellPlaced(deps, done + Sorted(Ready(deps, remaining)))
  {
    var layer := Sorted(Ready(deps, remaining));
    var r := done + layer;
    forall i | 0 <= i < |r| ensures ParentsBefore(deps, r, i) {
      if i < |done| {
        assert ParentsBefore(deps, done, i) && r[..i] == done[..i];
      } else {
        assert r[i] in layer && r[i] in Ready(deps, remaining);
        var parents := deps[r[i]];
        forall p | p in parents ensures p in r[..i] {
          assert p !in parents * remaining;
          assert p in deps && p in done;
          assert done <= r[..i];
        }
      }
    }
  }

  /** The listed keys are the others than the remaining ones, each after its parents. */
  ghost predicate Listed(deps: Dependencies, done: seq<Key>, remaining: set<Key>) {
    WellPlaced(deps, done) && ListsOnce(done, deps.Keys - remaining)
  }

  lemma LayerListed(deps: Dependencies, done: seq<Key>, remaining: set<Key>)
    requires Closed(deps) && remaining <= deps.Keys && Listed(deps, done, remaining)
    ensures Listed(deps, done + Sorted(Ready(deps, remaining)), remaining - Ready(deps, remaining))
  {
    LayerOnce(deps.Keys, done, remaining, Ready(deps, remaining));
    LayerWellPlaced(deps, done, remaining);
  }

  /** Listing the last keys: none are left, or none is ready. */
  lemma LastPlaced(deps: Dependencies, done: seq<Key>, remaining: set<Key>)
    requires remaining <= deps.Keys && Ready(deps, remaining) == {} && Listed(deps, done, remaining)
    ensures AllPlaced(deps, done + Sorted(remaining)) && ListsOnce(done + Sorted(remaining), deps.Keys)
  {
    FallbackPlaced(deps, done, remaining);
    LayerOnce(deps.Keys, done, remaining, remaining);
    assert deps.Keys - (remaining - remaining) == deps.Keys;
  }

  lemma {:induction false} LayeredPlaced(deps: Dependencies, done: seq<Key>, remaining: set<Key>)
    requires Closed(deps) && remaining <= deps.Keys && WellPlaced(deps, done)
    requires ListsOnce(done, deps.Keys - remaining)
    ensures AllPlaced(deps, done + Layered(deps, remaining))
    ensures ListsOnce(done + Layered(deps, remaining), deps.Keys)
    decreases |remaining|
  {
    var ready := Ready(deps, remaining);
    if ready == {} {
      assert Sorted(remaining) != [] ==> Sorted(remaining)[0] in remaining;
      assert Layered(deps, remaining) == Sorted(remaining);
      LastPlaced(deps, done, remaining);
    } else {
      Shrinks(remaining, ready);
      LayerListed(deps, done, remaining);
      LayeredPlaced(deps, done + Sorted(ready), remaining - ready);
      LayeredUnfolds(deps, remaining, ready);
      Associative(done, Sorted(ready), Layered(deps, remaining - ready));
    }
  }

  lemma Associative(a: seq<Key>, b: seq<Key>, c: seq<Key>)
    ensures a + (b + c) == (a + b) + c
  {
  }

  /** Moving a layer from the remaining keys to the listed ones. */
  lemma LayerOnce(keys: set<Key>, done: seq<Key>, remaining: set<Key>, layer: set<Key>)
    requires layer <= remaining <= keys && ListsOnce(done, keys - remaining)
    ensures ListsOnce(done + Sorted(layer), keys - (remaining - layer))
  {
    OnceAppended(done, keys - remaining, Sorted(layer), layer);
    assert keys - remaining + layer == keys - (remaining - layer);
  }

  lemma OnceAppended(a: seq<Key>, s: set<Key>, b: seq<Key>, t: set<Key>)
    requires ListsOnce(a, s) && ListsOnce(b, t) && s !! t
    ensures ListsOnce(a + b, s + t)
  {
    var r := a + b;
    forall i, j | 0 <= i < j < |r| ensures r[i] != r[j] {
      if i < |a| { assert r[i] in a; }
      if j >= |a| { assert r[j] in b; }
    }
  }

  // ---------------------------------------------------------------- the ordering itself

  /** The last table with each key, as the dictionary by key keeps it. */
  function ByKey(tables: seq<Table>): (m: map<Key, Table>)
    ensures forall k :: k in m <==> exists i :: 0 <= i < |tables| && tables[i].key == k
    ensures forall k :: k in m ==> m[k].key == k && m[k] in tables
  {
    if |tables| == 0 then map[]
    else
      var n := |tables| - 1;
      ByKey(tables[..n])[tables[n].key := tables[n]]
  }

  /** Of several tables with one key, the last is the one that is ordered. */
  lemma {:induction false} LastWins(tables: seq<Table>, i: nat)
    requires i < |tables| && forall j :: i < j < |tables| ==> tables[j].key != tables[i].key
    ensures tables[i].key in ByKey(tables) && ByKey(tables)[tables[i].key] == tables[i]
  {
    if i < |tables| - 1 {
      LastWins(tables[..|tables| - 1], i);
    }
  }

  function KeysOf(r: seq<Table>): (ks: seq<Key>)
    ensures |ks| == |r| && forall i :: 0 <= i < |r| ==> ks[i] == r[i].key
  {
    seq(|r|, i requires 0 <= i < |r| => r[i].key)
  }

  ghost predicate ByOwnKey(byKey: map<Key, Table>) {
    forall k :: k in byKey ==> byKey[k].key == k
  }

  /** Every entry is the table filed under its key. */
  ghost predicate FiledTables(byKey: map<Key, Table>, ordered: seq<Table>) {
    forall i :: 0 <= i < |ordered| ==> ordered[i].key in byKey && ordered[i] == byKey[ordered[i].key]
  }

  /** The inner loop: appends the tables of a layer and takes their keys off the remaining set. */
  method Place(byKey: map<Key, Table>, ready: seq<Key>, ordered: seq<Table>, remaining: set<Key>)
    returns (ordered': seq<Table>, remaining': set<Key>)
    requires FiledTables(byKey, ordered)
    requires ByOwnKey(byKey) && (set x | x in ready) <= byKey.Keys
    ensures FiledTables(byKey, ordered') && KeysOf(ordered') == KeysOf(ordered) + ready
    ensures remaining' == remaining - set x | x in ready
  {
    ordered', remaining' := ordered, remaining;
    for k := 0 to |ready|
      invariant FiledTables(byKey, ordered') && KeysOf(ordered') == KeysOf(ordered) + ready[..k]
      invariant forall x :: x in remaining' <==> x in remaining && x !in ready[..k]
    {
      ordered' := ordered' + [byKey[ready[k]]];
      remaining' := remaining' - {ready[k]};
      assert ready[..k + 1] == ready[..k] + [ready[k]];
    }
    assert ready[..|ready|] == ready;
  }

  lemma ListedSet(r: seq<Key>, s: set<Key>)
    requires ListsOnce(r, s)
    ensures (set x | x in r) == s
  {
  }

  lemma LayeredUnfolds(deps: Dependencies, remaining: set<Key>, ready: set<Key>)
    requires remaining <= deps.Keys && remaining != {}
    requires ready == if Ready(deps, remaining) == {} then remaining else Ready(deps, remaining)
    ensures Layered(deps, remaining) == Sorted(ready) + Layered(deps, remaining - ready)
  {
    if Ready(deps, remaining) == {} {
      assert remaining - ready == {};
      assert Sorted(ready) + [] == Sorted(ready);
    }
  }

  /** One round of the main loop: the ready tables, or all that remain when none is ready. */
  method PlaceLayer(byKey: map<Key, Table>, deps: Dependencies, ordered: seq<Table>, remaining: set<Key>)
    returns (ordered': seq<Table>, remaining': set<Key>)
    requires ByOwnKey(byKey) && deps.Keys == byKey.Keys && FiledTables(byKey, ordered)
    requires remaining <= deps.Keys && remaining != {}
    ensures FiledTables(byKey, ordered') && remaining' <= deps.Keys && |remaining'| < |remaining|
    ensures KeysOf(ordered') + Layered(deps, remaining') == KeysOf(ordered) + Layered(deps, remaining)
  {
    var ready := Ready(deps, remaining);
    if ready == {} {
      ready := remaining;
    }
    Shrinks(remaining, ready);
    LayeredUnfolds(deps, remaining, ready);
    var layer := Sort(ready);
    ListedSet(layer, ready);
    ordered', remaining' := Place(byKey, layer, ordered, remaining);
    Associative(KeysOf(ordered), layer, Layered(deps, remaining'));
  }

  /** The main loop: places one layer after the other until no table remains. */
  method PlaceLayers(byKey: map<Key, Table>, deps: Dependencies) returns (ordered: seq<Table>)
    requires ByOwnKey(byKey) && deps.Keys == byKey.Keys
    ensures FiledTables(byKey, ordered) && KeysOf(ordered) == Layered(deps, deps.Keys)
  {
    ordered := [];
    var remaining := byKey.Keys;
    while remaining != {}
      invariant remaining <= deps.Keys && FiledTables(byKey, ordered)
      invariant KeysOf(ordered) + Layered(deps, remaining) == Layered(deps, deps.Keys)
      decreases |remaining|
    {
      ordered, remaining := PlaceLayer(byKey, deps, ordered, remaining);
    }
  }

  /**
    The whole ordering: every key once, each with the table filed under it; a table that reaches
    no cycle after all its parents; the tables that reach a cycle last and in ascending order.
   */
  method OrderTables(tables: seq<Table>, fks: seq<(Column, Column)>)
    returns (ordered: seq<Table>, ghost deps: Dependencies)
    ensures deps.Keys == ByKey(tables).Keys
    ensures forall c, p :: c in deps ==> (p in deps[c] <==> Waits(deps.Keys, fks, c, p))
    ensures FiledTables(ByKey(tables), ordered) && KeysOf(ordered) == Layered(deps, deps.Keys)
    ensures ListsOnce(KeysOf(ordered), deps.Keys) && AllPlaced(deps, KeysOf(ordered))
  {
    var byKey := ByKey(tables);
    var waits := Collect(byKey.Keys, fks);
    deps := waits;
    ordered := PlaceLayers(byKey, waits);
    OrderPlaced(deps);
  }

  lemma OrderPlaced(deps: Dependencies)
    requires Closed(deps)
    ensures ListsOnce(Layered(deps, deps.Keys), deps.Keys) && AllPlaced(deps, Layered(deps, deps.Keys))
  {
    assert deps.Keys - deps.Keys == {};
    LayeredPlaced(deps, [], deps.Keys);
    assert [] + Layered(deps, deps.Keys) == Layered(deps, deps.Keys);
  }
}
