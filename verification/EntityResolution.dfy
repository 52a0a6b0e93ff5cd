/**
  Entity resolution of the production-dependency simulator: a union-find with path
  halving over a dictionary, driven by a double loop over all pairs of records.
  The main result, `Resolve`, says that the clusters are exactly the classes of the
  equivalence closure of "some pair of records with these ids scores at the threshold".
 */
module EntityResolution {
  import opened Common

  // ---------------------------------------------------------------- similarity

  datatype Record = Record(id: string, fullName: Option<string>, email: Option<string>, phone: Option<string>)

  /** Strips and case-folds a field; its Unicode tables are not part of the model. */
  type Normaliser = string -> string

  function Field(r: Record, k: nat): Option<string>
    requires k < 3
  {
    if k == 0 then r.fullName else if k == 1 then r.email else r.phone
  }

  /** The text two records are compared on; an absent field counts as the empty text. */
  function Text(norm: Normaliser, r: Record, k: nat): string
    requires k < 3
  {
    match Field(r, k)
    case None => norm("")
    case Some(s) => norm(s)
  }

  /** Both records carry the field. */
  predicate Comparable(norm: Normaliser, l: Record, r: Record, k: nat)
    requires k < 3
  {
    Text(norm, l, k) != "" && Text(norm, r, k) != ""
  }

  /** Both records carry the field and agree on it. */
  predicate Agreeing(norm: Normaliser, l: Record, r: Record, k: nat)
    requires k < 3
  {
    Comparable(norm, l, r, k) && Text(norm, l, k) == Text(norm, r, k)
  }

  function Tally(b: bool): nat { if b then 1 else 0 }

  function ComparableCount(norm: Normaliser, l: Record, r: Record): nat {
    Tally(Comparable(norm, l, r, 0)) + Tally(Comparable(norm, l, r, 1)) + Tally(Comparable(norm, l, r, 2))
  }

  function AgreeingCount(norm: Normaliser, l: Record, r: Record): nat {
    Tally(Agreeing(norm, l, r, 0)) + Tally(Agreeing(norm, l, r, 1)) + Tally(Agreeing(norm, l, r, 2))
  }

  /** The share of comparable fields that agree, and 0 when none is comparable. */
  function Score(norm: Normaliser, l: Record, r: Record): real {
    var n := ComparableCount(norm, l, r);
    if n == 0 then 0.0 else AgreeingCount(norm, l, r) as real / n as real
  }

  /** The scoring loop: collects one score per comparable field and averages them. */
  method Similarity(norm: Normaliser, l: Record, r: Record) returns (score: real)
    ensures score == Score(norm, l, r)
    ensures 0.0 <= score <= 1.0
    ensures score == 1.0 <==>
      ComparableCount(norm, l, r) > 0 && AgreeingCount(norm, l, r) == ComparableCount(norm, l, r)
  {
    var count, sum := 0, 0;
    var k := 0;
    while k < 3
      invariant k <= 3
      invariant count == (if k > 0 then Tally(Comparable(norm, l, r, 0)) else 0)
                         + (if k > 1 then Tally(Comparable(norm, l, r, 1)) else 0)
                         + (if k > 2 then Tally(Comparable(norm, l, r, 2)) else 0)
      invariant sum == (if k > 0 then Tally(Agreeing(norm, l, r, 0)) else 0)
                       + (if k > 1 then Tally(Agreeing(norm, l, r, 1)) else 0)
                       + (if k > 2 then Tally(Agreeing(norm, l, r, 2)) else 0)
    {
      var a := Text(norm, l, k);
      var b := Text(norm, r, k);
      if a != "" && b != "" {
        count := count + 1;
        sum := sum + if a == b then 1 else 0;
      }
      k := k + 1;
    }
    score := if count == 0 then 0.0 else sum as real / count as real;
  }

  /** The score does not depend on which record comes first. */
  lemma ScoreSymmetric(norm: Normaliser, l: Record, r: Record)
    ensures Score(norm, l, r) == Score(norm, r, l)
  {
    assert forall k: nat | k < 3 :: Agreeing(norm, l, r, k) == Agreeing(norm, r, l, k);
  }

  // ---------------------------------------------------------------- matches and links

  type Scorer = (Record, Record) -> real

  function ScorerOf(norm: Normaliser): Scorer {
    (l, r) => Score(norm, l, r)
  }

  datatype Match = Match(left: string, right: string, score: real)

  /** What one pair contributes. */
  ghost function Hit(score: Scorer, l: Record, r: Record, t: real): seq<Match> {
    if score(l, r) >= t then [Match(l.id, r.id, score(l, r))] else []
  }

  /** The matches of record `i` with the records after it and before `j`. */
  ghost function Row(score: Scorer, rs: seq<Record>, t: real, i: nat, j: nat): seq<Match>
    requires i < |rs| && j <= |rs|
  {
    if j <= i + 1 then [] else Row(score, rs, t, i, j - 1) + Hit(score, rs[i], rs[j - 1], t)
  }

  /** The rows of the first `i` records. */
  ghost function Rows(score: Scorer, rs: seq<Record>, t: real, i: nat): seq<Match>
    requires i <= |rs|
  {
    if i == 0 then [] else Rows(score, rs, t, i - 1) + Row(score, rs, t, i - 1, |rs|)
  }

  /** All matches of the run, in loop order. */
  ghost function AllMatches(score: Scorer, rs: seq<Record>, t: real): seq<Match> {
    Rows(score, rs, t, |rs|)
  }

  /** Some pair of records with these ids, in list order, scores at or above the threshold. */
  ghost predicate Scores(score: Scorer, rs: seq<Record>, t: real, a: string, b: string) {
    exists p, q :: 0 <= p < q < |rs| && rs[p].id == a && rs[q].id == b && score(rs[p], rs[q]) >= t
  }

  /** `AllMatches` lists exactly the pairs that score at the threshold. */
  lemma AllMatchesExact(score: Scorer, rs: seq<Record>, t: real, a: string, b: string)
    ensures Scores(score, rs, t, a, b) <==> Joined(AllMatches(score, rs, t), a, b)
  {
    var ms := AllMatches(score, rs, t);
    if Scores(score, rs, t, a, b) {
      var p, q :| 0 <= p < q < |rs| && rs[p].id == a && rs[q].id == b && score(rs[p], rs[q]) >= t;
      RowLists(score, rs, t, p, |rs|, q);
      RowsList(score, rs, t, |rs|, p, a, b);
    }
    if Joined(ms, a, b) {
      RowsSound(score, rs, t, |rs|, a, b);
    }
  }

  lemma JoinedEither(ms: seq<Match>, ns: seq<Match>, a: string, b: string)
    ensures Joined(ms + ns, a, b) <==> Joined(ms, a, b) || Joined(ns, a, b)
  {
    if Joined(ms, a, b) { JoinedPrefix(ms, ms + ns, a, b); }
    if Joined(ns, a, b) {
      var k :| 0 <= k < |ns| && ns[k].left == a && ns[k].right == b;
      assert (ms + ns)[|ms| + k] == ns[k];
    }
    if Joined(ms + ns, a, b) {
      var k :| 0 <= k < |ms + ns| && (ms + ns)[k].left == a && (ms + ns)[k].right == b;
      if k < |ms| { assert ms[k] == (ms + ns)[k]; } else { assert ns[k - |ms|] == (ms + ns)[k]; }
    }
  }

  lemma {:induction false} RowLists(score: Scorer, rs: seq<Record>, t: real, i: nat, j: nat, q: nat)
    requires i < q < j <= |rs| && score(rs[i], rs[q]) >= t
    ensures Joined(Row(score, rs, t, i, j), rs[i].id, rs[q].id)
  {
    JoinedEither(Row(score, rs, t, i, j - 1), Hit(score, rs[i], rs[j - 1], t), rs[i].id, rs[q].id);
    if q == j - 1 {
      assert Hit(score, rs[i], rs[q], t)[0].left == rs[i].id;
    } else {
      RowLists(score, rs, t, i, j - 1, q);
    }
  }

  lemma {:induction false} RowsList(score: Scorer, rs: seq<Record>, t: real, i: nat, p: nat, a: string, b: string)
    requires p < i <= |rs| && Joined(Row(score, rs, t, p, |rs|), a, b)
    ensures Joined(Rows(score, rs, t, i), a, b)
  {
    JoinedEither(Rows(score, rs, t, i - 1), Row(score, rs, t, i - 1, |rs|), a, b);
    if p < i - 1 { RowsList(score, rs, t, i - 1, p, a, b); }
  }

  lemma {:induction false} RowSound(score: Scorer, rs: seq<Record>, t: real, i: nat, j: nat, a: string, b: string)
    requires i < |rs| && j <= |rs| && Joined(Row(score, rs, t, i, j), a, b)
    ensures Scores(score, rs, t, a, b)
  {
    JoinedEither(Row(score, rs, t, i, j - 1), Hit(score, rs[i], rs[j - 1], t), a, b);
    if Joined(Row(score, rs, t, i, j - 1), a, b) {
      RowSound(score, rs, t, i, j - 1, a, b);
    } else {
      assert rs[i].id == a && rs[j - 1].id == b;
    }
  }

  lemma {:induction false} RowsSound(score: Scorer, rs: seq<Record>, t: real, i: nat, a: string, b: string)
    requires i <= |rs| && Joined(Rows(score, rs, t, i), a, b)
    ensures Scores(score, rs, t, a, b)
  {
    JoinedEither(Rows(score, rs, t, i - 1), Row(score, rs, t, i - 1, |rs|), a, b);
    if Joined(Rows(score, rs, t, i - 1), a, b) {
      RowsSound(score, rs, t, i - 1, a, b);
    } else {
      RowSound(score, rs, t, i - 1, |rs|, a, b);
    }
  }

  /** A match names the two ids, in this order. */
  ghost predicate Joined(ms: seq<Match>, a: string, b: string) {
    exists k :: 0 <= k < |ms| && ms[k].left == a && ms[k].right == b
  }

  lemma JoinedPrefix(ms: seq<Match>, ns: seq<Match>, a: string, b: string)
    requires ms <= ns && Joined(ms, a, b)
    ensures Joined(ns, a, b)
  {
    var k :| 0 <= k < |ms| && ms[k].left == a && ms[k].right == b;
    assert ns[k] == ms[k];
  }

  /** A chain of ids in which neighbours are matched, in either order. */
  ghost predicate Chain(ms: seq<Match>, p: seq<string>) {
    |p| > 0 && forall i :: 0 <= i < |p| - 1 ==> Joined(ms, p[i], p[i + 1]) || Joined(ms, p[i + 1], p[i])
  }

  ghost predicate ChainFrom(ms: seq<Match>, p: seq<string>, a: string, b: string) {
    Chain(ms, p) && p[0] == a && p[|p| - 1] == b
  }

  /** A chain of matches leads from one id to the other. */
  ghost predicate Linked(ms: seq<Match>, a: string, b: string) {
    exists p :: ChainFrom(ms, p, a, b)
  }

  lemma LinkedReflexive(ms: seq<Match>, a: string)
    ensures Linked(ms, a, a)
  {
    assert ChainFrom(ms, [a], a, a);
  }

  lemma LinkedTransitive(ms: seq<Match>, a: string, b: string, c: string)
    requires Linked(ms, a, b) && Linked(ms, b, c)
    ensures Linked(ms, a, c)
  {
    var p :| ChainFrom(ms, p, a, b);
    var q :| ChainFrom(ms, q, b, c);
    var r := p + q[1..];
    forall i | 0 <= i < |r| - 1 ensures Joined(ms, r[i], r[i + 1]) || Joined(ms, r[i + 1], r[i]) {
      if i < |p| - 1 {
        assert r[i] == p[i] && r[i + 1] == p[i + 1];
      } else {
        assert r[i] == q[i - (|p| - 1)] && r[i + 1] == q[i + 1 - (|p| - 1)];
      }
    }
    assert ChainFrom(ms, r, a, c);
  }

  lemma LinkedSymmetric(ms: seq<Match>, a: string, b: string)
    requires Linked(ms, a, b)
    ensures Linked(ms, b, a)
  {
    var p :| ChainFrom(ms, p, a, b);
    var r := seq(|p|, i requires 0 <= i < |p| => p[|p| - 1 - i]);
    forall i | 0 <= i < |r| - 1 ensures Joined(ms, r[i], r[i + 1]) || Joined(ms, r[i + 1], r[i]) {
      assert r[i] == p[|p| - 2 - i + 1] && r[i + 1] == p[|p| - 2 - i];
    }
    assert ChainFrom(ms, r, b, a);
  }

  lemma LinkedMonotone(ms: seq<Match>, ns: seq<Match>, a: string, b: string)
    requires ms <= ns && Linked(ms, a, b)
    ensures Linked(ns, a, b)
  {
    var p :| ChainFrom(ms, p, a, b);
    forall i | 0 <= i < |p| - 1 ensures Joined(ns, p[i], p[i + 1]) || Joined(ns, p[i + 1], p[i]) {
      if Joined(ms, p[i], p[i + 1]) { JoinedPrefix(ms, ns, p[i], p[i + 1]); }
      else { JoinedPrefix(ms, ns, p[i + 1], p[i]); }
    }
    assert ChainFrom(ns, p, a, b);
  }

  /** The two ids of the newest match are linked. */
  lemma LinkedNewest(ms: seq<Match>, m: Match)
    ensures Linked(ms + [m], m.left, m.right)
  {
    assert (ms + [m])[|ms|] == m;
    assert Joined(ms + [m], m.left, m.right);
    assert ChainFrom(ms + [m], [m.left, m.right], m.left, m.right);
  }

  // ---------------------------------------------------------------- the forest

  /**
    One node of the forest: its parent and its representative are nodes, the
    representative is a root shared with the parent, and ranks grow along a proper link.
   */
  ghost predicate Rooted(parent: map<string, string>, rep: map<string, string>, rank: map<string, nat>, bound: nat,
                         x: string) {
    && x in parent && x in rep && x in rank && rank[x] <= bound
    && parent[x] in parent && parent[x] in rep && parent[x] in rank
    && rep[x] in parent && parent[rep[x]] == rep[x]
    && rep[parent[x]] == rep[x]
    && (parent[x] == x ==> rep[x] == x)
    && (parent[x] != x ==> rank[x] < rank[parent[x]])
  }

  /** `rep` names the root each parent chain ends in, and bounded ranks rule out a cycle. */
  ghost predicate Forested(parent: map<string, string>, rep: map<string, string>, rank: map<string, nat>, bound: nat) {
    && rep.Keys == rank.Keys == parent.Keys
    && forall x {:trigger Rooted(parent, rep, rank, bound, x)} :: x in parent ==> Rooted(parent, rep, rank, bound, x)
  }

  /** The dictionary alone determines the representatives. */
  lemma {:induction false} RepresentativeUnique(parent: map<string, string>, rank: map<string, nat>, bound: nat,
                                                r1: map<string, string>, r2: map<string, string>, x: string)
    requires Forested(parent, r1, rank, bound) && Forested(parent, r2, rank, bound) && x in parent
    ensures r1[x] == r2[x]
    decreases bound - rank[x]
  {
    assert Rooted(parent, r1, rank, bound, x) && Rooted(parent, r2, rank, bound, x);
    if parent[x] != x {
      assert Rooted(parent, r1, rank, bound, parent[x]);
      RepresentativeUnique(parent, rank, bound, r1, r2, parent[x]);
    }
  }

  /** Pointing a node at its grandparent moves no node to another root. */
  lemma HalvingKeeps(parent: map<string, string>, rep: map<string, string>, rank: map<string, nat>, bound: nat,
                     x: string)
    requires Forested(parent, rep, rank, bound) && x in parent && parent[x] != x
    requires parent[x] in parent
    ensures var halved := parent[x := parent[parent[x]]];
            Forested(halved, rep, rank, bound) && halved[x] in parent
            && rank[x] < rank[halved[x]] <= bound && rep[halved[x]] == rep[x]
  {
    var halved := parent[x := parent[parent[x]]];
    assert Rooted(parent, rep, rank, bound, x) && Rooted(parent, rep, rank, bound, parent[x]);
    assert Rooted(parent, rep, rank, bound, parent[parent[x]]);
    forall y | y in halved ensures Rooted(halved, rep, rank, bound, y) {
      assert Rooted(parent, rep, rank, bound, y) && Rooted(parent, rep, rank, bound, rep[y]);
    }
  }

  /** Hanging one root under another merges exactly their two classes. */
  lemma LinkingMerges(parent: map<string, string>, rep: map<string, string>, rank: map<string, nat>, bound: nat,
                      l: string, r: string)
    requires Forested(parent, rep, rank, bound)
    requires l in parent && r in parent && parent[l] == l && parent[r] == r && l != r
    ensures Forested(parent[r := l], Merge(rep, l, r),
                     Raised(rank, l, r), bound + 1)
  {
    var linked := parent[r := l];
    var merged := Merge(rep, l, r);
    var ranked := Raised(rank, l, r);
    assert Rooted(parent, rep, rank, bound, l) && Rooted(parent, rep, rank, bound, r);
    forall y | y in linked ensures Rooted(linked, merged, ranked, bound + 1, y) {
      assert Rooted(parent, rep, rank, bound, y);
    }
  }

  /** The ranks once `l` has to rank above `r`. */
  ghost function Raised(rank: map<string, nat>, l: string, r: string): map<string, nat>
    requires l in rank && r in rank
  {
    rank[l := if rank[l] > rank[r] then rank[l] else rank[r] + 1]
  }

  lemma MergeSame(rep: map<string, string>, l: string)
    ensures Merge(rep, l, l) == rep
  {
  }

  /** The representatives once the classes of `l` and `r` are one, named after `l`. */
  ghost function Merge(rep: map<string, string>, l: string, r: string): map<string, string> {
    map x | x in rep :: if rep[x] == r then l else rep[x]
  }

  /** The shared parent dictionary with its two operations. */
  class Forest {
    var parent: map<string, string>
    ghost var rep: map<string, string>
    ghost var rank: map<string, nat>
    ghost var bound: nat

    ghost predicate Valid()
      reads this
    {
      Forested(parent, rep, rank, bound)
    }

    /** Every id starts as its own parent; equal ids are one node. */
    constructor (ids: set<string>)
      ensures Valid()
      ensures parent.Keys == ids && rep == map x | x in ids :: x
    {
      parent := map x | x in ids :: x;
      rep := map x | x in ids :: x;
      rank := map x | x in ids :: 0;
      bound := 0;
    }

    /** Walks to the root, pointing each visited node at its grandparent on the way. */
    method Find(value: string) returns (root: string)
      requires Valid() && value in parent
      modifies this`parent
      ensures Valid() && parent.Keys == old(parent.Keys)
      ensures root == rep[value] && root in parent && parent[root] == root
    {
      root := value;
      assert Rooted(parent, rep, rank, bound, root);
      while parent[root] != root
        invariant Valid() && parent.Keys == old(parent.Keys)
        invariant root in parent && rep[root] == rep[value]
        decreases bound - rank[root]
      {
        assert Rooted(parent, rep, rank, bound, root);
        HalvingKeeps(parent, rep, rank, bound, root);
        parent := parent[root := parent[parent[root]]];
        root := parent[root];
      }
      assert Rooted(parent, rep, rank, bound, root);
    }

    /** Hangs the right root under the left one, which keeps its representative. */
    method Union(left: string, right: string)
      requires Valid() && left in parent && right in parent
      modifies this
      ensures Valid() && parent.Keys == old(parent.Keys)
      ensures rep == Merge(old(rep), old(rep)[left], old(rep)[right])
    {
      var l := Find(left);
      var r := Find(right);
      if l != r {
        assert Rooted(parent, rep, rank, bound, left);
        Link(l, r);
      } else {
        MergeSame(rep, l);
      }
    }

    /** Hangs root `r` under root `l`. */
    method Link(l: string, r: string)
      requires Valid() && l in parent && r in parent && parent[l] == l && parent[r] == r && l != r
      modifies this
      ensures Valid() && parent == old(parent)[r := l] && rep == Merge(old(rep), l, r)
    {
      LinkingMerges(parent, rep, rank, bound, l, r);
      parent := parent[r := l];
      rep := Merge(rep, l, r);
      rank := Raised(rank, l, r);
      bound := bound + 1;
    }
  }

  // ---------------------------------------------------------------- representatives against links

  /** Two keys share a representative exactly when a chain of matches links them. */
  ghost predicate Agrees(rep: map<string, string>, ms: seq<Match>) {
    && (forall k {:trigger EndsAgree(rep, ms[k])} :: 0 <= k < |ms| ==> EndsAgree(rep, ms[k]))
    && (forall a, b :: LinkedIfSame(rep, ms, a, b))
  }

  ghost predicate EndsAgree(rep: map<string, string>, m: Match) {
    m.left in rep && m.right in rep && rep[m.left] == rep[m.right]
  }

  ghost predicate LinkedIfSame(rep: map<string, string>, ms: seq<Match>, a: string, b: string) {
    a in rep && b in rep && rep[a] == rep[b] ==> Linked(ms, a, b)
  }

  lemma JoinedAgree(rep: map<string, string>, ms: seq<Match>, a: string, b: string)
    requires forall k {:trigger EndsAgree(rep, ms[k])} :: 0 <= k < |ms| ==> EndsAgree(rep, ms[k])
    requires Joined(ms, a, b) || Joined(ms, b, a)
    ensures a in rep && b in rep && rep[a] == rep[b]
  {
    var k :| 0 <= k < |ms| && ((ms[k].left == a && ms[k].right == b) || (ms[k].left == b && ms[k].right == a));
    assert EndsAgree(rep, ms[k]);
  }

  /** A chain never leaves a class of equal representatives. */
  lemma {:induction false} ChainKeepsRepresentative(rep: map<string, string>, ms: seq<Match>, p: seq<string>)
    requires forall k {:trigger EndsAgree(rep, ms[k])} :: 0 <= k < |ms| ==> EndsAgree(rep, ms[k])
    requires Chain(ms, p) && p[0] in rep
    ensures p[|p| - 1] in rep && rep[p[|p| - 1]] == rep[p[0]]
  {
    if |p| > 1 {
      var q := p[..|p| - 1];
      forall i | 0 <= i < |q| - 1 ensures Joined(ms, q[i], q[i + 1]) || Joined(ms, q[i + 1], q[i]) {
        assert q[i] == p[i] && q[i + 1] == p[i + 1];
      }
      ChainKeepsRepresentative(rep, ms, q);
      JoinedAgree(rep, ms, p[|p| - 2], p[|p| - 1]);
    }
  }

  lemma AgreesBothWays(rep: map<string, string>, ms: seq<Match>, a: string, b: string)
    requires Agrees(rep, ms) && a in rep && b in rep
    ensures rep[a] == rep[b] <==> Linked(ms, a, b)
  {
    assert LinkedIfSame(rep, ms, a, b);
    if Linked(ms, a, b) {
      var p :| ChainFrom(ms, p, a, b);
      ChainKeepsRepresentative(rep, ms, p);
    }
  }

  /** Merging two classes matches adding one match. */
  lemma AgreesAfterUnion(rep: map<string, string>, merged: map<string, string>, ms: seq<Match>, m: Match)
    requires Agrees(rep, ms) && m.left in rep && m.right in rep
    requires merged == Merge(rep, rep[m.left], rep[m.right])
    ensures Agrees(merged, ms + [m])
  {
    var ns := ms + [m];
    forall k | 0 <= k < |ns| ensures EndsAgree(merged, ns[k]) {
      if k < |ms| { assert EndsAgree(rep, ms[k]); }
    }
    forall a, b ensures LinkedIfSame(merged, ns, a, b) {
      if a in merged && b in merged && merged[a] == merged[b] {
        assert LinkedIfSame(rep, ms, a, b);
        if rep[a] == rep[b] {
          LinkedMonotone(ms, ns, a, b);
        } else if rep[a] == rep[m.right] {
          CrossLink(rep, ms, m, b, a);
          LinkedSymmetric(ns, b, a);
        } else {
          CrossLink(rep, ms, m, a, b);
        }
      }
    }
  }

  /** An id of the left class and one of the right class are linked through the new match. */
  lemma CrossLink(rep: map<string, string>, ms: seq<Match>, m: Match, a: string, b: string)
    requires Agrees(rep, ms) && m.left in rep && m.right in rep && a in rep && b in rep
    requires rep[a] == rep[m.left] && rep[b] == rep[m.right]
    ensures Linked(ms + [m], a, b)
  {
    var ns := ms + [m];
    assert LinkedIfSame(rep, ms, a, m.left) && LinkedIfSame(rep, ms, m.right, b);
    LinkedMonotone(ms, ns, a, m.left);
    LinkedNewest(ms, m);
    LinkedMonotone(ms, ns, m.right, b);
    LinkedTransitive(ns, a, m.left, m.right);
    LinkedTransitive(ns, a, m.right, b);
  }

  // ---------------------------------------------------------------- gathering the clusters

  function Ids(rs: seq<Record>): (ids: seq<string>) {
    seq(|rs|, i requires 0 <= i < |rs| => rs[i].id)
  }

  ghost predicate Known(ids: seq<string>, rep: map<string, string>) {
    forall i :: 0 <= i < |ids| ==> ids[i] in rep
  }

  /** The ids whose representative is `r`, in record order. */
  ghost function Class(ids: seq<string>, rep: map<string, string>, r: string): seq<string>
    requires Known(ids, rep)
  {
    if |ids| == 0 then []
    else
      var x := ids[|ids| - 1];
      Class(ids[..|ids| - 1], rep, r) + if rep[x] == r then [x] else []
  }

  lemma {:induction false} ClassMembers(ids: seq<string>, rep: map<string, string>, r: string)
    requires Known(ids, rep)
    ensures forall x :: x in Class(ids, rep, r) <==> x in ids && rep[x] == r
  {
    if |ids| > 0 {
      ClassMembers(ids[..|ids| - 1], rep, r);
      assert ids == ids[..|ids| - 1] + [ids[|ids| - 1]];
    }
  }

  lemma ClassSnoc(ids: seq<string>, rep: map<string, string>, r: string, x: string)
    requires Known(ids, rep) && x in rep
    ensures Known(ids + [x], rep)
    ensures Class(ids + [x], rep, r) == Class(ids, rep, r) + if rep[x] == r then [x] else []
  {
    assert (ids + [x])[..|ids|] == ids;
  }

  /** The lists of an insertion-ordered dictionary, one after the other. */
  ghost function Flatten(lists: seq<seq<string>>): seq<string> {
    if |lists| == 0 then [] else Flatten(lists[..|lists| - 1]) + lists[|lists| - 1]
  }

  /** Appending to one list adds one element overall. */
  lemma {:induction false} FlattenGrows(lists: seq<seq<string>>, k: nat, x: string)
    requires k < |lists|
    ensures multiset(Flatten(lists[k := lists[k] + [x]])) == multiset(Flatten(lists)) + multiset{x}
  {
    var grown := lists[k := lists[k] + [x]];
    var n := |lists| - 1;
    if k == n {
      assert grown[..n] == lists[..n];
    } else {
      FlattenGrows(lists[..n], k, x);
      assert grown[..n] == lists[..n][k := lists[..n][k] + [x]];
    }
  }

  lemma ListsGrow(lists: seq<seq<string>>, ids: seq<string>, k: nat, x: string)
    requires Lists(lists, ids) && k < |lists|
    ensures Lists(lists[k := lists[k] + [x]], ids + [x])
  {
    FlattenGrows(lists, k, x);
  }

  lemma ListsSnoc(lists: seq<seq<string>>, ids: seq<string>, x: string)
    requires Lists(lists, ids)
    ensures Lists(lists + [[x]], ids + [x])
  {
    assert (lists + [[x]])[..|lists|] == lists;
  }

  /** The list filed under a root. */
  ghost predicate Filed(ids: seq<string>, rep: map<string, string>, root: string, list: seq<string>)
    requires Known(ids, rep)
  {
    list == Class(ids, rep, root) && list != []
  }

  ghost predicate AllFiled(ids: seq<string>, rep: map<string, string>, roots: seq<string>, lists: seq<seq<string>>)
    requires Known(ids, rep)
  {
    |roots| == |lists|
    && forall c {:trigger Filed(ids, rep, roots[c], lists[c])} :: 0 <= c < |roots| ==>
       Filed(ids, rep, roots[c], lists[c])
  }

  ghost predicate Distinct(roots: seq<string>) {
    forall c, d :: 0 <= c < d < |roots| ==> roots[c] != roots[d]
  }

  /** Every id has its root among the keys. */
  ghost predicate Covered(ids: seq<string>, rep: map<string, string>, roots: seq<string>)
    requires Known(ids, rep)
  {
    forall i :: 0 <= i < |ids| ==> rep[ids[i]] in roots
  }

  /** Where each root was first seen: the roots come in that order. */
  ghost predicate FirstSeen(ids: seq<string>, rep: map<string, string>, roots: seq<string>, firsts: seq<nat>)
    requires Known(ids, rep)
  {
    && |firsts| == |roots|
    && (forall c :: 0 <= c < |roots| ==> firsts[c] < |ids| && rep[ids[firsts[c]]] == roots[c])
    && (forall c, j :: 0 <= c < |roots| && 0 <= j < firsts[c] ==> rep[ids[j]] != roots[c])
    && (forall c, d :: 0 <= c < d < |roots| ==> firsts[c] < firsts[d])
  }

  /** Filing one more id under its root. */
  lemma GatherStep(ids: seq<string>, rep: map<string, string>, roots: seq<string>, lists: seq<seq<string>>, x: string,
                   c: nat)
    requires Known(ids, rep) && x in rep
    requires AllFiled(ids, rep, roots, lists) && Distinct(roots) && c < |roots| && roots[c] == rep[x]
    ensures Known(ids + [x], rep) && AllFiled(ids + [x], rep, roots, lists[c := lists[c] + [x]])
  {
    ClassSnoc(ids, rep, rep[x], x);
    var filed := lists[c := lists[c] + [x]];
    forall d | 0 <= d < |roots| ensures Filed(ids + [x], rep, roots[d], filed[d]) {
      assert Filed(ids, rep, roots[d], lists[d]);
      ClassSnoc(ids, rep, roots[d], x);
    }
  }

  /** Opening a list for a root not seen before. */
  lemma GatherNew(ids: seq<string>, rep: map<string, string>, roots: seq<string>, lists: seq<seq<string>>, x: string)
    requires Known(ids, rep) && x in rep
    requires AllFiled(ids, rep, roots, lists) && Covered(ids, rep, roots) && rep[x] !in roots
    ensures Known(ids + [x], rep) && AllFiled(ids + [x], rep, roots + [rep[x]], lists + [[x]])
  {
    ClassSnoc(ids, rep, rep[x], x);
    NothingFiled(ids, rep, roots, rep[x]);
    forall d | 0 <= d < |roots| + 1 ensures Filed(ids + [x], rep, (roots + [rep[x]])[d], (lists + [[x]])[d]) {
      if d < |roots| {
        assert Filed(ids, rep, roots[d], lists[d]);
        ClassSnoc(ids, rep, roots[d], x);
      }
    }
  }

  lemma {:induction false} NothingFiled(ids: seq<string>, rep: map<string, string>, roots: seq<string>, r: string)
    requires Known(ids, rep) && Covered(ids, rep, roots) && r !in roots
    ensures Class(ids, rep, r) == []
  {
    if |ids| > 0 {
      NothingFiled(ids[..|ids| - 1], rep, roots, r);
      assert rep[ids[|ids| - 1]] in roots;
    }
  }

  /** Filing an id under a known root leaves the keys covering and in order of first sight. */
  lemma KeysKept(ids: seq<string>, rep: map<string, string>, roots: seq<string>, firsts: seq<nat>, x: string)
    requires Known(ids, rep) && x in rep && rep[x] in roots
    requires Covered(ids, rep, roots) && FirstSeen(ids, rep, roots, firsts)
    ensures Known(ids + [x], rep) && Covered(ids + [x], rep, roots) && FirstSeen(ids + [x], rep, roots, firsts)
  {
  }

  /** A new root extends the keys at the end. */
  lemma KeysExtended(ids: seq<string>, rep: map<string, string>, roots: seq<string>, firsts: seq<nat>, x: string)
    requires Known(ids, rep) && x in rep && rep[x] !in roots && Distinct(roots)
    requires Covered(ids, rep, roots) && FirstSeen(ids, rep, roots, firsts)
    ensures Known(ids + [x], rep) && Covered(ids + [x], rep, roots + [rep[x]]) && Distinct(roots + [rep[x]])
    ensures FirstSeen(ids + [x], rep, roots + [rep[x]], firsts + [|ids|])
  {
    forall i | 0 <= i < |ids + [x]| ensures rep[(ids + [x])[i]] in roots + [rep[x]] {
      if i < |ids| { assert rep[ids[i]] in roots; }
    }
  }

  /** The clusters of the ids filed so far. */
  ghost predicate Gathered(ids: seq<string>, rep: map<string, string>, roots: seq<string>, clusters: seq<seq<string>>,
                           firsts: seq<nat>) {
    && Known(ids, rep)
    && AllFiled(ids, rep, roots, clusters) && Distinct(roots) && Covered(ids, rep, roots)
    && FirstSeen(ids, rep, roots, firsts)
    && Lists(clusters, ids)
  }

  /** Together the clusters list every id as often as it occurs. */
  ghost predicate Lists(clusters: seq<seq<string>>, ids: seq<string>) {
    multiset(Flatten(clusters)) == multiset(ids)
  }

  /** Appends one id to the list of its root, opening the list when the root is new. */
  method File(x: string, root: string, clusters: seq<seq<string>>, roots: seq<string>,
              ghost ids: seq<string>, ghost rep: map<string, string>, ghost firsts: seq<nat>)
    returns (clusters': seq<seq<string>>, roots': seq<string>, ghost firsts': seq<nat>)
    requires Gathered(ids, rep, roots, clusters, firsts) && x in rep && rep[x] == root
    ensures Gathered(ids + [x], rep, roots', clusters', firsts')
  {
    if root in roots {
      var c := IndexOf(roots, root);
      GatherStep(ids, rep, roots, clusters, x, c);
      KeysKept(ids, rep, roots, firsts, x);
      ListsGrow(clusters, ids, c, x);
      clusters', roots', firsts' := clusters[c := clusters[c] + [x]], roots, firsts;
    } else {
      GatherNew(ids, rep, roots, clusters, x);
      KeysExtended(ids, rep, roots, firsts, x);
      ListsSnoc(clusters, ids, x);
      clusters', roots', firsts' := clusters + [[x]], roots + [root], firsts + [|ids|];
    }
  }

  /** The final loop: files every record under its root, roots in order of first sight. */
  method Gather(forest: Forest, ids: seq<string>)
    returns (clusters: seq<seq<string>>, roots: seq<string>, ghost firsts: seq<nat>)
    requires forest.Valid() && Known(ids, forest.rep)
    modifies forest`parent
    ensures forest.Valid() && Gathered(ids, forest.rep, roots, clusters, firsts)
  {
    clusters, roots, firsts := [], [], [];
    ghost var rep := forest.rep;
    ghost var done: seq<string> := [];
    for k := 0 to |ids|
      invariant forest.Valid() && done == ids[..k] && Gathered(done, rep, roots, clusters, firsts)
    {
      assert done + [ids[k]] == ids[..k + 1];
      var root := forest.Find(ids[k]);
      clusters, roots, firsts := File(ids[k], root, clusters, roots, done, rep, firsts);
      done := done + [ids[k]];
    }
    assert ids[..|ids|] == ids;
  }

  function IndexOf(s: seq<string>, x: string): (k: nat)
    requires x in s
    ensures k < |s| && s[k] == x
  {
    if s[0] == x then 0 else 1 + IndexOf(s[1..], x)
  }

  // ---------------------------------------------------------------- the whole request

  /** The ids linked to `a`, in record order. */
  ghost function LinkedTo(ids: seq<string>, ms: seq<Match>, a: string): seq<string> {
    if |ids| == 0 then []
    else
      var x := ids[|ids| - 1];
      LinkedTo(ids[..|ids| - 1], ms, a) + if Linked(ms, a, x) then [x] else []
  }

  lemma {:induction false} ClassIsLinkedTo(ids: seq<string>, rep: map<string, string>, ms: seq<Match>, a: string)
    requires Known(ids, rep) && Agrees(rep, ms) && a in rep
    ensures Class(ids, rep, rep[a]) == LinkedTo(ids, ms, a)
  {
    if |ids| > 0 {
      ClassIsLinkedTo(ids[..|ids| - 1], rep, ms, a);
      AgreesBothWays(rep, ms, a, ids[|ids| - 1]);
    }
  }

  /** A class starts with the id that was seen first. */
  lemma {:induction false} ClassHead(ids: seq<string>, rep: map<string, string>, r: string, first: nat)
    requires Known(ids, rep) && first < |ids| && rep[ids[first]] == r
    requires forall j :: 0 <= j < first ==> rep[ids[j]] != r
    ensures Class(ids, rep, r) != [] && Class(ids, rep, r)[0] == ids[first]
  {
    var n := |ids| - 1;
    if first == n {
      NothingEarlier(ids[..n], rep, r);
    } else {
      ClassHead(ids[..n], rep, r, first);
    }
  }

  lemma {:induction false} NothingEarlier(ids: seq<string>, rep: map<string, string>, r: string)
    requires Known(ids, rep) && forall j :: 0 <= j < |ids| ==> rep[ids[j]] != r
    ensures Class(ids, rep, r) == []
  {
    if |ids| > 0 { NothingEarlier(ids[..|ids| - 1], rep, r); }
  }

  /** Two ids are listed in one cluster. */
  ghost predicate Together(clusters: seq<seq<string>>, a: string, b: string) {
    exists c :: 0 <= c < |clusters| && a in clusters[c] && b in clusters[c]
  }

  /** Every cluster is the full class of its first id, in record order. */
  ghost predicate Classes(ids: seq<string>, ms: seq<Match>, clusters: seq<seq<string>>) {
    forall c :: 0 <= c < |clusters| ==> clusters[c] != [] && clusters[c] == LinkedTo(ids, ms, clusters[c][0])
  }

  /** Before the first id of a cluster appears, the first id of every earlier cluster has. */
  ghost predicate InOrderOfSight(ids: seq<string>, clusters: seq<seq<string>>) {
    forall c, d, j |
      0 <= d < c < |clusters| && 0 <= j < |ids| && clusters[c] != [] && clusters[d] != [] && ids[j] == clusters[c][0] ::
      clusters[d][0] in ids[..j]
  }

  lemma GatheredClasses(ids: seq<string>, rep: map<string, string>, ms: seq<Match>, roots: seq<string>,
                        clusters: seq<seq<string>>, firsts: seq<nat>)
    requires Known(ids, rep) && Agrees(rep, ms)
    requires AllFiled(ids, rep, roots, clusters) && FirstSeen(ids, rep, roots, firsts)
    ensures Classes(ids, ms, clusters) && InOrderOfSight(ids, clusters)
  {
    forall c | 0 <= c < |clusters|
      ensures clusters[c] != [] && clusters[c][0] == ids[firsts[c]]
      ensures clusters[c] == LinkedTo(ids, ms, clusters[c][0])
    {
      assert Filed(ids, rep, roots[c], clusters[c]);
      ClassHead(ids, rep, roots[c], firsts[c]);
      ClassIsLinkedTo(ids, rep, ms, ids[firsts[c]]);
    }
    forall c, d, j | 0 <= d < c < |clusters| && 0 <= j < |ids| && clusters[c] != [] && clusters[d] != []
                     && ids[j] == clusters[c][0]
      ensures clusters[d][0] in ids[..j]
    {
      assert firsts[d] < firsts[c] <= j;
      assert ids[..j][firsts[d]] == ids[firsts[d]];
    }
  }

  /** Sharing a cluster and being linked are the same thing. */
  lemma GatheredTogether(ids: seq<string>, rep: map<string, string>, ms: seq<Match>, roots: seq<string>,
                         clusters: seq<seq<string>>, a: string, b: string)
    requires Known(ids, rep) && Agrees(rep, ms) && a in ids && b in ids
    requires AllFiled(ids, rep, roots, clusters) && Covered(ids, rep, roots)
    ensures Together(clusters, a, b) <==> Linked(ms, a, b)
  {
    AgreesBothWays(rep, ms, a, b);
    if Together(clusters, a, b) {
      var c :| 0 <= c < |clusters| && a in clusters[c] && b in clusters[c];
      assert Filed(ids, rep, roots[c], clusters[c]);
      ClassMembers(ids, rep, roots[c]);
    }
    if rep[a] == rep[b] {
      var i :| 0 <= i < |ids| && ids[i] == a;
      assert rep[ids[i]] in roots;
      var c :| 0 <= c < |roots| && roots[c] == rep[a];
      assert Filed(ids, rep, roots[c], clusters[c]);
      ClassMembers(ids, rep, roots[c]);
    }
  }

  /** At the start every id is alone and nothing is matched. */
  lemma AgreesInitially(ids: set<string>)
    ensures Agrees(map x | x in ids :: x, [])
  {
    var rep := map x | x in ids :: x;
    forall a, b ensures LinkedIfSame(rep, [], a, b) { LinkedReflexive([], a); }
  }

  ghost predicate HasNodes(records: seq<Record>, nodes: set<string>) {
    forall k :: 0 <= k < |records| ==> records[k].id in nodes
  }

  /** The body of the double loop: joins the ids of one pair when it scores. */
  method MatchPair(norm: Normaliser, l: Record, r: Record, threshold: real, forest: Forest, matches: seq<Match>)
    returns (more: seq<Match>)
    requires forest.Valid() && l.id in forest.rep && r.id in forest.rep && Agrees(forest.rep, matches)
    modifies forest
    ensures forest.Valid() && forest.rep.Keys == old(forest.rep.Keys) && Agrees(forest.rep, more)
    ensures more == matches + Hit(ScorerOf(norm), l, r, threshold)
  {
    more := matches;
    var score := Similarity(norm, l, r);
    if score >= threshold {
      ghost var before := forest.rep;
      forest.Union(l.id, r.id);
      AgreesAfterUnion(before, forest.rep, matches, Match(l.id, r.id, score));
      more := matches + [Match(l.id, r.id, score)];
    }
  }

  /** The row grows by the pair just scored. */
  lemma RowStep(score: Scorer, rs: seq<Record>, t: real, i: nat, j: nat, matches: seq<Match>, more: seq<Match>)
    requires i < j < |rs| && more == matches + Row(score, rs, t, i, j)
    ensures more + Hit(score, rs[i], rs[j], t) == matches + Row(score, rs, t, i, j + 1)
  {
    assert Row(score, rs, t, i, j + 1) == Row(score, rs, t, i, j) + Hit(score, rs[i], rs[j], t);
  }

  /** The inner loop: pairs one record with every later one. */
  method MatchRow(norm: Normaliser, records: seq<Record>, threshold: real, i: nat, forest: Forest, matches: seq<Match>)
    returns (more: seq<Match>)
    requires i < |records|
    requires forest.Valid() && HasNodes(records, forest.rep.Keys) && Agrees(forest.rep, matches)
    modifies forest
    ensures forest.Valid() && forest.rep.Keys == old(forest.rep.Keys) && Agrees(forest.rep, more)
    ensures more == matches + Row(ScorerOf(norm), records, threshold, i, |records|)
  {
    more := matches;
    ghost var nodes, score := forest.rep.Keys, ScorerOf(norm);
    for j := i + 1 to |records|
      invariant forest.Valid() && forest.rep.Keys == nodes && HasNodes(records, nodes) && Agrees(forest.rep, more)
      invariant more == matches + Row(score, records, threshold, i, j)
    {
      assert records[i].id in nodes && records[j].id in nodes;
      RowStep(score, records, threshold, i, j, matches, more);
      more := MatchPair(norm, records[i], records[j], threshold, forest, more);
    }
  }

  /** The double loop over all pairs: joins the ids of every pair that scores. */
  method MatchAll(norm: Normaliser, records: seq<Record>, threshold: real, forest: Forest) returns (matches: seq<Match>)
    requires forest.Valid() && HasNodes(records, forest.rep.Keys) && Agrees(forest.rep, [])
    modifies forest
    ensures forest.Valid() && forest.rep.Keys == old(forest.rep.Keys) && Agrees(forest.rep, matches)
    ensures matches == AllMatches(ScorerOf(norm), records, threshold)
  {
    matches := [];
    ghost var nodes, score := forest.rep.Keys, ScorerOf(norm);
    for i := 0 to |records|
      invariant forest.Valid() && forest.rep.Keys == nodes && Agrees(forest.rep, matches)
      invariant matches == Rows(score, records, threshold, i)
    {
      matches := MatchRow(norm, records, threshold, i, forest, matches);
    }
  }

  /**
    The whole request. The matches are all scoring pairs in loop order; the clusters list every
    record exactly once; two ids share a cluster exactly when a chain of matches links them; and
    each cluster keeps record order and comes in order of first sight.
   */
  method Resolve(norm: Normaliser, records: seq<Record>, threshold: real)
    returns (matches: seq<Match>, clusters: seq<seq<string>>)
    ensures matches == AllMatches(ScorerOf(norm), records, threshold)
    ensures multiset(Flatten(clusters)) == multiset(Ids(records))
    ensures forall a, b :: a in Ids(records) && b in Ids(records) ==>
      (Together(clusters, a, b) <==> Linked(matches, a, b))
    ensures Classes(Ids(records), matches, clusters) && InOrderOfSight(Ids(records), clusters)
  {
    var ids := Ids(records);
    var nodes := set x | x in ids;
    var forest := new Forest(nodes);
    AgreesInitially(nodes);
    assert HasNodes(records, nodes) by {
      assert forall k :: 0 <= k < |records| ==> ids[k] == records[k].id;
    }
    matches := MatchAll(norm, records, threshold, forest);
    ghost var rep := forest.rep;
    var roots: seq<string>;
    ghost var firsts: seq<nat>;
    clusters, roots, firsts := Gather(forest, ids);
    GatheredClasses(ids, rep, matches, roots, clusters, firsts);
    forall a, b | a in ids && b in ids ensures Together(clusters, a, b) <==> Linked(matches, a, b) {
      GatheredTogether(ids, rep, matches, roots, clusters, a, b);
    }
  }
}
