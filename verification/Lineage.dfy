/** The typed lineage DAG: two adjacency indexes kept in step, breadth-first checks, and the
    validation of untrusted snapshots. */
module Lineage {
  import opened Fabric

  datatype EdgeKind = DerivesFrom | DependsOn | Supersedes | Duplicates

  datatype Edge = Edge(parent: ObjectId, child: ObjectId, kind: EdgeKind)

  type Index = map<ObjectId, seq<Edge>>

  // ------------------------------------------------------------------
  // Paths
  // ------------------------------------------------------------------

  ghost predicate Hop(edges: set<Edge>, u: ObjectId, v: ObjectId) {
    exists e :: e in edges && e.parent == u && e.child == v
  }

  ghost predicate IsPath(edges: set<Edge>, p: seq<ObjectId>) {
    |p| > 0 && forall i :: 0 <= i < |p| - 1 ==> Hop(edges, p[i], p[i + 1])
  }

  ghost predicate Joins(edges: set<Edge>, p: seq<ObjectId>, u: ObjectId, v: ObjectId) {
    IsPath(edges, p) && p[0] == u && p[|p| - 1] == v
  }

  /** A path, possibly of no hop, leads from `u` to `v`. */
  ghost predicate Leads(edges: set<Edge>, u: ObjectId, v: ObjectId) {
    exists p :: Joins(edges, p, u, v)
  }

  /** A path of at least one hop leads from `u` to `v`. */
  ghost predicate LeadsOn(edges: set<Edge>, u: ObjectId, v: ObjectId) {
    exists p :: Joins(edges, p, u, v) && |p| > 1
  }

  ghost predicate Acyclic(edges: set<Edge>) {
    forall u :: !LeadsOn(edges, u, u)
  }

  /** No hop leaves `nodes`. */
  ghost predicate Closed(edges: set<Edge>, nodes: set<ObjectId>) {
    forall e <- edges :: e.parent in nodes ==> e.child in nodes
  }

  lemma LeadsSelf(edges: set<Edge>, u: ObjectId)
    ensures Leads(edges, u, u)
  {
    assert Joins(edges, [u], u, u);
  }

  lemma LeadsHop(edges: set<Edge>, u: ObjectId, e: Edge)
    requires Leads(edges, u, e.parent) && e in edges
    ensures LeadsOn(edges, u, e.child) && Leads(edges, u, e.child)
  {
    var p :| Joins(edges, p, u, e.parent);
    assert Joins(edges, p + [e.child], u, e.child);
  }

  lemma LeadsJoin(edges: set<Edge>, u: ObjectId, v: ObjectId, w: ObjectId)
    requires Leads(edges, u, v) && Leads(edges, v, w)
    ensures Leads(edges, u, w)
    ensures LeadsOn(edges, u, v) || LeadsOn(edges, v, w) ==> LeadsOn(edges, u, w)
  {
    var p :| Joins(edges, p, u, v) && (LeadsOn(edges, u, v) ==> |p| > 1);
    var q :| Joins(edges, q, v, w) && (LeadsOn(edges, v, w) ==> |q| > 1);
    PathJoin(edges, p, q);
    assert Joins(edges, p + q[1..], u, w);
  }

  lemma PathJoin(edges: set<Edge>, p: seq<ObjectId>, q: seq<ObjectId>)
    requires IsPath(edges, p) && IsPath(edges, q) && p[|p| - 1] == q[0]
    ensures IsPath(edges, p + q[1..])
  {
    var r := p + q[1..];
    forall i | 0 <= i < |r| - 1 ensures Hop(edges, r[i], r[i + 1]) {
      if i < |p| - 1 {
        assert Hop(edges, p[i], p[i + 1]);
      } else {
        assert r[i] == q[i - |p| + 1] && r[i + 1] == q[i - |p| + 2];
        assert Hop(edges, q[i - |p| + 1], q[i - |p| + 2]);
      }
    }
  }

  /** A path that starts in a closed set stays in it. */
  lemma {:induction false} ClosedPath(edges: set<Edge>, nodes: set<ObjectId>, p: seq<ObjectId>, i: nat)
    requires Closed(edges, nodes) && IsPath(edges, p) && p[0] in nodes && i < |p|
    ensures p[i] in nodes
  {
    if i > 0 {
      ClosedPath(edges, nodes, p, i - 1);
      assert Hop(edges, p[i - 1], p[i - 1 + 1]);
    }
  }

  lemma ClosedLeads(edges: set<Edge>, nodes: set<ObjectId>, u: ObjectId, v: ObjectId)
    requires Closed(edges, nodes) && u in nodes && Leads(edges, u, v)
    ensures v in nodes
  {
    var p :| Joins(edges, p, u, v);
    ClosedPath(edges, nodes, p, |p| - 1);
  }

  // ------------------------------------------------------------------
  // Adding an edge
  // ------------------------------------------------------------------

  lemma LeadsMono(small: set<Edge>, large: set<Edge>, u: ObjectId, v: ObjectId)
    requires small <= large
    ensures Leads(small, u, v) ==> Leads(large, u, v)
    ensures LeadsOn(small, u, v) ==> LeadsOn(large, u, v)
  {
    if p :| Joins(small, p, u, v) && (LeadsOn(small, u, v) ==> |p| > 1) {
      forall i | 0 <= i < |p| - 1 ensures Hop(large, p[i], p[i + 1]) { assert Hop(small, p[i], p[i + 1]); }
      assert Joins(large, p, u, v);
    }
  }

  /** A path that uses the new edge goes through the old graph to its parent and, after its last
      use, from its child through the old graph. */
  lemma {:induction false} SplitAtNew(edges: set<Edge>, e: Edge, p: seq<ObjectId>)
    requires IsPath(edges + {e}, p)
    ensures Leads(edges, p[0], p[|p| - 1]) || (Leads(edges, p[0], e.parent) && Leads(edges, e.child, p[|p| - 1]))
    ensures |p| > 1 ==> LeadsOn(edges, p[0], p[|p| - 1]) || (Leads(edges, p[0], e.parent) && Leads(edges, e.child, p[|p| - 1]))
    decreases |p|
  {
    if |p| == 1 {
      LeadsSelf(edges, p[0]);
    } else {
      var q := p[..|p| - 1];
      forall i | 0 <= i < |q| - 1 ensures Hop(edges + {e}, q[i], q[i + 1]) { assert Hop(edges + {e}, p[i], p[i + 1]); }
      SplitAtNew(edges, e, q);
      var i := |p| - 2;
      assert Hop(edges + {e}, p[i], p[i + 1]);
      var f :| f in edges + {e} && f.parent == p[i] && f.child == p[i + 1];
      if f in edges {
        if Leads(edges, p[0], q[|q| - 1]) {
          LeadsHop(edges, p[0], f);
        } else {
          LeadsHop(edges, e.child, f);
        }
      } else {
        LeadsSelf(edges, e.child);
      }
    }
  }

  /** The check of `add_edge`: a new edge closes a cycle exactly when its child leads to its parent. */
  lemma NewEdgeAcyclic(edges: set<Edge>, e: Edge)
    requires Acyclic(edges)
    ensures Acyclic(edges + {e}) <==> !Leads(edges, e.child, e.parent)
  {
    if Leads(edges, e.child, e.parent) {
      LeadsMono(edges, edges + {e}, e.child, e.parent);
      LeadsHop(edges + {e}, e.child, e);
    } else if !Acyclic(edges + {e}) {
      var u :| LeadsOn(edges + {e}, u, u);
      var p :| Joins(edges + {e}, p, u, u) && |p| > 1;
      SplitAtNew(edges, e, p);
      LeadsJoin(edges, e.child, u, e.parent);
    }
  }

  lemma SubgraphAcyclic(small: set<Edge>, large: set<Edge>)
    requires small <= large && Acyclic(large)
    ensures Acyclic(small)
  {
    forall u ensures !LeadsOn(small, u, u) { LeadsMono(small, large, u, u); }
  }

  // ------------------------------------------------------------------
  // Acyclicity by ranks, cycles by pigeonhole
  // ------------------------------------------------------------------

  /** Every hop goes from an earlier to a later position of `order`. */
  ghost predicate Topological(edges: set<Edge>, order: seq<ObjectId>) {
    forall e <- edges :: exists i, k :: 0 <= i < k < |order| && order[i] == e.parent && order[k] == e.child
  }

  ghost predicate Distinct<T>(s: seq<T>) {
    forall i, k :: 0 <= i < k < |s| ==> s[i] != s[k]
  }

  lemma {:induction false} RankGrows(edges: set<Edge>, order: seq<ObjectId>, p: seq<ObjectId>) returns (i: nat, k: nat)
    requires Topological(edges, order) && Distinct(order) && IsPath(edges, p) && |p| > 1
    ensures i < k < |order| && order[i] == p[0] && order[k] == p[|p| - 1]
    decreases |p|
  {
    var n := |p| - 2;
    assert Hop(edges, p[n], p[n + 1]);
    var e :| e in edges && e.parent == p[n] && e.child == p[n + 1];
    var x, y :| 0 <= x < y < |order| && order[x] == e.parent && order[y] == e.child;
    if |p| == 2 {
      i, k := x, y;
    } else {
      var q := p[..|p| - 1];
      forall i | 0 <= i < |q| - 1 ensures Hop(edges, q[i], q[i + 1]) { assert Hop(edges, p[i], p[i + 1]); }
      i, k := RankGrows(edges, order, q);
      k := y;
    }
  }

  lemma TopologicalAcyclic(edges: set<Edge>, order: seq<ObjectId>)
    requires Topological(edges, order) && Distinct(order)
    ensures Acyclic(edges)
  {
    if u :| LeadsOn(edges, u, u) {
      var p :| Joins(edges, p, u, u) && |p| > 1;
      var i, k := RankGrows(edges, order, p);
    }
  }

  lemma {:induction false} DistinctFits<T>(s: seq<T>, all: set<T>)
    requires Distinct(s) && forall x <- s :: x in all
    ensures |s| <= |all|
  {
    if s != [] {
      var n := |s| - 1;
      assert s[n] in all;
      forall x <- s[..n] ensures x in all - {s[n]} {}
      DistinctFits(s[..n], all - {s[n]});
    }
  }

  ghost predicate HasPredecessor(edges: set<Edge>, nodes: set<ObjectId>, v: ObjectId) {
    exists e :: e in edges && e.child == v && e.parent in nodes
  }

  /** Walking backwards inside a set in which everyone has a predecessor. */
  lemma {:induction false} WalkBack(edges: set<Edge>, stuck: set<ObjectId>, n: nat) returns (p: seq<ObjectId>)
    requires stuck != {} && forall v <- stuck :: HasPredecessor(edges, stuck, v)
    ensures |p| == n + 1 && IsPath(edges, p) && forall x <- p :: x in stuck
  {
    if n == 0 {
      var v :| v in stuck;
      p := [v];
    } else {
      var q := WalkBack(edges, stuck, n - 1);
      assert HasPredecessor(edges, stuck, q[0]);
      var e :| e in edges && e.child == q[0] && e.parent in stuck;
      p := [e.parent] + q;
      forall i | 0 <= i < |p| - 1 ensures Hop(edges, p[i], p[i + 1]) {
        if i > 0 { assert p[i] == q[i - 1] && p[i + 1] == q[i - 1 + 1]; assert Hop(edges, q[i - 1], q[i - 1 + 1]); }
      }
    }
  }

  /** A finite nonempty set of nodes each with a predecessor in the set contains a cycle. */
  lemma StuckCycle(edges: set<Edge>, stuck: set<ObjectId>)
    requires stuck != {} && forall v <- stuck :: HasPredecessor(edges, stuck, v)
    ensures !Acyclic(edges)
  {
    var p := WalkBack(edges, stuck, |stuck|);
    if Distinct(p) { DistinctFits(p, stuck); }
    var i, k :| 0 <= i < k < |p| && p[i] == p[k];
    var q := p[i..k + 1];
    forall n | 0 <= n < |q| - 1 ensures Hop(edges, q[n], q[n + 1]) { assert Hop(edges, p[i + n], p[i + n + 1]); }
    assert Joins(edges, q, p[i], p[i]) && |q| > 1;
    assert LeadsOn(edges, p[i], p[i]);
  }

  // ------------------------------------------------------------------
  // Indexes
  // ------------------------------------------------------------------

  function EdgesOf(index: Index): (edges: set<Edge>) {
    set k, i | k in index && 0 <= i < |index[k]| :: index[k][i]
  }

  function Row(index: Index, k: ObjectId): (row: seq<Edge>) {
    if k in index then index[k] else []
  }

  function End(e: Edge, byParent: bool): (id: ObjectId) {
    if byParent then e.parent else e.child
  }

  /** Every edge is filed under its own end, once. */
  ghost predicate Filed(index: Index, byParent: bool) {
    && (forall k, i :: k in index && 0 <= i < |index[k]| ==> End(index[k][i], byParent) == k)
    && (forall k <- index :: Distinct(index[k]))
  }

  /** The ids a snapshot mentions without registering them. */
  function Orphans(parents: Index, children: Index, ids: set<ObjectId>): (strays: set<ObjectId>) {
    parents.Keys + children.Keys
    + (set e | e in EdgesOf(parents) :: e.child)
    + (set e | e in EdgesOf(children) :: e.parent)
    - ids
  }

  ghost predicate Sane(parents: Index, children: Index, ids: set<ObjectId>) {
    && Orphans(parents, children, ids) == {}
    && Filed(parents, true) && Filed(children, false)
    && EdgesOf(parents) == EdgesOf(children)
  }

  /** Pushing an edge onto its row. */
  lemma PushFiled(index: Index, e: Edge, byParent: bool)
    requires Filed(index, byParent) && e !in EdgesOf(index)
    ensures var k := End(e, byParent); var next := index[k := Row(index, k) + [e]];
            Filed(next, byParent) && EdgesOf(next) == EdgesOf(index) + {e}
  {
    var k := End(e, byParent);
    var next := index[k := Row(index, k) + [e]];
    forall f ensures f in EdgesOf(next) <==> f in EdgesOf(index) + {e} {
      if f in EdgesOf(index) {
        var q, i :| q in index && 0 <= i < |index[q]| && index[q][i] == f;
        assert next[q][i] == f;
      }
      if f == e { assert next[k][|next[k]| - 1] == e; }
      if f in EdgesOf(next) {
        var q, i :| q in next && 0 <= i < |next[q]| && next[q][i] == f;
        if q == k && i == |next[k]| - 1 { assert f == e; } else { assert q in index && index[q][i] == f; }
      }
    }
    assert Distinct(next[k]) by {
      forall i, n | 0 <= i < n < |next[k]| ensures next[k][i] != next[k][n] {
        if n == |next[k]| - 1 { assert k in index && next[k][i] == index[k][i] && index[k][i] in EdgesOf(index); }
      }
    }
  }

  /** The row without one edge, in order. */
  function Without(row: seq<Edge>, e: Edge): (rest: seq<Edge>)
    ensures forall f :: f in rest <==> f in row && f != e
    ensures Distinct(row) ==> Distinct(rest)
  {
    if row == [] then []
    else
      var front, last := row[..|row| - 1], row[|row| - 1];
      var rest := Without(front, e);
      assert forall f :: f in row <==> f in front || f == last;
      assert Distinct(row) ==> Distinct(front) && last !in front;
      if last == e then rest else rest + [last]
  }

  lemma WithoutFiled(index: Index, e: Edge, byParent: bool)
    requires Filed(index, byParent) && End(e, byParent) in index
    ensures var k := End(e, byParent); var next := index[k := Without(index[k], e)];
            Filed(next, byParent) && EdgesOf(next) == EdgesOf(index) - {e}
  {
    var k := End(e, byParent);
    var next := index[k := Without(index[k], e)];
    forall q, i | q in next && 0 <= i < |next[q]| ensures End(next[q][i], byParent) == q && next[q][i] != e && next[q][i] in EdgesOf(index) {
      if q == k {
        assert next[k][i] in next[k];
        var n :| 0 <= n < |index[k]| && index[k][n] == next[k][i];
      } else {
        assert index[q][i] in EdgesOf(index);
      }
    }
    forall f | f in EdgesOf(index) - {e} ensures f in EdgesOf(next) {
      var q, i :| q in index && 0 <= i < |index[q]| && index[q][i] == f;
      if q == k {
        assert f in index[k] && f in next[k];
        var n :| 0 <= n < |next[k]| && next[k][n] == f;
      } else {
        assert next[q][i] == f;
      }
    }
  }

  lemma WithoutAbsent(index: Index, e: Edge, byParent: bool)
    requires Filed(index, byParent) && End(e, byParent) !in index
    ensures EdgesOf(index) - {e} == EdgesOf(index)
  {
  }

  ghost function Collected(index: Index, todo: set<ObjectId>): (edges: set<Edge>) {
    set k, i | k in index && k !in todo && 0 <= i < |index[k]| :: index[k][i]
  }

  ghost function Members<T>(s: seq<T>): (all: set<T>) {
    set x | x in s
  }

  lemma CollectedRow(index: Index, todo: set<ObjectId>, k: ObjectId)
    requires k in index && k in todo
    ensures Collected(index, todo - {k}) == Collected(index, todo) + Members(index[k])
  {
    forall e | e in Collected(index, todo) + Members(index[k]) ensures e in Collected(index, todo - {k}) {
      if e in index[k] {
        var i :| 0 <= i < |index[k]| && index[k][i] == e;
      }
    }
  }

  ghost predicate FiledRow(row: seq<Edge>, k: ObjectId, byParent: bool) {
    forall e <- row :: End(e, byParent) == k
  }

  ghost predicate FiledSoFar(index: Index, todo: set<ObjectId>, byParent: bool) {
    forall k <- index :: k !in todo ==> FiledRow(index[k], k, byParent)
  }

  ghost predicate DistinctSoFar(index: Index, todo: set<ObjectId>) {
    forall k <- index :: k !in todo ==> Distinct(index[k])
  }

  lemma FiledRows(index: Index, byParent: bool)
    ensures Filed(index, byParent) <==> FiledSoFar(index, {}, byParent) && DistinctSoFar(index, {})
    ensures Collected(index, {}) == EdgesOf(index)
  {
    if FiledSoFar(index, {}, byParent) {
      forall k, i | k in index && 0 <= i < |index[k]| ensures End(index[k][i], byParent) == k { assert index[k][i] in index[k]; }
    }
  }

  lemma DistinctSnoc(s: seq<Edge>, e: Edge)
    ensures Distinct(s + [e]) <==> Distinct(s) && e !in s
    ensures Members(s + [e]) == Members(s) + {e}
  {
    var t := s + [e];
    if Distinct(t) {
      forall i | 0 <= i < |s| ensures s[i] != e { assert t[i] != t[|s|]; }
      forall i, k | 0 <= i < k < |s| ensures s[i] != s[k] { assert t[i] != t[k]; }
    }
  }

  /** Collects one row of an index; the set stays smaller than the count exactly when an edge
      repeats. */
  method CollectRow(row: seq<Edge>, k: ObjectId, byParent: bool, found: set<Edge>, count: nat) returns (res: Result<set<Edge>>, n: nat)
    requires |found| <= count
    ensures res.Ok? <==> FiledRow(row, k, byParent)
    ensures res.Ok? ==> res.value == found + Members(row) && |res.value| <= n
    ensures res.Ok? ==> (|res.value| == n <==> |found| == count && Distinct(row) && Members(row) !! found)
  {
    var all := found;
    n := count;
    var i := 0;
    while i < |row|
      invariant 0 <= i <= |row|
      invariant FiledRow(row[..i], k, byParent)
      invariant all == found + Members(row[..i]) && |all| <= n
      invariant |all| == n <==> |found| == count && Distinct(row[..i]) && Members(row[..i]) !! found
    {
      var e := row[i];
      n := n + 1;
      if End(e, byParent) != k {
        assert e in row;
        return Err(RecoveryFailure), n;
      }
      DistinctSnoc(row[..i], e);
      assert row[..i + 1] == row[..i] + [e];
      all := all + {e};
      i := i + 1;
    }
    assert row[..i] == row;
    return Ok(all), n;
  }

  /** Rows filed under other keys share no edge with this row. */
  lemma RepeatIsLocal(index: Index, todo: set<ObjectId>, k: ObjectId, byParent: bool)
    requires k in index && k in todo && FiledRow(index[k], k, byParent) && FiledSoFar(index, todo, byParent)
    ensures Members(index[k]) !! Collected(index, todo)
  {
    forall e <- Members(index[k]) ensures e !in Collected(index, todo) {}
  }

  /** Collects one index, refusing misfiled and repeated edges. */
  method Collect(index: Index, byParent: bool) returns (res: Result<set<Edge>>)
    ensures res.Ok? <==> Filed(index, byParent)
    ensures res.Ok? ==> res.value == EdgesOf(index)
  {
    FiledRows(index, byParent);
    var found: set<Edge> := {};
    var count := 0;
    var todo := index.Keys;
    while todo != {}
      invariant todo <= index.Keys
      invariant FiledSoFar(index, todo, byParent)
      invariant found == Collected(index, todo)
      invariant |found| <= count
      invariant |found| == count <==> DistinctSoFar(index, todo)
      decreases todo
    {
      var k :| k in todo;
      var row, n := CollectRow(index[k], k, byParent, found, count);
      if row.Err? { return row; }
      RepeatIsLocal(index, todo, k, byParent);
      CollectedRow(index, todo, k);
      found, count := row.value, n;
      todo := todo - {k};
    }
    if |found| != count { return Err(RecoveryFailure); }
    return Ok(found);
  }

  // ------------------------------------------------------------------
  // Kahn's algorithm
  // ------------------------------------------------------------------

  /** The edges into `v` that have not been worked off. */
  function Into(edges: set<Edge>, v: ObjectId): (some: set<Edge>) {
    set e | e in edges && e.child == v
  }

  /** Indegrees count the edges that are left. */
  ghost predicate Counts(indegree: map<ObjectId, nat>, ids: set<ObjectId>, left: set<Edge>) {
    indegree.Keys == ids && forall v <- ids :: indegree[v] == |Into(left, v)|
  }

  lemma IntoAdd(edges: set<Edge>, e: Edge, v: ObjectId)
    requires e !in edges
    ensures |Into(edges + {e}, v)| == |Into(edges, v)| + (if e.child == v then 1 else 0)
  {
    assert Into(edges + {e}, v) == Into(edges, v) + (if e.child == v then {e} else {});
  }

  lemma CountsAdd(indegree: map<ObjectId, nat>, ids: set<ObjectId>, left: set<Edge>, e: Edge)
    requires Counts(indegree, ids, left) && e !in left && e.child in ids
    ensures Counts(indegree[e.child := indegree[e.child] + 1], ids, left + {e})
  {
    forall v <- ids ensures indegree[e.child := indegree[e.child] + 1][v] == |Into(left + {e}, v)| { IntoAdd(left, e, v); }
  }

  lemma CountsRemove(indegree: map<ObjectId, nat>, ids: set<ObjectId>, left: set<Edge>, e: Edge)
    requires Counts(indegree, ids, left) && e in left && e.child in ids
    ensures indegree[e.child] > 0 && Counts(indegree[e.child := indegree[e.child] - 1], ids, left - {e})
  {
    assert left == left - {e} + {e};
    IntoAdd(left - {e}, e, e.child);
    forall v <- ids ensures |Into(left, v)| == |Into(left - {e}, v)| + (if e.child == v then 1 else 0) { IntoAdd(left - {e}, e, v); }
  }

  /** Counts the edges of one row. */
  method CountRow(row: seq<Edge>, indegree: map<ObjectId, nat>, ids: set<ObjectId>, ghost before: set<Edge>) returns (after: map<ObjectId, nat>)
    requires Counts(indegree, ids, before) && Distinct(row) && Members(row) !! before
    requires forall e <- row :: e.child in ids
    ensures Counts(after, ids, before + Members(row))
  {
    after := indegree;
    var i := 0;
    assert before + Members(row[..0]) == before;
    while i < |row|
      invariant 0 <= i <= |row|
      invariant Counts(after, ids, before + Members(row[..i]))
    {
      var e := row[i];
      assert row[..i + 1] == row[..i] + [e];
      DistinctPrefix(row, i);
      assert e in row && e !in before;
      CountsAdd(after, ids, before + Members(row[..i]), e);
      assert before + Members(row[..i]) + {e} == before + Members(row[..i + 1]);
      after := after[e.child := after[e.child] + 1];
      i := i + 1;
    }
    assert row[..i] == row;
  }

  lemma DistinctPrefix(row: seq<Edge>, i: nat)
    requires Distinct(row) && i < |row|
    ensures row[i] !in row[..i] && Members(row[..i + 1]) == Members(row[..i]) + {row[i]}
  {
    assert row[..i + 1] == row[..i] + [row[i]];
  }

  lemma ZeroCounts(ids: set<ObjectId>)
    ensures Counts(map v | v in ids :: 0, ids, {})
  {
    forall v <- ids ensures |Into({}, v)| == 0 { assert Into({}, v) == {}; }
  }

  ghost predicate ChildrenIn(index: Index, ids: set<ObjectId>) {
    forall e <- EdgesOf(index) :: e.child in ids
  }

  method Indegrees(index: Index, ids: set<ObjectId>) returns (indegree: map<ObjectId, nat>)
    requires Filed(index, true) && ChildrenIn(index, ids)
    ensures Counts(indegree, ids, EdgesOf(index))
  {
    FiledRows(index, true);
    indegree := map v | v in ids :: 0;
    ZeroCounts(ids);
    var todo := index.Keys;
    assert Collected(index, todo) == {};
    while todo != {}
      invariant todo <= index.Keys
      invariant Counts(indegree, ids, Collected(index, todo))
      decreases todo
    {
      var k :| k in todo;
      RowOfIndex(index, ids, todo, k);
      indegree := CountRow(index[k], indegree, ids, Collected(index, todo));
      CollectedRow(index, todo, k);
      todo := todo - {k};
    }
  }

  lemma RowOfIndex(index: Index, ids: set<ObjectId>, todo: set<ObjectId>, k: ObjectId)
    requires Filed(index, true) && ChildrenIn(index, ids) && k in index && k in todo
    ensures Distinct(index[k]) && Members(index[k]) !! Collected(index, todo)
    ensures forall e <- index[k] :: e.parent == k && e.child in ids && e in EdgesOf(index)
  {
    FiledRows(index, true);
    RepeatIsLocal(index, todo, k, true);
    forall e <- index[k] ensures e in EdgesOf(index) && e.parent == k {
      var i :| 0 <= i < |index[k]| && index[k][i] == e;
    }
  }

  /** What the queue of a topological sort keeps: everything sorted or queued has all its
      predecessors sorted before it, and nothing else is free. */
  ghost predicate Sorting(edges: set<Edge>, ids: set<ObjectId>, left: set<Edge>, order: seq<ObjectId>, queue: seq<ObjectId>) {
    var all := order + queue;
    && Distinct(all)
    && left <= edges
    && (forall v <- all :: v in ids && Into(left, v) == {})
    && (forall v <- ids :: Into(left, v) == {} ==> v in all)
    && (forall e <- edges :: e !in left ==> e.parent in order)
    && (forall e <- edges, k :: 0 <= k < |all| && all[k] == e.child ==> exists i :: 0 <= i < k && i < |order| && all[i] == e.parent)
  }

  /** Working off one edge of the node sorted last, queueing its child when that was the last
      edge into it. */
  lemma SortingStep(edges: set<Edge>, ids: set<ObjectId>, left: set<Edge>, order: seq<ObjectId>, queue: seq<ObjectId>, e: Edge)
    requires Sorting(edges, ids, left, order, queue) && e in left && e.parent in order && e.child in ids
    ensures Sorting(edges, ids, left - {e}, order, if Into(left - {e}, e.child) == {} then queue + [e.child] else queue)
  {
    var c := e.child;
    var after := left - {e};
    assert e in Into(left, c);
    forall v | v != c ensures Into(after, v) == Into(left, v) {}
    if Into(after, c) == {} {
      assert c !in order + queue;
      var all := order + (queue + [c]);
      assert all == (order + queue) + [c];
      forall f, k | f in edges && 0 <= k < |all| && all[k] == f.child
        ensures exists i :: 0 <= i < k && i < |order| && all[i] == f.parent
      {
        if k < |all| - 1 {
          assert (order + queue)[k] == f.child;
          var i :| 0 <= i < k && i < |order| && (order + queue)[i] == f.parent;
          assert all[i] == f.parent;
        } else {
          assert f !in after;
          assert f.parent in order;
          var i :| 0 <= i < |order| && order[i] == f.parent;
          assert all[i] == f.parent;
        }
      }
    }
  }

  /** Sorting the node at the head of the queue. */
  lemma SortingPop(edges: set<Edge>, ids: set<ObjectId>, left: set<Edge>, order: seq<ObjectId>, queue: seq<ObjectId>)
    requires Sorting(edges, ids, left, order, queue) && queue != []
    ensures Sorting(edges, ids, left, order + [queue[0]], queue[1..])
  {
    assert order + [queue[0]] + queue[1..] == order + queue;
  }

  /** A finished sort has reached every node exactly when there is no cycle. */
  lemma SortingDone(edges: set<Edge>, ids: set<ObjectId>, left: set<Edge>, order: seq<ObjectId>)
    requires Sorting(edges, ids, left, order, [])
    requires forall e <- edges :: e.parent in ids && e.child in ids
    requires forall e <- left :: e.parent !in order
    ensures |order| <= |ids|
    ensures |order| == |ids| <==> Acyclic(edges)
  {
    assert order + [] == order;
    DistinctFits(order, ids);
    DistinctMembers(order);
    var stuck := ids - Members(order);
    if stuck == {} {
      assert Members(order) == ids by {
        forall v <- ids ensures v in order { assert v in stuck || v in order; }
        forall v <- order ensures v in ids { assert v in order + []; }
      }
      forall e <- edges ensures exists i, k :: 0 <= i < k < |order| && order[i] == e.parent && order[k] == e.child {
        assert e.child in Members(order);
        var k :| 0 <= k < |order| && order[k] == e.child;
        var i :| 0 <= i < k && i < |order| && order[i] == e.parent;
      }
      TopologicalAcyclic(edges, order);
    } else {
      assert Members(order) + stuck == ids;
      forall v <- stuck ensures HasPredecessor(edges, stuck, v) {
        var e :| e in Into(left, v);
        assert e in edges && e.child == v && e.parent in stuck;
      }
      StuckCycle(edges, stuck);
    }
  }

  lemma {:induction false} DistinctMembers<T>(s: seq<T>)
    requires Distinct(s)
    ensures |Members(s)| == |s|
  {
    if s != [] {
      var n := |s| - 1;
      DistinctMembers(s[..n]);
      assert Members(s) == Members(s[..n]) + {s[n]};
      assert s[n] !in s[..n];
    }
  }

  lemma WorkStep(row: seq<Edge>, i: nat, left: set<Edge>)
    requires Distinct(row) && Members(row) <= left && i < |row|
    ensures row[i] in row && row[i] in left - Members(row[..i])
    ensures left - Members(row[..i]) - {row[i]} == left - Members(row[..i + 1])
  {
    DistinctPrefix(row, i);
    assert row[i] in Members(row);
  }

  lemma WorkEdge(row: seq<Edge>, i: nat, indegree: map<ObjectId, nat>, queue: seq<ObjectId>, ids: set<ObjectId>, edges: set<Edge>,
                 left: set<Edge>, order: seq<ObjectId>)
    requires Distinct(row) && Members(row) <= left && i < |row| && row[i].parent in order && row[i].child in ids
    requires Counts(indegree, ids, left - Members(row[..i]))
    requires Sorting(edges, ids, left - Members(row[..i]), order, queue)
    ensures var c := row[i].child;
            && c in indegree && indegree[c] > 0
            && Counts(indegree[c := indegree[c] - 1], ids, left - Members(row[..i + 1]))
            && Sorting(edges, ids, left - Members(row[..i + 1]), order, if indegree[c] == 1 then queue + [c] else queue)
  {
    var e := row[i];
    var now := left - Members(row[..i]);
    WorkStep(row, i, left);
    CountsRemove(indegree, ids, now, e);
    SortingStep(edges, ids, now, order, queue, e);
    assert indegree[e.child] == 1 <==> Into(now - {e}, e.child) == {};
  }

  /** Works off the outgoing edges of the node sorted last. */
  method WorkOff(row: seq<Edge>, indegree: map<ObjectId, nat>, queue: seq<ObjectId>, ids: set<ObjectId>, ghost edges: set<Edge>,
                 ghost left: set<Edge>, ghost order: seq<ObjectId>)
    returns (after: map<ObjectId, nat>, rest: seq<ObjectId>)
    requires Counts(indegree, ids, left) && Sorting(edges, ids, left, order, queue)
    requires Distinct(row) && Members(row) <= left
    requires forall e <- row :: e.parent in order && e.child in ids
    ensures Counts(after, ids, left - Members(row)) && Sorting(edges, ids, left - Members(row), order, rest)
  {
    after, rest := indegree, queue;
    var i := 0;
    assert left - Members(row[..0]) == left;
    while i < |row|
      invariant 0 <= i <= |row|
      invariant Counts(after, ids, left - Members(row[..i]))
      invariant Sorting(edges, ids, left - Members(row[..i]), order, rest)
    {
      var e := row[i];
      WorkEdge(row, i, after, rest, ids, edges, left, order);
      var d := after[e.child] - 1;
      after := after[e.child := d];
      if d == 0 { rest := rest + [e.child]; }
      i := i + 1;
    }
    assert row[..i] == row;
  }

  lemma RowEdges(index: Index, edges: set<Edge>, k: ObjectId)
    requires Filed(index, true) && edges == EdgesOf(index)
    ensures Members(Row(index, k)) == set e | e in edges && e.parent == k
    ensures Distinct(Row(index, k))
  {
    forall e | e in edges && e.parent == k ensures e in Row(index, k) {
      var q, i :| q in index && 0 <= i < |index[q]| && index[q][i] == e;
    }
  }

  /** The nodes no edge leads into, in some order. */
  method Roots(indegree: map<ObjectId, nat>, ids: set<ObjectId>, ghost edges: set<Edge>) returns (queue: seq<ObjectId>)
    requires Counts(indegree, ids, edges)
    ensures Distinct(queue) && forall v :: v in queue <==> v in ids && Into(edges, v) == {}
  {
    queue := [];
    var todo := ids;
    while todo != {}
      invariant todo <= ids
      invariant Distinct(queue) && forall v :: v in queue <==> v in ids && v !in todo && Into(edges, v) == {}
      decreases todo
    {
      var v :| v in todo;
      if indegree[v] == 0 { queue := queue + [v]; }
      todo := todo - {v};
    }
  }

  /** Kahn's algorithm on a sane snapshot: it visits every node exactly when there is no cycle. */
  method Sorts(index: Index, ids: set<ObjectId>) returns (all: bool)
    requires Filed(index, true)
    requires forall e <- EdgesOf(index) :: e.parent in ids && e.child in ids
    ensures all <==> Acyclic(EdgesOf(index))
  {
    ghost var edges := EdgesOf(index);
    var indegree := Indegrees(index, ids);
    var queue := Roots(indegree, ids, edges);
    var visited := 0;
    ghost var order: seq<ObjectId> := [];
    ghost var left := edges;
    SortingInit(edges, ids, queue);
    while queue != []
      invariant Counts(indegree, ids, left) && Sorting(edges, ids, left, order, queue)
      invariant Rest(edges, left, order)
      invariant visited == |order| <= |ids|
      decreases |ids| - |order|
    {
      var n := queue[0];
      SortNext(index, edges, ids, left, order, queue);
      queue := queue[1..];
      order := order + [n];
      visited := visited + 1;
      indegree, queue := WorkOff(Row(index, n), indegree, queue, ids, edges, left, order);
      left := left - Members(Row(index, n));
    }
    SortingDone(edges, ids, left, order);
    return visited == |ids|;
  }

  lemma SortingInit(edges: set<Edge>, ids: set<ObjectId>, queue: seq<ObjectId>)
    requires Distinct(queue) && forall v :: v in queue <==> v in ids && Into(edges, v) == {}
    ensures Sorting(edges, ids, edges, [], queue) && Rest(edges, edges, [])
  {
    assert [] + queue == queue;
    forall e <- edges ensures e.child !in queue { assert e in Into(edges, e.child); }
  }

  /** What is left are the edges of the nodes not sorted yet. */
  ghost predicate Rest(edges: set<Edge>, left: set<Edge>, order: seq<ObjectId>) {
    forall e <- edges :: e in left <==> e.parent !in order
  }

  lemma SortNext(index: Index, edges: set<Edge>, ids: set<ObjectId>, left: set<Edge>, order: seq<ObjectId>, queue: seq<ObjectId>)
    requires Filed(index, true) && edges == EdgesOf(index) && queue != []
    requires forall e <- edges :: e.child in ids
    requires Sorting(edges, ids, left, order, queue) && Rest(edges, left, order)
    ensures var n := queue[0]; var row := Row(index, n);
            && Sorting(edges, ids, left, order + [n], queue[1..]) && |order + [n]| <= |ids|
            && Distinct(row) && Members(row) <= left
            && (forall e <- row :: e.parent in order + [n] && e.child in ids)
            && Rest(edges, left - Members(row), order + [n])
  {
    var n := queue[0];
    SortingPop(edges, ids, left, order, queue);
    SortedFits(edges, ids, left, order + [n], queue[1..]);
    RowEdges(index, edges, n);
    NotSorted(order, queue);
    forall e <- Row(index, n) ensures e.parent in order + [n] && e.child in ids && e in left { assert e in Members(Row(index, n)); }
  }

  lemma NotSorted(order: seq<ObjectId>, queue: seq<ObjectId>)
    requires Distinct(order + queue) && queue != []
    ensures queue[0] !in order
  {
    forall i | 0 <= i < |order| ensures order[i] != queue[0] { assert (order + queue)[i] != (order + queue)[|order|]; }
  }

  lemma SortedFits(edges: set<Edge>, ids: set<ObjectId>, left: set<Edge>, order: seq<ObjectId>, queue: seq<ObjectId>)
    requires Sorting(edges, ids, left, order, queue)
    ensures |order| <= |ids|
  {
    DistinctFits(order + queue, ids);
  }

  // ------------------------------------------------------------------
  // Breadth-first search
  // ------------------------------------------------------------------

  /** What a breadth-first search from `start` keeps: everything seen is reachable, and everything
      seen and no longer queued has been expanded. */
  ghost predicate Searching(edges: set<Edge>, start: ObjectId, seen: set<ObjectId>, queue: seq<ObjectId>, done: set<ObjectId>) {
    && start in seen && seen == done + Members(queue)
    && (forall v <- seen :: Leads(edges, start, v))
    && (forall e <- edges :: e.parent in done ==> e.child in seen)
  }

  lemma SearchDone(edges: set<Edge>, start: ObjectId, seen: set<ObjectId>, done: set<ObjectId>, v: ObjectId)
    requires Searching(edges, start, seen, [], done)
    ensures Leads(edges, start, v) <==> v in seen
  {
    if Leads(edges, start, v) { ClosedLeads(edges, seen, start, v); }
  }

  lemma MembersSnoc<T>(s: seq<T>, x: T)
    ensures Members(s + [x]) == Members(s) + {x}
  {
  }

  /** The children of one row that have not been seen before. */
  method Discover(row: seq<Edge>, seen: set<ObjectId>, queue: seq<ObjectId>) returns (after: set<ObjectId>, rest: seq<ObjectId>)
    ensures after == seen + set e | e in row :: e.child
    ensures Members(rest) == Members(queue) + (after - seen)
    ensures after == seen ==> rest == queue
  {
    after, rest := seen, queue;
    var i := 0;
    while i < |row|
      invariant 0 <= i <= |row|
      invariant after == seen + set e | e in row[..i] :: e.child
      invariant Members(rest) == Members(queue) + (after - seen)
      invariant after == seen ==> rest == queue
    {
      assert row[..i + 1] == row[..i] + [row[i]];
      var c := row[i].child;
      if c !in after {
        MembersSnoc(rest, c);
        assert after + {c} - seen == (after - seen) + {c};
        after := after + {c};
        rest := rest + [c];
      }
      i := i + 1;
    }
    assert row[..i] == row;
  }

  lemma SearchStep(index: Index, edges: set<Edge>, start: ObjectId, seen: set<ObjectId>, queue: seq<ObjectId>, done: set<ObjectId>,
                   after: set<ObjectId>, rest: seq<ObjectId>)
    requires Filed(index, true) && edges == EdgesOf(index)
    requires Searching(edges, start, seen, queue, done) && queue != []
    requires after == seen + set e | e in Row(index, queue[0]) :: e.child
    requires Members(rest) == Members(queue[1..]) + (after - seen)
    ensures Searching(edges, start, after, rest, done + {queue[0]})
  {
    var n := queue[0];
    RowEdges(index, edges, n);
    assert queue == [n] + queue[1..];
    assert Members(queue) == {n} + Members(queue[1..]);
    forall e | e in edges && e.parent == n ensures e.child in after { assert e in Members(Row(index, n)); }
    forall v <- after ensures Leads(edges, start, v) {
      if v !in seen {
        var e :| e in Row(index, n) && e.child == v;
        assert e in Members(Row(index, n)) && n in seen;
        LeadsHop(edges, start, e);
      }
    }
  }

  function Reachables(start: ObjectId, edges: set<Edge>): (all: set<ObjectId>) {
    {start} + set e | e in edges :: e.child
  }

  lemma RowReachable(index: Index, start: ObjectId, n: ObjectId)
    requires Filed(index, true)
    ensures (set e | e in Row(index, n) :: e.child) <= Reachables(start, EdgesOf(index))
  {
    RowEdges(index, EdgesOf(index), n);
    forall e <- Row(index, n) ensures e in EdgesOf(index) { assert e in Members(Row(index, n)); }
  }

  // ------------------------------------------------------------------
  // The graph
  // ------------------------------------------------------------------

  lemma NoEdgesAcyclic()
    ensures Acyclic({})
  {
    TopologicalAcyclic({}, []);
  }

  function DependsOnly(edges: set<Edge>): (some: set<Edge>) {
    set e | e in edges && e.kind == DependsOn
  }

  class LineageGraph {
    var parents: Index
    var children: Index
    var objectIds: set<ObjectId>

    function Edges(): (edges: set<Edge>)
      reads this
    {
      EdgesOf(parents)
    }

    ghost predicate Valid()
      reads this
    {
      Sane(parents, children, objectIds) && Acyclic(Edges())
    }

    constructor ()
      ensures Valid() && Edges() == {} && objectIds == {}
    {
      parents, children, objectIds := map[], map[], {};
      new;
      assert Edges() == {};
      NoEdgesAcyclic();
    }

    method AddObject(id: ObjectId)
      requires Valid()
      modifies this
      ensures Valid() && Edges() == old(Edges()) && objectIds == old(objectIds) + {id}
    {
      objectIds := objectIds + {id};
    }

    /** Breadth-first reachability, possibly over no hop. */
    method Reaches(start: ObjectId, target: ObjectId) returns (found: bool)
      requires Filed(parents, true)
      ensures found <==> Leads(Edges(), start, target)
    {
      var seen, queue := {start}, [start];
      ghost var done: set<ObjectId> := {};
      LeadsSelf(Edges(), start);
      while queue != []
        invariant Searching(Edges(), start, seen, queue, done)
        invariant target !in done && seen <= Reachables(start, Edges())
        decreases |Reachables(start, Edges()) - seen|, |queue|
      {
        var n := queue[0];
        assert n in Members(queue);
        if n == target { return true; }
        RowReachable(parents, start, n);
        var after, rest := Discover(Row(parents, n), seen, queue[1..]);
        SearchStep(parents, Edges(), start, seen, queue, done, after, rest);
        Shrinks(Reachables(start, Edges()), seen, after);
        seen, queue, done := after, rest, done + {n};
      }
      assert Members(queue) == {};
      SearchDone(Edges(), start, seen, done, target);
      return false;
    }

    /** Adds an edge unless it is unregistered or closes a cycle; repeating an edge changes nothing. */
    method AddEdge(parent: ObjectId, child: ObjectId, kind: EdgeKind) returns (res: Result<()>)
      requires Valid()
      modifies this
      ensures Valid() && objectIds == old(objectIds)
      ensures res.Ok? <==> parent in objectIds && child in objectIds && Acyclic(old(Edges()) + {Edge(parent, child, kind)})
      ensures Edges() == if res.Ok? then old(Edges()) + {Edge(parent, child, kind)} else old(Edges())
    {
      ghost var edges := Edges();
      var e := Edge(parent, child, kind);
      NewEdgeAcyclic(edges, e);
      if parent == child {
        LeadsSelf(edges, parent);
        return Err(InvalidArgument);
      }
      if parent !in objectIds || child !in objectIds { return Err(NotFound); }
      RowEdges(parents, edges, parent);
      if exists f :: f in Row(parents, parent) && f.child == child && f.kind == kind {
        var f :| f in Row(parents, parent) && f.child == child && f.kind == kind;
        assert f in Members(Row(parents, parent)) && f == e;
        assert edges + {e} == edges;
        return Ok(());
      }
      assert e in edges ==> e in Members(Row(parents, parent));
      var closes := Reaches(child, parent);
      if closes { return Err(Conflict); }
      PushFiled(parents, e, true);
      PushFiled(children, e, false);
      PushRegistered(parents, children, objectIds, e);
      parents := parents[parent := Row(parents, parent) + [e]];
      children := children[child := Row(children, child) + [e]];
      return Ok(());
    }

    /** Removes an edge from both indexes. */
    method RemoveEdge(parent: ObjectId, child: ObjectId, kind: EdgeKind)
      requires Valid()
      modifies this
      ensures Valid() && objectIds == old(objectIds) && Edges() == old(Edges()) - {Edge(parent, child, kind)}
    {
      var e := Edge(parent, child, kind);
      ghost var edges := Edges();
      SubgraphAcyclic(edges - {e}, edges);
      if parent in parents {
        WithoutFiled(parents, e, true);
        parents := parents[parent := Without(parents[parent], e)];
      } else {
        WithoutAbsent(parents, e, true);
      }
      if child in children {
        WithoutFiled(children, e, false);
        children := children[child := Without(children[child], e)];
      } else {
        WithoutAbsent(children, e, false);
      }
    }

    /** May `candidate` go? Not while a live node without a recipe hangs on it by DEPENDS_ON edges
        alone, however many hops away and whatever lies between. */
    method DependencySafe(candidate: ObjectId, reconstructible: set<ObjectId>, dead: set<ObjectId>) returns (res: Result<()>)
      requires Valid()
      ensures res.Ok? <==> forall v :: LeadsOn((set e | e in Edges() && e.kind == DependsOn), candidate, v) ==> v in dead || v in reconstructible
    {
      assert DependsOnly(Edges()) == set e | e in Edges() && e.kind == DependsOn;
      ghost var edges := DependsOnly(Edges());
      var seen, queue := {candidate}, [candidate];
      ghost var done: set<ObjectId> := {};
      LeadsSelf(edges, candidate);
      while queue != []
        invariant Searching(edges, candidate, seen, queue, done) && seen <= Reachables(candidate, Edges())
        invariant forall v <- seen :: v != candidate ==> v in dead || v in reconstructible
        decreases |Reachables(candidate, Edges()) - seen|, |queue|
      {
        var n := queue[0];
        assert n in Members(queue);
        RowReachable(parents, candidate, n);
        var ok, after, rest := Expand(Row(parents, n), seen, queue[1..], reconstructible, dead);
        if !ok {
          Blocked(parents, candidate, n, seen, reconstructible, dead);
          return Err(Conflict);
        }
        ExpandStep(parents, edges, candidate, seen, queue, done, after, rest);
        Shrinks(Reachables(candidate, Edges()), seen, after);
        seen, queue, done := after, rest, done + {n};
      }
      assert Members(queue) == {};
      SafeSeen(Edges(), candidate, seen, done);
      return Ok(());
    }

    /** Accepts a snapshot, trusted or not, exactly when it is one the operations could have built. */
    method Validate() returns (res: Result<()>)
      ensures res.Ok? <==> Valid()
    {
      if Orphans(parents, children, objectIds) != {} { return Err(RecoveryFailure); }
      var fromParents := Collect(parents, true);
      if fromParents.Err? { return Err(RecoveryFailure); }
      var fromChildren := Collect(children, false);
      if fromChildren.Err? { return Err(RecoveryFailure); }
      if fromParents.value != fromChildren.value { return Err(RecoveryFailure); }
      Registered(parents, children, objectIds);
      var sorted := Sorts(parents, objectIds);
      if !sorted { return Err(RecoveryFailure); }
      return Ok(());
    }
  }

  lemma Registered(parents: Index, children: Index, ids: set<ObjectId>)
    requires Sane(parents, children, ids)
    ensures forall e <- EdgesOf(parents) :: e.parent in ids && e.child in ids
  {
    forall e <- EdgesOf(parents) ensures e.parent in ids && e.child in ids {
      var k, i :| k in parents && 0 <= i < |parents[k]| && parents[k][i] == e;
      assert End(parents[k][i], true) == k;
      assert k !in Orphans(parents, children, ids) && e.child !in Orphans(parents, children, ids);
    }
  }

  lemma PushRegistered(parents: Index, children: Index, ids: set<ObjectId>, e: Edge)
    requires Sane(parents, children, ids) && e.parent in ids && e.child in ids && e !in EdgesOf(parents)
    ensures Orphans(parents[e.parent := Row(parents, e.parent) + [e]], children[e.child := Row(children, e.child) + [e]], ids) == {}
  {
    PushFiled(parents, e, true);
    PushFiled(children, e, false);
    forall v | v in parents.Keys + children.Keys ensures v in ids { assert v !in Orphans(parents, children, ids); }
    Registered(parents, children, ids);
  }

  lemma Shrinks(all: set<ObjectId>, seen: set<ObjectId>, after: set<ObjectId>)
    requires seen <= after <= all
    ensures |all - after| <= |all - seen|
    ensures after != seen ==> |all - after| < |all - seen|
  {
    assert all - seen == (all - after) + (after - seen);
    if after != seen {
      var v :| v in after - seen;
      assert after - seen == (after - seen - {v}) + {v};
    }
  }

  predicate Fine(v: ObjectId, reconstructible: set<ObjectId>, dead: set<ObjectId>) {
    v in dead || v in reconstructible
  }

  /** Follows the DEPENDS_ON edges of one row, stopping at the first dependent that blocks. */
  method Expand(row: seq<Edge>, seen: set<ObjectId>, queue: seq<ObjectId>, reconstructible: set<ObjectId>, dead: set<ObjectId>)
    returns (ok: bool, after: set<ObjectId>, rest: seq<ObjectId>)
    ensures ok <==> forall e <- row :: e.kind == DependsOn && e.child !in seen ==> Fine(e.child, reconstructible, dead)
    ensures ok ==> after == seen + set e | e in row && e.kind == DependsOn :: e.child
    ensures ok ==> Members(rest) == Members(queue) + (after - seen)
    ensures ok && after == seen ==> rest == queue
  {
    after, rest := seen, queue;
    var i := 0;
    while i < |row|
      invariant 0 <= i <= |row|
      invariant forall e <- row[..i] :: e.kind == DependsOn && e.child !in seen ==> Fine(e.child, reconstructible, dead)
      invariant after == seen + set e | e in row[..i] && e.kind == DependsOn :: e.child
      invariant Members(rest) == Members(queue) + (after - seen)
      invariant after == seen ==> rest == queue
    {
      assert row[..i + 1] == row[..i] + [row[i]];
      var e := row[i];
      if e.kind == DependsOn && e.child !in after {
        if e.child !in dead && e.child !in reconstructible {
          assert e in row;
          return false, after, rest;
        }
        MembersSnoc(rest, e.child);
        assert after + {e.child} - seen == (after - seen) + {e.child};
        after := after + {e.child};
        rest := rest + [e.child];
      }
      i := i + 1;
    }
    assert row[..i] == row;
    ok := true;
  }

  lemma Blocked(index: Index, candidate: ObjectId, n: ObjectId, seen: set<ObjectId>, reconstructible: set<ObjectId>, dead: set<ObjectId>)
    requires Filed(index, true) && Leads(DependsOnly(EdgesOf(index)), candidate, n)
    requires !forall e <- Row(index, n) :: e.kind == DependsOn && e.child !in seen ==> Fine(e.child, reconstructible, dead)
    ensures exists v :: LeadsOn(DependsOnly(EdgesOf(index)), candidate, v) && v !in dead && v !in reconstructible
  {
    var e :| e in Row(index, n) && e.kind == DependsOn && e.child !in seen && !Fine(e.child, reconstructible, dead);
    RowEdges(index, EdgesOf(index), n);
    assert e in Members(Row(index, n));
    LeadsHop(DependsOnly(EdgesOf(index)), candidate, e);
  }

  lemma ExpandStep(index: Index, edges: set<Edge>, start: ObjectId, seen: set<ObjectId>, queue: seq<ObjectId>, done: set<ObjectId>,
                   after: set<ObjectId>, rest: seq<ObjectId>)
    requires Filed(index, true) && edges == DependsOnly(EdgesOf(index))
    requires Searching(edges, start, seen, queue, done) && queue != []
    requires after == seen + set e | e in Row(index, queue[0]) && e.kind == DependsOn :: e.child
    requires Members(rest) == Members(queue[1..]) + (after - seen)
    ensures Searching(edges, start, after, rest, done + {queue[0]})
  {
    var n := queue[0];
    RowEdges(index, EdgesOf(index), n);
    assert queue == [n] + queue[1..];
    assert Members(queue) == {n} + Members(queue[1..]);
    forall e | e in edges && e.parent == n ensures e.child in after { assert e in Members(Row(index, n)); }
    forall v <- after ensures Leads(edges, start, v) {
      if v !in seen {
        var e :| e in Row(index, n) && e.kind == DependsOn && e.child == v;
        assert e in Members(Row(index, n)) && n in seen;
        LeadsHop(edges, start, e);
      }
    }
  }

  /** On an acyclic graph everything hanging on the candidate has been seen and is not it. */
  lemma SafeSeen(all: set<Edge>, candidate: ObjectId, seen: set<ObjectId>, done: set<ObjectId>)
    requires Acyclic(all) && Searching(DependsOnly(all), candidate, seen, [], done)
    ensures forall v :: LeadsOn(DependsOnly(all), candidate, v) ==> v in seen && v != candidate
  {
    SubgraphAcyclic(DependsOnly(all), all);
    forall v | LeadsOn(DependsOnly(all), candidate, v) ensures v in seen && v != candidate {
      assert Leads(DependsOnly(all), candidate, v);
      SearchDone(DependsOnly(all), candidate, seen, done, v);
    }
  }

  /** Rebuilds the graph from the stored rows, in whatever order they come: it succeeds exactly
      when all endpoints are registered and the edges have no cycle. */
  method Rebuild(ids: set<ObjectId>, rows: seq<Edge>) returns (res: Result<()>, graph: LineageGraph)
    ensures res.Ok? <==> (forall e <- rows :: e.parent in ids && e.child in ids) && Acyclic(Members(rows))
    ensures fresh(graph) && graph.Valid()
    ensures res.Ok? ==> graph.objectIds == ids && graph.Edges() == Members(rows)
  {
    graph := new LineageGraph();
    var todo := ids;
    while todo != {}
      invariant fresh(graph) && graph.Valid() && graph.Edges() == {}
      invariant todo <= ids && graph.objectIds == ids - todo
      decreases todo
    {
      var id :| id in todo;
      graph.AddObject(id);
      todo := todo - {id};
    }
    var i := 0;
    while i < |rows|
      invariant 0 <= i <= |rows|
      invariant fresh(graph) && graph.Valid() && graph.objectIds == ids && graph.Edges() == Members(rows[..i])
      invariant forall e <- rows[..i] :: e.parent in ids && e.child in ids
    {
      var e := rows[i];
      assert rows[..i + 1] == rows[..i] + [e] && e in rows;
      assert Members(rows[..i + 1]) == Members(rows[..i]) + {e};
      Prefixes(rows, i + 1);
      var added := graph.AddEdge(e.parent, e.child, e.kind);
      if added.Err? { return Err(RecoveryFailure), graph; }
      i := i + 1;
    }
    assert rows[..i] == rows;
    return Ok(()), graph;
  }

  lemma Prefixes(rows: seq<Edge>, n: nat)
    requires n <= |rows|
    ensures Acyclic(Members(rows)) ==> Acyclic(Members(rows[..n]))
  {
    if Acyclic(Members(rows)) { SubgraphAcyclic(Members(rows[..n]), Members(rows)); }
  }
}
