/** The dependency check of a reclaim over the lineage graph, and what the protocol takes from it. */
module Dependents {
  import opened Fabric
  import opened Lineage
  import Protocol

  /** The edges the transition system keeps of a lineage graph. */
  function Needs(edges: set<Edge>): (needs: set<Protocol.Dependency>) {
    set e <- DependsOnly(edges) :: Protocol.Dependency(e.parent, e.child)
  }

  /** Nothing that hangs on `o`, however far away, would be invalidated by losing it. */
  ghost predicate AllSafe(objects: map<ObjectId, Object>, edges: set<Edge>, o: ObjectId) {
    forall v :: LeadsOn(DependsOnly(edges), o, v) ==> Protocol.SafeChild(objects, v)
  }

  lemma HopBefore(edges: set<Edge>, u: ObjectId, v: ObjectId) returns (e: Edge)
    requires LeadsOn(edges, u, v)
    ensures e in edges && e.child == v && Leads(edges, u, e.parent)
  {
    var p :| Joins(edges, p, u, v) && |p| > 1;
    var k := |p| - 2;
    assert Hop(edges, p[k], p[k + 1]);
    e :| e in edges && e.parent == p[k] && e.child == p[k + 1];
    assert Joins(edges, p[..k + 1], u, p[k]);
  }

  /** The transitive check is the direct one asked of the object and of everything that hangs on it. */
  lemma TransitiveIsDirect(objects: map<ObjectId, Object>, edges: set<Edge>, o: ObjectId)
    ensures AllSafe(objects, edges, o) <==> forall u :: Leads(DependsOnly(edges), o, u) ==> Protocol.DirectSafe(objects, Needs(edges), u)
    ensures AllSafe(objects, edges, o) ==> Protocol.DirectSafe(objects, Needs(edges), o)
  {
    var deps := DependsOnly(edges);
    LeadsSelf(deps, o);
    if AllSafe(objects, edges, o) {
      forall u, d | Leads(deps, o, u) && d in Needs(edges) && d.parent == u ensures Protocol.SafeChild(objects, d.child) {
        var e :| e in deps && Protocol.Dependency(e.parent, e.child) == d;
        LeadsHop(deps, o, e);
      }
    }
    if forall u :: Leads(deps, o, u) ==> Protocol.DirectSafe(objects, Needs(edges), u) {
      forall v | LeadsOn(deps, o, v) ensures Protocol.SafeChild(objects, v) {
        var e := HopBefore(deps, o, v);
        assert Protocol.Dependency(e.parent, e.child) in Needs(edges);
        assert Protocol.DirectSafe(objects, Needs(edges), e.parent);
      }
    }
  }

  /** Asks the graph whether `o` may go. Whoever passes also passes the protocol's check on the same
      edges, now and for everything that hangs on `o`. */
  method CheckDependencies(graph: LineageGraph, objects: map<ObjectId, Object>, o: ObjectId) returns (res: Result<()>)
    requires graph.Valid()
    ensures res.Ok? <==> forall v :: LeadsOn((set e | e in graph.Edges() && e.kind == DependsOn), o, v) ==>
                           v in objects && (objects[v].state == Reclaimed || objects[v].reconstructible)
    ensures res.Ok? <==> forall u :: Leads(DependsOnly(graph.Edges()), o, u) ==> Protocol.DirectSafe(objects, Needs(graph.Edges()), u)
    ensures res.Ok? ==> Protocol.DirectSafe(objects, Needs(graph.Edges()), o)
  {
    var reconstructible := set v <- objects | objects[v].reconstructible;
    var dead := set v <- objects | objects[v].state == Reclaimed;
    ghost var deps := set e | e in graph.Edges() && e.kind == DependsOn;
    assert DependsOnly(graph.Edges()) == deps;
    res := graph.DependencySafe(o, reconstructible, dead);
    assert res.Ok? <==> forall v :: LeadsOn(deps, o, v) ==> v in dead || v in reconstructible;
    assert forall v :: v in dead || v in reconstructible <==> v in objects && (objects[v].state == Reclaimed || objects[v].reconstructible);
    TransitiveIsDirect(objects, graph.Edges(), o);
  }
}
