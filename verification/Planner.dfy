/** Batch planning: one pass over counted tables, against planning each object by itself. */
module Planner {
  import opened Fabric
  import opened Lineage

  /** What the planner reads, in one consistent snapshot. */
  datatype Snapshot = Snapshot(
    objects: map<ObjectId, Object>,
    replicas: map<ReplicaId, Replica>,
    archives: map<ArchiveId, Archive>,
    parents: Index)

  datatype Context = Context(dependents: nat, survivability: nat)

  datatype Decision = Decision(reclaim: bool, score: real)

  /** The economics: some function of the object and its context, which may fail. */
  type Decide = (ObjectId, Object, Context) -> Result<Decision>

  const MAX_CANDIDATES: nat := 10_000

  // ------------------------------------------------------------------
  // One object
  // ------------------------------------------------------------------

  function ValidRows(replicas: map<ReplicaId, Replica>, o: ObjectId): (rows: set<ReplicaId>) {
    set r | r in replicas && replicas[r].owner == o && replicas[r].valid
  }

  function ArchiveRows(archives: map<ArchiveId, Archive>, o: ObjectId): (rows: set<ArchiveId>) {
    set x | x in archives && archives[x].owner == o
  }

  /** A live dependent that could not be made again. */
  predicate Costly(objects: map<ObjectId, Object>, e: Edge) {
    e.kind == DependsOn
    && !(e.child in objects && objects[e.child].state == Reclaimed)
    && !(e.child in objects && objects[e.child].reconstructible)
  }

  function CostlyCount(objects: map<ObjectId, Object>, row: seq<Edge>): (n: nat) {
    if row == [] then 0 else CostlyCount(objects, row[..|row| - 1]) + (if Costly(objects, row[|row| - 1]) then 1 else 0)
  }

  function Worth(o: Object, copies: nat): (n: nat) {
    if copies == 0 then 0 else if MinValidCopies(o.durability) > 1 then MinValidCopies(o.durability) else 1
  }

  /** The context the planner gathers for one object by itself. */
  function ContextOf(s: Snapshot, o: ObjectId): (c: Context)
    requires o in s.objects
  {
    Context(
      CostlyCount(s.objects, Row(s.parents, o)),
      Worth(s.objects[o], |ValidRows(s.replicas, o)| + |ArchiveRows(s.archives, o)|))
  }

  /** The rows of `row` that cost something, by position. */
  function CostlyAt(objects: map<ObjectId, Object>, row: seq<Edge>): (at: set<nat>) {
    set i: nat | i < |row| && row[i].kind == DependsOn
                 && !(row[i].child in objects && (objects[row[i].child].state == Reclaimed || objects[row[i].child].reconstructible))
  }

  lemma {:induction false} CostlyCounted(objects: map<ObjectId, Object>, row: seq<Edge>)
    ensures CostlyCount(objects, row) == |CostlyAt(objects, row)|
    decreases |row|
  {
    if row != [] {
      var front, n := row[..|row| - 1], |row| - 1;
      CostlyCounted(objects, front);
      assert CostlyAt(objects, row) == CostlyAt(objects, front) + (if Costly(objects, row[n]) then {n as nat} else {});
    }
  }

  /** The context of an object is the number of its DEPENDS_ON children that are neither gone nor
      reconstructible, and what losing it would cost: nothing if it has no valid copy, otherwise as
      many copies as its class needs, and at least one. */
  lemma ContextIs(s: Snapshot, o: ObjectId)
    requires o in s.objects
    ensures ContextOf(s, o).dependents == |CostlyAt(s.objects, Row(s.parents, o))|
    ensures ContextOf(s, o).survivability ==
              if (forall r <- s.replicas :: s.replicas[r].owner != o || !s.replicas[r].valid) && (forall x <- s.archives :: s.archives[x].owner != o) then 0
              else if s.objects[o].durability == Critical then 2 else 1
  {
    CostlyCounted(s.objects, Row(s.parents, o));
    assert |ValidRows(s.replicas, o)| == 0 <==> ValidRows(s.replicas, o) == {};
    assert |ArchiveRows(s.archives, o)| == 0 <==> ArchiveRows(s.archives, o) == {};
    if r :| r in s.replicas && s.replicas[r].owner == o && s.replicas[r].valid { assert r in ValidRows(s.replicas, o); }
    if x :| x in s.archives && s.archives[x].owner == o { assert x in ArchiveRows(s.archives, o); }
  }

  function Plan(s: Snapshot, decide: Decide, o: ObjectId): (d: Result<Decision>)
    requires o in s.objects
  {
    decide(o, s.objects[o], ContextOf(s, o))
  }

  // ------------------------------------------------------------------
  // Ranking
  // ------------------------------------------------------------------

  datatype Pick = Pick(id: ObjectId, score: real)

  predicate Before(a: Pick, b: Pick) {
    a.score > b.score || (a.score == b.score && a.id < b.id)
  }

  ghost predicate Ranked(picks: seq<Pick>) {
    forall i, k :: 0 <= i < k < |picks| ==> Before(picks[i], picks[k])
  }

  /** `picks` lists `all`, best first. */
  ghost predicate IsRanking(picks: seq<Pick>, all: set<Pick>) {
    Ranked(picks) && Members(picks) == all
  }

  lemma SomeMember(picks: seq<Pick>)
    requires picks != []
    ensures Members(picks) != {}
  {
    assert picks[0] in Members(picks);
  }

  /** A set has one ranking. */
  lemma {:induction false} RankingUnique(picks: seq<Pick>, others: seq<Pick>, all: set<Pick>)
    requires IsRanking(picks, all) && IsRanking(others, all)
    ensures picks == others
    decreases |picks|
  {
    if picks == [] {
      if others != [] { SomeMember(others); }
    } else {
      assert picks[0] in Members(others) && others != [] && others[0] in Members(picks);
      var i :| 0 <= i < |others| && others[i] == picks[0];
      var k :| 0 <= k < |picks| && picks[k] == others[0];
      assert picks[0] == others[0];
      Tail(picks, all);
      Tail(others, all);
      RankingUnique(picks[1..], others[1..], all - {picks[0]});
      assert picks == [picks[0]] + picks[1..] && others == [others[0]] + others[1..];
    }
  }

  lemma Tail(picks: seq<Pick>, all: set<Pick>)
    requires IsRanking(picks, all) && picks != []
    ensures IsRanking(picks[1..], all - {picks[0]})
  {
    assert picks == [picks[0]] + picks[1..];
    forall p ensures p in Members(picks[1..]) <==> p in all - {picks[0]} {
      if p in picks[1..] {
        var i :| 0 <= i < |picks[1..]| && picks[1..][i] == p;
        assert Before(picks[0], picks[i + 1]);
      }
    }
  }

  // ------------------------------------------------------------------
  // Counting everything once
  // ------------------------------------------------------------------

  function Get(counts: map<ObjectId, nat>, o: ObjectId): (n: nat) {
    if o in counts then counts[o] else 0
  }

  lemma ValidMore(replicas: map<ReplicaId, Replica>, todo: set<ReplicaId>, r: ReplicaId, o: ObjectId)
    requires r in todo && r in replicas
    ensures |ValidRows(replicas, o) - (todo - {r})|
            == |ValidRows(replicas, o) - todo| + (if replicas[r].owner == o && replicas[r].valid then 1 else 0)
  {
    assert ValidRows(replicas, o) - (todo - {r})
        == (ValidRows(replicas, o) - todo) + (if replicas[r].owner == o && replicas[r].valid then {r} else {});
  }

  lemma ArchiveMore(archives: map<ArchiveId, Archive>, todo: set<ArchiveId>, x: ArchiveId, o: ObjectId)
    requires x in todo && x in archives
    ensures |ArchiveRows(archives, o) - (todo - {x})| == |ArchiveRows(archives, o) - todo| + (if archives[x].owner == o then 1 else 0)
  {
    assert ArchiveRows(archives, o) - (todo - {x}) == (ArchiveRows(archives, o) - todo) + (if archives[x].owner == o then {x} else {});
  }

  ghost predicate ValidCounted(counts: map<ObjectId, nat>, replicas: map<ReplicaId, Replica>, todo: set<ReplicaId>) {
    forall o :: Get(counts, o) == |ValidRows(replicas, o) - todo|
  }

  ghost predicate ArchivesCounted(counts: map<ObjectId, nat>, archives: map<ArchiveId, Archive>, todo: set<ArchiveId>) {
    forall o :: Get(counts, o) == |ArchiveRows(archives, o) - todo|
  }

  lemma ValidNext(counts: map<ObjectId, nat>, replicas: map<ReplicaId, Replica>, todo: set<ReplicaId>, r: ReplicaId)
    requires r in todo && r in replicas && ValidCounted(counts, replicas, todo)
    ensures var owner := replicas[r].owner;
            ValidCounted(if replicas[r].valid then counts[owner := Get(counts, owner) + 1] else counts, replicas, todo - {r})
  {
    var owner := replicas[r].owner;
    var next := if replicas[r].valid then counts[owner := Get(counts, owner) + 1] else counts;
    forall o ensures Get(next, o) == |ValidRows(replicas, o) - (todo - {r})| { ValidMore(replicas, todo, r, o); }
  }

  lemma ArchiveNext(counts: map<ObjectId, nat>, archives: map<ArchiveId, Archive>, todo: set<ArchiveId>, x: ArchiveId)
    requires x in todo && x in archives && ArchivesCounted(counts, archives, todo)
    ensures var owner := archives[x].owner; ArchivesCounted(counts[owner := Get(counts, owner) + 1], archives, todo - {x})
  {
    var owner := archives[x].owner;
    forall o ensures Get(counts[owner := Get(counts, owner) + 1], o) == |ArchiveRows(archives, o) - (todo - {x})| {
      ArchiveMore(archives, todo, x, o);
    }
  }

  /** Valid replicas by object, in one pass over the table. */
  method ValidReplicaCounts(replicas: map<ReplicaId, Replica>) returns (counts: map<ObjectId, nat>)
    ensures forall o :: Get(counts, o) == |ValidRows(replicas, o)|
  {
    counts := map[];
    var todo := replicas.Keys;
    forall o ensures Get(counts, o) == |ValidRows(replicas, o) - todo| { assert ValidRows(replicas, o) - todo == {}; }
    while todo != {}
      invariant todo <= replicas.Keys && ValidCounted(counts, replicas, todo)
      decreases todo
    {
      var r :| r in todo;
      var owner := replicas[r].owner;
      ValidNext(counts, replicas, todo, r);
      if replicas[r].valid { counts := counts[owner := Get(counts, owner) + 1]; }
      todo := todo - {r};
    }
    forall o ensures Get(counts, o) == |ValidRows(replicas, o)| { assert ValidRows(replicas, o) - {} == ValidRows(replicas, o); }
  }

  method ArchiveCounts(archives: map<ArchiveId, Archive>) returns (counts: map<ObjectId, nat>)
    ensures forall o :: Get(counts, o) == |ArchiveRows(archives, o)|
  {
    counts := map[];
    var todo := archives.Keys;
    forall o ensures Get(counts, o) == |ArchiveRows(archives, o) - todo| { assert ArchiveRows(archives, o) - todo == {}; }
    while todo != {}
      invariant todo <= archives.Keys && ArchivesCounted(counts, archives, todo)
      decreases todo
    {
      var x :| x in todo;
      var owner := archives[x].owner;
      ArchiveNext(counts, archives, todo, x);
      counts := counts[owner := Get(counts, owner) + 1];
      todo := todo - {x};
    }
    forall o ensures Get(counts, o) == |ArchiveRows(archives, o)| { assert ArchiveRows(archives, o) - {} == ArchiveRows(archives, o); }
  }

  method CountCostly(objects: map<ObjectId, Object>, row: seq<Edge>) returns (n: nat)
    ensures n == CostlyCount(objects, row)
  {
    n := 0;
    var i := 0;
    while i < |row|
      invariant 0 <= i <= |row| && n == CostlyCount(objects, row[..i])
    {
      assert row[..i + 1][..i] == row[..i];
      if Costly(objects, row[i]) { n := n + 1; }
      i := i + 1;
    }
    assert row[..i] == row;
  }

  // ------------------------------------------------------------------
  // The batch
  // ------------------------------------------------------------------

  predicate Eligible(s: Snapshot, o: ObjectId) {
    o in s.objects && s.objects[o].state != Reclaimed && s.objects[o].state != Failed
  }

  /** The eligible objects among `ids` whose own plan says RECLAIM. */
  function Picks(s: Snapshot, decide: Decide, ids: set<ObjectId>): (picks: set<Pick>) {
    set o | o in ids && Eligible(s, o) && Plan(s, decide, o).Ok? && Plan(s, decide, o).value.reclaim :: Pick(o, Plan(s, decide, o).value.score)
  }

  /** Some eligible object cannot be planned. */
  ghost predicate Fails(s: Snapshot, decide: Decide, ids: set<ObjectId>) {
    exists o :: o in ids && Eligible(s, o) && Plan(s, decide, o).Err?
  }

  /** Puts one pick in its place. */
  method Insert(picks: seq<Pick>, p: Pick) returns (more: seq<Pick>)
    requires Ranked(picks) && forall q <- picks :: q.id != p.id
    ensures IsRanking(more, Members(picks) + {p})
  {
    var i := 0;
    while i < |picks| && Before(picks[i], p)
      invariant 0 <= i <= |picks|
      invariant forall k :: 0 <= k < i ==> Before(picks[k], p)
    {
      i := i + 1;
    }
    more := picks[..i] + [p] + picks[i..];
    assert picks == picks[..i] + picks[i..];
    forall k | i <= k < |picks| ensures Before(p, picks[k]) {
      assert picks[i] in picks && picks[k] in picks;
      assert Before(p, picks[i]);
      if k > i { assert Before(picks[i], picks[k]); }
    }
    forall a, b | 0 <= a < b < |more| ensures Before(more[a], more[b]) {
      InsertedAt(picks, p, i, a);
      InsertedAt(picks, p, i, b);
    }
  }

  lemma InsertedAt(picks: seq<Pick>, p: Pick, i: nat, a: nat)
    requires i <= |picks| && a < |picks| + 1
    ensures (picks[..i] + [p] + picks[i..])[a] == if a < i then picks[a] else if a == i then p else picks[a - 1]
  {
  }

  predicate Listed(picks: seq<Pick>, o: ObjectId) {
    exists p :: p in picks && p.id == o
  }

  /** What is left out of the first `limit` of a ranking is no better than what is in it. */
  lemma LeftOut(ranking: seq<Pick>, limit: nat, p: Pick)
    requires Ranked(ranking) && p in ranking
    ensures var top := if limit < |ranking| then ranking[..limit] else ranking;
            p in top || (|top| == limit && forall q <- top :: q.score >= p.score)
  {
    var k :| 0 <= k < |ranking| && ranking[k] == p;
    if limit <= k {
      forall q <- ranking[..limit] ensures q.score >= p.score {
        var i :| 0 <= i < limit && ranking[i] == q;
        assert Before(ranking[i], ranking[k]);
      }
    } else if limit < |ranking| {
      assert ranking[..limit][k] == p;
    }
  }

  /** Every object whose plan says RECLAIM is in the batch, or the batch is full of better ones. */
  lemma BatchComplete(s: Snapshot, decide: Decide, ranking: seq<Pick>, limit: nat, o: ObjectId)
    requires IsRanking(ranking, Picks(s, decide, s.objects.Keys)) && !Fails(s, decide, s.objects.Keys)
    requires o in s.objects && s.objects[o].state != Reclaimed && s.objects[o].state != Failed
    ensures var top := if limit < |ranking| then ranking[..limit] else ranking;
            match Plan(s, decide, o)
            case Err(_) => false
            case Ok(d) => d.reclaim && !Listed(top, o) ==> |top| == limit && forall p <- top :: p.score >= d.score
  {
    if Plan(s, decide, o).Ok? && Plan(s, decide, o).value.reclaim {
      var p := Pick(o, Plan(s, decide, o).value.score);
      assert p in Picks(s, decide, s.objects.Keys);
      assert p in Members(ranking);
      LeftOut(ranking, limit, p);
    }
  }

  /** Batch planning refines planning object by object: when it succeeds it returns the first
      `limit` of the ranking of all eligible objects whose own plan on the same snapshot says
      RECLAIM, and it fails only on an excessive limit or where some eligible object's plan does. */
  method Candidates(s: Snapshot, decide: Decide, limit: nat) returns (res: Result<seq<Pick>>, ghost ranking: seq<Pick>)
    ensures res.Err? <==> limit > 10_000 || Fails(s, decide, s.objects.Keys)
    ensures res.Ok? ==> IsRanking(ranking, Picks(s, decide, s.objects.Keys))
    ensures res.Ok? ==> res.value == if limit < |ranking| then ranking[..limit] else ranking
    ensures res.Ok? ==> forall i, k :: 0 <= i < k < |res.value| ==>
              res.value[i].score > res.value[k].score || (res.value[i].score == res.value[k].score && res.value[i].id < res.value[k].id)
    ensures res.Ok? ==> forall o <- s.objects :: s.objects[o].state != Reclaimed && s.objects[o].state != Failed ==>
              match Plan(s, decide, o)
              case Err(_) => false
              case Ok(d) => d.reclaim && !Listed(res.value, o) ==> |res.value| == limit && forall p <- res.value :: p.score >= d.score
  {
    ranking := [];
    if limit > MAX_CANDIDATES { return Err(InvalidArgument), []; }
    var replicaCounts := ValidReplicaCounts(s.replicas);
    var archiveCounts := ArchiveCounts(s.archives);
    var picks: seq<Pick> := [];
    var todo := s.objects.Keys;
    assert Picks(s, decide, s.objects.Keys - todo) == {};
    while todo != {}
      invariant todo <= s.objects.Keys
      invariant IsRanking(picks, Picks(s, decide, s.objects.Keys - todo))
      invariant !Fails(s, decide, s.objects.Keys - todo)
      decreases todo
    {
      var o :| o in todo;
      ghost var done := s.objects.Keys - todo;
      assert s.objects.Keys - (todo - {o}) == done + {o};
      PicksMore(s, decide, done, o);
      FailsMore(s, decide, done, o);
      if s.objects[o].state != Reclaimed && s.objects[o].state != Failed {
        var dependents := CountCostly(s.objects, Row(s.parents, o));
        var context := Context(dependents, Worth(s.objects[o], Get(replicaCounts, o) + Get(archiveCounts, o)));
        var d := decide(o, s.objects[o], context);
        if d.Err? {
          FailsIn(s, decide, done + {o}, s.objects.Keys);
          return Err(d.error), [];
        }
        if d.value.reclaim {
          forall q <- picks ensures q.id != o { assert q in Members(picks); }
          picks := Insert(picks, Pick(o, d.value.score));
        }
      }
      todo := todo - {o};
    }
    assert s.objects.Keys - todo == s.objects.Keys;
    forall o <- s.objects | s.objects[o].state != Reclaimed && s.objects[o].state != Failed { BatchComplete(s, decide, picks, limit, o); }
    return Ok(if limit < |picks| then picks[..limit] else picks), picks;
  }

  lemma PicksMore(s: Snapshot, decide: Decide, done: set<ObjectId>, o: ObjectId)
    requires o in s.objects && o !in done
    ensures Picks(s, decide, done + {o}) == Picks(s, decide, done)
              + (if Eligible(s, o) && Plan(s, decide, o).Ok? && Plan(s, decide, o).value.reclaim then {Pick(o, Plan(s, decide, o).value.score)} else {})
    ensures forall p <- Picks(s, decide, done) :: p.id != o
  {
  }

  lemma FailsMore(s: Snapshot, decide: Decide, done: set<ObjectId>, o: ObjectId)
    requires o in s.objects
    ensures Fails(s, decide, done + {o}) <==> Fails(s, decide, done) || (Eligible(s, o) && Plan(s, decide, o).Err?)
  {
  }

  lemma FailsIn(s: Snapshot, decide: Decide, some: set<ObjectId>, all: set<ObjectId>)
    requires some <= all && Fails(s, decide, some)
    ensures Fails(s, decide, all)
  {
  }
}
