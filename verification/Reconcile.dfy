/** Recovery as the coordinator runs it: loops over the journal, the scheduled rows and the dedup
    table of a mutable store. Every durable write is one of RecoveryWrites, so what is proved of
    runs of writes holds of every prefix of these methods. */
module Reconcile {
  import opened Fabric
  import opened Durable
  import opened RecoveryWrites
  import opened Restart

  // ------------------------------------------------------------------
  // Runs that grow
  // ------------------------------------------------------------------

  lemma {:induction false} RunConcat(d: Db, phys: Physical, vs: seq<Write>, e: Db, ws: seq<Write>, f: Db)
    requires Run(d, phys, vs, e) && Run(e, phys, ws, f)
    ensures Run(d, phys, vs + ws, f)
    decreases |vs|
  {
    if vs == [] {
      assert vs + ws == ws;
    } else {
      RunConcat(Apply(d, phys, vs[0]), phys, vs[1..], e, ws, f);
      assert (vs + ws)[1..] == vs[1..] + ws;
    }
  }

  lemma RunSnoc(d: Db, phys: Physical, ws: seq<Write>, e: Db, w: Write)
    requires Run(d, phys, ws, e) && Enabled(e, phys, w)
    ensures Run(d, phys, ws + [w], Apply(e, phys, w))
  {
    assert Run(Apply(e, phys, w), phys, [], Apply(e, phys, w));
    assert [w][1..] == [];
    RunConcat(d, phys, ws, e, [w], Apply(e, phys, w));
  }

  // ------------------------------------------------------------------
  // Counting live references
  // ------------------------------------------------------------------

  /** Every row belongs to a registered object that is not RECLAIMED, and rows sharing a payload
      agree on its key and size. */
  ghost predicate Repairable(objects: map<ObjectId, Object>, replicas: map<ReplicaId, Replica>) {
    && (forall r <- replicas :: replicas[r].owner in objects && objects[replicas[r].owner].state != Reclaimed)
    && (forall r <- replicas, q <- replicas :: IdentityOf(replicas[r]) == IdentityOf(replicas[q]) ==>
          replicas[r].key == replicas[q].key && replicas[r].size == replicas[q].size)
  }

  function Only(replicas: map<ReplicaId, Replica>, ids: set<ReplicaId>): (some: map<ReplicaId, Replica>) {
    map r | r in replicas && r in ids :: replicas[r]
  }

  /** The dedup entry after one more row of its payload. */
  function Counted(live: map<Identity, DedupEntry>, row: Replica): (e: DedupEntry) {
    var i := IdentityOf(row);
    if i in live then live[i].(refs := live[i].refs + 1) else DedupEntry(row.key, 1, row.size)
  }

  lemma CountedRow(replicas: map<ReplicaId, Replica>, ids: set<ReplicaId>, r: ReplicaId, i: Identity)
    requires r in replicas && r !in ids
    ensures RowSet(Only(replicas, ids + {r}), i) == RowSet(Only(replicas, ids), i) + (if IdentityOf(replicas[r]) == i then {r} else {})
  {
  }

  lemma CountedExact(replicas: map<ReplicaId, Replica>, ids: set<ReplicaId>, r: ReplicaId, live: map<Identity, DedupEntry>)
    requires Exact(Only(replicas, ids), live) && r in replicas && r !in ids
    requires IdentityOf(replicas[r]) in live ==>
               live[IdentityOf(replicas[r])].key == replicas[r].key && live[IdentityOf(replicas[r])].size == replicas[r].size
    ensures Exact(Only(replicas, ids + {r}), live[IdentityOf(replicas[r]) := Counted(live, replicas[r])])
  {
    var now := live[IdentityOf(replicas[r]) := Counted(live, replicas[r])];
    forall i ensures ExactFor(Only(replicas, ids + {r}), now, i) {
      assert ExactFor(Only(replicas, ids), live, i);
      CountedRow(replicas, ids, r, i);
    }
  }

  /** A disagreement found while counting is one between two rows. */
  lemma Disagreement(replicas: map<ReplicaId, Replica>, ids: set<ReplicaId>, r: ReplicaId, live: map<Identity, DedupEntry>)
    requires Exact(Only(replicas, ids), live) && r in replicas
    requires var i := IdentityOf(replicas[r]); i in live && !(live[i].key == replicas[r].key && live[i].size == replicas[r].size)
    ensures exists q :: q in replicas && IdentityOf(replicas[q]) == IdentityOf(replicas[r])
              && !(replicas[q].key == replicas[r].key && replicas[q].size == replicas[r].size)
  {
    var i := IdentityOf(replicas[r]);
    assert ExactFor(Only(replicas, ids), live, i);
    var q :| q in RowSet(Only(replicas, ids), i);
  }

  lemma NothingExact(replicas: map<ReplicaId, Replica>)
    ensures Exact(Only(replicas, {}), map[])
  {
    forall i ensures ExactFor(Only(replicas, {}), map[], i) { assert RowSet(Only(replicas, {}), i) == {}; }
  }

  /** The live references of a replica table: its group-by on payload identity, or an error exactly
      when the table is not repairable. */
  method CountLive(objects: map<ObjectId, Object>, replicas: map<ReplicaId, Replica>) returns (res: Result<map<Identity, DedupEntry>>)
    ensures res.Ok? <==> Repairable(objects, replicas)
    ensures res.Ok? ==> Exact(replicas, res.value)
  {
    var live: map<Identity, DedupEntry> := map[];
    var todo := replicas.Keys;
    ghost var done: set<ReplicaId> := {};
    NothingExact(replicas);
    while todo != {}
      invariant done + todo == replicas.Keys && done !! todo
      invariant Exact(Only(replicas, done), live)
      invariant forall r <- done :: replicas[r].owner in objects && objects[replicas[r].owner].state != Reclaimed
      invariant forall r <- done, q <- done :: IdentityOf(replicas[r]) == IdentityOf(replicas[q]) ==>
                  replicas[r].key == replicas[q].key && replicas[r].size == replicas[q].size
      decreases todo
    {
      var r :| r in todo;
      var row := replicas[r];
      if row.owner !in objects || objects[row.owner].state == Reclaimed {
        return Err(RecoveryFailure);
      }
      var i := IdentityOf(row);
      if i in live && !(live[i].key == row.key && live[i].size == row.size) {
        Disagreement(replicas, done, r, live);
        return Err(RecoveryFailure);
      }
      Agreement(replicas, done, r, live);
      CountedExact(replicas, done, r, live);
      live := live[i := Counted(live, row)];
      todo := todo - {r};
      done := done + {r};
    }
    assert Only(replicas, done) == replicas;
    return Ok(live);
  }

  lemma Agreement(replicas: map<ReplicaId, Replica>, ids: set<ReplicaId>, r: ReplicaId, live: map<Identity, DedupEntry>)
    requires Exact(Only(replicas, ids), live) && r in replicas && ids <= replicas.Keys
    requires var i := IdentityOf(replicas[r]); i in live ==> live[i].key == replicas[r].key && live[i].size == replicas[r].size
    ensures forall q <- ids :: IdentityOf(replicas[q]) == IdentityOf(replicas[r]) ==>
              replicas[q].key == replicas[r].key && replicas[q].size == replicas[r].size
  {
    var i := IdentityOf(replicas[r]);
    assert ExactFor(Only(replicas, ids), live, i);
    forall q <- ids | IdentityOf(replicas[q]) == i
      ensures replicas[q].key == replicas[r].key && replicas[q].size == replicas[r].size
    {
      assert q in RowSet(Only(replicas, ids), i);
    }
  }

  // ------------------------------------------------------------------
  // Physical truth
  // ------------------------------------------------------------------

  /** The targets looked at so far. */
  ghost function Looked(j: Journal, todo: set<ReplicaId>, left: set<ArchiveId>): (places: set<Loc>)
    requires j.plan.Some?
  {
    (set r | r in j.plan.value && r !in todo && r in j.deletions :: PlaceOf(j.deletions[r]))
    + (set x | x in j.archives && x !in left :: VaultOf(j.archives[x]))
  }

  ghost predicate Saw(places: set<Loc>, phys: Physical, present: bool, missing: bool) {
    (present <==> !(places !! phys.Keys)) && (missing <==> !(places <= phys.Keys))
  }

  lemma SawMore(places: set<Loc>, phys: Physical, present: bool, missing: bool, place: Loc)
    requires Saw(places, phys, present, missing)
    ensures Saw(places + {place}, phys, present || place in phys, missing || place !in phys)
  {
  }

  lemma LookedMore(j: Journal, todo: set<ReplicaId>, left: set<ArchiveId>)
    requires j.plan.Some? && j.plan.value <= j.deletions.Keys
    ensures Looked(j, todo, left) <= Targets(j) && Looked(j, {}, {}) == Targets(j) && Looked(j, j.plan.value, j.archives.Keys) == {}
    ensures forall r <- todo :: r in j.plan.value ==> Looked(j, todo - {r}, left) == Looked(j, todo, left) + {PlaceOf(j.deletions[r])}
    ensures forall x <- left :: x in j.archives ==> Looked(j, todo, left - {x}) == Looked(j, todo, left) + {VaultOf(j.archives[x])}
  {
  }

  /** Both kinds of bytes seen among some of the targets: the attempt was executed in part. */
  lemma Mixed(some: set<Loc>, places: set<Loc>, phys: Physical)
    requires some <= places && Saw(some, phys, true, true)
    ensures places != {} && Observe(places, phys).Stuck?
  {
    var l :| l in some && l in phys.Keys;
    var m :| m in some && m !in phys.Keys;
  }

  lemma HasTargets(j: Journal)
    requires j.plan.Some? && j.plan.value <= j.deletions.Keys
    ensures Targets(j) == {} <==> j.plan.value == {} && j.archives == map[]
  {
    if r :| r in j.plan.value { assert PlaceOf(j.deletions[r]) in Targets(j); }
    if x :| x in j.archives { assert VaultOf(j.archives[x]) in Targets(j); }
  }

  /** Do the planned payloads still exist? Everything gone, everything there, or an error exactly
      when some are gone and some are there. */
  method QueryPhysical(j: Journal, phys: Physical) returns (res: Result<bool>)
    requires j.plan.Some? && j.plan.value <= j.deletions.Keys
    ensures Targets(j) == {} ==> res == Ok(true)
    ensures Targets(j) != {} ==>
              match Observe(Targets(j), phys)
              case Commit => res == Ok(false)
              case RollBack => res == Ok(true)
              case _ => res == Err(RecoveryFailure)
  {
    HasTargets(j);
    if j.plan.value == {} && j.archives == map[] { return Ok(true); }
    var present, missing := false, false;
    var todo, left := j.plan.value, j.archives.Keys;
    LookedMore(j, todo, left);
    while todo != {}
      invariant todo <= j.plan.value
      invariant Saw(Looked(j, todo, left), phys, present, missing) && !(present && missing)
      decreases todo
    {
      var r :| r in todo;
      var place := PlaceOf(j.deletions[r]);
      SawMore(Looked(j, todo, left), phys, present, missing, place);
      LookedMore(j, todo, left);
      if place in phys { present := true; } else { missing := true; }
      todo := todo - {r};
      LookedMore(j, todo, left);
      if present && missing {
        Mixed(Looked(j, todo, left), Targets(j), phys);
        return Err(RecoveryFailure);
      }
    }
    while left != {}
      invariant left <= j.archives.Keys
      invariant Saw(Looked(j, todo, left), phys, present, missing) && !(present && missing)
      decreases left
    {
      var x :| x in left;
      var place := VaultOf(j.archives[x]);
      SawMore(Looked(j, todo, left), phys, present, missing, place);
      LookedMore(j, todo, left);
      if place in phys { present := true; } else { missing := true; }
      left := left - {x};
      LookedMore(j, todo, left);
      if present && missing {
        Mixed(Looked(j, todo, left), Targets(j), phys);
        return Err(RecoveryFailure);
      }
    }
    LookedMore(j, todo, left);
    return Ok(present);
  }
}
