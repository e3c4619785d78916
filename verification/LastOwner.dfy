/** The physical plan of a reclaim: which payloads the scheduled replicas are the last owners of. */
module LastOwner {
  import opened Fabric
  import opened Durable
  import opened Protocol
  import opened Reconcile

  /** Every scheduled row has its dedup row, at the same key, with at least as many references as
      there are scheduled rows of the payload. */
  ghost predicate Plannable(rows: map<ReplicaId, Replica>, dedup: map<Identity, DedupEntry>) {
    forall r <- rows ::
      && IdentityOf(rows[r]) in dedup && dedup[IdentityOf(rows[r])].key == rows[r].key
      && |RowSet(rows, IdentityOf(rows[r]))| <= dedup[IdentityOf(rows[r])].refs
  }

  datatype Scheduled = Scheduled(count: nat, representative: ReplicaId)

  /** Every tallied payload has a representative among the rows in `done`. */
  ghost predicate Represented(rows: map<ReplicaId, Replica>, done: set<ReplicaId>, tally: map<Identity, Scheduled>) {
    && done <= rows.Keys
    && (forall i <- tally :: tally[i].representative in done && IdentityOf(rows[tally[i].representative]) == i)
    && (forall r <- done :: IdentityOf(rows[r]) in tally && rows[tally[IdentityOf(rows[r])].representative].key == rows[r].key)
  }

  /** The tally of the rows in `done`: per payload their number and one of them, all at its key. */
  ghost predicate Tallied(rows: map<ReplicaId, Replica>, done: set<ReplicaId>, tally: map<Identity, Scheduled>) {
    && Represented(rows, done, tally)
    && (forall i <- tally :: tally[i].count == |RowSet(Only(rows, done), i)|)
  }

  function Tally(tally: map<Identity, Scheduled>, i: Identity, r: ReplicaId): (next: map<Identity, Scheduled>) {
    tally[i := if i in tally then tally[i].(count := tally[i].count + 1) else Scheduled(1, r)]
  }

  lemma TalliedOne(rows: map<ReplicaId, Replica>, done: set<ReplicaId>, tally: map<Identity, Scheduled>, i: Identity)
    requires Tallied(rows, done, tally) && i !in tally && done <= rows.Keys
    ensures RowSet(Only(rows, done), i) == {}
  {
    forall r ensures r !in RowSet(Only(rows, done), i) {}
  }

  lemma RepresentedMore(rows: map<ReplicaId, Replica>, done: set<ReplicaId>, tally: map<Identity, Scheduled>, r: ReplicaId)
    requires Represented(rows, done, tally) && r in rows && r !in done
    requires IdentityOf(rows[r]) in tally ==> rows[tally[IdentityOf(rows[r])].representative].key == rows[r].key
    ensures Represented(rows, done + {r}, Tally(tally, IdentityOf(rows[r]), r))
  {
  }

  lemma CountMore(rows: map<ReplicaId, Replica>, done: set<ReplicaId>, r: ReplicaId, i: Identity)
    requires r in rows && r !in done
    ensures |RowSet(Only(rows, done + {r}), i)| == |RowSet(Only(rows, done), i)| + (if IdentityOf(rows[r]) == i then 1 else 0)
  {
    CountedRow(rows, done, r, i);
    assert r !in RowSet(Only(rows, done), i);
  }

  lemma TalliedMore(rows: map<ReplicaId, Replica>, done: set<ReplicaId>, tally: map<Identity, Scheduled>, r: ReplicaId)
    requires Tallied(rows, done, tally) && r in rows && r !in done
    requires IdentityOf(rows[r]) in tally ==> rows[tally[IdentityOf(rows[r])].representative].key == rows[r].key
    ensures Tallied(rows, done + {r}, Tally(tally, IdentityOf(rows[r]), r))
  {
    var i := IdentityOf(rows[r]);
    RepresentedMore(rows, done, tally, r);
    if i !in tally { TalliedOne(rows, done, tally, i); }
    var next := Tally(tally, i, r);
    forall k <- next ensures next[k].count == |RowSet(Only(rows, done + {r}), k)| { CountMore(rows, done, r, k); }
  }

  /** Rows that agree on keys have a tally. */
  lemma TallyExists(rows: map<ReplicaId, Replica>) returns (tally: map<Identity, Scheduled>)
    requires forall r <- rows, q <- rows :: IdentityOf(rows[r]) == IdentityOf(rows[q]) ==> rows[r].key == rows[q].key
    ensures Tallied(rows, rows.Keys, tally)
  {
    tally := map[];
    var todo := rows.Keys;
    while todo != {}
      invariant todo <= rows.Keys && Tallied(rows, rows.Keys - todo, tally)
      decreases todo
    {
      var r :| r in todo;
      TalliedMore(rows, rows.Keys - todo, tally, r);
      assert rows.Keys - (todo - {r}) == (rows.Keys - todo) + {r};
      tally := Tally(tally, IdentityOf(rows[r]), r);
      todo := todo - {r};
    }
    assert rows.Keys - todo == rows.Keys;
  }

  /** Counts the scheduled rows of each payload. */
  method TallyRows(rows: map<ReplicaId, Replica>) returns (res: Result<map<Identity, Scheduled>>)
    ensures res.Ok? ==> Tallied(rows, rows.Keys, res.value)
    ensures res.Err? ==> exists r, q :: r in rows && q in rows && IdentityOf(rows[r]) == IdentityOf(rows[q]) && rows[r].key != rows[q].key
  {
    var tally: map<Identity, Scheduled> := map[];
    var todo := rows.Keys;
    while todo != {}
      invariant todo <= rows.Keys && Tallied(rows, rows.Keys - todo, tally)
      decreases todo
    {
      var r :| r in todo;
      var i := IdentityOf(rows[r]);
      if i in tally && rows[tally[i].representative].key != rows[r].key { return Err(DedupFailure); }
      TalliedMore(rows, rows.Keys - todo, tally, r);
      assert rows.Keys - (todo - {r}) == (rows.Keys - todo) + {r};
      tally := Tally(tally, i, r);
      todo := todo - {r};
    }
    assert rows.Keys - todo == rows.Keys;
    return Ok(tally);
  }

  /** Each tallied payload checked against its dedup row. */
  ghost predicate Checked(rows: map<ReplicaId, Replica>, dedup: map<Identity, DedupEntry>, tally: map<Identity, Scheduled>, i: Identity)
    requires i in tally
  {
    && i in dedup && tally[i].representative in rows && dedup[i].key == rows[tally[i].representative].key && tally[i].count <= dedup[i].refs
  }

  lemma CheckedPlannable(rows: map<ReplicaId, Replica>, dedup: map<Identity, DedupEntry>, tally: map<Identity, Scheduled>)
    requires Tallied(rows, rows.Keys, tally)
    ensures Plannable(rows, dedup) <==> forall i <- tally :: Checked(rows, dedup, tally, i)
  {
    assert Only(rows, rows.Keys) == rows;
    if Plannable(rows, dedup) {
      forall i <- tally ensures Checked(rows, dedup, tally, i) { assert tally[i].representative in rows; }
    }
  }

  function Chosen(dedup: map<Identity, DedupEntry>, tally: map<Identity, Scheduled>, ids: set<Identity>): (plan: set<ReplicaId>) {
    set i | i in ids && i in tally && i in dedup && tally[i].count == dedup[i].refs :: tally[i].representative
  }

  lemma ChosenPlan(rows: map<ReplicaId, Replica>, dedup: map<Identity, DedupEntry>, tally: map<Identity, Scheduled>)
    requires Tallied(rows, rows.Keys, tally) && Plannable(rows, dedup)
    ensures LastOwnerPlan(rows, dedup, Chosen(dedup, tally, tally.Keys))
  {
    assert Only(rows, rows.Keys) == rows;
    var plan := Chosen(dedup, tally, tally.Keys);
    forall r <- rows
      ensures |RowSet(rows, IdentityOf(rows[r]))| == dedup[IdentityOf(rows[r])].refs <==>
                exists q :: q in plan && IdentityOf(rows[q]) == IdentityOf(rows[r])
    {
      var i := IdentityOf(rows[r]);
      if tally[i].count == dedup[i].refs {
        assert tally[i].representative in plan;
      }
    }
  }

  /** Computes the last-owner plan, refusing exactly the schedules that disagree with the dedup
      table. */
  method PlanPhysical(rows: map<ReplicaId, Replica>, dedup: map<Identity, DedupEntry>) returns (res: Result<set<ReplicaId>>)
    ensures res.Ok? <==> Plannable(rows, dedup)
    ensures res.Ok? ==> LastOwnerPlan(rows, dedup, res.value)
    ensures res.Ok? ==> forall r <- rows ::
              (exists q :: q in res.value && q in rows && PlaceOf(rows[q]) == PlaceOf(rows[r]) && IdentityOf(rows[q]) == IdentityOf(rows[r]))
              <==> |RowSet(rows, IdentityOf(rows[r]))| == dedup[IdentityOf(rows[r])].refs
  {
    var tally := TallyRows(rows);
    if tally.Err? { return Err(tally.error); }
    CheckedPlannable(rows, dedup, tally.value);
    var plan: set<ReplicaId> := {};
    var todo := tally.value.Keys;
    while todo != {}
      invariant todo <= tally.value.Keys
      invariant plan == Chosen(dedup, tally.value, tally.value.Keys - todo)
      invariant forall i <- tally.value :: i !in todo ==> Checked(rows, dedup, tally.value, i)
      decreases todo
    {
      var i :| i in todo;
      var scheduled := tally.value[i];
      if i !in dedup { return Err(DedupFailure); }
      if dedup[i].key != rows[scheduled.representative].key { return Err(DedupFailure); }
      if scheduled.count > dedup[i].refs { return Err(DedupFailure); }
      assert tally.value.Keys - (todo - {i}) == (tally.value.Keys - todo) + {i};
      if scheduled.count == dedup[i].refs { plan := plan + {scheduled.representative}; }
      todo := todo - {i};
    }
    assert tally.value.Keys - todo == tally.value.Keys;
    ChosenPlan(rows, dedup, tally.value);
    return Ok(plan);
  }
}
