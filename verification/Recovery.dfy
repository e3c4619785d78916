/** The mutable store and the methods recovery runs on it. */
module Recovery {
  import opened Fabric
  import opened Durable
  import opened RecoveryWrites
  import opened Restart
  import opened Reconcile

  // ------------------------------------------------------------------
  // Orphans
  // ------------------------------------------------------------------

  lemma RepairableIffNoOrphans(d: Db, phys: Physical)
    requires DurableOk(d, phys)
    ensures Repairable(d.objects, d.replicas) <==> NoOrphans(d)
  {
    forall r <- d.replicas ensures ReplicaOk(d, phys, d.replicas[r]) {}
  }

  lemma WriteKeepsOwners(d: Db, phys: Physical, w: Write)
    requires Enabled(d, phys, w)
    ensures Apply(d, phys, w).objects.Keys == d.objects.Keys
    ensures !w.DropReplica? ==> Apply(d, phys, w).replicas == d.replicas
  {
  }

  lemma DropKeepsOrphans(d: Db, phys: Physical, a: AttemptId, r: ReplicaId)
    requires a in d.journal && JournalOk(d, phys, a) && Unfinished(d.journal[a].phase) && r in d.journal[a].deletions
    ensures NoOrphans(d.(replicas := d.replicas - {r})) <==> NoOrphans(d)
  {
    if !NoOrphans(d) {
      var q :| q in d.replicas && d.replicas[q].owner !in d.objects;
      assert q in d.replicas - {r};
    }
  }

  /** Recovery neither makes nor removes an orphan. */
  lemma WriteKeepsOrphans(d: Db, phys: Physical, w: Write)
    requires JournalsOk(d, phys) && Enabled(d, phys, w)
    ensures NoOrphans(Apply(d, phys, w)) <==> NoOrphans(d)
  {
    WriteKeepsOwners(d, phys, w);
    if w.DropReplica? {
      assert JournalOk(d, phys, w.attempt);
      DropKeepsOrphans(d, phys, w.attempt, w.replica);
    }
  }

  lemma {:induction false} RunKeepsOrphans(d: Db, phys: Physical, ws: seq<Write>, e: Db)
    requires DurableOk(d, phys) && Run(d, phys, ws, e)
    ensures NoOrphans(e) <==> NoOrphans(d)
    decreases |ws|
  {
    if ws != [] {
      WriteKeeps(d, phys, ws[0]);
      WriteKeepsOrphans(d, phys, ws[0]);
      RunKeepsOrphans(Apply(d, phys, ws[0]), phys, ws[1..], e);
    }
  }

  // ------------------------------------------------------------------
  // Runs from a sound crash state
  // ------------------------------------------------------------------

  /** `d` is on the way of recovery from the crash state `d0`. */
  ghost predicate OnTheWay(d0: Db, phys: Physical, ws: seq<Write>, d: Db) {
    DurableOk(d0, phys) && Run(d0, phys, ws, d) && DurableOk(d, phys)
  }

  lemma Depart(d: Db, phys: Physical)
    requires DurableOk(d, phys)
    ensures OnTheWay(d, phys, [], d)
  {
  }

  lemma Advance(d0: Db, phys: Physical, ws: seq<Write>, d: Db, w: Write)
    requires OnTheWay(d0, phys, ws, d) && Enabled(d, phys, w)
    ensures OnTheWay(d0, phys, ws + [w], Apply(d, phys, w))
  {
    RunSnoc(d0, phys, ws, d, w);
    WriteKeeps(d, phys, w);
  }

  lemma AdvanceBy(d0: Db, phys: Physical, ws: seq<Write>, d: Db, vs: seq<Write>, e: Db)
    requires OnTheWay(d0, phys, ws, d) && Run(d, phys, vs, e)
    ensures OnTheWay(d0, phys, ws + vs, e)
  {
    RunConcat(d0, phys, ws, d, vs, e);
    RunKeeps(d, phys, vs, e);
  }

  /** The attempt is to be committed, or to be undone. */
  ghost predicate Calls(d: Db, phys: Physical, a: AttemptId, v: Verdict) {
    DurableOk(d, phys) && a in d.journal && Decide(d.journal[a], phys) == v
  }

  lemma CallsRecord(d: Db, phys: Physical, a: AttemptId, v: Verdict)
    requires Calls(d, phys, a, v)
    ensures JournalOk(d, phys, a)
  {
  }

  // ------------------------------------------------------------------
  // Dedup repair
  // ------------------------------------------------------------------

  ghost predicate AgreesAt(m: map<Identity, DedupEntry>, n: map<Identity, DedupEntry>, i: Identity) {
    (i in m <==> i in n) && (i in m ==> m[i] == n[i])
  }

  lemma SyncIs(d: Db, e: Db, phys: Physical, exact: map<Identity, DedupEntry>, i: Identity)
    requires Exact(d.replicas, exact) && e == d.(dedup := e.dedup)
    ensures var entry := if i in exact then Some(exact[i]) else None;
            && Enabled(e, phys, SyncDedup(i, entry))
            && Apply(e, phys, SyncDedup(i, entry)) == e.(dedup := if i in exact then e.dedup[i := exact[i]] else e.dedup - {i})
  {
    assert ExactFor(d.replicas, exact, i);
  }

  ghost predicate SameElsewhere(m: map<Identity, DedupEntry>, n: map<Identity, DedupEntry>, i: Identity) {
    forall q :: q != i ==> (q in n <==> q in m) && (q in m ==> n[q] == m[q])
  }

  ghost predicate AllAgree(m: map<Identity, DedupEntry>, n: map<Identity, DedupEntry>, keys: set<Identity>) {
    forall i <- keys :: AgreesAt(m, n, i)
  }

  lemma AgreesEverywhere(m: map<Identity, DedupEntry>, n: map<Identity, DedupEntry>)
    requires forall i :: AgreesAt(m, n, i)
    ensures m == n
  {
    forall i ensures i in m <==> i in n ensures i in m ==> m[i] == n[i] { assert AgreesAt(m, n, i); }
  }

  lemma AgreeElsewhere(m: map<Identity, DedupEntry>, after: map<Identity, DedupEntry>, exact: map<Identity, DedupEntry>,
                       before: map<Identity, DedupEntry>, done: set<Identity>, todo: set<Identity>, i: Identity)
    requires SameElsewhere(m, after, i)
    requires AllAgree(m, exact, done) && AllAgree(m, before, todo) && AgreesAt(after, exact, i)
    ensures AllAgree(after, exact, done + {i}) && AllAgree(after, before, todo - {i})
  {
    forall q <- done + {i} ensures AgreesAt(after, exact, q) { if q != i { assert AgreesAt(m, exact, q); } }
    forall q <- todo - {i} ensures AgreesAt(after, before, q) { assert AgreesAt(m, before, q); }
  }

  lemma CorrectedElsewhere(m: map<Identity, DedupEntry>, exact: map<Identity, DedupEntry>, live: map<Identity, DedupEntry>, keys: set<Identity>)
    requires AllAgree(m, exact, keys) && m.Keys <= keys && live == exact - keys
    ensures forall i :: i !in live ==> AgreesAt(m, exact, i)
  {
  }

  /** The stored table is already right exactly when no stored row differs and none is missing. */
  lemma NothingWrong(d: Db, exact: map<Identity, DedupEntry>)
    requires Exact(d.replicas, exact)
    ensures Exact(d.replicas, d.dedup) <==> AllAgree(d.dedup, exact, d.dedup.Keys) && exact - d.dedup.Keys == map[]
  {
    if Exact(d.replicas, d.dedup) { ExactUnique(d.replicas, d.dedup, exact); }
    if AllAgree(d.dedup, exact, d.dedup.Keys) && exact - d.dedup.Keys == map[] {
      forall i ensures AgreesAt(d.dedup, exact, i) {
        assert i in d.dedup || i !in exact || i in exact - d.dedup.Keys;
      }
      AgreesEverywhere(d.dedup, exact);
    }
  }

  // ------------------------------------------------------------------
  // The writes of one attempt
  // ------------------------------------------------------------------

  /** Object and rows of the attempt are what its verdict asks for. */
  ghost predicate Ready(d: Db, a: AttemptId, v: Verdict)
    requires a in d.journal
  {
    var j := d.journal[a];
    && j.owner in d.objects
    && if v.Commit? then d.objects[j.owner] == ReclaimedForm(d.objects[j.owner]) && Dropped(d.replicas, d.archives, j)
       else d.objects[j.owner].state == j.prior.state && Whole(d.replicas, d.archives, j)
  }

  /** Recovery is on its way and is now settling attempt `a`. */
  ghost predicate Settling(d0: Db, phys: Physical, ws: seq<Write>, d: Db, a: AttemptId, v: Verdict) {
    OnTheWay(d0, phys, ws, d) && Calls(d, phys, a, v) && (v.Commit? || v.RollBack?)
  }

  lemma CloseReservationStep(d0: Db, phys: Physical, ws: seq<Write>, d: Db, a: AttemptId, v: Verdict)
    requires Settling(d0, phys, ws, d, a, v) && Ready(d, a, v) && a in d.reservations
    ensures var e := d.(reservations := d.reservations[a := d.reservations[a].(status := ClosedReservation(v))]);
            Settling(d0, phys, ws + [CloseReservation(a)], e, a, v) && Ready(e, a, v)
  {
    CallsRecord(d, phys, a, v);
    Advance(d0, phys, ws, d, CloseReservation(a));
  }

  lemma CloseAttemptStep(d0: Db, phys: Physical, ws: seq<Write>, d: Db, a: AttemptId, v: Verdict)
    requires Settling(d0, phys, ws, d, a, v) && Ready(d, a, v)
    ensures var e := d.(attempts := d.attempts[a := ClosedAttempt(v)]);
            Settling(d0, phys, ws + [CloseAttempt(a)], e, a, v) && Ready(e, a, v)
  {
    CallsRecord(d, phys, a, v);
    Advance(d0, phys, ws, d, CloseAttempt(a));
  }

  lemma CloseJournalStep(d0: Db, phys: Physical, ws: seq<Write>, d: Db, a: AttemptId, v: Verdict)
    requires Settling(d0, phys, ws, d, a, v) && Ready(d, a, v) && a in d.attempts && a in d.reservations
    requires d.attempts[a] == ClosedAttempt(v) && d.reservations[a].status == ClosedReservation(v)
    ensures var e := d.(journal := d.journal[a := d.journal[a].(phase := ClosedPhase(v))]);
            OnTheWay(d0, phys, ws + [CloseJournal(a)], e)
  {
    CallsRecord(d, phys, a, v);
    Advance(d0, phys, ws, d, CloseJournal(a));
  }

  function ClosedPhase(v: Verdict): (p: Phase) {
    if v.Commit? then PhaseCommitted else PhaseRolledBack
  }

  /** What the records of an attempt can be when it is to be settled. */
  lemma SettlingRecords(d: Db, phys: Physical, a: AttemptId, v: Verdict)
    requires Calls(d, phys, a, v) && (v.Commit? || v.RollBack?)
    ensures a in d.attempts && a in d.reservations && d.journal[a].owner in d.objects
    ensures d.attempts[a] == AttemptOpen || d.attempts[a] == ClosedAttempt(v)
    ensures d.reservations[a].status == ReservationOpen || d.reservations[a].status == ClosedReservation(v)
    ensures d.objects[d.journal[a].owner].generation == d.journal[a].generation
    ensures v.Commit? ==> IsPhysical(d.journal[a].phase)
    ensures v.RollBack? ==> Whole(d.replicas, d.archives, d.journal[a]) && Matches(d.replicas, d.archives, d.journal[a])
    ensures Matches(d.replicas, d.archives, d.journal[a])
  {
    CallsRecord(d, phys, a, v);
  }

  lemma SettlingObject(d: Db, phys: Physical, a: AttemptId, v: Verdict)
    requires Calls(d, phys, a, v)
    ensures d.journal[a].owner in d.objects && d.objects[d.journal[a].owner].generation == d.journal[a].generation
  {
    CallsRecord(d, phys, a, v);
  }

  lemma SettlingRow(d: Db, phys: Physical, a: AttemptId, r: ReplicaId)
    requires Calls(d, phys, a, Commit) && r in d.journal[a].deletions
    ensures r in d.replicas ==> d.replicas[r] == d.journal[a].deletions[r]
  {
    CallsRecord(d, phys, a, Commit);
  }

  lemma RestoreStep(d0: Db, phys: Physical, ws: seq<Write>, d: Db, a: AttemptId)
    requires Settling(d0, phys, ws, d, a, RollBack)
    requires d.journal[a].owner in d.objects && d.objects[d.journal[a].owner].state != d.journal[a].prior.state
    ensures var e := d.(objects := d.objects[d.journal[a].owner := d.journal[a].prior]);
            Settling(d0, phys, ws + [RestoreObject(a)], e, a, RollBack)
  {
    CallsRecord(d, phys, a, RollBack);
    Advance(d0, phys, ws, d, RestoreObject(a));
  }

  lemma RestoredReady(d: Db, phys: Physical, a: AttemptId)
    requires Calls(d, phys, a, RollBack) && d.journal[a].owner in d.objects
    requires d.objects[d.journal[a].owner].state == d.journal[a].prior.state
    ensures Ready(d, a, RollBack)
  {
    SettlingRecords(d, phys, a, RollBack);
  }

  lemma MarkStep(d0: Db, phys: Physical, ws: seq<Write>, d: Db, a: AttemptId)
    requires Settling(d0, phys, ws, d, a, Commit) && d.journal[a].owner in d.objects && Dropped(d.replicas, d.archives, d.journal[a])
    ensures var e := d.(objects := d.objects[d.journal[a].owner := ReclaimedForm(d.objects[d.journal[a].owner])]);
            Settling(d0, phys, ws + [MarkReclaimed(a)], e, a, Commit) && Ready(e, a, Commit)
  {
    CallsRecord(d, phys, a, Commit);
    Advance(d0, phys, ws, d, MarkReclaimed(a));
  }

  lemma DropRowStep(d0: Db, phys: Physical, ws: seq<Write>, d: Db, a: AttemptId, r: ReplicaId)
    requires Settling(d0, phys, ws, d, a, Commit) && r in d.journal[a].deletions
    ensures Settling(d0, phys, ws + [DropReplica(a, r)], d.(replicas := d.replicas - {r}), a, Commit)
  {
    CallsRecord(d, phys, a, Commit);
    Advance(d0, phys, ws, d, DropReplica(a, r));
  }

  lemma ReleaseRefStep(d0: Db, phys: Physical, ws: seq<Write>, d: Db, a: AttemptId, r: ReplicaId)
    requires Settling(d0, phys, ws, d, a, Commit) && r in d.journal[a].deletions && r !in d.replicas
    ensures var e := d.(dedup := Released(d.dedup, IdentityOf(d.journal[a].deletions[r])));
            Settling(d0, phys, ws + [ReleaseRef(a, r)], e, a, Commit)
  {
    CallsRecord(d, phys, a, Commit);
    Advance(d0, phys, ws, d, ReleaseRef(a, r));
  }

  lemma DropVaultStep(d0: Db, phys: Physical, ws: seq<Write>, d: Db, a: AttemptId, x: ArchiveId)
    requires Settling(d0, phys, ws, d, a, Commit) && x in d.journal[a].archives
    ensures Settling(d0, phys, ws + [DropArchive(a, x)], d.(archives := d.archives - {x}), a, Commit)
  {
    CallsRecord(d, phys, a, Commit);
    Advance(d0, phys, ws, d, DropArchive(a, x));
  }

  // ------------------------------------------------------------------
  // Putting rows back
  // ------------------------------------------------------------------

  /** Where a row says its bytes are, and what they are. */
  datatype Holding = Holding(place: Loc, content: Content, size: nat)

  function HoldingOf(row: Replica): (h: Holding) {
    Holding(PlaceOf(row), row.content, row.size)
  }

  function VaultHolding(row: Archive): (h: Holding) {
    Holding(VaultOf(row), row.content, row.size)
  }

  /** No row at the place of `row` holds anything else. */
  predicate PlaceFree<K, V>(rows: map<K, V>, row: V, holds: V -> Holding) {
    forall q <- rows :: holds(rows[q]).place == holds(row).place ==> holds(rows[q]) == holds(row)
  }

  /** Scheduled rows that are still there are unchanged, and the places of the missing ones hold
      nothing else, by a stored row or by another missing one. */
  predicate Restorable<K, V(==)>(rows: map<K, V>, scheduled: map<K, V>, holds: V -> Holding) {
    && (forall r <- scheduled :: r in rows ==> rows[r] == scheduled[r])
    && (forall r <- scheduled :: r !in rows ==> PlaceFree(scheduled + rows, scheduled[r], holds))
  }

  /** All but `todo` of the scheduled rows are back. */
  ghost predicate Restoring<K, V>(was: map<K, V>, scheduled: map<K, V>, now: map<K, V>, todo: set<K>, holds: V -> Holding) {
    && todo <= scheduled.Keys
    && now == (scheduled - todo) + was
    && (forall r :: r in scheduled && r !in todo && r in was ==> was[r] == scheduled[r])
    && (forall r :: r in scheduled && r !in todo && r !in was ==> PlaceFree(now, scheduled[r], holds))
  }

  lemma RestoredStep<K, V>(was: map<K, V>, scheduled: map<K, V>, now: map<K, V>, todo: set<K>, holds: V -> Holding, r: K)
    requires Restoring(was, scheduled, now, todo, holds) && r in todo
    requires r in now ==> now[r] == scheduled[r]
    requires r !in now ==> PlaceFree(now, scheduled[r], holds)
    ensures Restoring(was, scheduled, if r in now then now else now[r := scheduled[r]], todo - {r}, holds)
  {
    var after := if r in now then now else now[r := scheduled[r]];
    assert after == (scheduled - (todo - {r})) + was;
    forall q | q in scheduled && q !in todo - {r} && q !in was ensures PlaceFree(after, scheduled[q], holds) {
      if q != r { assert PlaceFree(now, scheduled[q], holds) && now[q] == scheduled[q]; }
    }
  }

  lemma RestoreRefused<K, V>(was: map<K, V>, scheduled: map<K, V>, now: map<K, V>, todo: set<K>, holds: V -> Holding, r: K)
    requires Restoring(was, scheduled, now, todo, holds) && r in todo
    requires (r in now && now[r] != scheduled[r]) || (r !in now && !PlaceFree(now, scheduled[r], holds))
    ensures !Restorable(was, scheduled, holds)
  {
    if r !in now {
      var q :| q in now && holds(now[q]).place == holds(scheduled[r]).place && holds(now[q]) != holds(scheduled[r]);
      assert (scheduled + was)[q] == now[q];
    }
  }

  lemma RestoreDone<K, V>(was: map<K, V>, scheduled: map<K, V>, now: map<K, V>, holds: V -> Holding)
    requires Restoring(was, scheduled, now, {}, holds)
    ensures Restorable(was, scheduled, holds) && now == scheduled + was
    ensures forall r <- scheduled :: r in now && now[r] == scheduled[r]
    ensures scheduled.Keys <= was.Keys ==> now == was
  {
    assert scheduled - {} == scheduled;
  }

  /** The journal row speaks of its own object and generation, and plans only what it schedules. */
  predicate WellIdentified(j: Journal) {
    && j.prior.generation == j.generation
    && (forall r <- j.deletions :: j.deletions[r].owner == j.owner && j.deletions[r].generation == j.generation)
    && (j.plan.Some? ==> j.plan.value <= j.deletions.Keys)
    && (forall x <- j.archives :: j.archives[x].owner == j.owner && j.archives[x].generation == j.generation)
  }

  class Store {
    var db: Db

    constructor (d: Db)
      ensures db == d
    {
      db := d;
    }

    /** One repair: the row of `i` becomes what the replicas say. */
    method SyncRow(i: Identity, entry: Option<DedupEntry>, ghost exact: map<Identity, DedupEntry>, ghost d: Db, ghost phys: Physical,
                   ghost before: seq<Write>)
      returns (ghost ws: seq<Write>)
      requires Exact(d.replicas, exact) && entry == if i in exact then Some(exact[i]) else None
      requires db == d.(dedup := db.dedup) && Run(d, phys, before, db)
      modifies this
      ensures db == d.(dedup := db.dedup) && Run(d, phys, ws, db)
      ensures AgreesAt(db.dedup, exact, i) && SameElsewhere(old(db.dedup), db.dedup, i)
    {
      SyncIs(d, db, phys, exact, i);
      RunSnoc(d, phys, before, db, SyncDedup(i, entry));
      ws := before + [SyncDedup(i, entry)];
      db := db.(dedup := if entry.None? then db.dedup - {i} else db.dedup[i := entry.value]);
    }

    /** Walks the stored rows: unreferenced ones go, wrong ones are corrected. */
    method CorrectStored(exact: map<Identity, DedupEntry>, ghost phys: Physical) returns (n: nat, live: map<Identity, DedupEntry>, ghost ws: seq<Write>)
      requires Exact(db.replicas, exact)
      modifies this
      ensures db == old(db).(dedup := db.dedup) && Run(old(db), phys, ws, db)
      ensures live == exact - old(db).dedup.Keys
      ensures AllAgree(db.dedup, exact, old(db).dedup.Keys) && db.dedup.Keys <= old(db).dedup.Keys
      ensures n == 0 <==> AllAgree(old(db).dedup, exact, old(db).dedup.Keys)
    {
      ghost var d := db;
      ws, n, live := [], 0, exact;
      var todo := db.dedup.Keys;
      while todo != {}
        invariant todo <= d.dedup.Keys
        invariant db == d.(dedup := db.dedup) && Run(d, phys, ws, db)
        invariant live == exact - (d.dedup.Keys - todo)
        invariant AllAgree(db.dedup, exact, d.dedup.Keys - todo) && AllAgree(db.dedup, d.dedup, todo)
        invariant forall i :: i !in d.dedup ==> i !in db.dedup
        invariant n == 0 <==> AllAgree(d.dedup, exact, d.dedup.Keys - todo)
        decreases todo
      {
        var i :| i in todo;
        assert AgreesAt(db.dedup, d.dedup, i) && (i in live <==> i in exact);
        assert d.dedup.Keys - (todo - {i}) == (d.dedup.Keys - todo) + {i};
        ghost var m := db.dedup;
        if i !in live {
          ws := SyncRow(i, None, exact, d, phys, ws);
          n := n + 1;
        } else if db.dedup[i] != live[i] {
          ws := SyncRow(i, Some(live[i]), exact, d, phys, ws);
          n := n + 1;
        }
        AgreeElsewhere(m, db.dedup, exact, d.dedup, d.dedup.Keys - todo, todo, i);
        live := live - {i};
        todo := todo - {i};
      }
      assert d.dedup.Keys - {} == d.dedup.Keys;
    }

    /** Recreates the rows that are missing altogether. */
    method AddMissing(exact: map<Identity, DedupEntry>, live: map<Identity, DedupEntry>, ghost phys: Physical) returns (n: nat, ghost ws: seq<Write>)
      requires Exact(db.replicas, exact) && live.Keys <= exact.Keys
      requires forall i <- live :: live[i] == exact[i]
      requires forall i :: i !in live ==> AgreesAt(db.dedup, exact, i)
      modifies this
      ensures db == old(db).(dedup := exact) && Run(old(db), phys, ws, db)
      ensures n == 0 <==> live == map[]
    {
      ghost var d := db;
      ws, n := [], 0;
      var rest := live.Keys;
      while rest != {}
        invariant rest <= live.Keys
        invariant db == d.(dedup := db.dedup) && Run(d, phys, ws, db)
        invariant forall i :: i !in rest ==> AgreesAt(db.dedup, exact, i)
        invariant n == 0 <==> rest == live.Keys
        decreases rest
      {
        var i :| i in rest;
        ws := SyncRow(i, Some(live[i]), exact, d, phys, ws);
        n := n + 1;
        rest := rest - {i};
      }
      AgreesEverywhere(db.dedup, exact);
    }

    /** Makes the dedup table the group-by of the replicas, whatever it was before, and reports how
        many rows were wrong; it refuses exactly the tables that have no such group-by, or whose
        rows have no live object, and then changes nothing. */
    method RepairDedupCounts(ghost phys: Physical) returns (res: Result<nat>, ghost ws: seq<Write>)
      modifies this
      ensures res.Ok? <==> Repairable(old(db).objects, old(db).replicas)
      ensures res.Err? ==> db == old(db)
      ensures res.Ok? ==> db == old(db).(dedup := db.dedup) && Exact(db.replicas, db.dedup)
      ensures res.Ok? ==> (res.value == 0 <==> Exact(old(db).replicas, old(db).dedup))
      ensures Run(old(db), phys, ws, db)
    {
      var counted := CountLive(db.objects, db.replicas);
      if counted.Err? { return Err(counted.error), []; }
      var exact := counted.value;
      ghost var d := db;
      ghost var vs, us;
      var n, m, live;
      n, live, vs := CorrectStored(exact, phys);
      CorrectedElsewhere(db.dedup, exact, live, d.dedup.Keys);
      ghost var e := db;
      m, us := AddMissing(exact, live, phys);
      RunConcat(d, phys, vs, e, us, db);
      NothingWrong(d, exact);
      return Ok(n + m), vs + us;
    }

    /** Closes the reservation of an attempt if it is still open. */
    method CloseReservationOf(a: AttemptId, v: Verdict, ghost d0: Db, ghost phys: Physical, ghost before: seq<Write>) returns (ghost ws: seq<Write>)
      requires a in db.journal && (v.Commit? || v.RollBack?)
      modifies this
      ensures db == old(db).(reservations := db.reservations)
      ensures Settling(d0, phys, before, old(db), a, v) && Ready(old(db), a, v) ==>
                && Settling(d0, phys, ws, db, a, v) && Ready(db, a, v)
                && a in db.reservations && db.reservations[a].status == ClosedReservation(v)
    {
      ws := before;
      if Calls(db, phys, a, v) { SettlingRecords(db, phys, a, v); }
      if a in db.reservations && db.reservations[a].status == ReservationOpen {
        if Settling(d0, phys, before, db, a, v) && Ready(db, a, v) { CloseReservationStep(d0, phys, ws, db, a, v); }
        ws := ws + [CloseReservation(a)];
        db := db.(reservations := db.reservations[a := db.reservations[a].(status := ClosedReservation(v))]);
      }
    }

    /** Records the outcome of an attempt; an outcome already recorded must be the same one. */
    method CloseAttemptOf(a: AttemptId, v: Verdict, ghost d0: Db, ghost phys: Physical, ghost before: seq<Write>)
      returns (res: Result<()>, ghost ws: seq<Write>)
      requires a in db.journal && (v.Commit? || v.RollBack?)
      modifies this
      ensures db == old(db).(attempts := db.attempts)
      ensures res.Ok? <==> a in old(db).attempts && old(db).attempts[a] in {AttemptOpen, ClosedAttempt(v)}
      ensures res.Ok? ==> a in db.attempts && db.attempts[a] == ClosedAttempt(v)
      ensures Settling(d0, phys, before, old(db), a, v) && Ready(old(db), a, v) ==>
                res.Ok? && Settling(d0, phys, ws, db, a, v) && Ready(db, a, v)
    {
      ws := before;
      if Calls(db, phys, a, v) { SettlingRecords(db, phys, a, v); }
      if a !in db.attempts { return Err(Conflict), ws; }
      if db.attempts[a] == AttemptOpen {
        if Settling(d0, phys, before, db, a, v) && Ready(db, a, v) { CloseAttemptStep(d0, phys, ws, db, a, v); }
        ws := ws + [CloseAttempt(a)];
        db := db.(attempts := db.attempts[a := ClosedAttempt(v)]);
      } else if db.attempts[a] != ClosedAttempt(v) {
        return Err(Conflict), ws;
      }
      return Ok(()), ws;
    }

    /** Closes the reservation, then the attempt, and last the journal row, so that a run cut off in
        between is taken up again. */
    method CloseRecords(a: AttemptId, v: Verdict, ghost d0: Db, ghost phys: Physical, ghost before: seq<Write>)
      returns (res: Result<()>, ghost ws: seq<Write>)
      requires a in db.journal && (v.Commit? || v.RollBack?)
      modifies this
      ensures db == old(db).(journal := db.journal, attempts := db.attempts, reservations := db.reservations)
      ensures res.Ok? ==> db.journal == old(db).journal[a := old(db).journal[a].(phase := ClosedPhase(v))]
      ensures res.Err? ==> db.journal == old(db).journal
      ensures Settling(d0, phys, before, old(db), a, v) && Ready(old(db), a, v) ==> res.Ok? && OnTheWay(d0, phys, ws, db)
    {
      ghost var good := Settling(d0, phys, before, db, a, v) && Ready(db, a, v);
      ws := CloseReservationOf(a, v, d0, phys, before);
      var recorded;
      recorded, ws := CloseAttemptOf(a, v, d0, phys, ws);
      if recorded.Err? { return recorded, ws; }
      if good {
        SettlingRecords(db, phys, a, v);
        CloseJournalStep(d0, phys, ws, db, a, v);
      }
      if !Unfinished(db.journal[a].phase) || (v.Commit? && !IsPhysical(db.journal[a].phase)) { return Err(Conflict), ws; }
      db := db.(journal := db.journal[a := db.journal[a].(phase := ClosedPhase(v))]);
      return Ok(()), ws + [CloseJournal(a)];
    }

    /** Puts scheduled replica rows back that are missing; refuses rows that changed and places that
        now hold something else. */
    method RestoreRows(j: Journal) returns (res: Result<()>)
      modifies this
      ensures db == old(db).(replicas := db.replicas)
      ensures res.Ok? <==> Restorable(old(db).replicas, j.deletions, HoldingOf)
      ensures res.Ok? ==> db.replicas == j.deletions + old(db).replicas && forall r <- j.deletions :: r in db.replicas && db.replicas[r] == j.deletions[r]
      ensures forall r <- old(db).replicas :: r in db.replicas && db.replicas[r] == old(db).replicas[r]
      ensures (forall r <- j.deletions :: r in old(db).replicas && old(db).replicas[r] == j.deletions[r]) ==> res.Ok? && db == old(db)
    {
      ghost var was := db.replicas;
      var todo := j.deletions.Keys;
      assert (j.deletions - todo) + was == was;
      while todo != {}
        invariant db == old(db).(replicas := db.replicas)
        invariant Restoring(was, j.deletions, db.replicas, todo, HoldingOf)
        decreases todo
      {
        var r :| r in todo;
        var row := j.deletions[r];
        if r in db.replicas {
          if db.replicas[r] != row {
            RestoreRefused(was, j.deletions, db.replicas, todo, HoldingOf, r);
            return Err(RecoveryFailure);
          }
        } else if exists q :: q in db.replicas && PlaceOf(db.replicas[q]) == PlaceOf(row)
                       && (db.replicas[q].content != row.content || db.replicas[q].size != row.size) {
          RestoreRefused(was, j.deletions, db.replicas, todo, HoldingOf, r);
          return Err(RecoveryFailure);
        }
        RestoredStep(was, j.deletions, db.replicas, todo, HoldingOf, r);
        if r !in db.replicas { db := db.(replicas := db.replicas[r := row]); }
        todo := todo - {r};
      }
      RestoreDone(was, j.deletions, db.replicas, HoldingOf);
      return Ok(());
    }

    /** The same for archive rows. */
    method RestoreVaults(j: Journal) returns (res: Result<()>)
      modifies this
      ensures db == old(db).(archives := db.archives)
      ensures res.Ok? <==> Restorable(old(db).archives, j.archives, VaultHolding)
      ensures res.Ok? ==> db.archives == j.archives + old(db).archives && forall x <- j.archives :: x in db.archives && db.archives[x] == j.archives[x]
      ensures forall x <- old(db).archives :: x in db.archives && db.archives[x] == old(db).archives[x]
      ensures (forall x <- j.archives :: x in old(db).archives && old(db).archives[x] == j.archives[x]) ==> res.Ok? && db == old(db)
    {
      ghost var was := db.archives;
      var todo := j.archives.Keys;
      assert (j.archives - todo) + was == was;
      while todo != {}
        invariant db == old(db).(archives := db.archives)
        invariant Restoring(was, j.archives, db.archives, todo, VaultHolding)
        decreases todo
      {
        var x :| x in todo;
        var row := j.archives[x];
        if x in db.archives {
          if db.archives[x] != row {
            RestoreRefused(was, j.archives, db.archives, todo, VaultHolding, x);
            return Err(RecoveryFailure);
          }
        } else if exists y :: y in db.archives && VaultOf(db.archives[y]) == VaultOf(row)
                       && (db.archives[y].content != row.content || db.archives[y].size != row.size) {
          RestoreRefused(was, j.archives, db.archives, todo, VaultHolding, x);
          return Err(RecoveryFailure);
        }
        RestoredStep(was, j.archives, db.archives, todo, VaultHolding, x);
        if x !in db.archives { db := db.(archives := db.archives[x := row]); }
        todo := todo - {x};
      }
      RestoreDone(was, j.archives, db.archives, VaultHolding);
      return Ok(());
    }

    /** Puts the object back if the attempt moved it. */
    method RestoreObjectOf(a: AttemptId, ghost d0: Db, ghost phys: Physical, ghost before: seq<Write>)
      returns (res: Result<()>, ghost ws: seq<Write>)
      requires a in db.journal
      modifies this
      ensures db == old(db).(objects := db.objects)
      ensures res.Ok? ==>
                var o, prior := old(db).journal[a].owner, old(db).journal[a].prior;
                db.objects == if o in old(db).objects && old(db).objects[o].state == prior.state then old(db).objects else old(db).objects[o := prior]
      ensures Settling(d0, phys, before, old(db), a, RollBack) ==>
                res.Ok? && Settling(d0, phys, ws, db, a, RollBack) && Ready(db, a, RollBack) && (NoOrphans(db) <==> NoOrphans(old(db)))
    {
      ghost var good := Settling(d0, phys, before, db, a, RollBack);
      var j := db.journal[a];
      ws := before;
      if good { SettlingObject(db, phys, a, RollBack); }
      if j.owner in db.objects {
        if db.objects[j.owner].generation != j.generation { return Err(RecoveryFailure), ws; }
        if db.objects[j.owner].state != j.prior.state {
          if good { RestoreStep(d0, phys, ws, db, a); }
          ws := ws + [RestoreObject(a)];
          db := db.(objects := db.objects[j.owner := j.prior]);
        }
      } else {
        db := db.(objects := db.objects[j.owner := j.prior]);
      }
      if good { RestoredReady(db, phys, a); }
      return Ok(()), ws;
    }

    /** Undoes an attempt whose deletions never happened: an object that had moved on is the one from
        before the attempt again, and one that had not is as it was. */
    method RollBackAttempt(a: AttemptId, ghost d0: Db, ghost phys: Physical, ghost before: seq<Write>)
      returns (res: Result<()>, ghost ws: seq<Write>)
      requires a in db.journal
      modifies this
      ensures res.Ok? ==> db.journal == old(db).journal[a := old(db).journal[a].(phase := PhaseRolledBack)]
      ensures res.Err? ==> db.journal == old(db).journal
      ensures res.Ok? ==>
                var o, prior := old(db).journal[a].owner, old(db).journal[a].prior;
                db.objects == if o in old(db).objects && old(db).objects[o].state == prior.state then old(db).objects else old(db).objects[o := prior]
      ensures Settling(d0, phys, before, old(db), a, RollBack) ==>
                OnTheWay(d0, phys, ws, db) && (res.Ok? <==> NoOrphans(old(db)))
    {
      ghost var good := Settling(d0, phys, before, db, a, RollBack);
      res, ws := RestoreObjectOf(a, d0, phys, before);
      if res.Err? { return; }
      ghost var was := db;
      if good { SettlingRecords(db, phys, a, RollBack); }
      res := RestoreRows(db.journal[a]);
      if res.Err? { return; }
      res := RestoreVaults(db.journal[a]);
      if res.Err? { return; }
      if good { RepairableIffNoOrphans(db, phys); }
      var repaired;
      ghost var vs;
      repaired, vs := RepairDedupCounts(phys);
      if good { RepairSettles(d0, phys, ws, was, vs, db, a); }
      ws := ws + vs;
      if repaired.Err? { return Err(RecoveryFailure), ws; }
      res, ws := CloseRecords(a, RollBack, d0, phys, ws);
    }

    /** Drops the scheduled replica rows and releases their references, whether or not the crashed
        process had got that far. */
    method DropRows(a: AttemptId, ghost d0: Db, ghost phys: Physical, ghost before: seq<Write>) returns (res: Result<()>, ghost ws: seq<Write>)
      requires a in db.journal
      modifies this
      ensures db == old(db).(replicas := db.replicas, dedup := db.dedup)
      ensures res.Ok? ==> db.replicas == old(db).replicas - old(db).journal[a].deletions.Keys
      ensures Settling(d0, phys, before, old(db), a, Commit) ==> res.Ok? && Settling(d0, phys, ws, db, a, Commit)
    {
      var j := db.journal[a];
      ws := before;
      var todo := j.deletions.Keys;
      while todo != {}
        invariant todo <= j.deletions.Keys
        invariant db == old(db).(replicas := db.replicas, dedup := db.dedup)
        invariant db.replicas == old(db).replicas - (j.deletions.Keys - todo)
        invariant Settling(d0, phys, before, old(db), a, Commit) ==> Settling(d0, phys, ws, db, a, Commit)
        decreases todo
      {
        var r :| r in todo;
        assert old(db).replicas - (j.deletions.Keys - todo) - {r} == old(db).replicas - (j.deletions.Keys - (todo - {r}));
        res, ws := DropRowOf(a, r, d0, phys, ws);
        if res.Err? { return; }
        todo := todo - {r};
      }
      assert j.deletions.Keys - {} == j.deletions.Keys;
      return Ok(()), ws;
    }

    /** Drops one scheduled row, whatever of it the crashed process had already done. */
    method DropRowOf(a: AttemptId, r: ReplicaId, ghost d0: Db, ghost phys: Physical, ghost before: seq<Write>)
      returns (res: Result<()>, ghost ws: seq<Write>)
      requires a in db.journal && r in db.journal[a].deletions
      modifies this
      ensures db == old(db).(replicas := db.replicas, dedup := db.dedup)
      ensures res.Ok? ==> db.replicas == old(db).replicas - {r}
      ensures res.Err? ==> db == old(db)
      ensures Settling(d0, phys, before, old(db), a, Commit) ==> res.Ok? && Settling(d0, phys, ws, db, a, Commit)
    {
      ghost var good := Settling(d0, phys, before, db, a, Commit);
      var row := db.journal[a].deletions[r];
      ws := before;
      if good { SettlingRow(db, phys, a, r); }
      if r in db.replicas && db.replicas[r] != row.(size := db.replicas[r].size, valid := db.replicas[r].valid) {
        return Err(RecoveryFailure), ws;
      }
      if good { DropRowStep(d0, phys, ws, db, a, r); }
      ws := ws + [DropReplica(a, r)];
      db := db.(replicas := db.replicas - {r});
      if good { ReleaseRefStep(d0, phys, ws, db, a, r); }
      ws := ws + [ReleaseRef(a, r)];
      db := db.(dedup := Released(db.dedup, IdentityOf(row)));
      return Ok(()), ws;
    }

    method DropVaults(a: AttemptId, ghost d0: Db, ghost phys: Physical, ghost before: seq<Write>) returns (res: Result<()>, ghost ws: seq<Write>)
      requires a in db.journal
      modifies this
      ensures db == old(db).(archives := db.archives)
      ensures res.Ok? ==> db.archives == old(db).archives - old(db).journal[a].archives.Keys
      ensures Settling(d0, phys, before, old(db), a, Commit) ==> res.Ok? && Settling(d0, phys, ws, db, a, Commit)
    {
      var j := db.journal[a];
      ws := before;
      var todo := j.archives.Keys;
      while todo != {}
        invariant todo <= j.archives.Keys
        invariant db == old(db).(archives := db.archives)
        invariant db.archives == old(db).archives - (j.archives.Keys - todo)
        invariant Settling(d0, phys, before, old(db), a, Commit) ==> Settling(d0, phys, ws, db, a, Commit)
        decreases todo
      {
        var x :| x in todo;
        var row := j.archives[x];
        if Calls(db, phys, a, Commit) { SettlingRecords(db, phys, a, Commit); }
        if x in db.archives && db.archives[x] != row.(size := db.archives[x].size) { return Err(RecoveryFailure), ws; }
        if Settling(d0, phys, ws, db, a, Commit) { DropVaultStep(d0, phys, ws, db, a, x); }
        ws := ws + [DropArchive(a, x)];
        assert old(db).archives - (j.archives.Keys - todo) - {x} == old(db).archives - (j.archives.Keys - (todo - {x}));
        db := db.(archives := db.archives - {x});
        todo := todo - {x};
      }
      assert j.archives.Keys - {} == j.archives.Keys;
      return Ok(()), ws;
    }

    /** Drops everything the attempt scheduled. */
    method DropScheduled(a: AttemptId, ghost d0: Db, ghost phys: Physical, ghost before: seq<Write>) returns (res: Result<()>, ghost ws: seq<Write>)
      requires a in db.journal
      modifies this
      ensures db == old(db).(replicas := db.replicas, dedup := db.dedup, archives := db.archives)
      ensures res.Ok? ==> Dropped(db.replicas, db.archives, db.journal[a])
      ensures Settling(d0, phys, before, old(db), a, Commit) ==> res.Ok? && Settling(d0, phys, ws, db, a, Commit)
    {
      res, ws := DropRows(a, d0, phys, before);
      if res.Err? { return; }
      res, ws := DropVaults(a, d0, phys, ws);
    }

    /** Marks the object RECLAIMED and clears what it no longer has. */
    method MarkReclaimedOf(a: AttemptId, ghost d0: Db, ghost phys: Physical, ghost before: seq<Write>) returns (ghost ws: seq<Write>)
      requires a in db.journal && db.journal[a].owner in db.objects
      modifies this
      ensures var o := old(db).journal[a].owner;
              db == old(db).(objects := old(db).objects[o := old(db).objects[o].(state := Reclaimed, replicationCount := 0, physicalSize := 0, compressedSize := None)])
      ensures Settling(d0, phys, before, old(db), a, Commit) && Dropped(old(db).replicas, old(db).archives, old(db).journal[a]) ==>
                Settling(d0, phys, ws, db, a, Commit) && Ready(db, a, Commit)
    {
      ws := before;
      var o := db.journal[a].owner;
      var current := db.objects[o];
      if !(current.state == Reclaimed && current.replicationCount == 0 && current.physicalSize == 0 && current.compressedSize.None?) {
        if Settling(d0, phys, before, db, a, Commit) && Dropped(db.replicas, db.archives, db.journal[a]) { MarkStep(d0, phys, ws, db, a); }
        ws := ws + [MarkReclaimed(a)];
        db := db.(objects := db.objects[o := ReclaimedForm(current)]);
      }
    }

    /** Finishes an attempt whose deletions all happened: the object is RECLAIMED and counts nothing
        any more, and is otherwise as it was. */
    method CommitAttempt(a: AttemptId, ghost d0: Db, ghost phys: Physical, ghost before: seq<Write>)
      returns (res: Result<()>, ghost ws: seq<Write>)
      requires a in db.journal
      modifies this
      ensures res.Ok? ==> db.journal == old(db).journal[a := old(db).journal[a].(phase := PhaseCommitted)]
      ensures res.Err? ==> db.journal == old(db).journal
      ensures res.Ok? ==>
                var o := old(db).journal[a].owner;
                && o in old(db).objects
                && db.objects == old(db).objects[o := old(db).objects[o].(state := Reclaimed, replicationCount := 0, physicalSize := 0, compressedSize := None)]
      ensures Settling(d0, phys, before, old(db), a, Commit) ==> res.Ok? && OnTheWay(d0, phys, ws, db)
    {
      ghost var good := Settling(d0, phys, before, db, a, Commit);
      var j := db.journal[a];
      if good { SettlingObject(db, phys, a, Commit); }
      if j.owner !in db.objects || db.objects[j.owner].generation != j.generation { return Err(RecoveryFailure), before; }
      res, ws := DropScheduled(a, d0, phys, before);
      if res.Err? { return; }
      ws := MarkReclaimedOf(a, d0, phys, ws);
      res, ws := CloseRecords(a, Commit, d0, phys, ws);
    }

    /** Settles one open attempt, or leaves its journal row as it is and reports why. */
    method ReconcileEntry(a: AttemptId, phys: Physical, ghost d0: Db, ghost before: seq<Write>)
      returns (res: Result<Verdict>, ghost ws: seq<Write>)
      requires a in db.journal && Unfinished(db.journal[a].phase)
      modifies this
      ensures match res
              case Ok(v) => (v.Commit? || v.RollBack?) && v == Decide(old(db).journal[a], phys)
                            && db.journal == old(db).journal[a := Resolved(old(db).journal[a], phys)]
              case Err(_) => db.journal == old(db).journal
      ensures OnTheWay(d0, phys, before, old(db)) ==>
                && OnTheWay(d0, phys, ws, db)
                && (Decide(old(db).journal[a], phys).Commit? ==> res.Ok?)
                && (Decide(old(db).journal[a], phys).RollBack? ==> (res.Ok? <==> NoOrphans(old(db))))
    {
      ws := before;
      if OnTheWay(d0, phys, before, db) { Identified(db, phys, a); }
      res := Classify(db.journal[a], phys);
      if res.Err? { return; }
      var done;
      if res.value.Commit? {
        done, ws := CommitAttempt(a, d0, phys, before);
      } else {
        done, ws := RollBackAttempt(a, d0, phys, before);
      }
      if done.Err? { res := Err(RecoveryFailure); }
    }

    /** Marks attempts FAILED whose reservation ran out and whose journal row cannot be open. */
    method ExpireReservations(now: int, ghost phys: Physical) returns (res: Result<nat>)
      modifies this
      ensures DurableOk(old(db), phys) ==> res == Ok(0) && db == old(db)
    {
      ghost var good := DurableOk(db, phys);
      var expired := 0;
      var todo := set a | a in db.reservations && db.reservations[a].status == ReservationOpen;
      while todo != {}
        invariant todo <= set a | a in old(db).reservations && old(db).reservations[a].status == ReservationOpen
        invariant good ==> db == old(db) && expired == 0
        decreases todo
      {
        var a :| a in todo;
        todo := todo - {a};
        if good { OpenHasJournal(db, phys, a); }
        if a in db.reservations && db.reservations[a].expiresAt <= now && !(a in db.journal && Unfinished(db.journal[a].phase)) {
          var o := db.reservations[a].owner;
          if o in db.objects && db.objects[o].state == ReclaimPending {
            db := db.(objects := db.objects[o := db.objects[o].(state := Failed)]);
          }
          db := db.(reservations := db.reservations[a := db.reservations[a].(status := ReservationExpired)]);
          if a !in db.attempts || db.attempts[a] !in {AttemptOpen, AttemptFailed} { return Err(Conflict); }
          db := db.(attempts := db.attempts[a := AttemptFailed]);
          expired := expired + 1;
        }
      }
      return Ok(expired);
    }

    /** Settles the open attempts one after the other. */
    method SweepJournal(phys: Physical) returns (report: Report, ghost open: set<AttemptId>, ghost ws: seq<Write>)
      modifies this
      ensures open == OpenAttempts(old(db))
      ensures Sweeping(old(db), db, phys, {}, report)
      ensures DurableOk(old(db), phys) ==> OnTheWay(old(db), phys, ws, db) && (NoOrphans(db) <==> NoOrphans(old(db)))
      ensures DurableOk(old(db), phys) && NoOrphans(old(db)) ==> Swept(old(db), phys, open, report)
    {
      ghost var d0 := db;
      ghost var good := DurableOk(db, phys);
      report := Report({}, {}, {}, 0, 0);
      var todo := OpenAttempts(db);
      open, ws := todo, [];
      if good { Depart(db, phys); }
      while todo != {}
        invariant todo <= open
        invariant Sweeping(d0, db, phys, todo, report)
        invariant good ==> OnTheWay(d0, phys, ws, db) && (NoOrphans(db) <==> NoOrphans(d0))
        invariant good && NoOrphans(d0) ==> Swept(d0, phys, open - todo, report)
        decreases todo
      {
        var a :| a in todo;
        ghost var d := db;
        var settled;
        settled, ws := ReconcileEntry(a, phys, d0, ws);
        if good { RunKeepsOrphans(d0, phys, ws, db); }
        SweepStep(d0, d, db, phys, todo, report, a, settled);
        if good && NoOrphans(d0) { SweptStep(d0, phys, open, todo, report, a, settled); }
        report := Noted(report, a, settled);
        todo := todo - {a};
      }
      assert open - {} == open;
    }

    /** Recovery. From every crash state it only ever makes recovery writes; it succeeds exactly when
        no replica row is an orphan; and then it has reached the one outcome the crash state
        determines, committing, undoing and reporting exactly the attempts it should. */
    method ReconcileStore(now: int, phys: Physical) returns (res: Result<Report>, ghost ws: seq<Write>)
      modifies this
      ensures DurableOk(old(db), phys) ==> Run(old(db), phys, ws, db) && (res.Ok? <==> NoOrphans(old(db)))
      ensures DurableOk(old(db), phys) && res.Ok? ==>
                && Complete(db, phys) && IsOutcome(old(db), phys, db)
                && res.value.committed == Called(old(db), phys, Commit)
                && res.value.rolledBack == Called(old(db), phys, RollBack)
                && res.value.errors == Called(old(db), phys, Stuck)
                && res.value.abandoned == 0
    {
      ghost var d0 := db;
      ghost var good := DurableOk(db, phys);
      var report;
      ghost var open;
      report, open, ws := SweepJournal(phys);
      var expired := ExpireReservations(now, phys);
      if expired.Err? { return Err(expired.error), ws; }
      if good { RepairableIffNoOrphans(db, phys); }
      ghost var was := db;
      var repaired;
      ghost var vs;
      repaired, vs := RepairDedupCounts(phys);
      if good { AdvanceBy(d0, phys, ws, was, vs, db); }
      if repaired.Err? { return Err(repaired.error), ws + vs; }
      if good { SweptComplete(d0, phys, ws + vs, db, report); }
      return Ok(report.(abandoned := expired.value, repairs := repaired.value)), ws + vs;
    }
  }

  function OpenAttempts(d: Db): (open: set<AttemptId>) {
    set a | a in d.journal && Unfinished(d.journal[a].phase)
  }

  function Noted(report: Report, a: AttemptId, settled: Result<Verdict>): (after: Report) {
    if settled.Ok? && settled.value.Commit? then report.(committed := report.committed + {a})
    else if settled.Ok? then report.(rolledBack := report.rolledBack + {a})
    else report.(errors := report.errors + {a})
  }

  /** What settling one attempt did to the journal. */
  ghost predicate SettledOne(d: Db, e: Db, phys: Physical, a: AttemptId, settled: Result<Verdict>) {
    && a in d.journal
    && match settled
       case Ok(v) => (v.Commit? || v.RollBack?) && v == Decide(d.journal[a], phys) && e.journal == d.journal[a := Resolved(d.journal[a], phys)]
       case Err(_) => e.journal == d.journal
  }

  lemma SweepStep(d0: Db, d: Db, e: Db, phys: Physical, todo: set<AttemptId>, report: Report, a: AttemptId, settled: Result<Verdict>)
    requires Sweeping(d0, d, phys, todo, report) && a in todo && SettledOne(d, e, phys, a, settled)
    ensures Sweeping(d0, e, phys, todo - {a}, Noted(report, a, settled))
  {
  }

  lemma SweptStep(d0: Db, phys: Physical, open: set<AttemptId>, todo: set<AttemptId>, report: Report, a: AttemptId, settled: Result<Verdict>)
    requires Swept(d0, phys, open - todo, report) && a in todo && todo <= open && a in d0.journal
    requires settled.Ok? ==> settled.value == Decide(d0.journal[a], phys)
    requires settled.Ok? <==> Decided(d0.journal[a], phys)
    ensures Swept(d0, phys, open - (todo - {a}), Noted(report, a, settled))
  {
    assert open - (todo - {a}) == (open - todo) + {a};
  }

  datatype Report = Report(committed: set<AttemptId>, rolledBack: set<AttemptId>, errors: set<AttemptId>, abandoned: nat, repairs: nat)

  /** The attempts of a crash state that call for a verdict. */
  function Called(d: Db, phys: Physical, v: Verdict): (some: set<AttemptId>) {
    set a | a in d.journal && Decide(d.journal[a], phys) == v
  }

  /** Rows not swept yet are as they were; swept ones are settled or as they were. */
  ghost predicate Sweeping(d0: Db, d: Db, phys: Physical, todo: set<AttemptId>, report: Report) {
    && d.journal.Keys == d0.journal.Keys
    && (forall a <- d0.journal :: d.journal[a] == d0.journal[a]
          || (a in report.committed + report.rolledBack && a !in todo && d.journal[a] == Resolved(d0.journal[a], phys)))
    && (forall a <- report.committed + report.rolledBack :: a in d0.journal && d.journal[a] == Resolved(d0.journal[a], phys))
  }

  /** The swept attempts are reported under what their verdict was. */
  ghost predicate Swept(d0: Db, phys: Physical, done: set<AttemptId>, report: Report) {
    && report.committed == done * Called(d0, phys, Commit)
    && report.rolledBack == done * Called(d0, phys, RollBack)
    && report.errors == done - Called(d0, phys, Commit) - Called(d0, phys, RollBack)
  }

  lemma OpenHasJournal(d: Db, phys: Physical, a: AttemptId)
    requires DurableOk(d, phys) && a in d.reservations && d.reservations[a].status == ReservationOpen
    ensures a in d.journal && Unfinished(d.journal[a].phase)
  {
    assert JournalOk(d, phys, a);
  }

  lemma Identified(d: Db, phys: Physical, a: AttemptId)
    requires DurableOk(d, phys) && a in d.journal
    ensures WellIdentified(d.journal[a])
  {
    assert JournalOk(d, phys, a);
  }

  lemma SweptReports(d0: Db, phys: Physical, report: Report)
    requires Swept(d0, phys, OpenAttempts(d0), report)
    ensures report.committed == Called(d0, phys, Commit) && report.rolledBack == Called(d0, phys, RollBack) && report.errors == Called(d0, phys, Stuck)
  {
    assert Called(d0, phys, Commit) <= OpenAttempts(d0) && Called(d0, phys, RollBack) <= OpenAttempts(d0);
    forall a ensures a in report.errors <==> a in Called(d0, phys, Stuck) {
      if a in OpenAttempts(d0) { assert !Decide(d0.journal[a], phys).Settled?; }
    }
  }

  lemma SweptDecided(d0: Db, d: Db, phys: Physical, report: Report, a: AttemptId)
    requires Sweeping(d0, d, phys, {}, report) && a in d0.journal
    requires report.committed == Called(d0, phys, Commit) && report.rolledBack == Called(d0, phys, RollBack)
    ensures !Decided(d.journal[a], phys)
  {
    if Decided(d0.journal[a], phys) { assert a in report.committed + report.rolledBack; }
  }

  lemma SweptComplete(d0: Db, phys: Physical, ws: seq<Write>, d: Db, report: Report)
    requires OnTheWay(d0, phys, ws, d) && Sweeping(d0, d, phys, {}, report) && Swept(d0, phys, OpenAttempts(d0), report)
    requires Exact(d.replicas, d.dedup)
    ensures Complete(d, phys) && IsOutcome(d0, phys, d)
    ensures report.committed == Called(d0, phys, Commit) && report.rolledBack == Called(d0, phys, RollBack) && report.errors == Called(d0, phys, Stuck)
  {
    SweptReports(d0, phys, report);
    forall a <- d.journal ensures !Decided(d.journal[a], phys) { SweptDecided(d0, d, phys, report, a); }
    RunReachesOutcome(d0, phys, ws, d);
  }

  /** What to do with an open attempt: the journal decides before anything physical was announced,
      physical truth afterwards. */
  method Classify(j: Journal, phys: Physical) returns (res: Result<Verdict>)
    requires Unfinished(j.phase)
    ensures res.Ok? ==> res.value == Decide(j, phys) && Decided(j, phys)
    ensures WellIdentified(j) ==> (res.Ok? <==> Decided(j, phys))
  {
    if !WellIdentified(j) || IsPhysical(j.phase) != j.plan.Some? { return Err(RecoveryFailure); }
    if !IsPhysical(j.phase) { return Ok(RollBack); }
    HasTargets(j);
    if j.plan.value == {} && j.archives == map[] {
      return Ok(if j.phase == PhysicalDone then Commit else RollBack);
    }
    var present := QueryPhysical(j, phys);
    if present.Err? { return Err(RecoveryFailure); }
    return Ok(if present.value then RollBack else Commit);
  }

  lemma RepairSettles(d0: Db, phys: Physical, ws: seq<Write>, d: Db, vs: seq<Write>, e: Db, a: AttemptId)
    requires Settling(d0, phys, ws, d, a, RollBack) && Ready(d, a, RollBack) && Run(d, phys, vs, e) && e == d.(dedup := e.dedup)
    ensures Settling(d0, phys, ws + vs, e, a, RollBack) && Ready(e, a, RollBack)
  {
    AdvanceBy(d0, phys, ws, d, vs, e);
  }
}
