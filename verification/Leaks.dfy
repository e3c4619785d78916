/** What operations free: a reclaim deletes exactly the payloads nobody else refers to, and no
    operation that has ended, or been taken back, leaves bytes behind that no row refers to. */
module Leaks {
  import opened Fabric
  import opened Durable
  import opened RecoveryWrites
  import opened Protocol
  import opened Invariant
  import opened Locality
  import opened CreateSteps
  import opened ReclaimSteps
  import opened PhysicalSteps
  import opened OtherSteps
  import opened Safety
  import opened Survival
  import opened Creation
  import Progress

  // ------------------------------------------------------------------
  // The plan, on the replica table
  // ------------------------------------------------------------------

  /** Every replica row at `l` belongs to `o`. */
  ghost predicate OnlyOwner(replicas: map<ReplicaId, Replica>, o: ObjectId, l: Loc) {
    forall q <- replicas :: PlaceOf(replicas[q]) == l ==> replicas[q].owner == o
  }

  /** A reclaim that starts deleting aims at the place of a scheduled row exactly when all rows there
      are its object's, and at all of its object's archives: nothing that is shared, and everything
      that is not. */
  lemma PlanIsLastOwner(s: State, o: ObjectId, plan: set<ReplicaId>)
    requires Reachable(s) && CanStartPhysical(s, o, plan)
    ensures var j := DoStartPhysical(s, o, plan).db.journal[s.procs[o].attempt];
            && s.procs[o].rows == RowsOf(s.db, o) && s.procs[o].vaults == VaultsOf(s.db, o)
            && (forall r <- s.db.replicas :: s.db.replicas[r].owner == o ==>
                  (PlaceOf(s.db.replicas[r]) in Targets(j) <==> OnlyOwner(s.db.replicas, o, PlaceOf(s.db.replicas[r]))))
            && (forall x <- s.db.archives :: s.db.archives[x].owner == o ==> VaultOf(s.db.archives[x]) in Targets(j))
  {
    ReachableInv(s);
    PlanIsLastOwnerNow(s, o, plan);
    AimsAt(s.db, o, DoStartPhysical(s, o, plan).db.journal[s.procs[o].attempt], plan);
  }

  function VaultPlaces(vaults: map<ArchiveId, Archive>): (places: set<Loc>) {
    set x | x in vaults :: VaultOf(vaults[x])
  }

  lemma AimsAt(d: Db, o: ObjectId, j: Journal, plan: set<ReplicaId>)
    requires Targets(j) == PlanPlaces(RowsOf(d, o), plan) + VaultPlaces(VaultsOf(d, o))
    requires forall r <- d.replicas :: d.replicas[r].owner == o ==>
               (PlaceOf(d.replicas[r]) in PlanPlaces(RowsOf(d, o), plan) <==> OnlyOwner(d.replicas, o, PlaceOf(d.replicas[r])))
    ensures forall r <- d.replicas :: d.replicas[r].owner == o ==>
              (PlaceOf(d.replicas[r]) in Targets(j) <==> OnlyOwner(d.replicas, o, PlaceOf(d.replicas[r])))
    ensures forall x <- d.archives :: d.archives[x].owner == o ==> VaultOf(d.archives[x]) in Targets(j)
  {
    forall x <- d.archives | d.archives[x].owner == o ensures VaultOf(d.archives[x]) in Targets(j) {
      assert x in VaultsOf(d, o) && VaultsOf(d, o)[x] == d.archives[x];
    }
    forall r <- d.replicas ensures PlaceOf(d.replicas[r]) !in VaultPlaces(VaultsOf(d, o)) {}
  }

  lemma PlanIsLastOwnerNow(s: State, o: ObjectId, plan: set<ReplicaId>)
    requires Inv(s) && CanStartPhysical(s, o, plan)
    ensures s.procs[o].rows == RowsOf(s.db, o) && s.procs[o].vaults == VaultsOf(s.db, o)
    ensures var j := DoStartPhysical(s, o, plan).db.journal[s.procs[o].attempt];
            Targets(j) == PlanPlaces(s.procs[o].rows, plan) + VaultPlaces(s.procs[o].vaults)
    ensures forall r <- s.db.replicas :: s.db.replicas[r].owner == o ==>
              (PlaceOf(s.db.replicas[r]) in PlanPlaces(s.procs[o].rows, plan) <==> OnlyOwner(s.db.replicas, o, PlaceOf(s.db.replicas[r])))
  {
    OwnProcOk(s, o);
    assert JournalOk(s.db, s.phys, s.procs[o].attempt);
    ScheduledRows(s, o);
    ScheduledVaults(s, o);
    PlansLastOwners(s, o, plan);
    StartTargets(s, o, plan);
  }

  lemma PlansLastOwners(s: State, o: ObjectId, plan: set<ReplicaId>)
    requires LiveOk(s) && RowsOk(s.db, s.phys) && KeysAgree(s.db.replicas) && CanStartPhysical(s, o, plan) && ReclaimOk(s, o, s.procs[o])
    requires s.db.journal[s.procs[o].attempt].deletions == s.procs[o].rows == RowsOf(s.db, o)
    requires Matches(s.db.replicas, s.db.archives, s.db.journal[s.procs[o].attempt])
    requires Whole(s.db.replicas, s.db.archives, s.db.journal[s.procs[o].attempt])
    ensures forall r <- s.db.replicas :: s.db.replicas[r].owner == o ==>
              (PlaceOf(s.db.replicas[r]) in PlanPlaces(s.procs[o].rows, plan) <==> OnlyOwner(s.db.replicas, o, PlaceOf(s.db.replicas[r])))
  {
    forall r <- s.db.replicas | s.db.replicas[r].owner == o
      ensures PlaceOf(s.db.replicas[r]) in PlanPlaces(s.procs[o].rows, plan) <==> OnlyOwner(s.db.replicas, o, PlaceOf(s.db.replicas[r]))
    {
      PlannedIff(s, o, plan, r);
    }
  }

  lemma ScheduledVaults(s: State, o: ObjectId)
    requires Journaled(s, o) && JournalOk(s.db, s.phys, s.procs[o].attempt) && ReclaimOk(s, o, s.procs[o]) && s.procs[o].pc.Locked?
    ensures s.procs[o].vaults == VaultsOf(s.db, o)
  {
  }

  function PlanPlaces(rows: map<ReplicaId, Replica>, plan: set<ReplicaId>): (places: set<Loc>) {
    set q | q in plan && q in rows :: PlaceOf(rows[q])
  }

  lemma StartTargets(s: State, o: ObjectId, plan: set<ReplicaId>)
    requires CanStartPhysical(s, o, plan) && ReclaimOk(s, o, s.procs[o])
    ensures var j := DoStartPhysical(s, o, plan).db.journal[s.procs[o].attempt];
            Targets(j) == PlanPlaces(s.procs[o].rows, plan) + VaultPlaces(s.procs[o].vaults)
  {
  }

  lemma PlannedIff(s: State, o: ObjectId, plan: set<ReplicaId>, r: ReplicaId)
    requires LiveOk(s) && RowsOk(s.db, s.phys) && KeysAgree(s.db.replicas) && CanStartPhysical(s, o, plan) && ReclaimOk(s, o, s.procs[o])
    requires s.db.journal[s.procs[o].attempt].deletions == s.procs[o].rows == RowsOf(s.db, o)
    requires Matches(s.db.replicas, s.db.archives, s.db.journal[s.procs[o].attempt])
    requires Whole(s.db.replicas, s.db.archives, s.db.journal[s.procs[o].attempt])
    requires r in s.db.replicas && s.db.replicas[r].owner == o
    ensures PlaceOf(s.db.replicas[r]) in PlanPlaces(s.procs[o].rows, plan) <==> OnlyOwner(s.db.replicas, o, PlaceOf(s.db.replicas[r]))
  {
    var l := PlaceOf(s.db.replicas[r]);
    if l in PlanPlaces(s.procs[o].rows, plan) {
      var q :| q in plan && q in s.procs[o].rows && PlaceOf(s.procs[o].rows[q]) == l;
      forall x <- s.db.replicas | PlaceOf(s.db.replicas[x]) == l ensures s.db.replicas[x].owner == o { PlanOwnsPlace(s, o, plan, q, x); }
    }
    if OnlyOwner(s.db.replicas, o, l) { LastOwnerPlanned(s, o, plan, r); }
  }

  lemma LastOwnerPlanned(s: State, o: ObjectId, plan: set<ReplicaId>, r: ReplicaId)
    requires LiveOk(s) && KeysAgree(s.db.replicas) && CanStartPhysical(s, o, plan) && ReclaimOk(s, o, s.procs[o])
    requires s.procs[o].rows == RowsOf(s.db, o)
    requires r in s.db.replicas && s.db.replicas[r].owner == o && OnlyOwner(s.db.replicas, o, PlaceOf(s.db.replicas[r]))
    ensures PlaceOf(s.db.replicas[r]) in PlanPlaces(s.procs[o].rows, plan)
  {
    var rows := s.procs[o].rows;
    var i := IdentityOf(s.db.replicas[r]);
    assert i == IdentityOf(rows[r]) && i in Identities(rows);
    CountsNow(s, o, i);
    AllMine(s.db, o, r);
    var q :| q in plan && IdentityOf(rows[q]) == i;
    assert PlaceOf(rows[q]) == PlaceOf(s.db.replicas[r]);
  }

  lemma AllMine(d: Db, o: ObjectId, r: ReplicaId)
    requires KeysAgree(d.replicas) && r in d.replicas && OnlyOwner(d.replicas, o, PlaceOf(d.replicas[r]))
    ensures RowSet(RowsOf(d, o), IdentityOf(d.replicas[r])) == RowSet(d.replicas, IdentityOf(d.replicas[r]))
  {
    forall q | q in RowSet(d.replicas, IdentityOf(d.replicas[r])) ensures d.replicas[q].owner == o {
      assert PlaceOf(d.replicas[q]) == PlaceOf(d.replicas[r]);
    }
  }

  // ------------------------------------------------------------------
  // What a deleting reclaim shares with others
  // ------------------------------------------------------------------

  predicate Physical(pc: ReclaimPc) {
    pc.Deleting? || pc.Dropping? || pc.Releasing? || pc.Closing?
  }

  ghost predicate OthersAt(replicas: map<ReplicaId, Replica>, o: ObjectId, l: Loc) {
    exists q :: q in replicas && replicas[q].owner != o && PlaceOf(replicas[q]) == l
  }

  /** A scheduled row's place is a target, or somebody else has a row there; and as long as the
      payload is counted it is at that place. */
  ghost predicate RowShared(d: Db, o: ObjectId, p: Proc, r: ReplicaId)
    requires p.Reclaim? && p.attempt in d.journal && r in p.rows
  {
    && (PlaceOf(p.rows[r]) in Targets(d.journal[p.attempt]) || OthersAt(d.replicas, o, PlaceOf(p.rows[r])))
    && (IdentityOf(p.rows[r]) in d.dedup ==> d.dedup[IdentityOf(p.rows[r])].key == p.rows[r].key)
  }

  ghost predicate Shared(d: Db, o: ObjectId, p: Proc) {
    p.Reclaim? && Physical(p.pc) ==>
      && p.attempt in d.journal
      && (forall r <- p.rows :: RowShared(d, o, p, r))
      && (p.pc.Releasing? ==> p.pc.owed in Identities(p.rows))
  }

  ghost predicate AllShared(s: State) {
    forall o <- s.procs :: Shared(s.db, o, s.procs[o])
  }

  /** What is still counted is still at its place. */
  ghost predicate KeysStay(m: map<Identity, DedupEntry>, n: map<Identity, DedupEntry>, some: set<Identity>) {
    forall i <- some :: i in n ==> i in m && n[i].key == m[i].key
  }

  /** What must not change for a reclaim to share what it shared. */
  ghost predicate LeavesShared(d: Db, e: Db, o: ObjectId, p: Proc)
    requires p.Reclaim?
  {
    && (p.attempt in d.journal ==> p.attempt in e.journal && Targets(e.journal[p.attempt]) == Targets(d.journal[p.attempt]))
    && KeysStay(d.dedup, e.dedup, Identities(p.rows))
    && (forall x <- d.replicas :: d.replicas[x].owner != o && IdentityOf(d.replicas[x]) in Identities(p.rows) ==>
          x in e.replicas && e.replicas[x] == d.replicas[x])
  }

  ghost predicate KeysAreContents(d: Db, rows: map<ReplicaId, Replica>) {
    && (forall r <- rows :: rows[r].key.content == rows[r].content)
    && (forall x <- d.replicas :: d.replicas[x].key.content == d.replicas[x].content)
  }

  lemma SharedFrame(d: Db, e: Db, o: ObjectId, p: Proc, q: Proc)
    requires p.Reclaim? && Physical(p.pc) && Shared(d, o, p) && LeavesShared(d, e, o, p) && KeysAreContents(d, p.rows)
    requires q.Reclaim? && q.rows == p.rows && q.attempt == p.attempt && (q.pc.Releasing? ==> q.pc.owed in Identities(q.rows))
    ensures Shared(e, o, q)
  {
    forall r <- q.rows ensures RowShared(e, o, q, r) {
      assert RowShared(d, o, p, r) && IdentityOf(p.rows[r]) in Identities(p.rows);
      if OthersAt(d.replicas, o, PlaceOf(p.rows[r])) {
        var x :| x in d.replicas && d.replicas[x].owner != o && PlaceOf(d.replicas[x]) == PlaceOf(p.rows[r]);
        assert IdentityOf(d.replicas[x]) == IdentityOf(p.rows[r]);
        assert e.replicas[x] == d.replicas[x];
      }
    }
  }

  /** Rows and counts of other payloads go, or rows of the object itself. */
  lemma LeavesFrom(d: Db, e: Db, o: ObjectId, p: Proc, gone: set<ReplicaId>, lost: set<ArchiveId>, first: set<Identity>)
    requires p.Reclaim? && Taken(d, e, gone, lost) && KeysStayBut(d.dedup, e.dedup, first)
    requires JournalAdvances(d.journal, e.journal) && (p.attempt in d.journal ==> d.journal[p.attempt].plan.Some?)
    requires first !! Identities(p.rows)
    requires forall r <- gone :: r in d.replicas ==> d.replicas[r].owner == o || IdentityOf(d.replicas[r]) !in Identities(p.rows)
    ensures LeavesShared(d, e, o, p)
  {
    if p.attempt in d.journal { TargetsStay(d.journal, e.journal, p.attempt); }
  }

  lemma TargetsStay(m: map<AttemptId, Journal>, n: map<AttemptId, Journal>, a: AttemptId)
    requires JournalAdvances(m, n) && a in m && m[a].plan.Some?
    ensures a in n && Targets(n[a]) == Targets(m[a])
  {
    assert RowAdvances(m[a], n[a]);
  }

  /** What the invariant says of a reclaim that deletes. */
  lemma PhysicalFacts(s: State, o: ObjectId)
    requires Inv(s) && Live(s.mode) && IsReclaim(s, o) && Physical(s.procs[o].pc)
    ensures s.procs[o].attempt in s.db.journal && s.db.journal[s.procs[o].attempt].plan.Some?
    ensures Identities(s.procs[o].rows) <= s.procs[o].held
    ensures forall r <- s.procs[o].rows :: s.procs[o].rows[r].key.content == s.procs[o].rows[r].content
  {
    OwnProcOk(s, o);
    PhysicalRecord(s, o);
    assert JournalOk(s.db, s.phys, s.procs[o].attempt);
  }

  lemma PhysicalRecord(s: State, o: ObjectId)
    requires IsReclaim(s, o) && ReclaimOk(s, o, s.procs[o]) && Physical(s.procs[o].pc)
    ensures var p := s.procs[o];
            && p.attempt in s.db.journal && s.db.journal[p.attempt].plan.Some? && s.db.journal[p.attempt].deletions == p.rows
            && Identities(p.rows) <= p.held
  {
  }

  lemma RowKeys(s: State, o: ObjectId)
    requires Inv(s) && Live(s.mode) && IsReclaim(s, o) && Physical(s.procs[o].pc)
    ensures KeysAreContents(s.db, s.procs[o].rows)
  {
    PhysicalFacts(s, o);
    forall x <- s.db.replicas ensures ReplicaOk(s.db, s.phys, s.db.replicas[x]) {}
  }

  // ------------------------------------------------------------------
  // Where counted payloads are, step by step
  // ------------------------------------------------------------------

  /** The payload a create counts for the first time. */
  function FirstCounted(s: State, k: Step): (some: set<Identity>) {
    match k
    case InsertEntry(o) => if IsCreate(s, o) && s.procs[o].at.Written? then {Identity(s.procs[o].content, s.procs[o].at.backend)} else {}
    case _ => {}
  }

  ghost predicate KeysStayBut(m: map<Identity, DedupEntry>, n: map<Identity, DedupEntry>, first: set<Identity>) {
    forall i :: i in n && i !in first ==> i in m && n[i].key == m[i].key
  }

  lemma CreateKeysStay(s: State, k: Step)
    requires CreateEnabled(s, k)
    ensures KeysStayBut(s.db.dedup, CreateApply(s, k).db.dedup, FirstCounted(s, k))
  {
    if k.Publish? { }
    else if CreatePayload(k) { PayloadKeysStay(s, k); }
    else { CreateObjects(s, k); }
  }

  lemma PayloadKeysStay(s: State, k: Step)
    requires CreateEnabled(s, k) && CreatePayload(k)
    ensures KeysStayBut(s.db.dedup, CreateApply(s, k).db.dedup, FirstCounted(s, k))
  {
  }

  lemma ReclaimDedup(s: State, k: Step)
    requires ReclaimEnabled(s, k)
    ensures !k.ReleaseRow? ==> ReclaimApply(s, k).db.dedup == s.db.dedup
    ensures KeysStayBut(s.db.dedup, ReclaimApply(s, k).db.dedup, {})
  {
    if k.AbortWrite? { AbortDedup(s, k.o); }
    else if k.CloseWrite? { CloseDedup(s, k.o); }
    else if WritesJournal(k) || WritesRows(k) { WritingDedup(s, k); }
  }

  lemma AbortDedup(s: State, o: ObjectId)
    requires CanAbortWrite(s, o)
    ensures DoAbortWrite(s, o).db.dedup == s.db.dedup
  {
  }

  lemma CloseDedup(s: State, o: ObjectId)
    requires CanCloseWrite(s, o)
    ensures DoCloseWrite(s, o).db.dedup == s.db.dedup
  {
  }

  lemma WritingDedup(s: State, k: Step)
    requires ReclaimEnabled(s, k) && (WritesJournal(k) || WritesRows(k)) && !k.AbortWrite? && !k.CloseWrite?
    ensures !k.ReleaseRow? ==> ReclaimApply(s, k).db.dedup == s.db.dedup
    ensures KeysStayBut(s.db.dedup, ReclaimApply(s, k).db.dedup, {})
  {
  }

  /** The payloads of the rows in `gone` are locked by `q`. */
  ghost predicate GoneGuarded(s: State, q: ObjectId, gone: set<ReplicaId>) {
    forall r <- gone :: r in s.db.replicas ==> q in s.procs && IdentityOf(s.db.replicas[r]) in s.procs[q].held
  }

  ghost predicate FirstGuarded(s: State, q: ObjectId, first: set<Identity>) {
    forall i <- first :: q in s.procs && i in s.procs[q].held
  }

  /** The payloads of rows that go, and those counted for the first time, are locked by whoever does it. */
  lemma CreateGuarded(s: State, k: Step)
    requires Inv(s) && CreateEnabled(s, k)
    ensures GoneGuarded(s, k.o, RowsGone(k)) && FirstGuarded(s, k.o, FirstCounted(s, k))
  {
    if k.DropMade? { MadeHeld(s, k.o, k.r); }
    else if k.InsertEntry? { FirstHeld(s, k.o); }
    else { CreatesNothingGone(s, k); }
  }

  lemma CreatesNothingGone(s: State, k: Step)
    requires CreateEnabled(s, k) && !k.DropMade? && !k.InsertEntry?
    ensures RowsGone(k) == {} && FirstCounted(s, k) == {}
  {
  }

  lemma ReclaimGuarded(s: State, k: Step)
    requires Inv(s) && ReclaimEnabled(s, k)
    ensures GoneGuarded(s, k.o, RowsGone(k))
  {
    if k.DropRow? { DropStepGuarded(s, k); } else { ReclaimsNothingGone(s, k); }
  }

  lemma DropStepGuarded(s: State, k: Step)
    requires Inv(s) && k.DropRow? && CanDropRow(s, k.o, k.r)
    ensures GoneGuarded(s, k.o, RowsGone(k))
  {
    DropGone(k);
    DropGuarded(s, k.o, k.r);
  }

  lemma DropGone(k: Step)
    requires k.DropRow?
    ensures RowsGone(k) == {k.r}
  {
  }

  lemma DropGuarded(s: State, o: ObjectId, r: ReplicaId)
    requires Inv(s) && CanDropRow(s, o, r)
    ensures GoneGuarded(s, o, {r})
  {
    DroppedHeld(s, o, r);
  }

  lemma ReclaimsNothingGone(s: State, k: Step)
    requires ReclaimEnabled(s, k) && !k.DropRow?
    ensures RowsGone(k) == {}
  {
  }

  lemma FirstHeld(s: State, o: ObjectId)
    requires Inv(s) && CanInsertEntry(s, o)
    ensures Identity(s.procs[o].content, s.procs[o].at.backend) in s.procs[o].held
  {
    assert ProcOk(s, o);
  }

  lemma MadeHeld(s: State, o: ObjectId, r: ReplicaId)
    requires Inv(s) && CanDropMade(s, o, r)
    ensures IdentityOf(s.db.replicas[r]) in s.procs[o].held
  {
    assert ProcOk(s, o);
    assert IdentityOf(s.db.replicas[r]) in CreateKeys(s.procs[o], s.db.replicas);
  }

  lemma DroppedRow(s: State, o: ObjectId, r: ReplicaId)
    requires Inv(s) && CanDropRow(s, o, r)
    ensures s.procs[o].rows[r] == s.db.replicas[r] && s.db.replicas[r].owner == o
  {
    OwnProcOk(s, o);
    assert JournalOk(s.db, s.phys, s.procs[o].attempt);
    DroppingMatches(s, o, r);
  }

  lemma DroppingMatches(s: State, o: ObjectId, r: ReplicaId)
    requires CanDropRow(s, o, r) && ReclaimOk(s, o, s.procs[o]) && JournalOk(s.db, s.phys, s.procs[o].attempt)
    ensures s.procs[o].rows[r] == s.db.replicas[r] && s.db.replicas[r].owner == o
  {
  }

  lemma DroppedHeld(s: State, o: ObjectId, r: ReplicaId)
    requires Inv(s) && CanDropRow(s, o, r)
    ensures IdentityOf(s.db.replicas[r]) in s.procs[o].held && IdentityOf(s.db.replicas[r]) in Identities(s.procs[o].rows)
  {
    DroppedRow(s, o, r);
    PhysicalFacts(s, o);
    assert IdentityOf(s.procs[o].rows[r]) in Identities(s.procs[o].rows);
  }

  // ------------------------------------------------------------------
  // Every step keeps what is shared
  // ------------------------------------------------------------------

  /** What a step of `q` takes away, all of it under the guards of `q`. */
  ghost predicate Takes(s: State, t: State, q: ObjectId, gone: set<ReplicaId>, lost: set<ArchiveId>, first: set<Identity>) {
    && Taken(s.db, t.db, gone, lost) && KeysStayBut(s.db.dedup, t.db.dedup, first) && JournalAdvances(s.db.journal, t.db.journal)
    && GoneGuarded(s, q, gone) && FirstGuarded(s, q, first)
  }

  lemma OtherShared(s: State, t: State, q: ObjectId, gone: set<ReplicaId>, lost: set<ArchiveId>, first: set<Identity>, o: ObjectId)
    requires Inv(s) && Live(s.mode) && Takes(s, t, q, gone, lost, first)
    requires o != q && IsReclaim(s, o) && Shared(s.db, o, s.procs[o])
    ensures Shared(t.db, o, s.procs[o])
  {
    var p := s.procs[o];
    if Physical(p.pc) {
      PhysicalFacts(s, o);
      RowKeys(s, o);
      HeldApart(s, q, o);
      LeavesFrom(s.db, t.db, o, p, gone, lost, first);
      SharedFrame(s.db, t.db, o, p, p);
    }
  }

  lemma HeldApart(s: State, q: ObjectId, o: ObjectId)
    requires Inv(s) && Live(s.mode) && o in s.procs && q != o
    ensures q in s.procs ==> s.procs[q].held !! s.procs[o].held
  {
  }

  lemma StartShared(s: State, o: ObjectId, plan: set<ReplicaId>)
    requires Inv(s) && CanStartPhysical(s, o, plan)
    ensures var t := DoStartPhysical(s, o, plan); Shared(t.db, o, t.procs[o])
  {
    var t := DoStartPhysical(s, o, plan);
    OwnProcOk(s, o);
    assert JournalOk(s.db, s.phys, s.procs[o].attempt);
    ScheduledRows(s, o);
    StartTargets(s, o, plan);
    forall r <- s.procs[o].rows ensures RowShared(t.db, o, t.procs[o], r) {
      PlannedIff(s, o, plan, r);
      StartKey(s, o, r);
    }
  }

  lemma StartKey(s: State, o: ObjectId, r: ReplicaId)
    requires LiveOk(s) && o in s.procs && s.procs[o].Reclaim? && s.procs[o].pc.Locked? && ReclaimOk(s, o, s.procs[o])
    requires s.procs[o].rows == RowsOf(s.db, o) && r in s.procs[o].rows
    ensures var i := IdentityOf(s.procs[o].rows[r]); i in s.db.dedup ==> s.db.dedup[i].key == s.procs[o].rows[r].key
  {
    var i := IdentityOf(s.procs[o].rows[r]);
    assert i in Identities(s.procs[o].rows);
    CountsNow(s, o, i);
    assert r in RowSet(s.db.replicas, i);
  }

  /** Once it deletes, a reclaim keeps its schedule. */
  ghost predicate SameSchedule(p: Proc, q: Proc) {
    p.Reclaim? && q.Reclaim? && Physical(p.pc) && Physical(q.pc) && q.rows == p.rows && q.attempt == p.attempt
  }

  lemma DeletingMoves(s: State, k: Step)
    requires ReclaimEnabled(s, k) && (k.DeletePlace? || k.PhysicalComplete? || k.DropRow? || k.ReleaseRow?)
    ensures var t := ReclaimApply(s, k); k.o in s.procs && k.o in t.procs && SameSchedule(s.procs[k.o], t.procs[k.o])
    ensures var q := ReclaimApply(s, k).procs[k.o]; q.pc.Releasing? ==> k.DropRow? && q.pc.owed == IdentityOf(s.db.replicas[k.r])
  {
  }

  lemma ClosingMoves(s: State, k: Step)
    requires ReclaimEnabled(s, k) && (k.DropVault? || k.MarkGone? || k.CloseWrite?)
    ensures var t := ReclaimApply(s, k); k.o in s.procs && (k.o in t.procs ==> SameSchedule(s.procs[k.o], t.procs[k.o]) && !t.procs[k.o].pc.Releasing?)
  {
  }

  lemma PreparingMoves(s: State, k: Step)
    requires ReclaimEnabled(s, k) && !k.StartPhysical?
    requires !(k.DeletePlace? || k.PhysicalComplete? || k.DropRow? || k.ReleaseRow?) && !(k.DropVault? || k.MarkGone? || k.CloseWrite?)
    ensures var t := ReclaimApply(s, k); k.o in t.procs ==> t.procs[k.o].Reclaim? && !Physical(t.procs[k.o].pc)
  {
  }

  lemma MovesShared(s: State, t: State, o: ObjectId, gone: set<ReplicaId>, lost: set<ArchiveId>)
    requires Inv(s) && Live(s.mode) && IsReclaim(s, o) && IsReclaim(t, o) && SameSchedule(s.procs[o], t.procs[o]) && Shared(s.db, o, s.procs[o])
    requires Taken(s.db, t.db, gone, lost) && KeysStayBut(s.db.dedup, t.db.dedup, {}) && JournalAdvances(s.db.journal, t.db.journal)
    requires forall r <- gone :: r in s.db.replicas ==> s.db.replicas[r].owner == o
    requires t.procs[o].pc.Releasing? ==> t.procs[o].pc.owed in Identities(s.procs[o].rows)
    ensures Shared(t.db, o, t.procs[o])
  {
    PhysicalFacts(s, o);
    RowKeys(s, o);
    LeavesFrom(s.db, t.db, o, s.procs[o], gone, lost, {});
    SharedFrame(s.db, t.db, o, s.procs[o], t.procs[o]);
  }

  lemma OwnGone(s: State, k: Step)
    requires Inv(s) && ReclaimEnabled(s, k)
    ensures forall r <- RowsGone(k) :: r in s.db.replicas && s.db.replicas[r].owner == k.o
    ensures k.DropRow? ==> IdentityOf(s.db.replicas[k.r]) in Identities(s.procs[k.o].rows)
  {
    if k.DropRow? {
      DroppedRow(s, k.o, k.r);
      DroppedHeld(s, k.o, k.r);
    }
  }

  lemma OwnShared(s: State, k: Step)
    requires Inv(s) && ReclaimEnabled(s, k) && (k.o in s.procs ==> Shared(s.db, k.o, s.procs[k.o]))
    ensures var t := ReclaimApply(s, k); k.o in t.procs ==> Shared(t.db, k.o, t.procs[k.o])
  {
    if k.StartPhysical? {
      StartShared(s, k.o, k.plan);
    } else if k.DeletePlace? || k.PhysicalComplete? || k.DropRow? || k.ReleaseRow? {
      DeletingMoves(s, k);
      GoesOnShared(s, k);
    } else if k.DropVault? || k.MarkGone? || k.CloseWrite? {
      ClosingMoves(s, k);
      if k.o in ReclaimApply(s, k).procs { GoesOnShared(s, k); }
    } else {
      PreparingMoves(s, k);
    }
  }

  lemma GoesOnShared(s: State, k: Step)
    requires Inv(s) && ReclaimEnabled(s, k) && k.o in s.procs && Shared(s.db, k.o, s.procs[k.o])
    requires var t := ReclaimApply(s, k); k.o in t.procs && SameSchedule(s.procs[k.o], t.procs[k.o])
    requires var q := ReclaimApply(s, k).procs[k.o]; q.pc.Releasing? ==> k.DropRow? && q.pc.owed == IdentityOf(s.db.replicas[k.r])
    ensures var t := ReclaimApply(s, k); Shared(t.db, k.o, t.procs[k.o])
  {
    StepLive(s, k);
    InvProcs(s);
    ReclaimDedup(s, k);
    ReclaimTakes(s, k);
    ReclaimAdvances(s, k);
    OwnGone(s, k);
    MovesShared(s, ReclaimApply(s, k), k.o, RowsGone(k), VaultsLost(k));
  }

  lemma JournalSame(m: map<AttemptId, Journal>, n: map<AttemptId, Journal>)
    requires m == n
    ensures JournalAdvances(m, n)
  {
  }

  lemma CreateTakesHeld(s: State, k: Step)
    requires Inv(s) && CreateEnabled(s, k)
    ensures Takes(s, CreateApply(s, k), k.o, RowsGone(k), VaultsLost(k), FirstCounted(s, k))
  {
    StepLive(s, k);
    CreateTakes(s, k);
    CreateKeysStay(s, k);
    CreateAdvances(s, k);
    JournalSame(s.db.journal, CreateApply(s, k).db.journal);
    CreateGuarded(s, k);
  }

  lemma ReclaimTakesHeld(s: State, k: Step)
    requires Inv(s) && ReclaimEnabled(s, k)
    ensures Takes(s, ReclaimApply(s, k), k.o, RowsGone(k), VaultsLost(k), {})
  {
    StepLive(s, k);
    InvProcs(s);
    ReclaimTakes(s, k);
    ReclaimDedup(s, k);
    ReclaimAdvances(s, k);
    ReclaimGuarded(s, k);
  }

  lemma CreateShared(s: State, k: Step)
    requires Inv(s) && CreateEnabled(s, k) && AllShared(s)
    ensures AllShared(CreateApply(s, k))
  {
    var t := CreateApply(s, k);
    StepLive(s, k);
    CreateTakesHeld(s, k);
    CreateProcs(s, k);
    OwnIsCreate(s, k);
    forall o <- t.procs ensures Shared(t.db, o, t.procs[o]) {
      if o != k.o && t.procs[o].Reclaim? { OtherShared(s, t, k.o, RowsGone(k), VaultsLost(k), FirstCounted(s, k), o); }
    }
  }

  lemma OwnIsCreate(s: State, k: Step)
    requires CreateEnabled(s, k)
    ensures k.o in CreateApply(s, k).procs ==> CreateApply(s, k).procs[k.o].Create?
  {
    if k.DropMade? || k.ReleaseMade? || k.Sweep? { Cleans(s, k); }
    else if CreatePayload(k) { Stores(s, k); }
    else if k.GiveUp? { GivesUp(s, k.o); }
  }

  lemma ReclaimShared(s: State, k: Step)
    requires Inv(s) && ReclaimEnabled(s, k) && AllShared(s)
    ensures AllShared(ReclaimApply(s, k))
  {
    var t := ReclaimApply(s, k);
    StepLive(s, k);
    ReclaimTakesHeld(s, k);
    ReclaimProcs(s, k);
    OwnShared(s, k);
    forall o <- t.procs ensures Shared(t.db, o, t.procs[o]) {
      if o != k.o && t.procs[o].Reclaim? { OtherShared(s, t, k.o, RowsGone(k), VaultsLost(k), {}, o); }
    }
  }

  lemma OtherKeepsShared(s: State, k: Step)
    requires Inv(s) && OtherEnabled(s, k) && AllShared(s)
    ensures AllShared(OtherApply(s, k))
  {
    ServingProcs(s, k);
    if k.Recovery? {
      assert s.procs == map[];
    } else {
      ServingTables(s, k);
      forall o <- OtherApply(s, k).procs ensures Shared(OtherApply(s, k).db, o, OtherApply(s, k).procs[o]) {
        SameTables(s.db, OtherApply(s, k).db, o, s.procs[o]);
      }
    }
  }

  lemma ServingTables(s: State, k: Step)
    requires OtherEnabled(s, k) && !k.Recovery?
    ensures var t := OtherApply(s, k);
            t.db.replicas == s.db.replicas && t.db.dedup == s.db.dedup && t.db.journal == s.db.journal && t.phys == s.phys
  {
  }

  lemma SameTables(d: Db, e: Db, o: ObjectId, p: Proc)
    requires Shared(d, o, p) && e.replicas == d.replicas && e.dedup == d.dedup && e.journal == d.journal
    ensures Shared(e, o, p)
  {
    if p.Reclaim? && Physical(p.pc) {
      forall r <- p.rows ensures RowShared(e, o, p, r) { assert RowShared(d, o, p, r); }
    }
  }

  lemma StepShared(s: State, k: Step)
    requires Inv(s) && CanStep(s, k) && AllShared(s)
    ensures AllShared(Next(s, k))
  {
    if CreateEnabled(s, k) { CreateShared(s, k); }
    else if ReclaimEnabled(s, k) { ReclaimShared(s, k); }
    else { OtherKeepsShared(s, k); }
  }

  lemma {:induction false} RunShared(s: State, ks: seq<Step>, t: State)
    requires Inv(s) && Execution(s, ks, t) && AllShared(s)
    ensures AllShared(t)
    decreases |ks|
  {
    if ks != [] {
      StepKeeps(s, ks[0]);
      StepShared(s, ks[0]);
      RunShared(Next(s, ks[0]), ks[1..], t);
    }
  }

  lemma ReachableShared(t: State)
    requires Reachable(t)
    ensures AllShared(t)
  {
    var s, ks :| Init(s) && Execution(s, ks, t);
    InitInv(s);
    RunShared(s, ks, t);
  }

  // ------------------------------------------------------------------
  // What a reclaim frees
  // ------------------------------------------------------------------

  /** When a reclaim commits, the bytes of a row it scheduled are still there exactly if a row of
      another object is at the same place. */
  lemma ReclaimFrees(s: State, o: ObjectId, r: ReplicaId)
    requires Reachable(s) && CanMarkGone(s, o) && r in s.procs[o].rows
    ensures PlaceOf(s.procs[o].rows[r]) in s.phys <==> OthersAt(s.db.replicas, o, PlaceOf(s.procs[o].rows[r]))
  {
    ReachableInv(s);
    ReachableShared(s);
    OwnProcOk(s, o);
    PhysicalFacts(s, o);
    var l := PlaceOf(s.procs[o].rows[r]);
    assert RowShared(s.db, o, s.procs[o], r);
    assert IdentityOf(s.procs[o].rows[r]) in Identities(s.procs[o].rows);
    if OthersAt(s.db.replicas, o, l) { OthersPresent(s, o, l); }
  }

  /** Bytes locked by `o` that another object's row needs are there. */
  lemma OthersPresent(s: State, o: ObjectId, l: Loc)
    requires Inv(s) && Live(s.mode) && o in s.procs && l.Payload? && IdentityAt(l) in s.procs[o].held && OthersAt(s.db.replicas, o, l)
    ensures l in s.phys
  {
    var q :| q in s.db.replicas && s.db.replicas[q].owner != o && PlaceOf(s.db.replicas[q]) == l;
    assert ReplicaOk(s.db, s.phys, s.db.replicas[q]);
    if a :| a in s.db.journal && s.db.journal[a].owner == s.db.replicas[q].owner && IsPhysical(s.db.journal[a].phase) && l in Targets(s.db.journal[a]) {
      assert JournalOk(s.db, s.phys, a);
      TargetsApart(s, o, a, l);
    }
  }

  // ------------------------------------------------------------------
  // Bytes nobody refers to
  // ------------------------------------------------------------------

  /** The dedup table counts the payload, and says it is there. */
  predicate Referenced(dedup: map<Identity, DedupEntry>, l: Loc)
    requires l.Payload?
  {
    IdentityAt(l) in dedup && dedup[IdentityAt(l)].key == l.key
  }

  /** The operation is about to count the payload, or to delete it. */
  predicate Holds(procs: map<ObjectId, Proc>, o: ObjectId, l: Loc) {
    && o in procs && procs[o].Create?
    && ((procs[o].at.Written? && l == Payload(procs[o].at.backend, procs[o].at.key)) || l in procs[o].sweep)
  }

  /** Payloads are counted, in hand, or waste from before. */
  ghost predicate Tidy(s: State, waste: set<Loc>) {
    forall l <- s.phys :: l.Payload? && l !in waste ==> Referenced(s.db.dedup, l) || exists o :: Holds(s.procs, o, l)
  }

  /** Every payload a step of `o` leaves was there or is in hand, and none drops out of the counts or
      out of the hands of `o`. */
  ghost predicate LeavesTidy(s: State, t: State, o: ObjectId) {
    forall l <- t.phys :: l.Payload? ==>
      && (l in s.phys || Holds(t.procs, o, l))
      && (Referenced(s.db.dedup, l) || Holds(s.procs, o, l) ==> Referenced(t.db.dedup, l) || Holds(t.procs, o, l))
  }

  lemma TidyStep(s: State, t: State, o: ObjectId, waste: set<Loc>)
    requires Tidy(s, waste) && SameProcs(s.procs, t.procs, o) && LeavesTidy(s, t, o)
    ensures Tidy(t, waste)
  {
    forall l <- t.phys | l.Payload? && l !in waste && !Referenced(t.db.dedup, l) ensures exists q :: Holds(t.procs, q, l) {
      if !Holds(t.procs, o, l) {
        var q :| Holds(s.procs, q, l);
        assert Holds(t.procs, q, l);
      }
    }
  }

  lemma StoresTidy(s: State, k: Step)
    requires CreateEnabled(s, k) && k.o in s.procs && ProcOk(s, k.o)
    requires k.CountExisting? || k.PutPayload? || k.InsertEntry? || k.AddRow?
    ensures LeavesTidy(s, CreateApply(s, k), k.o)
  {
  }

  lemma CleansTidy(s: State, k: Step)
    requires CreateEnabled(s, k) && k.o in s.procs && ProcOk(s, k.o)
    requires k.DropMade? || k.Sweep? || k.GiveUp?
    ensures LeavesTidy(s, CreateApply(s, k), k.o)
  {
  }

  lemma ReleaseTidy(s: State, o: ObjectId)
    requires CanReleaseMade(s, o) && ProcOk(s, o)
    ensures LeavesTidy(s, DoReleaseMade(s, o), o)
  {
  }

  lemma TurnsTidy(s: State, k: Step)
    requires CreateEnabled(s, k) && (k.o in s.procs ==> ProcOk(s, k.o))
    requires k.BeginCreate? || k.LockCreate? || k.UnlockCreate? || k.Publish? || k.EndCreate?
    requires k.BeginCreate? ==> k.o !in s.procs
    ensures LeavesTidy(s, CreateApply(s, k), k.o)
  {
  }

  lemma CreateTidy(s: State, k: Step)
    requires Inv(s) && Live(s.mode) && CreateEnabled(s, k)
    ensures LeavesTidy(s, CreateApply(s, k), k.o)
  {
    if k.o in s.procs { assert ProcOk(s, k.o); }
    if k.CountExisting? || k.PutPayload? || k.InsertEntry? || k.AddRow? { StoresTidy(s, k); }
    else if k.DropMade? || k.Sweep? || k.GiveUp? { CleansTidy(s, k); }
    else if k.ReleaseMade? { ReleaseTidy(s, k.o); }
    else { TurnsTidy(s, k); }
  }

  lemma ReclaimTidy(s: State, k: Step)
    requires Inv(s) && Live(s.mode) && AllShared(s) && ReclaimEnabled(s, k)
    ensures LeavesTidy(s, ReclaimApply(s, k), k.o)
  {
    ReclaimDedup(s, k);
    NoHands(s, k);
    if k.ReleaseRow? { ReleasedGone(s, k.o); }
    if k.DeletePlace? { } else { ReclaimKeepsBytes(s, k); }
  }

  lemma NoHands(s: State, k: Step)
    requires s.activeObjects == s.procs.Keys && ReclaimEnabled(s, k)
    ensures k.o in s.procs ==> s.procs[k.o].Reclaim?
  {
  }

  /** The last reference a reclaim gives back is to a payload it has deleted. */
  lemma ReleasedGone(s: State, o: ObjectId)
    requires Inv(s) && AllShared(s) && CanReleaseRow(s, o)
    ensures forall l <- s.phys :: l.Payload? && Referenced(s.db.dedup, l) ==> Referenced(DoReleaseRow(s, o).db.dedup, l)
  {
    var i := s.procs[o].pc.owed;
    if s.db.dedup[i].refs == 1 { LastReference(s, o); }
    StillReferenced(s.db.dedup, i, s.phys);
  }

  lemma StillReferenced(dedup: map<Identity, DedupEntry>, i: Identity, phys: Physical)
    requires i in dedup && (dedup[i].refs == 1 ==> Payload(i.backend, dedup[i].key) !in phys)
    ensures forall l <- phys :: l.Payload? && Referenced(dedup, l) ==> Referenced(Released(dedup, i), l)
  {
  }

  lemma LastReference(s: State, o: ObjectId)
    requires Inv(s) && AllShared(s) && CanReleaseRow(s, o) && s.db.dedup[s.procs[o].pc.owed].refs == 1
    ensures Payload(s.procs[o].pc.owed.backend, s.db.dedup[s.procs[o].pc.owed].key) !in s.phys
  {
    var p := s.procs[o];
    var i := p.pc.owed;
    PhysicalFacts(s, o);
    assert Shared(s.db, o, p);
    var r :| r in p.rows && IdentityOf(p.rows[r]) == i;
    assert RowShared(s.db, o, p, r);
    NoneCounted(s, o);
    NoRowThere(s, i);
    LastGone(s, o, r);
  }

  lemma NoneCounted(s: State, o: ObjectId)
    requires LiveOk(s) && CanReleaseRow(s, o) && s.procs[o].pc.owed in s.procs[o].held && s.db.dedup[s.procs[o].pc.owed].refs == 1
    ensures RowSet(s.db.replicas, s.procs[o].pc.owed) == {}
  {
    CountsNow(s, o, s.procs[o].pc.owed);
  }

  lemma NoRowThere(s: State, i: Identity)
    requires Inv(s) && RowSet(s.db.replicas, i) == {}
    ensures forall q <- s.db.replicas :: PlaceOf(s.db.replicas[q]).key.content == i.content ==> s.db.replicas[q].backend != i.backend
  {
    forall q <- s.db.replicas | s.db.replicas[q].key.content == i.content ensures s.db.replicas[q].backend != i.backend {
      assert ReplicaOk(s.db, s.phys, s.db.replicas[q]);
      assert q !in RowSet(s.db.replicas, i);
    }
  }

  lemma LastGone(s: State, o: ObjectId, r: ReplicaId)
    requires Inv(s) && CanReleaseRow(s, o) && r in s.procs[o].rows && RowShared(s.db, o, s.procs[o], r)
    requires !OthersAt(s.db.replicas, o, PlaceOf(s.procs[o].rows[r]))
    ensures PlaceOf(s.procs[o].rows[r]) !in s.phys
  {
    OwnProcOk(s, o);
  }

  lemma OtherTidy(s: State, k: Step, waste: set<Loc>)
    requires OtherEnabled(s, k) && !k.Recovery? && !k.Crash? && Tidy(s, waste)
    ensures Tidy(OtherApply(s, k), waste)
  {
    ServingTables(s, k);
    ServingProcs(s, k);
  }

  lemma StepTidy(s: State, k: Step, waste: set<Loc>)
    requires Inv(s) && CanStep(s, k) && AllShared(s) && Tidy(s, waste) && !k.Recovery? && !k.Crash?
    ensures Tidy(Next(s, k), waste)
  {
    if CreateEnabled(s, k) {
      StepLive(s, k);
      CreateProcs(s, k);
      CreateTidy(s, k);
      TidyStep(s, CreateApply(s, k), k.o, waste);
    } else if ReclaimEnabled(s, k) {
      StepLive(s, k);
      ReclaimProcs(s, k);
      ReclaimTidy(s, k);
      TidyStep(s, ReclaimApply(s, k), k.o, waste);
    } else {
      OtherTidy(s, k, waste);
    }
  }

  /** No step of the run is a crash or a recovery write. */
  predicate Undisturbed(ks: seq<Step>) {
    forall k <- ks :: !k.Crash? && !k.Recovery?
  }

  lemma {:induction false} RunTidy(s: State, ks: seq<Step>, t: State, waste: set<Loc>)
    requires Inv(s) && Execution(s, ks, t) && AllShared(s) && Tidy(s, waste) && Undisturbed(ks)
    ensures Tidy(t, waste)
    decreases |ks|
  {
    if ks != [] {
      StepKeeps(s, ks[0]);
      StepShared(s, ks[0]);
      StepTidy(s, ks[0], waste);
      assert forall k <- ks[1..] :: k in ks;
      RunTidy(Next(s, ks[0]), ks[1..], t, waste);
    }
  }

  /** Payloads at which no replica row is. */
  ghost function Waste(s: State): (places: set<Loc>) {
    set l | l in s.phys && l.Payload? && forall r <- s.db.replicas :: PlaceOf(s.db.replicas[r]) != l
  }

  /** At rest what is counted is where some row is. */
  lemma CountedIsPlaced(s: State, l: Loc)
    requires Reachable(s) && Live(s.mode) && s.procs == map[] && l.Payload?
    ensures Referenced(s.db.dedup, l) <==> exists r :: r in s.db.replicas && PlaceOf(s.db.replicas[r]) == l
  {
    ReachableInv(s);
    ConservedAtRest(s);
    var i := IdentityAt(l);
    assert ExactFor(s.db.replicas, s.db.dedup, i);
    if Referenced(s.db.dedup, l) {
      var r :| r in RowSet(s.db.replicas, i);
      assert PlaceOf(s.db.replicas[r]) == l;
    }
    if r :| r in s.db.replicas && PlaceOf(s.db.replicas[r]) == l {
      assert ReplicaOk(s.db, s.phys, s.db.replicas[r]);
      assert r in RowSet(s.db.replicas, i);
    }
  }

  /** No operation leaks: from rest to rest, through any number of creates and reclaims, completed or
      compensated, interleaved in any way, no payload is left behind that no row refers to. */
  lemma NothingLeaks(s: State, ks: seq<Step>, t: State)
    requires Reachable(s) && Live(s.mode) && s.procs == map[]
    requires Execution(s, ks, t) && Undisturbed(ks) && Reachable(t) && Live(t.mode) && t.procs == map[]
    ensures Waste(t) <= Waste(s)
  {
    ReachableInv(s);
    RestTidy(s);
    RunTidy(s, ks, t, Waste(s));
    forall l <- Waste(t) ensures l in Waste(s) { CountedIsPlaced(t, l); }
  }

  lemma RestTidy(s: State)
    requires Reachable(s) && Live(s.mode) && s.procs == map[]
    ensures Tidy(s, Waste(s)) && AllShared(s)
  {
    forall l <- s.phys | l.Payload? && l !in Waste(s) ensures Referenced(s.db.dedup, l) { CountedIsPlaced(s, l); }
  }
}
