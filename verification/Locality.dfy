/** An operation on one object, holding its guards, cannot disturb the others: what it changes is
    its object's own rows and the payloads it has locked. */
module Locality {
  import opened Fabric
  import opened Durable
  import opened RecoveryWrites
  import opened LifecycleTable
  import opened Protocol
  import opened Invariant

  ghost predicate SameObjects(m: map<ObjectId, Object>, n: map<ObjectId, Object>, o: ObjectId) {
    forall q :: q != o ==> (q in m <==> q in n) && (q in m ==> n[q] == m[q])
  }

  ghost predicate SameRows(m: map<ReplicaId, Replica>, n: map<ReplicaId, Replica>, o: ObjectId) {
    && (forall r <- m :: m[r].owner != o ==> r in n && n[r] == m[r])
    && (forall r <- n :: n[r].owner != o ==> r in m && m[r] == n[r])
  }

  ghost predicate SameVaults(m: map<ArchiveId, Archive>, n: map<ArchiveId, Archive>, o: ObjectId) {
    && (forall x <- m :: m[x].owner != o ==> x in n && n[x] == m[x])
    && (forall x <- n :: n[x].owner != o ==> x in m && m[x] == n[x])
  }

  ghost predicate SameAttempts(d: Db, e: Db, o: ObjectId) {
    && (forall a <- d.journal :: d.journal[a].owner != o ==>
          && a in e.journal && e.journal[a] == d.journal[a]
          && (a in d.attempts ==> a in e.attempts && e.attempts[a] == d.attempts[a])
          && (a in d.reservations ==> a in e.reservations && e.reservations[a] == d.reservations[a]))
    && (forall a <- e.journal :: e.journal[a].owner != o ==> a in d.journal && d.journal[a] == e.journal[a])
  }

  ghost predicate SameDedup(m: map<Identity, DedupEntry>, n: map<Identity, DedupEntry>, held: set<Identity>) {
    forall i :: i !in held ==> (i in m <==> i in n) && (i in m ==> n[i] == m[i])
  }

  /** The places an operation on `o` holding `held` may touch. */
  predicate Mine(l: Loc, o: ObjectId, held: set<Identity>) {
    match l
    case Payload(_, _) => IdentityAt(l) in held
    case Vault(_, q, _) => q == o
  }

  ghost predicate SamePhys(m: Physical, n: Physical, o: ObjectId, held: set<Identity>) {
    forall l :: !Mine(l, o, held) ==> (l in m <==> l in n)
  }

  ghost predicate SameProcs(m: map<ObjectId, Proc>, n: map<ObjectId, Proc>, o: ObjectId) {
    forall q :: q != o ==> (q in m <==> q in n) && (q in m ==> n[q] == m[q])
  }

  /** New rows have new ids, and rows change only under the payload guard. */
  ghost predicate RowsUnderGuard(d: Db, e: Db, o: ObjectId, held: set<Identity>) {
    && (forall r <- e.replicas :: r !in d.replicas ==> forall a <- d.journal :: r !in d.journal[a].deletions)
    && (forall r <- e.replicas :: IdentityOf(e.replicas[r]) !in held ==> r in d.replicas && d.replicas[r] == e.replicas[r])
    && (forall r <- d.replicas :: IdentityOf(d.replicas[r]) !in held ==> r in e.replicas && e.replicas[r] == d.replicas[r])
  }

  /** A step of the operation on `o`. */
  ghost predicate Local(s: State, t: State, o: ObjectId) {
    && Live(s.mode) && t.mode == s.mode && t.activeRecovery == s.activeRecovery && t.edges == s.edges
    && o in s.procs
    && SameObjects(s.db.objects, t.db.objects, o)
    && SameRows(s.db.replicas, t.db.replicas, o)
    && SameVaults(s.db.archives, t.db.archives, o)
    && (forall x <- t.db.archives :: x in s.db.archives && s.db.archives[x] == t.db.archives[x])
    && SameAttempts(s.db, t.db, o)
    && SameDedup(s.db.dedup, t.db.dedup, s.procs[o].held)
    && SamePhys(s.phys, t.phys, o, s.procs[o].held)
    && SameProcs(s.procs, t.procs, o)
    && RowsUnderGuard(s.db, t.db, o, s.procs[o].held)
  }

  // ------------------------------------------------------------------
  // The other attempts
  // ------------------------------------------------------------------

  /** A running attempt's targets are out of reach of every other operation. */
  lemma TargetsApart(s: State, o: ObjectId, a: AttemptId, l: Loc)
    requires GuardsOk(s) && PhysicalHeld(s.db.journal, s.procs)
    requires o in s.procs && a in s.db.journal && s.db.journal[a].owner != o && IsPhysical(s.db.journal[a].phase)
    requires Shaped(s.db.journal[a])
    requires l in Targets(s.db.journal[a])
    ensures !Mine(l, o, s.procs[o].held)
  {
    var j := s.db.journal[a];
    if l.Payload? {
      var r :| r in j.deletions && l == PlaceOf(j.deletions[r]);
      assert IdentityOf(j.deletions[r]) in Identities(j.deletions);
      assert j.deletions[r].key.content == j.deletions[r].content;
    } else {
      var x :| x in j.archives && l == VaultOf(j.archives[x]);
    }
  }

  lemma DecideFrame(j: Journal, m: Physical, n: Physical)
    requires IsPhysical(j.phase) ==> forall l <- Targets(j) :: l in m <==> l in n
    ensures Decide(j, n) == Decide(j, m)
  {
    if IsPhysical(j.phase) {
      assert Targets(j) !! m.Keys <==> Targets(j) !! n.Keys;
      assert Targets(j) <= m.Keys <==> Targets(j) <= n.Keys;
    }
  }

  /** What an attempt needs of the physical state, whatever its journal row says of rows. */
  lemma OtherDecide(s: State, t: State, o: ObjectId, a: AttemptId)
    requires GuardsOk(s) && PhysicalHeld(s.db.journal, s.procs) && Local(s, t, o)
    requires a in s.db.journal && s.db.journal[a].owner != o && Shaped(s.db.journal[a])
    ensures Decide(s.db.journal[a], t.phys) == Decide(s.db.journal[a], s.phys)
  {
    if IsPhysical(s.db.journal[a].phase) {
      forall l <- Targets(s.db.journal[a]) ensures l in s.phys <==> l in t.phys { TargetsApart(s, o, a, l); }
    }
    DecideFrame(s.db.journal[a], s.phys, t.phys);
  }

  lemma OtherRows(s: State, t: State, o: ObjectId, j: Journal)
    requires SameRows(s.db.replicas, t.db.replicas, o) && SameVaults(s.db.archives, t.db.archives, o)
    requires j.owner != o && Shaped(j)
    requires forall r <- t.db.replicas :: r !in s.db.replicas ==> r !in j.deletions
    requires Covers(s.db.replicas, s.db.archives, j) && Matches(s.db.replicas, s.db.archives, j)
    requires forall x <- t.db.archives :: x in s.db.archives && s.db.archives[x] == t.db.archives[x]
    ensures Covers(t.db.replicas, t.db.archives, j) && Matches(t.db.replicas, t.db.archives, j)
    ensures Whole(s.db.replicas, s.db.archives, j) ==> Whole(t.db.replicas, t.db.archives, j)
  {
  }

  lemma OtherJournal(s: State, t: State, o: ObjectId, a: AttemptId)
    requires GuardsOk(s) && PhysicalHeld(s.db.journal, s.procs) && Local(s, t, o)
    requires a in s.db.journal && s.db.journal[a].owner != o && JournalOk(s.db, s.phys, a)
    ensures a in t.db.journal && JournalOk(t.db, t.phys, a)
  {
    OtherDecide(s, t, o, a);
    if Unfinished(s.db.journal[a].phase) { OtherRows(s, t, o, s.db.journal[a]); }
  }

  // ------------------------------------------------------------------
  // The other objects' rows
  // ------------------------------------------------------------------

  lemma ExcuseFrame(d: Db, e: Db, o: ObjectId, owner: ObjectId, place: Loc)
    requires SameAttempts(d, e, o) && owner != o && Excused(d.journal, owner, place)
    ensures Excused(e.journal, owner, place)
  {
    var a :| a in d.journal && d.journal[a].owner == owner && IsPhysical(d.journal[a].phase) && place in Targets(d.journal[a]);
    assert e.journal[a] == d.journal[a];
  }

  /** No row of another object loses its bytes. */
  ghost predicate SparesOthers(s: State, t: State, o: ObjectId) {
    forall r <- s.db.replicas :: s.db.replicas[r].owner != o && PlaceOf(s.db.replicas[r]) in s.phys ==> PlaceOf(s.db.replicas[r]) in t.phys
  }

  lemma OtherReplica(s: State, t: State, o: ObjectId, r: ReplicaId)
    requires Local(s, t, o) && SparesOthers(s, t, o)
    requires r in s.db.replicas && s.db.replicas[r].owner != o && ReplicaOk(s.db, s.phys, s.db.replicas[r])
    ensures ReplicaOk(t.db, t.phys, s.db.replicas[r])
  {
    var row := s.db.replicas[r];
    if Excused(s.db.journal, row.owner, PlaceOf(row)) { ExcuseFrame(s.db, t.db, o, row.owner, PlaceOf(row)); }
  }

  lemma OtherArchive(s: State, t: State, o: ObjectId, x: ArchiveId)
    requires Local(s, t, o)
    requires x in s.db.archives && s.db.archives[x].owner != o && ArchiveOk(s.db, s.phys, s.db.archives[x])
    ensures ArchiveOk(t.db, t.phys, s.db.archives[x])
  {
    var row := s.db.archives[x];
    assert !Mine(VaultOf(row), o, s.procs[o].held);
    if Excused(s.db.journal, row.owner, VaultOf(row)) { ExcuseFrame(s.db, t.db, o, row.owner, VaultOf(row)); }
  }

  // ------------------------------------------------------------------
  // The other processes
  // ------------------------------------------------------------------

  lemma SafeFrame(m: map<ObjectId, Object>, n: map<ObjectId, Object>, edges: set<Dependency>, q: ObjectId)
    requires DirectSafe(m, edges, q)
    requires forall c <- m :: SafeChild(m, c) ==> SafeChild(n, c)
    ensures DirectSafe(n, edges, q)
  {
  }

  /** An object never loses its recipe, and RECLAIMED is final. */
  ghost predicate SafetyKept(m: map<ObjectId, Object>, n: map<ObjectId, Object>) {
    forall c <- m :: SafeChild(m, c) ==> SafeChild(n, c)
  }

  lemma OtherCreate(s: State, t: State, o: ObjectId, q: ObjectId)
    requires GuardsOk(s) && DedupOk(s) && Local(s, t, o)
    requires q != o && q in s.procs && s.procs[q].Create? && CreateOk(s, q, s.procs[q])
    ensures CreateOk(t, q, s.procs[q])
  {
    var p := s.procs[q];
    assert p.held !! s.procs[o].held;
    assert CreateKeys(p, t.db.replicas) == CreateKeys(p, s.db.replicas);
    if p.at.Written? || p.at.Counted? { OtherPlace(s, t, o, q); }
  }

  lemma OtherPlace(s: State, t: State, o: ObjectId, q: ObjectId)
    requires GuardsOk(s) && Local(s, t, o) && DedupOk(s)
    requires q != o && q in s.procs && s.procs[q].Create? && (s.procs[q].at.Written? || s.procs[q].at.Counted?) && CreateOk(s, q, s.procs[q])
    ensures Payload(s.procs[q].at.backend, s.procs[q].at.key) in t.phys
  {
    var p := s.procs[q];
    var i := Identity(p.content, p.at.backend);
    assert EntryOk(s.db.replicas, s.db.dedup, i);
    assert !Mine(Payload(p.at.backend, p.at.key), o, s.procs[o].held);
  }

  lemma OtherPlanned(s: State, t: State, o: ObjectId, q: ObjectId, p: Proc)
    requires Local(s, t, o) && q != o && p.Reclaim? && PlannedOk(s.db, q, p)
    ensures PlannedOk(t.db, q, p)
  {
    assert RowsOf(t.db, q) == RowsOf(s.db, q);
    assert VaultsOf(t.db, q) == VaultsOf(s.db, q);
  }

  lemma OtherRecord(s: State, t: State, o: ObjectId, q: ObjectId, p: Proc, phase: Phase, planned: bool, state: Lifecycle, x: AttemptStatus, y: ReservationStatus)
    requires Local(s, t, o) && q != o && p.Reclaim? && RecordIs(s.db, q, p, phase, planned, state, x, y)
    ensures RecordIs(t.db, q, p, phase, planned, state, x, y) && t.db.journal[p.attempt] == s.db.journal[p.attempt]
  {
  }

  lemma OtherDeleting(s: State, t: State, o: ObjectId, q: ObjectId, p: Proc)
    requires GuardsOk(s) && PhysicalHeld(s.db.journal, s.procs) && Local(s, t, o)
    requires q != o && p.Reclaim? && p.pc.Deleting? && p.attempt in s.db.journal && DeletingOk(s, p)
    requires s.db.journal[p.attempt].owner == q && IsPhysical(s.db.journal[p.attempt].phase) && Shaped(s.db.journal[p.attempt])
    requires p.attempt in t.db.journal && t.db.journal[p.attempt] == s.db.journal[p.attempt]
    ensures DeletingOk(t, p)
  {
    forall l <- Targets(s.db.journal[p.attempt]) ensures l in s.phys <==> l in t.phys { TargetsApart(s, o, p.attempt, l); }
  }

  lemma OtherEmptied(s: State, t: State, o: ObjectId, q: ObjectId, p: Proc)
    requires GuardsOk(s) && PhysicalHeld(s.db.journal, s.procs) && Local(s, t, o)
    requires q != o && p.Reclaim? && Emptied(s, p)
    requires s.db.journal[p.attempt].owner == q && IsPhysical(s.db.journal[p.attempt].phase) && Shaped(s.db.journal[p.attempt])
    requires p.attempt in t.db.journal && t.db.journal[p.attempt] == s.db.journal[p.attempt]
    ensures Emptied(t, p)
  {
    forall l <- Targets(s.db.journal[p.attempt]) ensures l in s.phys <==> l in t.phys { TargetsApart(s, o, p.attempt, l); }
  }

  lemma OtherReclaim(s: State, t: State, o: ObjectId, q: ObjectId)
    requires GuardsOk(s) && PhysicalHeld(s.db.journal, s.procs) && JournalsOk(s.db, s.phys) && Local(s, t, o)
    requires SafetyKept(s.db.objects, t.db.objects)
    requires q != o && q in s.procs && s.procs[q].Reclaim? && ReclaimOk(s, q, s.procs[q])
    ensures ReclaimOk(t, q, s.procs[q])
  {
    var p := s.procs[q];
    if p.pc.Planned? {
      OtherPlanned(s, t, o, q, p);
    } else {
      OtherRecord(s, t, o, q, p, s.db.journal[p.attempt].phase, s.db.journal[p.attempt].plan.Some?, s.db.objects[q].state, s.db.attempts[p.attempt], s.db.reservations[p.attempt].status);
      if DirectSafe(s.db.objects, s.edges, q) { SafeFrame(s.db.objects, t.db.objects, s.edges, q); }
      if p.pc.Deleting? {
        assert JournalOk(s.db, s.phys, p.attempt);
        OtherDeleting(s, t, o, q, p);
      }
      if p.pc.Dropping? || p.pc.Releasing? || p.pc.Closing? {
        assert JournalOk(s.db, s.phys, p.attempt);
        OtherEmptied(s, t, o, q, p);
      }
    }
  }

  // ------------------------------------------------------------------
  // Putting the others and the operation's own part together
  // ------------------------------------------------------------------

  /** The part of the durable invariant that concerns `o` itself. */
  ghost predicate OwnDurable(d: Db, phys: Physical, o: ObjectId) {
    && (forall a <- d.journal :: d.journal[a].owner == o ==> JournalOk(d, phys, a))
    && (forall r <- d.replicas :: d.replicas[r].owner == o ==> ReplicaOk(d, phys, d.replicas[r]))
    && (forall x <- d.archives :: d.archives[x].owner == o ==> ArchiveOk(d, phys, d.archives[x]))
  }

  /** The part of the durable invariant that relates objects. */
  ghost predicate CrossDurable(d: Db, phys: Physical) {
    && d.attempts.Keys == d.journal.Keys == d.reservations.Keys
    && KeysAgree(d.replicas)
    && PlansPrivate(d.journal, d.replicas)
    && OneOpen(d.journal)
    && ReclaimedExpendable(d.objects)
    && Faithful(phys)
  }

  lemma OtherJournals(s: State, t: State, o: ObjectId)
    requires GuardsOk(s) && PhysicalHeld(s.db.journal, s.procs) && JournalsOk(s.db, s.phys) && Local(s, t, o)
    requires forall a <- t.db.journal :: t.db.journal[a].owner == o ==> JournalOk(t.db, t.phys, a)
    ensures JournalsOk(t.db, t.phys)
  {
    forall a <- t.db.journal ensures JournalOk(t.db, t.phys, a) {
      if t.db.journal[a].owner != o {
        assert JournalOk(s.db, s.phys, a);
        OtherJournal(s, t, o, a);
      }
    }
  }

  lemma OthersRows(s: State, t: State, o: ObjectId)
    requires RowsOk(s.db, s.phys) && Local(s, t, o) && SparesOthers(s, t, o)
    requires OwnDurable(t.db, t.phys, o)
    ensures RowsOk(t.db, t.phys)
  {
    forall r <- t.db.replicas ensures ReplicaOk(t.db, t.phys, t.db.replicas[r]) {
      if t.db.replicas[r].owner != o { OtherReplica(s, t, o, r); }
    }
    forall x <- t.db.archives ensures ArchiveOk(t.db, t.phys, t.db.archives[x]) {
      if t.db.archives[x].owner != o { OtherArchive(s, t, o, x); }
    }
  }

  lemma DurableLocal(s: State, t: State, o: ObjectId)
    requires DurableOk(s.db, s.phys) && LiveOk(s) && Local(s, t, o) && SparesOthers(s, t, o)
    requires OwnDurable(t.db, t.phys, o) && CrossDurable(t.db, t.phys)
    ensures DurableOk(t.db, t.phys)
  {
    OtherJournals(s, t, o);
    OthersRows(s, t, o);
  }

  lemma OtherProcs(s: State, t: State, o: ObjectId)
    requires GuardsOk(s) && PhysicalHeld(s.db.journal, s.procs) && JournalsOk(s.db, s.phys) && DedupOk(s) && Local(s, t, o)
    requires SafetyKept(s.db.objects, t.db.objects)
    requires forall q <- s.procs :: ProcOk(s, q)
    requires o in t.procs ==> ProcOk(t, o)
    ensures forall q <- t.procs :: ProcOk(t, q)
  {
    forall q <- t.procs ensures ProcOk(t, q) {
      if q != o {
        assert ProcOk(s, q);
        if s.procs[q].Create? { OtherCreate(s, t, o, q); } else { OtherReclaim(s, t, o, q); }
      }
    }
  }

  // ------------------------------------------------------------------
  // Dedup accounting of the payloads that are not locked by the operation
  // ------------------------------------------------------------------

  lemma OtherCounts(s: State, t: State, o: ObjectId, i: Identity)
    requires Local(s, t, o) && i !in s.procs[o].held
    requires CountOk(s.db.replicas, s.db.dedup, s.procs, i) && EntryOk(s.db.replicas, s.db.dedup, i)
    requires Owed(s.procs[o]) != Some(i)
    requires o in t.procs ==> Owed(t.procs[o]) != Some(i)
    ensures CountOk(t.db.replicas, t.db.dedup, t.procs, i) && EntryOk(t.db.replicas, t.db.dedup, i)
  {
    assert RowSet(t.db.replicas, i) == RowSet(s.db.replicas, i);
    if OwedBySome(s.procs, i) {
      var q :| q in s.procs && Owed(s.procs[q]) == Some(i);
      assert t.procs[q] == s.procs[q];
    }
    if OwedBySome(t.procs, i) {
      var q :| q in t.procs && Owed(t.procs[q]) == Some(i);
      assert s.procs[q] == t.procs[q];
    }
  }

  // ------------------------------------------------------------------
  // The live invariant
  // ------------------------------------------------------------------

  /** The part of the live invariant that concerns the operation on `o`. */
  ghost predicate OwnLive(s: State, t: State, o: ObjectId)
    requires o in s.procs
  {
    && (o in t.procs ==> ProcOk(t, o))
    && (o in t.procs && Owed(t.procs[o]).Some? ==> Owed(t.procs[o]).value in s.procs[o].held)
    && (forall i <- s.procs[o].held :: CountOk(t.db.replicas, t.db.dedup, t.procs, i) && EntryOk(t.db.replicas, t.db.dedup, i))
    && (forall a <- t.db.journal :: t.db.journal[a].owner == o && IsPhysical(t.db.journal[a].phase) ==>
          RunsAttempt(t.procs, o, a) && Identities(t.db.journal[a].deletions) <= t.procs[o].held)
    && (forall a <- t.db.journal :: t.db.journal[a].owner == o && Unfinished(t.db.journal[a].phase) && a in t.db.reservations ==>
          && t.db.reservations[a].owner == o
          && (RunsAttempt(t.procs, o, a) || t.db.reservations[a].status == ReservationOpen))
    && (o in t.db.objects || IsCreate(t, o) || forall r <- t.db.replicas :: t.db.replicas[r].owner != o)
  }

  lemma OwedHeld(s: State, o: ObjectId)
    requires o in s.procs && ProcOk(s, o)
    ensures Owed(s.procs[o]).Some? ==> Owed(s.procs[o]).value in s.procs[o].held
  {
  }

  lemma DedupLocal(s: State, t: State, o: ObjectId)
    requires DedupOk(s) && Local(s, t, o) && ProcOk(s, o)
    requires o in t.procs && Owed(t.procs[o]).Some? ==> Owed(t.procs[o]).value in s.procs[o].held
    requires forall i <- s.procs[o].held :: CountOk(t.db.replicas, t.db.dedup, t.procs, i) && EntryOk(t.db.replicas, t.db.dedup, i)
    ensures DedupOk(t)
  {
    OwedHeld(s, o);
    forall i ensures CountOk(t.db.replicas, t.db.dedup, t.procs, i) && EntryOk(t.db.replicas, t.db.dedup, i) {
      if i !in s.procs[o].held { OtherCounts(s, t, o, i); }
    }
  }

  lemma HeldLocal(s: State, t: State, o: ObjectId)
    requires PhysicalHeld(s.db.journal, s.procs) && Local(s, t, o) && OwnLive(s, t, o)
    ensures PhysicalHeld(t.db.journal, t.procs)
  {
  }

  lemma ReservedLocal(s: State, t: State, o: ObjectId)
    requires OpenReserved(s) && Local(s, t, o) && OwnLive(s, t, o) && s.db.reservations.Keys == s.db.journal.Keys
    ensures OpenReserved(t)
  {
  }

  lemma OrphansLocal(s: State, t: State, o: ObjectId)
    requires OrphansMade(s) && Local(s, t, o) && OwnLive(s, t, o)
    ensures OrphansMade(t)
  {
  }

  lemma LiveLocal(s: State, t: State, o: ObjectId)
    requires DurableOk(s.db, s.phys) && LiveOk(s) && Local(s, t, o)
    requires GuardsOk(t) && OwnLive(s, t, o) && SafetyKept(s.db.objects, t.db.objects)
    ensures LiveOk(t)
  {
    assert ProcOk(s, o);
    DedupLocal(s, t, o);
    OtherProcs(s, t, o);
    HeldLocal(s, t, o);
    ReservedLocal(s, t, o);
    OrphansLocal(s, t, o);
  }

  /** A local step whose own part is right keeps the whole invariant. */
  lemma LocalKeeps(s: State, t: State, o: ObjectId)
    requires Inv(s) && Local(s, t, o) && SparesOthers(s, t, o)
    requires OwnDurable(t.db, t.phys, o) && CrossDurable(t.db, t.phys)
    requires GuardsOk(t) && OwnLive(s, t, o) && SafetyKept(s.db.objects, t.db.objects)
    ensures Inv(t)
  {
    DurableLocal(s, t, o);
    LiveLocal(s, t, o);
  }

  // ------------------------------------------------------------------
  // Guards
  // ------------------------------------------------------------------

  lemma GuardsMove(s: State, t: State, o: ObjectId)
    requires GuardsOk(s) && o in s.procs && o in t.procs && SameProcs(s.procs, t.procs, o)
    requires t.procs[o].held == s.procs[o].held
    requires t.activeObjects == s.activeObjects && t.activePayloads == s.activePayloads && t.activeRecovery == s.activeRecovery
    ensures GuardsOk(t)
  {
    forall i <- t.activePayloads ensures exists q :: q in t.procs && i in t.procs[q].held {
      var q :| q in s.procs && i in s.procs[q].held;
      assert q in t.procs && i in t.procs[q].held;
    }
    assert t.procs.Keys == s.procs.Keys;
    assert t.activeRecovery ==> o in s.procs && s.procs == map[];
  }

  lemma GuardsFinish(s: State, t: State, o: ObjectId)
    requires GuardsOk(s) && o in s.procs && t.procs == s.procs - {o}
    requires t.activeObjects == s.activeObjects - {o} && t.activePayloads == s.activePayloads - s.procs[o].held
    requires t.activeRecovery == s.activeRecovery
    ensures GuardsOk(t)
  {
    forall i <- t.activePayloads ensures exists q :: q in t.procs && i in t.procs[q].held {
      var q :| q in s.procs && i in s.procs[q].held;
      assert q in t.procs && i in t.procs[q].held;
    }
    assert !s.activeRecovery;
  }

  /** Taking payload keys nobody holds. */
  lemma GuardsLock(s: State, t: State, o: ObjectId, keys: set<Identity>)
    requires GuardsOk(s) && o in s.procs && o in t.procs && SameProcs(s.procs, t.procs, o)
    requires s.procs[o].held == {} && t.procs[o].held == keys && keys !! s.activePayloads
    requires t.activeObjects == s.activeObjects && t.activePayloads == s.activePayloads + keys && t.activeRecovery == s.activeRecovery
    ensures GuardsOk(t)
  {
    forall i <- t.activePayloads ensures exists q :: q in t.procs && i in t.procs[q].held {
      if i in keys {
        assert o in t.procs && i in t.procs[o].held;
      } else {
        var q :| q in s.procs && i in s.procs[q].held;
        assert q in t.procs && i in t.procs[q].held;
      }
    }
    assert t.procs.Keys == s.procs.Keys;
    assert !s.activeRecovery;
  }

  lemma GuardsUnlock(s: State, t: State, o: ObjectId)
    requires GuardsOk(s) && o in s.procs && o in t.procs && SameProcs(s.procs, t.procs, o)
    requires t.procs[o].held == {}
    requires t.activeObjects == s.activeObjects && t.activePayloads == s.activePayloads - s.procs[o].held && t.activeRecovery == s.activeRecovery
    ensures GuardsOk(t)
  {
    forall i <- t.activePayloads ensures exists q :: q in t.procs && i in t.procs[q].held {
      var q :| q in s.procs && i in s.procs[q].held;
      assert q in t.procs && i in t.procs[q].held;
    }
    assert t.procs.Keys == s.procs.Keys;
    assert !s.activeRecovery;
  }

  lemma GuardsBegin(s: State, t: State, o: ObjectId)
    requires GuardsOk(s) && !s.activeRecovery && o !in s.procs && o in t.procs && SameProcs(s.procs, t.procs, o)
    requires t.procs[o].held == {}
    requires t.activeObjects == s.activeObjects + {o} && t.activePayloads == s.activePayloads && t.activeRecovery == s.activeRecovery
    ensures GuardsOk(t)
  {
    forall i <- t.activePayloads ensures exists q :: q in t.procs && i in t.procs[q].held {
      var q :| q in s.procs && i in s.procs[q].held;
      assert q in t.procs && i in t.procs[q].held;
    }
    assert t.procs.Keys == s.procs.Keys + {o};
  }
}
