/** What every reachable state of the coordinator satisfies. */
module Invariant {
  import opened Fabric
  import opened Durable
  import opened RecoveryWrites
  import opened LifecycleTable
  import opened Protocol

  // ------------------------------------------------------------------
  // Guards
  // ------------------------------------------------------------------

  /** The guard sets are exactly what the running operations hold; no two operations hold the
      same payload; recovery runs alone. */
  ghost predicate GuardsOk(s: State) {
    && s.activeObjects == s.procs.Keys
    && (forall o <- s.procs, q <- s.procs :: o != q ==> s.procs[o].held !! s.procs[q].held)
    && (forall o <- s.procs :: s.procs[o].held <= s.activePayloads)
    && (forall i <- s.activePayloads :: exists o :: o in s.procs && i in s.procs[o].held)
    && (s.activeRecovery ==> s.procs == map[])
  }

  // ------------------------------------------------------------------
  // Dedup accounting
  // ------------------------------------------------------------------

  ghost predicate OwedBySome(procs: map<ObjectId, Proc>, i: Identity) {
    exists o :: o in procs && Owed(procs[o]) == Some(i)
  }

  /** The reference count is the number of rows, plus one while an operation under the payload
      guard is between changing the count and changing the row. */
  ghost predicate CountOk(replicas: map<ReplicaId, Replica>, dedup: map<Identity, DedupEntry>, procs: map<ObjectId, Proc>, i: Identity) {
    Refs(dedup, i) == |RowSet(replicas, i)| + (if OwedBySome(procs, i) then 1 else 0)
  }

  ghost predicate EntryOk(replicas: map<ReplicaId, Replica>, dedup: map<Identity, DedupEntry>, i: Identity) {
    i in dedup ==>
      && dedup[i].refs >= 1
      && dedup[i].key.content == i.content
      && dedup[i].size == i.content.length
      && forall r <- RowSet(replicas, i) :: replicas[r].key == dedup[i].key
  }

  ghost predicate DedupOk(s: State) {
    && (forall i :: CountOk(s.db.replicas, s.db.dedup, s.procs, i))
    && (forall i :: EntryOk(s.db.replicas, s.db.dedup, i))
  }

  // ------------------------------------------------------------------
  // Processes
  // ------------------------------------------------------------------

  function IdentityAt(l: Loc): (i: Identity)
    requires l.Payload?
  {
    Identity(l.key.content, l.backend)
  }

  /** A create owns exactly the rows it made, and locks the payloads it works on. */
  ghost predicate CreateOk(s: State, o: ObjectId, p: Proc)
    requires p.Create?
  {
    && o !in s.db.objects
    && p.blank.state in {Created, Hot}
    && (forall r <- p.made ::
          && r in s.db.replicas && s.db.replicas[r].owner == o
          && s.db.replicas[r].content == p.content && s.db.replicas[r].generation == p.blank.generation)
    && (forall r <- s.db.replicas :: s.db.replicas[r].owner == o ==> r in p.made)
    && (if p.at.Waiting? || p.at.Rewaiting? || p.at.Stored? then p.held == {} && p.sweep == {} else CreateKeys(p, s.db.replicas) <= p.held)
    && (p.at.Waiting? ==> p.made == {})
    && (p.at.Rewaiting? || p.at.Stored? || p.at.Cleaning? || p.at.Unrowed? ==> p.todo == {})
    && (!p.at.Cleaning? && !p.at.Unrowed? ==> p.sweep == {})
    && (p.at.Written? ==>
          && p.at.key.content == p.content && Identity(p.content, p.at.backend) in p.held
          && Identity(p.content, p.at.backend) !in s.db.dedup)
    && (p.at.Counted? || p.at.Unrowed? ==>
          && Identity(p.content, p.at.backend) in p.held
          && Identity(p.content, p.at.backend) in s.db.dedup
          && s.db.dedup[Identity(p.content, p.at.backend)].key == p.at.key)
    && (p.at.Written? || p.at.Counted? ==> Payload(p.at.backend, p.at.key) in s.phys)
    && (forall l <- p.sweep :: l.Payload? && l.key.content == p.content && IdentityAt(l) in p.held && IdentityAt(l) !in s.db.dedup)
  }

  /** The journal row, statuses and object of a reclaim are what its program counter says. */
  ghost predicate RecordIs(d: Db, o: ObjectId, p: Proc, phase: Phase, planned: bool, state: Lifecycle, attempt: AttemptStatus, reservation: ReservationStatus)
    requires p.Reclaim?
  {
    && p.attempt in d.journal && p.attempt in d.attempts && p.attempt in d.reservations && o in d.objects
    && d.journal[p.attempt].plan.Some? == planned
    && d.journal[p.attempt] == Entry(o, p, phase, d.journal[p.attempt].plan)
    && d.objects[o] == p.prior.(state := state)
    && d.attempts[p.attempt] == attempt
    && d.reservations[p.attempt].status == reservation
    && d.reservations[p.attempt].owner == o
  }

  /** A reclaim that has read its object but written nothing yet. */
  ghost predicate PlannedOk(d: Db, o: ObjectId, p: Proc)
    requires p.Reclaim?
  {
    && o in d.objects && d.objects[o] == p.prior
    && (forall a <- d.journal :: d.journal[a].owner == o ==> !Unfinished(d.journal[a].phase))
    && p.rows == RowsOf(d, o) && p.vaults == VaultsOf(d, o)
    && p.held == {}
  }

  ghost predicate DeletingOk(s: State, p: Proc)
    requires p.Reclaim? && p.pc.Deleting? && p.attempt in s.db.journal
  {
    var targets := Targets(s.db.journal[p.attempt]);
    p.pc.gone <= targets && p.pc.gone !! s.phys.Keys && targets - p.pc.gone <= s.phys.Keys
  }

  /** Everything the attempt meant to delete is gone. */
  ghost predicate Emptied(s: State, p: Proc)
    requires p.Reclaim?
  {
    p.attempt in s.db.journal && Targets(s.db.journal[p.attempt]) !! s.phys.Keys
  }

  ghost predicate ReclaimOk(s: State, o: ObjectId, p: Proc)
    requires p.Reclaim?
  {
    && Expendable(p.prior) && Unguarded(p.prior) && p.prior.state != Reclaimed
    && (match p.pc
        case Planned => PlannedOk(s.db, o, p)
        case Reserved => RecordIs(s.db, o, p, PhaseReserved, false, p.prior.state, AttemptOpen, ReservationOpen) && p.held == {}
        case Stepped => RecordIs(s.db, o, p, PhaseReserved, false, Recomputable, AttemptOpen, ReservationOpen) && p.held == {}
        case Pending => RecordIs(s.db, o, p, PhaseReserved, false, ReclaimPending, AttemptOpen, ReservationOpen) && p.held == {}
        case Validated => RecordIs(s.db, o, p, PhaseValidated, false, ReclaimPending, AttemptOpen, ReservationOpen) && p.held == {}
        case Cleared =>
          && RecordIs(s.db, o, p, PhaseValidated, false, ReclaimPending, AttemptOpen, ReservationOpen)
          && p.held == {} && DirectSafe(s.db.objects, s.edges, o)
        case Locked =>
          && RecordIs(s.db, o, p, PhaseValidated, false, ReclaimPending, AttemptOpen, ReservationOpen)
          && Identities(p.rows) <= p.held && DirectSafe(s.db.objects, s.edges, o)
        case Aborting(n) =>
          && n <= 3
          && RecordIs(s.db, o, p, PhaseValidated, false,
                      if n == 0 then ReclaimPending else p.prior.state,
                      if n <= 2 then AttemptOpen else AttemptRolledBack,
                      if n <= 1 then ReservationOpen else ReservationReleased)
        case Deleting(_) =>
          && RecordIs(s.db, o, p, PhysicalStarted, true, ReclaimPending, AttemptOpen, ReservationOpen)
          && Identities(p.rows) <= p.held && DirectSafe(s.db.objects, s.edges, o) && DeletingOk(s, p)
        case Dropping =>
          && RecordIs(s.db, o, p, PhysicalDone, true, ReclaimPending, AttemptOpen, ReservationOpen) && Emptied(s, p)
          && Identities(p.rows) <= p.held && DirectSafe(s.db.objects, s.edges, o)
        case Releasing(i) =>
          && RecordIs(s.db, o, p, PhysicalDone, true, ReclaimPending, AttemptOpen, ReservationOpen) && Emptied(s, p)
          && Identities(p.rows) <= p.held && i in p.held && DirectSafe(s.db.objects, s.edges, o)
        case Closing(n) =>
          && n <= 2 && p.rows.Keys !! s.db.replicas.Keys && p.vaults.Keys !! s.db.archives.Keys
          && RecordIs(s.db, o, p, PhysicalDone, true, Reclaimed,
                      if n <= 1 then AttemptOpen else AttemptCommitted,
                      if n == 0 then ReservationOpen else ReservationCommitted)
          && Identities(p.rows) <= p.held && Emptied(s, p) && DirectSafe(s.db.objects, s.edges, o))
  }

  ghost predicate ProcOk(s: State, o: ObjectId)
    requires o in s.procs
  {
    match s.procs[o]
    case Create(_, _, _, _, _, _, _, _) => CreateOk(s, o, s.procs[o])
    case Reclaim(_, _, _, _, _, _) => ReclaimOk(s, o, s.procs[o])
  }

  // ------------------------------------------------------------------
  // Ownership of what is open
  // ------------------------------------------------------------------

  predicate RunsAttempt(procs: map<ObjectId, Proc>, o: ObjectId, a: AttemptId) {
    o in procs && procs[o].Reclaim? && procs[o].attempt == a
  }

  /** An attempt in a physical phase is running and holds the guards of all its payloads. */
  ghost predicate PhysicalHeld(journal: map<AttemptId, Journal>, procs: map<ObjectId, Proc>) {
    forall a <- journal :: IsPhysical(journal[a].phase) ==>
      && RunsAttempt(procs, journal[a].owner, a)
      && Identities(journal[a].deletions) <= procs[journal[a].owner].held
  }

  /** An open attempt is running, or still has its reservation to keep others off. */
  ghost predicate OpenReserved(s: State) {
    forall a <- s.db.journal :: Unfinished(s.db.journal[a].phase) && a in s.db.reservations ==>
      && s.db.reservations[a].owner == s.db.journal[a].owner
      && (|| s.activeRecovery
          || RunsAttempt(s.procs, s.db.journal[a].owner, a)
          || s.db.reservations[a].status == ReservationOpen)
  }

  /** A row without an object belongs to a create that is still running. */
  ghost predicate OrphansMade(s: State) {
    forall r <- s.db.replicas :: s.db.replicas[r].owner in s.db.objects || IsCreate(s, s.db.replicas[r].owner)
  }

  ghost predicate LiveOk(s: State) {
    && GuardsOk(s)
    && DedupOk(s)
    && (forall o <- s.procs :: ProcOk(s, o))
    && PhysicalHeld(s.db.journal, s.procs)
    && OpenReserved(s)
    && OrphansMade(s)
  }

  ghost predicate QuietOk(s: State) {
    s.procs == map[] && s.activeObjects == {} && s.activePayloads == {} && (s.mode.Down? ==> !s.activeRecovery)
  }

  /** The invariant of the coordinator. */
  ghost predicate Inv(s: State) {
    && DurableOk(s.db, s.phys)
    && (if Live(s.mode) then LiveOk(s) else QuietOk(s))
  }

  /** A quiet, consistent store: what the coordinator may be started on. */
  ghost predicate Init(s: State) {
    && s.mode.Running? && !s.activeRecovery && QuietOk(s)
    && DurableOk(s.db, s.phys)
    && (forall a <- s.db.journal :: !Unfinished(s.db.journal[a].phase))
    && NoOrphans(s.db)
    && Exact(s.db.replicas, s.db.dedup)
  }
}
