/** What a crash may leave behind, and what recovery must make of it. */
module Durable {
  import opened Fabric

  datatype Verdict = Commit | RollBack | Stuck | Settled

  /** The classification of one journal row against physical truth. `Stuck` rows are left open
      and reported. */
  function Decide(j: Journal, phys: Physical): (v: Verdict) {
    match j.phase
    case PhaseReserved => if j.plan.None? then RollBack else Stuck
    case PhaseValidated => if j.plan.None? then RollBack else Stuck
    case PhysicalStarted =>
      if j.plan.None? then Stuck
      else if Targets(j) == {} then RollBack
      else Observe(Targets(j), phys)
    case PhysicalDone =>
      if j.plan.None? then Stuck
      else if Targets(j) == {} then Commit
      else Observe(Targets(j), phys)
    case _ => Settled
  }

  function Observe(places: set<Loc>, phys: Physical): (v: Verdict) {
    if places !! phys.Keys then Commit else if places <= phys.Keys then RollBack else Stuck
  }

  // ------------------------------------------------------------------
  // The crash-surviving invariant
  // ------------------------------------------------------------------

  /** The journal row describes rows of its own object and generation only. */
  ghost predicate Shaped(j: Journal) {
    && j.prior.generation == j.generation
    && (forall r <- j.deletions ::
          && j.deletions[r].owner == j.owner && j.deletions[r].generation == j.generation
          && j.deletions[r].key.content == j.deletions[r].content)
    && (forall x <- j.archives :: j.archives[x].owner == j.owner && j.archives[x].generation == j.generation)
    && (j.plan.Some? ==> j.plan.value <= j.deletions.Keys)
  }

  /** Every row the object still owns is one the attempt scheduled. */
  ghost predicate Covers(replicas: map<ReplicaId, Replica>, archives: map<ArchiveId, Archive>, j: Journal) {
    && (forall r <- replicas :: replicas[r].owner == j.owner ==> r in j.deletions && j.deletions[r] == replicas[r])
    && (forall x <- archives :: archives[x].owner == j.owner ==> x in j.archives && j.archives[x] == archives[x])
  }

  /** A stored row under a scheduled id is the scheduled row. */
  ghost predicate Matches(replicas: map<ReplicaId, Replica>, archives: map<ArchiveId, Archive>, j: Journal) {
    && (forall r <- j.deletions :: r in replicas ==> replicas[r] == j.deletions[r])
    && (forall x <- j.archives :: x in archives ==> archives[x] == j.archives[x])
  }

  /** None of the scheduled rows has been dropped. */
  ghost predicate Whole(replicas: map<ReplicaId, Replica>, archives: map<ArchiveId, Archive>, j: Journal) {
    j.deletions.Keys <= replicas.Keys && j.archives.Keys <= archives.Keys
  }

  /** All of the scheduled rows have been dropped. */
  ghost predicate Dropped(replicas: map<ReplicaId, Replica>, archives: map<ArchiveId, Archive>, j: Journal) {
    j.deletions.Keys !! replicas.Keys && j.archives.Keys !! archives.Keys
  }

  predicate Expendable(o: Object) {
    MinValidCopies(o.durability) == 0
  }

  predicate Unguarded(o: Object) {
    !o.pinned && !o.protected
  }

  /** Statuses and object of an attempt whose deletions are all done. */
  predicate CommitReady(o: Object, attempt: AttemptStatus, reservation: ReservationStatus) {
    && attempt in {AttemptOpen, AttemptCommitted}
    && reservation in {ReservationOpen, ReservationCommitted}
    && o.state in {ReclaimPending, Reclaimed}
    && Unguarded(o)
  }

  /** Statuses and object of an attempt that can still be undone. */
  predicate RollBackReady(o: Object, j: Journal, attempt: AttemptStatus, reservation: ReservationStatus) {
    && attempt in {AttemptOpen, AttemptRolledBack}
    && reservation in {ReservationOpen, ReservationReleased}
    && o.state != Reclaimed
    && j.prior.state != Reclaimed
  }

  /** A finished journal row has an attempt with the same outcome and a closed reservation. */
  predicate SettledRight(p: Phase, attempt: AttemptStatus, reservation: ReservationStatus) {
    match p
    case PhaseCommitted => attempt == AttemptCommitted && reservation == ReservationCommitted
    case PhaseRolledBack => attempt == AttemptRolledBack && reservation == ReservationReleased
    case _ => false
  }

  /** One journal row agrees with the tables around it. */
  ghost predicate JournalOk(d: Db, phys: Physical, a: AttemptId)
    requires a in d.journal
  {
    var j := d.journal[a];
    && a in d.attempts && a in d.reservations
    && j.owner in d.objects
    && d.objects[j.owner].generation == j.generation
    && Expendable(j.prior) && Expendable(d.objects[j.owner])
    && Shaped(j)
    && (Unfinished(j.phase) ==>
          && Covers(d.replicas, d.archives, j)
          && Matches(d.replicas, d.archives, j)
          && (IsPhysical(j.phase) <==> j.plan.Some?))
    && match Decide(j, phys)
       case Commit => CommitReady(d.objects[j.owner], d.attempts[a], d.reservations[a].status)
       case RollBack =>
         && RollBackReady(d.objects[j.owner], j, d.attempts[a], d.reservations[a].status)
         && Whole(d.replicas, d.archives, j)
       case Stuck =>
         && j.phase == PhysicalStarted
         && RollBackReady(d.objects[j.owner], j, d.attempts[a], d.reservations[a].status)
         && Whole(d.replicas, d.archives, j)
       case Settled => SettledRight(j.phase, d.attempts[a], d.reservations[a].status)
  }

  /** A payload that is missing is one its own object's open attempt was entitled to delete. */
  ghost predicate Excused(journal: map<AttemptId, Journal>, owner: ObjectId, place: Loc) {
    exists a :: a in journal && journal[a].owner == owner && IsPhysical(journal[a].phase) && place in Targets(journal[a])
  }

  ghost predicate ReplicaOk(d: Db, phys: Physical, row: Replica) {
    && row.key.content == row.content
    && row.size == row.content.length
    && (row.owner in d.objects ==> d.objects[row.owner].generation == row.generation && d.objects[row.owner].state != Reclaimed)
    && (PlaceOf(row) in phys || Excused(d.journal, row.owner, PlaceOf(row)))
  }

  ghost predicate ArchiveOk(d: Db, phys: Physical, row: Archive) {
    && row.owner in d.objects
    && d.objects[row.owner].generation == row.generation
    && d.objects[row.owner].state != Reclaimed
    && (VaultOf(row) in phys || Excused(d.journal, row.owner, VaultOf(row)))
  }

  /** Rows sharing a payload agree on where it is. */
  ghost predicate KeysAgree(replicas: map<ReplicaId, Replica>) {
    forall r <- replicas, q <- replicas :: IdentityOf(replicas[r]) == IdentityOf(replicas[q]) ==> replicas[r].key == replicas[q].key
  }

  /** Only the planning object has rows at a place its attempt deletes. */
  ghost predicate PlansPrivate(journal: map<AttemptId, Journal>, replicas: map<ReplicaId, Replica>) {
    forall a <- journal, r <- replicas ::
      IsPhysical(journal[a].phase) && PlaceOf(replicas[r]) in Targets(journal[a]) ==> replicas[r].owner == journal[a].owner
  }

  /** Open attempts are on different objects and schedule different rows. */
  ghost predicate OneOpen(journal: map<AttemptId, Journal>) {
    forall a <- journal, b <- journal :: a != b && Unfinished(journal[a].phase) && Unfinished(journal[b].phase) ==>
      && journal[a].owner != journal[b].owner
      && journal[a].deletions.Keys !! journal[b].deletions.Keys
      && journal[a].archives.Keys !! journal[b].archives.Keys
  }

  ghost predicate ReclaimedExpendable(objects: map<ObjectId, Object>) {
    forall o <- objects :: objects[o].state == Reclaimed ==> Expendable(objects[o])
  }

  /** Payload writes are verified, so a key that exists holds its own content. */
  ghost predicate Faithful(phys: Physical) {
    forall l <- phys :: l.Payload? ==> phys[l] == l.key.content
  }

  ghost predicate JournalsOk(d: Db, phys: Physical) {
    forall a <- d.journal :: JournalOk(d, phys, a)
  }

  ghost predicate RowsOk(d: Db, phys: Physical) {
    && (forall r <- d.replicas :: ReplicaOk(d, phys, d.replicas[r]))
    && (forall x <- d.archives :: ArchiveOk(d, phys, d.archives[x]))
  }

  /** What holds of the store and the backends after a crash at any point. */
  ghost predicate DurableOk(d: Db, phys: Physical) {
    && JournalsOk(d, phys)
    && RowsOk(d, phys)
    && d.attempts.Keys == d.journal.Keys == d.reservations.Keys
    && KeysAgree(d.replicas)
    && PlansPrivate(d.journal, d.replicas)
    && OneOpen(d.journal)
    && ReclaimedExpendable(d.objects)
    && Faithful(phys)
  }

  /** Every replica row belongs to a registered object. */
  ghost predicate NoOrphans(d: Db) {
    forall r <- d.replicas :: d.replicas[r].owner in d.objects
  }

  // ------------------------------------------------------------------
  // The dedup table as the group-by of the replica table
  // ------------------------------------------------------------------

  ghost predicate ExactFor(replicas: map<ReplicaId, Replica>, dedup: map<Identity, DedupEntry>, i: Identity) {
    && (i in dedup <==> RowSet(replicas, i) != {})
    && (i in dedup ==>
          && dedup[i].refs == |RowSet(replicas, i)|
          && forall r <- RowSet(replicas, i) :: dedup[i].key == replicas[r].key && dedup[i].size == replicas[r].size)
  }

  ghost predicate Exact(replicas: map<ReplicaId, Replica>, dedup: map<Identity, DedupEntry>) {
    forall i :: ExactFor(replicas, dedup, i)
  }

  // ------------------------------------------------------------------
  // What recovery must leave
  // ------------------------------------------------------------------

  function Resolved(j: Journal, phys: Physical): (k: Journal) {
    match Decide(j, phys)
    case Commit => j.(phase := PhaseCommitted)
    case RollBack => j.(phase := PhaseRolledBack)
    case _ => j
  }

  function ReclaimedForm(o: Object): (p: Object) {
    o.(state := Reclaimed, replicationCount := 0, physicalSize := 0, compressedSize := None)
  }

  function SettledObject(o: Object, j: Journal, phys: Physical): (p: Object) {
    match Decide(j, phys)
    case Commit => ReclaimedForm(o)
    case RollBack => if o.state != j.prior.state then j.prior else o
    case _ => o
  }

  predicate Decided(j: Journal, phys: Physical) {
    Decide(j, phys).Commit? || Decide(j, phys).RollBack?
  }

  ghost predicate JournalOutcome(d: Db, phys: Physical, f: Db) {
    && f.journal.Keys == d.journal.Keys
    && (forall a <- d.journal :: f.journal[a] == Resolved(d.journal[a], phys))
  }

  ghost predicate StatusOutcome(d: Db, phys: Physical, f: Db) {
    && f.attempts.Keys == d.attempts.Keys
    && f.reservations.Keys == d.reservations.Keys
    && (forall a <- d.journal :: a in d.attempts && a in d.reservations ==>
          match Decide(d.journal[a], phys)
          case Commit =>
            && f.attempts[a] == AttemptCommitted
            && f.reservations[a] == d.reservations[a].(status := ReservationCommitted)
          case RollBack =>
            && f.attempts[a] == AttemptRolledBack
            && f.reservations[a] == d.reservations[a].(status := ReservationReleased)
          case _ => f.attempts[a] == d.attempts[a] && f.reservations[a] == d.reservations[a])
  }

  ghost predicate ObjectOutcome(d: Db, phys: Physical, f: Db) {
    && f.objects.Keys == d.objects.Keys
    && (forall a <- d.journal :: Decided(d.journal[a], phys) && d.journal[a].owner in d.objects ==>
          f.objects[d.journal[a].owner] == SettledObject(d.objects[d.journal[a].owner], d.journal[a], phys))
    && (forall o <- d.objects :: (forall a <- d.journal :: Decided(d.journal[a], phys) ==> d.journal[a].owner != o) ==>
          f.objects[o] == d.objects[o])
  }

  ghost predicate ReplicaOutcome(d: Db, phys: Physical, f: Db) {
    && (forall a <- d.journal :: Decide(d.journal[a], phys).Commit? ==> d.journal[a].deletions.Keys !! f.replicas.Keys)
    && (forall a <- d.journal :: Decide(d.journal[a], phys).RollBack? ==>
          forall r <- d.journal[a].deletions :: r in f.replicas && f.replicas[r] == d.journal[a].deletions[r])
    && (forall r :: (forall a <- d.journal :: Decided(d.journal[a], phys) ==> r !in d.journal[a].deletions) ==>
          && (r in f.replicas <==> r in d.replicas)
          && (r in f.replicas ==> f.replicas[r] == d.replicas[r]))
  }

  ghost predicate ArchiveOutcome(d: Db, phys: Physical, f: Db) {
    && (forall a <- d.journal :: Decide(d.journal[a], phys).Commit? ==> d.journal[a].archives.Keys !! f.archives.Keys)
    && (forall a <- d.journal :: Decide(d.journal[a], phys).RollBack? ==>
          forall x <- d.journal[a].archives :: x in f.archives && f.archives[x] == d.journal[a].archives[x])
    && (forall x :: (forall a <- d.journal :: Decided(d.journal[a], phys) ==> x !in d.journal[a].archives) ==>
          && (x in f.archives <==> x in d.archives)
          && (x in f.archives ==> f.archives[x] == d.archives[x]))
  }

  /** `f` is what recovery must make of the crash state `d`: every row the physical truth can
      classify is settled, rows it cannot classify are untouched, and dedup is recounted. */
  ghost predicate IsOutcome(d: Db, phys: Physical, f: Db) {
    && JournalOutcome(d, phys, f)
    && StatusOutcome(d, phys, f)
    && ObjectOutcome(d, phys, f)
    && ReplicaOutcome(d, phys, f)
    && ArchiveOutcome(d, phys, f)
    && Exact(f.replicas, f.dedup)
  }
}
