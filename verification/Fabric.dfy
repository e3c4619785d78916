/** The entities of the reclaim fabric and the tables of its durable store.

    Identifiers are only compared for equality, so they are numbers here. A payload is
    represented by its `Content`: SHA-256 is taken to be injective, so two payloads are the
    same bytes exactly when their contents are equal. */
module Fabric {

  datatype Option<+T> = None | Some(value: T)

  datatype Error = InvalidArgument | NotFound | Conflict | DedupFailure | RecoveryFailure

  datatype Result<+T> = Ok(value: T) | Err(error: Error)

  type ObjectId = nat
  type AttemptId = nat
  type ReplicaId = nat
  type ArchiveId = nat
  type Backend = nat

  /** A payload up to equality of bytes, with its length. */
  datatype Content = Content(digest: nat, length: nat)

  /** A backend key. `dedup_key(hash)` has suffix 0 and the `-rN` copies have suffix N; every
      generated key determines the content stored under it. */
  datatype Key = Key(content: Content, suffix: nat)

  /** One physical payload per backend and content. */
  datatype Identity = Identity(content: Content, backend: Backend)

  /** A place bytes can live: a payload backend, or an archive. Archive keys start with the id
      of the object they belong to. */
  datatype Loc =
    | Payload(backend: Backend, key: Key)
    | Vault(backend: Backend, owner: ObjectId, entry: nat)

  datatype Lifecycle =
    | Created | Hot | Warm | Cold | Compressed | Deduped | Archived
    | Recomputable | ReclaimPending | Reclaimed | Failed

  datatype Durability = Ephemeral | Reproducible | Durable | Critical

  /** Fewest valid copies the runtime must keep for a durability class. */
  function MinValidCopies(c: Durability): (n: nat) {
    match c
    case Ephemeral => 0
    case Reproducible => 0
    case Durable => 1
    case Critical => 2
  }

  datatype Object = Object(
    generation: nat,
    state: Lifecycle,
    durability: Durability,
    pinned: bool,
    protected: bool,
    reconstructible: bool,
    replicationCount: nat,
    physicalSize: nat,
    compressedSize: Option<nat>)

  datatype Replica = Replica(
    owner: ObjectId,
    generation: nat,
    backend: Backend,
    key: Key,
    size: nat,
    content: Content,
    valid: bool)

  datatype Archive = Archive(
    owner: ObjectId,
    generation: nat,
    backend: Backend,
    entry: nat,
    size: nat,
    content: Content)

  datatype DedupEntry = DedupEntry(key: Key, refs: nat, size: nat)

  datatype Phase =
    | PhaseReserved | PhaseValidated | PhysicalStarted | PhysicalDone
    | PhaseCommitted | PhaseRolledBack | PhaseFailed

  datatype AttemptStatus = AttemptOpen | AttemptCommitted | AttemptRolledBack | AttemptFailed

  datatype ReservationStatus =
    | ReservationOpen | ReservationCommitted | ReservationReleased | ReservationExpired

  datatype Reservation = Reservation(owner: ObjectId, status: ReservationStatus, expiresAt: int)

  /** A recovery-journal row: the object before the attempt, the rows the attempt is going to
      drop, and, from PHYSICAL_STARTED on, the replicas whose payload it deletes. */
  datatype Journal = Journal(
    owner: ObjectId,
    generation: nat,
    phase: Phase,
    prior: Object,
    deletions: map<ReplicaId, Replica>,
    plan: Option<set<ReplicaId>>,
    archives: map<ArchiveId, Archive>)

  /** The durable tables the protocol reads and writes. Each attempt has one reservation, so
      reservations are indexed by attempt. */
  datatype Db = Db(
    objects: map<ObjectId, Object>,
    replicas: map<ReplicaId, Replica>,
    archives: map<ArchiveId, Archive>,
    dedup: map<Identity, DedupEntry>,
    journal: map<AttemptId, Journal>,
    attempts: map<AttemptId, AttemptStatus>,
    reservations: map<AttemptId, Reservation>)

  /** What the backends hold. */
  type Physical = map<Loc, Content>

  function IdentityOf(r: Replica): (i: Identity) {
    Identity(r.content, r.backend)
  }

  function PlaceOf(r: Replica): (l: Loc) {
    Payload(r.backend, r.key)
  }

  function VaultOf(a: Archive): (l: Loc) {
    Vault(a.backend, a.owner, a.entry)
  }

  predicate Unfinished(p: Phase) {
    p.PhaseReserved? || p.PhaseValidated? || p.PhysicalStarted? || p.PhysicalDone?
  }

  predicate IsPhysical(p: Phase) {
    p.PhysicalStarted? || p.PhysicalDone?
  }

  /** The replica rows that share one physical payload. */
  function RowSet(replicas: map<ReplicaId, Replica>, i: Identity): (rows: set<ReplicaId>) {
    set r | r in replicas && IdentityOf(replicas[r]) == i
  }

  function Refs(dedup: map<Identity, DedupEntry>, i: Identity): (n: nat) {
    if i in dedup then dedup[i].refs else 0
  }

  /** The places an attempt means to empty: its planned payloads and all its archives. */
  function Targets(j: Journal): (places: set<Loc>) {
    (if j.plan.None? then {} else set r | r in j.plan.value && r in j.deletions :: PlaceOf(j.deletions[r]))
    + (set x | x in j.archives :: VaultOf(j.archives[x]))
  }
}
