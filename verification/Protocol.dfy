/** The running coordinator as a transition system: creates and reclaims of different objects
    interleave step by step, each step being one durable write or one physical write, and the
    process may crash between any two of them. */
module Protocol {
  import opened Fabric
  import opened Durable
  import opened RecoveryWrites
  import opened LifecycleTable

  /** Where a `create_object` is. `Counted` and `Unrowed` own a reference that no row shows. */
  datatype CreatePc =
    | Waiting
    | Storing
    | Written(backend: Backend, key: Key)
    | Counted(backend: Backend, key: Key)
    | Stored
    | Rewaiting
    | Cleaning
    | Unrowed(backend: Backend, key: Key)

  /** Where a `reclaim` is. */
  datatype ReclaimPc =
    | Planned
    | Reserved
    | Stepped
    | Pending
    | Validated
    | Cleared
    | Locked
    | Aborting(written: nat)
    | Deleting(gone: set<Loc>)
    | Dropping
    | Releasing(owed: Identity)
    | Closing(closed: nat)

  datatype Proc =
    | Create(content: Content, blank: Object, targets: set<Backend>, todo: set<Backend>, made: set<ReplicaId>, sweep: set<Loc>, at: CreatePc, held: set<Identity>)
    | Reclaim(attempt: AttemptId, prior: Object, rows: map<ReplicaId, Replica>, vaults: map<ArchiveId, Archive>, pc: ReclaimPc, held: set<Identity>)

  datatype Mode = Running | Fenced | Down | Starting

  /** A DEPENDS_ON edge. */
  datatype Dependency = Dependency(parent: ObjectId, child: ObjectId)

  datatype State = State(
    db: Db,
    phys: Physical,
    procs: map<ObjectId, Proc>,
    activeObjects: set<ObjectId>,
    activePayloads: set<Identity>,
    activeRecovery: bool,
    mode: Mode,
    edges: set<Dependency>)

  predicate Live(m: Mode) {
    m.Running? || m.Fenced?
  }

  /** The reference a process has taken and not yet recorded in, or has just removed from, a row. */
  function Owed(p: Proc): (i: Option<Identity>) {
    match p
    case Create(c, _, _, _, _, _, Counted(b, _), _) => Some(Identity(c, b))
    case Create(c, _, _, _, _, _, Unrowed(b, _), _) => Some(Identity(c, b))
    case Reclaim(_, _, _, _, Releasing(i), _) => Some(i)
    case _ => None
  }

  function Identities(rows: map<ReplicaId, Replica>): (ids: set<Identity>) {
    set r | r in rows :: IdentityOf(rows[r])
  }

  /** The journal row an attempt wrote. */
  function Entry(o: ObjectId, p: Proc, phase: Phase, plan: Option<set<ReplicaId>>): (j: Journal)
    requires p.Reclaim?
  {
    Journal(o, p.prior.generation, phase, p.prior, p.rows, plan, p.vaults)
  }

  predicate SafeChild(objects: map<ObjectId, Object>, child: ObjectId) {
    child in objects && (objects[child].state == Reclaimed || objects[child].reconstructible)
  }

  /** No direct dependent would be invalidated by losing `o`. */
  ghost predicate DirectSafe(objects: map<ObjectId, Object>, edges: set<Dependency>, o: ObjectId) {
    forall e <- edges :: e.parent == o ==> SafeChild(objects, e.child)
  }

  /** The last-owner plan: for each scheduled payload, a single representative replica exactly
      when the scheduled rows are all the references there are. */
  ghost predicate LastOwnerPlan(rows: map<ReplicaId, Replica>, dedup: map<Identity, DedupEntry>, plan: set<ReplicaId>) {
    && plan <= rows.Keys
    && (forall r <- rows :: IdentityOf(rows[r]) in dedup
          && dedup[IdentityOf(rows[r])].key == rows[r].key
          && |RowSet(rows, IdentityOf(rows[r]))| <= dedup[IdentityOf(rows[r])].refs)
    && (forall r <- rows :: |RowSet(rows, IdentityOf(rows[r]))| == dedup[IdentityOf(rows[r])].refs <==>
          exists q :: q in plan && IdentityOf(rows[q]) == IdentityOf(rows[r]))
    && (forall q <- plan, r <- plan :: IdentityOf(rows[q]) == IdentityOf(rows[r]) ==> q == r)
  }

  const MAX_REFS: nat := 0x7fff_ffff_ffff_ffff

  // ------------------------------------------------------------------
  // Helpers for steps
  // ------------------------------------------------------------------

  /** The process of `o` moves on. */
  function Move(s: State, o: ObjectId, p: Proc): (t: State) {
    s.(procs := s.procs[o := p])
  }

  /** The operation on `o` ends and its guards are dropped. */
  function Finish(s: State, o: ObjectId): (t: State)
    requires o in s.procs
  {
    s.(procs := s.procs - {o},
       activeObjects := s.activeObjects - {o},
       activePayloads := s.activePayloads - s.procs[o].held)
  }

  predicate IsCreate(s: State, o: ObjectId) {
    o in s.procs && s.procs[o].Create?
  }

  predicate IsReclaim(s: State, o: ObjectId) {
    o in s.procs && s.procs[o].Reclaim?
  }

  predicate Journaled(s: State, o: ObjectId) {
    && IsReclaim(s, o)
    && s.procs[o].attempt in s.db.journal
    && s.procs[o].attempt in s.db.attempts
    && s.procs[o].attempt in s.db.reservations
    && o in s.db.objects
  }

  // ------------------------------------------------------------------
  // Create
  // ------------------------------------------------------------------

  datatype Step =
    // create_object
    | BeginCreate(o: ObjectId, content: Content, blank: Object, targets: set<Backend>)
    | LockCreate(o: ObjectId)
    | CountExisting(o: ObjectId, b: Backend)
    | PutPayload(o: ObjectId, b: Backend, suffix: nat)
    | InsertEntry(o: ObjectId)
    | AddRow(o: ObjectId, r: ReplicaId)
    | UnlockCreate(o: ObjectId)
    | Publish(o: ObjectId)
    | GiveUp(o: ObjectId)
    | DropMade(o: ObjectId, r: ReplicaId)
    | ReleaseMade(o: ObjectId)
    | Sweep(o: ObjectId, l: Loc)
    | EndCreate(o: ObjectId)
    // reclaim
    | BeginReclaim(o: ObjectId, a: AttemptId)
    | Reserve(o: ObjectId, expiresAt: int)
    | StepRecomputable(o: ObjectId)
    | MarkPending(o: ObjectId)
    | Validate(o: ObjectId)
    | Clear(o: ObjectId)
    | LockReclaim(o: ObjectId)
    | BeginAbort(o: ObjectId)
    | AbortWrite(o: ObjectId)
    | EarlyExit(o: ObjectId)
    | StartPhysical(o: ObjectId, plan: set<ReplicaId>)
    | DeletePlace(o: ObjectId, l: Loc)
    | PhysicalComplete(o: ObjectId)
    | DropRow(o: ObjectId, r: ReplicaId)
    | ReleaseRow(o: ObjectId)
    | DropVault(o: ObjectId, x: ArchiveId)
    | MarkGone(o: ObjectId)
    | CloseWrite(o: ObjectId)
    // everything else
    | SetFlags(o: ObjectId, pinned: bool, protected: bool)
    | AddEdge(e: Dependency)
    | RemoveEdge(e: Dependency)
    | Fence
    | Crash
    | BeginStart
    | BeginRecovery
    | Recovery(w: Write)
    | EndRecovery
    | StartRunning

  predicate CanBegin(s: State, o: ObjectId) {
    s.mode.Running? && !s.activeRecovery && o !in s.activeObjects
  }

  predicate CreateAt(s: State, o: ObjectId) {
    s.mode.Running? && IsCreate(s, o)
  }

  ghost predicate CanBeginCreate(s: State, o: ObjectId, content: Content, blank: Object, targets: set<Backend>) {
    && CanBegin(s, o) && o !in s.db.objects
    && (if targets == {} then blank.state == Created
        else blank.state == Hot && content.length > 0 && blank.physicalSize == content.length && blank.replicationCount == |targets|)
    && |targets| >= MinValidCopies(blank.durability)
  }

  ghost predicate CanLockCreate(s: State, o: ObjectId) {
    && CreateAt(s, o) && !s.activeRecovery && (s.procs[o].at.Waiting? || s.procs[o].at.Rewaiting?)
    && CreateKeys(s.procs[o], s.db.replicas) !! s.activePayloads
  }

  ghost predicate CanCountExisting(s: State, o: ObjectId, b: Backend) {
    && CreateAt(s, o) && s.procs[o].at.Storing? && b in s.procs[o].todo
    && var i := Identity(s.procs[o].content, b);
    && i in s.db.dedup && 1 <= s.db.dedup[i].refs < MAX_REFS
    && Payload(b, s.db.dedup[i].key) in s.phys
    && s.phys[Payload(b, s.db.dedup[i].key)] == s.procs[o].content
  }

  ghost predicate CanPutPayload(s: State, o: ObjectId, b: Backend, suffix: nat) {
    && Live(s.mode) && IsCreate(s, o) && s.procs[o].at.Storing? && b in s.procs[o].todo
    && Identity(s.procs[o].content, b) !in s.db.dedup
  }

  ghost predicate CanInsertEntry(s: State, o: ObjectId) {
    && CreateAt(s, o) && s.procs[o].at.Written? && Identity(s.procs[o].content, s.procs[o].at.backend) !in s.db.dedup
  }

  ghost predicate CanAddRow(s: State, o: ObjectId, r: ReplicaId) {
    && CreateAt(s, o) && s.procs[o].at.Counted?
    && r !in s.db.replicas && (forall a <- s.db.journal :: r !in s.db.journal[a].deletions)
  }

  ghost predicate CanUnlockCreate(s: State, o: ObjectId) {
    CreateAt(s, o) && s.procs[o].at.Storing? && s.procs[o].todo == {}
  }

  ghost predicate CanPublish(s: State, o: ObjectId) {
    CreateAt(s, o) && s.procs[o].at.Stored? && o !in s.db.objects
  }

  ghost predicate CanGiveUp(s: State, o: ObjectId) {
    && CreateAt(s, o)
    && (s.procs[o].at.Waiting? || s.procs[o].at.Storing? || s.procs[o].at.Written? || s.procs[o].at.Counted? || s.procs[o].at.Stored?)
  }

  ghost predicate CanDropMade(s: State, o: ObjectId, r: ReplicaId) {
    CreateAt(s, o) && s.procs[o].at.Cleaning? && r in s.procs[o].made && r in s.db.replicas
  }

  ghost predicate CanReleaseMade(s: State, o: ObjectId) {
    && CreateAt(s, o) && s.procs[o].at.Unrowed?
    && Refs(s.db.dedup, Identity(s.procs[o].content, s.procs[o].at.backend)) > 0
  }

  ghost predicate CanSweep(s: State, o: ObjectId, l: Loc) {
    Live(s.mode) && IsCreate(s, o) && s.procs[o].at.Cleaning? && l in s.procs[o].sweep
  }

  ghost predicate CanEndCreate(s: State, o: ObjectId) {
    CreateAt(s, o) && s.procs[o].at.Cleaning? && s.procs[o].made == {} && s.procs[o].sweep == {}
  }

  ghost predicate CreateEnabled(s: State, k: Step) {
    match k
    case BeginCreate(o, content, blank, targets) => CanBeginCreate(s, o, content, blank, targets)
    case LockCreate(o) => CanLockCreate(s, o)
    case CountExisting(o, b) => CanCountExisting(s, o, b)
    case PutPayload(o, b, suffix) => CanPutPayload(s, o, b, suffix)
    case InsertEntry(o) => CanInsertEntry(s, o)
    case AddRow(o, r) => CanAddRow(s, o, r)
    case UnlockCreate(o) => CanUnlockCreate(s, o)
    case Publish(o) => CanPublish(s, o)
    case GiveUp(o) => CanGiveUp(s, o)
    case DropMade(o, r) => CanDropMade(s, o, r)
    case ReleaseMade(o) => CanReleaseMade(s, o)
    case Sweep(o, l) => CanSweep(s, o, l)
    case EndCreate(o) => CanEndCreate(s, o)
    case _ => false
  }

  /** The payload identities a create waits for: its targets, or, when it cleans up after a failed
      publish, those of the rows it made. */
  function CreateKeys(p: Proc, replicas: map<ReplicaId, Replica>): (keys: set<Identity>)
    requires p.Create?
  {
    (set b | b in p.todo :: Identity(p.content, b)) + (set r | r in p.made && r in replicas :: IdentityOf(replicas[r]))
  }

  ghost function DoBeginCreate(s: State, o: ObjectId, content: Content, blank: Object, targets: set<Backend>): (t: State)
    requires CanBeginCreate(s, o, content, blank, targets)
  {
    Move(s, o, Create(content, blank, targets, targets, {}, {}, Waiting, {})).(activeObjects := s.activeObjects + {o})
  }

  ghost function DoLockCreate(s: State, o: ObjectId): (t: State)
    requires CanLockCreate(s, o)
  {
    var p := s.procs[o];
    var keys := CreateKeys(p, s.db.replicas);
    Move(s, o, p.(at := if p.at.Waiting? then Storing else Cleaning, held := keys)).(activePayloads := s.activePayloads + keys)
  }

  ghost function DoCountExisting(s: State, o: ObjectId, b: Backend): (t: State)
    requires CanCountExisting(s, o, b)
  {
    var p := s.procs[o];
    var i := Identity(p.content, b);
    var e := s.db.dedup[i];
    Move(s, o, p.(at := Counted(b, e.key), todo := p.todo - {b})).(db := s.db.(dedup := s.db.dedup[i := e.(refs := e.refs + 1)]))
  }

  ghost function DoPutPayload(s: State, o: ObjectId, b: Backend, suffix: nat): (t: State)
    requires CanPutPayload(s, o, b, suffix)
  {
    var p := s.procs[o];
    var key := Key(p.content, suffix);
    Move(s, o, p.(at := Written(b, key), todo := p.todo - {b})).(phys := s.phys[Payload(b, key) := p.content])
  }

  ghost function DoInsertEntry(s: State, o: ObjectId): (t: State)
    requires CanInsertEntry(s, o)
  {
    var p := s.procs[o];
    var i := Identity(p.content, p.at.backend);
    Move(s, o, p.(at := Counted(p.at.backend, p.at.key))).(db := s.db.(dedup := s.db.dedup[i := DedupEntry(p.at.key, 1, p.content.length)]))
  }

  ghost function DoAddRow(s: State, o: ObjectId, r: ReplicaId): (t: State)
    requires CanAddRow(s, o, r)
  {
    var p := s.procs[o];
    var row := Replica(o, p.blank.generation, p.at.backend, p.at.key, p.content.length, p.content, true);
    Move(s, o, p.(at := Storing, made := p.made + {r})).(db := s.db.(replicas := s.db.replicas[r := row]))
  }

  ghost function DoUnlockCreate(s: State, o: ObjectId): (t: State)
    requires CanUnlockCreate(s, o)
  {
    var p := s.procs[o];
    Move(s, o, p.(at := Stored, held := {})).(activePayloads := s.activePayloads - p.held)
  }

  ghost function DoPublish(s: State, o: ObjectId): (t: State)
    requires CanPublish(s, o)
  {
    Finish(s, o).(db := s.db.(objects := s.db.objects[o := s.procs[o].blank]))
  }

  ghost function DoGiveUp(s: State, o: ObjectId): (t: State)
    requires CanGiveUp(s, o)
  {
    var p := s.procs[o];
    Move(s, o, match p.at
               case Stored => p.(at := Rewaiting)
               case Written(b, key) => p.(at := Cleaning, todo := {}, sweep := p.sweep + {Payload(b, key)})
               case Counted(b, key) => p.(at := Unrowed(b, key), todo := {})
               case _ => p.(at := Cleaning, todo := {}))
  }

  ghost function DoDropMade(s: State, o: ObjectId, r: ReplicaId): (t: State)
    requires CanDropMade(s, o, r)
  {
    var p := s.procs[o];
    var row := s.db.replicas[r];
    Move(s, o, p.(at := Unrowed(row.backend, row.key), made := p.made - {r})).(db := s.db.(replicas := s.db.replicas - {r}))
  }

  ghost function DoReleaseMade(s: State, o: ObjectId): (t: State)
    requires CanReleaseMade(s, o)
  {
    var p := s.procs[o];
    var i := Identity(p.content, p.at.backend);
    var sweep := if s.db.dedup[i].refs == 1 then p.sweep + {Payload(p.at.backend, p.at.key)} else p.sweep;
    Move(s, o, p.(at := Cleaning, sweep := sweep)).(db := s.db.(dedup := Released(s.db.dedup, i)))
  }

  ghost function DoSweep(s: State, o: ObjectId, l: Loc): (t: State)
    requires CanSweep(s, o, l)
  {
    var p := s.procs[o];
    Move(s, o, p.(sweep := p.sweep - {l})).(phys := s.phys - {l})
  }

  ghost function DoEndCreate(s: State, o: ObjectId): (t: State)
    requires CanEndCreate(s, o)
  {
    Finish(s, o)
  }

  ghost function CreateApply(s: State, k: Step): (t: State)
    requires CreateEnabled(s, k)
  {
    match k
    case BeginCreate(o, content, blank, targets) => DoBeginCreate(s, o, content, blank, targets)
    case LockCreate(o) => DoLockCreate(s, o)
    case CountExisting(o, b) => DoCountExisting(s, o, b)
    case PutPayload(o, b, suffix) => DoPutPayload(s, o, b, suffix)
    case InsertEntry(o) => DoInsertEntry(s, o)
    case AddRow(o, r) => DoAddRow(s, o, r)
    case UnlockCreate(o) => DoUnlockCreate(s, o)
    case Publish(o) => DoPublish(s, o)
    case GiveUp(o) => DoGiveUp(s, o)
    case DropMade(o, r) => DoDropMade(s, o, r)
    case ReleaseMade(o) => DoReleaseMade(s, o)
    case Sweep(o, l) => DoSweep(s, o, l)
    case EndCreate(o) => DoEndCreate(s, o)
  }

  // ------------------------------------------------------------------
  // Reclaim
  // ------------------------------------------------------------------

  predicate At(s: State, o: ObjectId, pc: ReclaimPc) {
    s.mode.Running? && Journaled(s, o) && s.procs[o].pc == pc
  }

  function RowsOf(d: Db, o: ObjectId): (rows: map<ReplicaId, Replica>) {
    map r | r in d.replicas && d.replicas[r].owner == o :: d.replicas[r]
  }

  function VaultsOf(d: Db, o: ObjectId): (vaults: map<ArchiveId, Archive>) {
    map x | x in d.archives && d.archives[x].owner == o :: d.archives[x]
  }

  /** Valid copies an object has: valid replicas and archives. */
  function ValidCopies(d: Db, o: ObjectId): (n: nat) {
    |ValidIds(RowsOf(d, o))| + |VaultsOf(d, o)|
  }

  function ValidIds(rows: map<ReplicaId, Replica>): (ids: set<ReplicaId>) {
    set r | r in rows && rows[r].valid
  }

  function SaturatingSub(x: nat, y: nat): (z: nat) {
    if x < y then 0 else x - y
  }

  /** Survivability: what remains after deleting the scheduled copies meets the class's minimum. */
  predicate Survivable(d: Db, o: ObjectId, rows: map<ReplicaId, Replica>, vaults: map<ArchiveId, Archive>)
    requires o in d.objects
  {
    SaturatingSub(SaturatingSub(ValidCopies(d, o), |ValidIds(rows)|), |vaults|) >= MinValidCopies(d.objects[o].durability)
  }

  ghost predicate CanBeginReclaim(s: State, o: ObjectId, a: AttemptId) {
    && CanBegin(s, o) && o in s.db.objects && a !in s.db.journal && a !in s.db.attempts && a !in s.db.reservations
    && Unguarded(s.db.objects[o]) && s.db.objects[o].state !in {Reclaimed, Failed}
    && (forall b <- s.db.reservations :: s.db.reservations[b].owner == o ==> s.db.reservations[b].status != ReservationOpen)
    && Survivable(s.db, o, RowsOf(s.db, o), VaultsOf(s.db, o)) && RouteLegal(s.db.objects[o])
  }

  ghost predicate CanReserve(s: State, o: ObjectId, expiresAt: int) {
    && s.mode.Running? && IsReclaim(s, o) && s.procs[o].pc.Planned?
    && s.procs[o].attempt !in s.db.journal && s.procs[o].attempt !in s.db.attempts && s.procs[o].attempt !in s.db.reservations
  }

  ghost predicate CanStepRecomputable(s: State, o: ObjectId) {
    At(s, o, Reserved) && NeedsStep(s.procs[o].prior.state)
  }

  ghost predicate CanMarkPending(s: State, o: ObjectId) {
    At(s, o, Stepped) || (At(s, o, Reserved) && !NeedsStep(s.procs[o].prior.state))
  }

  ghost predicate CanValidate(s: State, o: ObjectId) {
    At(s, o, Pending) && s.db.journal[s.procs[o].attempt].phase == PhaseReserved
  }

  ghost predicate CanClear(s: State, o: ObjectId) {
    && At(s, o, Validated) && Survivable(s.db, o, s.procs[o].rows, s.procs[o].vaults)
    && DirectSafe(s.db.objects, s.edges, o)
  }

  ghost predicate CanLockReclaim(s: State, o: ObjectId) {
    At(s, o, Cleared) && !s.activeRecovery && Identities(s.procs[o].rows) !! s.activePayloads
  }

  ghost predicate CanBeginAbort(s: State, o: ObjectId) {
    At(s, o, Validated) || At(s, o, Cleared) || At(s, o, Locked)
  }

  ghost predicate CanAbortWrite(s: State, o: ObjectId) {
    && s.mode.Running? && Journaled(s, o) && s.procs[o].pc.Aborting? && s.procs[o].pc.written <= 3
  }

  ghost predicate CanEarlyExit(s: State, o: ObjectId) {
    || At(s, o, Reserved) || At(s, o, Stepped) || At(s, o, Pending) || At(s, o, Locked)
    || At(s, o, Aborting(0)) || At(s, o, Aborting(1))
    || (s.mode.Running? && IsReclaim(s, o) && s.procs[o].pc.Planned?)
  }

  ghost predicate CanStartPhysical(s: State, o: ObjectId, plan: set<ReplicaId>) {
    && At(s, o, Locked) && s.db.journal[s.procs[o].attempt].phase == PhaseValidated
    && LastOwnerPlan(s.procs[o].rows, s.db.dedup, plan)
  }

  ghost predicate CanDeletePlace(s: State, o: ObjectId, l: Loc) {
    && Live(s.mode) && Journaled(s, o) && s.procs[o].pc.Deleting?
    && l in Targets(s.db.journal[s.procs[o].attempt]) && l !in s.procs[o].pc.gone
  }

  ghost predicate CanPhysicalComplete(s: State, o: ObjectId) {
    && s.mode.Running? && Journaled(s, o) && s.procs[o].pc.Deleting?
    && s.procs[o].pc.gone == Targets(s.db.journal[s.procs[o].attempt])
    && s.db.journal[s.procs[o].attempt].phase == PhysicalStarted
  }

  ghost predicate CanDropRow(s: State, o: ObjectId, r: ReplicaId) {
    At(s, o, Dropping) && r in s.procs[o].rows && r in s.db.replicas
  }

  ghost predicate CanReleaseRow(s: State, o: ObjectId) {
    && s.mode.Running? && Journaled(s, o) && s.procs[o].pc.Releasing? && Refs(s.db.dedup, s.procs[o].pc.owed) > 0
  }

  ghost predicate CanDropVault(s: State, o: ObjectId, x: ArchiveId) {
    At(s, o, Dropping) && s.procs[o].rows.Keys !! s.db.replicas.Keys && x in s.procs[o].vaults
  }

  ghost predicate CanMarkGone(s: State, o: ObjectId) {
    At(s, o, Dropping) && s.procs[o].rows.Keys !! s.db.replicas.Keys && s.procs[o].vaults.Keys !! s.db.archives.Keys
  }

  ghost predicate CanCloseWrite(s: State, o: ObjectId) {
    && s.mode.Running? && Journaled(s, o) && s.procs[o].pc.Closing? && s.procs[o].pc.closed <= 2
  }

  ghost predicate ReclaimEnabled(s: State, k: Step) {
    match k
    case BeginReclaim(o, a) => CanBeginReclaim(s, o, a)
    case Reserve(o, expiresAt) => CanReserve(s, o, expiresAt)
    case StepRecomputable(o) => CanStepRecomputable(s, o)
    case MarkPending(o) => CanMarkPending(s, o)
    case Validate(o) => CanValidate(s, o)
    case Clear(o) => CanClear(s, o)
    case LockReclaim(o) => CanLockReclaim(s, o)
    case BeginAbort(o) => CanBeginAbort(s, o)
    case AbortWrite(o) => CanAbortWrite(s, o)
    case EarlyExit(o) => CanEarlyExit(s, o)
    case StartPhysical(o, plan) => CanStartPhysical(s, o, plan)
    case DeletePlace(o, l) => CanDeletePlace(s, o, l)
    case PhysicalComplete(o) => CanPhysicalComplete(s, o)
    case DropRow(o, r) => CanDropRow(s, o, r)
    case ReleaseRow(o) => CanReleaseRow(s, o)
    case DropVault(o, x) => CanDropVault(s, o, x)
    case MarkGone(o) => CanMarkGone(s, o)
    case CloseWrite(o) => CanCloseWrite(s, o)
    case _ => false
  }

  function SetState(d: Db, o: ObjectId, x: Object): (e: Db) {
    d.(objects := d.objects[o := x])
  }

  function SetPhase(d: Db, a: AttemptId, phase: Phase): (e: Db)
    requires a in d.journal
  {
    d.(journal := d.journal[a := d.journal[a].(phase := phase)])
  }

  function SetReservation(d: Db, a: AttemptId, status: ReservationStatus): (e: Db)
    requires a in d.reservations
  {
    d.(reservations := d.reservations[a := d.reservations[a].(status := status)])
  }

  function SetAttempt(d: Db, a: AttemptId, status: AttemptStatus): (e: Db) {
    d.(attempts := d.attempts[a := status])
  }

  ghost function DoBeginReclaim(s: State, o: ObjectId, a: AttemptId): (t: State)
    requires CanBeginReclaim(s, o, a)
  {
    Move(s, o, Reclaim(a, s.db.objects[o], RowsOf(s.db, o), VaultsOf(s.db, o), Planned, {})).(activeObjects := s.activeObjects + {o})
  }

  ghost function DoReserve(s: State, o: ObjectId, expiresAt: int): (t: State)
    requires CanReserve(s, o, expiresAt)
  {
    var p := s.procs[o];
    Move(s, o, p.(pc := Reserved)).(db := s.db.(
      journal := s.db.journal[p.attempt := Entry(o, p, PhaseReserved, None)],
      attempts := s.db.attempts[p.attempt := AttemptOpen],
      reservations := s.db.reservations[p.attempt := Reservation(o, ReservationOpen, expiresAt)]))
  }

  ghost function DoStepRecomputable(s: State, o: ObjectId): (t: State)
    requires CanStepRecomputable(s, o)
  {
    var p := s.procs[o];
    Move(s, o, p.(pc := Stepped)).(db := SetState(s.db, o, p.prior.(state := Recomputable)))
  }

  ghost function DoMarkPending(s: State, o: ObjectId): (t: State)
    requires CanMarkPending(s, o)
  {
    var p := s.procs[o];
    Move(s, o, p.(pc := Pending)).(db := SetState(s.db, o, p.prior.(state := ReclaimPending)))
  }

  ghost function DoValidate(s: State, o: ObjectId): (t: State)
    requires CanValidate(s, o)
  {
    var p := s.procs[o];
    Move(s, o, p.(pc := Validated)).(db := SetPhase(s.db, p.attempt, PhaseValidated))
  }

  ghost function DoClear(s: State, o: ObjectId): (t: State)
    requires CanClear(s, o)
  {
    Move(s, o, s.procs[o].(pc := Cleared))
  }

  ghost function DoLockReclaim(s: State, o: ObjectId): (t: State)
    requires CanLockReclaim(s, o)
  {
    var p := s.procs[o];
    Move(s, o, p.(pc := Locked, held := Identities(p.rows))).(activePayloads := s.activePayloads + Identities(p.rows))
  }

  ghost function DoBeginAbort(s: State, o: ObjectId): (t: State)
    requires CanBeginAbort(s, o)
  {
    Move(s, o, s.procs[o].(pc := Aborting(0)))
  }

  ghost function DoAbortWrite(s: State, o: ObjectId): (t: State)
    requires CanAbortWrite(s, o)
  {
    var p := s.procs[o];
    if p.pc.written == 0 then Move(s, o, p.(pc := Aborting(1))).(db := SetState(s.db, o, p.prior))
    else if p.pc.written == 1 then Move(s, o, p.(pc := Aborting(2))).(db := SetReservation(s.db, p.attempt, ReservationReleased))
    else if p.pc.written == 2 then Move(s, o, p.(pc := Aborting(3))).(db := SetAttempt(s.db, p.attempt, AttemptRolledBack))
    else Finish(s, o).(db := SetPhase(s.db, p.attempt, PhaseRolledBack))
  }

  ghost function DoEarlyExit(s: State, o: ObjectId): (t: State)
    requires CanEarlyExit(s, o)
  {
    Finish(s, o)
  }

  ghost function DoStartPhysical(s: State, o: ObjectId, plan: set<ReplicaId>): (t: State)
    requires CanStartPhysical(s, o, plan)
  {
    var p := s.procs[o];
    Move(s, o, p.(pc := Deleting({}))).(db := s.db.(journal := s.db.journal[p.attempt :=
      s.db.journal[p.attempt].(phase := PhysicalStarted, plan := Some(plan))]))
  }

  ghost function DoDeletePlace(s: State, o: ObjectId, l: Loc): (t: State)
    requires CanDeletePlace(s, o, l)
  {
    var p := s.procs[o];
    Move(s, o, p.(pc := Deleting(p.pc.gone + {l}))).(phys := s.phys - {l})
  }

  ghost function DoPhysicalComplete(s: State, o: ObjectId): (t: State)
    requires CanPhysicalComplete(s, o)
  {
    var p := s.procs[o];
    Move(s, o, p.(pc := Dropping)).(db := SetPhase(s.db, p.attempt, PhysicalDone))
  }

  ghost function DoDropRow(s: State, o: ObjectId, r: ReplicaId): (t: State)
    requires CanDropRow(s, o, r)
  {
    var p := s.procs[o];
    Move(s, o, p.(pc := Releasing(IdentityOf(s.db.replicas[r])))).(db := s.db.(replicas := s.db.replicas - {r}))
  }

  ghost function DoReleaseRow(s: State, o: ObjectId): (t: State)
    requires CanReleaseRow(s, o)
  {
    var p := s.procs[o];
    Move(s, o, p.(pc := Dropping)).(db := s.db.(dedup := Released(s.db.dedup, p.pc.owed)))
  }

  ghost function DoDropVault(s: State, o: ObjectId, x: ArchiveId): (t: State)
    requires CanDropVault(s, o, x)
  {
    s.(db := s.db.(archives := s.db.archives - {x}))
  }

  ghost function DoMarkGone(s: State, o: ObjectId): (t: State)
    requires CanMarkGone(s, o)
  {
    var p := s.procs[o];
    Move(s, o, p.(pc := Closing(0))).(db := SetState(s.db, o, p.prior.(state := Reclaimed)))
  }

  ghost function DoCloseWrite(s: State, o: ObjectId): (t: State)
    requires CanCloseWrite(s, o)
  {
    var p := s.procs[o];
    if p.pc.closed == 0 then Move(s, o, p.(pc := Closing(1))).(db := SetReservation(s.db, p.attempt, ReservationCommitted))
    else if p.pc.closed == 1 then Move(s, o, p.(pc := Closing(2))).(db := SetAttempt(s.db, p.attempt, AttemptCommitted))
    else Finish(s, o).(db := SetPhase(s.db, p.attempt, PhaseCommitted))
  }

  ghost function ReclaimApply(s: State, k: Step): (t: State)
    requires ReclaimEnabled(s, k)
  {
    match k
    case BeginReclaim(o, a) => DoBeginReclaim(s, o, a)
    case Reserve(o, expiresAt) => DoReserve(s, o, expiresAt)
    case StepRecomputable(o) => DoStepRecomputable(s, o)
    case MarkPending(o) => DoMarkPending(s, o)
    case Validate(o) => DoValidate(s, o)
    case Clear(o) => DoClear(s, o)
    case LockReclaim(o) => DoLockReclaim(s, o)
    case BeginAbort(o) => DoBeginAbort(s, o)
    case AbortWrite(o) => DoAbortWrite(s, o)
    case EarlyExit(o) => DoEarlyExit(s, o)
    case StartPhysical(o, plan) => DoStartPhysical(s, o, plan)
    case DeletePlace(o, l) => DoDeletePlace(s, o, l)
    case PhysicalComplete(o) => DoPhysicalComplete(s, o)
    case DropRow(o, r) => DoDropRow(s, o, r)
    case ReleaseRow(o) => DoReleaseRow(s, o)
    case DropVault(o, x) => DoDropVault(s, o, x)
    case MarkGone(o) => DoMarkGone(s, o)
    case CloseWrite(o) => DoCloseWrite(s, o)
  }

  // ------------------------------------------------------------------
  // Everything else
  // ------------------------------------------------------------------

  predicate Recovering(s: State) {
    s.activeRecovery && (s.mode.Running? || s.mode.Starting?)
  }

  ghost predicate CanSetFlags(s: State, o: ObjectId, pinned: bool, protected: bool) {
    && CanBegin(s, o) && o in s.db.objects
    && (pinned && !s.db.objects[o].pinned ==> s.db.objects[o].state != Reclaimed)
  }

  ghost predicate CanAddEdge(s: State, e: Dependency) {
    CanBegin(s, e.parent) && CanBegin(s, e.child) && e.parent in s.db.objects && e.child in s.db.objects
  }

  ghost predicate CanRemoveEdge(s: State, e: Dependency) {
    CanBegin(s, e.parent) && CanBegin(s, e.child)
  }

  ghost predicate CanFence(s: State) {
    s.mode.Running?
  }

  ghost predicate CanCrash(s: State) {
    true
  }

  ghost predicate CanBeginStart(s: State) {
    s.mode.Down?
  }

  ghost predicate CanBeginRecovery(s: State) {
    s.mode.Running? && !s.activeRecovery && s.activeObjects == {} && s.activePayloads == {}
  }

  ghost predicate CanRecovery(s: State, w: Write) {
    Recovering(s) && Enabled(s.db, s.phys, w)
  }

  ghost predicate CanEndRecovery(s: State) {
    && s.mode.Running? && s.activeRecovery
    && forall a <- s.db.journal :: Unfinished(s.db.journal[a].phase) ==>
         a in s.db.reservations && s.db.reservations[a].status == ReservationOpen
  }

  ghost predicate CanStartRunning(s: State) {
    && s.mode.Starting? && NoOrphans(s.db) && Exact(s.db.replicas, s.db.dedup)
    && forall a <- s.db.journal :: !Unfinished(s.db.journal[a].phase)
  }

  ghost predicate OtherEnabled(s: State, k: Step) {
    match k
    case SetFlags(o, pinned, protected) => CanSetFlags(s, o, pinned, protected)
    case AddEdge(e) => CanAddEdge(s, e)
    case RemoveEdge(e) => CanRemoveEdge(s, e)
    case Fence => CanFence(s)
    case Crash => CanCrash(s)
    case BeginStart => CanBeginStart(s)
    case BeginRecovery => CanBeginRecovery(s)
    case Recovery(w) => CanRecovery(s, w)
    case EndRecovery => CanEndRecovery(s)
    case StartRunning => CanStartRunning(s)
    case _ => false
  }

  ghost function DoSetFlags(s: State, o: ObjectId, pinned: bool, protected: bool): (t: State)
    requires CanSetFlags(s, o, pinned, protected)
  {
    s.(db := SetState(s.db, o, s.db.objects[o].(pinned := pinned, protected := protected)))
  }

  ghost function DoAddEdge(s: State, e: Dependency): (t: State)
    requires CanAddEdge(s, e)
  {
    s.(edges := s.edges + {e})
  }

  ghost function DoRemoveEdge(s: State, e: Dependency): (t: State)
    requires CanRemoveEdge(s, e)
  {
    s.(edges := s.edges - {e})
  }

  ghost function DoFence(s: State): (t: State)
    requires CanFence(s)
  {
    s.(mode := Fenced)
  }

  ghost function DoCrash(s: State): (t: State)
    requires CanCrash(s)
  {
    s.(procs := map[], activeObjects := {}, activePayloads := {}, activeRecovery := false, mode := Down)
  }

  ghost function DoBeginStart(s: State): (t: State)
    requires CanBeginStart(s)
  {
    s.(mode := Starting, activeRecovery := true)
  }

  ghost function DoBeginRecovery(s: State): (t: State)
    requires CanBeginRecovery(s)
  {
    s.(activeRecovery := true)
  }

  ghost function DoRecovery(s: State, w: Write): (t: State)
    requires CanRecovery(s, w)
  {
    s.(db := Apply(s.db, s.phys, w))
  }

  ghost function DoEndRecovery(s: State): (t: State)
    requires CanEndRecovery(s)
  {
    s.(activeRecovery := false)
  }

  ghost function DoStartRunning(s: State): (t: State)
    requires CanStartRunning(s)
  {
    s.(mode := Running, activeRecovery := false)
  }

  ghost function OtherApply(s: State, k: Step): (t: State)
    requires OtherEnabled(s, k)
  {
    match k
    case SetFlags(o, pinned, protected) => DoSetFlags(s, o, pinned, protected)
    case AddEdge(e) => DoAddEdge(s, e)
    case RemoveEdge(e) => DoRemoveEdge(s, e)
    case Fence => DoFence(s)
    case Crash => DoCrash(s)
    case BeginStart => DoBeginStart(s)
    case BeginRecovery => DoBeginRecovery(s)
    case Recovery(w) => DoRecovery(s, w)
    case EndRecovery => DoEndRecovery(s)
    case StartRunning => DoStartRunning(s)
  }

  // ------------------------------------------------------------------
  // Steps and runs
  // ------------------------------------------------------------------

  ghost predicate CanStep(s: State, k: Step) {
    CreateEnabled(s, k) || ReclaimEnabled(s, k) || OtherEnabled(s, k)
  }

  ghost function Next(s: State, k: Step): (t: State)
    requires CanStep(s, k)
  {
    if CreateEnabled(s, k) then CreateApply(s, k)
    else if ReclaimEnabled(s, k) then ReclaimApply(s, k)
    else OtherApply(s, k)
  }
}
