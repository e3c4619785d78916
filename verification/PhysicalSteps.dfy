/** The deleting and committing half of `reclaim`, and the steps that only move its program
    counter: all keep the invariant. */
module PhysicalSteps {
  import opened Fabric
  import opened Durable
  import opened RecoveryWrites
  import opened LifecycleTable
  import opened Protocol
  import opened Invariant
  import opened Locality
  import opened ControlSteps
  import opened CreateSteps
  import opened ReclaimSteps

  // ------------------------------------------------------------------
  // Beginning, guards, giving up
  // ------------------------------------------------------------------

  /** An object that may lose every copy is one whose class needs none. */
  lemma SurvivableExpendable(d: Db, o: ObjectId)
    requires o in d.objects && Survivable(d, o, RowsOf(d, o), VaultsOf(d, o))
    ensures Expendable(d.objects[o])
  {
    SurvivableIff(d, o);
  }

  /** A reclaim of everything an object has is survivable exactly for the classes that need no copy. */
  lemma SurvivableIff(d: Db, o: ObjectId)
    requires o in d.objects
    ensures Survivable(d, o, RowsOf(d, o), VaultsOf(d, o)) <==> d.objects[o].durability in {Ephemeral, Reproducible}
  {
  }

  /** An object without a running operation and without an open reservation has no open attempt. */
  lemma NothingOpen(s: State, o: ObjectId)
    requires Inv(s) && CanBegin(s, o)
    requires forall b <- s.db.reservations :: s.db.reservations[b].owner == o ==> s.db.reservations[b].status != ReservationOpen
    ensures forall a <- s.db.journal :: s.db.journal[a].owner == o ==> !Unfinished(s.db.journal[a].phase)
  {
  }

  lemma BeginReclaimKeeps(s: State, o: ObjectId, a: AttemptId)
    requires Inv(s) && CanBeginReclaim(s, o, a)
    ensures Inv(DoBeginReclaim(s, o, a))
  {
    var t := DoBeginReclaim(s, o, a);
    SurvivableExpendable(s.db, o);
    NothingOpen(s, o);
    BeginKeeps(s, t, o);
  }

  /** A reclaim moves on in memory only. */
  lemma MoveKeeps(s: State, o: ObjectId, p: Proc)
    requires Inv(s) && Live(s.mode) && IsReclaim(s, o) && Owed(s.procs[o]).None?
    requires p.Reclaim? && p.attempt == s.procs[o].attempt && p.held == s.procs[o].held && Owed(p).None?
    requires ReclaimOk(Move(s, o, p), o, p)
    ensures Inv(Move(s, o, p))
  {
    GuardsMove(s, Move(s, o, p), o);
    ControlKeeps(s, Move(s, o, p), o);
  }

  lemma ClearProc(s: State, o: ObjectId)
    requires CanClear(s, o) && ReclaimOk(s, o, s.procs[o])
    ensures var p := s.procs[o].(pc := Cleared); DoClear(s, o) == Move(s, o, p) && ReclaimOk(Move(s, o, p), o, p)
    ensures Owed(s.procs[o]).None? && Live(s.mode)
  {
  }

  lemma ClearKeeps(s: State, o: ObjectId)
    requires Inv(s) && CanClear(s, o)
    ensures Inv(DoClear(s, o))
  {
    OwnProcOk(s, o);
    ClearProc(s, o);
    MoveKeeps(s, o, s.procs[o].(pc := Cleared));
  }

  lemma LockReclaimProc(s: State, o: ObjectId)
    requires CanLockReclaim(s, o) && ReclaimOk(s, o, s.procs[o])
    ensures var keys := Identities(s.procs[o].rows);
            var p := s.procs[o].(pc := Locked, held := keys);
            && DoLockReclaim(s, o) == Move(s, o, p).(activePayloads := s.activePayloads + keys)
            && ReclaimOk(Move(s, o, p).(activePayloads := s.activePayloads + keys), o, p)
            && keys !! s.activePayloads
    ensures Owed(s.procs[o]).None? && s.procs[o].held == {} && Live(s.mode)
  {
  }

  lemma LockKeeps(s: State, o: ObjectId, p: Proc)
    requires Inv(s) && Live(s.mode) && IsReclaim(s, o) && s.procs[o].held == {} && Owed(s.procs[o]).None?
    requires p.Reclaim? && p.attempt == s.procs[o].attempt && Owed(p).None? && p.held !! s.activePayloads
    requires ReclaimOk(Move(s, o, p).(activePayloads := s.activePayloads + p.held), o, p)
    ensures Inv(Move(s, o, p).(activePayloads := s.activePayloads + p.held))
  {
    var t := Move(s, o, p).(activePayloads := s.activePayloads + p.held);
    GuardsLock(s, t, o, p.held);
    ControlKeeps(s, t, o);
  }

  lemma LockReclaimKeeps(s: State, o: ObjectId)
    requires Inv(s) && CanLockReclaim(s, o)
    ensures Inv(DoLockReclaim(s, o))
  {
    OwnProcOk(s, o);
    LockReclaimProc(s, o);
    LockKeeps(s, o, s.procs[o].(pc := Locked, held := Identities(s.procs[o].rows)));
  }

  lemma BeginAbortProc(s: State, o: ObjectId)
    requires CanBeginAbort(s, o) && ReclaimOk(s, o, s.procs[o])
    ensures var p := s.procs[o].(pc := Aborting(0)); DoBeginAbort(s, o) == Move(s, o, p) && ReclaimOk(Move(s, o, p), o, p)
    ensures Owed(s.procs[o]).None? && Live(s.mode)
  {
  }

  lemma BeginAbortKeeps(s: State, o: ObjectId)
    requires Inv(s) && CanBeginAbort(s, o)
    ensures Inv(DoBeginAbort(s, o))
  {
    OwnProcOk(s, o);
    BeginAbortProc(s, o);
    MoveKeeps(s, o, s.procs[o].(pc := Aborting(0)));
  }

  lemma ExitWay(s: State, o: ObjectId)
    requires CanEarlyExit(s, o) && ReclaimOk(s, o, s.procs[o]) && !s.procs[o].pc.Planned?
    ensures BeforePhysical(s, o) && s.db.reservations[s.procs[o].attempt].status == ReservationOpen
  {
  }

  lemma ExitPlanned(s: State, o: ObjectId)
    requires CanEarlyExit(s, o) && ReclaimOk(s, o, s.procs[o]) && s.procs[o].pc.Planned?
    ensures o in s.db.objects && Owed(s.procs[o]).None?
    ensures forall a <- s.db.journal :: s.db.journal[a].owner == o ==> !Unfinished(s.db.journal[a].phase)
  {
  }

  /** What an operation that gives up early leaves open can be undone and is still reserved. */
  lemma ExitOwn(s: State, o: ObjectId)
    requires OneOpen(s.db.journal) && CanEarlyExit(s, o) && ReclaimOk(s, o, s.procs[o])
    ensures o in s.db.objects && Owed(s.procs[o]).None?
    ensures forall a <- s.db.journal :: s.db.journal[a].owner == o ==> !IsPhysical(s.db.journal[a].phase)
    ensures forall a <- s.db.journal :: s.db.journal[a].owner == o && Unfinished(s.db.journal[a].phase) && a in s.db.reservations ==>
               s.db.reservations[a].status == ReservationOpen
  {
    if s.procs[o].pc.Planned? {
      ExitPlanned(s, o);
    } else {
      ExitWay(s, o);
      OnlyOpen(s, o);
    }
  }

  lemma EarlyExitKeeps(s: State, o: ObjectId)
    requires Inv(s) && CanEarlyExit(s, o)
    ensures Inv(DoEarlyExit(s, o))
  {
    OwnProcOk(s, o);
    ExitOwn(s, o);
    FinishKeeps(s, o);
  }

  // ------------------------------------------------------------------
  // The last-owner plan
  // ------------------------------------------------------------------

  lemma SubsetSameSize<T>(x: set<T>, y: set<T>)
    requires x <= y && |x| == |y|
    ensures x == y
  {
    assert y == x + (y - x);
  }

  /** Under the payload guards the plan is what its name says: every row sharing a payload it
      deletes is one of the attempt's own. */
  lemma PlanOwnsPlace(s: State, o: ObjectId, plan: set<ReplicaId>, q: ReplicaId, r: ReplicaId)
    requires LiveOk(s) && RowsOk(s.db, s.phys) && CanStartPhysical(s, o, plan) && ReclaimOk(s, o, s.procs[o])
    requires s.db.journal[s.procs[o].attempt].deletions == s.procs[o].rows
    requires Matches(s.db.replicas, s.db.archives, s.db.journal[s.procs[o].attempt])
    requires Whole(s.db.replicas, s.db.archives, s.db.journal[s.procs[o].attempt])
    requires q in plan && q in s.procs[o].rows && r in s.db.replicas && PlaceOf(s.db.replicas[r]) == PlaceOf(s.procs[o].rows[q])
    ensures r in s.procs[o].rows
  {
    var rows := s.procs[o].rows;
    var i := IdentityOf(rows[q]);
    assert rows[q] == s.db.replicas[q];
    assert ReplicaOk(s.db, s.phys, s.db.replicas[q]) && ReplicaOk(s.db, s.phys, s.db.replicas[r]);
    assert i in Identities(rows);
    CountsNow(s, o, i);
    assert RowSet(rows, i) <= RowSet(s.db.replicas, i);
    assert |RowSet(rows, i)| == s.db.dedup[i].refs;
    SubsetSameSize(RowSet(rows, i), RowSet(s.db.replicas, i));
    assert r in RowSet(s.db.replicas, i);
  }

  lemma TargetRow(j: Journal, l: Loc) returns (q: ReplicaId)
    requires l.Payload? && l in Targets(j)
    ensures j.plan.Some? && q in j.plan.value && q in j.deletions && l == PlaceOf(j.deletions[q])
  {
    q :| q in j.plan.value && q in j.deletions && l == PlaceOf(j.deletions[q]);
  }

  lemma StartOwner(s: State, o: ObjectId, plan: set<ReplicaId>, j: Journal, r: ReplicaId)
    requires LiveOk(s) && RowsOk(s.db, s.phys) && CanStartPhysical(s, o, plan) && ReclaimOk(s, o, s.procs[o])
    requires s.db.journal[s.procs[o].attempt].deletions == s.procs[o].rows
    requires Matches(s.db.replicas, s.db.archives, s.db.journal[s.procs[o].attempt])
    requires Whole(s.db.replicas, s.db.archives, s.db.journal[s.procs[o].attempt])
    requires j.deletions == s.procs[o].rows && j.plan == Some(plan)
    requires r in s.db.replicas && PlaceOf(s.db.replicas[r]) in Targets(j)
    ensures r in s.procs[o].rows
  {
    var q := TargetRow(j, PlaceOf(s.db.replicas[r]));
    PlanOwnsPlace(s, o, plan, q, r);
  }

  lemma ScheduledRows(s: State, o: ObjectId)
    requires Journaled(s, o) && JournalOk(s.db, s.phys, s.procs[o].attempt) && ReclaimOk(s, o, s.procs[o]) && s.procs[o].pc.Locked?
    ensures s.db.journal[s.procs[o].attempt].deletions == s.procs[o].rows && s.procs[o].rows == RowsOf(s.db, o)
    ensures Matches(s.db.replicas, s.db.archives, s.db.journal[s.procs[o].attempt])
    ensures Whole(s.db.replicas, s.db.archives, s.db.journal[s.procs[o].attempt])
  {
  }

  lemma StartPrivate(s: State, o: ObjectId, plan: set<ReplicaId>)
    requires LiveOk(s) && RowsOk(s.db, s.phys) && CanStartPhysical(s, o, plan) && ReclaimOk(s, o, s.procs[o])
    requires JournalOk(s.db, s.phys, s.procs[o].attempt) && PlansPrivate(s.db.journal, s.db.replicas)
    ensures var t := DoStartPhysical(s, o, plan); PlansPrivate(t.db.journal, t.db.replicas)
  {
    var a := s.procs[o].attempt;
    var j := s.db.journal[a].(phase := PhysicalStarted, plan := Some(plan));
    ScheduledRows(s, o);
    forall r <- s.db.replicas | PlaceOf(s.db.replicas[r]) in Targets(j) ensures s.db.replicas[r].owner == o {
      StartOwner(s, o, plan, j, r);
    }
    PrivateJournal(s.db.journal, s.db.replicas, a, j);
  }

  lemma PrivateJournal(m: map<AttemptId, Journal>, replicas: map<ReplicaId, Replica>, a: AttemptId, j: Journal)
    requires PlansPrivate(m, replicas)
    requires forall r <- replicas :: PlaceOf(replicas[r]) in Targets(j) ==> replicas[r].owner == j.owner
    ensures PlansPrivate(m[a := j], replicas)
  {
  }

  /** Before anything physical was announced no payload of the object may be missing. */
  lemma NoExcuse(s: State, o: ObjectId, place: Loc)
    requires OneOpen(s.db.journal) && BeforePhysical(s, o)
    ensures !Excused(s.db.journal, o, place)
  {
    OnlyOpen(s, o);
  }

  lemma OwnRowPresent(s: State, o: ObjectId, r: ReplicaId)
    requires RowsOk(s.db, s.phys) && OneOpen(s.db.journal) && BeforePhysical(s, o) && r in s.db.replicas && s.db.replicas[r].owner == o
    ensures PlaceOf(s.db.replicas[r]) in s.phys
  {
    assert ReplicaOk(s.db, s.phys, s.db.replicas[r]);
    NoExcuse(s, o, PlaceOf(s.db.replicas[r]));
  }

  lemma OwnVaultPresent(s: State, o: ObjectId, x: ArchiveId)
    requires RowsOk(s.db, s.phys) && OneOpen(s.db.journal) && BeforePhysical(s, o) && x in s.db.archives && s.db.archives[x].owner == o
    ensures VaultOf(s.db.archives[x]) in s.phys
  {
    assert ArchiveOk(s.db, s.phys, s.db.archives[x]);
    NoExcuse(s, o, VaultOf(s.db.archives[x]));
  }

  lemma ScheduledStored(s: State, o: ObjectId, j: Journal)
    requires BeforePhysical(s, o) && JournalOk(s.db, s.phys, s.procs[o].attempt)
    requires s.db.journal[s.procs[o].attempt].deletions == j.deletions && s.db.journal[s.procs[o].attempt].archives == j.archives
    ensures forall r <- j.deletions :: r in s.db.replicas && s.db.replicas[r] == j.deletions[r] && j.deletions[r].owner == o
    ensures forall x <- j.archives :: x in s.db.archives && s.db.archives[x] == j.archives[x] && j.archives[x].owner == o
  {
  }

  /** When the deletions start, everything they aim at is there. */
  lemma StartPresent(s: State, o: ObjectId, j: Journal)
    requires RowsOk(s.db, s.phys) && OneOpen(s.db.journal) && BeforePhysical(s, o) && JournalOk(s.db, s.phys, s.procs[o].attempt)
    requires s.db.journal[s.procs[o].attempt].deletions == j.deletions && s.db.journal[s.procs[o].attempt].archives == j.archives
    ensures Targets(j) <= s.phys.Keys
  {
    ScheduledStored(s, o, j);
    forall l <- Targets(j) ensures l in s.phys {
      if l.Payload? {
        var r :| r in j.deletions && l == PlaceOf(j.deletions[r]);
        OwnRowPresent(s, o, r);
      } else {
        var x :| x in j.archives && l == VaultOf(j.archives[x]);
        OwnVaultPresent(s, o, x);
      }
    }
  }

  lemma StartRecords(s: State, o: ObjectId, plan: set<ReplicaId>)
    requires CanStartPhysical(s, o, plan) && s.db.journal[s.procs[o].attempt].owner == o
    ensures Records(s, DoStartPhysical(s, o, plan), o, s.procs[o].attempt)
  {
  }

  lemma StartJournal(s: State, o: ObjectId, plan: set<ReplicaId>)
    requires CanStartPhysical(s, o, plan) && JournalOk(s.db, s.phys, s.procs[o].attempt)
    requires s.db.journal[s.procs[o].attempt].deletions == s.procs[o].rows
    requires Targets(s.db.journal[s.procs[o].attempt].(plan := Some(plan))) <= s.phys.Keys
    ensures var t := DoStartPhysical(s, o, plan); JournalOk(t.db, t.phys, s.procs[o].attempt)
  {
    var t := DoStartPhysical(s, o, plan);
    assert Targets(t.db.journal[s.procs[o].attempt]) == Targets(s.db.journal[s.procs[o].attempt].(plan := Some(plan)));
  }

  lemma StartProc(s: State, o: ObjectId, plan: set<ReplicaId>)
    requires CanStartPhysical(s, o, plan) && ReclaimOk(s, o, s.procs[o])
    requires Targets(s.db.journal[s.procs[o].attempt].(plan := Some(plan))) <= s.phys.Keys
    ensures var t := DoStartPhysical(s, o, plan); ReclaimOk(t, o, t.procs[o])
  {
    var t := DoStartPhysical(s, o, plan);
    assert Targets(t.db.journal[s.procs[o].attempt]) == Targets(s.db.journal[s.procs[o].attempt].(plan := Some(plan)));
  }

  lemma StartFrame(m: map<AttemptId, Journal>, a: AttemptId, plan: set<ReplicaId>, o: ObjectId)
    requires a in m && OneOpen(m) && m[a].phase == PhaseValidated
    ensures var n := m[a := m[a].(phase := PhysicalStarted, plan := Some(plan))];
            OneOpen(n) && forall place :: Excused(m, o, place) ==> Excused(n, o, place)
  {
    var n := m[a := m[a].(phase := PhysicalStarted, plan := Some(plan))];
    forall place | Excused(m, o, place) ensures Excused(n, o, place) {
      var b :| b in m && m[b].owner == o && IsPhysical(m[b].phase) && place in Targets(m[b]);
      assert n[b] == m[b];
    }
  }

  lemma StartPhysicalKeeps(s: State, o: ObjectId, plan: set<ReplicaId>)
    requires Inv(s) && CanStartPhysical(s, o, plan)
    ensures Inv(DoStartPhysical(s, o, plan))
  {
    var t := DoStartPhysical(s, o, plan);
    var a := s.procs[o].attempt;
    assert ProcOk(s, o) && JournalOk(s.db, s.phys, a);
    OnTheWay(s, o);
    OnlyOpen(s, o);
    StartPresent(s, o, s.db.journal[a].(plan := Some(plan)));
    StartRecords(s, o, plan);
    StartJournal(s, o, plan);
    StartProc(s, o, plan);
    StartPrivate(s, o, plan);
    StartFrame(s.db.journal, a, plan, o);
    GuardsMove(s, t, o);
    RecordsKeeps(s, t, o, a);
  }

  // ------------------------------------------------------------------
  // Deleting
  // ------------------------------------------------------------------

  /** The attempt of a deleting process. */
  ghost predicate DeletesFor(s: State, o: ObjectId, l: Loc) {
    && Live(s.mode) && Journaled(s, o) && s.procs[o].pc.Deleting? && l !in s.procs[o].pc.gone
    && ReclaimOk(s, o, s.procs[o])
    && l in Targets(s.db.journal[s.procs[o].attempt])
  }

  function Deleted(s: State, o: ObjectId, l: Loc): (t: State)
    requires IsReclaim(s, o) && s.procs[o].pc.Deleting?
  {
    Move(s, o, s.procs[o].(pc := Deleting(s.procs[o].pc.gone + {l}))).(phys := s.phys - {l})
  }

  lemma DeleteMine(s: State, o: ObjectId, l: Loc)
    requires DeletesFor(s, o, l) && Shaped(s.db.journal[s.procs[o].attempt])
    ensures Mine(l, o, s.procs[o].held)
  {
    var j := s.db.journal[s.procs[o].attempt];
    if l.Payload? {
      var r :| r in j.deletions && l == PlaceOf(j.deletions[r]);
      assert IdentityOf(j.deletions[r]) in Identities(s.procs[o].rows);
    }
  }

  lemma DeleteLocal(s: State, o: ObjectId, l: Loc)
    requires DeletesFor(s, o, l) && Mine(l, o, s.procs[o].held)
    ensures Local(s, Deleted(s, o, l), o) && SafetyKept(s.db.objects, Deleted(s, o, l).db.objects)
  {
  }

  /** Nobody else's bytes are deleted. */
  lemma DeleteSpares(s: State, o: ObjectId, l: Loc)
    requires DeletesFor(s, o, l) && PlansPrivate(s.db.journal, s.db.replicas)
    ensures SparesOthers(s, Deleted(s, o, l), o)
  {
  }

  lemma DeleteJournal(s: State, o: ObjectId, l: Loc)
    requires DeletesFor(s, o, l) && JournalOk(s.db, s.phys, s.procs[o].attempt)
    ensures JournalOk(s.db, s.phys - {l}, s.procs[o].attempt)
  {
    assert l in s.phys;
    assert l !in (s.phys - {l}).Keys;
  }

  lemma DeleteRows(s: State, o: ObjectId, l: Loc)
    requires RowsOk(s.db, s.phys) && Excused(s.db.journal, o, l)
    ensures forall r <- s.db.replicas :: s.db.replicas[r].owner == o ==> ReplicaOk(s.db, s.phys - {l}, s.db.replicas[r])
    ensures forall x <- s.db.archives :: s.db.archives[x].owner == o ==> ArchiveOk(s.db, s.phys - {l}, s.db.archives[x])
  {
    forall r <- s.db.replicas | s.db.replicas[r].owner == o ensures ReplicaOk(s.db, s.phys - {l}, s.db.replicas[r]) {
      assert ReplicaOk(s.db, s.phys, s.db.replicas[r]);
    }
    forall x <- s.db.archives | s.db.archives[x].owner == o ensures ArchiveOk(s.db, s.phys - {l}, s.db.archives[x]) {
      assert ArchiveOk(s.db, s.phys, s.db.archives[x]);
    }
  }

  lemma DeleteOld(d: Db, phys: Physical, l: Loc, b: AttemptId)
    requires b in d.journal && JournalOk(d, phys, b) && !Unfinished(d.journal[b].phase)
    ensures JournalOk(d, phys - {l}, b)
  {
  }

  lemma DeleteJournals(s: State, o: ObjectId, l: Loc)
    requires JournalsOk(s.db, s.phys) && DeletesFor(s, o, l)
    requires forall b <- s.db.journal :: b != s.procs[o].attempt && s.db.journal[b].owner == o ==> !Unfinished(s.db.journal[b].phase)
    ensures forall b <- s.db.journal :: s.db.journal[b].owner == o ==> JournalOk(s.db, s.phys - {l}, b)
  {
    forall b <- s.db.journal | s.db.journal[b].owner == o ensures JournalOk(s.db, s.phys - {l}, b) {
      if b == s.procs[o].attempt { DeleteJournal(s, o, l); } else { DeleteOld(s.db, s.phys, l, b); }
    }
  }

  lemma DeletesAlone(s: State, o: ObjectId, l: Loc)
    requires OneOpen(s.db.journal) && DeletesFor(s, o, l)
    ensures forall b <- s.db.journal :: b != s.procs[o].attempt && s.db.journal[b].owner == o ==> !Unfinished(s.db.journal[b].phase)
    ensures Excused(s.db.journal, o, l)
  {
    OnlyOpen(s, o);
  }

  lemma DeleteCross(d: Db, phys: Physical, l: Loc)
    requires CrossDurable(d, phys)
    ensures CrossDurable(d, phys - {l})
  {
  }

  lemma DeleteDurable(s: State, o: ObjectId, l: Loc)
    requires DurableOk(s.db, s.phys) && DeletesFor(s, o, l)
    ensures OwnDurable(s.db, s.phys - {l}, o) && CrossDurable(s.db, s.phys - {l})
  {
    DeletesAlone(s, o, l);
    DeleteJournals(s, o, l);
    DeleteRows(s, o, l);
    DeleteCross(s.db, s.phys, l);
  }

  lemma DeleteProc(s: State, o: ObjectId, l: Loc)
    requires DeletesFor(s, o, l)
    ensures ReclaimOk(Deleted(s, o, l), o, Deleted(s, o, l).procs[o])
  {
    var t := Deleted(s, o, l);
    assert t.db == s.db;
    assert RecordIs(t.db, o, t.procs[o], PhysicalStarted, true, ReclaimPending, AttemptOpen, ReservationOpen);
  }

  lemma DeletePlaceKeeps(s: State, o: ObjectId, l: Loc)
    requires Inv(s) && DeletesFor(s, o, l)
    ensures Inv(Deleted(s, o, l))
  {
    var t := Deleted(s, o, l);
    assert ProcOk(s, o) && JournalOk(s.db, s.phys, s.procs[o].attempt);
    DeleteMine(s, o, l);
    DeleteLocal(s, o, l);
    DeleteSpares(s, o, l);
    DeleteDurable(s, o, l);
    DeleteProc(s, o, l);
    GuardsMove(s, t, o);
    ControlCounts(s, t, o);
    ControlOwn(s, t, o);
    LocalKeeps(s, t, o);
  }

  // ------------------------------------------------------------------
  // PHYSICAL_DONE
  // ------------------------------------------------------------------

  lemma DoneRecords(s: State, o: ObjectId)
    requires CanPhysicalComplete(s, o) && s.db.journal[s.procs[o].attempt].owner == o
    ensures Records(s, DoPhysicalComplete(s, o), o, s.procs[o].attempt)
  {
  }

  lemma DoneJournal(s: State, o: ObjectId)
    requires CanPhysicalComplete(s, o) && JournalOk(s.db, s.phys, s.procs[o].attempt) && ReclaimOk(s, o, s.procs[o])
    ensures var t := DoPhysicalComplete(s, o); JournalOk(t.db, t.phys, s.procs[o].attempt)
  {
    var t := DoPhysicalComplete(s, o);
    assert Targets(t.db.journal[s.procs[o].attempt]) == Targets(s.db.journal[s.procs[o].attempt]);
  }

  lemma DoneProc(s: State, o: ObjectId)
    requires CanPhysicalComplete(s, o) && ReclaimOk(s, o, s.procs[o])
    ensures var t := DoPhysicalComplete(s, o); ReclaimOk(t, o, t.procs[o])
  {
    var t := DoPhysicalComplete(s, o);
    assert Targets(t.db.journal[s.procs[o].attempt]) == Targets(s.db.journal[s.procs[o].attempt]);
  }

  lemma PhysicalCompleteKeeps(s: State, o: ObjectId)
    requires Inv(s) && CanPhysicalComplete(s, o)
    ensures Inv(DoPhysicalComplete(s, o))
  {
    var t := DoPhysicalComplete(s, o);
    var a := s.procs[o].attempt;
    assert ProcOk(s, o) && JournalOk(s.db, s.phys, a);
    OnlyOpen(s, o);
    DoneRecords(s, o);
    DoneJournal(s, o);
    DoneProc(s, o);
    PhaseFrame(s.db.journal, s.db.replicas, a, PhysicalDone, o);
    GuardsMove(s, t, o);
    RecordsKeeps(s, t, o, a);
  }
}
