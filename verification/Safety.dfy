/** The promises of the coordinator, over every run from any consistent store: any number of
    creates and reclaims interleaved, with crashes and recoveries anywhere. */
module Safety {
  import opened Fabric
  import opened Durable
  import opened RecoveryWrites
  import opened Restart
  import opened LifecycleTable
  import opened Protocol
  import opened Invariant
  import opened Locality
  import opened CreateSteps
  import opened PhysicalSteps
  import opened ReclaimSteps
  import opened CommitSteps
  import opened OtherSteps

  /** `t` is reached from `s` by the steps `ks`, in that order. */
  ghost predicate Execution(s: State, ks: seq<Step>, t: State)
    decreases |ks|
  {
    if ks == [] then s == t else CanStep(s, ks[0]) && Execution(Next(s, ks[0]), ks[1..], t)
  }

  lemma {:induction false} ExecutionKeeps(s: State, ks: seq<Step>, t: State)
    requires Inv(s) && Execution(s, ks, t)
    ensures Inv(t)
    decreases |ks|
  {
    if ks != [] {
      StepKeeps(s, ks[0]);
      ExecutionKeeps(Next(s, ks[0]), ks[1..], t);
    }
  }

  ghost predicate Reachable(t: State) {
    exists s, ks :: Init(s) && Execution(s, ks, t)
  }

  lemma {:induction false} ExecutionSnoc(s: State, ks: seq<Step>, t: State, k: Step)
    requires Execution(s, ks, t) && CanStep(t, k)
    ensures Execution(s, ks + [k], Next(t, k))
    decreases |ks|
  {
    if ks == [] {
      assert [k][1..] == [];
    } else {
      assert (ks + [k])[1..] == ks[1..] + [k];
      ExecutionSnoc(Next(s, ks[0]), ks[1..], t, k);
    }
  }

  lemma ReachStep(t: State, k: Step)
    requires Reachable(t) && CanStep(t, k)
    ensures Reachable(Next(t, k))
  {
    var s, ks :| Init(s) && Execution(s, ks, t);
    ExecutionSnoc(s, ks, t, k);
  }

  lemma ReachableInv(t: State)
    requires Reachable(t)
    ensures Inv(t)
  {
    var s, ks :| Init(s) && Execution(s, ks, t);
    InitInv(s);
    ExecutionKeeps(s, ks, t);
  }

  // ------------------------------------------------------------------
  // Crash atomicity
  // ------------------------------------------------------------------

  /** Crash atomicity. Stop the process at any point of any run; let recovery run on what is then
      durable, with as many interruptions as you like. Every open attempt ends fully reclaimed or
      fully restored, or is left open with part of its deletions executed. */
  lemma CrashAtomicity(s: State, a: AttemptId, ws: seq<Write>, f: Db)
    requires Reachable(s) && a in s.db.journal && Unfinished(s.db.journal[a].phase)
    requires Run(s.db, s.phys, ws, f) && Complete(f, s.phys)
    ensures match Decide(s.db.journal[a], s.phys)
            case Commit => FullyReclaimed(f, s.phys, a, s.db.journal[a]) && ClearedFrom(s.db, f, s.db.journal[a].owner)
            case RollBack => FullyRestored(f, s.phys, a, s.db.journal[a]) && TakenBack(s.db, f, s.db.journal[a])
            case Stuck => LeftOpen(f, s.phys, a, s.db.journal[a])
            case Settled => false
  {
    ReachableInv(s);
    RunReachesOutcome(s.db, s.phys, ws, f);
    AllOrNothing(s.db, s.phys, f, a);
  }

  /** What recovery would decide if the process died now, read off the attempt's progress. */
  function Fate(p: Proc, j: Journal): (v: Verdict)
    requires p.Reclaim? && !p.pc.Planned?
  {
    match p.pc
    case Deleting(gone) => if gone == {} then RollBack else if gone == Targets(j) then Commit else Stuck
    case Dropping => Commit
    case Releasing(_) => Commit
    case Closing(_) => Commit
    case _ => RollBack
  }

  lemma DeletingFate(s: State, p: Proc)
    requires p.Reclaim? && p.pc.Deleting? && p.attempt in s.db.journal && DeletingOk(s, p)
    requires s.db.journal[p.attempt].phase == PhysicalStarted && s.db.journal[p.attempt].plan.Some?
    ensures Decide(s.db.journal[p.attempt], s.phys) == Fate(p, s.db.journal[p.attempt])
  {
    var targets := Targets(s.db.journal[p.attempt]);
    var gone := p.pc.gone;
    if gone != {} {
      var l :| l in gone;
      assert l in targets && l !in s.phys.Keys;
      if gone != targets {
        var m :| m in targets && m !in gone;
        assert m in s.phys.Keys;
      }
    } else if targets != {} {
      var m :| m in targets;
      assert m in s.phys.Keys;
    }
  }

  /** The verdict of recovery is a function of how far the deletions got: nothing deleted means
      undo, everything deleted means finish, and only a strict part in between is stuck. */
  lemma FateDecided(s: State, o: ObjectId)
    requires Reachable(s) && Live(s.mode) && IsReclaim(s, o) && !s.procs[o].pc.Planned?
    ensures s.procs[o].attempt in s.db.journal
    ensures Decide(s.db.journal[s.procs[o].attempt], s.phys) == Fate(s.procs[o], s.db.journal[s.procs[o].attempt])
  {
    ReachableInv(s);
    OwnProcOk(s, o);
    ProcFate(s, o, s.procs[o]);
  }

  lemma ProcFate(s: State, o: ObjectId, p: Proc)
    requires p.Reclaim? && !p.pc.Planned? && ReclaimOk(s, o, p)
    ensures p.attempt in s.db.journal && Decide(s.db.journal[p.attempt], s.phys) == Fate(p, s.db.journal[p.attempt])
  {
    if p.pc.Deleting? {
      DeletingFate(s, p);
    } else if p.pc.Dropping? || p.pc.Releasing? || p.pc.Closing? {
      assert Targets(s.db.journal[p.attempt]) !! s.phys.Keys;
    }
  }

  /** Going on in process and crashing into recovery agree: the last write of a live commit leaves
      the attempt fully reclaimed, the last write of a live abort leaves it fully restored. */
  lemma LiveCommitComplete(s: State, o: ObjectId)
    requires Reachable(s) && CanCloseWrite(s, o) && s.procs[o].pc.closed == 2
    ensures var t := DoCloseWrite(s, o);
            && FullyReclaimed(t.db, t.phys, s.procs[o].attempt, s.db.journal[s.procs[o].attempt])
            && o in t.db.objects && t.db.objects[o] == s.procs[o].prior.(state := Reclaimed)
  {
    ReachableInv(s);
    OwnProcOk(s, o);
    ClosedObject(s, o);
    ClosingObject(s, o);
    CommittingAlone(s, o);
  }

  lemma LiveAbortComplete(s: State, o: ObjectId)
    requires Reachable(s) && CanAbortWrite(s, o) && s.procs[o].pc.written == 3
    ensures var t := DoAbortWrite(s, o);
            && FullyRestored(t.db, t.phys, s.procs[o].attempt, s.db.journal[s.procs[o].attempt])
            && o in t.db.objects && t.db.objects[o] == s.procs[o].prior
  {
    ReachableInv(s);
    OwnProcOk(s, o);
    AbortedObject(s, o);
    AbortFlags(s, o);
    ClosedRestored(s.db, s.phys, s.procs[o].attempt);
  }

  lemma ClosedObject(s: State, o: ObjectId)
    requires CanCloseWrite(s, o) && s.procs[o].pc.closed == 2 && ReclaimOk(s, o, s.procs[o])
    ensures o in s.db.objects && s.db.objects[o] == s.procs[o].prior.(state := Reclaimed) && DoCloseWrite(s, o).db.objects == s.db.objects
  {
  }

  lemma AbortedObject(s: State, o: ObjectId)
    requires CanAbortWrite(s, o) && s.procs[o].pc.written == 3 && ReclaimOk(s, o, s.procs[o])
    ensures o in s.db.objects && s.db.objects[o] == s.procs[o].prior && DoAbortWrite(s, o).db.objects == s.db.objects
  {
  }

  lemma AbortFlags(s: State, o: ObjectId)
    requires CanAbortWrite(s, o) && s.procs[o].pc.written == 3 && ReclaimOk(s, o, s.procs[o])
    ensures var a := s.procs[o].attempt; var j := s.db.journal[a]; var t := DoAbortWrite(s, o);
            && j.owner == o && s.db.objects[o].state == j.prior.state
            && s.db.attempts[a] == AttemptRolledBack && s.db.reservations[a].status == ReservationReleased
            && t.db == s.db.(journal := s.db.journal[a := j.(phase := PhaseRolledBack)]) && t.phys == s.phys
            && Decide(j, s.phys).RollBack?
  {
  }

  /** An undone attempt whose object and statuses are back is fully restored once its row says so. */
  lemma ClosedRestored(d: Db, phys: Physical, a: AttemptId)
    requires DurableOk(d, phys) && a in d.journal && JournalOk(d, phys, a) && Decide(d.journal[a], phys).RollBack?
    requires d.objects[d.journal[a].owner].state == d.journal[a].prior.state
    requires d.attempts[a] == AttemptRolledBack && d.reservations[a].status == ReservationReleased
    ensures FullyRestored(d.(journal := d.journal[a := d.journal[a].(phase := PhaseRolledBack)]), phys, a, d.journal[a])
  {
    RowsRestored(d, phys, a);
  }

  lemma RowsRestored(d: Db, phys: Physical, a: AttemptId)
    requires DurableOk(d, phys) && a in d.journal && JournalOk(d, phys, a) && Decide(d.journal[a], phys).RollBack?
    ensures forall r <- d.journal[a].deletions ::
              && r in d.replicas && d.replicas[r] == d.journal[a].deletions[r]
              && PlaceOf(d.journal[a].deletions[r]) in phys
              && phys[PlaceOf(d.journal[a].deletions[r])] == d.journal[a].deletions[r].content
    ensures forall x <- d.journal[a].archives ::
              x in d.archives && d.archives[x] == d.journal[a].archives[x] && VaultOf(d.journal[a].archives[x]) in phys
  {
    UndoneBytes(d, phys, a);
    RestoredRows(d, phys, a);
  }

  lemma RestoredRows(d: Db, phys: Physical, a: AttemptId)
    requires a in d.journal && JournalOk(d, phys, a) && Decide(d.journal[a], phys).RollBack?
    ensures forall r <- d.journal[a].deletions :: r in d.replicas && d.replicas[r] == d.journal[a].deletions[r]
    ensures forall x <- d.journal[a].archives :: x in d.archives && d.archives[x] == d.journal[a].archives[x]
  {
  }

  // ------------------------------------------------------------------
  // Shared payloads
  // ------------------------------------------------------------------

  /** Only two steps delete payloads. */
  lemma CreateDeletes(s: State, k: Step, l: Loc)
    requires CreateEnabled(s, k) && l in s.phys && l !in CreateApply(s, k).phys
    ensures k.Sweep? && k.l == l
  {
    if !k.Sweep? && !k.PutPayload? { CreateKeepsBytes(s, k); }
  }

  lemma CreateKeepsBytes(s: State, k: Step)
    requires CreateEnabled(s, k) && !k.Sweep? && !k.PutPayload?
    ensures CreateApply(s, k).phys == s.phys
  {
    if k.BeginCreate? || k.LockCreate? || k.UnlockCreate? || k.Publish? || k.GiveUp? || k.EndCreate? { } else { }
  }

  lemma ReclaimDeletes(s: State, k: Step, l: Loc)
    requires ReclaimEnabled(s, k) && l in s.phys && l !in ReclaimApply(s, k).phys
    ensures k.DeletePlace? && k.l == l
  {
    if !k.DeletePlace? { ReclaimKeepsBytes(s, k); }
  }

  lemma ReclaimKeepsBytes(s: State, k: Step)
    requires ReclaimEnabled(s, k) && !k.DeletePlace?
    ensures ReclaimApply(s, k).phys == s.phys
  {
    if WritesJournal(k) { WritersKeepBytes(s, k); }
  }

  lemma WritersKeepBytes(s: State, k: Step)
    requires ReclaimEnabled(s, k) && WritesJournal(k)
    ensures ReclaimApply(s, k).phys == s.phys
  {
  }

  lemma OtherDeletes(s: State, k: Step)
    requires OtherEnabled(s, k)
    ensures OtherApply(s, k).phys == s.phys
  {
  }

  lemma OnlyDeleters(s: State, k: Step, l: Loc)
    requires CanStep(s, k) && l in s.phys && l !in Next(s, k).phys
    ensures (k.DeletePlace? && k.l == l && ReclaimEnabled(s, k)) || (k.Sweep? && k.l == l && CreateEnabled(s, k))
  {
    if CreateEnabled(s, k) { CreateDeletes(s, k, l); }
    else if ReclaimEnabled(s, k) { ReclaimDeletes(s, k, l); }
    else { OtherDeletes(s, k); }
  }

  /** Shared-payload safety: whenever a payload is deleted, by any step of any run, every replica
      row at its location is one the deleting attempt has scheduled. */
  lemma SharedPayloadSafety(s: State, k: Step, l: Loc, r: ReplicaId)
    requires Reachable(s) && CanStep(s, k) && l in s.phys && l !in Next(s, k).phys
    requires r in s.db.replicas && PlaceOf(s.db.replicas[r]) == l
    ensures k.DeletePlace? && IsReclaim(s, k.o) && r in s.procs[k.o].rows && s.procs[k.o].rows[r] == s.db.replicas[r]
  {
    ReachableInv(s);
    OnlyDeleters(s, k, l);
    if k.Sweep? {
      SweepSpares(s, k.o, l);
    } else {
      OwnProcOk(s, k.o);
      DeleteDeletes(s, k.o, l);
      RowScheduled(s, k.o, l, r);
    }
  }

  lemma SweepSpares(s: State, o: ObjectId, l: Loc)
    requires Inv(s) && CanSweep(s, o, l)
    ensures forall r <- s.db.replicas :: PlaceOf(s.db.replicas[r]) != l
  {
    assert ProcOk(s, o);
    AccountsNow(s, o);
    SweptUnused(s, o, l);
  }

  lemma DeleteDeletes(s: State, o: ObjectId, l: Loc)
    requires CanDeletePlace(s, o, l) && ReclaimOk(s, o, s.procs[o])
    ensures DeletesFor(s, o, l)
  {
  }

  lemma RowScheduled(s: State, o: ObjectId, l: Loc, r: ReplicaId)
    requires JournalsOk(s.db, s.phys) && PlansPrivate(s.db.journal, s.db.replicas) && DeletesFor(s, o, l)
    requires r in s.db.replicas && PlaceOf(s.db.replicas[r]) == l
    ensures r in s.procs[o].rows && s.procs[o].rows[r] == s.db.replicas[r]
  {
    assert JournalOk(s.db, s.phys, s.procs[o].attempt);
  }

  /** A replica outside a physical-phase attempt always has its payload, with the right bytes. */
  lemma ReplicaReadable(s: State, r: ReplicaId)
    requires Reachable(s) && r in s.db.replicas
    requires forall a <- s.db.journal :: IsPhysical(s.db.journal[a].phase) ==> r !in s.db.journal[a].deletions
    ensures PlaceOf(s.db.replicas[r]) in s.phys
    ensures s.phys[PlaceOf(s.db.replicas[r])] == s.db.replicas[r].content
  {
    ReachableInv(s);
    var row := s.db.replicas[r];
    assert ReplicaOk(s.db, s.phys, row);
    if Excused(s.db.journal, row.owner, PlaceOf(row)) { ExcusedScheduled(s.db, s.phys, r); }
  }

  /** The attempt that excuses a missing payload has scheduled the row. */
  lemma ExcusedScheduled(d: Db, phys: Physical, r: ReplicaId)
    requires JournalsOk(d, phys) && r in d.replicas && Excused(d.journal, d.replicas[r].owner, PlaceOf(d.replicas[r]))
    ensures exists a :: a in d.journal && IsPhysical(d.journal[a].phase) && r in d.journal[a].deletions
  {
    var row := d.replicas[r];
    var a :| a in d.journal && d.journal[a].owner == row.owner && IsPhysical(d.journal[a].phase) && PlaceOf(row) in Targets(d.journal[a]);
    assert JournalOk(d, phys, a);
  }

  // ------------------------------------------------------------------
  // References
  // ------------------------------------------------------------------

  /** Reference conservation: while a payload is not locked, its dedup row is exactly what its
      replica rows say: absent without rows, and otherwise their count, key and size. */
  lemma ReferenceConservation(s: State, i: Identity)
    requires Reachable(s) && Live(s.mode) && i !in s.activePayloads
    ensures ExactFor(s.db.replicas, s.db.dedup, i)
  {
    ReachableInv(s);
    if OwedBySome(s.procs, i) {
      var o :| o in s.procs && Owed(s.procs[o]) == Some(i);
      assert ProcOk(s, o);
      OwedHeld(s, o);
    }
    assert CountOk(s.db.replicas, s.db.dedup, s.procs, i) && EntryOk(s.db.replicas, s.db.dedup, i);
    forall r <- RowSet(s.db.replicas, i) ensures s.db.replicas[r].size == i.content.length {
      assert ReplicaOk(s.db, s.phys, s.db.replicas[r]);
    }
  }

  /** In particular, when every operation has completed or been compensated, the whole table is
      the group-by of the replicas. */
  lemma ConservedAtRest(s: State)
    requires Reachable(s) && Live(s.mode) && s.procs == map[]
    ensures Exact(s.db.replicas, s.db.dedup)
  {
    ReachableInv(s);
    forall i ensures ExactFor(s.db.replicas, s.db.dedup, i) { ReferenceConservation(s, i); }
  }

  // ------------------------------------------------------------------
  // Guards
  // ------------------------------------------------------------------

  /** The operation is waiting for payload keys. */
  predicate Waits(p: Proc) {
    match p
    case Create(_, _, _, _, _, _, at, _) => at.Waiting? || at.Rewaiting?
    case Reclaim(_, _, _, _, pc, _) => pc.Cleared?
  }

  lemma RecoveryExcludes(s: State)
    requires Reachable(s) && s.activeRecovery
    ensures s.procs == map[] && s.activeObjects == {} && s.activePayloads == {}
  {
    ReachableInv(s);
    assert forall i <- s.activePayloads :: exists o :: o in s.procs && i in s.procs[o].held;
  }

  lemma HeldDisjoint(s: State, o: ObjectId, q: ObjectId)
    requires Reachable(s) && o in s.procs && q in s.procs && o != q
    ensures s.procs[o].held !! s.procs[q].held
  {
    ReachableInv(s);
  }

  /** No circular wait: who waits holds nothing, and is only ever blocked by one who does not wait. */
  lemma NoCircularWait(s: State, o: ObjectId, i: Identity)
    requires Reachable(s) && o in s.procs && Waits(s.procs[o])
    ensures s.procs[o].held == {}
    ensures i in s.activePayloads ==> exists q :: q in s.procs && q != o && i in s.procs[q].held && !Waits(s.procs[q])
  {
    ReachableInv(s);
    WaiterHoldsNothing(s, o);
    if i in s.activePayloads {
      var q :| q in s.procs && i in s.procs[q].held;
      if Waits(s.procs[q]) { WaiterHoldsNothing(s, q); }
    }
  }

  lemma WaiterHoldsNothing(s: State, o: ObjectId)
    requires Inv(s) && o in s.procs && Waits(s.procs[o])
    ensures s.procs[o].held == {}
  {
    assert ProcOk(s, o);
  }

  // ------------------------------------------------------------------
  // The journal over whole runs
  // ------------------------------------------------------------------

  function Rank(p: Phase): (n: nat) {
    match p
    case PhaseReserved => 0
    case PhaseValidated => 1
    case PhysicalStarted => 2
    case PhysicalDone => 3
    case _ => 4
  }

  /** The phase only moves forward, a finished row never changes, the schedule never changes and
      the plan is fixed once. */
  ghost predicate RowAdvances(j: Journal, k: Journal) {
    && k == j.(phase := k.phase, plan := k.plan)
    && (j == k || Rank(j.phase) < Rank(k.phase))
    && (j.plan.Some? ==> k.plan == j.plan)
  }

  ghost predicate JournalAdvances(m: map<AttemptId, Journal>, n: map<AttemptId, Journal>) {
    forall a <- m :: a in n && RowAdvances(m[a], n[a])
  }

  lemma RecoveryAdvances(d: Db, phys: Physical, w: Write)
    requires Enabled(d, phys, w)
    ensures JournalAdvances(d.journal, Apply(d, phys, w).journal)
  {
  }

  lemma RowMoves(m: map<AttemptId, Journal>, a: AttemptId, j: Journal)
    requires a in m ==> RowAdvances(m[a], j)
    ensures JournalAdvances(m, m[a := j])
  {
  }

  predicate WritesJournal(k: Step) {
    k.Reserve? || k.Validate? || k.AbortWrite? || k.StartPhysical? || k.PhysicalComplete? || k.CloseWrite?
  }

  lemma JournalUntouched(s: State, k: Step)
    requires ReclaimEnabled(s, k) && !WritesJournal(k)
    ensures ReclaimApply(s, k).db.journal == s.db.journal
  {
    if WritesRows(k) || WritesObject(k) { TablesTouched(s, k); }
  }

  predicate WritesRows(k: Step) {
    k.DropRow? || k.ReleaseRow? || k.DropVault?
  }

  lemma TablesTouched(s: State, k: Step)
    requires ReclaimEnabled(s, k) && !WritesJournal(k) && (WritesRows(k) || WritesObject(k))
    ensures ReclaimApply(s, k).db.journal == s.db.journal
  {
  }

  /** What a step may do to the journal: at most advance the attempt's own row. */
  ghost predicate RowStays(m: map<AttemptId, Journal>, n: map<AttemptId, Journal>, a: AttemptId) {
    && a in n && (n == m || n == m[a := n[a]]) && (a in m ==> RowAdvances(m[a], n[a]))
  }

  lemma JournalTouched(s: State, k: Step)
    requires ReclaimEnabled(s, k) && WritesJournal(k) && ReclaimOk(s, k.o, s.procs[k.o])
    ensures RowStays(s.db.journal, ReclaimApply(s, k).db.journal, s.procs[k.o].attempt)
  {
    if k.AbortWrite? { AbortRow(s, k.o); } else if k.CloseWrite? { CloseRow(s, k.o); } else { PhaseRow(s, k); }
  }

  lemma AbortRow(s: State, o: ObjectId)
    requires CanAbortWrite(s, o) && ReclaimOk(s, o, s.procs[o])
    ensures RowStays(s.db.journal, DoAbortWrite(s, o).db.journal, s.procs[o].attempt)
  {
  }

  lemma CloseRow(s: State, o: ObjectId)
    requires CanCloseWrite(s, o) && ReclaimOk(s, o, s.procs[o])
    ensures RowStays(s.db.journal, DoCloseWrite(s, o).db.journal, s.procs[o].attempt)
  {
  }

  lemma PhaseRow(s: State, k: Step)
    requires ReclaimEnabled(s, k) && WritesJournal(k) && !k.AbortWrite? && !k.CloseWrite? && ReclaimOk(s, k.o, s.procs[k.o])
    ensures RowStays(s.db.journal, ReclaimApply(s, k).db.journal, s.procs[k.o].attempt)
  {
  }

  /** The part of the invariant that says where each operation is. */
  ghost predicate ProcsOk(s: State) {
    Live(s.mode) ==> forall o <- s.procs :: ProcOk(s, o)
  }

  lemma InvProcs(s: State)
    requires Inv(s)
    ensures ProcsOk(s)
  {
  }

  lemma RunsOk(s: State, o: ObjectId)
    requires ProcsOk(s) && Live(s.mode) && IsReclaim(s, o)
    ensures ReclaimOk(s, o, s.procs[o])
  {
    assert ProcOk(s, o);
  }

  lemma ReclaimAdvances(s: State, k: Step)
    requires ProcsOk(s) && ReclaimEnabled(s, k)
    ensures JournalAdvances(s.db.journal, ReclaimApply(s, k).db.journal)
  {
    if WritesJournal(k) {
      RunsOk(s, k.o);
      JournalTouched(s, k);
      var n, a := ReclaimApply(s, k).db.journal, s.procs[k.o].attempt;
      if n != s.db.journal { RowMoves(s.db.journal, a, n[a]); }
    } else {
      JournalUntouched(s, k);
    }
  }

  lemma OtherAdvances(s: State, k: Step)
    requires OtherEnabled(s, k)
    ensures JournalAdvances(s.db.journal, OtherApply(s, k).db.journal)
  {
    if k.Recovery? { RecoveryAdvances(s.db, s.phys, k.w); }
  }

  lemma CreateAdvances(s: State, k: Step)
    requires CreateEnabled(s, k)
    ensures CreateApply(s, k).db.journal == s.db.journal
  {
    if CreatePayload(k) { PayloadAdvances(s, k); }
  }

  predicate CreatePayload(k: Step) {
    k.CountExisting? || k.PutPayload? || k.InsertEntry? || k.AddRow? || k.DropMade? || k.ReleaseMade?
  }

  lemma PayloadAdvances(s: State, k: Step)
    requires CreateEnabled(s, k) && CreatePayload(k)
    ensures CreateApply(s, k).db.journal == s.db.journal && CreateApply(s, k).db.objects == s.db.objects
  {
  }

  lemma CreateObjects(s: State, k: Step)
    requires CreateEnabled(s, k) && !CreatePayload(k) && !k.Publish?
    ensures CreateApply(s, k).db == s.db
  {
  }

  lemma StepAdvances(s: State, k: Step)
    requires ProcsOk(s) && CanStep(s, k)
    ensures JournalAdvances(s.db.journal, Next(s, k).db.journal)
  {
    if CreateEnabled(s, k) { CreateAdvances(s, k); }
    else if ReclaimEnabled(s, k) { ReclaimAdvances(s, k); }
    else { OtherAdvances(s, k); }
  }

  lemma AdvancesTransitive(m: map<AttemptId, Journal>, n: map<AttemptId, Journal>, q: map<AttemptId, Journal>)
    requires JournalAdvances(m, n) && JournalAdvances(n, q)
    ensures JournalAdvances(m, q)
  {
    forall a <- m ensures a in q && RowAdvances(m[a], q[a]) { assert RowAdvances(m[a], n[a]) && RowAdvances(n[a], q[a]); }
  }

  /** Over every run each attempt's phase only advances, and terminal rows stay as they are. */
  lemma {:induction false} PhaseOnlyAdvances(s: State, ks: seq<Step>, t: State)
    requires Inv(s) && Execution(s, ks, t)
    ensures JournalAdvances(s.db.journal, t.db.journal)
    decreases |ks|
  {
    if ks != [] {
      var u := Next(s, ks[0]);
      StepKeeps(s, ks[0]);
      InvProcs(s);
      StepAdvances(s, ks[0]);
      PhaseOnlyAdvances(u, ks[1..], t);
      AdvancesTransitive(s.db.journal, u.db.journal, t.db.journal);
    }
  }

  /** A physical phase carries a plan over scheduled rows; each object has at most one open
      attempt; a terminal row has the matching attempt status and a closed reservation. */
  lemma JournalDiscipline(s: State, a: AttemptId)
    requires Reachable(s) && a in s.db.journal
    ensures IsPhysical(s.db.journal[a].phase) ==>
              s.db.journal[a].plan.Some? && s.db.journal[a].plan.value <= s.db.journal[a].deletions.Keys
    ensures Unfinished(s.db.journal[a].phase) ==>
              forall b <- s.db.journal :: b != a && Unfinished(s.db.journal[b].phase) ==> s.db.journal[b].owner != s.db.journal[a].owner
    ensures !Unfinished(s.db.journal[a].phase) ==>
              a in s.db.attempts && a in s.db.reservations && SettledRight(s.db.journal[a].phase, s.db.attempts[a], s.db.reservations[a].status)
  {
    ReachableInv(s);
    assert JournalOk(s.db, s.phys, a);
  }

  /** No reservation is open without an open attempt behind it. */
  lemma OpenReservationLive(s: State, a: AttemptId)
    requires Reachable(s) && a in s.db.reservations && s.db.reservations[a].status == ReservationOpen
    ensures a in s.db.journal && Unfinished(s.db.journal[a].phase)
  {
    ReachableInv(s);
    JournalDiscipline(s, a);
  }

  // ------------------------------------------------------------------
  // RECLAIMED over whole runs
  // ------------------------------------------------------------------

  /** `o` turns RECLAIMED between `d` and `e`. */
  predicate Turns(d: Db, e: Db, o: ObjectId) {
    && o in e.objects && e.objects[o].state == Reclaimed
    && (o in d.objects ==> d.objects[o].state != Reclaimed)
  }

  ghost predicate Absorbing(d: Db, e: Db) {
    forall o <- d.objects :: o in e.objects && (d.objects[o].state == Reclaimed ==> e.objects[o].state == Reclaimed)
  }

  /** Who turns RECLAIMED was neither pinned nor protected and needed no copy. */
  ghost predicate FairTurn(d: Db, e: Db) {
    forall o :: Turns(d, e, o) ==> o in d.objects && Unguarded(d.objects[o]) && Expendable(d.objects[o])
  }

  lemma ObjectTurns(d: Db, e: Db, o: ObjectId, x: Object)
    requires o in d.objects && e.objects == d.objects[o := x]
    requires d.objects[o].state == Reclaimed ==> x.state == Reclaimed
    requires x.state == Reclaimed && d.objects[o].state != Reclaimed ==> Unguarded(d.objects[o]) && Expendable(d.objects[o])
    ensures Absorbing(d, e) && FairTurn(d, e)
  {
  }

  lemma RecoveryObjects(d: Db, phys: Physical, w: Write)
    requires Enabled(d, phys, w) && !w.RestoreObject? && !w.MarkReclaimed?
    ensures Apply(d, phys, w).objects == d.objects
  {
  }

  lemma RecoveryTurns(d: Db, phys: Physical, w: Write)
    requires JournalsOk(d, phys) && Enabled(d, phys, w)
    ensures Absorbing(d, Apply(d, phys, w)) && FairTurn(d, Apply(d, phys, w))
  {
    if w.RestoreObject? || w.MarkReclaimed? {
      assert JournalOk(d, phys, w.attempt);
      var o := d.journal[w.attempt].owner;
      ObjectTurns(d, Apply(d, phys, w), o, Apply(d, phys, w).objects[o]);
    } else {
      RecoveryObjects(d, phys, w);
    }
  }

  lemma CreateTurns(s: State, k: Step)
    requires ProcsOk(s) && CreateEnabled(s, k)
    ensures var t := CreateApply(s, k); Absorbing(s.db, t.db) && FairTurn(s.db, t.db)
  {
    if k.Publish? { PublishTurns(s, k.o); }
    else if CreatePayload(k) { PayloadAdvances(s, k); }
    else { CreateObjects(s, k); }
  }

  lemma PublishTurns(s: State, o: ObjectId)
    requires ProcsOk(s) && CanPublish(s, o)
    ensures var t := DoPublish(s, o); Absorbing(s.db, t.db) && FairTurn(s.db, t.db)
  {
    assert ProcOk(s, o);
  }

  predicate WritesObject(k: Step) {
    k.StepRecomputable? || k.MarkPending? || k.AbortWrite? || k.MarkGone?
  }

  lemma ObjectsUntouched(s: State, k: Step)
    requires ReclaimEnabled(s, k) && !WritesObject(k)
    ensures ReclaimApply(s, k).db.objects == s.db.objects
  {
    if WritesRows(k) || WritesJournal(k) { ObjectsOutside(s, k); }
  }

  lemma ObjectsOutside(s: State, k: Step)
    requires ReclaimEnabled(s, k) && !WritesObject(k) && (WritesRows(k) || WritesJournal(k))
    ensures ReclaimApply(s, k).db.objects == s.db.objects
  {
    if k.CloseWrite? || k.StartPhysical? { ObjectsClosing(s, k); }
  }

  lemma ObjectsClosing(s: State, k: Step)
    requires ReclaimEnabled(s, k) && (k.CloseWrite? || k.StartPhysical?)
    ensures ReclaimApply(s, k).db.objects == s.db.objects
  {
  }

  lemma ObjectsTouched(s: State, k: Step)
    requires ReclaimEnabled(s, k) && WritesObject(k) && ReclaimOk(s, k.o, s.procs[k.o])
    ensures ObjectStays(s, ReclaimApply(s, k), k.o)
  {
    if k.MarkGone? { GoneObject(s, k.o); } else if k.AbortWrite? { AbortObject(s, k.o); } else { WayObject(s, k); }
  }

  /** What a step may take the object's row to. */
  ghost predicate ObjectStays(s: State, t: State, o: ObjectId) {
    && o in s.db.objects && o in t.db.objects
    && (t.db.objects == s.db.objects || t.db.objects == s.db.objects[o := t.db.objects[o]])
    && s.db.objects[o].state != Reclaimed && Unguarded(s.db.objects[o]) && Expendable(s.db.objects[o])
  }

  lemma GoneObject(s: State, o: ObjectId)
    requires CanMarkGone(s, o) && ReclaimOk(s, o, s.procs[o])
    ensures ObjectStays(s, DoMarkGone(s, o), o)
  {
  }

  lemma AbortObject(s: State, o: ObjectId)
    requires CanAbortWrite(s, o) && ReclaimOk(s, o, s.procs[o])
    ensures ObjectStays(s, DoAbortWrite(s, o), o)
  {
  }

  lemma WayObject(s: State, k: Step)
    requires ReclaimEnabled(s, k) && (k.StepRecomputable? || k.MarkPending?) && ReclaimOk(s, k.o, s.procs[k.o])
    ensures ObjectStays(s, ReclaimApply(s, k), k.o)
  {
  }

  lemma ReclaimTurns(s: State, k: Step)
    requires ProcsOk(s) && ReclaimEnabled(s, k)
    ensures var t := ReclaimApply(s, k); Absorbing(s.db, t.db) && FairTurn(s.db, t.db)
  {
    if WritesObject(k) {
      RunsOk(s, k.o);
      ObjectsTouched(s, k);
      StaysTurns(s, ReclaimApply(s, k), k.o);
    } else {
      ObjectsUntouched(s, k);
    }
  }

  lemma StaysTurns(s: State, t: State, o: ObjectId)
    requires ObjectStays(s, t, o)
    ensures Absorbing(s.db, t.db) && FairTurn(s.db, t.db)
  {
    if t.db.objects != s.db.objects { ObjectTurns(s.db, t.db, o, t.db.objects[o]); }
  }

  lemma OtherTurns(s: State, k: Step)
    requires JournalsOk(s.db, s.phys) && OtherEnabled(s, k)
    ensures var t := OtherApply(s, k); Absorbing(s.db, t.db) && FairTurn(s.db, t.db)
  {
    if k.Recovery? { RecoveryTurns(s.db, s.phys, k.w); }
  }

  lemma StepTurns(s: State, k: Step)
    requires ProcsOk(s) && JournalsOk(s.db, s.phys) && CanStep(s, k)
    ensures Absorbing(s.db, Next(s, k).db) && FairTurn(s.db, Next(s, k).db)
  {
    if CreateEnabled(s, k) { CreateTurns(s, k); }
    else if ReclaimEnabled(s, k) { ReclaimTurns(s, k); }
    else { OtherTurns(s, k); }
  }

  /** RECLAIMED is final over every run. */
  lemma {:induction false} ReclaimedForever(s: State, ks: seq<Step>, t: State)
    requires Inv(s) && Execution(s, ks, t)
    ensures Absorbing(s.db, t.db)
    decreases |ks|
  {
    if ks != [] {
      StepKeeps(s, ks[0]);
      InvProcs(s);
      StepTurns(s, ks[0]);
      ReclaimedForever(Next(s, ks[0]), ks[1..], t);
    }
  }

  /** No step of any run, recovery included, reclaims a pinned, protected, durable or critical
      object. */
  lemma ReclaimFair(s: State, k: Step, o: ObjectId)
    requires Reachable(s) && CanStep(s, k) && Turns(s.db, Next(s, k).db, o)
    ensures o in s.db.objects && Unguarded(s.db.objects[o]) && Expendable(s.db.objects[o])
  {
    ReachableInv(s);
    InvProcs(s);
    StepTurns(s, k);
  }

  /** A RECLAIMED object owns no rows and never was one that needs copies. */
  lemma ReclaimedOwnsNothing(s: State, o: ObjectId)
    requires Reachable(s) && o in s.db.objects && s.db.objects[o].state == Reclaimed
    ensures OwnsNothing(s.db, o) && Expendable(s.db.objects[o])
  {
    ReachableInv(s);
    forall r <- s.db.replicas ensures s.db.replicas[r].owner != o { assert ReplicaOk(s.db, s.phys, s.db.replicas[r]); }
    forall x <- s.db.archives ensures s.db.archives[x].owner != o { assert ArchiveOk(s.db, s.phys, s.db.archives[x]); }
  }

  // ------------------------------------------------------------------
  // Dependents
  // ------------------------------------------------------------------

  /** Direct-edge safety, checked at validation, still holds when the object turns RECLAIMED. */
  lemma DependentsSafeAtCommit(s: State, o: ObjectId)
    requires Reachable(s) && CanMarkGone(s, o)
    ensures DirectSafe(s.db.objects, s.edges, o)
    ensures DirectSafe(DoMarkGone(s, o).db.objects, s.edges, o)
  {
    ReachableInv(s);
    OwnProcOk(s, o);
    MarkGoneSafe(s, o);
  }

  // ------------------------------------------------------------------
  // Orphans
  // ------------------------------------------------------------------

  lemma MadeOrphans(s: State, o: ObjectId)
    requires Inv(s) && Live(s.mode) && IsCreate(s, o)
    ensures forall r <- s.procs[o].made :: r in s.db.replicas && s.db.replicas[r].owner !in s.db.objects
  {
    assert ProcOk(s, o);
  }

  /** A crash leaves an orphan row exactly when it cuts off a create that has made rows. */
  lemma OrphansAreCutCreates(s: State)
    requires Reachable(s) && Live(s.mode)
    ensures NoOrphans(s.db) <==> forall o <- s.procs :: s.procs[o].Create? ==> s.procs[o].made == {}
  {
    ReachableInv(s);
    if NoOrphans(s.db) {
      forall o <- s.procs ensures s.procs[o].Create? ==> s.procs[o].made == {} {
        if s.procs[o].Create? { MadeOrphans(s, o); }
      }
    } else {
      var r :| r in s.db.replicas && s.db.replicas[r].owner !in s.db.objects;
      assert ProcOk(s, s.db.replicas[r].owner);
    }
  }
}
