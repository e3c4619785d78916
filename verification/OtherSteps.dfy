/** Flags, lineage edges, fencing, crashes and recovery keep the invariant; so does every run. */
module OtherSteps {
  import opened Fabric
  import opened Durable
  import opened RecoveryWrites
  import opened LifecycleTable
  import opened Protocol
  import opened Invariant
  import opened Locality
  import opened ControlSteps
  import opened CreateSteps
  import opened CommitSteps

  // ------------------------------------------------------------------
  // Pinning and protecting
  // ------------------------------------------------------------------

  function Flagged(s: State, o: ObjectId, pinned: bool, protected: bool): (t: State)
    requires o in s.db.objects
  {
    s.(db := SetState(s.db, o, s.db.objects[o].(pinned := pinned, protected := protected)))
  }

  /** Only attempts that can be undone are open on an object without a running operation. */
  lemma IdleUndone(s: State, o: ObjectId, a: AttemptId)
    requires PhysicalHeld(s.db.journal, s.procs) && o !in s.procs
    requires a in s.db.journal && s.db.journal[a].owner == o && JournalOk(s.db, s.phys, a)
    ensures !Decide(s.db.journal[a], s.phys).Commit?
  {
  }

  lemma FlagsJournal(s: State, o: ObjectId, pinned: bool, protected: bool, a: AttemptId)
    requires o in s.db.objects && a in s.db.journal && JournalOk(s.db, s.phys, a)
    requires s.db.journal[a].owner == o ==> !Decide(s.db.journal[a], s.phys).Commit?
    ensures JournalOk(Flagged(s, o, pinned, protected).db, s.phys, a)
  {
  }

  lemma FlagsDurable(s: State, o: ObjectId, pinned: bool, protected: bool)
    requires DurableOk(s.db, s.phys) && PhysicalHeld(s.db.journal, s.procs) && o in s.db.objects && o !in s.procs
    ensures DurableOk(Flagged(s, o, pinned, protected).db, s.phys)
  {
    var t := Flagged(s, o, pinned, protected);
    forall a <- t.db.journal ensures JournalOk(t.db, t.phys, a) {
      if s.db.journal[a].owner == o { IdleUndone(s, o, a); }
      FlagsJournal(s, o, pinned, protected, a);
    }
    RowsFrame(s.db, t.db, s.phys);
  }

  lemma FlagsProc(s: State, o: ObjectId, pinned: bool, protected: bool, q: ObjectId)
    requires o in s.db.objects && q in s.procs && q != o && ProcOk(s, q)
    ensures ProcOk(Flagged(s, o, pinned, protected), q)
  {
    var t := Flagged(s, o, pinned, protected);
    if DirectSafe(s.db.objects, s.edges, q) { SafeFrame(s.db.objects, t.db.objects, s.edges, q); }
    if s.procs[q].Reclaim? { FlagsReclaim(s, o, pinned, protected, q); }
  }

  lemma FlagsReclaim(s: State, o: ObjectId, pinned: bool, protected: bool, q: ObjectId)
    requires o in s.db.objects && q in s.procs && q != o && s.procs[q].Reclaim? && ReclaimOk(s, q, s.procs[q])
    requires DirectSafe(s.db.objects, s.edges, q) ==> DirectSafe(Flagged(s, o, pinned, protected).db.objects, s.edges, q)
    ensures ReclaimOk(Flagged(s, o, pinned, protected), q, s.procs[q])
  {
    var t := Flagged(s, o, pinned, protected);
    if s.procs[q].pc.Planned? {
      assert RowsOf(t.db, q) == RowsOf(s.db, q) && VaultsOf(t.db, q) == VaultsOf(s.db, q);
    }
  }

  lemma FlagsKeeps(s: State, o: ObjectId, pinned: bool, protected: bool)
    requires Inv(s) && Live(s.mode) && o in s.db.objects && o !in s.procs
    ensures Inv(Flagged(s, o, pinned, protected))
  {
    var t := Flagged(s, o, pinned, protected);
    FlagsDurable(s, o, pinned, protected);
    forall q <- t.procs ensures ProcOk(t, q) { FlagsProc(s, o, pinned, protected, q); }
  }

  // ------------------------------------------------------------------
  // Lineage edges
  // ------------------------------------------------------------------

  /** An edge whose parent is not being reclaimed changes no reclaim's verdict. */
  lemma EdgesKeeps(s: State, edges: set<Dependency>)
    requires Inv(s) && Live(s.mode)
    requires forall e <- edges :: e in s.edges || e.parent !in s.procs
    ensures Inv(s.(edges := edges))
  {
    var t := s.(edges := edges);
    forall q <- t.procs ensures ProcOk(t, q) { EdgesProc(s, edges, q); }
  }

  lemma EdgesProc(s: State, edges: set<Dependency>, q: ObjectId)
    requires q in s.procs && ProcOk(s, q)
    requires forall e <- edges :: e in s.edges || e.parent !in s.procs
    ensures ProcOk(s.(edges := edges), q)
  {
    assert DirectSafe(s.db.objects, s.edges, q) ==> DirectSafe(s.db.objects, edges, q);
  }

  // ------------------------------------------------------------------
  // Recovery
  // ------------------------------------------------------------------

  /** An exact dedup table accounts for every row. */
  lemma ExactAccounts(d: Db, phys: Physical, i: Identity)
    requires RowsOk(d, phys) && ExactFor(d.replicas, d.dedup, i)
    ensures CountOk(d.replicas, d.dedup, map[], i) && EntryOk(d.replicas, d.dedup, i)
  {
    if i in d.dedup {
      var r :| r in RowSet(d.replicas, i);
      assert ReplicaOk(d, phys, d.replicas[r]);
    }
  }

  /** A store at rest with everything settled may serve. */
  lemma QuietLive(s: State)
    requires DurableOk(s.db, s.phys) && QuietOk(s) && !s.activeRecovery
    requires forall a <- s.db.journal :: !Unfinished(s.db.journal[a].phase)
    requires NoOrphans(s.db) && Exact(s.db.replicas, s.db.dedup)
    ensures LiveOk(s)
  {
    forall i ensures CountOk(s.db.replicas, s.db.dedup, s.procs, i) && EntryOk(s.db.replicas, s.db.dedup, i) {
      assert ExactFor(s.db.replicas, s.db.dedup, i);
      ExactAccounts(s.db, s.phys, i);
    }
  }

  lemma InitInv(s: State)
    requires Init(s)
    ensures Inv(s)
  {
    QuietLive(s);
  }

  /** Online recovery runs alone, so it only ever undoes. */
  lemma OnlineUndoes(s: State, w: Write)
    requires DurableOk(s.db, s.phys) && LiveOk(s) && s.activeRecovery && Enabled(s.db, s.phys, w)
    ensures w.RestoreObject? || w.SyncDedup? || w.CloseReservation? || w.CloseAttempt? || w.CloseJournal?
  {
    if !w.SyncDedup? { assert JournalOk(s.db, s.phys, w.attempt); }
  }

  lemma OnlineDedup(s: State, w: Write)
    requires LiveOk(s) && s.activeRecovery && Enabled(s.db, s.phys, w)
    requires w.RestoreObject? || w.SyncDedup? || w.CloseReservation? || w.CloseAttempt? || w.CloseJournal?
    requires RowsOk(Apply(s.db, s.phys, w), s.phys)
    ensures DedupOk(s.(db := Apply(s.db, s.phys, w)))
  {
    var t := s.(db := Apply(s.db, s.phys, w));
    assert t.procs == map[] && t.db.replicas == s.db.replicas;
    forall i ensures CountOk(t.db.replicas, t.db.dedup, t.procs, i) && EntryOk(t.db.replicas, t.db.dedup, i) {
      assert CountOk(s.db.replicas, s.db.dedup, s.procs, i) && EntryOk(s.db.replicas, s.db.dedup, i);
      if w.SyncDedup? && i == w.identity { ExactAccounts(t.db, t.phys, i); }
    }
  }

  lemma OnlineRest(s: State, w: Write)
    requires LiveOk(s) && s.activeRecovery && Enabled(s.db, s.phys, w)
    requires w.RestoreObject? || w.SyncDedup? || w.CloseReservation? || w.CloseAttempt? || w.CloseJournal?
    ensures var t := s.(db := Apply(s.db, s.phys, w)); PhysicalHeld(t.db.journal, t.procs) && OpenReserved(t) && OrphansMade(t)
  {
  }

  lemma RecoveryKeeps(s: State, w: Write)
    requires Inv(s) && CanRecovery(s, w)
    ensures Inv(s.(db := Apply(s.db, s.phys, w)))
  {
    WriteKeeps(s.db, s.phys, w);
    if Live(s.mode) {
      OnlineUndoes(s, w);
      OnlineDedup(s, w);
      OnlineRest(s, w);
    }
  }

  lemma BeginRecoveryKeeps(s: State)
    requires Inv(s) && CanBeginRecovery(s)
    ensures Inv(s.(activeRecovery := true))
  {
    assert s.procs == map[];
  }

  lemma EndRecoveryKeeps(s: State)
    requires Inv(s) && CanEndRecovery(s)
    ensures Inv(s.(activeRecovery := false))
  {
  }

  lemma FenceKeeps(s: State)
    requires Inv(s) && s.mode.Running?
    ensures Inv(s.(mode := Fenced))
  {
    var t := s.(mode := Fenced);
    forall q <- t.procs ensures ProcOk(t, q) { assert ProcOk(s, q); }
  }

  lemma StartRunningKeeps(s: State)
    requires Inv(s) && CanStartRunning(s)
    ensures Inv(s.(mode := Running, activeRecovery := false))
  {
    QuietLive(s.(mode := Running, activeRecovery := false));
  }

  lemma ServingKeeps(s: State, k: Step)
    requires Inv(s) && OtherEnabled(s, k) && (k.SetFlags? || k.AddEdge? || k.RemoveEdge? || k.Fence?)
    ensures Inv(OtherApply(s, k))
  {
    match k
    case SetFlags(o, pinned, protected) => FlagsKeeps(s, o, pinned, protected);
    case AddEdge(e) => EdgesKeeps(s, s.edges + {e});
    case RemoveEdge(e) => EdgesKeeps(s, s.edges - {e});
    case Fence => FenceKeeps(s);
  }

  lemma CrashKeeps(s: State)
    requires Inv(s)
    ensures Inv(DoCrash(s))
  {
  }

  lemma BeginStartKeeps(s: State)
    requires Inv(s) && CanBeginStart(s)
    ensures Inv(DoBeginStart(s))
  {
  }

  lemma RestartKeeps(s: State, k: Step)
    requires Inv(s) && OtherEnabled(s, k) && (k.Crash? || k.BeginStart? || k.StartRunning?)
    ensures Inv(OtherApply(s, k))
  {
    match k
    case Crash => CrashKeeps(s);
    case BeginStart => BeginStartKeeps(s);
    case StartRunning => StartRunningKeeps(s);
  }

  lemma RecoveringKeeps(s: State, k: Step)
    requires Inv(s) && OtherEnabled(s, k) && (k.BeginRecovery? || k.Recovery? || k.EndRecovery?)
    ensures Inv(OtherApply(s, k))
  {
    match k
    case BeginRecovery => BeginRecoveryKeeps(s);
    case Recovery(w) => RecoveryKeeps(s, w);
    case EndRecovery => EndRecoveryKeeps(s);
  }

  lemma OtherKeeps(s: State, k: Step)
    requires Inv(s) && OtherEnabled(s, k)
    ensures Inv(OtherApply(s, k))
  {
    if k.BeginRecovery? || k.Recovery? || k.EndRecovery? { RecoveringKeeps(s, k); }
    else if k.Crash? || k.BeginStart? || k.StartRunning? { RestartKeeps(s, k); }
    else { ServingKeeps(s, k); }
  }

  /** Every step of the coordinator, from any state of the invariant, ends in it. */
  lemma StepKeeps(s: State, k: Step)
    requires Inv(s) && CanStep(s, k)
    ensures Inv(Next(s, k))
  {
    if CreateEnabled(s, k) { CreateKeeps(s, k); }
    else if ReclaimEnabled(s, k) { ReclaimKeeps(s, k); }
    else { OtherKeeps(s, k); }
  }
}
