/** The committing half of `reclaim`: rows, references, archives, object and records are taken
    down one durable write at a time. */
module CommitSteps {
  import opened Fabric
  import opened Durable
  import opened RecoveryWrites
  import opened LifecycleTable
  import opened Protocol
  import opened Invariant
  import opened Locality
  import opened ControlSteps
  import opened CreateSteps
  import opened ReclaimSteps
  import opened PhysicalSteps

  /** The attempt of `o` has deleted everything it planned to. */
  ghost predicate Committing(s: State, o: ObjectId) {
    && s.mode.Running? && Journaled(s, o) && ReclaimOk(s, o, s.procs[o])
    && (s.procs[o].pc.Dropping? || s.procs[o].pc.Releasing? || s.procs[o].pc.Closing?)
  }

  /** A committing attempt would be committed by recovery too. */
  lemma CommittingDecided(s: State, o: ObjectId)
    requires Committing(s, o)
    ensures var j := s.db.journal[s.procs[o].attempt];
            && Decide(j, s.phys).Commit? && j.owner == o && j.phase == PhysicalDone
            && j.deletions == s.procs[o].rows && j.archives == s.procs[o].vaults
    ensures Identities(s.procs[o].rows) <= s.procs[o].held
  {
  }

  /** Rows, references or archives of the object go; nothing else. */
  ghost predicate TakesDown(s: State, t: State, o: ObjectId) {
    && s.mode.Running? && IsReclaim(s, o) && IsReclaim(t, o)
    && t == s.(db := s.db.(replicas := t.db.replicas, dedup := t.db.dedup, archives := t.db.archives), procs := t.procs)
    && t.procs[o].held == s.procs[o].held && t.procs[o].attempt == s.procs[o].attempt
    && SameProcs(s.procs, t.procs, o)
    && (forall r <- t.db.replicas :: r in s.db.replicas && s.db.replicas[r] == t.db.replicas[r])
    && (forall r <- s.db.replicas :: r !in t.db.replicas ==> s.db.replicas[r].owner == o && IdentityOf(s.db.replicas[r]) in s.procs[o].held)
    && (forall x <- t.db.archives :: x in s.db.archives && s.db.archives[x] == t.db.archives[x])
    && (forall x <- s.db.archives :: x !in t.db.archives ==> s.db.archives[x].owner == o)
    && SameDedup(s.db.dedup, t.db.dedup, s.procs[o].held)
  }

  lemma TakesDownLocal(s: State, t: State, o: ObjectId)
    requires TakesDown(s, t, o)
    ensures Local(s, t, o) && SafetyKept(s.db.objects, t.db.objects)
  {
  }

  lemma TakesDownOwn(s: State, t: State, o: ObjectId)
    requires PhysicalHeld(s.db.journal, s.procs) && OpenReserved(s) && GuardsOk(s) && TakesDown(s, t, o)
    requires ProcOk(t, o) && CountsOk(s, t, o) && o in s.db.objects
    requires Owed(t.procs[o]).Some? ==> Owed(t.procs[o]).value in s.procs[o].held
    ensures OwnLive(s, t, o)
  {
    assert !s.activeRecovery;
  }

  lemma TakesDownKeeps(s: State, t: State, o: ObjectId)
    requires Inv(s) && TakesDown(s, t, o) && DurableOk(t.db, t.phys) && o in s.db.objects
    requires ReclaimOk(t, o, t.procs[o]) && Accounts(t, o, s.procs[o].held)
    ensures Inv(t)
  {
    TakesDownLocal(s, t, o);
    GuardsMove(s, t, o);
    CountsFrom(s, t, o);
    OwedHeld(t, o);
    TakesDownOwn(s, t, o);
    LiveLocal(s, t, o);
  }

  // ------------------------------------------------------------------
  // Rows
  // ------------------------------------------------------------------

  lemma DropRowShape(s: State, o: ObjectId, r: ReplicaId)
    requires CanDropRow(s, o, r) && Identities(s.procs[o].rows) <= s.procs[o].held
    requires s.db.replicas[r] == s.procs[o].rows[r] && s.db.replicas[r].owner == o
    ensures TakesDown(s, DoDropRow(s, o, r), o)
  {
    assert IdentityOf(s.db.replicas[r]) in Identities(s.procs[o].rows);
  }

  lemma DropRowProc(s: State, o: ObjectId, r: ReplicaId)
    requires CanDropRow(s, o, r) && ReclaimOk(s, o, s.procs[o]) && s.db.replicas[r] == s.procs[o].rows[r]
    ensures var t := DoDropRow(s, o, r); ReclaimOk(t, o, t.procs[o])
  {
    assert IdentityOf(s.db.replicas[r]) in Identities(s.procs[o].rows);
  }

  lemma DropRowAccounts(s: State, o: ObjectId, r: ReplicaId)
    requires CanDropRow(s, o, r) && Accounts(s, o, s.procs[o].held)
    ensures Accounts(DoDropRow(s, o, r), o, s.procs[o].held)
  {
    var t := DoDropRow(s, o, r);
    forall i <- s.procs[o].held
      ensures Refs(t.db.dedup, i) == |RowSet(t.db.replicas, i)| + (if Owed(t.procs[o]) == Some(i) then 1 else 0)
      ensures EntryOk(t.db.replicas, t.db.dedup, i)
    {
      RowRemoved(s.db.replicas, r, i);
      assert EntryOk(s.db.replicas, s.db.dedup, i);
    }
  }

  lemma DropRowKeeps(s: State, o: ObjectId, r: ReplicaId)
    requires Inv(s) && CanDropRow(s, o, r) && Committing(s, o)
    ensures Inv(DoDropRow(s, o, r))
  {
    var a := s.procs[o].attempt;
    assert JournalOk(s.db, s.phys, a);
    CommittingDecided(s, o);
    AccountsNow(s, o);
    DropRowShape(s, o, r);
    DropRowProc(s, o, r);
    DropRowAccounts(s, o, r);
    DropReplicaKeeps(s.db, s.phys, a, r);
    TakesDownKeeps(s, DoDropRow(s, o, r), o);
  }

  // ------------------------------------------------------------------
  // References
  // ------------------------------------------------------------------

  lemma ReleaseRowShape(s: State, o: ObjectId)
    requires CanReleaseRow(s, o) && ReclaimOk(s, o, s.procs[o])
    ensures TakesDown(s, DoReleaseRow(s, o), o)
  {
  }

  lemma ReleaseRowProc(s: State, o: ObjectId)
    requires CanReleaseRow(s, o) && ReclaimOk(s, o, s.procs[o])
    ensures var t := DoReleaseRow(s, o); ReclaimOk(t, o, t.procs[o])
  {
  }

  lemma ReleaseRowAccounts(s: State, o: ObjectId)
    requires CanReleaseRow(s, o) && Accounts(s, o, s.procs[o].held)
    ensures Accounts(DoReleaseRow(s, o), o, s.procs[o].held)
  {
    var t := DoReleaseRow(s, o);
    forall i <- s.procs[o].held
      ensures Refs(t.db.dedup, i) == |RowSet(t.db.replicas, i)| + (if Owed(t.procs[o]) == Some(i) then 1 else 0)
      ensures EntryOk(t.db.replicas, t.db.dedup, i)
    {
      assert EntryOk(s.db.replicas, s.db.dedup, i);
    }
  }

  lemma ReleaseRowKeeps(s: State, o: ObjectId)
    requires Inv(s) && CanReleaseRow(s, o) && Committing(s, o)
    ensures Inv(DoReleaseRow(s, o))
  {
    var t := DoReleaseRow(s, o);
    AccountsNow(s, o);
    ReleaseRowShape(s, o);
    ReleaseRowProc(s, o);
    ReleaseRowAccounts(s, o);
    DedupKeeps(s.db, s.phys, t.db.dedup);
    TakesDownKeeps(s, t, o);
  }

  // ------------------------------------------------------------------
  // Archives
  // ------------------------------------------------------------------

  lemma DropVaultShape(s: State, o: ObjectId, x: ArchiveId)
    requires CanDropVault(s, o, x) && ReclaimOk(s, o, s.procs[o])
    requires x in s.db.archives ==> s.db.archives[x].owner == o
    ensures var t := DoDropVault(s, o, x); TakesDown(s, t, o) && ReclaimOk(t, o, t.procs[o])
  {
  }

  lemma DropVaultKeeps(s: State, o: ObjectId, x: ArchiveId)
    requires Inv(s) && CanDropVault(s, o, x) && Committing(s, o)
    ensures Inv(DoDropVault(s, o, x))
  {
    var a := s.procs[o].attempt;
    assert JournalOk(s.db, s.phys, a);
    CommittingDecided(s, o);
    AccountsNow(s, o);
    DropVaultShape(s, o, x);
    DropArchiveKeeps(s.db, s.phys, a, x);
    TakesDownKeeps(s, DoDropVault(s, o, x), o);
  }

  // ------------------------------------------------------------------
  // The object and the records
  // ------------------------------------------------------------------

  lemma MarkGoneRecords(s: State, o: ObjectId)
    requires CanMarkGone(s, o) && s.db.journal[s.procs[o].attempt].owner == o
    ensures var t := DoMarkGone(s, o); Records(s, t, o, s.procs[o].attempt) && KeepsExcuses(s, t, o, s.procs[o].attempt)
  {
  }

  lemma MarkGoneProc(s: State, o: ObjectId)
    requires CanMarkGone(s, o) && ReclaimOk(s, o, s.procs[o])
    requires DirectSafe(DoMarkGone(s, o).db.objects, s.edges, o)
    ensures var t := DoMarkGone(s, o); ReclaimOk(t, o, t.procs[o])
  {
  }

  lemma MarkGoneJournal(s: State, o: ObjectId)
    requires CanMarkGone(s, o) && ReclaimOk(s, o, s.procs[o]) && JournalOk(s.db, s.phys, s.procs[o].attempt)
    ensures var t := DoMarkGone(s, o); JournalOk(t.db, t.phys, s.procs[o].attempt)
  {
  }

  /** A committing attempt is the only open one, and once its rows are dropped the object owns
      nothing. */
  lemma CommittingAlone(s: State, o: ObjectId)
    requires DurableOk(s.db, s.phys) && Committing(s, o)
    requires s.procs[o].rows.Keys !! s.db.replicas.Keys && s.procs[o].vaults.Keys !! s.db.archives.Keys
    ensures OwnsNothing(s.db, o) && Alone(s.db, o, s.procs[o].attempt)
    ensures JournalOk(s.db, s.phys, s.procs[o].attempt)
  {
    assert JournalOk(s.db, s.phys, s.procs[o].attempt);
    CommittingDecided(s, o);
    CommittedOwnsNothing(s.db, s.phys, s.procs[o].attempt);
    OnlyOpen(s, o);
  }

  ghost predicate OwnsNothing(d: Db, o: ObjectId) {
    (forall r <- d.replicas :: d.replicas[r].owner != o) && forall x <- d.archives :: d.archives[x].owner != o
  }

  ghost predicate Alone(d: Db, o: ObjectId, a: AttemptId) {
    forall b <- d.journal :: b != a && d.journal[b].owner == o ==> !Unfinished(d.journal[b].phase)
  }

  /** Writing the records of an object that owns nothing any more. */
  lemma GoneKeeps(s: State, t: State, o: ObjectId, a: AttemptId)
    requires Inv(s) && Records(s, t, o, a) && GuardsOk(t) && t.db.archives == s.db.archives
    requires OwnsNothing(s.db, o) && Alone(s.db, o, a)
    requires o in s.db.objects && t.db.objects[o] == s.db.objects[o].(state := Reclaimed) && Expendable(s.db.objects[o])
    requires JournalOk(t.db, t.phys, a)
    requires OneOpen(t.db.journal) && PlansPrivate(t.db.journal, t.db.replicas)
    requires o in t.procs ==> t.procs[o].Reclaim? && t.procs[o].attempt == a && ReclaimOk(t, o, t.procs[o])
    requires Unfinished(t.db.journal[a].phase) ==>
               o in t.procs && t.db.reservations[a].owner == o && Identities(t.db.journal[a].deletions) <= t.procs[o].held
    ensures Inv(t)
  {
    RecordsKeeps(s, t, o, a);
  }

  /** The facts about the process that GoneKeeps asks for. */
  lemma GoneFacts(t: State, o: ObjectId)
    requires Committing(t, o)
    ensures t.db.reservations[t.procs[o].attempt].owner == o
    ensures Identities(t.db.journal[t.procs[o].attempt].deletions) <= t.procs[o].held
  {
  }

  lemma MarkGoneCommits(s: State, o: ObjectId)
    requires CanMarkGone(s, o) && Committing(s, o)
    requires ReclaimOk(DoMarkGone(s, o), o, DoMarkGone(s, o).procs[o])
    ensures var t := DoMarkGone(s, o);
            Committing(t, o) && t.db.objects[o] == s.db.objects[o].(state := Reclaimed) && Expendable(s.db.objects[o])
  {
  }

  lemma MarkGoneSafe(s: State, o: ObjectId)
    requires CanMarkGone(s, o) && Committing(s, o)
    ensures DirectSafe(DoMarkGone(s, o).db.objects, s.edges, o)
  {
    SafeFrame(s.db.objects, DoMarkGone(s, o).db.objects, s.edges, o);
  }

  /** An attempt whose object is, or has just been, marked RECLAIMED keeps committing. */
  ghost predicate GoneTo(s: State, t: State, o: ObjectId) {
    && Committing(s, o) && Committing(t, o) && Records(s, t, o, s.procs[o].attempt)
    && s.procs[o].rows.Keys !! s.db.replicas.Keys && s.procs[o].vaults.Keys !! s.db.archives.Keys
    && t.procs[o].attempt == s.procs[o].attempt && t.procs[o].held == s.procs[o].held
    && t.activeObjects == s.activeObjects && t.activePayloads == s.activePayloads
    && t.db.archives == s.db.archives && t.db.journal == s.db.journal
    && t.db.objects[o] == s.db.objects[o].(state := Reclaimed) && Expendable(s.db.objects[o])
    && JournalOk(t.db, t.phys, s.procs[o].attempt)
  }

  lemma GoneMoves(s: State, t: State, o: ObjectId)
    requires Inv(s) && GoneTo(s, t, o)
    ensures Inv(t)
  {
    CommittingAlone(s, o);
    GoneFacts(t, o);
    GuardsMove(s, t, o);
    GoneKeeps(s, t, o, s.procs[o].attempt);
  }

  lemma MarkGoneMoves(s: State, o: ObjectId)
    requires JournalsOk(s.db, s.phys) && CanMarkGone(s, o) && Committing(s, o)
    ensures GoneTo(s, DoMarkGone(s, o), o)
  {
    assert JournalOk(s.db, s.phys, s.procs[o].attempt);
    MarkGoneRecords(s, o);
    MarkGoneJournal(s, o);
    MarkGoneSafe(s, o);
    MarkGoneProc(s, o);
    MarkGoneCommits(s, o);
  }

  lemma MarkGoneKeeps(s: State, o: ObjectId)
    requires Inv(s) && CanMarkGone(s, o) && Committing(s, o)
    ensures Inv(DoMarkGone(s, o))
  {
    MarkGoneMoves(s, o);
    GoneMoves(s, DoMarkGone(s, o), o);
  }

  lemma CloseStatusRecords(s: State, o: ObjectId)
    requires CanCloseWrite(s, o) && s.procs[o].pc.closed <= 1 && s.db.journal[s.procs[o].attempt].owner == o
    ensures Records(s, DoCloseWrite(s, o), o, s.procs[o].attempt)
    ensures DoCloseWrite(s, o).db.journal == s.db.journal && DoCloseWrite(s, o).db.objects == s.db.objects
  {
    if s.procs[o].pc.closed == 0 { CommitsReservation(s, o); } else { CommitsAttempt(s, o); }
  }

  lemma CommitsReservation(s: State, o: ObjectId)
    requires CanCloseWrite(s, o) && s.procs[o].pc.closed == 0 && s.db.journal[s.procs[o].attempt].owner == o
    ensures Records(s, DoCloseWrite(s, o), o, s.procs[o].attempt)
  {
  }

  lemma CommitsAttempt(s: State, o: ObjectId)
    requires CanCloseWrite(s, o) && s.procs[o].pc.closed == 1 && s.db.journal[s.procs[o].attempt].owner == o
    ensures Records(s, DoCloseWrite(s, o), o, s.procs[o].attempt)
  {
  }

  lemma CloseStatusProc(s: State, o: ObjectId)
    requires CanCloseWrite(s, o) && s.procs[o].pc.closed <= 1 && ReclaimOk(s, o, s.procs[o])
    ensures var t := DoCloseWrite(s, o); ReclaimOk(t, o, t.procs[o])
  {
  }

  lemma CloseJournalRow(s: State, o: ObjectId)
    requires CanCloseWrite(s, o) && ReclaimOk(s, o, s.procs[o]) && JournalOk(s.db, s.phys, s.procs[o].attempt)
    ensures var t := DoCloseWrite(s, o); JournalOk(t.db, t.phys, s.procs[o].attempt)
  {
  }

  lemma CloseStatusCommits(s: State, o: ObjectId)
    requires CanCloseWrite(s, o) && s.procs[o].pc.closed <= 1 && Committing(s, o)
    requires ReclaimOk(DoCloseWrite(s, o), o, DoCloseWrite(s, o).procs[o])
    ensures Committing(DoCloseWrite(s, o), o)
  {
  }

  /** A closing process's object. */
  lemma ClosingObject(s: State, o: ObjectId)
    requires Committing(s, o) && s.procs[o].pc.Closing?
    ensures s.db.objects[o].state == Reclaimed && Expendable(s.db.objects[o])
    ensures s.procs[o].rows.Keys !! s.db.replicas.Keys && s.procs[o].vaults.Keys !! s.db.archives.Keys
    ensures s.db.journal[s.procs[o].attempt].owner == o
  {
  }

  lemma CloseStatusMoves(s: State, o: ObjectId)
    requires JournalsOk(s.db, s.phys) && CanCloseWrite(s, o) && s.procs[o].pc.closed <= 1 && Committing(s, o)
    ensures GoneTo(s, DoCloseWrite(s, o), o)
  {
    assert JournalOk(s.db, s.phys, s.procs[o].attempt);
    ClosingObject(s, o);
    CloseStatusRecords(s, o);
    CloseJournalRow(s, o);
    CloseStatusProc(s, o);
    CloseStatusCommits(s, o);
  }

  lemma CloseStatusKeeps(s: State, o: ObjectId)
    requires Inv(s) && CanCloseWrite(s, o) && s.procs[o].pc.closed <= 1 && Committing(s, o)
    ensures Inv(DoCloseWrite(s, o))
  {
    CloseStatusMoves(s, o);
    GoneMoves(s, DoCloseWrite(s, o), o);
  }

  lemma CloseEndRecords(s: State, o: ObjectId)
    requires CanCloseWrite(s, o) && s.procs[o].pc.closed == 2 && s.db.journal[s.procs[o].attempt].owner == o
    ensures Records(s, DoCloseWrite(s, o), o, s.procs[o].attempt)
  {
  }

  lemma CommitFrame(m: map<AttemptId, Journal>, replicas: map<ReplicaId, Replica>, a: AttemptId)
    requires a in m && OneOpen(m) && PlansPrivate(m, replicas)
    ensures OneOpen(m[a := m[a].(phase := PhaseCommitted)]) && PlansPrivate(m[a := m[a].(phase := PhaseCommitted)], replicas)
  {
  }

  ghost predicate GoneAtEnd(s: State, t: State, o: ObjectId) {
    && Committing(s, o) && s.procs[o].pc.Closing? && Records(s, t, o, s.procs[o].attempt)
    && t.procs == s.procs - {o}
    && t.activeObjects == s.activeObjects - {o} && t.activePayloads == s.activePayloads - s.procs[o].held
    && t.db.archives == s.db.archives && t.db.objects == s.db.objects
    && t.db.journal == s.db.journal[s.procs[o].attempt := s.db.journal[s.procs[o].attempt].(phase := PhaseCommitted)]
    && JournalOk(t.db, t.phys, s.procs[o].attempt)
  }

  lemma GoneEnds(s: State, t: State, o: ObjectId)
    requires Inv(s) && GoneAtEnd(s, t, o)
    ensures Inv(t)
  {
    ClosingObject(s, o);
    CommittingAlone(s, o);
    CommitFrame(s.db.journal, s.db.replicas, s.procs[o].attempt);
    GuardsFinish(s, t, o);
    GoneKeeps(s, t, o, s.procs[o].attempt);
  }

  lemma CloseEndMoves(s: State, o: ObjectId)
    requires JournalsOk(s.db, s.phys) && CanCloseWrite(s, o) && s.procs[o].pc.closed == 2 && Committing(s, o)
    ensures GoneAtEnd(s, DoCloseWrite(s, o), o)
  {
    assert JournalOk(s.db, s.phys, s.procs[o].attempt);
    ClosingObject(s, o);
    CloseEndRecords(s, o);
    CloseJournalRow(s, o);
  }

  lemma CloseEndKeeps(s: State, o: ObjectId)
    requires Inv(s) && CanCloseWrite(s, o) && s.procs[o].pc.closed == 2 && Committing(s, o)
    ensures Inv(DoCloseWrite(s, o))
  {
    CloseEndMoves(s, o);
    GoneEnds(s, DoCloseWrite(s, o), o);
  }

  lemma CloseWriteKeeps(s: State, o: ObjectId)
    requires Inv(s) && CanCloseWrite(s, o) && Committing(s, o)
    ensures Inv(DoCloseWrite(s, o))
  {
    if s.procs[o].pc.closed <= 1 { CloseStatusKeeps(s, o); } else { CloseEndKeeps(s, o); }
  }

  // ------------------------------------------------------------------
  // All of reclaim
  // ------------------------------------------------------------------

  lemma CommitKeeps(s: State, k: Step)
    requires Inv(s) && ReclaimEnabled(s, k) && (k.DropRow? || k.ReleaseRow? || k.DropVault? || k.MarkGone? || k.CloseWrite?)
    ensures Inv(ReclaimApply(s, k))
  {
    OwnProcOk(s, k.o);
    match k
    case DropRow(o, r) => DropRowKeeps(s, o, r);
    case ReleaseRow(o) => ReleaseRowKeeps(s, o);
    case DropVault(o, x) => DropVaultKeeps(s, o, x);
    case MarkGone(o) => MarkGoneKeeps(s, o);
    case CloseWrite(o) => CloseWriteKeeps(s, o);
  }

  lemma DeletingKeeps(s: State, o: ObjectId, l: Loc)
    requires Inv(s) && CanDeletePlace(s, o, l)
    ensures Inv(DoDeletePlace(s, o, l))
  {
    OwnProcOk(s, o);
    DeletePlaceKeeps(s, o, l);
  }

  lemma PreparingKeeps(s: State, k: Step)
    requires Inv(s) && ReclaimEnabled(s, k)
    requires k.BeginReclaim? || k.Reserve? || k.StepRecomputable? || k.MarkPending? || k.Validate? || k.Clear? || k.LockReclaim?
    ensures Inv(ReclaimApply(s, k))
  {
    match k
    case BeginReclaim(o, a) => BeginReclaimKeeps(s, o, a);
    case Reserve(o, expiresAt) => ReserveKeeps(s, o, expiresAt);
    case StepRecomputable(o) => StepRecomputableKeeps(s, o);
    case MarkPending(o) => MarkPendingKeeps(s, o);
    case Validate(o) => ValidateKeeps(s, o);
    case Clear(o) => ClearKeeps(s, o);
    case LockReclaim(o) => LockReclaimKeeps(s, o);
  }

  lemma ExecutingKeeps(s: State, k: Step)
    requires Inv(s) && ReclaimEnabled(s, k)
    requires k.BeginAbort? || k.AbortWrite? || k.EarlyExit? || k.StartPhysical? || k.DeletePlace? || k.PhysicalComplete?
    ensures Inv(ReclaimApply(s, k))
  {
    match k
    case BeginAbort(o) => BeginAbortKeeps(s, o);
    case AbortWrite(o) => AbortWriteKeeps(s, o);
    case EarlyExit(o) => EarlyExitKeeps(s, o);
    case StartPhysical(o, plan) => StartPhysicalKeeps(s, o, plan);
    case DeletePlace(o, l) => DeletingKeeps(s, o, l);
    case PhysicalComplete(o) => PhysicalCompleteKeeps(s, o);
  }

  /** Every step of a reclaim keeps the invariant. */
  lemma ReclaimKeeps(s: State, k: Step)
    requires Inv(s) && ReclaimEnabled(s, k)
    ensures Inv(ReclaimApply(s, k))
  {
    if k.DropRow? || k.ReleaseRow? || k.DropVault? || k.MarkGone? || k.CloseWrite? { CommitKeeps(s, k); }
    else if k.BeginAbort? || k.AbortWrite? || k.EarlyExit? || k.StartPhysical? || k.DeletePlace? || k.PhysicalComplete? { ExecutingKeeps(s, k); }
    else { PreparingKeeps(s, k); }
  }
}
