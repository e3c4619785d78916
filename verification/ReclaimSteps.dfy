/** Every step of `reclaim` keeps the invariant. */
module ReclaimSteps {
  import opened Fabric
  import opened Durable
  import opened RecoveryWrites
  import opened LifecycleTable
  import opened Protocol
  import opened Invariant
  import opened Locality
  import opened ControlSteps
  import opened CreateSteps

  // ------------------------------------------------------------------
  // Steps that write the object and the attempt's own records
  // ------------------------------------------------------------------

  ghost predicate SameExcept<V>(m: map<AttemptId, V>, n: map<AttemptId, V>, a: AttemptId) {
    forall b :: b != a ==> (b in m <==> b in n) && (b in m ==> n[b] == m[b])
  }

  /** Only the object, the attempt's journal, attempt and reservation rows, and archives of the
      object change; the process moves on or ends. */
  ghost predicate Records(s: State, t: State, o: ObjectId, a: AttemptId) {
    && s.mode.Running? && IsReclaim(s, o) && s.procs[o].attempt == a
    && t.mode == s.mode && t.activeRecovery == s.activeRecovery && t.edges == s.edges && t.phys == s.phys
    && t.db.replicas == s.db.replicas && t.db.dedup == s.db.dedup
    && o in t.db.objects && SameObjects(s.db.objects, t.db.objects, o)
    && a in t.db.journal && SameExcept(s.db.journal, t.db.journal, a)
    && a in t.db.attempts && SameExcept(s.db.attempts, t.db.attempts, a)
    && a in t.db.reservations && SameExcept(s.db.reservations, t.db.reservations, a)
    && t.db.journal[a].owner == o && (a in s.db.journal ==> s.db.journal[a].owner == o)
    && SameVaults(s.db.archives, t.db.archives, o)
    && (forall x <- t.db.archives :: x in s.db.archives && s.db.archives[x] == t.db.archives[x])
    && SameProcs(s.procs, t.procs, o)
    && Owed(s.procs[o]).None? && (o in t.procs ==> Owed(t.procs[o]).None?)
  }

  /** No excuse for a missing payload of `o` is lost. */
  ghost predicate KeepsExcuses(s: State, t: State, o: ObjectId, a: AttemptId) {
    || (forall place :: Excused(s.db.journal, o, place) ==> Excused(t.db.journal, o, place))
    || ((forall r <- t.db.replicas :: t.db.replicas[r].owner != o) && forall x <- t.db.archives :: t.db.archives[x].owner != o)
  }

  lemma RecordsLocal(s: State, t: State, o: ObjectId, a: AttemptId)
    requires Records(s, t, o, a)
    ensures Local(s, t, o) && SparesOthers(s, t, o)
  {
  }

  /** Finished attempts on the same object are not affected. */
  lemma OldAttempts(s: State, t: State, o: ObjectId, a: AttemptId, b: AttemptId)
    requires JournalsOk(s.db, s.phys) && Records(s, t, o, a)
    requires b in s.db.journal && b != a && s.db.journal[b].owner == o && !Unfinished(s.db.journal[b].phase)
    requires o in s.db.objects && t.db.objects[o].generation == s.db.objects[o].generation && Expendable(t.db.objects[o])
    ensures JournalOk(t.db, t.phys, b)
  {
    assert JournalOk(s.db, s.phys, b);
  }

  lemma RecordsDurable(s: State, t: State, o: ObjectId, a: AttemptId)
    requires JournalsOk(s.db, s.phys) && RowsOk(s.db, s.phys) && Records(s, t, o, a) && KeepsExcuses(s, t, o, a)
    requires o in s.db.objects && t.db.objects[o].generation == s.db.objects[o].generation && Expendable(t.db.objects[o])
    requires t.db.objects[o].state == Reclaimed ==>
               (forall r <- t.db.replicas :: t.db.replicas[r].owner != o) && forall x <- t.db.archives :: t.db.archives[x].owner != o
    requires forall b <- s.db.journal :: b != a && s.db.journal[b].owner == o ==> !Unfinished(s.db.journal[b].phase)
    requires JournalOk(t.db, t.phys, a)
    ensures OwnDurable(t.db, t.phys, o)
  {
    forall b <- t.db.journal ensures t.db.journal[b].owner == o ==> JournalOk(t.db, t.phys, b) {
      if b != a && t.db.journal[b].owner == o { OldAttempts(s, t, o, a, b); }
    }
    forall r <- t.db.replicas ensures t.db.replicas[r].owner == o ==> ReplicaOk(t.db, t.phys, t.db.replicas[r]) {
      assert ReplicaOk(s.db, s.phys, s.db.replicas[r]);
    }
    forall x <- t.db.archives ensures t.db.archives[x].owner == o ==> ArchiveOk(t.db, t.phys, t.db.archives[x]) {
      assert ArchiveOk(s.db, s.phys, s.db.archives[x]);
    }
  }

  lemma RecordsCross(s: State, t: State, o: ObjectId, a: AttemptId)
    requires CrossDurable(s.db, s.phys) && Records(s, t, o, a) && o in s.db.objects
    requires Expendable(t.db.objects[o])
    requires t.db.objects[o].reconstructible == s.db.objects[o].reconstructible
    requires s.db.objects[o].state == Reclaimed ==> t.db.objects[o].state == Reclaimed
    requires OneOpen(t.db.journal) && PlansPrivate(t.db.journal, t.db.replicas)
    ensures CrossDurable(t.db, t.phys) && SafetyKept(s.db.objects, t.db.objects)
  {
    RecordsKeys(s, t, o, a);
    assert ReclaimedExpendable(t.db.objects) by {
      forall q <- t.db.objects ensures t.db.objects[q].state == Reclaimed ==> Expendable(t.db.objects[q]) {
        if q != o { assert q in s.db.objects && t.db.objects[q] == s.db.objects[q]; }
      }
    }
  }

  lemma RecordsKeys(s: State, t: State, o: ObjectId, a: AttemptId)
    requires s.db.attempts.Keys == s.db.journal.Keys == s.db.reservations.Keys && Records(s, t, o, a)
    ensures t.db.attempts.Keys == t.db.journal.Keys == t.db.reservations.Keys
  {
    forall b ensures b in t.db.attempts <==> b in t.db.journal ensures b in t.db.reservations <==> b in t.db.journal {
      if b != a {
        assert b in s.db.attempts <==> b in s.db.journal;
        assert b in s.db.reservations <==> b in s.db.journal;
      }
    }
  }

  lemma RecordsCounts(s: State, t: State, o: ObjectId, a: AttemptId)
    requires LiveOk(s) && Records(s, t, o, a)
    ensures forall i <- s.procs[o].held :: CountOk(t.db.replicas, t.db.dedup, t.procs, i) && EntryOk(t.db.replicas, t.db.dedup, i)
  {
    forall i <- s.procs[o].held ensures CountOk(t.db.replicas, t.db.dedup, t.procs, i) && EntryOk(t.db.replicas, t.db.dedup, i) {
      CountsNow(s, o, i);
      forall q <- t.procs ensures Owed(t.procs[q]) != Some(i) {
        if q != o {
          assert q in s.procs && ProcOk(s, q);
          OwedHeld(s, q);
          assert s.procs[q].held !! s.procs[o].held;
        }
      }
    }
  }

  lemma RecordsOpen(s: State, t: State, o: ObjectId, a: AttemptId)
    requires OpenReserved(s) && GuardsOk(s) && Records(s, t, o, a)
    requires forall b <- s.db.journal :: b != a && s.db.journal[b].owner == o ==> !Unfinished(s.db.journal[b].phase)
    requires o in t.procs ==> t.procs[o].Reclaim? && t.procs[o].attempt == a
    requires IsPhysical(t.db.journal[a].phase) ==> o in t.procs && Identities(t.db.journal[a].deletions) <= t.procs[o].held
    requires Unfinished(t.db.journal[a].phase) ==> o in t.procs && t.db.reservations[a].owner == o
    ensures forall b <- t.db.journal :: t.db.journal[b].owner == o && IsPhysical(t.db.journal[b].phase) ==>
              RunsAttempt(t.procs, o, b) && Identities(t.db.journal[b].deletions) <= t.procs[o].held
    ensures forall b <- t.db.journal :: t.db.journal[b].owner == o && Unfinished(t.db.journal[b].phase) && b in t.db.reservations ==>
              && t.db.reservations[b].owner == o
              && (RunsAttempt(t.procs, o, b) || t.db.reservations[b].status == ReservationOpen)
  {
  }

  lemma RecordsLive(s: State, t: State, o: ObjectId, a: AttemptId)
    requires LiveOk(s) && Records(s, t, o, a)
    requires forall b <- s.db.journal :: b != a && s.db.journal[b].owner == o ==> !Unfinished(s.db.journal[b].phase)
    requires o in t.procs ==> ProcOk(t, o) && t.procs[o].Reclaim? && t.procs[o].attempt == a
    requires IsPhysical(t.db.journal[a].phase) ==> o in t.procs && Identities(t.db.journal[a].deletions) <= t.procs[o].held
    requires Unfinished(t.db.journal[a].phase) ==> o in t.procs && t.db.reservations[a].owner == o
    ensures OwnLive(s, t, o)
  {
    RecordsCounts(s, t, o, a);
    RecordsOpen(s, t, o, a);
  }

  /** A record-writing step keeps the invariant if its own journal row, process and plan do. */
  lemma RecordsKeeps(s: State, t: State, o: ObjectId, a: AttemptId)
    requires Inv(s) && Records(s, t, o, a) && KeepsExcuses(s, t, o, a) && GuardsOk(t)
    requires o in s.db.objects && t.db.objects[o].generation == s.db.objects[o].generation && Expendable(t.db.objects[o])
    requires t.db.objects[o].reconstructible == s.db.objects[o].reconstructible
    requires s.db.objects[o].state == Reclaimed ==> t.db.objects[o].state == Reclaimed
    requires t.db.objects[o].state == Reclaimed ==>
               (forall r <- t.db.replicas :: t.db.replicas[r].owner != o) && forall x <- t.db.archives :: t.db.archives[x].owner != o
    requires forall b <- s.db.journal :: b != a && s.db.journal[b].owner == o ==> !Unfinished(s.db.journal[b].phase)
    requires JournalOk(t.db, t.phys, a)
    requires OneOpen(t.db.journal) && PlansPrivate(t.db.journal, t.db.replicas)
    requires o in t.procs ==> ProcOk(t, o) && t.procs[o].Reclaim? && t.procs[o].attempt == a
    requires IsPhysical(t.db.journal[a].phase) ==> o in t.procs && Identities(t.db.journal[a].deletions) <= t.procs[o].held
    requires Unfinished(t.db.journal[a].phase) ==> o in t.procs && t.db.reservations[a].owner == o
    ensures Inv(t)
  {
    RecordsLocal(s, t, o, a);
    RecordsDurable(s, t, o, a);
    RecordsCross(s, t, o, a);
    RecordsLive(s, t, o, a);
    LocalKeeps(s, t, o);
  }

  lemma OwnProcOk(s: State, o: ObjectId)
    requires Inv(s) && Live(s.mode) && IsReclaim(s, o)
    ensures ReclaimOk(s, o, s.procs[o])
  {
    assert ProcOk(s, o);
  }

  /** While an attempt is open, every other attempt on its object is finished. */
  lemma OnlyOpen(s: State, o: ObjectId)
    requires OneOpen(s.db.journal) && Journaled(s, o)
    requires s.db.journal[s.procs[o].attempt].owner == o && Unfinished(s.db.journal[s.procs[o].attempt].phase)
    ensures forall b <- s.db.journal :: b != s.procs[o].attempt && s.db.journal[b].owner == o ==> !Unfinished(s.db.journal[b].phase)
  {
  }

  /** The attempt is open and nothing physical has happened. */
  ghost predicate BeforePhysical(s: State, o: ObjectId) {
    && s.mode.Running? && Journaled(s, o) && Owed(s.procs[o]).None?
    && var j := s.db.journal[s.procs[o].attempt];
    && j.owner == o && j.plan.None? && (j.phase == PhaseReserved || j.phase == PhaseValidated)
    && s.db.objects[o].state != Reclaimed
    && s.db.reservations[s.procs[o].attempt].owner == o
  }

  /** Moving the object through the lifecycle on the way to RECLAIM_PENDING, or back. */
  lemma ObjectStep(s: State, o: ObjectId, p: Proc, x: Lifecycle)
    requires Inv(s) && BeforePhysical(s, o) && x != Reclaimed
    requires p.held == s.procs[o].held && p.Reclaim? && p.attempt == s.procs[o].attempt && Owed(p).None?
    requires ReclaimOk(Move(s, o, p).(db := SetState(s.db, o, s.db.objects[o].(state := x))), o, p)
    ensures Inv(Move(s, o, p).(db := SetState(s.db, o, s.db.objects[o].(state := x))))
  {
    var t := Move(s, o, p).(db := SetState(s.db, o, s.db.objects[o].(state := x)));
    var a := s.procs[o].attempt;
    ObjectStepOwn(s, o, p, x);
    OnlyOpen(s, o);
    GuardsMove(s, t, o);
    RecordsKeeps(s, t, o, a);
  }

  lemma ObjectStepOwn(s: State, o: ObjectId, p: Proc, x: Lifecycle)
    requires JournalsOk(s.db, s.phys) && BeforePhysical(s, o) && x != Reclaimed
    requires p.held == s.procs[o].held && p.Reclaim? && p.attempt == s.procs[o].attempt && Owed(p).None?
    ensures var t := Move(s, o, p).(db := SetState(s.db, o, s.db.objects[o].(state := x)));
            && Records(s, t, o, s.procs[o].attempt) && KeepsExcuses(s, t, o, s.procs[o].attempt)
            && JournalOk(t.db, t.phys, s.procs[o].attempt)
            && Expendable(t.db.objects[o])
  {
    assert JournalOk(s.db, s.phys, s.procs[o].attempt);
  }

  lemma OnTheWay(s: State, o: ObjectId)
    requires s.mode.Running? && IsReclaim(s, o) && ReclaimOk(s, o, s.procs[o])
    requires s.procs[o].pc in {Reserved, Stepped, Pending, Validated, Cleared, Locked}
    ensures BeforePhysical(s, o)
  {
  }

  lemma StepRecomputableOwn(s: State, o: ObjectId)
    requires CanStepRecomputable(s, o) && ReclaimOk(s, o, s.procs[o])
    ensures var t := DoStepRecomputable(s, o);
            && ReclaimOk(t, o, t.procs[o])
            && t == Move(s, o, s.procs[o].(pc := Stepped)).(db := SetState(s.db, o, s.db.objects[o].(state := Recomputable)))
  {
  }

  lemma StepRecomputableKeeps(s: State, o: ObjectId)
    requires Inv(s) && CanStepRecomputable(s, o)
    ensures Inv(DoStepRecomputable(s, o))
  {
    OwnProcOk(s, o);
    OnTheWay(s, o);
    StepRecomputableOwn(s, o);
    ObjectStep(s, o, s.procs[o].(pc := Stepped), Recomputable);
  }

  lemma MarkPendingOwn(s: State, o: ObjectId)
    requires CanMarkPending(s, o) && ReclaimOk(s, o, s.procs[o])
    ensures var t := DoMarkPending(s, o);
            && ReclaimOk(t, o, t.procs[o])
            && t == Move(s, o, s.procs[o].(pc := Pending)).(db := SetState(s.db, o, s.db.objects[o].(state := ReclaimPending)))
  {
  }

  lemma MarkPendingKeeps(s: State, o: ObjectId)
    requires Inv(s) && CanMarkPending(s, o)
    ensures Inv(DoMarkPending(s, o))
  {
    OwnProcOk(s, o);
    OnTheWay(s, o);
    MarkPendingOwn(s, o);
    ObjectStep(s, o, s.procs[o].(pc := Pending), ReclaimPending);
  }

  // ------------------------------------------------------------------
  // Journal phases and statuses
  // ------------------------------------------------------------------

  /** Moving a journal row on without touching what it schedules. */
  lemma PhaseFrame(m: map<AttemptId, Journal>, replicas: map<ReplicaId, Replica>, a: AttemptId, phase: Phase, o: ObjectId)
    requires a in m && OneOpen(m) && PlansPrivate(m, replicas)
    requires Unfinished(phase) ==> Unfinished(m[a].phase)
    requires IsPhysical(phase) <==> IsPhysical(m[a].phase)
    ensures OneOpen(m[a := m[a].(phase := phase)]) && PlansPrivate(m[a := m[a].(phase := phase)], replicas)
    ensures forall place :: Excused(m, o, place) ==> Excused(m[a := m[a].(phase := phase)], o, place)
  {
    var n := m[a := m[a].(phase := phase)];
    assert Targets(n[a]) == Targets(m[a]);
    forall place | Excused(m, o, place) ensures Excused(n, o, place) {
      var b :| b in m && m[b].owner == o && IsPhysical(m[b].phase) && place in Targets(m[b]);
      assert b in n && n[b].owner == o && IsPhysical(n[b].phase) && place in Targets(n[b]);
    }
  }

  lemma ValidateRecords(s: State, o: ObjectId)
    requires CanValidate(s, o) && s.db.journal[s.procs[o].attempt].owner == o
    ensures Records(s, DoValidate(s, o), o, s.procs[o].attempt)
  {
  }

  lemma ValidateJournal(s: State, o: ObjectId)
    requires CanValidate(s, o) && JournalOk(s.db, s.phys, s.procs[o].attempt)
    ensures var t := DoValidate(s, o); JournalOk(t.db, t.phys, s.procs[o].attempt)
  {
  }

  lemma ValidateProc(s: State, o: ObjectId)
    requires CanValidate(s, o) && ReclaimOk(s, o, s.procs[o])
    ensures var t := DoValidate(s, o); ReclaimOk(t, o, t.procs[o])
  {
  }

  lemma ValidateKeeps(s: State, o: ObjectId)
    requires Inv(s) && CanValidate(s, o)
    ensures Inv(DoValidate(s, o))
  {
    var t := DoValidate(s, o);
    OwnProcOk(s, o);
    OnTheWay(s, o);
    assert JournalOk(s.db, s.phys, s.procs[o].attempt);
    ValidateRecords(s, o);
    ValidateJournal(s, o);
    ValidateProc(s, o);
    OnlyOpen(s, o);
    PhaseFrame(s.db.journal, s.db.replicas, s.procs[o].attempt, PhaseValidated, o);
    GuardsMove(s, t, o);
    RecordsKeeps(s, t, o, s.procs[o].attempt);
  }

  // ------------------------------------------------------------------
  // Abort
  // ------------------------------------------------------------------

  lemma AbortingWay(s: State, o: ObjectId)
    requires s.mode.Running? && IsReclaim(s, o) && ReclaimOk(s, o, s.procs[o]) && s.procs[o].pc.Aborting?
    ensures BeforePhysical(s, o) && s.db.journal[s.procs[o].attempt].phase == PhaseValidated
  {
  }

  lemma AbortObjectOwn(s: State, o: ObjectId)
    requires CanAbortWrite(s, o) && ReclaimOk(s, o, s.procs[o]) && s.procs[o].pc == Aborting(0)
    ensures var t := DoAbortWrite(s, o);
            && ReclaimOk(t, o, t.procs[o]) && s.procs[o].prior.state != Reclaimed
            && t == Move(s, o, s.procs[o].(pc := Aborting(1))).(db := SetState(s.db, o, s.db.objects[o].(state := s.procs[o].prior.state)))
  {
  }

  lemma AbortObjectKeeps(s: State, o: ObjectId)
    requires Inv(s) && CanAbortWrite(s, o) && s.procs[o].pc.written == 0
    ensures Inv(DoAbortWrite(s, o))
  {
    OwnProcOk(s, o);
    AbortingWay(s, o);
    AbortObjectOwn(s, o);
    ObjectStep(s, o, s.procs[o].(pc := Aborting(1)), s.procs[o].prior.state);
  }

  lemma AbortStatusRecords(s: State, o: ObjectId)
    requires CanAbortWrite(s, o) && 1 <= s.procs[o].pc.written <= 2 && s.db.journal[s.procs[o].attempt].owner == o
    ensures Records(s, DoAbortWrite(s, o), o, s.procs[o].attempt)
  {
    if s.procs[o].pc.written == 1 { ReleasesReservation(s, o); } else { RollsBackAttempt(s, o); }
  }

  lemma ReleasesReservation(s: State, o: ObjectId)
    requires CanAbortWrite(s, o) && s.procs[o].pc.written == 1 && s.db.journal[s.procs[o].attempt].owner == o
    ensures Records(s, DoAbortWrite(s, o), o, s.procs[o].attempt)
  {
  }

  lemma RollsBackAttempt(s: State, o: ObjectId)
    requires CanAbortWrite(s, o) && s.procs[o].pc.written == 2 && s.db.journal[s.procs[o].attempt].owner == o
    ensures Records(s, DoAbortWrite(s, o), o, s.procs[o].attempt)
  {
  }

  lemma AbortEndRecords(s: State, o: ObjectId)
    requires CanAbortWrite(s, o) && s.procs[o].pc.written == 3 && s.db.journal[s.procs[o].attempt].owner == o
    ensures Records(s, DoAbortWrite(s, o), o, s.procs[o].attempt)
  {
  }

  lemma AbortJournal(s: State, o: ObjectId)
    requires CanAbortWrite(s, o) && s.procs[o].pc.written > 0 && JournalOk(s.db, s.phys, s.procs[o].attempt)
    requires ReclaimOk(s, o, s.procs[o])
    ensures var t := DoAbortWrite(s, o); JournalOk(t.db, t.phys, s.procs[o].attempt)
  {
  }

  lemma AbortProc(s: State, o: ObjectId)
    requires CanAbortWrite(s, o) && 1 <= s.procs[o].pc.written <= 2
    requires ReclaimOk(s, o, s.procs[o])
    ensures var t := DoAbortWrite(s, o); ReclaimOk(t, o, t.procs[o]) && t.db.journal == s.db.journal
  {
  }

  /** The attempt's statuses move on and the operation goes on. */
  ghost predicate MarksUndone(s: State, t: State, o: ObjectId) {
    && BeforePhysical(s, o) && Records(s, t, o, s.procs[o].attempt)
    && o in t.procs && t.procs[o].Reclaim? && t.procs[o].attempt == s.procs[o].attempt && t.procs[o].held == s.procs[o].held
    && ReclaimOk(t, o, t.procs[o])
    && t.activeObjects == s.activeObjects && t.activePayloads == s.activePayloads
    && t.db.archives == s.db.archives && t.db.objects == s.db.objects && Expendable(s.db.objects[o])
    && t.db.journal == s.db.journal && JournalOk(t.db, t.phys, s.procs[o].attempt)
    && t.db.reservations[s.procs[o].attempt].owner == o
  }

  lemma MarksUndoneKeeps(s: State, t: State, o: ObjectId)
    requires Inv(s) && MarksUndone(s, t, o)
    ensures Inv(t)
  {
    OnlyOpen(s, o);
    GuardsMove(s, t, o);
    RecordsKeeps(s, t, o, s.procs[o].attempt);
  }

  lemma AbortStatusMoves(s: State, o: ObjectId)
    requires JournalsOk(s.db, s.phys) && CanAbortWrite(s, o) && 1 <= s.procs[o].pc.written <= 2 && ReclaimOk(s, o, s.procs[o])
    ensures MarksUndone(s, DoAbortWrite(s, o), o)
  {
    AbortingWay(s, o);
    assert JournalOk(s.db, s.phys, s.procs[o].attempt);
    AbortStatusRecords(s, o);
    AbortJournal(s, o);
    AbortProc(s, o);
  }

  lemma AbortStatusKeeps(s: State, o: ObjectId)
    requires Inv(s) && CanAbortWrite(s, o) && 1 <= s.procs[o].pc.written <= 2
    ensures Inv(DoAbortWrite(s, o))
  {
    OwnProcOk(s, o);
    AbortStatusMoves(s, o);
    MarksUndoneKeeps(s, DoAbortWrite(s, o), o);
  }

  /** The attempt's row is closed as rolled back and the operation ends. */
  ghost predicate ClosesUndone(s: State, t: State, o: ObjectId) {
    && BeforePhysical(s, o) && Records(s, t, o, s.procs[o].attempt)
    && t.procs == s.procs - {o}
    && t.activeObjects == s.activeObjects - {o} && t.activePayloads == s.activePayloads - s.procs[o].held
    && t.db.archives == s.db.archives && t.db.objects == s.db.objects && Expendable(s.db.objects[o])
    && t.db.journal == s.db.journal[s.procs[o].attempt := s.db.journal[s.procs[o].attempt].(phase := PhaseRolledBack)]
    && JournalOk(t.db, t.phys, s.procs[o].attempt)
  }

  lemma ClosesUndoneKeeps(s: State, t: State, o: ObjectId)
    requires Inv(s) && ClosesUndone(s, t, o)
    ensures Inv(t)
  {
    OnlyOpen(s, o);
    PhaseFrame(s.db.journal, s.db.replicas, s.procs[o].attempt, PhaseRolledBack, o);
    GuardsFinish(s, t, o);
    RecordsKeeps(s, t, o, s.procs[o].attempt);
  }

  lemma AbortEndMoves(s: State, o: ObjectId)
    requires JournalsOk(s.db, s.phys) && CanAbortWrite(s, o) && s.procs[o].pc.written == 3 && ReclaimOk(s, o, s.procs[o])
    ensures ClosesUndone(s, DoAbortWrite(s, o), o)
  {
    AbortingWay(s, o);
    assert JournalOk(s.db, s.phys, s.procs[o].attempt);
    AbortEndRecords(s, o);
    AbortJournal(s, o);
  }

  lemma AbortEndKeeps(s: State, o: ObjectId)
    requires Inv(s) && CanAbortWrite(s, o) && s.procs[o].pc.written == 3
    ensures Inv(DoAbortWrite(s, o))
  {
    OwnProcOk(s, o);
    AbortEndMoves(s, o);
    ClosesUndoneKeeps(s, DoAbortWrite(s, o), o);
  }

  lemma AbortWriteKeeps(s: State, o: ObjectId)
    requires Inv(s) && CanAbortWrite(s, o)
    ensures Inv(DoAbortWrite(s, o))
  {
    var n := s.procs[o].pc.written;
    if n == 0 { AbortObjectKeeps(s, o); }
    else if n <= 2 { AbortStatusKeeps(s, o); }
    else { AbortEndKeeps(s, o); }
  }

  // ------------------------------------------------------------------
  // Reserve
  // ------------------------------------------------------------------

  lemma ReserveRecords(s: State, o: ObjectId, expiresAt: int)
    requires CanReserve(s, o, expiresAt) && o in s.db.objects
    ensures Records(s, DoReserve(s, o, expiresAt), o, s.procs[o].attempt)
  {
  }

  /** The rows a reclaim read when it began, all of one generation. */
  lemma ReadRows(s: State, o: ObjectId, p: Proc)
    requires RowsOk(s.db, s.phys) && p.Reclaim? && PlannedOk(s.db, o, p)
    ensures Shaped(Entry(o, p, PhaseReserved, None))
    ensures Covers(s.db.replicas, s.db.archives, Entry(o, p, PhaseReserved, None))
    ensures Matches(s.db.replicas, s.db.archives, Entry(o, p, PhaseReserved, None))
    ensures Whole(s.db.replicas, s.db.archives, Entry(o, p, PhaseReserved, None))
  {
    forall r <- p.rows ensures p.rows[r].generation == p.prior.generation && p.rows[r].key.content == p.rows[r].content {
      assert ReplicaOk(s.db, s.phys, s.db.replicas[r]);
    }
    forall x <- p.vaults ensures p.vaults[x].generation == p.prior.generation { assert ArchiveOk(s.db, s.phys, s.db.archives[x]); }
  }

  lemma ReserveProc(s: State, o: ObjectId, expiresAt: int)
    requires CanReserve(s, o, expiresAt) && ReclaimOk(s, o, s.procs[o])
    ensures var t := DoReserve(s, o, expiresAt); ReclaimOk(t, o, t.procs[o])
  {
  }

  lemma ReserveJournal(s: State, o: ObjectId, expiresAt: int)
    requires CanReserve(s, o, expiresAt) && RowsOk(s.db, s.phys) && ReclaimOk(s, o, s.procs[o])
    ensures var t := DoReserve(s, o, expiresAt); JournalOk(t.db, t.phys, s.procs[o].attempt)
  {
    ReadRows(s, o, s.procs[o]);
  }

  lemma ReserveFrame(s: State, o: ObjectId, expiresAt: int)
    requires DurableOk(s.db, s.phys) && CanReserve(s, o, expiresAt) && ReclaimOk(s, o, s.procs[o])
    ensures var t := DoReserve(s, o, expiresAt);
            && OneOpen(t.db.journal) && PlansPrivate(t.db.journal, t.db.replicas)
            && KeepsExcuses(s, t, o, s.procs[o].attempt)
  {
    var t := DoReserve(s, o, expiresAt);
    var a := s.procs[o].attempt;
    forall b <- s.db.journal | Unfinished(s.db.journal[b].phase)
      ensures s.db.journal[b].owner != o
      ensures s.db.journal[b].deletions.Keys !! s.procs[o].rows.Keys && s.db.journal[b].archives.Keys !! s.procs[o].vaults.Keys
    {
      assert JournalOk(s.db, s.phys, b);
    }
    ReserveExcuses(s.db.journal, a, t.db.journal[a], o);
  }

  lemma ReserveExcuses(m: map<AttemptId, Journal>, a: AttemptId, j: Journal, o: ObjectId)
    requires a !in m
    ensures forall place :: Excused(m, o, place) ==> Excused(m[a := j], o, place)
  {
    forall place | Excused(m, o, place) ensures Excused(m[a := j], o, place) {
      var b :| b in m && m[b].owner == o && IsPhysical(m[b].phase) && place in Targets(m[b]);
      assert m[a := j][b] == m[b];
    }
  }

  lemma ReserveKeeps(s: State, o: ObjectId, expiresAt: int)
    requires Inv(s) && CanReserve(s, o, expiresAt)
    ensures Inv(DoReserve(s, o, expiresAt))
  {
    var t := DoReserve(s, o, expiresAt);
    OwnProcOk(s, o);
    ReserveRecords(s, o, expiresAt);
    ReserveJournal(s, o, expiresAt);
    ReserveProc(s, o, expiresAt);
    ReserveFrame(s, o, expiresAt);
    GuardsMove(s, t, o);
    RecordsKeeps(s, t, o, s.procs[o].attempt);
  }
}
