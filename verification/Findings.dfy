/** Where the code does not keep a promise, and exactly when it does. */
module Findings {
  import opened Fabric
  import opened Durable
  import opened RecoveryWrites
  import opened Restart
  import opened LifecycleTable
  import opened Protocol
  import opened Invariant
  import opened Locality
  import opened ControlSteps
  import opened CreateSteps
  import opened ReclaimSteps
  import opened PhysicalSteps
  import opened CommitSteps
  import opened OtherSteps
  import opened Safety

  // ------------------------------------------------------------------
  // A failing abort
  // ------------------------------------------------------------------

  /** `abort_reclaim` writes the object, the reservation, the attempt and the journal in that order
      and returns the first failure to its caller, which ends the operation without fencing.
      The invariant survives that exactly when the reservation had not been released yet. */
  lemma AbortFailure(s: State, o: ObjectId)
    requires Reachable(s) && CanAbortWrite(s, o)
    ensures Inv(Finish(s, o)) <==> s.procs[o].pc.written <= 1
  {
    ReachableInv(s);
    OwnProcOk(s, o);
    if s.procs[o].pc.written <= 1 {
      EarlyKeeps(s, o);
    } else {
      TornNotInv(s, o);
    }
  }

  lemma EarlyKeeps(s: State, o: ObjectId)
    requires Inv(s) && CanAbortWrite(s, o) && s.procs[o].pc.written <= 1
    ensures Inv(Finish(s, o))
  {
    assert s.procs[o].pc == Aborting(s.procs[o].pc.written);
    EarlyExitKeeps(s, o);
  }

  lemma TornNotInv(s: State, o: ObjectId)
    requires CanAbortWrite(s, o) && s.procs[o].pc.written >= 2 && ReclaimOk(s, o, s.procs[o])
    requires LiveOk(s)
    ensures !OpenReserved(Finish(s, o))
  {
    var a := s.procs[o].attempt;
    var t := Finish(s, o);
    assert a in t.db.journal && Unfinished(t.db.journal[a].phase) && a in t.db.reservations;
    assert !RunsAttempt(t.procs, o, a);
  }

  // ------------------------------------------------------------------
  // A failing online recovery
  // ------------------------------------------------------------------

  lemma EndsSafely(s: State)
    requires Reachable(s) && s.mode.Running? && s.activeRecovery
    ensures Inv(s.(activeRecovery := false)) <==> CanEndRecovery(s)
  {
    ReachableInv(s);
    if CanEndRecovery(s) {
      EndRecoveryKeeps(s);
    } else {
      RecoveryExcludes(s);
      ReleasedOpen(s);
    }
  }

  lemma ReleasedOpen(s: State)
    requires s.db.reservations.Keys == s.db.journal.Keys && s.mode.Running? && s.procs == map[] && s.activeRecovery && !CanEndRecovery(s)
    ensures !OpenReserved(s.(activeRecovery := false))
  {
  }

  /** What the writes made so far say of the rows that are still open. */
  ghost predicate Tracks(ws: seq<Write>, d: Db) {
    && (forall a <- d.journal :: Unfinished(d.journal[a].phase) ==>
          && a in d.reservations && CloseJournal(a) !in ws
          && (d.reservations[a].status == ReservationOpen <==> CloseReservation(a) !in ws))
    && (forall a :: CloseReservation(a) in ws ==> a in d.journal && (Unfinished(d.journal[a].phase) <==> CloseJournal(a) !in ws))
  }

  lemma TracksStep(ws: seq<Write>, d: Db, phys: Physical, w: Write)
    requires Tracks(ws, d) && Enabled(d, phys, w)
    ensures Tracks(ws + [w], Apply(d, phys, w))
  {
    assert forall v :: v in ws + [w] <==> v in ws || v == w;
  }

  lemma {:induction false} TracksRun(vs: seq<Write>, d: Db, phys: Physical, ws: seq<Write>, e: Db)
    requires Tracks(vs, d) && Run(d, phys, ws, e)
    ensures Tracks(vs + ws, e)
    decreases |ws|
  {
    if ws == [] {
      assert vs + ws == vs;
    } else {
      TracksStep(vs, d, phys, ws[0]);
      TracksRun(vs + [ws[0]], Apply(d, phys, ws[0]), phys, ws[1..], e);
      assert vs + [ws[0]] + ws[1..] == vs + ws;
    }
  }

  /** The coordinator after an online recovery from `s` has made the writes that lead to `e`. */
  function Recovered(s: State, e: Db): (t: State) {
    s.(activeRecovery := true, db := e)
  }

  lemma {:induction false} RecoveryReaches(s: State, ws: seq<Write>, e: Db)
    requires Reachable(s) && Recovering(s) && Run(s.db, s.phys, ws, e)
    ensures Reachable(s.(db := e))
    decreases |ws|
  {
    if ws == [] {
      assert s.(db := e) == s;
    } else {
      var t := DoRecovery(s, ws[0]);
      assert CanRecovery(s, ws[0]) && OtherEnabled(s, Recovery(ws[0]));
      ReachStep(s, Recovery(ws[0]));
      RecoveryReaches(t, ws[1..], e);
    }
  }

  lemma RecoveryBegins(s: State)
    requires Reachable(s) && CanBeginRecovery(s)
    ensures Reachable(s.(activeRecovery := true)) && Recovering(s.(activeRecovery := true))
    ensures Tracks([], s.db)
  {
    ReachableInv(s);
    assert OtherEnabled(s, BeginRecovery);
    ReachStep(s, BeginRecovery);
  }

  /** Online recovery reports a failing write and ends, and the coordinator goes on. Wherever it is cut
      off, the invariant survives exactly when no attempt is left between the write that closes its
      reservation and the one that closes its journal row. */
  lemma OnlineRecoveryEnd(s: State, ws: seq<Write>, e: Db)
    requires Reachable(s) && CanBeginRecovery(s) && Run(s.db, s.phys, ws, e)
    ensures Reachable(Recovered(s, e))
    ensures Inv(Recovered(s, e).(activeRecovery := false)) <==> forall a :: CloseReservation(a) in ws ==> CloseJournal(a) in ws
  {
    RecoveryBegins(s);
    RecoveryReaches(s.(activeRecovery := true), ws, e);
    TracksRun([], s.db, s.phys, ws, e);
    assert [] + ws == ws;
    EndsSafely(Recovered(s, e));
    TracksEnd(Recovered(s, e), ws);
  }

  lemma TracksEnd(t: State, ws: seq<Write>)
    requires Tracks(ws, t.db) && t.mode.Running? && t.activeRecovery
    ensures CanEndRecovery(t) <==> forall a :: CloseReservation(a) in ws ==> CloseJournal(a) in ws
  {
  }

  /** A create waiting to clean up after a failed publish gives up waiting: its operation ends with
      the rows it made still there. The invariant survives exactly when it made none. */
  lemma AbandonedCleanup(s: State, o: ObjectId)
    requires Reachable(s) && CreateAt(s, o) && s.procs[o].at.Rewaiting?
    ensures Inv(Finish(s, o)) <==> s.procs[o].made == {}
    ensures s.procs[o].made != {} ==> !NoOrphans(Finish(s, o).db)
  {
    ReachableInv(s);
    CleanupFacts(s, o);
    if s.procs[o].made == {} {
      CreateHasNoJournal(s, o);
      FinishKeeps(s, o);
    } else {
      var r :| r in s.procs[o].made;
      AbandonedRow(s, o, r);
    }
  }

  lemma CleanupFacts(s: State, o: ObjectId)
    requires Inv(s) && CreateAt(s, o) && s.procs[o].at.Rewaiting?
    ensures ProcOk(s, o) && Owed(s.procs[o]).None? && o !in s.db.objects
    ensures forall r <- s.procs[o].made :: r in s.db.replicas && s.db.replicas[r].owner == o
    ensures s.procs[o].made == {} ==> forall r <- s.db.replicas :: s.db.replicas[r].owner != o
  {
    assert ProcOk(s, o);
  }

  lemma AbandonedRow(s: State, o: ObjectId, r: ReplicaId)
    requires CreateAt(s, o) && r in s.db.replicas && s.db.replicas[r].owner == o && o !in s.db.objects
    ensures !OrphansMade(Finish(s, o)) && !NoOrphans(Finish(s, o).db)
  {
  }

  // A store with one expendable object that owns nothing.

  const Small: Object := Object(0, Deduped, Ephemeral, false, false, false, 0, 0, None)

  const Start: State := State(
    Db(map[0 := Small], map[], map[], map[], map[], map[], map[]),
    map[], map[], {}, {}, false, Running, {})

  const First: Journal := Journal(0, 0, PhaseValidated, Small, map[], None, map[])

  /** The abort of attempt 0 has put the object back and released the reservation. */
  const Torn: State := State(
    Db(map[0 := Small], map[], map[], map[],
       map[0 := First], map[0 := AttemptOpen], map[0 := Reservation(0, ReservationReleased, 0)]),
    map[], map[0 := Reclaim(0, Small, map[], map[], Aborting(2), {})], {0}, {}, false, Running, {})

  const TornRun: seq<Step> :=
    [BeginReclaim(0, 0), Reserve(0, 0), MarkPending(0), Validate(0), BeginAbort(0), AbortWrite(0), AbortWrite(0)]

  /** The state after `n` steps of TornRun. */
  function TornAt(n: nat): (s: State)
    requires n <= 7
  {
    var d := Start.db;
    var reserved := d.(journal := map[0 := First.(phase := PhaseReserved)], attempts := map[0 := AttemptOpen],
                       reservations := map[0 := Reservation(0, ReservationOpen, 0)]);
    var p := Reclaim(0, Small, map[], map[], Planned, {});
    var busy := Start.(activeObjects := {0});
    if n == 0 then Start
    else if n == 1 then busy.(procs := map[0 := p])
    else if n == 2 then busy.(procs := map[0 := p.(pc := Reserved)], db := reserved)
    else if n == 3 then busy.(procs := map[0 := p.(pc := Pending)], db := SetState(reserved, 0, Small.(state := ReclaimPending)))
    else
      var validated := reserved.(journal := map[0 := First]);
      if n == 4 then busy.(procs := map[0 := p.(pc := Validated)], db := SetState(validated, 0, Small.(state := ReclaimPending)))
      else if n == 5 then busy.(procs := map[0 := p.(pc := Aborting(0))], db := SetState(validated, 0, Small.(state := ReclaimPending)))
      else if n == 6 then busy.(procs := map[0 := p.(pc := Aborting(1))], db := validated)
      else Torn
  }

  lemma TornInit()
    ensures Init(Start)
  {
  }

  lemma TornBegins()
    ensures CanBeginReclaim(TornAt(0), 0, 0) && DoBeginReclaim(TornAt(0), 0, 0) == TornAt(1)
  {
    assert RowsOf(Start.db, 0) == map[] && VaultsOf(Start.db, 0) == map[];
  }

  lemma TornReserves()
    ensures CanReserve(TornAt(1), 0, 0) && DoReserve(TornAt(1), 0, 0) == TornAt(2)
  {
  }

  lemma TornMarks()
    ensures CanMarkPending(TornAt(2), 0) && DoMarkPending(TornAt(2), 0) == TornAt(3)
  {
  }

  lemma TornValidates()
    ensures CanValidate(TornAt(3), 0) && DoValidate(TornAt(3), 0) == TornAt(4)
  {
  }

  lemma TornAborts()
    ensures CanBeginAbort(TornAt(4), 0) && DoBeginAbort(TornAt(4), 0) == TornAt(5)
  {
  }

  lemma TornPutsBack()
    ensures CanAbortWrite(TornAt(5), 0) && DoAbortWrite(TornAt(5), 0) == TornAt(6)
  {
  }

  lemma TornReleases()
    ensures CanAbortWrite(TornAt(6), 0) && DoAbortWrite(TornAt(6), 0) == TornAt(7)
  {
  }

  lemma TornBefore(n: nat)
    requires n < 3
    ensures ReclaimEnabled(TornAt(n), TornRun[n]) && ReclaimApply(TornAt(n), TornRun[n]) == TornAt(n + 1)
  {
    if n == 0 { TornBegins(); } else if n == 1 { TornReserves(); } else { TornMarks(); }
  }

  lemma TornAfter(n: nat)
    requires 3 <= n < 7
    ensures ReclaimEnabled(TornAt(n), TornRun[n]) && ReclaimApply(TornAt(n), TornRun[n]) == TornAt(n + 1)
  {
    if n == 3 { TornValidates(); } else if n == 4 { TornAborts(); } else if n == 5 { TornPutsBack(); } else { TornReleases(); }
  }

  lemma TornStep(n: nat)
    requires n < 7
    ensures ReclaimEnabled(TornAt(n), TornRun[n]) && ReclaimApply(TornAt(n), TornRun[n]) == TornAt(n + 1)
  {
    if n < 3 { TornBefore(n); } else { TornAfter(n); }
  }

  lemma {:induction false} TornReaches(n: nat)
    requires n <= 7 && Reachable(Start)
    ensures Reachable(TornAt(n))
  {
    if n > 0 {
      TornReaches(n - 1);
      TornStep(n - 1);
      ReachStep(TornAt(n - 1), TornRun[n - 1]);
    }
  }

  lemma TornReachable()
    ensures Reachable(Torn)
  {
    TornInit();
    assert Execution(Start, [], Start);
    TornReaches(7);
  }

  const Again: State := Finish(Torn, 0)

  /** A reachable state in which the abort is about to record its attempt; if that write fails, a
      second reclaim of the object is admitted and leaves two open journals. */
  lemma TornAbortOpensTwo()
    ensures Reachable(Torn) && CanAbortWrite(Torn, 0) && Torn.procs[0].pc.written == 2
    ensures CanBeginReclaim(Again, 0, 1) && CanReserve(DoBeginReclaim(Again, 0, 1), 0, 0)
    ensures !OneOpen(DoReserve(DoBeginReclaim(Again, 0, 1), 0, 0).db.journal)
  {
    TornReachable();
    AgainUnreserved();
    SecondAdmitted(Again, 0, 0, 1, 0);
  }

  lemma AgainUnreserved()
    ensures Unreserved(Again, 0, 0, 1)
  {
    assert RowsOf(Again.db, 0) == map[] && VaultsOf(Again.db, 0) == map[];
  }

  /** Attempt `a` on `o` is open without a reservation, and `o` could be reclaimed. */
  ghost predicate Unreserved(u: State, o: ObjectId, a: AttemptId, b: AttemptId) {
    && CanBegin(u, o) && o in u.db.objects && Unguarded(u.db.objects[o]) && u.db.objects[o].state !in {Reclaimed, Failed}
    && Survivable(u.db, o, RowsOf(u.db, o), VaultsOf(u.db, o)) && RouteLegal(u.db.objects[o])
    && a in u.db.journal && u.db.journal[a].owner == o && Unfinished(u.db.journal[a].phase)
    && (forall c <- u.db.reservations :: u.db.reservations[c].owner == o ==> u.db.reservations[c].status != ReservationOpen)
    && b !in u.db.journal && b !in u.db.attempts && b !in u.db.reservations
  }

  /** An object whose open attempt has lost its reservation admits a second reclaim, and then has two
      open journal rows. */
  lemma SecondAdmitted(u: State, o: ObjectId, a: AttemptId, b: AttemptId, expiresAt: int)
    requires Unreserved(u, o, a, b)
    ensures CanBeginReclaim(u, o, b) && CanReserve(DoBeginReclaim(u, o, b), o, expiresAt)
    ensures !OneOpen(DoReserve(DoBeginReclaim(u, o, b), o, expiresAt).db.journal)
  {
    var n := DoReserve(DoBeginReclaim(u, o, b), o, expiresAt).db.journal;
    assert a in n && b in n && a != b && n[a].owner == n[b].owner;
  }

  // ------------------------------------------------------------------
  // The same after a failing online recovery
  // ------------------------------------------------------------------

  /** A reclaim of object 0 gave up early; its journal row is open and reserved. */
  const Left: State := Start.(db := Start.db.(
    objects := map[0 := Small.(state := ReclaimPending)],
    journal := map[0 := First.(phase := PhaseReserved)],
    attempts := map[0 := AttemptOpen],
    reservations := map[0 := Reservation(0, ReservationOpen, 0)]))

  const CutWrites: seq<Write> := [RestoreObject(0), CloseReservation(0)]

  const CutDb: Db := Left.db.(objects := map[0 := Small], reservations := map[0 := Reservation(0, ReservationReleased, 0)])

  /** The coordinator goes on after recovery failed to close the attempt. */
  const CutOff: State := Left.(db := CutDb)

  lemma LeftExits()
    ensures CanEarlyExit(TornAt(3), 0) && DoEarlyExit(TornAt(3), 0) == Left
  {
  }

  lemma LeftReachable()
    ensures Reachable(Left)
  {
    TornInit();
    assert Execution(Start, [], Start);
    TornReaches(3);
    LeftExits();
    assert ReclaimEnabled(TornAt(3), EarlyExit(0));
    ReachStep(TornAt(3), EarlyExit(0));
  }

  lemma CutRuns()
    ensures Run(Left.db, Left.phys, CutWrites, CutDb)
  {
    var d := Apply(Left.db, Left.phys, RestoreObject(0));
    assert Enabled(Left.db, Left.phys, RestoreObject(0)) && d == Left.db.(objects := map[0 := Small]);
    assert Enabled(d, Left.phys, CloseReservation(0)) && Apply(d, Left.phys, CloseReservation(0)) == CutDb;
    assert CutWrites[1..] == [CloseReservation(0)] && CutWrites[1..][1..] == [];
  }

  lemma CutUnreserved()
    ensures Unreserved(CutOff, 0, 0, 1)
  {
    assert RowsOf(CutOff.db, 0) == map[] && VaultsOf(CutOff.db, 0) == map[];
  }

  lemma LeftRecovers()
    ensures CanBeginRecovery(Left) && Recovered(Left, CutDb).(activeRecovery := false) == CutOff
    ensures CloseReservation(0) in CutWrites && CloseJournal(0) !in CutWrites
  {
    assert CutWrites[1] == CloseReservation(0);
  }

  lemma CutEnds()
    ensures Reachable(Recovered(Left, CutDb)) && !Inv(Recovered(Left, CutDb).(activeRecovery := false))
  {
    LeftReachable();
    CutRuns();
    LeftRecovers();
    OnlineRecoveryEnd(Left, CutWrites, CutDb);
  }

  lemma CutStuck()
    ensures !CanEndRecovery(Recovered(Left, CutDb))
  {
    assert 0 in CutDb.journal;
  }

  /** A reachable state in which online recovery is about to record an attempt; if that write fails, a
      second reclaim of the object is admitted and leaves two open journal rows. */
  lemma CutRecoveryOpensTwo()
    ensures Reachable(Recovered(Left, CutDb)) && Recovered(Left, CutDb).(activeRecovery := false) == CutOff
    ensures !CanEndRecovery(Recovered(Left, CutDb)) && !Inv(CutOff)
    ensures CanBeginReclaim(CutOff, 0, 1) && CanReserve(DoBeginReclaim(CutOff, 0, 1), 0, 0)
    ensures !OneOpen(DoReserve(DoBeginReclaim(CutOff, 0, 1), 0, 0).db.journal)
  {
    CutEnds();
    LeftRecovers();
    CutStuck();
    CutUnreserved();
    SecondAdmitted(CutOff, 0, 0, 1, 0);
  }

  // ------------------------------------------------------------------
  // An abandoned cleanup
  // ------------------------------------------------------------------

  const Nothing: State := Start.(db := Start.db.(objects := map[]))

  const Bytes: Content := Content(1, 1)

  const Fresh: Object := Object(0, Hot, Ephemeral, false, false, false, 1, 1, None)

  const Where: Key := Key(Bytes, 0)

  const MadeRow: Replica := Replica(0, 0, 0, Where, 1, Bytes, true)

  /** The create of object 0 after `n` of its steps. */
  function MadeAt(n: nat): (s: State)
    requires n <= 7
  {
    var i := Identity(Bytes, 0);
    var p := Create(Bytes, Fresh, {0}, {0}, {}, {}, Waiting, {});
    var busy := Nothing.(activeObjects := {0});
    var locked := busy.(activePayloads := {i});
    var put := locked.(phys := map[Payload(0, Where) := Bytes]);
    var counted := put.(db := put.db.(dedup := map[i := DedupEntry(Where, 1, 1)]));
    var rowed := counted.(db := counted.db.(replicas := map[0 := MadeRow]));
    if n == 0 then Nothing
    else if n == 1 then busy.(procs := map[0 := p])
    else if n == 2 then locked.(procs := map[0 := p.(at := Storing, held := {i})])
    else if n == 3 then put.(procs := map[0 := p.(at := Written(0, Where), todo := {}, held := {i})])
    else if n == 4 then counted.(procs := map[0 := p.(at := Counted(0, Where), todo := {}, held := {i})])
    else if n == 5 then rowed.(procs := map[0 := p.(at := Storing, todo := {}, made := {0}, held := {i})])
    else if n == 6 then rowed.(activePayloads := {}, procs := map[0 := p.(at := Stored, todo := {}, made := {0})])
    else rowed.(activePayloads := {}, procs := map[0 := p.(at := Rewaiting, todo := {}, made := {0})])
  }

  lemma MadeBegins()
    ensures CanBeginCreate(MadeAt(0), 0, Bytes, Fresh, {0}) && DoBeginCreate(MadeAt(0), 0, Bytes, Fresh, {0}) == MadeAt(1)
  {
  }

  lemma MadeLocks()
    ensures CanLockCreate(MadeAt(1), 0) && DoLockCreate(MadeAt(1), 0) == MadeAt(2)
  {
    assert CreateKeys(MadeAt(1).procs[0], map[]) == {Identity(Bytes, 0)};
  }

  lemma MadePuts()
    ensures CanPutPayload(MadeAt(2), 0, 0, 0) && DoPutPayload(MadeAt(2), 0, 0, 0) == MadeAt(3)
  {
    var zero: set<Backend> := {0};
    assert zero - {0} == {};
  }

  lemma MadeCounts()
    ensures CanInsertEntry(MadeAt(3), 0) && DoInsertEntry(MadeAt(3), 0) == MadeAt(4)
  {
  }

  lemma MadeRows()
    ensures CanAddRow(MadeAt(4), 0, 0) && DoAddRow(MadeAt(4), 0, 0) == MadeAt(5)
  {
    var none: set<ReplicaId> := {};
    assert none + {0} == {0};
  }

  lemma MadeUnlocks()
    ensures CanUnlockCreate(MadeAt(5), 0) && DoUnlockCreate(MadeAt(5), 0) == MadeAt(6)
  {
  }

  lemma MadeGivesUp()
    ensures CanGiveUp(MadeAt(6), 0) && DoGiveUp(MadeAt(6), 0) == MadeAt(7)
  {
  }

  lemma CreateReaches(s: State, k: Step)
    requires Reachable(s) && CreateEnabled(s, k)
    ensures Reachable(CreateApply(s, k))
  {
    ReachStep(s, k);
  }

  lemma MadeHalf()
    ensures Reachable(MadeAt(3))
  {
    assert Init(Nothing) && Execution(Nothing, [], Nothing);
    MadeBegins();
    CreateReaches(MadeAt(0), BeginCreate(0, Bytes, Fresh, {0}));
    MadeLocks();
    CreateReaches(MadeAt(1), LockCreate(0));
    MadePuts();
    CreateReaches(MadeAt(2), PutPayload(0, 0, 0));
  }

  lemma MadeCounted()
    requires Reachable(MadeAt(3))
    ensures Reachable(MadeAt(5))
  {
    MadeCounts();
    CreateReaches(MadeAt(3), InsertEntry(0));
    MadeRows();
    CreateReaches(MadeAt(4), AddRow(0, 0));
  }

  lemma MadeWaits()
    requires Reachable(MadeAt(5))
    ensures Reachable(MadeAt(7))
  {
    MadeUnlocks();
    CreateReaches(MadeAt(5), UnlockCreate(0));
    MadeGivesUp();
    CreateReaches(MadeAt(6), GiveUp(0));
  }

  lemma MadeWaiting()
    ensures CreateAt(MadeAt(7), 0) && MadeAt(7).procs[0].at.Rewaiting? && MadeAt(7).procs[0].made == {0}
  {
  }

  /** A reachable create that waits to clean up a row it made: if it gives up waiting, the row is an
      orphan. */
  lemma CleanupCanBeAbandoned()
    ensures Reachable(MadeAt(7)) && CreateAt(MadeAt(7), 0) && MadeAt(7).procs[0].at.Rewaiting? && MadeAt(7).procs[0].made == {0}
    ensures !Inv(Finish(MadeAt(7), 0)) && !NoOrphans(Finish(MadeAt(7), 0).db)
  {
    MadeHalf();
    MadeCounted();
    MadeWaits();
    MadeWaiting();
    AbandonedCleanup(MadeAt(7), 0);
  }

  // ------------------------------------------------------------------
  // What a reclaimed object still counts
  // ------------------------------------------------------------------

  /** A reclaim that commits in process leaves the sizes and the copy count of the object as they
      were, one that recovery finishes clears them: the two ends are the same object exactly when
      there was nothing to clear. */
  lemma CommitKeepsSizes(s: State, o: ObjectId, ws: seq<Write>, f: Db)
    requires Reachable(s) && CanMarkGone(s, o) && Run(s.db, s.phys, ws, f) && Complete(f, s.phys)
    ensures var prior := s.procs[o].prior; var t := DoMarkGone(s, o);
            && o in f.objects && o in t.db.objects
            && (t.db.objects[o] == f.objects[o] <==> prior.replicationCount == 0 && prior.physicalSize == 0 && prior.compressedSize.None?)
  {
    FateDecided(s, o);
    PendingObject(s, o);
    CrashAtomicity(s, s.procs[o].attempt, ws, f);
  }

  lemma PendingObject(s: State, o: ObjectId)
    requires Reachable(s) && CanMarkGone(s, o)
    ensures o in s.db.objects && s.db.objects[o] == s.procs[o].prior.(state := ReclaimPending)
    ensures s.procs[o].attempt in s.db.journal && s.db.journal[s.procs[o].attempt].owner == o
    ensures Unfinished(s.db.journal[s.procs[o].attempt].phase)
  {
    ReachableInv(s);
    OwnProcOk(s, o);
    PendingRecord(s, o);
  }

  lemma PendingRecord(s: State, o: ObjectId)
    requires CanMarkGone(s, o) && ReclaimOk(s, o, s.procs[o])
    ensures o in s.db.objects && s.db.objects[o] == s.procs[o].prior.(state := ReclaimPending)
    ensures s.procs[o].attempt in s.db.journal && s.db.journal[s.procs[o].attempt].owner == o
    ensures Unfinished(s.db.journal[s.procs[o].attempt].phase)
  {
  }

  // ------------------------------------------------------------------
  // A pin taken back
  // ------------------------------------------------------------------

  predicate SameFlags(o: Object, p: Object) {
    o.pinned == p.pinned && o.protected == p.protected
  }

  /** Undoing an attempt writes its journalled object back whole, unless the object is in its prior
      state already. It keeps the flags exactly then, or when they are the journalled ones. */
  lemma RestoreKeepsFlags(d: Db, phys: Physical, a: AttemptId)
    requires DurableOk(d, phys) && Enabled(d, phys, RestoreObject(a))
    ensures var j := d.journal[a]; var o := d.objects[j.owner];
            SameFlags(Apply(d, phys, RestoreObject(a)).objects[j.owner], o) <==> o.state == j.prior.state || SameFlags(j.prior, o)
  {
  }

  /** An open attempt on `o` that is undone and was journalled with other flags. */
  ghost predicate TakesBack(d: Db, phys: Physical, o: ObjectId, a: AttemptId)
    requires o in d.objects
  {
    && a in d.journal && d.journal[a].owner == o && Decide(d.journal[a], phys).RollBack?
    && d.objects[o].state != d.journal[a].prior.state && !SameFlags(d.journal[a].prior, d.objects[o])
  }

  lemma OutcomeKeepsFlags(d: Db, phys: Physical, f: Db, o: ObjectId)
    requires OneOpen(d.journal) && ObjectOutcome(d, phys, f) && o in d.objects
    ensures SameFlags(f.objects[o], d.objects[o]) <==> !exists a :: TakesBack(d, phys, o, a)
  {
    if a :| a in d.journal && Decided(d.journal[a], phys) && d.journal[a].owner == o {
      assert f.objects[o] == SettledObject(d.objects[o], d.journal[a], phys);
      assert forall b :: TakesBack(d, phys, o, b) ==> b == a;
      assert TakesBack(d, phys, o, a) || !TakesBack(d, phys, o, a);
    }
  }

  /** After any run and any recovery from it an object keeps its pin and its protection, unless, and
      only unless, an attempt that is undone had moved it on and was journalled with other ones. */
  lemma RecoveryKeepsFlags(s: State, ws: seq<Write>, f: Db, o: ObjectId)
    requires Reachable(s) && Run(s.db, s.phys, ws, f) && Complete(f, s.phys) && o in s.db.objects
    ensures o in f.objects
    ensures SameFlags(f.objects[o], s.db.objects[o]) <==> !exists a :: TakesBack(s.db, s.phys, o, a)
  {
    ReachableInv(s);
    RunReachesOutcome(s.db, s.phys, ws, f);
    OutcomeKeepsFlags(s.db, s.phys, f, o);
  }

  const Pinned: State := Left.(db := Left.db.(objects := map[0 := Small.(state := ReclaimPending, pinned := true)]))

  lemma PinSets()
    ensures CanSetFlags(Left, 0, true, false) && DoSetFlags(Left, 0, true, false) == Pinned
  {
  }

  lemma PinReachable()
    ensures Reachable(Pinned)
  {
    LeftReachable();
    PinSets();
    assert OtherEnabled(Left, SetFlags(0, true, false));
    ReachStep(Left, SetFlags(0, true, false));
  }

  lemma PinTakenBack()
    ensures TakesBack(Pinned.db, Pinned.phys, 0, 0)
  {
  }

  lemma PinOutcome(f: Db)
    requires ObjectOutcome(Pinned.db, Pinned.phys, f)
    ensures 0 in f.objects && f.objects[0] == Small
  {
    assert Decide(Pinned.db.journal[0], Pinned.phys).RollBack?;
  }

  /** A pin set after the reclaim failed is one that every complete recovery takes back. */
  lemma PinLost(ws: seq<Write>, f: Db)
    requires Run(Pinned.db, Pinned.phys, ws, f) && Complete(f, Pinned.phys)
    ensures Reachable(Pinned) && Pinned.db.objects[0].pinned && TakesBack(Pinned.db, Pinned.phys, 0, 0)
    ensures 0 in f.objects && !f.objects[0].pinned
  {
    PinReachable();
    PinTakenBack();
    ReachableInv(Pinned);
    RunReachesOutcome(Pinned.db, Pinned.phys, ws, f);
    PinOutcome(f);
  }
}
