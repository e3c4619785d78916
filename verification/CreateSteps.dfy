/** Every step of `create_object`, compensation included, keeps the invariant. */
module CreateSteps {
  import opened Fabric
  import opened Durable
  import opened RecoveryWrites
  import opened LifecycleTable
  import opened Protocol
  import opened Invariant
  import opened Locality
  import opened ControlSteps

  /** The step of a create that works on payloads, rows and counts under its guards. */
  ghost predicate CreateWorks(s: State, t: State, o: ObjectId) {
    && Live(s.mode) && IsCreate(s, o) && IsCreate(t, o)
    && t == s.(db := s.db.(replicas := t.db.replicas, dedup := t.db.dedup), phys := t.phys, procs := t.procs)
    && t.procs[o].held == s.procs[o].held
    && SameProcs(s.procs, t.procs, o)
    && SameRows(s.db.replicas, t.db.replicas, o)
    && SameDedup(s.db.dedup, t.db.dedup, s.procs[o].held)
    && SamePhys(s.phys, t.phys, o, s.procs[o].held)
    && RowsUnderGuard(s.db, t.db, o, s.procs[o].held)
  }

  ghost predicate OwnRowsOk(t: State, o: ObjectId) {
    forall r <- t.db.replicas :: t.db.replicas[r].owner == o ==> ReplicaOk(t.db, t.phys, t.db.replicas[r])
  }

  ghost predicate CountsOk(s: State, t: State, o: ObjectId)
    requires o in s.procs
  {
    forall i <- s.procs[o].held :: CountOk(t.db.replicas, t.db.dedup, t.procs, i) && EntryOk(t.db.replicas, t.db.dedup, i)
  }

  lemma CreateWorkKeeps(s: State, t: State, o: ObjectId)
    requires Inv(s) && CreateWorks(s, t, o)
    requires SparesOthers(s, t, o) && OwnRowsOk(t, o)
    requires KeysAgree(t.db.replicas) && PlansPrivate(t.db.journal, t.db.replicas) && Faithful(t.phys)
    requires CreateOk(t, o, t.procs[o]) && CountsOk(s, t, o)
    ensures Inv(t)
  {
    assert ProcOk(s, o);
    CreateHasNoJournal(s, o);
    GuardsMove(s, t, o);
    OwedHeld(t, o);
    CreateOwn(s, t, o);
    LocalKeeps(s, t, o);
  }

  lemma CreateOwn(s: State, t: State, o: ObjectId)
    requires DurableOk(s.db, s.phys) && CreateWorks(s, t, o) && OwnRowsOk(t, o)
    requires KeysAgree(t.db.replicas) && PlansPrivate(t.db.journal, t.db.replicas) && Faithful(t.phys)
    requires forall a <- s.db.journal :: s.db.journal[a].owner != o
    requires forall x <- s.db.archives :: s.db.archives[x].owner != o
    requires ProcOk(t, o) && CountsOk(s, t, o)
    requires Owed(t.procs[o]).Some? ==> Owed(t.procs[o]).value in s.procs[o].held
    ensures Local(s, t, o) && OwnDurable(t.db, t.phys, o) && CrossDurable(t.db, t.phys) && OwnLive(s, t, o)
    ensures SafetyKept(s.db.objects, t.db.objects)
  {
  }

  /** A payload locked by `o` is owed by nobody else. */
  lemma OwedMine(s: State, t: State, o: ObjectId, i: Identity)
    requires GuardsOk(s) && (forall q <- s.procs :: ProcOk(s, q)) && SameProcs(s.procs, t.procs, o)
    requires o in s.procs && o in t.procs && i in s.procs[o].held
    ensures OwedBySome(t.procs, i) <==> Owed(t.procs[o]) == Some(i)
  {
    forall q | q in t.procs && q != o ensures Owed(t.procs[q]) != Some(i) {
      assert ProcOk(s, q);
      OwedHeld(s, q);
      assert s.procs[q].held !! s.procs[o].held;
    }
  }

  /** The accounts of the locked payloads, given what each table now says of them. */
  lemma CountsFrom(s: State, t: State, o: ObjectId)
    requires GuardsOk(s) && (forall q <- s.procs :: ProcOk(s, q)) && SameProcs(s.procs, t.procs, o)
    requires o in s.procs && o in t.procs
    requires forall i <- s.procs[o].held ::
               Refs(t.db.dedup, i) == |RowSet(t.db.replicas, i)| + (if Owed(t.procs[o]) == Some(i) then 1 else 0)
    requires forall i <- s.procs[o].held :: EntryOk(t.db.replicas, t.db.dedup, i)
    ensures CountsOk(s, t, o)
  {
    forall i <- s.procs[o].held ensures CountOk(t.db.replicas, t.db.dedup, t.procs, i) { OwedMine(s, t, o, i); }
  }

  lemma CountsNow(s: State, o: ObjectId, i: Identity)
    requires LiveOk(s) && o in s.procs && i in s.procs[o].held
    ensures Refs(s.db.dedup, i) == |RowSet(s.db.replicas, i)| + (if Owed(s.procs[o]) == Some(i) then 1 else 0)
    ensures EntryOk(s.db.replicas, s.db.dedup, i)
  {
    OwedMine(s, s, o, i);
    assert CountOk(s.db.replicas, s.db.dedup, s.procs, i);
  }

  /** More bytes and the same rows: the rows are still good. */
  lemma OwnRowsKeep(s: State, t: State, o: ObjectId)
    requires RowsOk(s.db, s.phys) && s.phys.Keys <= t.phys.Keys
    requires t.db.journal == s.db.journal && t.db.objects == s.db.objects
    requires forall r <- t.db.replicas :: t.db.replicas[r].owner == o ==> r in s.db.replicas && s.db.replicas[r] == t.db.replicas[r]
    ensures OwnRowsOk(t, o)
  {
    forall r <- t.db.replicas ensures t.db.replicas[r].owner == o ==> ReplicaOk(t.db, t.phys, t.db.replicas[r]) {
      if t.db.replicas[r].owner == o { assert ReplicaOk(s.db, s.phys, s.db.replicas[r]); }
    }
  }

  /** What the accounts of the payloads locked by `o` say after the step. */
  ghost predicate Accounts(t: State, o: ObjectId, held: set<Identity>)
    requires o in t.procs
  {
    && (forall i <- held :: Refs(t.db.dedup, i) == |RowSet(t.db.replicas, i)| + (if Owed(t.procs[o]) == Some(i) then 1 else 0))
    && (forall i <- held :: EntryOk(t.db.replicas, t.db.dedup, i))
  }

  lemma AccountsNow(s: State, o: ObjectId)
    requires LiveOk(s) && o in s.procs
    ensures Accounts(s, o, s.procs[o].held)
  {
    forall i <- s.procs[o].held
      ensures Refs(s.db.dedup, i) == |RowSet(s.db.replicas, i)| + (if Owed(s.procs[o]) == Some(i) then 1 else 0)
      ensures EntryOk(s.db.replicas, s.db.dedup, i)
    {
      CountsNow(s, o, i);
    }
  }

  /** A create step, from its effect on its own process and accounts. */
  lemma CreateStepKeeps(s: State, t: State, o: ObjectId)
    requires Inv(s) && CreateWorks(s, t, o)
    requires SparesOthers(s, t, o) && OwnRowsOk(t, o)
    requires KeysAgree(t.db.replicas) && PlansPrivate(t.db.journal, t.db.replicas) && Faithful(t.phys)
    requires CreateOk(t, o, t.procs[o]) && Accounts(t, o, s.procs[o].held)
    ensures Inv(t)
  {
    CountsFrom(s, t, o);
    CreateWorkKeeps(s, t, o);
  }

  // ------------------------------------------------------------------
  // Counting an existing payload
  // ------------------------------------------------------------------

  lemma CountExistingOwn(s: State, o: ObjectId, b: Backend)
    requires CanCountExisting(s, o, b) && CreateOk(s, o, s.procs[o])
    ensures var t := DoCountExisting(s, o, b);
            CreateWorks(s, t, o) && CreateOk(t, o, t.procs[o])
  {
    assert Identity(s.procs[o].content, b) in CreateKeys(s.procs[o], s.db.replicas);
  }

  lemma CountExistingAccounts(s: State, o: ObjectId, b: Backend)
    requires CanCountExisting(s, o, b) && CreateOk(s, o, s.procs[o]) && Accounts(s, o, s.procs[o].held)
    ensures Accounts(DoCountExisting(s, o, b), o, s.procs[o].held)
  {
    assert Identity(s.procs[o].content, b) in CreateKeys(s.procs[o], s.db.replicas);
  }

  lemma CountExistingKeeps(s: State, o: ObjectId, b: Backend)
    requires Inv(s) && CanCountExisting(s, o, b)
    ensures Inv(DoCountExisting(s, o, b))
  {
    var t := DoCountExisting(s, o, b);
    assert ProcOk(s, o);
    AccountsNow(s, o);
    CountExistingOwn(s, o, b);
    CountExistingAccounts(s, o, b);
    OwnRowsKeep(s, t, o);
    CreateStepKeeps(s, t, o);
  }

  // ------------------------------------------------------------------
  // Writing and recording a new payload
  // ------------------------------------------------------------------

  lemma PutPayloadOwn(s: State, o: ObjectId, b: Backend, suffix: nat)
    requires CanPutPayload(s, o, b, suffix) && CreateOk(s, o, s.procs[o]) && Accounts(s, o, s.procs[o].held)
    ensures var t := DoPutPayload(s, o, b, suffix);
            CreateWorks(s, t, o) && CreateOk(t, o, t.procs[o]) && Accounts(t, o, s.procs[o].held)
  {
    assert Identity(s.procs[o].content, b) in CreateKeys(s.procs[o], s.db.replicas);
  }

  lemma PutPayloadKeeps(s: State, o: ObjectId, b: Backend, suffix: nat)
    requires Inv(s) && CanPutPayload(s, o, b, suffix)
    ensures Inv(DoPutPayload(s, o, b, suffix))
  {
    var t := DoPutPayload(s, o, b, suffix);
    assert ProcOk(s, o);
    AccountsNow(s, o);
    PutPayloadOwn(s, o, b, suffix);
    OwnRowsKeep(s, t, o);
    CreateStepKeeps(s, t, o);
  }

  lemma InsertEntryOwn(s: State, o: ObjectId)
    requires CanInsertEntry(s, o) && CreateOk(s, o, s.procs[o])
    ensures var t := DoInsertEntry(s, o);
            CreateWorks(s, t, o) && CreateOk(t, o, t.procs[o])
  {
    
  }

  lemma InsertEntryAccounts(s: State, o: ObjectId)
    requires CanInsertEntry(s, o) && CreateOk(s, o, s.procs[o]) && Accounts(s, o, s.procs[o].held)
    ensures Accounts(DoInsertEntry(s, o), o, s.procs[o].held)
  {
    assert RowSet(s.db.replicas, Identity(s.procs[o].content, s.procs[o].at.backend)) == {};
  }

  lemma InsertEntryKeeps(s: State, o: ObjectId)
    requires Inv(s) && CanInsertEntry(s, o)
    ensures Inv(DoInsertEntry(s, o))
  {
    var t := DoInsertEntry(s, o);
    assert ProcOk(s, o);
    AccountsNow(s, o);
    InsertEntryOwn(s, o);
    InsertEntryAccounts(s, o);
    OwnRowsKeep(s, t, o);
    CreateStepKeeps(s, t, o);
  }

  // ------------------------------------------------------------------
  // Adding the row
  // ------------------------------------------------------------------

  lemma RowAdded(m: map<ReplicaId, Replica>, r: ReplicaId, row: Replica, i: Identity)
    requires r !in m
    ensures |RowSet(m[r := row], i)| == |RowSet(m, i)| + (if IdentityOf(row) == i then 1 else 0)
    ensures RowSet(m[r := row], i) == RowSet(m, i) + (if IdentityOf(row) == i then {r} else {})
  {
    assert RowSet(m[r := row], i) == RowSet(m, i) + (if IdentityOf(row) == i then {r} else {});
    assert r !in RowSet(m, i);
  }

  lemma RowRemoved(m: map<ReplicaId, Replica>, r: ReplicaId, i: Identity)
    requires r in m
    ensures |RowSet(m - {r}, i)| == |RowSet(m, i)| - (if IdentityOf(m[r]) == i then 1 else 0)
    ensures RowSet(m - {r}, i) == RowSet(m, i) - {r}
  {
    assert RowSet(m - {r}, i) == RowSet(m, i) - {r};
  }

  lemma AddRowAccounts(s: State, o: ObjectId, r: ReplicaId)
    requires CanAddRow(s, o, r) && CreateOk(s, o, s.procs[o]) && Accounts(s, o, s.procs[o].held)
    ensures Accounts(DoAddRow(s, o, r), o, s.procs[o].held)
  {
    var t := DoAddRow(s, o, r);
    forall i <- s.procs[o].held
      ensures Refs(t.db.dedup, i) == |RowSet(t.db.replicas, i)| + (if Owed(t.procs[o]) == Some(i) then 1 else 0)
      ensures EntryOk(t.db.replicas, t.db.dedup, i)
    {
      RowAdded(s.db.replicas, r, t.db.replicas[r], i);
      assert EntryOk(s.db.replicas, s.db.dedup, i);
    }
  }

  lemma AddRowOwn(s: State, o: ObjectId, r: ReplicaId)
    requires CanAddRow(s, o, r) && CreateOk(s, o, s.procs[o])
    ensures var t := DoAddRow(s, o, r);
            CreateWorks(s, t, o) && CreateOk(t, o, t.procs[o])
  {
  }

  lemma AddRowKeysAgree(s: State, o: ObjectId, r: ReplicaId)
    requires CanAddRow(s, o, r) && CreateOk(s, o, s.procs[o]) && Accounts(s, o, s.procs[o].held)
    requires KeysAgree(s.db.replicas)
    ensures KeysAgree(DoAddRow(s, o, r).db.replicas)
  {
    var t := DoAddRow(s, o, r);
    var i := IdentityOf(t.db.replicas[r]);
    assert EntryOk(s.db.replicas, s.db.dedup, i);
    assert forall q <- s.db.replicas :: IdentityOf(s.db.replicas[q]) == i ==> q in RowSet(s.db.replicas, i);
  }

  lemma AddRowPrivate(s: State, o: ObjectId, r: ReplicaId)
    requires Inv(s) && CanAddRow(s, o, r) && CreateOk(s, o, s.procs[o]) && Accounts(s, o, s.procs[o].held)
    ensures PlansPrivate(s.db.journal, DoAddRow(s, o, r).db.replicas)
  {
    var t := DoAddRow(s, o, r);
    var l := PlaceOf(t.db.replicas[r]);
    assert EntryOk(s.db.replicas, s.db.dedup, IdentityOf(t.db.replicas[r]));
    assert Mine(l, o, s.procs[o].held);
    CreateHasNoJournal(s, o);
    forall a <- s.db.journal | IsPhysical(s.db.journal[a].phase) ensures l !in Targets(s.db.journal[a]) {
      assert JournalOk(s.db, s.phys, a);
      if l in Targets(s.db.journal[a]) { TargetsApart(s, o, a, l); }
    }
    PrivateAdd(s.db.journal, s.db.replicas, r, t.db.replicas[r]);
  }

  lemma PrivateAdd(journal: map<AttemptId, Journal>, m: map<ReplicaId, Replica>, r: ReplicaId, row: Replica)
    requires PlansPrivate(journal, m)
    requires forall a <- journal :: IsPhysical(journal[a].phase) ==> PlaceOf(row) !in Targets(journal[a])
    ensures PlansPrivate(journal, m[r := row])
  {
  }

  lemma AddRowRows(s: State, o: ObjectId, r: ReplicaId)
    requires RowsOk(s.db, s.phys) && CanAddRow(s, o, r) && CreateOk(s, o, s.procs[o]) && Accounts(s, o, s.procs[o].held)
    ensures OwnRowsOk(DoAddRow(s, o, r), o)
  {
    var t := DoAddRow(s, o, r);
    assert EntryOk(s.db.replicas, s.db.dedup, IdentityOf(t.db.replicas[r]));
    forall q <- t.db.replicas ensures t.db.replicas[q].owner == o ==> ReplicaOk(t.db, t.phys, t.db.replicas[q]) {
      if q != r { assert ReplicaOk(s.db, s.phys, s.db.replicas[q]); }
    }
  }

  lemma AddRowKeeps(s: State, o: ObjectId, r: ReplicaId)
    requires Inv(s) && CanAddRow(s, o, r)
    ensures Inv(DoAddRow(s, o, r))
  {
    var t := DoAddRow(s, o, r);
    assert ProcOk(s, o);
    AccountsNow(s, o);
    AddRowOwn(s, o, r);
    AddRowAccounts(s, o, r);
    AddRowKeysAgree(s, o, r);
    AddRowPrivate(s, o, r);
    AddRowRows(s, o, r);
    CreateStepKeeps(s, t, o);
  }

  // ------------------------------------------------------------------
  // Compensation
  // ------------------------------------------------------------------

  lemma DropMadeAccounts(s: State, o: ObjectId, r: ReplicaId)
    requires CanDropMade(s, o, r) && CreateOk(s, o, s.procs[o]) && Accounts(s, o, s.procs[o].held)
    ensures Accounts(DoDropMade(s, o, r), o, s.procs[o].held)
  {
    var t := DoDropMade(s, o, r);
    forall i <- s.procs[o].held
      ensures Refs(t.db.dedup, i) == |RowSet(t.db.replicas, i)| + (if Owed(t.procs[o]) == Some(i) then 1 else 0)
      ensures EntryOk(t.db.replicas, t.db.dedup, i)
    {
      RowRemoved(s.db.replicas, r, i);
      assert EntryOk(s.db.replicas, s.db.dedup, i);
    }
  }

  lemma DropMadeOwn(s: State, o: ObjectId, r: ReplicaId)
    requires CanDropMade(s, o, r) && CreateOk(s, o, s.procs[o]) && Accounts(s, o, s.procs[o].held)
    ensures var t := DoDropMade(s, o, r);
            CreateWorks(s, t, o) && CreateOk(t, o, t.procs[o])
  {
    var i := IdentityOf(s.db.replicas[r]);
    assert i in CreateKeys(s.procs[o], s.db.replicas);
    assert r in RowSet(s.db.replicas, i);
    assert EntryOk(s.db.replicas, s.db.dedup, i) && Refs(s.db.dedup, i) > 0;
  }

  lemma DropMadeKeeps(s: State, o: ObjectId, r: ReplicaId)
    requires Inv(s) && CanDropMade(s, o, r)
    ensures Inv(DoDropMade(s, o, r))
  {
    var t := DoDropMade(s, o, r);
    assert ProcOk(s, o);
    AccountsNow(s, o);
    DropMadeOwn(s, o, r);
    DropMadeAccounts(s, o, r);
    OwnRowsKeep(s, t, o);
    CreateStepKeeps(s, t, o);
  }

  lemma ReleaseMadeAccounts(s: State, o: ObjectId)
    requires CanReleaseMade(s, o) && CreateOk(s, o, s.procs[o]) && Accounts(s, o, s.procs[o].held)
    ensures Accounts(DoReleaseMade(s, o), o, s.procs[o].held)
  {
    var t := DoReleaseMade(s, o);
    forall i <- s.procs[o].held
      ensures Refs(t.db.dedup, i) == |RowSet(t.db.replicas, i)| + (if Owed(t.procs[o]) == Some(i) then 1 else 0)
      ensures EntryOk(t.db.replicas, t.db.dedup, i)
    {
      assert EntryOk(s.db.replicas, s.db.dedup, i);
    }
  }

  lemma ReleaseMadeOwn(s: State, o: ObjectId)
    requires CanReleaseMade(s, o) && CreateOk(s, o, s.procs[o]) && Accounts(s, o, s.procs[o].held)
    ensures var t := DoReleaseMade(s, o);
            CreateWorks(s, t, o) && CreateOk(t, o, t.procs[o])
  {
    assert EntryOk(s.db.replicas, s.db.dedup, Identity(s.procs[o].content, s.procs[o].at.backend));
  }

  lemma ReleaseMadeKeeps(s: State, o: ObjectId)
    requires Inv(s) && CanReleaseMade(s, o)
    ensures Inv(DoReleaseMade(s, o))
  {
    var t := DoReleaseMade(s, o);
    assert ProcOk(s, o);
    AccountsNow(s, o);
    ReleaseMadeOwn(s, o);
    ReleaseMadeAccounts(s, o);
    OwnRowsKeep(s, t, o);
    CreateStepKeeps(s, t, o);
  }

  /** A place about to be swept has no rows: its payload has no references left. */
  lemma SweptUnused(s: State, o: ObjectId, l: Loc)
    requires RowsOk(s.db, s.phys) && CanSweep(s, o, l) && CreateOk(s, o, s.procs[o]) && Accounts(s, o, s.procs[o].held)
    ensures l.Payload? && forall r <- s.db.replicas :: PlaceOf(s.db.replicas[r]) != l
  {
    var i := IdentityAt(l);
    assert Refs(s.db.dedup, i) == 0;
    forall r <- s.db.replicas ensures PlaceOf(s.db.replicas[r]) != l {
      assert ReplicaOk(s.db, s.phys, s.db.replicas[r]);
      assert PlaceOf(s.db.replicas[r]) == l ==> r in RowSet(s.db.replicas, i);
    }
  }

  lemma SweepOwn(s: State, o: ObjectId, l: Loc)
    requires CanSweep(s, o, l) && CreateOk(s, o, s.procs[o]) && Accounts(s, o, s.procs[o].held)
    ensures var t := DoSweep(s, o, l);
            CreateWorks(s, t, o) && CreateOk(t, o, t.procs[o]) && Accounts(t, o, s.procs[o].held)
  {
  }

  lemma SweepKeeps(s: State, o: ObjectId, l: Loc)
    requires Inv(s) && CanSweep(s, o, l)
    ensures Inv(DoSweep(s, o, l))
  {
    var t := DoSweep(s, o, l);
    assert ProcOk(s, o);
    AccountsNow(s, o);
    SweptUnused(s, o, l);
    SweepOwn(s, o, l);
    assert OwnRowsOk(t, o) by {
      forall r <- t.db.replicas ensures ReplicaOk(t.db, t.phys, t.db.replicas[r]) { assert ReplicaOk(s.db, s.phys, s.db.replicas[r]); }
    }
    CreateStepKeeps(s, t, o);
  }

  // ------------------------------------------------------------------
  // Guards, beginning and end
  // ------------------------------------------------------------------

  lemma BeginCreateOwn(s: State, o: ObjectId, content: Content, blank: Object, targets: set<Backend>)
    requires CanBeginCreate(s, o, content, blank, targets)
    requires forall r <- s.db.replicas :: s.db.replicas[r].owner != o
    ensures var t := DoBeginCreate(s, o, content, blank, targets); CreateOk(t, o, t.procs[o])
  {
  }

  lemma NewOwnsNothing(s: State, o: ObjectId)
    requires OrphansMade(s) && o !in s.db.objects && o !in s.procs
    ensures forall r <- s.db.replicas :: s.db.replicas[r].owner != o
  {
  }

  lemma BeginCreateKeeps(s: State, o: ObjectId, content: Content, blank: Object, targets: set<Backend>)
    requires Inv(s) && CanBeginCreate(s, o, content, blank, targets)
    ensures Inv(DoBeginCreate(s, o, content, blank, targets))
  {
    NewOwnsNothing(s, o);
    BeginCreateOwn(s, o, content, blank, targets);
    BeginKeeps(s, DoBeginCreate(s, o, content, blank, targets), o);
  }

  lemma LockCreateKeeps(s: State, o: ObjectId)
    requires Inv(s) && CanLockCreate(s, o)
    ensures Inv(DoLockCreate(s, o))
  {
    var t := DoLockCreate(s, o);
    assert ProcOk(s, o);
    GuardsLock(s, t, o, CreateKeys(s.procs[o], s.db.replicas));
    ControlKeeps(s, t, o);
  }

  lemma UnlockCreateKeeps(s: State, o: ObjectId)
    requires Inv(s) && CanUnlockCreate(s, o)
    ensures Inv(DoUnlockCreate(s, o))
  {
    var t := DoUnlockCreate(s, o);
    assert ProcOk(s, o);
    GuardsUnlock(s, t, o);
    ControlKeeps(s, t, o);
  }

  lemma GiveUpOwn(s: State, o: ObjectId)
    requires CanGiveUp(s, o) && CreateOk(s, o, s.procs[o])
    ensures var t := DoGiveUp(s, o);
            CreateOk(t, o, t.procs[o]) && Owed(t.procs[o]) == Owed(s.procs[o]) && t.procs[o].held == s.procs[o].held
  {
  }

  lemma GiveUpKeeps(s: State, o: ObjectId)
    requires Inv(s) && CanGiveUp(s, o)
    ensures Inv(DoGiveUp(s, o))
  {
    var t := DoGiveUp(s, o);
    assert ProcOk(s, o);
    GiveUpOwn(s, o);
    GuardsMove(s, t, o);
    ControlKeeps(s, t, o);
  }

  lemma EndCreateKeeps(s: State, o: ObjectId)
    requires Inv(s) && CanEndCreate(s, o)
    ensures Inv(DoEndCreate(s, o))
  {
    assert ProcOk(s, o);
    CreateHasNoJournal(s, o);
    FinishKeeps(s, o);
  }

  lemma PublishRows(s: State, o: ObjectId)
    requires RowsOk(s.db, s.phys) && CanPublish(s, o) && CreateOk(s, o, s.procs[o])
    ensures OwnRowsOk(DoPublish(s, o), o)
  {
    var t := DoPublish(s, o);
    forall r <- t.db.replicas ensures t.db.replicas[r].owner == o ==> ReplicaOk(t.db, t.phys, t.db.replicas[r]) {
      assert ReplicaOk(s.db, s.phys, s.db.replicas[r]);
    }
  }

  lemma PublishLocal(s: State, o: ObjectId)
    requires CanPublish(s, o)
    ensures var t := DoPublish(s, o); Local(s, t, o) && SparesOthers(s, t, o) && SafetyKept(s.db.objects, t.db.objects)
  {
  }

  lemma PublishDurable(s: State, o: ObjectId)
    requires CanPublish(s, o) && OwnRowsOk(DoPublish(s, o), o) && s.procs[o].blank.state in {Created, Hot}
    requires CrossDurable(s.db, s.phys)
    requires forall a <- s.db.journal :: s.db.journal[a].owner != o
    requires forall x <- s.db.archives :: s.db.archives[x].owner != o
    ensures var t := DoPublish(s, o); OwnDurable(t.db, t.phys, o) && CrossDurable(t.db, t.phys)
  {
  }

  lemma PublishLive(s: State, o: ObjectId)
    requires CanPublish(s, o) && s.procs[o].held == {}
    requires forall a <- s.db.journal :: s.db.journal[a].owner != o
    ensures OwnLive(s, DoPublish(s, o), o)
  {
  }

  lemma PublishKeeps(s: State, o: ObjectId)
    requires Inv(s) && CanPublish(s, o)
    ensures Inv(DoPublish(s, o))
  {
    assert ProcOk(s, o);
    CreateHasNoJournal(s, o);
    PublishRows(s, o);
    PublishLocal(s, o);
    PublishDurable(s, o);
    PublishLive(s, o);
    GuardsFinish(s, DoPublish(s, o), o);
    LocalKeeps(s, DoPublish(s, o), o);
  }

  /** Every step of a create keeps the invariant. */
  lemma CreateKeeps(s: State, k: Step)
    requires Inv(s) && CreateEnabled(s, k)
    ensures Inv(CreateApply(s, k))
  {
    match k
    case BeginCreate(o, content, blank, targets) => BeginCreateKeeps(s, o, content, blank, targets);
    case LockCreate(o) => LockCreateKeeps(s, o);
    case CountExisting(o, b) => CountExistingKeeps(s, o, b);
    case PutPayload(o, b, suffix) => PutPayloadKeeps(s, o, b, suffix);
    case InsertEntry(o) => InsertEntryKeeps(s, o);
    case AddRow(o, r) => AddRowKeeps(s, o, r);
    case UnlockCreate(o) => UnlockCreateKeeps(s, o);
    case Publish(o) => PublishKeeps(s, o);
    case GiveUp(o) => GiveUpKeeps(s, o);
    case DropMade(o, r) => DropMadeKeeps(s, o, r);
    case ReleaseMade(o) => ReleaseMadeKeeps(s, o);
    case Sweep(o, l) => SweepKeeps(s, o, l);
    case EndCreate(o) => EndCreateKeeps(s, o);
  }
}
