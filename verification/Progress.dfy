/** Nothing gets stuck by itself: in every reachable state an operation that is not waiting for
    payload keys finds everything its next step needs. */
module Progress {
  import opened Fabric
  import opened Durable
  import opened LifecycleTable
  import opened Protocol
  import opened Invariant
  import opened Locality
  import opened CreateSteps
  import opened ReclaimSteps
  import opened PhysicalSteps
  import opened Safety
  import LastOwner

  // ------------------------------------------------------------------
  // Dedup hits
  // ------------------------------------------------------------------

  /** A locked payload that is counted and owed by nobody has a row. */
  lemma CountedHasRow(s: State, o: ObjectId, i: Identity)
    requires LiveOk(s) && o in s.procs && i in s.procs[o].held && i in s.db.dedup && Owed(s.procs[o]) != Some(i)
    ensures RowSet(s.db.replicas, i) != {}
  {
    CountsNow(s, o, i);
  }

  /** No running reclaim is deleting a payload that another operation has locked. */
  lemma LockedNotTarget(s: State, o: ObjectId, r: ReplicaId)
    requires LiveOk(s) && JournalsOk(s.db, s.phys) && o in s.procs && IsCreate(s, o)
    requires r in s.db.replicas && IdentityOf(s.db.replicas[r]) in s.procs[o].held
    requires s.db.replicas[r].key.content == s.db.replicas[r].content
    requires forall a <- s.db.journal :: s.db.journal[a].owner != o
    ensures !Excused(s.db.journal, s.db.replicas[r].owner, PlaceOf(s.db.replicas[r]))
  {
    var l := PlaceOf(s.db.replicas[r]);
    forall a <- s.db.journal | IsPhysical(s.db.journal[a].phase) ensures l !in Targets(s.db.journal[a]) {
      assert JournalOk(s.db, s.phys, a);
      if l in Targets(s.db.journal[a]) { TargetsApart(s, o, a, l); }
    }
  }

  /** A create that finds its content counted on a backend always finds the canonical payload there,
      with the right bytes: a dedup hit is never a miss. */
  lemma DedupHitIsPresent(s: State, o: ObjectId, b: Backend)
    requires Reachable(s) && Live(s.mode) && IsCreate(s, o) && s.procs[o].at.Storing? && b in s.procs[o].todo
    requires Identity(s.procs[o].content, b) in s.db.dedup
    ensures var e := s.db.dedup[Identity(s.procs[o].content, b)];
            && e.refs >= 1 && Payload(b, e.key) in s.phys && s.phys[Payload(b, e.key)] == s.procs[o].content
  {
    ReachableInv(s);
    StoringHolds(s, o, b);
    HitPresent(s, o, Identity(s.procs[o].content, b));
  }

  lemma StoringHolds(s: State, o: ObjectId, b: Backend)
    requires Inv(s) && Live(s.mode) && IsCreate(s, o) && s.procs[o].at.Storing? && b in s.procs[o].todo
    ensures Identity(s.procs[o].content, b) in s.procs[o].held && Owed(s.procs[o]).None?
    ensures forall a <- s.db.journal :: s.db.journal[a].owner != o
  {
    assert ProcOk(s, o);
    assert Identity(s.procs[o].content, b) in CreateKeys(s.procs[o], s.db.replicas);
    forall a <- s.db.journal ensures s.db.journal[a].owner != o { assert JournalOk(s.db, s.phys, a); }
  }

  lemma HitPresent(s: State, o: ObjectId, i: Identity)
    requires LiveOk(s) && DurableOk(s.db, s.phys) && IsCreate(s, o) && i in s.procs[o].held && Owed(s.procs[o]).None?
    requires i in s.db.dedup && forall a <- s.db.journal :: s.db.journal[a].owner != o
    ensures s.db.dedup[i].refs >= 1 && Payload(i.backend, s.db.dedup[i].key) in s.phys
    ensures s.phys[Payload(i.backend, s.db.dedup[i].key)] == i.content
  {
    CountedHasRow(s, o, i);
    CountsNow(s, o, i);
    var r :| r in RowSet(s.db.replicas, i);
    assert ReplicaOk(s.db, s.phys, s.db.replicas[r]);
    LockedNotTarget(s, o, r);
    assert PlaceOf(s.db.replicas[r]) == Payload(i.backend, s.db.dedup[i].key);
  }

  // ------------------------------------------------------------------
  // Every create can go on
  // ------------------------------------------------------------------

  /** A backend at which the count of the content can go no higher. */
  predicate Full(s: State, o: ObjectId, b: Backend)
    requires IsCreate(s, o)
  {
    Identity(s.procs[o].content, b) in s.db.dedup && s.db.dedup[Identity(s.procs[o].content, b)].refs >= MAX_REFS
  }

  /** Whatever else is going on, a create that is not waiting for payload keys can take its next step
      without giving up, with any unused row id; and so can one that cleans up. */
  lemma CreateGoesOn(s: State, o: ObjectId, r: ReplicaId) returns (k: Step)
    requires Reachable(s) && s.mode.Running? && IsCreate(s, o) && !Waits(s.procs[o])
    requires r !in s.db.replicas && forall a <- s.db.journal :: r !in s.db.journal[a].deletions
    requires forall b <- s.procs[o].todo :: !Full(s, o, b)
    ensures CreateEnabled(s, k) && k.o == o && !k.GiveUp?
  {
    ReachableInv(s);
    assert ProcOk(s, o);
    var p := s.procs[o];
    if p.at.Storing? && p.todo != {} {
      var b :| b in p.todo;
      if Identity(p.content, b) in s.db.dedup {
        DedupHitIsPresent(s, o, b);
        k := CountExisting(o, b);
      } else {
        k := PutPayload(o, b, 0);
      }
    } else if p.at.Unrowed? {
      OwedCounted(s, o);
      k := ReleaseMade(o);
    } else {
      k := if p.at.Storing? then UnlockCreate(o)
           else if p.at.Written? then InsertEntry(o)
           else if p.at.Counted? then AddRow(o, r)
           else if p.at.Stored? then Publish(o)
           else CleanStep(p, o);
      CleansOn(s, o);
    }
  }

  ghost function CleanStep(p: Proc, o: ObjectId): (k: Step)
    requires p.Create?
  {
    if l :| l in p.sweep then Sweep(o, l) else if r :| r in p.made then DropMade(o, r) else EndCreate(o)
  }

  lemma CleansOn(s: State, o: ObjectId)
    requires s.mode.Running? && IsCreate(s, o) && CreateOk(s, o, s.procs[o])
    ensures s.procs[o].at.Cleaning? ==> CreateEnabled(s, CleanStep(s.procs[o], o)) && CleanStep(s.procs[o], o).o == o
    ensures !CleanStep(s.procs[o], o).GiveUp?
  {
  }

  lemma OwedCounted(s: State, o: ObjectId)
    requires LiveOk(s) && IsCreate(s, o) && s.procs[o].at.Unrowed? && CreateOk(s, o, s.procs[o])
    ensures Refs(s.db.dedup, Identity(s.procs[o].content, s.procs[o].at.backend)) > 0
  {
    CountsNow(s, o, Identity(s.procs[o].content, s.procs[o].at.backend));
  }

  // ------------------------------------------------------------------
  // Plans
  // ------------------------------------------------------------------

  /** A reclaim that holds its payload keys never finds its schedule at odds with the dedup table. */
  lemma PlanNeverRefused(s: State, o: ObjectId)
    requires Reachable(s) && s.mode.Running? && IsReclaim(s, o) && s.procs[o].pc.Locked?
    ensures LastOwner.Plannable(s.procs[o].rows, s.db.dedup)
  {
    ReachableInv(s);
    OwnProcOk(s, o);
    LockedJournal(s, o);
    ScheduledRows(s, o);
    forall r <- s.procs[o].rows
      ensures IdentityOf(s.procs[o].rows[r]) in s.db.dedup && s.db.dedup[IdentityOf(s.procs[o].rows[r])].key == s.procs[o].rows[r].key
      ensures |RowSet(s.procs[o].rows, IdentityOf(s.procs[o].rows[r]))| <= s.db.dedup[IdentityOf(s.procs[o].rows[r])].refs
    {
      RowPlannable(s, o, r);
    }
  }

  lemma LockedJournal(s: State, o: ObjectId)
    requires Inv(s) && s.mode.Running? && IsReclaim(s, o) && s.procs[o].pc.Locked? && ReclaimOk(s, o, s.procs[o])
    ensures Journaled(s, o) && JournalOk(s.db, s.phys, s.procs[o].attempt) && Identities(s.procs[o].rows) <= s.procs[o].held
    ensures s.db.journal[s.procs[o].attempt].phase == PhaseValidated
  {
  }

  lemma SubsetSize<T>(x: set<T>, y: set<T>)
    requires x <= y
    ensures |x| <= |y|
  {
    assert y == x + (y - x);
  }

  lemma RowPlannable(s: State, o: ObjectId, r: ReplicaId)
    requires LiveOk(s) && o in s.procs && s.procs[o].Reclaim? && s.procs[o].pc.Locked? && Identities(s.procs[o].rows) <= s.procs[o].held
    requires s.procs[o].rows == RowsOf(s.db, o) && r in s.procs[o].rows
    ensures var i := IdentityOf(s.procs[o].rows[r]);
            && i in s.db.dedup && s.db.dedup[i].key == s.procs[o].rows[r].key
            && |RowSet(s.procs[o].rows, i)| <= s.db.dedup[i].refs
  {
    var rows := s.procs[o].rows;
    var i := IdentityOf(rows[r]);
    assert i in Identities(rows);
    CountsNow(s, o, i);
    assert r in RowSet(s.db.replicas, i);
    assert RowSet(rows, i) <= RowSet(s.db.replicas, i);
    SubsetSize(RowSet(rows, i), RowSet(s.db.replicas, i));
  }

  // ------------------------------------------------------------------
  // Which reclaims are admitted
  // ------------------------------------------------------------------

  /** A reclaim is admitted exactly on an idle object that is neither pinned nor protected, needs no
      copy, has no open reservation, and is past the hot tiers or could be made again. */
  lemma ReclaimAdmitted(s: State, o: ObjectId, a: AttemptId)
    requires a !in s.db.journal && a !in s.db.attempts && a !in s.db.reservations
    ensures CanBeginReclaim(s, o, a) <==>
              && s.mode.Running? && !s.activeRecovery && o !in s.activeObjects && o in s.db.objects
              && !s.db.objects[o].pinned && !s.db.objects[o].protected
              && s.db.objects[o].durability in {Ephemeral, Reproducible}
              && (|| s.db.objects[o].state in {Deduped, Archived, Recomputable, ReclaimPending}
                  || (s.db.objects[o].state in {Hot, Warm, Cold, Compressed} && (s.db.objects[o].reconstructible || s.db.objects[o].durability == Ephemeral)))
              && (forall b <- s.db.reservations :: s.db.reservations[b].owner == o ==> s.db.reservations[b].status != ReservationOpen)
  {
    if o in s.db.objects {
      RouteStates(s.db.objects[o]);
      SurvivableIff(s.db, o);
    }
  }

  // ------------------------------------------------------------------
  // Every reclaim can go on
  // ------------------------------------------------------------------

  /** The step a reclaim takes next, given a plan for when it needs one. */
  ghost function NextStep(s: State, o: ObjectId, plan: set<ReplicaId>): (k: Step)
    requires Journaled(s, o) && !s.procs[o].pc.Planned?
    ensures !k.EarlyExit? && (k.BeginAbort? ==> !CanClear(s, o))
  {
    var p := s.procs[o];
    match p.pc
    case Reserved => if NeedsStep(p.prior.state) then StepRecomputable(o) else MarkPending(o)
    case Stepped => MarkPending(o)
    case Pending => Validate(o)
    case Validated => if CanClear(s, o) then Clear(o) else BeginAbort(o)
    case Cleared => LockReclaim(o)
    case Locked => StartPhysical(o, plan)
    case Aborting(_) => AbortWrite(o)
    case Deleting(gone) =>
      if l :| l in Targets(s.db.journal[p.attempt]) && l !in gone then DeletePlace(o, l) else PhysicalComplete(o)
    case Dropping =>
      if r :| r in p.rows && r in s.db.replicas then DropRow(o, r)
      else if x :| x in p.vaults && x in s.db.archives then DropVault(o, x)
      else MarkGone(o)
    case Releasing(_) => ReleaseRow(o)
    case Closing(_) => CloseWrite(o)
  }

  lemma PreparingGoesOn(s: State, o: ObjectId, plan: set<ReplicaId>)
    requires s.mode.Running? && Journaled(s, o) && ReclaimOk(s, o, s.procs[o])
    requires s.procs[o].pc in {Reserved, Stepped, Pending, Validated} || s.procs[o].pc.Aborting?
    ensures ReclaimEnabled(s, NextStep(s, o, plan))
  {
  }

  lemma DeletingGoesOn(s: State, o: ObjectId, plan: set<ReplicaId>)
    requires s.mode.Running? && Journaled(s, o) && ReclaimOk(s, o, s.procs[o]) && s.procs[o].pc.Deleting?
    ensures ReclaimEnabled(s, NextStep(s, o, plan))
  {
    var targets, gone := Targets(s.db.journal[s.procs[o].attempt]), s.procs[o].pc.gone;
    assert gone <= targets;
    assert (forall l <- targets :: l in gone) ==> gone == targets;
  }

  lemma DroppingGoesOn(s: State, o: ObjectId, plan: set<ReplicaId>)
    requires s.mode.Running? && Journaled(s, o) && ReclaimOk(s, o, s.procs[o]) && (s.procs[o].pc.Dropping? || s.procs[o].pc.Closing?)
    ensures ReclaimEnabled(s, NextStep(s, o, plan))
  {
  }

  lemma ReleasingGoesOn(s: State, o: ObjectId, plan: set<ReplicaId>)
    requires Inv(s) && s.mode.Running? && Journaled(s, o) && ReclaimOk(s, o, s.procs[o]) && s.procs[o].pc.Releasing?
    ensures ReclaimEnabled(s, NextStep(s, o, plan))
  {
    CountsNow(s, o, s.procs[o].pc.owed);
  }

  lemma LockedGoesOn(s: State, o: ObjectId, plan: set<ReplicaId>)
    requires Journaled(s, o) && At(s, o, Locked) && s.db.journal[s.procs[o].attempt].phase == PhaseValidated
    requires LastOwnerPlan(s.procs[o].rows, s.db.dedup, plan)
    ensures ReclaimEnabled(s, NextStep(s, o, plan))
  {
  }

  /** Whatever else is going on, a reclaim that has reserved and is not waiting for payload keys can
      take its next step; the plan it needs before deleting exists. */
  lemma ReclaimGoesOn(s: State, o: ObjectId) returns (k: Step)
    requires Reachable(s) && s.mode.Running? && IsReclaim(s, o) && !s.procs[o].pc.Planned? && !Waits(s.procs[o])
    ensures ReclaimEnabled(s, k) && !k.EarlyExit? && (k.BeginAbort? ==> !CanClear(s, o))
  {
    ReachableInv(s);
    OwnProcOk(s, o);
    if s.procs[o].pc.Locked? {
      PlanNeverRefused(s, o);
      LockedJournal(s, o);
      var plan := PlanExists(s.procs[o].rows, s.db.dedup);
      LockedGoesOn(s, o, plan);
      k := NextStep(s, o, plan);
    } else {
      UnlockedGoesOn(s, o);
      k := NextStep(s, o, {});
    }
  }

  lemma UnlockedGoesOn(s: State, o: ObjectId)
    requires Inv(s) && s.mode.Running? && IsReclaim(s, o) && ReclaimOk(s, o, s.procs[o])
    requires !s.procs[o].pc.Planned? && !s.procs[o].pc.Cleared? && !s.procs[o].pc.Locked?
    ensures Journaled(s, o) && ReclaimEnabled(s, NextStep(s, o, {}))
  {
    StartedJournaled(s, o);
    var pc := s.procs[o].pc;
    if pc.Deleting? { DeletingGoesOn(s, o, {}); }
    else if pc.Releasing? { ReleasingGoesOn(s, o, {}); }
    else if pc.Dropping? || pc.Closing? { DroppingGoesOn(s, o, {}); }
    else { PreparingGoesOn(s, o, {}); }
  }

  lemma StartedJournaled(s: State, o: ObjectId)
    requires IsReclaim(s, o) && ReclaimOk(s, o, s.procs[o]) && !s.procs[o].pc.Planned?
    ensures Journaled(s, o)
  {
  }

  /** The last owners of a plannable schedule. */
  lemma PlanExists(rows: map<ReplicaId, Replica>, dedup: map<Identity, DedupEntry>) returns (plan: set<ReplicaId>)
    requires LastOwner.Plannable(rows, dedup)
    ensures LastOwnerPlan(rows, dedup, plan)
  {
    var tally := LastOwner.TallyExists(rows);
    LastOwner.ChosenPlan(rows, dedup, tally);
    plan := LastOwner.Chosen(dedup, tally, tally.Keys);
  }
}
