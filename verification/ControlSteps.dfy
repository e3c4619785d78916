/** Steps that change no table and no payload: program counters, guards, beginnings and ends. */
module ControlSteps {
  import opened Fabric
  import opened Durable
  import opened RecoveryWrites
  import opened LifecycleTable
  import opened Protocol
  import opened Invariant
  import opened Locality

  /** Nothing owed by `o` changed hands, so the accounts stand. */
  lemma OwedSame(s: State, t: State, o: ObjectId, i: Identity)
    requires SameProcs(s.procs, t.procs, o)
    requires o in s.procs <==> o in t.procs
    requires o in s.procs ==> Owed(t.procs[o]) == Owed(s.procs[o])
    ensures OwedBySome(t.procs, i) <==> OwedBySome(s.procs, i)
  {
    if OwedBySome(s.procs, i) {
      var q :| q in s.procs && Owed(s.procs[q]) == Some(i);
      assert q in t.procs && Owed(t.procs[q]) == Some(i);
    }
    if OwedBySome(t.procs, i) {
      var q :| q in t.procs && Owed(t.procs[q]) == Some(i);
      assert q in s.procs && Owed(s.procs[q]) == Some(i);
    }
  }

  lemma CreateHasNoJournal(s: State, o: ObjectId)
    requires DurableOk(s.db, s.phys) && IsCreate(s, o) && ProcOk(s, o)
    ensures forall a <- s.db.journal :: s.db.journal[a].owner != o
    ensures forall x <- s.db.archives :: s.db.archives[x].owner != o
  {
    forall a <- s.db.journal ensures s.db.journal[a].owner != o { assert JournalOk(s.db, s.phys, a); }
    forall x <- s.db.archives ensures s.db.archives[x].owner != o { assert ArchiveOk(s.db, s.phys, s.db.archives[x]); }
  }

  lemma LocalControl(s: State, t: State, o: ObjectId)
    requires Live(s.mode) && t.mode == s.mode && t.activeRecovery == s.activeRecovery && t.edges == s.edges
    requires t.db == s.db && t.phys == s.phys && o in s.procs && SameProcs(s.procs, t.procs, o)
    ensures Local(s, t, o) && SparesOthers(s, t, o) && SafetyKept(s.db.objects, t.db.objects)
  {
  }

  lemma ControlCounts(s: State, t: State, o: ObjectId)
    requires DedupOk(s) && t.db == s.db && SameProcs(s.procs, t.procs, o)
    requires o in s.procs && o in t.procs && Owed(t.procs[o]) == Owed(s.procs[o])
    ensures DedupOk(t)
  {
    forall i ensures CountOk(t.db.replicas, t.db.dedup, t.procs, i) {
      OwedSame(s, t, o, i);
      assert CountOk(s.db.replicas, s.db.dedup, s.procs, i);
    }
    forall i ensures EntryOk(t.db.replicas, t.db.dedup, i) { assert EntryOk(s.db.replicas, s.db.dedup, i); }
  }

  /** A process moves on without touching tables or payloads. */
  lemma ControlKeeps(s: State, t: State, o: ObjectId)
    requires Inv(s) && Live(s.mode) && t.mode == s.mode && t.activeRecovery == s.activeRecovery && t.edges == s.edges
    requires t.db == s.db && t.phys == s.phys && o in s.procs && o in t.procs && SameProcs(s.procs, t.procs, o)
    requires Owed(t.procs[o]) == Owed(s.procs[o])
    requires s.procs[o].Create? <==> t.procs[o].Create?
    requires s.procs[o].Reclaim? ==> t.procs[o].attempt == s.procs[o].attempt && s.procs[o].held <= t.procs[o].held
    requires GuardsOk(t) && ProcOk(t, o)
    ensures Inv(t)
  {
    assert ProcOk(s, o);
    OwedHeld(s, o);
    LocalControl(s, t, o);
    ControlCounts(s, t, o);
    if IsCreate(s, o) { CreateHasNoJournal(s, o); }
    ControlOwn(s, t, o);
    assert DurableOk(t.db, t.phys);
    LiveLocal(s, t, o);
  }

  lemma ControlOwn(s: State, t: State, o: ObjectId)
    requires PhysicalHeld(s.db.journal, s.procs) && OpenReserved(s) && OrphansMade(s) && GuardsOk(s)
    requires t.db == s.db && o in s.procs && o in t.procs
    requires s.procs[o].Create? <==> t.procs[o].Create?
    requires s.procs[o].Reclaim? ==> t.procs[o].attempt == s.procs[o].attempt && s.procs[o].held <= t.procs[o].held
    requires s.procs[o].Create? ==> forall a <- s.db.journal :: s.db.journal[a].owner != o
    requires ProcOk(t, o) && DedupOk(t)
    requires Owed(t.procs[o]).Some? ==> Owed(t.procs[o]).value in s.procs[o].held
    ensures OwnLive(s, t, o)
  {
    assert !s.activeRecovery;
  }

  /** An operation that owes nothing and leaves nothing half open may end. */
  lemma FinishKeeps(s: State, o: ObjectId)
    requires Inv(s) && Live(s.mode) && o in s.procs && Owed(s.procs[o]).None?
    requires forall a <- s.db.journal :: s.db.journal[a].owner == o ==> !IsPhysical(s.db.journal[a].phase)
    requires forall a <- s.db.journal :: s.db.journal[a].owner == o && Unfinished(s.db.journal[a].phase) && a in s.db.reservations ==>
               s.db.reservations[a].status == ReservationOpen
    requires o in s.db.objects || forall r <- s.db.replicas :: s.db.replicas[r].owner != o
    ensures Inv(Finish(s, o))
  {
    var t := Finish(s, o);
    assert ProcOk(s, o);
    LocalControl(s, t, o);
    GuardsFinish(s, t, o);
    forall i <- s.procs[o].held ensures CountOk(t.db.replicas, t.db.dedup, t.procs, i) && EntryOk(t.db.replicas, t.db.dedup, i) {
      FinishOwes(s, o, i);
      assert CountOk(s.db.replicas, s.db.dedup, s.procs, i) && EntryOk(s.db.replicas, s.db.dedup, i);
    }
    assert DurableOk(t.db, t.phys);
    LiveLocal(s, t, o);
  }

  lemma FinishOwes(s: State, o: ObjectId, i: Identity)
    requires o in s.procs && Owed(s.procs[o]).None?
    ensures OwedBySome(s.procs - {o}, i) <==> OwedBySome(s.procs, i)
  {
    if OwedBySome(s.procs, i) {
      var q :| q in s.procs && Owed(s.procs[q]) == Some(i);
      assert q in s.procs - {o} && Owed((s.procs - {o})[q]) == Some(i);
    }
  }

  // ------------------------------------------------------------------
  // Beginnings
  // ------------------------------------------------------------------

  lemma BeginCounts(s: State, t: State, o: ObjectId)
    requires DedupOk(s) && t.db == s.db && SameProcs(s.procs, t.procs, o)
    requires o !in s.procs && o in t.procs && Owed(t.procs[o]).None?
    ensures DedupOk(t)
  {
    forall i ensures CountOk(t.db.replicas, t.db.dedup, t.procs, i) {
      assert CountOk(s.db.replicas, s.db.dedup, s.procs, i);
      if OwedBySome(s.procs, i) {
        var q :| q in s.procs && Owed(s.procs[q]) == Some(i);
        assert q in t.procs && Owed(t.procs[q]) == Some(i);
      }
      if OwedBySome(t.procs, i) {
        var q :| q in t.procs && Owed(t.procs[q]) == Some(i);
        assert q in s.procs && Owed(s.procs[q]) == Some(i);
      }
    }
    forall i ensures EntryOk(t.db.replicas, t.db.dedup, i) { assert EntryOk(s.db.replicas, s.db.dedup, i); }
  }

  lemma BeginProcs(s: State, t: State, o: ObjectId)
    requires forall q <- s.procs :: ProcOk(s, q)
    requires t.db == s.db && t.phys == s.phys && t.edges == s.edges && SameProcs(s.procs, t.procs, o)
    requires o in t.procs && ProcOk(t, o)
    ensures forall q <- t.procs :: ProcOk(t, q)
  {
    forall q <- t.procs ensures ProcOk(t, q) {
      if q != o { assert ProcOk(s, q); }
    }
  }

  lemma BeginKeeps(s: State, t: State, o: ObjectId)
    requires Inv(s) && s.mode.Running? && t.mode == s.mode && !s.activeRecovery && !t.activeRecovery && t.edges == s.edges
    requires t.db == s.db && t.phys == s.phys && o !in s.procs && o in t.procs && SameProcs(s.procs, t.procs, o)
    requires Owed(t.procs[o]).None? && t.procs[o].held == {}
    requires t.activeObjects == s.activeObjects + {o} && t.activePayloads == s.activePayloads
    requires ProcOk(t, o)
    requires t.procs[o].Create? || o in s.db.objects
    ensures Inv(t)
  {
    GuardsBegin(s, t, o);
    BeginCounts(s, t, o);
    BeginProcs(s, t, o);
    BeginRest(s, t, o);
  }

  lemma BeginRest(s: State, t: State, o: ObjectId)
    requires PhysicalHeld(s.db.journal, s.procs) && OpenReserved(s) && OrphansMade(s)
    requires t.db == s.db && t.activeRecovery == s.activeRecovery && o !in s.procs && o in t.procs && SameProcs(s.procs, t.procs, o)
    ensures PhysicalHeld(t.db.journal, t.procs) && OpenReserved(t) && OrphansMade(t)
  {
  }
}
