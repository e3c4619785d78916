/** Recovery as a whole: any run of its writes, however often it is interrupted and started
    again, ends in the one outcome the crash state determines. */
module Restart {
  import opened Fabric
  import opened Durable
  import opened RecoveryWrites

  /** `e` is reached from `d` by the recovery writes `ws`, in that order. */
  ghost predicate Run(d: Db, phys: Physical, ws: seq<Write>, e: Db)
    decreases |ws|
  {
    if ws == [] then d == e
    else Enabled(d, phys, ws[0]) && Run(Apply(d, phys, ws[0]), phys, ws[1..], e)
  }

  /** Nothing is left that recovery could decide. */
  ghost predicate Complete(d: Db, phys: Physical) {
    && (forall a <- d.journal :: !Decided(d.journal[a], phys))
    && Exact(d.replicas, d.dedup)
  }

  lemma {:induction false} RunKeeps(d: Db, phys: Physical, ws: seq<Write>, e: Db)
    requires DurableOk(d, phys) && Run(d, phys, ws, e)
    ensures DurableOk(e, phys)
    decreases |ws|
  {
    if ws != [] {
      WriteKeeps(d, phys, ws[0]);
      RunKeeps(Apply(d, phys, ws[0]), phys, ws[1..], e);
    }
  }

  lemma {:induction false} RunKeepsOutcome(d: Db, phys: Physical, ws: seq<Write>, e: Db, f: Db)
    requires DurableOk(d, phys) && Run(d, phys, ws, e)
    requires IsOutcome(e, phys, f)
    ensures IsOutcome(d, phys, f)
    decreases |ws|
  {
    if ws != [] {
      WriteKeeps(d, phys, ws[0]);
      RunKeepsOutcome(Apply(d, phys, ws[0]), phys, ws[1..], e, f);
      WriteKeepsOutcome(d, phys, ws[0], f);
    }
  }

  lemma CompleteIsOutcome(d: Db, phys: Physical)
    requires Complete(d, phys)
    ensures IsOutcome(d, phys, d)
  {
  }

  /** A recovery that runs out of work has reached the outcome of the state it started from. */
  lemma RunReachesOutcome(d: Db, phys: Physical, ws: seq<Write>, e: Db)
    requires DurableOk(d, phys) && Run(d, phys, ws, e) && Complete(e, phys)
    ensures IsOutcome(d, phys, e)
  {
    CompleteIsOutcome(e, phys);
    RunKeepsOutcome(d, phys, ws, e, e);
  }

  // ------------------------------------------------------------------
  // The outcome is unique
  // ------------------------------------------------------------------

  lemma ExactUnique(replicas: map<ReplicaId, Replica>, m: map<Identity, DedupEntry>, n: map<Identity, DedupEntry>)
    requires Exact(replicas, m) && Exact(replicas, n)
    ensures m == n
  {
    forall i ensures i in m <==> i in n ensures i in m && i in n ==> m[i] == n[i] {
      assert ExactFor(replicas, m, i) && ExactFor(replicas, n, i);
      if i in m {
        var r :| r in RowSet(replicas, i);
      }
    }
  }

  lemma ObjectsUnique(d: Db, phys: Physical, f: Db, g: Db)
    requires ObjectOutcome(d, phys, f) && ObjectOutcome(d, phys, g)
    requires forall a <- d.journal :: d.journal[a].owner in d.objects
    ensures f.objects == g.objects
  {
  }

  lemma ReplicaUnique(d: Db, phys: Physical, f: Db, g: Db, r: ReplicaId)
    requires ReplicaOutcome(d, phys, f) && ReplicaOutcome(d, phys, g)
    ensures r in f.replicas <==> r in g.replicas
    ensures r in f.replicas && r in g.replicas ==> f.replicas[r] == g.replicas[r]
  {
    if a :| a in d.journal && Decided(d.journal[a], phys) && r in d.journal[a].deletions {
    }
  }

  lemma ReplicasUnique(d: Db, phys: Physical, f: Db, g: Db)
    requires ReplicaOutcome(d, phys, f) && ReplicaOutcome(d, phys, g)
    ensures f.replicas == g.replicas
  {
    forall r ensures r in f.replicas <==> r in g.replicas ensures r in f.replicas && r in g.replicas ==> f.replicas[r] == g.replicas[r] {
      ReplicaUnique(d, phys, f, g, r);
    }
  }

  lemma ArchiveUnique(d: Db, phys: Physical, f: Db, g: Db, x: ArchiveId)
    requires ArchiveOutcome(d, phys, f) && ArchiveOutcome(d, phys, g)
    ensures x in f.archives <==> x in g.archives
    ensures x in f.archives && x in g.archives ==> f.archives[x] == g.archives[x]
  {
    if a :| a in d.journal && Decided(d.journal[a], phys) && x in d.journal[a].archives {
    }
  }

  lemma ArchivesUnique(d: Db, phys: Physical, f: Db, g: Db)
    requires ArchiveOutcome(d, phys, f) && ArchiveOutcome(d, phys, g)
    ensures f.archives == g.archives
  {
    forall x ensures x in f.archives <==> x in g.archives ensures x in f.archives && x in g.archives ==> f.archives[x] == g.archives[x] {
      ArchiveUnique(d, phys, f, g, x);
    }
  }

  lemma FlagUnique(d: Db, phys: Physical, f: Db, g: Db, a: AttemptId)
    requires a in d.journal && a in d.attempts && a in d.reservations
    requires StatusOutcome(d, phys, f) && StatusOutcome(d, phys, g)
    ensures f.attempts[a] == g.attempts[a] && f.reservations[a] == g.reservations[a]
  {
  }

  lemma FlagsUnique(d: Db, phys: Physical, f: Db, g: Db)
    requires d.attempts.Keys == d.journal.Keys == d.reservations.Keys
    requires JournalOutcome(d, phys, f) && JournalOutcome(d, phys, g)
    requires StatusOutcome(d, phys, f) && StatusOutcome(d, phys, g)
    ensures f.journal == g.journal && f.attempts == g.attempts && f.reservations == g.reservations
  {
    forall a <- d.journal ensures f.attempts[a] == g.attempts[a] && f.reservations[a] == g.reservations[a] {
      FlagUnique(d, phys, f, g, a);
    }
  }

  lemma OutcomeUnique(d: Db, phys: Physical, f: Db, g: Db)
    requires DurableOk(d, phys)
    requires IsOutcome(d, phys, f) && IsOutcome(d, phys, g)
    ensures f == g
  {
    forall a <- d.journal ensures d.journal[a].owner in d.objects { assert JournalOk(d, phys, a); }
    ObjectsUnique(d, phys, f, g);
    ReplicasUnique(d, phys, f, g);
    ArchivesUnique(d, phys, f, g);
    FlagsUnique(d, phys, f, g);
    ExactUnique(f.replicas, f.dedup, g.dedup);
  }

  /** Recovery is restartable: cut it off after any of its writes, start it again on what is
      then durable, and it ends with the very tables an uninterrupted run ends with. */
  lemma Restartable(d: Db, phys: Physical, cut: seq<Write>, e: Db, again: seq<Write>, f: Db, straight: seq<Write>, g: Db)
    requires DurableOk(d, phys)
    requires Run(d, phys, cut, e) && Run(e, phys, again, f) && Complete(f, phys)
    requires Run(d, phys, straight, g) && Complete(g, phys)
    ensures f == g
  {
    RunKeeps(d, phys, cut, e);
    RunReachesOutcome(e, phys, again, f);
    RunKeepsOutcome(d, phys, cut, e, f);
    RunReachesOutcome(d, phys, straight, g);
    OutcomeUnique(d, phys, f, g);
  }

  // ------------------------------------------------------------------
  // All or nothing
  // ------------------------------------------------------------------

  /** The attempt took effect completely. */
  ghost predicate FullyReclaimed(f: Db, phys: Physical, a: AttemptId, j: Journal) {
    && j.owner in f.objects && f.objects[j.owner].state == Reclaimed
    && (forall r <- f.replicas :: f.replicas[r].owner != j.owner)
    && (forall x <- f.archives :: f.archives[x].owner != j.owner)
    && Targets(j) !! phys.Keys
    && a in f.journal && f.journal[a] == j.(phase := PhaseCommitted)
    && a in f.attempts && f.attempts[a] == AttemptCommitted
    && a in f.reservations && f.reservations[a].status == ReservationCommitted
  }

  /** The object is RECLAIMED and counts nothing any more; its other fields are as in `d`. */
  predicate ClearedFrom(d: Db, f: Db, o: ObjectId) {
    && o in d.objects && o in f.objects
    && f.objects[o] == d.objects[o].(state := Reclaimed, replicationCount := 0, physicalSize := 0, compressedSize := None)
  }

  /** The object is the one from before the attempt; one the attempt had not moved is as in `d`. */
  predicate TakenBack(d: Db, f: Db, j: Journal) {
    && j.owner in d.objects && j.owner in f.objects
    && f.objects[j.owner] == if d.objects[j.owner].state == j.prior.state then d.objects[j.owner] else j.prior
  }

  /** The attempt left no trace: the object is in its prior state, every scheduled row is there,
      and so are the bytes behind every one of them. */
  ghost predicate FullyRestored(f: Db, phys: Physical, a: AttemptId, j: Journal) {
    && j.owner in f.objects && f.objects[j.owner].state == j.prior.state
    && (forall r <- j.deletions ::
          && r in f.replicas && f.replicas[r] == j.deletions[r]
          && PlaceOf(j.deletions[r]) in phys && phys[PlaceOf(j.deletions[r])] == j.deletions[r].content)
    && (forall x <- j.archives :: x in f.archives && f.archives[x] == j.archives[x] && VaultOf(j.archives[x]) in phys)
    && a in f.journal && f.journal[a] == j.(phase := PhaseRolledBack)
    && a in f.attempts && f.attempts[a] == AttemptRolledBack
    && a in f.reservations && f.reservations[a].status == ReservationReleased
  }

  /** The attempt is left open for an operator: some planned bytes are gone and some are not. */
  ghost predicate LeftOpen(f: Db, phys: Physical, a: AttemptId, j: Journal) {
    && a in f.journal && f.journal[a] == j && j.phase == PhysicalStarted
    && (exists l :: l in Targets(j) && l in phys)
    && (exists l :: l in Targets(j) && l !in phys)
    && (forall r <- j.deletions :: r in f.replicas && f.replicas[r] == j.deletions[r])
    && (forall x <- j.archives :: x in f.archives && f.archives[x] == j.archives[x])
  }

  /** The excuse of a missing row of an open attempt's object is that attempt. */
  lemma OwnExcuse(journal: map<AttemptId, Journal>, a: AttemptId, place: Loc)
    requires OneOpen(journal) && a in journal && Unfinished(journal[a].phase)
    requires Excused(journal, journal[a].owner, place)
    ensures IsPhysical(journal[a].phase) && place in Targets(journal[a])
  {
  }

  /** Rows of an undone attempt have their bytes: missing ones would be targets, and the
      targets of an undone attempt are all present. */
  lemma UndoneBytes(d: Db, phys: Physical, a: AttemptId)
    requires RowsOk(d, phys) && OneOpen(d.journal) && Faithful(phys)
    requires a in d.journal && JournalOk(d, phys, a) && Decide(d.journal[a], phys).RollBack?
    ensures forall r <- d.journal[a].deletions :: PlaceOf(d.journal[a].deletions[r]) in phys
    ensures forall r <- d.journal[a].deletions :: phys[PlaceOf(d.journal[a].deletions[r])] == d.journal[a].deletions[r].content
    ensures forall x <- d.journal[a].archives :: VaultOf(d.journal[a].archives[x]) in phys
  {
    var j := d.journal[a];
    forall r <- j.deletions ensures PlaceOf(j.deletions[r]) in phys && phys[PlaceOf(j.deletions[r])] == j.deletions[r].content {
      UndoneRow(d, phys, a, r);
    }
    forall x <- j.archives ensures VaultOf(j.archives[x]) in phys { UndoneVault(d, phys, a, x); }
  }

  lemma UndoneTargets(j: Journal, phys: Physical)
    requires Decide(j, phys).RollBack?
    ensures IsPhysical(j.phase) ==> Targets(j) <= phys.Keys
  {
  }

  lemma UndoneRow(d: Db, phys: Physical, a: AttemptId, r: ReplicaId)
    requires RowsOk(d, phys) && OneOpen(d.journal) && Faithful(phys)
    requires a in d.journal && JournalOk(d, phys, a) && Decide(d.journal[a], phys).RollBack? && r in d.journal[a].deletions
    ensures PlaceOf(d.journal[a].deletions[r]) in phys && phys[PlaceOf(d.journal[a].deletions[r])] == d.journal[a].deletions[r].content
  {
    var j := d.journal[a];
    assert d.replicas[r] == j.deletions[r] && ReplicaOk(d, phys, d.replicas[r]);
    UndoneTargets(j, phys);
    if Excused(d.journal, j.owner, PlaceOf(j.deletions[r])) { OwnExcuse(d.journal, a, PlaceOf(j.deletions[r])); }
  }

  lemma UndoneVault(d: Db, phys: Physical, a: AttemptId, x: ArchiveId)
    requires RowsOk(d, phys) && OneOpen(d.journal)
    requires a in d.journal && JournalOk(d, phys, a) && Decide(d.journal[a], phys).RollBack? && x in d.journal[a].archives
    ensures VaultOf(d.journal[a].archives[x]) in phys
  {
    var j := d.journal[a];
    assert d.archives[x] == j.archives[x] && ArchiveOk(d, phys, d.archives[x]);
    UndoneTargets(j, phys);
    if Excused(d.journal, j.owner, VaultOf(j.archives[x])) { OwnExcuse(d.journal, a, VaultOf(j.archives[x])); }
  }

  lemma UndoneFlags(d: Db, phys: Physical, f: Db, a: AttemptId)
    requires JournalOutcome(d, phys, f) && StatusOutcome(d, phys, f) && ObjectOutcome(d, phys, f)
    requires a in d.journal && JournalOk(d, phys, a) && Decide(d.journal[a], phys).RollBack?
    ensures d.journal[a].owner in f.objects && f.objects[d.journal[a].owner].state == d.journal[a].prior.state
    ensures a in f.journal && f.journal[a] == d.journal[a].(phase := PhaseRolledBack)
    ensures a in f.attempts && f.attempts[a] == AttemptRolledBack
    ensures a in f.reservations && f.reservations[a].status == ReservationReleased
  {
  }

  /** What recovery makes of the object of an attempt, field by field, and of every other object. */
  lemma OutcomeObjects(d: Db, phys: Physical, f: Db, a: AttemptId)
    requires ObjectOutcome(d, phys, f)
    requires a in d.journal && JournalOk(d, phys, a)
    ensures Decide(d.journal[a], phys).Commit? ==> ClearedFrom(d, f, d.journal[a].owner)
    ensures Decide(d.journal[a], phys).RollBack? ==> TakenBack(d, f, d.journal[a])
    ensures f.objects.Keys == d.objects.Keys
    ensures forall o <- d.objects :: f.objects[o] != d.objects[o] ==> exists b :: b in d.journal && Decided(d.journal[b], phys) && d.journal[b].owner == o
  {
  }

  lemma UndoneRestored(d: Db, phys: Physical, f: Db, a: AttemptId)
    requires DurableOk(d, phys) && IsOutcome(d, phys, f)
    requires a in d.journal && JournalOk(d, phys, a) && Decide(d.journal[a], phys).RollBack?
    ensures FullyRestored(f, phys, a, d.journal[a])
  {
    UndoneBytes(d, phys, a);
    UndoneFlags(d, phys, f, a);
  }

  lemma CommittedRow(d: Db, phys: Physical, f: Db, a: AttemptId, r: ReplicaId)
    requires JournalsOk(d, phys) && OneOpen(d.journal) && ReplicaOutcome(d, phys, f)
    requires a in d.journal && JournalOk(d, phys, a) && Decide(d.journal[a], phys).Commit? && r in f.replicas
    ensures f.replicas[r].owner != d.journal[a].owner
  {
    if b :| b in d.journal && Decided(d.journal[b], phys) && r in d.journal[b].deletions {
      assert JournalOk(d, phys, b);
    }
  }

  lemma CommittedVault(d: Db, phys: Physical, f: Db, a: AttemptId, x: ArchiveId)
    requires JournalsOk(d, phys) && OneOpen(d.journal) && ArchiveOutcome(d, phys, f)
    requires a in d.journal && JournalOk(d, phys, a) && Decide(d.journal[a], phys).Commit? && x in f.archives
    ensures f.archives[x].owner != d.journal[a].owner
  {
    if b :| b in d.journal && Decided(d.journal[b], phys) && x in d.journal[b].archives {
      assert JournalOk(d, phys, b) && b != a;
      UndoneVaultOwner(d, phys, a, b, x);
    } else {
      assert x in d.archives && f.archives[x] == d.archives[x];
    }
  }

  lemma UndoneVaultOwner(d: Db, phys: Physical, a: AttemptId, b: AttemptId, x: ArchiveId)
    requires OneOpen(d.journal) && a in d.journal && b in d.journal && a != b && x in d.journal[b].archives
    requires Decided(d.journal[a], phys) && Decided(d.journal[b], phys) && Shaped(d.journal[b])
    ensures d.journal[b].archives[x].owner != d.journal[a].owner
  {
  }

  /** No row of a committed attempt's object is outside its schedule. */
  lemma CommittedRows(d: Db, phys: Physical, f: Db, a: AttemptId)
    requires JournalsOk(d, phys) && OneOpen(d.journal)
    requires ReplicaOutcome(d, phys, f) && ArchiveOutcome(d, phys, f)
    requires a in d.journal && JournalOk(d, phys, a) && Decide(d.journal[a], phys).Commit?
    ensures forall r <- f.replicas :: f.replicas[r].owner != d.journal[a].owner
    ensures forall x <- f.archives :: f.archives[x].owner != d.journal[a].owner
  {
    forall r <- f.replicas ensures f.replicas[r].owner != d.journal[a].owner { CommittedRow(d, phys, f, a, r); }
    forall x <- f.archives ensures f.archives[x].owner != d.journal[a].owner { CommittedVault(d, phys, f, a, x); }
  }

  lemma CommittedGone(j: Journal, phys: Physical)
    requires Decide(j, phys).Commit?
    ensures Targets(j) !! phys.Keys
  {
  }

  lemma CommittedFlags(d: Db, phys: Physical, f: Db, a: AttemptId)
    requires JournalOutcome(d, phys, f) && StatusOutcome(d, phys, f) && ObjectOutcome(d, phys, f)
    requires a in d.journal && JournalOk(d, phys, a) && Decide(d.journal[a], phys).Commit?
    ensures d.journal[a].owner in f.objects && f.objects[d.journal[a].owner].state == Reclaimed
    ensures a in f.journal && f.journal[a] == d.journal[a].(phase := PhaseCommitted)
    ensures a in f.attempts && f.attempts[a] == AttemptCommitted
    ensures a in f.reservations && f.reservations[a].status == ReservationCommitted
  {
  }

  lemma CommittedReclaimed(d: Db, phys: Physical, f: Db, a: AttemptId)
    requires JournalsOk(d, phys) && OneOpen(d.journal) && IsOutcome(d, phys, f)
    requires a in d.journal && JournalOk(d, phys, a) && Decide(d.journal[a], phys).Commit?
    ensures FullyReclaimed(f, phys, a, d.journal[a])
  {
    CommittedRows(d, phys, f, a);
    CommittedGone(d.journal[a], phys);
    CommittedFlags(d, phys, f, a);
  }

  lemma StuckMixed(j: Journal, phys: Physical)
    requires Decide(j, phys).Stuck? && j.phase == PhysicalStarted && j.plan.Some?
    ensures exists l :: l in Targets(j) && l in phys
    ensures exists l :: l in Targets(j) && l !in phys
  {
    assert !(Targets(j) !! phys.Keys) && !(Targets(j) <= phys.Keys);
    var l :| l in Targets(j) && l in phys.Keys;
    var m :| m in Targets(j) && m !in phys.Keys;
  }

  lemma StuckRows(d: Db, phys: Physical, f: Db, a: AttemptId)
    requires OneOpen(d.journal) && ReplicaOutcome(d, phys, f)
    requires a in d.journal && JournalOk(d, phys, a) && Decide(d.journal[a], phys).Stuck?
    ensures forall r <- d.journal[a].deletions :: r in f.replicas && f.replicas[r] == d.journal[a].deletions[r]
  {
    assert forall b <- d.journal :: Decided(d.journal[b], phys) ==> d.journal[a].deletions.Keys !! d.journal[b].deletions.Keys;
  }

  lemma StuckVaults(d: Db, phys: Physical, f: Db, a: AttemptId)
    requires OneOpen(d.journal) && ArchiveOutcome(d, phys, f)
    requires a in d.journal && JournalOk(d, phys, a) && Decide(d.journal[a], phys).Stuck?
    ensures forall x <- d.journal[a].archives :: x in f.archives && f.archives[x] == d.journal[a].archives[x]
  {
    assert forall b <- d.journal :: Decided(d.journal[b], phys) ==> d.journal[a].archives.Keys !! d.journal[b].archives.Keys;
  }

  lemma StuckLeftOpen(d: Db, phys: Physical, f: Db, a: AttemptId)
    requires OneOpen(d.journal) && IsOutcome(d, phys, f)
    requires a in d.journal && JournalOk(d, phys, a) && Decide(d.journal[a], phys).Stuck?
    ensures LeftOpen(f, phys, a, d.journal[a])
  {
    var j := d.journal[a];
    StuckMixed(j, phys);
    StuckRows(d, phys, f, a);
    StuckVaults(d, phys, f, a);
  }

  /** Crash atomicity of recovery: whatever crash state it starts from, every open attempt ends
      fully reclaimed or fully restored; the only other end is a reported, open attempt whose
      deletions were executed in part. */
  lemma AllOrNothing(d: Db, phys: Physical, f: Db, a: AttemptId)
    requires DurableOk(d, phys) && IsOutcome(d, phys, f)
    requires a in d.journal && Unfinished(d.journal[a].phase)
    ensures match Decide(d.journal[a], phys)
            case Commit => FullyReclaimed(f, phys, a, d.journal[a]) && ClearedFrom(d, f, d.journal[a].owner)
            case RollBack => FullyRestored(f, phys, a, d.journal[a]) && TakenBack(d, f, d.journal[a])
            case Stuck => LeftOpen(f, phys, a, d.journal[a])
            case Settled => false
  {
    assert JournalOk(d, phys, a);
    OutcomeObjects(d, phys, f, a);
    match Decide(d.journal[a], phys)
    case Commit => CommittedReclaimed(d, phys, f, a);
    case RollBack => UndoneRestored(d, phys, f, a);
    case Stuck => StuckLeftOpen(d, phys, f, a);
    case Settled =>
  }
}
