/** What no run takes away: rows leave the tables only by the hand of their own object's operation, and
    objects of a class that needs copies keep every copy they ever had. */
module Survival {
  import opened Fabric
  import opened Durable
  import opened RecoveryWrites
  import opened Protocol
  import opened Invariant
  import opened Locality
  import opened ReclaimSteps
  import opened OtherSteps
  import opened Safety

  // ------------------------------------------------------------------
  // How rows leave the tables
  // ------------------------------------------------------------------

  /** All rows but `gone` and all archive rows but `lost` are still there, as they were. */
  ghost predicate Taken(d: Db, e: Db, gone: set<ReplicaId>, lost: set<ArchiveId>) {
    && (forall r <- d.replicas :: r !in gone ==> r in e.replicas && e.replicas[r] == d.replicas[r])
    && (forall x <- d.archives :: x !in lost ==> x in e.archives && e.archives[x] == d.archives[x])
  }

  function RowsGone(k: Step): (gone: set<ReplicaId>) {
    match k
    case DropMade(_, r) => {r}
    case DropRow(_, r) => {r}
    case Recovery(DropReplica(_, r)) => {r}
    case _ => {}
  }

  function VaultsLost(k: Step): (lost: set<ArchiveId>) {
    match k
    case DropVault(_, x) => {x}
    case Recovery(DropArchive(_, x)) => {x}
    case _ => {}
  }

  lemma CreateTakes(s: State, k: Step)
    requires CreateEnabled(s, k)
    ensures Taken(s.db, CreateApply(s, k).db, RowsGone(k), VaultsLost(k))
  {
    if k.Publish? { }
    else if CreatePayload(k) { PayloadTakes(s, k); }
    else { CreateObjects(s, k); }
  }

  lemma PayloadTakes(s: State, k: Step)
    requires CreateEnabled(s, k) && CreatePayload(k)
    ensures Taken(s.db, CreateApply(s, k).db, RowsGone(k), VaultsLost(k))
  {
  }

  lemma ReclaimTakes(s: State, k: Step)
    requires ReclaimEnabled(s, k)
    ensures Taken(s.db, ReclaimApply(s, k).db, RowsGone(k), VaultsLost(k))
  {
    if WritesJournal(k) { JournalTakes(s, k); }
    else if WritesRows(k) { RowsTake(s, k); }
  }

  lemma JournalTakes(s: State, k: Step)
    requires ReclaimEnabled(s, k) && WritesJournal(k)
    ensures ReclaimApply(s, k).db.replicas == s.db.replicas && ReclaimApply(s, k).db.archives == s.db.archives
  {
    if k.AbortWrite? { AbortTakes(s, k.o); } else if k.CloseWrite? { CloseTakes(s, k.o); }
  }

  lemma AbortTakes(s: State, o: ObjectId)
    requires CanAbortWrite(s, o)
    ensures DoAbortWrite(s, o).db.replicas == s.db.replicas && DoAbortWrite(s, o).db.archives == s.db.archives
  {
  }

  lemma CloseTakes(s: State, o: ObjectId)
    requires CanCloseWrite(s, o)
    ensures DoCloseWrite(s, o).db.replicas == s.db.replicas && DoCloseWrite(s, o).db.archives == s.db.archives
  {
  }

  lemma RowsTake(s: State, k: Step)
    requires ReclaimEnabled(s, k) && WritesRows(k)
    ensures Taken(s.db, ReclaimApply(s, k).db, RowsGone(k), VaultsLost(k))
  {
  }

  lemma WriteTakes(d: Db, phys: Physical, w: Write)
    requires Enabled(d, phys, w)
    ensures Taken(d, Apply(d, phys, w), RowsGone(Recovery(w)), VaultsLost(Recovery(w)))
  {
  }

  lemma OtherTakes(s: State, k: Step)
    requires OtherEnabled(s, k)
    ensures Taken(s.db, OtherApply(s, k).db, RowsGone(k), VaultsLost(k))
  {
    if k.Recovery? { WriteTakes(s.db, s.phys, k.w); } else { ServingTakes(s, k); }
  }

  lemma ServingTakes(s: State, k: Step)
    requires OtherEnabled(s, k) && !k.Recovery?
    ensures OtherApply(s, k).db == s.db || k.SetFlags?
    ensures OtherApply(s, k).db.replicas == s.db.replicas && OtherApply(s, k).db.archives == s.db.archives
  {
  }

  // ------------------------------------------------------------------
  // Objects that need copies
  // ------------------------------------------------------------------

  /** `o` is of a class that must keep valid copies. */
  predicate NeedsCopies(d: Db, o: ObjectId) {
    o in d.objects && d.objects[o].durability in {Durability.Durable, Critical}
  }

  /** No operation and no journal row is about an object that needs copies, except flags and edges. */
  lemma Untouched(s: State, o: ObjectId)
    requires Inv(s) && NeedsCopies(s.db, o)
    ensures forall a <- s.db.journal :: s.db.journal[a].owner != o
    ensures Live(s.mode) ==> o !in s.procs
  {
    forall a <- s.db.journal ensures s.db.journal[a].owner != o { assert JournalOk(s.db, s.phys, a); }
    if Live(s.mode) && o in s.procs {
      assert ProcOk(s, o);
      RunsExpendable(s, o);
    }
  }

  lemma RunsExpendable(s: State, o: ObjectId)
    requires o in s.procs && ProcOk(s, o) && o in s.db.objects
    ensures s.procs[o].Reclaim? && Expendable(s.db.objects[o])
  {
  }

  /** Its row, its flags apart. */
  predicate SameButFlags(d: Db, e: Db, o: ObjectId) {
    && o in d.objects && o in e.objects
    && e.objects[o] == d.objects[o].(pinned := e.objects[o].pinned, protected := e.objects[o].protected)
  }

  /** `o` is the same but for its flags, and has all its rows. */
  ghost predicate Spared(d: Db, e: Db, o: ObjectId) {
    && SameButFlags(d, e, o)
    && (forall r <- d.replicas :: d.replicas[r].owner == o ==> r in e.replicas && e.replicas[r] == d.replicas[r])
    && (forall x <- d.archives :: d.archives[x].owner == o ==> x in e.archives && e.archives[x] == d.archives[x])
  }

  /** What is taken is not the object's. */
  ghost predicate Elsewhere(d: Db, o: ObjectId, gone: set<ReplicaId>, lost: set<ArchiveId>) {
    && (forall r <- gone :: r in d.replicas ==> d.replicas[r].owner != o)
    && (forall x <- lost :: x in d.archives ==> d.archives[x].owner != o)
  }

  lemma SparedFrom(d: Db, e: Db, o: ObjectId, gone: set<ReplicaId>, lost: set<ArchiveId>)
    requires SameButFlags(d, e, o) && Taken(d, e, gone, lost) && Elsewhere(d, o, gone, lost)
    ensures Spared(d, e, o)
  {
  }

  lemma CreateSame(s: State, k: Step, o: ObjectId)
    requires CreateEnabled(s, k) && o in s.db.objects
    ensures SameButFlags(s.db, CreateApply(s, k).db, o)
  {
    if k.Publish? { }
    else if CreatePayload(k) { PayloadAdvances(s, k); }
    else { CreateObjects(s, k); }
  }

  lemma MadeElsewhere(s: State, o: ObjectId, q: ObjectId, r: ReplicaId)
    requires CanDropMade(s, q, r) && ProcOk(s, q) && o in s.db.objects
    ensures Elsewhere(s.db, o, {r}, {})
  {
  }

  lemma CreateSpares(s: State, k: Step, o: ObjectId)
    requires ProcsOk(s) && CreateEnabled(s, k) && o in s.db.objects
    ensures Spared(s.db, CreateApply(s, k).db, o)
  {
    CreateTakes(s, k);
    CreateSame(s, k, o);
    if k.DropMade? { MadeElsewhere(s, o, k.o, k.r); }
    SparedFrom(s.db, CreateApply(s, k).db, o, RowsGone(k), VaultsLost(k));
  }

  /** A reclaim writes the row of its own object only. */
  lemma ReclaimSame(s: State, k: Step, o: ObjectId)
    requires ProcsOk(s) && ReclaimEnabled(s, k) && o in s.db.objects && (o in s.procs ==> o != k.o)
    ensures SameButFlags(s.db, ReclaimApply(s, k).db, o)
  {
    if WritesObject(k) {
      RunsOk(s, k.o);
      ObjectsTouched(s, k);
    } else {
      ObjectsUntouched(s, k);
    }
  }

  /** A row a reclaim drops is one of its object. */
  lemma DroppedOwn(s: State, q: ObjectId, o: ObjectId)
    requires Journaled(s, q) && JournalOk(s.db, s.phys, s.procs[q].attempt) && ReclaimOk(s, q, s.procs[q]) && s.procs[q].pc.Dropping?
    requires o != q
    ensures Elsewhere(s.db, o, s.procs[q].rows.Keys, s.procs[q].vaults.Keys)
  {
  }

  lemma DropsElsewhere(s: State, k: Step, o: ObjectId)
    requires ProcsOk(s) && JournalsOk(s.db, s.phys) && ReclaimEnabled(s, k) && o !in s.procs
    ensures Elsewhere(s.db, o, RowsGone(k), VaultsLost(k))
  {
    if k.DropRow? || k.DropVault? {
      RunsOk(s, k.o);
      assert JournalOk(s.db, s.phys, s.procs[k.o].attempt);
      DroppedOwn(s, k.o, o);
    }
  }

  lemma ReclaimSpares(s: State, k: Step, o: ObjectId)
    requires ProcsOk(s) && JournalsOk(s.db, s.phys) && ReclaimEnabled(s, k) && o in s.db.objects && o !in s.procs
    ensures Spared(s.db, ReclaimApply(s, k).db, o)
  {
    ReclaimTakes(s, k);
    ReclaimSame(s, k, o);
    DropsElsewhere(s, k, o);
    SparedFrom(s.db, ReclaimApply(s, k).db, o, RowsGone(k), VaultsLost(k));
  }

  lemma WriteSpares(d: Db, phys: Physical, w: Write, o: ObjectId)
    requires JournalsOk(d, phys) && Enabled(d, phys, w) && o in d.objects && forall a <- d.journal :: d.journal[a].owner != o
    ensures Spared(d, Apply(d, phys, w), o)
  {
    WriteTakes(d, phys, w);
    if !w.SyncDedup? { assert JournalOk(d, phys, w.attempt); }
    if w.DropReplica? || w.DropArchive? { TakenElsewhere(d, phys, w.attempt, o); }
    if !w.RestoreObject? && !w.MarkReclaimed? { RecoveryObjects(d, phys, w); }
    SparedFrom(d, Apply(d, phys, w), o, RowsGone(Recovery(w)), VaultsLost(Recovery(w)));
  }

  lemma TakenElsewhere(d: Db, phys: Physical, a: AttemptId, o: ObjectId)
    requires a in d.journal && JournalOk(d, phys, a) && Decided(d.journal[a], phys) && d.journal[a].owner != o
    ensures Elsewhere(d, o, d.journal[a].deletions.Keys, d.journal[a].archives.Keys)
  {
  }

  lemma OtherSpares(s: State, k: Step, o: ObjectId)
    requires JournalsOk(s.db, s.phys) && OtherEnabled(s, k) && o in s.db.objects && forall a <- s.db.journal :: s.db.journal[a].owner != o
    ensures Spared(s.db, OtherApply(s, k).db, o)
  {
    if k.Recovery? { WriteSpares(s.db, s.phys, k.w, o); } else { ServingTakes(s, k); }
  }

  lemma StepSpares(s: State, k: Step, o: ObjectId)
    requires Inv(s) && CanStep(s, k) && NeedsCopies(s.db, o)
    ensures Spared(s.db, Next(s, k).db, o)
  {
    Untouched(s, o);
    InvProcs(s);
    if CreateEnabled(s, k) { CreateSpares(s, k, o); }
    else if ReclaimEnabled(s, k) { ReclaimSpares(s, k, o); }
    else { OtherSpares(s, k, o); }
  }

  /** Every row and archive of such an object has its bytes. */
  ghost predicate Readable(s: State, o: ObjectId) {
    && (forall r <- s.db.replicas :: s.db.replicas[r].owner == o ==>
          PlaceOf(s.db.replicas[r]) in s.phys && s.phys[PlaceOf(s.db.replicas[r])] == s.db.replicas[r].content)
    && (forall x <- s.db.archives :: s.db.archives[x].owner == o ==> VaultOf(s.db.archives[x]) in s.phys)
  }

  lemma CopiesReadable(s: State, o: ObjectId)
    requires Inv(s) && NeedsCopies(s.db, o)
    ensures Readable(s, o)
  {
    Untouched(s, o);
    forall r <- s.db.replicas ensures ReplicaOk(s.db, s.phys, s.db.replicas[r]) {}
    forall x <- s.db.archives ensures ArchiveOk(s.db, s.phys, s.db.archives[x]) {}
  }

  lemma SparedTwice(d: Db, e: Db, f: Db, o: ObjectId)
    requires Spared(d, e, o) && Spared(e, f, o)
    ensures Spared(d, f, o)
  {
  }

  /** Durability. Over every run, with creates and reclaims of other objects, crashes, restarts and
      recoveries anywhere, an object whose class needs copies stays what it is but for its flags, and
      keeps every replica and archive row it has, each with its bytes. */
  lemma {:induction false} CopiesKept(s: State, ks: seq<Step>, t: State, o: ObjectId)
    requires Inv(s) && Execution(s, ks, t) && NeedsCopies(s.db, o)
    ensures Spared(s.db, t.db, o) && Readable(t, o)
    decreases |ks|
  {
    if ks == [] {
      CopiesReadable(t, o);
    } else {
      StepKeeps(s, ks[0]);
      StepSpares(s, ks[0], o);
      CopiesKept(Next(s, ks[0]), ks[1..], t, o);
      SparedTwice(s.db, Next(s, ks[0]).db, t.db, o);
    }
  }
}
