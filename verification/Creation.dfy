/** What a create has stored when it publishes its object: one valid row with its bytes on each of the
    backends it was asked for, and the counts of the object to match. */
module Creation {
  import opened Fabric
  import opened Durable
  import opened RecoveryWrites
  import opened Protocol
  import opened Invariant
  import opened Locality
  import opened CreateSteps
  import opened ReclaimSteps
  import opened OtherSteps
  import opened Safety
  import opened Survival

  /** The create has not given up. */
  predicate Going(at: CreatePc) {
    at.Waiting? || at.Storing? || at.Written? || at.Counted? || at.Stored?
  }

  /** The backend it is busy with. */
  function InFlight(at: CreatePc): (some: set<Backend>) {
    match at
    case Written(b, _) => {b}
    case Counted(b, _) => {b}
    case _ => {}
  }

  /** The object asked for, and on how many backends. */
  predicate Asked(p: Proc)
    requires p.Create?
  {
    && (p.targets == {} ==> p.blank.state == Created)
    && (p.targets != {} ==> p.blank.state == Hot && p.blank.physicalSize == p.content.length && p.blank.replicationCount == |p.targets|)
    && |p.targets| >= MinValidCopies(p.blank.durability)
  }

  function Finished(p: Proc): (some: set<Backend>)
    requires p.Create?
  {
    p.targets - p.todo - InFlight(p.at)
  }

  /** The rows made so far are valid, one on each backend that is neither to do nor in hand. */
  ghost predicate Placed(p: Proc, m: map<ReplicaId, Replica>)
    requires p.Create?
  {
    && Asked(p)
    && (Going(p.at) ==>
          && p.todo <= p.targets && InFlight(p.at) <= p.targets - p.todo
          && |p.made| == |Finished(p)|
          && OneOn(p.made, m, Finished(p)))
  }

  ghost predicate AllPlaced(s: State) {
    forall o <- s.procs :: s.procs[o].Create? ==> Placed(s.procs[o], s.db.replicas)
  }

  // ------------------------------------------------------------------
  // The steps of the create itself
  // ------------------------------------------------------------------

  lemma BeginPlaced(s: State, o: ObjectId, content: Content, blank: Object, targets: set<Backend>)
    requires CanBeginCreate(s, o, content, blank, targets)
    ensures var t := DoBeginCreate(s, o, content, blank, targets); Placed(t.procs[o], t.db.replicas)
  {
    assert targets - targets - {} == {};
  }

  lemma LockPlaced(s: State, o: ObjectId)
    requires CanLockCreate(s, o) && Placed(s.procs[o], s.db.replicas)
    ensures var t := DoLockCreate(s, o); Placed(t.procs[o], t.db.replicas)
  {
    var p, q := s.procs[o], DoLockCreate(s, o).procs[o];
    if Going(q.at) { assert Finished(q) == Finished(p); }
  }

  /** A backend taken up is in hand and not to do, so nothing is finished yet. */
  lemma TakenUp(p: Proc, q: Proc, b: Backend, m: map<ReplicaId, Replica>)
    requires p.Create? && q.Create? && p.at.Storing? && b in p.todo && Placed(p, m)
    requires q == p.(at := q.at, todo := p.todo - {b}) && InFlight(q.at) == {b}
    ensures Placed(q, m)
  {
    assert Finished(q) == Finished(p);
  }

  /** The dedup row is written: still the same backend in hand. */
  lemma StillInHand(p: Proc, q: Proc, m: map<ReplicaId, Replica>)
    requires p.Create? && q.Create? && Placed(p, m) && q == p.(at := q.at, held := q.held) && (Going(p.at) <== Going(q.at)) && InFlight(q.at) == InFlight(p.at)
    ensures Placed(q, m)
  {
    if Going(q.at) { assert Finished(q) == Finished(p); }
  }

  lemma FinishedMore(p: Proc, q: Proc, r: ReplicaId)
    requires p.Create? && p.at.Counted? && InFlight(p.at) <= p.targets - p.todo
    requires q == p.(at := Storing, made := p.made + {r})
    ensures Finished(q) == Finished(p) + {p.at.backend} && p.at.backend !in Finished(p)
    ensures |Finished(q)| == |Finished(p)| + 1
  {
    assert Finished(q) == Finished(p) + {p.at.backend};
  }

  lemma RowPlaced(p: Proc, q: Proc, m: map<ReplicaId, Replica>, r: ReplicaId, row: Replica)
    requires p.Create? && p.at.Counted? && Placed(p, m) && r !in m && row.valid && row.backend == p.at.backend
    requires q == p.(at := Storing, made := p.made + {r})
    ensures Placed(q, m[r := row])
  {
    FinishedMore(p, q, r);
    RowOneEach(p.made, m, Finished(p), r, row);
    assert r !in p.made;
    StillPlaced(q, m[r := row]);
  }

  lemma StillPlaced(q: Proc, n: map<ReplicaId, Replica>)
    requires q.Create? && Asked(q) && q.todo <= q.targets && InFlight(q.at) <= q.targets - q.todo
    requires |q.made| == |Finished(q)| && OneOn(q.made, n, Finished(q))
    ensures Placed(q, n)
  {
  }

  /** Rows, one on each of some backends. */
  ghost predicate OneOn(made: set<ReplicaId>, m: map<ReplicaId, Replica>, some: set<Backend>) {
    && (forall r <- made :: r in m && m[r].valid && m[r].backend in some)
    && (forall q <- made, r <- made :: q in m && r in m && m[q].backend == m[r].backend ==> q == r)
    && (forall b <- some :: exists r :: r in made && r in m && m[r].backend == b)
  }

  lemma RowOneEach(made: set<ReplicaId>, m: map<ReplicaId, Replica>, some: set<Backend>, r: ReplicaId, row: Replica)
    requires OneOn(made, m, some) && r !in m && row.valid && row.backend !in some
    ensures OneOn(made + {r}, m[r := row], some + {row.backend})
  {
    var n := m[r := row];
    forall b <- some + {row.backend} ensures exists x :: x in made + {r} && x in n && n[x].backend == b {
      if b == row.backend {
        assert n[r].backend == b;
      } else {
        var x :| x in made && x in m && m[x].backend == b;
        assert n[x].backend == b;
      }
    }
  }

  /** A create that has given up still remembers what it was asked for. */
  lemma GivenUp(p: Proc, q: Proc, m: map<ReplicaId, Replica>)
    requires p.Create? && q.Create? && Asked(p) && SameRequest(p, q) && !Going(q.at)
    ensures Placed(q, m)
  {
  }

  predicate SameRequest(p: Proc, q: Proc) {
    p.Create? && q.Create? && q.content == p.content && q.blank == p.blank && q.targets == p.targets
  }

  lemma GivesUp(s: State, o: ObjectId)
    requires CanGiveUp(s, o)
    ensures SameRequest(s.procs[o], DoGiveUp(s, o).procs[o]) && !Going(DoGiveUp(s, o).procs[o].at)
  {
  }

  lemma Cleans(s: State, k: Step)
    requires CreateEnabled(s, k) && (k.DropMade? || k.ReleaseMade? || k.Sweep?)
    ensures SameRequest(s.procs[k.o], CreateApply(s, k).procs[k.o]) && !Going(CreateApply(s, k).procs[k.o].at)
  {
  }

  lemma AddRowPlaced(s: State, o: ObjectId, r: ReplicaId)
    requires CanAddRow(s, o, r) && Placed(s.procs[o], s.db.replicas)
    ensures var t := DoAddRow(s, o, r); Placed(t.procs[o], t.db.replicas)
  {
    var t := DoAddRow(s, o, r);
    RowPlaced(s.procs[o], t.procs[o], s.db.replicas, r, t.db.replicas[r]);
  }

  lemma CountPlaced(s: State, o: ObjectId, b: Backend)
    requires CanCountExisting(s, o, b) && Placed(s.procs[o], s.db.replicas)
    ensures var t := DoCountExisting(s, o, b); Placed(t.procs[o], t.db.replicas)
  {
    TakenUp(s.procs[o], DoCountExisting(s, o, b).procs[o], b, s.db.replicas);
  }

  lemma PutPlaced(s: State, o: ObjectId, b: Backend, suffix: nat)
    requires CanPutPayload(s, o, b, suffix) && Placed(s.procs[o], s.db.replicas)
    ensures var t := DoPutPayload(s, o, b, suffix); Placed(t.procs[o], t.db.replicas)
  {
    TakenUp(s.procs[o], DoPutPayload(s, o, b, suffix).procs[o], b, s.db.replicas);
  }

  lemma InsertPlaced(s: State, o: ObjectId)
    requires CanInsertEntry(s, o) && Placed(s.procs[o], s.db.replicas)
    ensures var t := DoInsertEntry(s, o); Placed(t.procs[o], t.db.replicas)
  {
    StillInHand(s.procs[o], DoInsertEntry(s, o).procs[o], s.db.replicas);
  }

  lemma StoringPlaced(s: State, k: Step)
    requires CreateEnabled(s, k) && (k.CountExisting? || k.PutPayload? || k.InsertEntry? || k.AddRow?) && Placed(s.procs[k.o], s.db.replicas)
    ensures var t := CreateApply(s, k); Placed(t.procs[k.o], t.db.replicas)
  {
    match k
    case CountExisting(o, b) => CountPlaced(s, o, b);
    case PutPayload(o, b, suffix) => PutPlaced(s, o, b, suffix);
    case InsertEntry(o) => InsertPlaced(s, o);
    case AddRow(o, r) => AddRowPlaced(s, o, r);
  }

  lemma CleaningPlaced(s: State, k: Step)
    requires CreateEnabled(s, k) && (k.DropMade? || k.ReleaseMade? || k.Sweep?) && Placed(s.procs[k.o], s.db.replicas)
    ensures var t := CreateApply(s, k); Placed(t.procs[k.o], t.db.replicas)
  {
    Cleans(s, k);
    GivenUp(s.procs[k.o], CreateApply(s, k).procs[k.o], CreateApply(s, k).db.replicas);
  }

  lemma OwnPlaced(s: State, k: Step)
    requires CreateEnabled(s, k) && (k.o in s.procs && s.procs[k.o].Create? ==> Placed(s.procs[k.o], s.db.replicas))
    ensures var t := CreateApply(s, k); k.o in t.procs ==> t.procs[k.o].Create? && Placed(t.procs[k.o], t.db.replicas)
  {
    if k.BeginCreate? { BeginPlaced(s, k.o, k.content, k.blank, k.targets); }
    else if k.LockCreate? { LockPlaced(s, k.o); }
    else if k.UnlockCreate? { StillInHand(s.procs[k.o], DoUnlockCreate(s, k.o).procs[k.o], s.db.replicas); }
    else if k.GiveUp? {
      GivesUp(s, k.o);
      GivenUp(s.procs[k.o], DoGiveUp(s, k.o).procs[k.o], s.db.replicas);
    }
    else if k.CountExisting? || k.PutPayload? || k.InsertEntry? || k.AddRow? { StoringPlaced(s, k); }
    else if k.DropMade? || k.ReleaseMade? || k.Sweep? { CleaningPlaced(s, k); }
    else { assert k.Publish? || k.EndCreate?; }
  }

  // ------------------------------------------------------------------
  // The steps of others
  // ------------------------------------------------------------------

  lemma CreateProcs(s: State, k: Step)
    requires CreateEnabled(s, k)
    ensures SameProcs(s.procs, CreateApply(s, k).procs, k.o)
  {
    if CreatePayload(k) { PayloadProcs(s, k); }
  }

  lemma PayloadProcs(s: State, k: Step)
    requires CreateEnabled(s, k) && CreatePayload(k)
    ensures SameProcs(s.procs, CreateApply(s, k).procs, k.o)
  {
  }

  lemma ReclaimProcs(s: State, k: Step)
    requires ReclaimEnabled(s, k)
    ensures SameProcs(s.procs, ReclaimApply(s, k).procs, k.o)
    ensures k.o in ReclaimApply(s, k).procs ==> ReclaimApply(s, k).procs[k.o].Reclaim?
  {
    if k.AbortWrite? { AbortProcs(s, k.o); }
    else if k.CloseWrite? { CloseProcs(s, k.o); }
    else if WritesJournal(k) || WritesRows(k) { WritingProcs(s, k); }
  }

  lemma AbortProcs(s: State, o: ObjectId)
    requires CanAbortWrite(s, o)
    ensures SameProcs(s.procs, DoAbortWrite(s, o).procs, o)
    ensures o in DoAbortWrite(s, o).procs ==> DoAbortWrite(s, o).procs[o].Reclaim?
  {
  }

  lemma CloseProcs(s: State, o: ObjectId)
    requires CanCloseWrite(s, o)
    ensures SameProcs(s.procs, DoCloseWrite(s, o).procs, o)
    ensures o in DoCloseWrite(s, o).procs ==> DoCloseWrite(s, o).procs[o].Reclaim?
  {
  }

  lemma WritingProcs(s: State, k: Step)
    requires ReclaimEnabled(s, k) && (WritesJournal(k) || WritesRows(k)) && !k.AbortWrite? && !k.CloseWrite?
    ensures SameProcs(s.procs, ReclaimApply(s, k).procs, k.o)
    ensures k.o in ReclaimApply(s, k).procs ==> ReclaimApply(s, k).procs[k.o].Reclaim?
  {
  }

  lemma FramePlaced(p: Proc, m: map<ReplicaId, Replica>, n: map<ReplicaId, Replica>)
    requires p.Create? && Placed(p, m)
    requires forall r <- p.made :: r in m ==> r in n && n[r] == m[r]
    ensures Placed(p, n)
  {
    if Going(p.at) {
      forall b <- Finished(p) ensures exists r :: r in p.made && r in n && n[r].backend == b {
        var r :| r in p.made && r in m && m[r].backend == b;
        assert n[r].backend == b;
      }
    }
  }

  /** The rows another operation drops are not those a create has made. */
  lemma MadeStays(s: State, q: ObjectId, gone: set<ReplicaId>)
    requires Live(s.mode) && ProcsOk(s) && IsCreate(s, q)
    requires forall r <- gone :: r in s.db.replicas ==> s.db.replicas[r].owner != q
    ensures s.procs[q].made !! gone
  {
    assert ProcOk(s, q);
  }

  lemma MadeApart(s: State, o: ObjectId, q: ObjectId, r: ReplicaId)
    requires CanDropMade(s, q, r) && ProcOk(s, q) && o != q
    ensures s.db.replicas[r].owner != o
  {
  }

  lemma OthersGone(s: State, k: Step, q: ObjectId)
    requires ProcsOk(s) && JournalsOk(s.db, s.phys) && (CreateEnabled(s, k) || ReclaimEnabled(s, k)) && q != k.o && q in s.procs
    ensures forall r <- RowsGone(k) :: r in s.db.replicas ==> s.db.replicas[r].owner != q
  {
    if k.DropMade? { MadeApart(s, q, k.o, k.r); }
    if k.DropRow? {
      RunsOk(s, k.o);
      assert JournalOk(s.db, s.phys, s.procs[k.o].attempt);
      DroppedOwn(s, k.o, q);
    }
  }

  lemma OtherPlaced(s: State, t: State, k: Step, q: ObjectId)
    requires ProcsOk(s) && JournalsOk(s.db, s.phys) && Live(s.mode) && (CreateEnabled(s, k) || ReclaimEnabled(s, k))
    requires Taken(s.db, t.db, RowsGone(k), VaultsLost(k))
    requires q != k.o && IsCreate(s, q) && Placed(s.procs[q], s.db.replicas)
    ensures Placed(s.procs[q], t.db.replicas)
  {
    OthersGone(s, k, q);
    MadeStays(s, q, RowsGone(k));
    FramePlaced(s.procs[q], s.db.replicas, t.db.replicas);
  }

  lemma CreateKeepsPlaced(s: State, k: Step)
    requires ProcsOk(s) && JournalsOk(s.db, s.phys) && Live(s.mode) && CreateEnabled(s, k) && AllPlaced(s)
    ensures AllPlaced(CreateApply(s, k))
  {
    var t := CreateApply(s, k);
    OwnPlaced(s, k);
    CreateProcs(s, k);
    CreateTakes(s, k);
    forall q <- t.procs ensures t.procs[q].Create? ==> Placed(t.procs[q], t.db.replicas) {
      if q != k.o && t.procs[q].Create? { OtherPlaced(s, t, k, q); }
    }
  }

  lemma ReclaimKeepsPlaced(s: State, k: Step)
    requires ProcsOk(s) && JournalsOk(s.db, s.phys) && Live(s.mode) && ReclaimEnabled(s, k) && AllPlaced(s)
    ensures AllPlaced(ReclaimApply(s, k))
  {
    var t := ReclaimApply(s, k);
    ReclaimProcs(s, k);
    ReclaimTakes(s, k);
    forall q <- t.procs ensures t.procs[q].Create? ==> Placed(t.procs[q], t.db.replicas) {
      if q != k.o && t.procs[q].Create? { OtherPlaced(s, t, k, q); }
    }
  }

  lemma OtherKeepsPlaced(s: State, k: Step)
    requires OtherEnabled(s, k) && AllPlaced(s) && (s.activeRecovery ==> s.procs == map[])
    ensures AllPlaced(OtherApply(s, k))
  {
    if !k.Recovery? { ServingTakes(s, k); }
    ServingProcs(s, k);
  }

  lemma ServingProcs(s: State, k: Step)
    requires OtherEnabled(s, k)
    ensures OtherApply(s, k).procs == if k.Crash? then map[] else s.procs
  {
  }

  lemma StepLive(s: State, k: Step)
    requires CreateEnabled(s, k) || ReclaimEnabled(s, k)
    ensures Live(s.mode)
  {
  }

  lemma StepKeepsPlaced(s: State, k: Step)
    requires Inv(s) && CanStep(s, k) && AllPlaced(s)
    ensures AllPlaced(Next(s, k))
  {
    InvProcs(s);
    if CreateEnabled(s, k) {
      StepLive(s, k);
      CreateKeepsPlaced(s, k);
    } else if ReclaimEnabled(s, k) {
      StepLive(s, k);
      ReclaimKeepsPlaced(s, k);
    } else {
      OtherKeepsPlaced(s, k);
    }
  }

  lemma {:induction false} RunPlaced(s: State, ks: seq<Step>, t: State)
    requires Inv(s) && Execution(s, ks, t) && AllPlaced(s)
    ensures AllPlaced(t)
    decreases |ks|
  {
    if ks != [] {
      StepKeeps(s, ks[0]);
      StepKeepsPlaced(s, ks[0]);
      RunPlaced(Next(s, ks[0]), ks[1..], t);
    }
  }

  lemma ReachablePlaced(t: State)
    requires Reachable(t)
    ensures AllPlaced(t)
  {
    var s, ks :| Init(s) && Execution(s, ks, t);
    InitInv(s);
    RunPlaced(s, ks, t);
  }

  // ------------------------------------------------------------------
  // What is published
  // ------------------------------------------------------------------

  /** The rows of `o` are one valid row on each of `targets`, each with the content and its bytes. */
  ghost predicate StoredOn(s: State, o: ObjectId, content: Content, generation: nat, targets: set<Backend>) {
    var rows := RowsOf(s.db, o);
    && |rows| == |targets|
    && (forall b <- targets :: exists r :: r in rows && rows[r].backend == b)
    && (forall q <- rows, r <- rows :: rows[q].backend == rows[r].backend ==> q == r)
    && (forall r <- rows ::
          && rows[r].backend in targets && rows[r].valid && rows[r].generation == generation
          && rows[r].content == content && rows[r].size == content.length
          && PlaceOf(rows[r]) in s.phys && s.phys[PlaceOf(rows[r])] == content)
  }

  /** A create that is through has exactly the rows it made, with their bytes. */
  lemma MadeRows(s: State, o: ObjectId)
    requires Inv(s) && Live(s.mode) && IsCreate(s, o)
    ensures RowsOf(s.db, o).Keys == s.procs[o].made
    ensures forall r <- s.procs[o].made :: r in s.db.replicas && MadeRight(s, o, s.db.replicas[r])
  {
    assert ProcOk(s, o);
    forall r <- s.procs[o].made ensures MadeRight(s, o, s.db.replicas[r]) { MadeRow(s, o, r); }
  }

  ghost predicate MadeRight(s: State, o: ObjectId, row: Replica)
    requires IsCreate(s, o)
  {
    && row.content == s.procs[o].content && row.size == s.procs[o].content.length && row.generation == s.procs[o].blank.generation
    && PlaceOf(row) in s.phys && s.phys[PlaceOf(row)] == s.procs[o].content
  }

  lemma MadeRow(s: State, o: ObjectId, r: ReplicaId)
    requires DurableOk(s.db, s.phys) && IsCreate(s, o) && CreateOk(s, o, s.procs[o]) && r in s.procs[o].made
    ensures MadeRight(s, o, s.db.replicas[r])
  {
    var row := s.db.replicas[r];
    assert ReplicaOk(s.db, s.phys, row);
    forall a <- s.db.journal ensures s.db.journal[a].owner != o { assert JournalOk(s.db, s.phys, a); }
  }

  lemma StoredRows(s: State, o: ObjectId, p: Proc)
    requires p.Create? && p.at.Stored? && p.todo == {} && Placed(p, s.db.replicas) && IsCreate(s, o) && s.procs[o] == p
    requires RowsOf(s.db, o).Keys == p.made && forall r <- p.made :: r in s.db.replicas && MadeRight(s, o, s.db.replicas[r])
    ensures StoredOn(s, o, p.content, p.blank.generation, p.targets)
  {
    assert Finished(p) == p.targets;
    assert |RowsOf(s.db, o)| == |RowsOf(s.db, o).Keys|;
  }

  /** A published object is the one asked for and is stored as asked: one valid row with its bytes on
      each target backend and no other row; its copy count and size say so; a durable object has a
      copy from the start, a critical one has two. */
  lemma CreateComplete(s: State, o: ObjectId)
    requires Reachable(s) && CanPublish(s, o)
    ensures var p := s.procs[o]; var t := DoPublish(s, o);
            && o in t.db.objects && t.db.objects[o] == p.blank
            && StoredOn(t, o, p.content, p.blank.generation, p.targets)
            && (p.targets != {} ==> p.blank.state == Hot && p.blank.replicationCount == |RowsOf(t.db, o)| && p.blank.physicalSize == p.content.length)
            && (p.targets == {} ==> p.blank.state == Created)
            && (p.blank.durability == Durability.Durable ==> |RowsOf(t.db, o)| >= 1)
            && (p.blank.durability == Critical ==> |RowsOf(t.db, o)| >= 2)
  {
    ReachableInv(s);
    ReachablePlaced(s);
    StoredWhole(s, o);
    Published(s, o);
    AskedCounts(s.procs[o], |RowsOf(DoPublish(s, o).db, o)|);
  }

  lemma StoredWhole(s: State, o: ObjectId)
    requires Inv(s) && AllPlaced(s) && CanPublish(s, o)
    ensures Asked(s.procs[o]) && StoredOn(s, o, s.procs[o].content, s.procs[o].blank.generation, s.procs[o].targets)
  {
    MadeRows(s, o);
    StoredTodo(s, o);
    StoredRows(s, o, s.procs[o]);
  }

  lemma AskedCounts(p: Proc, n: nat)
    requires p.Create? && Asked(p) && n == |p.targets|
    ensures p.targets != {} ==> p.blank.state == Hot && p.blank.replicationCount == n && p.blank.physicalSize == p.content.length
    ensures p.targets == {} ==> p.blank.state == Created
    ensures p.blank.durability == Durability.Durable ==> n >= 1
    ensures p.blank.durability == Critical ==> n >= 2
  {
  }

  lemma Published(s: State, o: ObjectId)
    requires CanPublish(s, o) && StoredOn(s, o, s.procs[o].content, s.procs[o].blank.generation, s.procs[o].targets)
    ensures var t := DoPublish(s, o);
            && o in t.db.objects && t.db.objects[o] == s.procs[o].blank && RowsOf(t.db, o) == RowsOf(s.db, o)
            && StoredOn(t, o, s.procs[o].content, s.procs[o].blank.generation, s.procs[o].targets)
  {
    assert RowsOf(DoPublish(s, o).db, o) == RowsOf(s.db, o);
  }

  lemma StoredTodo(s: State, o: ObjectId)
    requires Inv(s) && CanPublish(s, o)
    ensures s.procs[o].todo == {}
  {
    assert ProcOk(s, o);
  }

  /** What a create was asked for stays what it was while it runs. */
  lemma RequestKept(s: State, k: Step, o: ObjectId)
    requires Inv(s) && CanStep(s, k) && IsCreate(s, o) && IsCreate(Next(s, k), o)
    ensures SameRequest(s.procs[o], Next(s, k).procs[o])
  {
    if CreateEnabled(s, k) {
      StepLive(s, k);
      CreateProcs(s, k);
      if k.o == o { OwnRequest(s, k); }
    } else if ReclaimEnabled(s, k) {
      ReclaimProcs(s, k);
    } else {
      ServingProcs(s, k);
    }
  }

  lemma OwnRequest(s: State, k: Step)
    requires GuardsOk(s) && CreateEnabled(s, k) && IsCreate(s, k.o) && IsCreate(CreateApply(s, k), k.o)
    ensures SameRequest(s.procs[k.o], CreateApply(s, k).procs[k.o])
  {
    if k.GiveUp? { GivesUp(s, k.o); }
    else if k.DropMade? || k.ReleaseMade? || k.Sweep? { Cleans(s, k); }
    else if CreatePayload(k) { Stores(s, k); }
  }

  lemma Stores(s: State, k: Step)
    requires CreateEnabled(s, k) && CreatePayload(k) && !k.DropMade? && !k.ReleaseMade?
    ensures SameRequest(s.procs[k.o], CreateApply(s, k).procs[k.o])
  {
  }

  /** Born durable, kept durable: whatever runs after it was published, an object that needs copies
      has a valid row with its bytes on every backend it was stored on. */
  lemma BornAndKept(s: State, o: ObjectId, ks: seq<Step>, t: State, b: Backend)
    requires Reachable(s) && CanPublish(s, o) && s.procs[o].blank.durability in {Durability.Durable, Critical}
    requires Execution(DoPublish(s, o), ks, t) && b in s.procs[o].targets
    ensures exists r :: r in RowsOf(t.db, o) && HoldsAt(t, RowsOf(t.db, o)[r], b, s.procs[o].content)
  {
    var u := DoPublish(s, o);
    CreateComplete(s, o);
    PublishReached(s, o);
    CopiesKept(u, ks, t, o);
    StillStored(u, t, o, s.procs[o].content, s.procs[o].blank.generation, s.procs[o].targets, b);
  }

  lemma PublishReached(s: State, o: ObjectId)
    requires Reachable(s) && CanPublish(s, o)
    ensures Inv(DoPublish(s, o))
  {
    assert CanStep(s, Publish(o)) && Next(s, Publish(o)) == DoPublish(s, o);
    ReachableInv(s);
    StepKeeps(s, Publish(o));
  }

  lemma StillStored(u: State, t: State, o: ObjectId, content: Content, generation: nat, targets: set<Backend>, b: Backend)
    requires StoredOn(u, o, content, generation, targets) && Spared(u.db, t.db, o) && Survival.Readable(t, o) && b in targets
    ensures exists r :: r in RowsOf(t.db, o) && HoldsAt(t, RowsOf(t.db, o)[r], b, content)
  {
    var r :| r in RowsOf(u.db, o) && RowsOf(u.db, o)[r].backend == b;
    assert r in RowsOf(t.db, o) && RowsOf(t.db, o)[r] == RowsOf(u.db, o)[r];
    assert HoldsAt(t, RowsOf(t.db, o)[r], b, content);
  }

  ghost predicate HoldsAt(t: State, row: Replica, b: Backend, content: Content) {
    row.valid && row.backend == b && row.content == content && PlaceOf(row) in t.phys && t.phys[PlaceOf(row)] == content
  }
}
