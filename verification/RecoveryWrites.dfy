/** The durable writes recovery makes, one at a time. A crash may fall between any two of them;
    each keeps the crash-surviving invariant and the outcome recovery is heading for. */
module RecoveryWrites {
  import opened Fabric
  import opened Durable

  datatype Write =
    | RestoreObject(attempt: AttemptId)
    | SyncDedup(identity: Identity, entry: Option<DedupEntry>)
    | DropReplica(attempt: AttemptId, replica: ReplicaId)
    | ReleaseRef(attempt: AttemptId, replica: ReplicaId)
    | DropArchive(attempt: AttemptId, archive: ArchiveId)
    | MarkReclaimed(attempt: AttemptId)
    | CloseReservation(attempt: AttemptId)
    | CloseAttempt(attempt: AttemptId)
    | CloseJournal(attempt: AttemptId)

  /** One reference less; a missing or zero row is left alone. */
  function Released(dedup: map<Identity, DedupEntry>, i: Identity): (after: map<Identity, DedupEntry>) {
    if i !in dedup || dedup[i].refs == 0 then dedup
    else if dedup[i].refs == 1 then dedup - {i}
    else dedup[i := dedup[i].(refs := dedup[i].refs - 1)]
  }

  function ClosedReservation(v: Verdict): (s: ReservationStatus) {
    if v.Commit? then ReservationCommitted else ReservationReleased
  }

  function ClosedAttempt(v: Verdict): (s: AttemptStatus) {
    if v.Commit? then AttemptCommitted else AttemptRolledBack
  }

  /** Everything the verdict asks for is durable except the journal row itself. */
  ghost predicate Finished(d: Db, phys: Physical, a: AttemptId)
    requires a in d.journal && a in d.attempts && a in d.reservations && d.journal[a].owner in d.objects
  {
    var j := d.journal[a];
    var o := d.objects[j.owner];
    var v := Decide(j, phys);
    && d.attempts[a] == ClosedAttempt(v)
    && d.reservations[a].status == ClosedReservation(v)
    && (if v.Commit? then o == ReclaimedForm(o) && Dropped(d.replicas, d.archives, j) else o.state == j.prior.state && Whole(d.replicas, d.archives, j))
  }

  ghost predicate Enabled(d: Db, phys: Physical, w: Write) {
    match w
    case SyncDedup(i, e) =>
      ExactFor(d.replicas, if e.None? then d.dedup - {i} else d.dedup[i := e.value], i)
    case _ =>
      var a := w.attempt;
      && a in d.journal && a in d.attempts && a in d.reservations && d.journal[a].owner in d.objects
      && Decided(d.journal[a], phys)
      && match w
         case RestoreObject(_) => Decide(d.journal[a], phys).RollBack?
         case DropReplica(_, r) => Decide(d.journal[a], phys).Commit? && r in d.journal[a].deletions
         case ReleaseRef(_, r) => Decide(d.journal[a], phys).Commit? && r in d.journal[a].deletions
         case DropArchive(_, x) => Decide(d.journal[a], phys).Commit? && x in d.journal[a].archives
         case MarkReclaimed(_) => Decide(d.journal[a], phys).Commit? && Dropped(d.replicas, d.archives, d.journal[a])
         case CloseReservation(_) => true
         case CloseAttempt(_) => true
         case CloseJournal(_) => Finished(d, phys, a)
  }

  function Apply(d: Db, phys: Physical, w: Write): (e: Db)
    requires w.SyncDedup? || (w.attempt in d.journal && w.attempt in d.reservations && d.journal[w.attempt].owner in d.objects)
    requires w.ReleaseRef? ==> w.replica in d.journal[w.attempt].deletions
  {
    match w
    case RestoreObject(a) =>
      var o := d.journal[a].owner;
      d.(objects := d.objects[o := SettledObject(d.objects[o], d.journal[a], phys)])
    case SyncDedup(i, entry) => d.(dedup := if entry.None? then d.dedup - {i} else d.dedup[i := entry.value])
    case DropReplica(_, r) => d.(replicas := d.replicas - {r})
    case ReleaseRef(a, r) => d.(dedup := Released(d.dedup, IdentityOf(d.journal[a].deletions[r])))
    case DropArchive(_, x) => d.(archives := d.archives - {x})
    case MarkReclaimed(a) =>
      var o := d.journal[a].owner;
      d.(objects := d.objects[o := ReclaimedForm(d.objects[o])])
    case CloseReservation(a) =>
      d.(reservations := d.reservations[a := d.reservations[a].(status := ClosedReservation(Decide(d.journal[a], phys)))])
    case CloseAttempt(a) =>
      d.(attempts := d.attempts[a := ClosedAttempt(Decide(d.journal[a], phys))])
    case CloseJournal(a) =>
      d.(journal := d.journal[a := Resolved(d.journal[a], phys)])
  }


  // ------------------------------------------------------------------
  // Every write keeps the crash-surviving invariant
  // ------------------------------------------------------------------

  /** A journal row is undisturbed when its object, statuses and rows are. */
  lemma JournalFrame(d: Db, e: Db, phys: Physical, a: AttemptId)
    requires a in d.journal && JournalOk(d, phys, a)
    requires a in e.journal && e.journal[a] == d.journal[a]
    requires a in e.attempts && a in e.reservations && e.attempts[a] == d.attempts[a] && e.reservations[a] == d.reservations[a]
    requires d.journal[a].owner in e.objects
    requires e.objects[d.journal[a].owner].generation == d.objects[d.journal[a].owner].generation
    requires Expendable(e.objects[d.journal[a].owner])
    requires Unfinished(d.journal[a].phase) ==>
               && e.objects[d.journal[a].owner] == d.objects[d.journal[a].owner]
               && Covers(e.replicas, e.archives, d.journal[a])
               && Matches(e.replicas, e.archives, d.journal[a])
               && (Whole(d.replicas, d.archives, d.journal[a]) ==> Whole(e.replicas, e.archives, d.journal[a]))
    ensures JournalOk(e, phys, a)
  {
  }

  /** The other attempts' rows are undisturbed by a write to one attempt and its object. */
  lemma OthersFrame(d: Db, e: Db, phys: Physical, a: AttemptId, b: AttemptId)
    requires JournalsOk(d, phys) && OneOpen(d.journal)
    requires a in d.journal && Unfinished(d.journal[a].phase) && b in d.journal && b != a
    requires e.replicas == d.replicas && e.archives == d.archives
    requires b in e.journal && e.journal[b] == d.journal[b]
    requires b in e.attempts && b in e.reservations && e.attempts[b] == d.attempts[b] && e.reservations[b] == d.reservations[b]
    requires e.objects == d.objects
             || exists p :: && e.objects == d.objects[d.journal[a].owner := p]
                            && p.generation == d.journal[a].generation && Expendable(p)
    ensures JournalOk(e, phys, b)
  {
    assert JournalOk(d, phys, b) && JournalOk(d, phys, a);
    assert Unfinished(d.journal[b].phase) ==> d.journal[a].owner != d.journal[b].owner;
    JournalFrame(d, e, phys, b);
  }

  /** Rows stay good when no object changes generation or turns RECLAIMED over its rows. */
  lemma RowsFrame(d: Db, e: Db, phys: Physical)
    requires RowsOk(d, phys)
    requires e.journal == d.journal
    requires e.replicas.Keys <= d.replicas.Keys && forall r <- e.replicas :: e.replicas[r] == d.replicas[r]
    requires e.archives.Keys <= d.archives.Keys && forall x <- e.archives :: e.archives[x] == d.archives[x]
    requires e.objects.Keys == d.objects.Keys
    requires forall o <- d.objects :: e.objects[o].generation == d.objects[o].generation
    requires forall o <- d.objects :: e.objects[o].state == Reclaimed ==>
               || d.objects[o].state == Reclaimed
               || ((forall r <- e.replicas :: e.replicas[r].owner != o) && forall x <- e.archives :: e.archives[x].owner != o)
    ensures RowsOk(e, phys)
  {
    forall r <- e.replicas ensures ReplicaOk(e, phys, e.replicas[r]) { assert ReplicaOk(d, phys, d.replicas[r]); }
    forall x <- e.archives ensures ArchiveOk(e, phys, e.archives[x]) { assert ArchiveOk(d, phys, d.archives[x]); }
  }

  lemma DedupKeeps(d: Db, phys: Physical, dedup: map<Identity, DedupEntry>)
    requires DurableOk(d, phys)
    ensures DurableOk(d.(dedup := dedup), phys)
  {
    var e := d.(dedup := dedup);
    forall a <- e.journal ensures JournalOk(e, phys, a) { assert JournalOk(d, phys, a); }
    RowsFrame(d, e, phys);
  }

  /** Dropping rows of one object leaves the coverage of every journal row intact. */
  lemma DropKeepsRows(d: Db, phys: Physical, a: AttemptId, b: AttemptId, gone: set<ReplicaId>, lost: set<ArchiveId>)
    requires JournalsOk(d, phys) && OneOpen(d.journal)
    requires a in d.journal && b in d.journal && Unfinished(d.journal[a].phase) && Unfinished(d.journal[b].phase)
    requires gone <= d.journal[a].deletions.Keys && lost <= d.journal[a].archives.Keys
    ensures Covers(d.replicas - gone, d.archives - lost, d.journal[b])
    ensures Matches(d.replicas - gone, d.archives - lost, d.journal[b])
    ensures a != b && Whole(d.replicas, d.archives, d.journal[b]) ==> Whole(d.replicas - gone, d.archives - lost, d.journal[b])
  {
    assert JournalOk(d, phys, a) && JournalOk(d, phys, b);
    if a != b {
      assert gone !! d.journal[b].deletions.Keys && lost !! d.journal[b].archives.Keys;
    }
  }

  lemma DropKeepsJournals(d: Db, phys: Physical, a: AttemptId, gone: set<ReplicaId>, lost: set<ArchiveId>)
    requires JournalsOk(d, phys) && OneOpen(d.journal)
    requires a in d.journal && Decide(d.journal[a], phys).Commit?
    requires gone <= d.journal[a].deletions.Keys && lost <= d.journal[a].archives.Keys
    ensures JournalsOk(d.(replicas := d.replicas - gone, archives := d.archives - lost), phys)
  {
    var e := d.(replicas := d.replicas - gone, archives := d.archives - lost);
    forall b <- e.journal ensures JournalOk(e, phys, b) {
      assert JournalOk(d, phys, b);
      if Unfinished(d.journal[b].phase) {
        DropKeepsRows(d, phys, a, b, gone, lost);
      }
      if b != a { JournalFrame(d, e, phys, b); }
    }
  }

  lemma DropKeeps(d: Db, phys: Physical, a: AttemptId, gone: set<ReplicaId>, lost: set<ArchiveId>)
    requires DurableOk(d, phys)
    requires a in d.journal && Decide(d.journal[a], phys).Commit?
    requires gone <= d.journal[a].deletions.Keys && lost <= d.journal[a].archives.Keys
    ensures DurableOk(d.(replicas := d.replicas - gone, archives := d.archives - lost), phys)
  {
    DropKeepsJournals(d, phys, a, gone, lost);
    RowsFrame(d, d.(replicas := d.replicas - gone, archives := d.archives - lost), phys);
  }

  lemma ObjectKeepsJournals(d: Db, phys: Physical, a: AttemptId, p: Object)
    requires JournalsOk(d, phys) && OneOpen(d.journal)
    requires a in d.journal && Decided(d.journal[a], phys)
    requires p.generation == d.journal[a].generation && Expendable(p)
    requires Decide(d.journal[a], phys).Commit? ==> p.state in {ReclaimPending, Reclaimed} && Unguarded(p)
    requires Decide(d.journal[a], phys).RollBack? ==> p.state != Reclaimed
    ensures JournalsOk(d.(objects := d.objects[d.journal[a].owner := p]), phys)
  {
    var e := d.(objects := d.objects[d.journal[a].owner := p]);
    forall b <- e.journal ensures JournalOk(e, phys, b) {
      assert JournalOk(d, phys, a);
      if b != a { OthersFrame(d, e, phys, a, b); }
    }
  }

  /** A committed attempt's object has no rows left. */
  lemma CommittedOwnsNothing(d: Db, phys: Physical, a: AttemptId)
    requires a in d.journal && JournalOk(d, phys, a) && Unfinished(d.journal[a].phase)
    requires Dropped(d.replicas, d.archives, d.journal[a])
    ensures forall r <- d.replicas :: d.replicas[r].owner != d.journal[a].owner
    ensures forall x <- d.archives :: d.archives[x].owner != d.journal[a].owner
  {
  }

  lemma ObjectKeepsRows(d: Db, phys: Physical, a: AttemptId, p: Object)
    requires RowsOk(d, phys)
    requires a in d.journal && JournalOk(d, phys, a) && Decided(d.journal[a], phys)
    requires p.generation == d.journal[a].generation
    requires p.state == Reclaimed ==> Dropped(d.replicas, d.archives, d.journal[a])
    ensures RowsOk(d.(objects := d.objects[d.journal[a].owner := p]), phys)
  {
    if p.state == Reclaimed { CommittedOwnsNothing(d, phys, a); }
    RowsFrame(d, d.(objects := d.objects[d.journal[a].owner := p]), phys);
  }

  /** Rewriting the object of a decided attempt, keeping its generation and durability. */
  lemma ObjectKeeps(d: Db, phys: Physical, a: AttemptId, p: Object)
    requires DurableOk(d, phys)
    requires a in d.journal && Decided(d.journal[a], phys) && JournalOk(d, phys, a)
    requires p.generation == d.journal[a].generation && Expendable(p)
    requires Decide(d.journal[a], phys).Commit? ==> p.state in {ReclaimPending, Reclaimed} && Unguarded(p)
    requires Decide(d.journal[a], phys).RollBack? ==> p.state != Reclaimed
    requires p.state == Reclaimed ==> Dropped(d.replicas, d.archives, d.journal[a])
    ensures DurableOk(d.(objects := d.objects[d.journal[a].owner := p]), phys)
  {
    ObjectKeepsJournals(d, phys, a, p);
    ObjectKeepsRows(d, phys, a, p);
  }

  lemma StatusKeepsJournals(d: Db, phys: Physical, a: AttemptId, s: AttemptStatus, q: ReservationStatus)
    requires JournalsOk(d, phys) && OneOpen(d.journal)
    requires a in d.journal && Decided(d.journal[a], phys) && JournalOk(d, phys, a)
    requires s in {d.attempts[a], ClosedAttempt(Decide(d.journal[a], phys))}
    requires q in {d.reservations[a].status, ClosedReservation(Decide(d.journal[a], phys))}
    ensures JournalsOk(d.(attempts := d.attempts[a := s], reservations := d.reservations[a := d.reservations[a].(status := q)]), phys)
  {
    var e := d.(attempts := d.attempts[a := s], reservations := d.reservations[a := d.reservations[a].(status := q)]);
    forall b <- e.journal ensures JournalOk(e, phys, b) {
      if b != a { OthersFrame(d, e, phys, a, b); }
    }
  }

  lemma StatusKeeps(d: Db, phys: Physical, a: AttemptId, s: AttemptStatus, q: ReservationStatus)
    requires DurableOk(d, phys)
    requires a in d.journal && Decided(d.journal[a], phys) && JournalOk(d, phys, a)
    requires s in {d.attempts[a], ClosedAttempt(Decide(d.journal[a], phys))}
    requires q in {d.reservations[a].status, ClosedReservation(Decide(d.journal[a], phys))}
    ensures DurableOk(d.(attempts := d.attempts[a := s], reservations := d.reservations[a := d.reservations[a].(status := q)]), phys)
  {
    StatusKeepsJournals(d, phys, a, s, q);
    StatusRest(d, phys, d.attempts[a := s], d.reservations[a := d.reservations[a].(status := q)]);
  }

  lemma StatusRest(d: Db, phys: Physical, attempts: map<AttemptId, AttemptStatus>, reservations: map<AttemptId, Reservation>)
    requires DurableOk(d, phys) && attempts.Keys == d.attempts.Keys && reservations.Keys == d.reservations.Keys
    requires JournalsOk(d.(attempts := attempts, reservations := reservations), phys)
    ensures DurableOk(d.(attempts := attempts, reservations := reservations), phys)
  {
    RecordsKeepRows(d, phys, attempts, reservations);
  }

  lemma RecordsKeepRows(d: Db, phys: Physical, attempts: map<AttemptId, AttemptStatus>, reservations: map<AttemptId, Reservation>)
    requires RowsOk(d, phys)
    ensures RowsOk(d.(attempts := attempts, reservations := reservations), phys)
  {
    RowsFrame(d, d.(attempts := attempts, reservations := reservations), phys);
  }

  /** Closing an attempt takes no excuse away that is still needed. */
  lemma CloseExcuse(journal: map<AttemptId, Journal>, phys: Physical, a: AttemptId, owner: ObjectId, place: Loc)
    requires a in journal && Decided(journal[a], phys)
    requires Excused(journal, owner, place)
    requires Decide(journal[a], phys).Commit? ==> journal[a].owner != owner
    ensures place in phys || Excused(journal[a := Resolved(journal[a], phys)], owner, place)
  {
    var after := journal[a := Resolved(journal[a], phys)];
    var b :| b in journal && journal[b].owner == owner && IsPhysical(journal[b].phase) && place in Targets(journal[b]);
    if b != a {
      assert after[b] == journal[b];
    }
  }

  lemma CloseKeepsJournals(d: Db, phys: Physical, a: AttemptId)
    requires JournalsOk(d, phys) && OneOpen(d.journal)
    requires a in d.journal && Decided(d.journal[a], phys)
    requires JournalOk(d, phys, a) && Finished(d, phys, a)
    ensures JournalsOk(d.(journal := d.journal[a := Resolved(d.journal[a], phys)]), phys)
  {
    var e := d.(journal := d.journal[a := Resolved(d.journal[a], phys)]);
    forall b <- e.journal ensures JournalOk(e, phys, b) {
      if b != a { OthersFrame(d, e, phys, a, b); }
    }
  }

  lemma CloseKeepsVaults(d: Db, phys: Physical, a: AttemptId)
    requires RowsOk(d, phys)
    requires a in d.journal && JournalOk(d, phys, a) && Decided(d.journal[a], phys) && Finished(d, phys, a)
    requires Decide(d.journal[a], phys).Commit? ==> forall x <- d.archives :: d.archives[x].owner != d.journal[a].owner
    ensures var e := d.(journal := d.journal[a := Resolved(d.journal[a], phys)]); forall x <- e.archives :: ArchiveOk(e, phys, e.archives[x])
  {
    var e := d.(journal := d.journal[a := Resolved(d.journal[a], phys)]);
    forall x <- e.archives ensures ArchiveOk(e, phys, e.archives[x]) {
      assert ArchiveOk(d, phys, d.archives[x]);
      if VaultOf(d.archives[x]) !in phys { CloseExcuse(d.journal, phys, a, d.archives[x].owner, VaultOf(d.archives[x])); }
    }
  }

  lemma CloseKeepsRows(d: Db, phys: Physical, a: AttemptId)
    requires RowsOk(d, phys)
    requires a in d.journal && JournalOk(d, phys, a) && Decided(d.journal[a], phys) && Finished(d, phys, a)
    ensures RowsOk(d.(journal := d.journal[a := Resolved(d.journal[a], phys)]), phys)
  {
    var e := d.(journal := d.journal[a := Resolved(d.journal[a], phys)]);
    if Decide(d.journal[a], phys).Commit? { CommittedOwnsNothing(d, phys, a); }
    forall r <- e.replicas ensures ReplicaOk(e, phys, e.replicas[r]) {
      assert ReplicaOk(d, phys, d.replicas[r]);
      if PlaceOf(d.replicas[r]) !in phys { CloseExcuse(d.journal, phys, a, d.replicas[r].owner, PlaceOf(d.replicas[r])); }
    }
    CloseKeepsVaults(d, phys, a);
  }

  lemma CloseKeepsPlans(d: Db, phys: Physical, a: AttemptId)
    requires a in d.journal && Decided(d.journal[a], phys)
    requires PlansPrivate(d.journal, d.replicas) && OneOpen(d.journal)
    ensures PlansPrivate(d.journal[a := Resolved(d.journal[a], phys)], d.replicas)
    ensures OneOpen(d.journal[a := Resolved(d.journal[a], phys)])
  {
  }

  lemma CloseKeeps(d: Db, phys: Physical, a: AttemptId)
    requires DurableOk(d, phys)
    requires a in d.journal && Decided(d.journal[a], phys)
    requires JournalOk(d, phys, a) && Finished(d, phys, a)
    ensures DurableOk(d.(journal := d.journal[a := Resolved(d.journal[a], phys)]), phys)
  {
    CloseKeepsJournals(d, phys, a);
    CloseKeepsRows(d, phys, a);
    CloseKeepsPlans(d, phys, a);
  }

  lemma MinusNothing<K, V>(m: map<K, V>)
    ensures m - {} == m
  {
  }

  lemma DropReplicaKeeps(d: Db, phys: Physical, a: AttemptId, r: ReplicaId)
    requires DurableOk(d, phys) && Enabled(d, phys, DropReplica(a, r))
    ensures DurableOk(Apply(d, phys, DropReplica(a, r)), phys)
  {
    DropKeeps(d, phys, a, {r}, {});
    MinusNothing(d.archives);
  }

  lemma DropArchiveKeeps(d: Db, phys: Physical, a: AttemptId, x: ArchiveId)
    requires DurableOk(d, phys) && Enabled(d, phys, DropArchive(a, x))
    ensures DurableOk(Apply(d, phys, DropArchive(a, x)), phys)
  {
    DropKeeps(d, phys, a, {}, {x});
    MinusNothing(d.replicas);
  }

  lemma RestoreKeeps(d: Db, phys: Physical, a: AttemptId)
    requires DurableOk(d, phys) && Enabled(d, phys, RestoreObject(a))
    ensures DurableOk(Apply(d, phys, RestoreObject(a)), phys)
  {
    assert JournalOk(d, phys, a);
    ObjectKeeps(d, phys, a, SettledObject(d.objects[d.journal[a].owner], d.journal[a], phys));
  }

  lemma MarkKeeps(d: Db, phys: Physical, a: AttemptId)
    requires DurableOk(d, phys) && Enabled(d, phys, MarkReclaimed(a))
    ensures DurableOk(Apply(d, phys, MarkReclaimed(a)), phys)
  {
    assert JournalOk(d, phys, a);
    ObjectKeeps(d, phys, a, ReclaimedForm(d.objects[d.journal[a].owner]));
  }

  lemma CloseReservationKeeps(d: Db, phys: Physical, a: AttemptId)
    requires DurableOk(d, phys) && Enabled(d, phys, CloseReservation(a))
    ensures DurableOk(Apply(d, phys, CloseReservation(a)), phys)
  {
    assert JournalOk(d, phys, a);
    StatusKeeps(d, phys, a, d.attempts[a], ClosedReservation(Decide(d.journal[a], phys)));
    assert d.attempts[a := d.attempts[a]] == d.attempts;
  }

  lemma CloseAttemptKeeps(d: Db, phys: Physical, a: AttemptId)
    requires DurableOk(d, phys) && Enabled(d, phys, CloseAttempt(a))
    ensures DurableOk(Apply(d, phys, CloseAttempt(a)), phys)
  {
    assert JournalOk(d, phys, a);
    StatusKeeps(d, phys, a, ClosedAttempt(Decide(d.journal[a], phys)), d.reservations[a].status);
    assert d.reservations[a := d.reservations[a].(status := d.reservations[a].status)] == d.reservations;
  }

  lemma CloseJournalKeeps(d: Db, phys: Physical, a: AttemptId)
    requires DurableOk(d, phys) && Enabled(d, phys, CloseJournal(a))
    ensures DurableOk(Apply(d, phys, CloseJournal(a)), phys)
  {
    assert JournalOk(d, phys, a);
    CloseKeeps(d, phys, a);
  }

  /** Every recovery write keeps the crash-surviving invariant. */
  lemma WriteKeeps(d: Db, phys: Physical, w: Write)
    requires DurableOk(d, phys) && Enabled(d, phys, w)
    ensures DurableOk(Apply(d, phys, w), phys)
  {
    if w.CloseReservation? || w.CloseAttempt? || w.CloseJournal? { RecordWriteKeeps(d, phys, w); }
    else if w.RestoreObject? || w.MarkReclaimed? { ObjectWriteKeeps(d, phys, w); }
    else { RowWriteKeeps(d, phys, w); }
  }

  lemma RowWriteKeeps(d: Db, phys: Physical, w: Write)
    requires DurableOk(d, phys) && Enabled(d, phys, w) && (w.SyncDedup? || w.ReleaseRef? || w.DropReplica? || w.DropArchive?)
    ensures DurableOk(Apply(d, phys, w), phys)
  {
    match w
    case SyncDedup(i, entry) => DedupKeeps(d, phys, Apply(d, phys, w).dedup);
    case ReleaseRef(a, r) => DedupKeeps(d, phys, Apply(d, phys, w).dedup);
    case DropReplica(a, r) => DropReplicaKeeps(d, phys, a, r);
    case DropArchive(a, x) => DropArchiveKeeps(d, phys, a, x);
  }

  lemma ObjectWriteKeeps(d: Db, phys: Physical, w: Write)
    requires DurableOk(d, phys) && Enabled(d, phys, w) && (w.RestoreObject? || w.MarkReclaimed?)
    ensures DurableOk(Apply(d, phys, w), phys)
  {
    match w
    case RestoreObject(a) => RestoreKeeps(d, phys, a);
    case MarkReclaimed(a) => MarkKeeps(d, phys, a);
  }

  lemma RecordWriteKeeps(d: Db, phys: Physical, w: Write)
    requires DurableOk(d, phys) && Enabled(d, phys, w) && (w.CloseReservation? || w.CloseAttempt? || w.CloseJournal?)
    ensures DurableOk(Apply(d, phys, w), phys)
  {
    match w
    case CloseReservation(a) => CloseReservationKeeps(d, phys, a);
    case CloseAttempt(a) => CloseAttemptKeeps(d, phys, a);
    case CloseJournal(a) => CloseJournalKeeps(d, phys, a);
  }

  // ------------------------------------------------------------------
  // Every write keeps the outcome
  // ------------------------------------------------------------------

  lemma OutcomeThroughDrop(d: Db, e: Db, phys: Physical, a: AttemptId, f: Db)
    requires a in d.journal && Decide(d.journal[a], phys).Commit?
    requires e == d.(replicas := e.replicas, archives := e.archives)
    requires forall r :: r !in d.journal[a].deletions ==>
               (r in e.replicas <==> r in d.replicas) && (r in d.replicas ==> e.replicas[r] == d.replicas[r])
    requires forall x :: x !in d.journal[a].archives ==>
               (x in e.archives <==> x in d.archives) && (x in d.archives ==> e.archives[x] == d.archives[x])
    requires IsOutcome(e, phys, f)
    ensures IsOutcome(d, phys, f)
  {
  }

  lemma ObjectsThroughObject(d: Db, phys: Physical, a: AttemptId, p: Object, f: Db)
    requires OneOpen(d.journal)
    requires a in d.journal && Decided(d.journal[a], phys) && d.journal[a].owner in d.objects
    requires p == SettledObject(d.objects[d.journal[a].owner], d.journal[a], phys)
    requires ObjectOutcome(d.(objects := d.objects[d.journal[a].owner := p]), phys, f)
    ensures ObjectOutcome(d, phys, f)
  {
    var o := d.journal[a].owner;
    assert forall b <- d.journal :: Decided(d.journal[b], phys) ==> b == a || d.journal[b].owner != o;
  }

  lemma OutcomeThroughObject(d: Db, phys: Physical, a: AttemptId, p: Object, f: Db)
    requires OneOpen(d.journal)
    requires a in d.journal && Decided(d.journal[a], phys) && d.journal[a].owner in d.objects
    requires p == SettledObject(d.objects[d.journal[a].owner], d.journal[a], phys)
    requires IsOutcome(d.(objects := d.objects[d.journal[a].owner := p]), phys, f)
    ensures IsOutcome(d, phys, f)
  {
    ObjectsThroughObject(d, phys, a, p, f);
  }

  lemma OutcomeThroughStatus(d: Db, e: Db, phys: Physical, a: AttemptId, f: Db)
    requires a in d.journal && Decided(d.journal[a], phys) && a in d.attempts && a in d.reservations
    requires e == d.(attempts := e.attempts, reservations := e.reservations)
    requires e.attempts.Keys == d.attempts.Keys && e.reservations.Keys == d.reservations.Keys
    requires forall b <- d.attempts :: b != a ==> e.attempts[b] == d.attempts[b]
    requires forall b <- d.reservations :: b != a ==> e.reservations[b] == d.reservations[b]
    requires e.reservations[a] == d.reservations[a].(status := e.reservations[a].status)
    requires IsOutcome(e, phys, f)
    ensures IsOutcome(d, phys, f)
  {
  }

  lemma ObjectsThroughClose(d: Db, phys: Physical, a: AttemptId, f: Db)
    requires a in d.journal && Decided(d.journal[a], phys) && JournalOk(d, phys, a) && Finished(d, phys, a)
    requires OneOpen(d.journal)
    requires ObjectOutcome(d.(journal := d.journal[a := Resolved(d.journal[a], phys)]), phys, f)
    ensures ObjectOutcome(d, phys, f)
  {
    var e := d.(journal := d.journal[a := Resolved(d.journal[a], phys)]);
    var o := d.journal[a].owner;
    OthersAfterClose(d.journal, phys, a);
    assert f.objects[o] == e.objects[o];
  }

  lemma OthersAfterClose(journal: map<AttemptId, Journal>, phys: Physical, a: AttemptId)
    requires OneOpen(journal) && a in journal && Decided(journal[a], phys)
    ensures var after := journal[a := Resolved(journal[a], phys)];
            forall b <- after :: Decided(after[b], phys) ==>
              && b != a && after[b] == journal[b] && journal[b].owner != journal[a].owner
              && journal[a].deletions.Keys !! journal[b].deletions.Keys
              && journal[a].archives.Keys !! journal[b].archives.Keys
  {
  }

  /** The rows of an attempt that is done are what its verdict asks for already. */
  lemma ClosedRows(d: Db, phys: Physical, a: AttemptId)
    requires a in d.journal && Decided(d.journal[a], phys) && JournalOk(d, phys, a) && Finished(d, phys, a)
    ensures Decide(d.journal[a], phys).Commit? ==> Dropped(d.replicas, d.archives, d.journal[a])
    ensures Decide(d.journal[a], phys).RollBack? ==>
              && (forall r <- d.journal[a].deletions :: r in d.replicas && d.replicas[r] == d.journal[a].deletions[r])
              && (forall x <- d.journal[a].archives :: x in d.archives && d.archives[x] == d.journal[a].archives[x])
  {
  }

  lemma ReplicasThroughClose(d: Db, phys: Physical, a: AttemptId, f: Db)
    requires OneOpen(d.journal)
    requires a in d.journal && Decided(d.journal[a], phys) && JournalOk(d, phys, a) && Finished(d, phys, a)
    requires ReplicaOutcome(d.(journal := d.journal[a := Resolved(d.journal[a], phys)]), phys, f)
    ensures ReplicaOutcome(d, phys, f)
  {
    OthersAfterClose(d.journal, phys, a);
    ClosedRows(d, phys, a);
    OwnRowsStay(d, phys, a, f);
  }

  /** No other open attempt touches the rows of the one being closed. */
  lemma OwnRowsStay(d: Db, phys: Physical, a: AttemptId, f: Db)
    requires OneOpen(d.journal) && a in d.journal && Decided(d.journal[a], phys)
    requires ReplicaOutcome(d.(journal := d.journal[a := Resolved(d.journal[a], phys)]), phys, f)
    ensures forall r <- d.journal[a].deletions :: (r in f.replicas <==> r in d.replicas) && (r in f.replicas ==> f.replicas[r] == d.replicas[r])
  {
    OthersAfterClose(d.journal, phys, a);
  }

  lemma ArchivesThroughClose(d: Db, phys: Physical, a: AttemptId, f: Db)
    requires OneOpen(d.journal)
    requires a in d.journal && Decided(d.journal[a], phys) && JournalOk(d, phys, a) && Finished(d, phys, a)
    requires ArchiveOutcome(d.(journal := d.journal[a := Resolved(d.journal[a], phys)]), phys, f)
    ensures ArchiveOutcome(d, phys, f)
  {
    OthersAfterClose(d.journal, phys, a);
    ClosedRows(d, phys, a);
    OwnVaultsStay(d, phys, a, f);
  }

  lemma OwnVaultsStay(d: Db, phys: Physical, a: AttemptId, f: Db)
    requires OneOpen(d.journal) && a in d.journal && Decided(d.journal[a], phys)
    requires ArchiveOutcome(d.(journal := d.journal[a := Resolved(d.journal[a], phys)]), phys, f)
    ensures forall x <- d.journal[a].archives :: (x in f.archives <==> x in d.archives) && (x in f.archives ==> f.archives[x] == d.archives[x])
  {
    OthersAfterClose(d.journal, phys, a);
  }

  lemma OutcomeThroughClose(d: Db, phys: Physical, a: AttemptId, f: Db)
    requires DurableOk(d, phys) && Enabled(d, phys, CloseJournal(a))
    requires IsOutcome(Apply(d, phys, CloseJournal(a)), phys, f)
    ensures IsOutcome(d, phys, f)
  {
    assert JournalOk(d, phys, a);
    ObjectsThroughClose(d, phys, a, f);
    ReplicasThroughClose(d, phys, a, f);
    ArchivesThroughClose(d, phys, a, f);
    FlagsThroughClose(d, phys, a, f);
  }

  lemma FlagsThroughClose(d: Db, phys: Physical, a: AttemptId, f: Db)
    requires a in d.journal && Decided(d.journal[a], phys) && JournalOk(d, phys, a) && Finished(d, phys, a)
    requires JournalOutcome(d.(journal := d.journal[a := Resolved(d.journal[a], phys)]), phys, f)
    requires StatusOutcome(d.(journal := d.journal[a := Resolved(d.journal[a], phys)]), phys, f)
    ensures JournalOutcome(d, phys, f) && StatusOutcome(d, phys, f)
  {
    assert d.reservations[a] == d.reservations[a].(status := ClosedReservation(Decide(d.journal[a], phys)));
  }

  lemma DropWriteOutcome(d: Db, phys: Physical, w: Write, f: Db)
    requires Enabled(d, phys, w) && (w.DropReplica? || w.DropArchive?)
    requires IsOutcome(Apply(d, phys, w), phys, f)
    ensures IsOutcome(d, phys, f)
  {
    OutcomeThroughDrop(d, Apply(d, phys, w), phys, w.attempt, f);
  }

  lemma StatusWriteOutcome(d: Db, phys: Physical, w: Write, f: Db)
    requires Enabled(d, phys, w) && (w.CloseReservation? || w.CloseAttempt?)
    requires IsOutcome(Apply(d, phys, w), phys, f)
    ensures IsOutcome(d, phys, f)
  {
    OutcomeThroughStatus(d, Apply(d, phys, w), phys, w.attempt, f);
  }

  lemma OutcomeThroughDedup(d: Db, e: Db, phys: Physical, f: Db)
    requires e == d.(dedup := e.dedup)
    requires IsOutcome(e, phys, f)
    ensures IsOutcome(d, phys, f)
  {
  }

  lemma DedupWriteOutcome(d: Db, phys: Physical, w: Write, f: Db)
    requires Enabled(d, phys, w) && (w.SyncDedup? || w.ReleaseRef?)
    requires IsOutcome(Apply(d, phys, w), phys, f)
    ensures IsOutcome(d, phys, f)
  {
    OutcomeThroughDedup(d, Apply(d, phys, w), phys, f);
  }

  /** No recovery write changes what recovery is heading for. */
  lemma WriteKeepsOutcome(d: Db, phys: Physical, w: Write, f: Db)
    requires DurableOk(d, phys) && Enabled(d, phys, w)
    requires IsOutcome(Apply(d, phys, w), phys, f)
    ensures IsOutcome(d, phys, f)
  {
    if w.SyncDedup? || w.ReleaseRef? { DedupWriteOutcome(d, phys, w, f); }
    else if w.DropReplica? || w.DropArchive? { DropWriteOutcome(d, phys, w, f); }
    else if w.RestoreObject? || w.MarkReclaimed? { ObjectWriteOutcome(d, phys, w, f); }
    else if w.CloseJournal? { JournalWriteOutcome(d, phys, w, f); }
    else { StatusWriteOutcome(d, phys, w, f); }
  }

  lemma ObjectWriteOutcome(d: Db, phys: Physical, w: Write, f: Db)
    requires OneOpen(d.journal) && Enabled(d, phys, w) && (w.RestoreObject? || w.MarkReclaimed?)
    requires IsOutcome(Apply(d, phys, w), phys, f)
    ensures IsOutcome(d, phys, f)
  {
    OutcomeThroughObject(d, phys, w.attempt, SettledObject(d.objects[d.journal[w.attempt].owner], d.journal[w.attempt], phys), f);
  }

  lemma JournalWriteOutcome(d: Db, phys: Physical, w: Write, f: Db)
    requires DurableOk(d, phys) && Enabled(d, phys, w) && w.CloseJournal?
    requires IsOutcome(Apply(d, phys, w), phys, f)
    ensures IsOutcome(d, phys, f)
  {
    OutcomeThroughClose(d, phys, w.attempt, f);
  }
}
