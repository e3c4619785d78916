/** Compressing, archiving and restoring one object under its guard: metadata is written one row at
    a time, any write may fail, and what was written is then taken back. */
module Tiers {
  import opened Fabric
  import opened Durable
  import opened RecoveryWrites
  import opened Restart
  import opened LifecycleTable
  import opened Reconcile

  // ------------------------------------------------------------------
  // The group-by under single rows
  // ------------------------------------------------------------------

  lemma AddExact(m: map<ReplicaId, Replica>, dedup: map<Identity, DedupEntry>, r: ReplicaId, row: Replica)
    requires Exact(m, dedup) && r !in m
    requires IdentityOf(row) in dedup ==> dedup[IdentityOf(row)].key == row.key && dedup[IdentityOf(row)].size == row.size
    ensures Exact(m[r := row], dedup[IdentityOf(row) := Counted(dedup, row)])
  {
    var more, counted := m[r := row], dedup[IdentityOf(row) := Counted(dedup, row)];
    forall i ensures ExactFor(more, counted, i) { AddExactFor(m, dedup, r, row, i); }
  }

  lemma AddExactFor(m: map<ReplicaId, Replica>, dedup: map<Identity, DedupEntry>, r: ReplicaId, row: Replica, i: Identity)
    requires ExactFor(m, dedup, i) && r !in m
    requires IdentityOf(row) in dedup ==> dedup[IdentityOf(row)].key == row.key && dedup[IdentityOf(row)].size == row.size
    ensures ExactFor(m[r := row], dedup[IdentityOf(row) := Counted(dedup, row)], i)
  {
    assert RowSet(m[r := row], i) == RowSet(m, i) + (if IdentityOf(row) == i then {r} else {});
  }

  lemma RemoveExact(m: map<ReplicaId, Replica>, dedup: map<Identity, DedupEntry>, r: ReplicaId)
    requires Exact(m, dedup) && r in m
    ensures Exact(m - {r}, Released(dedup, IdentityOf(m[r])))
  {
    forall i ensures ExactFor(m - {r}, Released(dedup, IdentityOf(m[r])), i) {
      assert ExactFor(m, dedup, i);
      assert RowSet(m - {r}, i) == RowSet(m, i) - {r};
      if i == IdentityOf(m[r]) {
        assert r in RowSet(m, i);
        if RowSet(m, i) - {r} == {} { assert RowSet(m, i) == {r}; }
        else if |RowSet(m, i)| == 1 { Singleton(RowSet(m, i), r); }
      }
    }
  }

  lemma Singleton<T>(s: set<T>, x: T)
    requires |s| == 1 && x in s
    ensures s == {x}
  {
    assert |s - {x}| == 0;
  }

  /** Adding a reference and giving it back changes nothing. */
  lemma CountedReleased(dedup: map<Identity, DedupEntry>, row: Replica)
    requires IdentityOf(row) in dedup ==> dedup[IdentityOf(row)].refs >= 1
    ensures Released(dedup[IdentityOf(row) := Counted(dedup, row)], IdentityOf(row)) == dedup
  {
  }

  /** Giving a reference back and taking it again changes nothing, if the row that vanished in
      between is put back as it was. */
  lemma ReleasedCounted(dedup: map<Identity, DedupEntry>, i: Identity)
    requires i in dedup && dedup[i].refs >= 1
    ensures Reacquired(Released(dedup, i), i, dedup[i]) == dedup
  {
  }

  function Reacquired(dedup: map<Identity, DedupEntry>, i: Identity, was: DedupEntry): (after: map<Identity, DedupEntry>) {
    if i in dedup then dedup[i := dedup[i].(refs := dedup[i].refs + 1)] else dedup[i := was]
  }

  // ------------------------------------------------------------------
  // The store
  // ------------------------------------------------------------------

  /** Rows of `o` only hold the object's content or something that expands to it. */
  predicate Expands(expand: (Content, nat) -> Option<Content>, original: Content, held: Content) {
    held == original || expand(held, original.length) == Some(original)
  }

  ghost predicate KeysHold(m: map<ReplicaId, Replica>) {
    forall r <- m :: m[r].key.content == m[r].content
  }

  ghost predicate SizesHold(m: map<ReplicaId, Replica>) {
    forall r <- m :: m[r].size == m[r].content.length
  }

  ghost predicate GoodRows(d: Db, hash: map<ObjectId, Content>, expand: (Content, nat) -> Option<Content>) {
    && (forall r <- d.replicas :: d.replicas[r].owner in hash && Expands(expand, hash[d.replicas[r].owner], d.replicas[r].content))
    && (forall x <- d.archives :: d.archives[x].owner in hash && Expands(expand, hash[d.archives[x].owner], d.archives[x].content))
  }

  ghost predicate GoodObjects(d: Db, hash: map<ObjectId, Content>, original: map<ObjectId, nat>) {
    && d.objects.Keys == hash.Keys
    && (forall o <- original :: o in hash && original[o] == hash[o].length)
    && (forall o <- d.objects :: d.objects[o].compressedSize.Some? ==> o in original)
  }

  /** The tables agree, and whatever an object has can be turned into its content. */
  ghost predicate Good(d: Db, hash: map<ObjectId, Content>, original: map<ObjectId, nat>, expand: (Content, nat) -> Option<Content>) {
    && Exact(d.replicas, d.dedup) && KeysHold(d.replicas) && SizesHold(d.replicas)
    && GoodRows(d, hash, expand) && GoodObjects(d, hash, original)
  }

  lemma SwapGoodRows(d: Db, e: Db, hash: map<ObjectId, Content>, expand: (Content, nat) -> Option<Content>, o: ObjectId, r: ReplicaId, id: ReplicaId, row: Replica)
    requires GoodRows(d, hash, expand) && o in hash && row.owner == o && Expands(expand, hash[o], row.content)
    requires e.replicas == (d.replicas - {r})[id := row] && e.archives == d.archives
    ensures GoodRows(e, hash, expand)
  {
  }

  lemma SwapGood(d: Db, e: Db, hash: map<ObjectId, Content>, original: map<ObjectId, nat>, expand: (Content, nat) -> Option<Content>,
                 o: ObjectId, r: ReplicaId, id: ReplicaId, row: Replica, updated: Object)
    requires Good(d, hash, original, expand) && o in hash && row.owner == o && Expands(expand, hash[o], row.content)
    requires row.key.content == row.content && row.size == row.content.length
    requires e == d.(objects := d.objects[o := updated], replicas := (d.replicas - {r})[id := row], dedup := e.dedup)
    requires Exact(e.replicas, e.dedup)
    ensures Good(e, hash, original[o := hash[o].length], expand)
  {
    SwapGoodRows(d, e, hash, expand, o, r, id, row);
    assert KeysHold(e.replicas) && SizesHold(e.replicas);
  }

  // ------------------------------------------------------------------
  // Which replica an operation takes, and when it can go through
  // ------------------------------------------------------------------

  predicate Has(phys: Physical, l: Loc, c: Content) {
    l in phys && phys[l] == c
  }

  predicate IsLeast(r: ReplicaId, ids: set<ReplicaId>) {
    r in ids && forall q <- ids :: r <= q
  }

  lemma LeastExists(ids: set<ReplicaId>) returns (least: ReplicaId)
    requires ids != {}
    ensures IsLeast(least, ids)
  {
    var first :| first in ids;
    var rest := ids - {first};
    least := first;
    if rest != {} {
      var q := LeastExists(rest);
      if q < first { least := q; }
    }
    forall p <- ids ensures least <= p { if p != first { assert p in rest; } }
  }

  ghost function Least(ids: set<ReplicaId>): (r: ReplicaId)
    requires ids != {}
    ensures IsLeast(r, ids)
  {
    assert exists r :: IsLeast(r, ids) by { var r := LeastExists(ids); }
    var r :| IsLeast(r, ids);
    r
  }

  /** Replica rows are listed by id; the first one of some. */
  function FirstOf(ids: set<ReplicaId>): (r: Option<ReplicaId>)
    ensures r.None? <==> ids == {}
    ensures r.Some? ==> r.value in ids && forall q <- ids :: r.value <= q
  {
    if ids == {} then None
    else
      ghost var least := Least(ids);
      var r :| IsLeast(r, ids);
      Some(r)
  }

  /** The first valid replica of `o` that holds its content. */
  function HotCopy(d: Db, hash: map<ObjectId, Content>, o: ObjectId): (r: Option<ReplicaId>)
    requires o in hash
  {
    FirstOf(HotCopies(d, hash, o))
  }

  function HotCopies(d: Db, hash: map<ObjectId, Content>, o: ObjectId): (rows: set<ReplicaId>)
    requires o in hash
  {
    set r | r in d.replicas && d.replicas[r].owner == o && d.replicas[r].valid && d.replicas[r].content == hash[o]
  }

  /** The replica an archive is made of: the first compressed one of a compressed object, and the
      first that holds the content of any other. */
  function Source(d: Db, hash: map<ObjectId, Content>, o: ObjectId): (r: Option<ReplicaId>)
    requires o in hash && o in d.objects
  {
    FirstOf(Sources(d, hash, o))
  }

  function Sources(d: Db, hash: map<ObjectId, Content>, o: ObjectId): (rows: set<ReplicaId>)
    requires o in hash && o in d.objects
  {
    set r | r in d.replicas && d.replicas[r].owner == o && d.replicas[r].valid
            && (d.replicas[r].content == hash[o] <==> d.objects[o].compressedSize.None?)
  }

  predicate CanCompress(d: Db, phys: Physical, hash: map<ObjectId, Content>, original: map<ObjectId, nat>,
                        squeeze: Content -> Option<Content>, expand: (Content, nat) -> Option<Content>, o: ObjectId)
  {
    && o in d.objects && o in hash && d.objects[o].state != Compressed && o !in original && !CheckTransition(d.objects[o].state, Compressed).Illegal?
    && HotCopy(d, hash, o).Some?
    && (var row := d.replicas[HotCopy(d, hash, o).value];
        && Has(phys, PlaceOf(row), hash[o])
        && squeeze(hash[o]).Some? && expand(squeeze(hash[o]).value, hash[o].length) == Some(hash[o])
        && (var i := Identity(squeeze(hash[o]).value, row.backend);
            i in d.dedup ==> Has(phys, Payload(row.backend, d.dedup[i].key), i.content)))
  }

  /** Archiving `o` gets as far as writing. */
  predicate CanArchive(d: Db, phys: Physical, hash: map<ObjectId, Content>, original: map<ObjectId, nat>, o: ObjectId, vault: Backend) {
    && o in d.objects && o in hash && d.objects[o].state != Archived && !CheckTransition(d.objects[o].state, Archived).Illegal?
    && Source(d, hash, o).Some? && (d.objects[o].compressedSize.Some? ==> o in original)
    && (var r := Source(d, hash, o).value;
        && Has(phys, PlaceOf(d.replicas[r]), d.replicas[r].content)
        && (Vault(vault, o, r) in phys ==> Has(phys, Vault(vault, o, r), d.replicas[r].content)))
  }

  /** The archived bytes are there, and are the content or known to be compressed. */
  predicate Readable(d: Db, phys: Physical, hash: map<ObjectId, Content>, o: ObjectId, x: ArchiveId) {
    && o in d.objects && o in hash && d.objects[o].state == Archived
    && x in d.archives && d.archives[x].owner == o
    && Has(phys, VaultOf(d.archives[x]), d.archives[x].content)
    && (d.archives[x].content != hash[o] ==> d.objects[o].compressedSize.Some?)
  }

  /** Restoring `o` takes an intact hot copy that it still owns. */
  predicate Rehydrates(d: Db, phys: Physical, hash: map<ObjectId, Content>, o: ObjectId, x: ArchiveId) {
    && Readable(d, phys, hash, o, x)
    && HotCopy(d, hash, o).Some? && Has(phys, PlaceOf(d.replicas[HotCopy(d, hash, o).value]), hash[o])
  }

  /** Restoring `o` makes a new copy, of a canonical payload that is intact if there is one. */
  predicate Rematerialises(d: Db, phys: Physical, hash: map<ObjectId, Content>, o: ObjectId, x: ArchiveId, hot: Backend) {
    && Readable(d, phys, hash, o, x)
    && HotCopy(d, hash, o).None?
    && (Identity(hash[o], hot) in d.dedup ==> Has(phys, Payload(hot, d.dedup[Identity(hash[o], hot)].key), hash[o]))
  }

  class Tier {
    var db: Db
    var phys: Physical
    // Content hash of every object, and the reserved metadata key of compressed ones.
    var hash: map<ObjectId, Content>
    var original: map<ObjectId, nat>
    const squeeze: Content -> Option<Content>
    const expand: (Content, nat) -> Option<Content>

    ghost predicate Valid()
      reads this
    {
      Good(db, hash, original, expand)
    }

    constructor (d: Db, p: Physical, h: map<ObjectId, Content>, sizes: map<ObjectId, nat>,
                 squeeze: Content -> Option<Content>, expand: (Content, nat) -> Option<Content>)
      requires Good(d, h, sizes, expand)
      ensures Valid() && db == d && phys == p && hash == h && original == sizes && this.squeeze == squeeze && this.expand == expand
    {
      db, phys, hash, original := d, p, h, sizes;
      this.squeeze, this.expand := squeeze, expand;
    }

    /** Whether the payload of a row is there, with the right bytes. */
    predicate Intact(l: Loc, c: Content)
      reads this
    {
      Has(phys, l, c)
    }

    /** The metadata of a compression, `row` taking the place of row `r`: write number `fail` fails,
        if there are that many, and `done` of them are durable. */
    method SwapForward(o: ObjectId, r: ReplicaId, id: ReplicaId, row: Replica, updated: Object, fail: nat) returns (done: nat)
      requires r in db.replicas
      modifies this`db
      ensures done == if fail < 5 then fail else 5
      ensures db == SwapStage(old(db), done, o, r, id, row, updated)
    {
      var i, j := IdentityOf(db.replicas[r]), IdentityOf(row);
      if fail == 0 { return 0; }
      if i != j { db := db.(dedup := db.dedup[j := Counted(db.dedup, row)]); }
      if fail == 1 { return 1; }
      if i != j { db := db.(dedup := Released(db.dedup, i)); }
      if fail == 2 { return 2; }
      db := db.(replicas := db.replicas - {r});
      if fail == 3 { return 3; }
      db := db.(replicas := db.replicas[id := row]);
      if fail == 4 { return 4; }
      db := db.(objects := db.objects[o := updated]);
      return 5;
    }

    /** Takes back the writes that were made, in reverse. */
    method SwapBack(was: Replica, r: ReplicaId, id: ReplicaId, row: Replica, source: DedupEntry, done: nat, ghost d: Db, ghost o: ObjectId, ghost updated: Object)
      requires r in d.replicas && d.replicas[r] == was && id !in d.replicas
      requires done < 5 && db == SwapStage(d, done, o, r, id, row, updated)
      requires IdentityOf(was) in d.dedup && d.dedup[IdentityOf(was)] == source && source.refs >= 1
      requires IdentityOf(row) in d.dedup ==> d.dedup[IdentityOf(row)].refs >= 1
      modifies this`db
      ensures db == d
    {
      var i, j := IdentityOf(was), IdentityOf(row);
      if done >= 4 { db := db.(replicas := db.replicas - {id}); }
      if done >= 3 { db := db.(replicas := db.replicas[r := was]); }
      assert db.replicas == d.replicas;
      CountedReleased(d.dedup, row);
      if i != j {
        ReleasedCounted(d.dedup[j := Counted(d.dedup, row)], i);
        if done >= 2 { db := db.(dedup := Reacquired(db.dedup, i, source)); }
        if done >= 1 { db := db.(dedup := Released(db.dedup, j)); }
      }
    }

    /** The payload `z` on a backend: the canonical one if it is referenced already and intact, and
        a new one otherwise. */
    method PlacePayload(z: Content, backend: Backend, suffix: nat) returns (res: Result<Key>, wrote: bool)
      requires Exact(db.replicas, db.dedup) && KeysHold(db.replicas)
      modifies this`phys
      ensures wrote ==> Identity(z, backend) !in db.dedup && res.Ok?
      ensures phys == if wrote then old(phys)[Payload(backend, res.value) := z] else old(phys)
      ensures res.Ok? ==> res.value.content == z && Intact(Payload(backend, res.value), z)
      ensures res.Ok? && Identity(z, backend) in db.dedup ==> db.dedup[Identity(z, backend)].key == res.value
      ensures wrote ==> forall r <- db.replicas :: PlaceOf(db.replicas[r]) != Payload(backend, res.value)
      ensures forall r :: KeepsBytes(db.replicas, old(phys), phys, r)
      ensures res.Err? <==> Identity(z, backend) in db.dedup && !old(Intact(Payload(backend, db.dedup[Identity(z, backend)].key), z))
      ensures SameVaults(old(phys), phys)
    {
      var i := Identity(z, backend);
      EntryKey(db.replicas, db.dedup, i);
      if i in db.dedup {
        if !Intact(Payload(backend, db.dedup[i].key), z) { return Err(DedupFailure), false; }
        return Ok(db.dedup[i].key), false;
      }
      NoRowAt(db.replicas, db.dedup, i, Key(z, suffix));
      phys := phys[Payload(backend, Key(z, suffix)) := z];
      return Ok(Key(z, suffix)), true;
    }

    /** Records a swap of rows, or leaves the tables as they were. */
    method RecordSwap(o: ObjectId, r: ReplicaId, id: ReplicaId, row: Replica, updated: Object, fail: nat) returns (ok: bool)
      requires Exact(db.replicas, db.dedup) && KeysHold(db.replicas) && SizesHold(db.replicas)
      requires r in db.replicas && id !in db.replicas && row.key.content == row.content && row.size == row.content.length
      requires IdentityOf(row) in db.dedup ==> db.dedup[IdentityOf(row)].key == row.key
      modifies this`db
      ensures !ok ==> db == old(db)
      ensures ok ==> && db == old(db).(objects := old(db).objects[o := updated], replicas := (old(db).replicas - {r})[id := row], dedup := db.dedup)
                     && Exact(db.replicas, db.dedup)
      ensures ok <==> fail >= 5
    {
      ghost var d := db;
      var was := db.replicas[r];
      SwapExact(db.replicas, db.dedup, r, id, row);
      EntryKey(db.replicas, db.dedup, IdentityOf(row));
      var source := db.dedup[IdentityOf(was)];
      var done := SwapForward(o, r, id, row, updated, fail);
      if done < 5 {
        SwapBack(was, r, id, row, source, done, d, o, updated);
        return false;
      }
      return true;
    }

    /** The replica to read an object from. */
    method Primary(o: ObjectId) returns (res: Result<ReplicaId>)
      requires o in hash
      ensures res.Ok? <==> HotCopy(db, hash, o).Some? && Intact(PlaceOf(db.replicas[HotCopy(db, hash, o).value]), hash[o])
      ensures res.Ok? ==> res.value == HotCopy(db, hash, o).value && res.value in db.replicas && db.replicas[res.value].owner == o
    {
      var r := HotCopy(db, hash, o);
      if r.None? { return Err(NotFound); }
      return if Intact(PlaceOf(db.replicas[r.value]), hash[o]) then Ok(r.value) else Err(InvalidArgument);
    }

    /** Compresses with the round trip checked before anything is written. */
    method CompressVerified(c: Content) returns (res: Result<Content>)
      ensures res.Ok? ==> expand(res.value, c.length) == Some(c) && squeeze(c) == Some(res.value)
      ensures res.Ok? <==> squeeze(c).Some? && expand(squeeze(c).value, c.length) == Some(c)
    {
      var z := squeeze(c);
      if z.None? { return Err(InvalidArgument); }
      return if expand(z.value, c.length) == Some(c) then Ok(z.value) else Err(InvalidArgument);
    }

    /** Deletes a payload that no row uses. */
    method TakeBack(l: Loc)
      requires l.Payload? && forall r <- db.replicas :: PlaceOf(db.replicas[r]) != l
      modifies this`phys
      ensures phys == old(phys) - {l} && forall r :: KeepsBytes(db.replicas, old(phys), phys, r)
    {
      phys := phys - {l};
    }

    /** Deletes the payload of the row that was swapped out, if nothing refers to it any more. */
    method DropSource(was: Replica, refs: nat, ghost m: map<ReplicaId, Replica>, ghost dedup: map<Identity, DedupEntry>, ghost r: ReplicaId)
      requires Exact(m, dedup) && KeysHold(m) && r in m && m[r] == was && IdentityOf(was) in dedup && dedup[IdentityOf(was)].refs == refs
      modifies this`phys
      ensures phys == if refs == 1 then old(phys) - {PlaceOf(was)} else old(phys)
      ensures SameVaults(old(phys), phys)
      ensures KeepsBytes(m, old(phys), phys, r)
    {
      if refs == 1 {
        LastRow(m, dedup, r);
        phys := phys - {PlaceOf(was)};
      }
    }

    /** Replaces the primary payload of an object by its compressed form. Whatever goes wrong, tables
        are as before; and no row that remains ever loses its bytes. */
    method Compress(o: ObjectId, suffix: nat, id: ReplicaId, fail: nat) returns (res: Result<ReplicaId>)
      requires Valid() && id !in db.replicas
      modifies this
      ensures Valid() && hash == old(hash)
      ensures KeepsBytes(db.replicas, old(phys), phys, id)
      ensures res.Err? ==> db == old(db) && original == old(original)
      ensures res.Ok? ==> CompressedInto(old(db), db, hash, original, o, res.value, id)
      ensures res.Ok? ==> Intact(PlaceOf(db.replicas[id]), db.replicas[id].content)
      ensures res.Ok? ==> expand(db.replicas[id].content, hash[o].length) == Some(hash[o]) && squeeze(hash[o]) == Some(db.replicas[id].content)
      ensures res.Ok? <==> old(CanCompress(db, phys, hash, original, squeeze, expand, o)) && fail >= 5
      ensures res.Ok? ==>
                var was, z := old(db).replicas[res.value], squeeze(hash[o]).value;
                && db.objects == old(db).objects[o := old(db).objects[o].(state := Compressed, compressedSize := Some(z.length), physicalSize := z.length)]
                && db.replicas == (old(db).replicas - {res.value})[id :=
                     Replica(o, old(db).objects[o].generation, was.backend, db.replicas[id].key, z.length, z, true)]
                && original == old(original)[o := hash[o].length]
      ensures Unused(db.replicas, phys) <= Unused(old(db).replicas, old(phys))
      ensures SameVaults(old(phys), phys)
    {
      if o !in db.objects { return Err(NotFound); }
      if db.objects[o].state == Compressed || o in original || CheckTransition(db.objects[o].state, Compressed).Illegal? {
        return Err(InvalidArgument);
      }
      var primary := Primary(o);
      if primary.Err? { return primary; }
      var r := primary.value;
      var was := db.replicas[r];
      var squeezed := CompressVerified(was.content);
      if squeezed.Err? { return Err(squeezed.error); }
      ghost var d := db;
      var row := Replica(o, db.objects[o].generation, was.backend, was.key, squeezed.value.length, squeezed.value, true);
      var updated := db.objects[o].(state := Compressed, compressedSize := Some(row.size), physicalSize := row.size);
      var swapped := SwapPayload(o, r, row, suffix, id, updated, fail);
      if swapped.Err? { return Err(swapped.error); }
      SwapGood(d, db, hash, original, expand, o, r, id, db.replicas[id], updated);
      original := original[o := was.content.length];
      SwapDone(d, db, hash, original, o, r, id, db.replicas[id], updated);
      return Ok(r);
    }

    /** The part of compression that writes: the payload, the swap of rows, and the end of the old
        payload if it was the last to need it. */
    method SwapPayload(o: ObjectId, r: ReplicaId, row: Replica, suffix: nat, id: ReplicaId, updated: Object, fail: nat) returns (res: Result<Key>)
      requires Exact(db.replicas, db.dedup) && KeysHold(db.replicas) && SizesHold(db.replicas)
      requires r in db.replicas && id !in db.replicas && row.backend == db.replicas[r].backend && row.size == row.content.length
      modifies this`db, this`phys
      ensures KeepsBytes(db.replicas, old(phys), phys, id)
      ensures res.Err? ==> db == old(db)
      ensures SameVaults(old(phys), phys)
      ensures Unused(db.replicas, phys) <= Unused(old(db).replicas, old(phys))
      ensures var i := Identity(row.content, row.backend);
              res.Ok? <==> (i in old(db).dedup ==> old(Intact(Payload(i.backend, db.dedup[i].key), i.content))) && fail >= 5
      ensures res.Ok? ==>
                && db == old(db).(objects := old(db).objects[o := updated], replicas := (old(db).replicas - {r})[id := row.(key := res.value)], dedup := db.dedup)
                && Exact(db.replicas, db.dedup) && res.value.content == row.content && Intact(Payload(row.backend, res.value), row.content)
    {
      var was := db.replicas[r];
      var key, wrote := PlacePayload(row.content, was.backend, suffix);
      if key.Err? { return key; }
      ghost var d := db;
      RowCounted(db.replicas, db.dedup, r);
      var refs := db.dedup[IdentityOf(was)].refs;
      var ok := RecordSwap(o, r, id, row.(key := key.value), updated, fail);
      if !ok {
        if wrote { TakeBack(Payload(was.backend, key.value)); }
        return Err(Conflict);
      }
      ghost var before := phys;
      if was.content != row.content { DropSource(was, refs, d.replicas, d.dedup, r); }
      SwapKeepsBytes(d.replicas, r, id, row.(key := key.value), old(phys), before, phys);
      SwapLeavesNothing(d.replicas, d.dedup, r, id, row.(key := key.value), old(phys), phys);
      return key;
    }

    method ArchiveSource(o: ObjectId) returns (res: Result<ReplicaId>)
      requires o in db.objects && o in hash
      ensures res.Ok? <==>
                && Source(db, hash, o).Some? && (db.objects[o].compressedSize.Some? ==> o in original)
                && Intact(PlaceOf(db.replicas[Source(db, hash, o).value]), db.replicas[Source(db, hash, o).value].content)
      ensures res.Ok? ==>
                && res.value == Source(db, hash, o).value && res.value in db.replicas && db.replicas[res.value].owner == o
                && (db.objects[o].compressedSize.None? ==> db.replicas[res.value].content == hash[o])
    {
      var r := Source(db, hash, o);
      if r.None? { return Err(NotFound); }
      if db.objects[o].compressedSize.Some? && o !in original { return Err(InvalidArgument); }
      return if Intact(PlaceOf(db.replicas[r.value]), db.replicas[r.value].content) then Ok(r.value) else Err(InvalidArgument);
    }

    /** Copies a payload into the archive `vault`. The archive key is made of the object and the
        replica, so archiving one replica twice finds its bytes already there, and a failing archive
        deletes them all the same: some archive row loses its bytes exactly when one already is at
        that key with its bytes there. */
    method ArchiveObject(o: ObjectId, x: ArchiveId, vault: Backend, fail: nat)
      returns (res: Result<ArchiveId>, ghost wrote: bool, ghost place: Loc)
      requires Valid() && x !in db.archives
      modifies this`db, this`phys
      ensures Valid()
      ensures wrote == old(CanArchive(db, phys, hash, original, o, vault))
      ensures wrote ==> place == Vault(vault, o, Source(old(db), hash, o).value) && (res.Ok? <==> fail >= 2)
      ensures res.Err? ==> db == old(db) && phys == if wrote then old(phys) - {place} else old(phys)
      ensures res.Err? ==> (SomeLoses(db.archives, old(phys), phys) <==> wrote && Occupied(db.archives, old(phys), place))
      ensures res.Ok? ==> o in db.objects && db.objects[o].state == Archived && res.value in db.archives && db.archives[res.value].owner == o
      ensures res.Ok? && wrote ==>
                && res.value == x && phys == old(phys)[place := db.archives[x].content]
                && db == old(db).(objects := old(db).objects[o := old(db).objects[o].(state := Archived)],
                                  archives := old(db).archives[x := db.archives[x]])
                && Readable(db, phys, hash, o, x)
      ensures res.Ok? && wrote ==>
                var r := Source(old(db), hash, o).value; var content := old(db).replicas[r].content;
                db.archives[x] == Archive(o, old(db).objects[o].generation, vault, r, content.length, content)
      ensures res.Ok? && !wrote ==> db == old(db) && phys == old(phys)
    {
      wrote, place := false, Vault(vault, o, 0);
      LosesNothing(db.archives, phys);
      if o in db.objects && db.objects[o].state == Archived {
        res := LastArchive(o);
        return;
      }
      res := ArchiveCheck(o, vault);
      if res.Err? { return; }
      wrote := true;
      res, place := ArchiveReplica(o, res.value, x, vault, fail);
    }

    /** The checks before anything is archived, and the replica to read. */
    method ArchiveCheck(o: ObjectId, vault: Backend) returns (res: Result<ReplicaId>)
      requires o in db.objects ==> o in hash && db.objects[o].state != Archived
      ensures res.Ok? <==> CanArchive(db, phys, hash, original, o, vault)
      ensures res.Ok? ==> res.value == Source(db, hash, o).value
    {
      if o !in db.objects { return Err(NotFound); }
      if CheckTransition(db.objects[o].state, Archived).Illegal? { return Err(InvalidArgument); }
      res := ArchiveSource(o);
      if res.Err? { return; }
      var l := Vault(vault, o, res.value);
      if l in phys && phys[l] != db.replicas[res.value].content { return Err(InvalidArgument); }
    }

    /** An object that is archived already: its archive row. */
    method LastArchive(o: ObjectId) returns (res: Result<ArchiveId>)
      ensures res.Ok? ==> res.value in db.archives && db.archives[res.value].owner == o
      ensures res.Ok? <==> exists y :: y in db.archives && db.archives[y].owner == o
    {
      if !exists y :: y in db.archives && db.archives[y].owner == o { return Err(InvalidArgument); }
      var y :| y in db.archives && db.archives[y].owner == o;
      return Ok(y);
    }

    /** The part of archiving that writes: payload, record, object. */
    method ArchiveReplica(o: ObjectId, r: ReplicaId, x: ArchiveId, vault: Backend, fail: nat) returns (res: Result<ArchiveId>, ghost place: Loc)
      requires Valid() && x !in db.archives && o in db.objects && r in db.replicas && db.replicas[r].owner == o
      requires db.objects[o].compressedSize.None? ==> db.replicas[r].content == hash[o]
      requires Vault(vault, o, r) in phys ==> phys[Vault(vault, o, r)] == db.replicas[r].content
      modifies this`db, this`phys
      ensures Valid() && place == Vault(vault, o, r) && (res.Ok? <==> fail >= 2)
      ensures res.Err? ==> db == old(db) && phys == old(phys) - {place}
      ensures res.Err? ==> (SomeLoses(db.archives, old(phys), phys) <==> Occupied(db.archives, old(phys), place))
      ensures res.Ok? ==>
                && res.value == x && x in db.archives && VaultOf(db.archives[x]) == place && phys == old(phys)[place := db.archives[x].content]
                && db == old(db).(objects := old(db).objects[o := old(db).objects[o].(state := Archived)],
                                  archives := old(db).archives[x := db.archives[x]])
                && db.archives[x] == Archive(o, old(db).objects[o].generation, vault, r, db.replicas[r].content.length, db.replicas[r].content)
                && (db.archives[x].content != hash[o] ==> db.objects[o].compressedSize.Some?)
    {
      var obj, content := db.objects[o], db.replicas[r].content;
      var record := Archive(o, obj.generation, vault, r, content.length, content);
      place := VaultOf(record);
      phys := phys[VaultOf(record) := content];
      LosesAt(db.archives, old(phys), place);
      if fail == 0 {
        phys := phys - {VaultOf(record)};
        assert phys == old(phys) - {place};
        return Err(Conflict), place;
      }
      ghost var d := db;
      db := db.(archives := db.archives[x := record]);
      if fail == 1 {
        Undone(db.archives, x, record, d.archives);
        db := db.(archives := db.archives - {x});
        phys := phys - {VaultOf(record)};
        assert phys == old(phys) - {place};
        return Err(Conflict), place;
      }
      db := db.(objects := db.objects[o := obj.(state := Archived)]);
      ArchiveGood(d, db, hash, original, expand, o, x, record);
      return Ok(x), place;
    }

    /** The bytes of an archive, expanded if they are not the content itself, and checked against it. */
    method ReadArchive(o: ObjectId, x: ArchiveId) returns (res: Result<Content>)
      requires Valid() && o in db.objects && db.objects[o].state == Archived && x in db.archives && db.archives[x].owner == o
      ensures res.Ok? ==> res.value == hash[o]
      ensures res.Ok? <==> Readable(db, phys, hash, o, x)
    {
      var record := db.archives[x];
      if !Intact(VaultOf(record), record.content) { return Err(InvalidArgument); }
      if db.objects[o].compressedSize.Some? && hash[o] != record.content {
        if o !in original { return Err(InvalidArgument); }
        var restored := expand(record.content, original[o]);
        if restored.None? || restored.value.length != original[o] || restored.value != hash[o] { return Err(InvalidArgument); }
        return Ok(restored.value);
      }
      return if record.content == hash[o] then Ok(record.content) else Err(InvalidArgument);
    }

    /** The object still has a hot copy: restoring it is a change of state only. */
    method Rehydrate(o: ObjectId, r: ReplicaId, obj: Object, fail: nat) returns (res: Result<ReplicaId>)
      requires Valid() && o in db.objects && db.objects[o].state == Archived && obj == db.objects[o].(state := Warm, compressedSize := None)
      requires r in db.replicas && db.replicas[r].owner == o && db.replicas[r].valid && db.replicas[r].content == hash[o]
      modifies this`db, this`original
      ensures Valid()
      ensures db == old(db).(objects := db.objects)
      ensures res.Ok? ==> res.value == r && IsRestored(db, phys, hash, original, o, r)
      ensures old(Intact(PlaceOf(db.replicas[r]), hash[o])) && fail >= 1 ==> RestoredTo(old(db), db, hash, old(original), original, o)
      ensures res.Ok? <==> Intact(PlaceOf(old(db).replicas[r]), hash[o]) && fail >= 2
      ensures res.Err? ==> (db == old(db) && original == old(original) <==> !(Intact(PlaceOf(old(db).replicas[r]), hash[o]) && fail == 1))
    {
      if !Intact(PlaceOf(db.replicas[r]), hash[o]) { return Err(InvalidArgument); }
      if fail == 0 { return Err(Conflict); }
      ghost var d, before := db, original;
      var restored := obj.(physicalSize := db.replicas[r].size, replicationCount := ValidCount(db.replicas, o));
      db := db.(objects := db.objects[o := restored]);
      original := original - {o};
      ObjectGood(d, db, hash, before, expand, o, restored);
      if fail == 1 { return Err(Conflict); }
      return Ok(r);
    }

    /** Records a new row of `o`: reference, row, object and audit, the first `fail` of them; a
        failure takes back what was written. */
    method RecordRow(o: ObjectId, id: ReplicaId, row: Replica, obj: Object, fail: nat) returns (ok: bool)
      requires o in db.objects && id !in db.replicas
      requires IdentityOf(row) in db.dedup ==> db.dedup[IdentityOf(row)].refs >= 1
      modifies this`db
      ensures ok <==> fail >= 4
      ensures !ok ==> db == old(db)
      ensures ok ==> db == old(db).(replicas := old(db).replicas[id := row],
                                    dedup := old(db).dedup[IdentityOf(row) := Counted(old(db).dedup, row)],
                                    objects := old(db).objects[o := obj.(replicationCount := ValidCount(db.replicas, o))])
    {
      ghost var d := db;
      if fail == 0 { return false; }
      CountedReleased(db.dedup, row);
      db := db.(dedup := db.dedup[IdentityOf(row) := Counted(db.dedup, row)]);
      if fail > 1 {
        db := db.(replicas := db.replicas[id := row]);
        if fail > 2 {
          var was := db.objects[o];
          db := db.(objects := db.objects[o := obj.(replicationCount := ValidCount(db.replicas, o))]);
          if fail > 3 { return true; }
          db := db.(objects := db.objects[o := was]);
          assert db.objects == d.objects;
        }
        db := db.(replicas := db.replicas - {id});
        assert db.replicas == d.replicas;
      }
      db := db.(dedup := Released(db.dedup, IdentityOf(row)));
      return false;
    }

    /** Stores a payload, or finds it stored, and records a row for it. */
    method AddPayload(o: ObjectId, row: Replica, obj: Object, suffix: nat, id: ReplicaId, fail: nat) returns (res: Result<Key>)
      requires Exact(db.replicas, db.dedup) && KeysHold(db.replicas) && o in db.objects && id !in db.replicas
      modifies this`db, this`phys
      ensures KeepsBytes(db.replicas, old(phys), phys, id)
      ensures Unused(db.replicas, phys) <= Unused(old(db).replicas, old(phys))
      ensures res.Err? ==> db == old(db)
      ensures res.Ok? ==> res.value.content == row.content && Intact(Payload(row.backend, res.value), row.content)
      ensures res.Ok? && IdentityOf(row) in old(db).dedup ==> old(db).dedup[IdentityOf(row)].key == res.value
      ensures res.Ok? ==> db == old(db).(replicas := old(db).replicas[id := row.(key := res.value)],
                                         dedup := old(db).dedup[IdentityOf(row) := Counted(old(db).dedup, row.(key := res.value))],
                                         objects := old(db).objects[o := obj.(replicationCount := ValidCount(db.replicas, o))])
      ensures res.Ok? <==> (IdentityOf(row) in old(db).dedup ==> old(Intact(Payload(row.backend, db.dedup[IdentityOf(row)].key), row.content))) && fail >= 4
    {
      var key, wrote := PlacePayload(row.content, row.backend, suffix);
      if key.Err? { return key; }
      EntryKey(db.replicas, db.dedup, IdentityOf(row));
      ghost var d := db;
      var ok := RecordRow(o, id, row.(key := key.value), obj, fail);
      if !ok {
        if wrote { TakeBack(Payload(row.backend, key.value)); }
        return Err(Conflict);
      }
      AddLeavesNothing(d.replicas, id, row.(key := key.value), old(phys), phys);
      return key;
    }

    /** The content becomes a new replica of the object, which is WARM from then on. */
    method StoreContent(o: ObjectId, data: Content, obj: Object, hot: Backend, suffix: nat, id: ReplicaId, fail: nat) returns (ok: bool)
      requires Valid() && o in db.objects && id !in db.replicas && data == hash[o]
      requires obj == db.objects[o].(state := Warm, compressedSize := None)
      modifies this`db, this`phys
      ensures KeepsBytes(db.replicas, old(phys), phys, id)
      ensures Unused(db.replicas, phys) <= Unused(old(db).replicas, old(phys))
      ensures !ok ==> db == old(db)
      ensures ok ==> StoredAs(old(db), db, phys, hash, original, expand, o, id, hot)
      ensures ok <==> (Identity(data, hot) in old(db).dedup ==> old(Intact(Payload(hot, db.dedup[Identity(data, hot)].key), data))) && fail >= 4
    {
      ghost var d := db;
      var row := Replica(o, obj.generation, hot, Key(data, suffix), data.length, data, true);
      var added := AddPayload(o, row, obj.(physicalSize := row.size), suffix, id, fail);
      if added.Err? { return false; }
      AddDone(d, db, phys, hash, original, expand, o, id, row.(key := added.value), obj, hot);
      return true;
    }

    /** The object has no hot copy left: its content is stored again. */
    method Rematerialise(o: ObjectId, data: Content, obj: Object, hot: Backend, suffix: nat, id: ReplicaId, fail: nat) returns (res: Result<ReplicaId>)
      requires Valid() && o in db.objects && id !in db.replicas && data == hash[o]
      requires obj == db.objects[o].(state := Warm, compressedSize := None)
      modifies this`db, this`phys, this`original
      ensures Valid()
      ensures KeepsBytes(db.replicas, old(phys), phys, id)
      ensures res.Err? ==> db == old(db) && original == old(original)
      ensures res.Ok? ==> res.value == id && original == old(original) - {o} && StoredAs(old(db), db, phys, hash, old(original), expand, o, id, hot)
      ensures Unused(db.replicas, phys) <= Unused(old(db).replicas, old(phys))
      ensures res.Ok? <==> (Identity(data, hot) in old(db).dedup ==> old(Intact(Payload(hot, db.dedup[Identity(data, hot)].key), data))) && fail >= 4
    {
      var ok := StoreContent(o, data, obj, hot, suffix, id, fail);
      if !ok { return Err(Conflict); }
      original := original - {o};
      return Ok(id);
    }

    /** Brings an archived object back. On success it owns a valid replica whose bytes are its
        original content, and nothing of a compression is left in its metadata. On failure rows and
        references are as before, and so are the object and its metadata, unless an intact hot copy
        was taken and the audit write failed. */
    method RestoreObject(o: ObjectId, x: ArchiveId, hot: Backend, suffix: nat, id: ReplicaId, fail: nat) returns (res: Result<ReplicaId>)
      requires Valid() && id !in db.replicas
      modifies this
      ensures Valid() && hash == old(hash)
      ensures KeepsBytes(db.replicas, old(phys), phys, id)
      ensures res.Err? ==> db.replicas == old(db).replicas && db.dedup == old(db).dedup && db.archives == old(db).archives
      ensures res.Err? ==> (db == old(db) && original == old(original) <==> !(old(Rehydrates(db, phys, hash, o, x)) && fail == 1))
      ensures res.Ok? <==> (old(Rehydrates(db, phys, hash, o, x)) && fail >= 2) || (old(Rematerialises(db, phys, hash, o, x, hot)) && fail >= 4)
      ensures res.Ok? ==> IsRestored(db, phys, hash, original, o, res.value)
      ensures res.Ok? || (old(Rehydrates(db, phys, hash, o, x)) && fail == 1) ==>
                && original == old(original) - {o} && db.archives == old(db).archives
                && db.objects == old(db).objects[o := old(db).objects[o].(
                     state := Warm, compressedSize := None, physicalSize := hash[o].length,
                     replicationCount := |set r | r in db.replicas && db.replicas[r].owner == o && db.replicas[r].valid|)]
      ensures res.Ok? ==> db.replicas == if old(Rehydrates(db, phys, hash, o, x)) then old(db).replicas else
                old(db).replicas[id := Replica(o, old(db).objects[o].generation, hot, db.replicas[res.value].key, hash[o].length, hash[o], true)]
      ensures Unused(db.replicas, phys) <= Unused(old(db).replicas, old(phys))
    {
      if o !in db.objects || db.objects[o].state != Archived { return Err(InvalidArgument); }
      if x !in db.archives || db.archives[x].owner != o { return Err(NotFound); }
      var data := ReadArchive(o, x);
      if data.Err? { return Err(data.error); }
      var obj := db.objects[o].(state := Warm, compressedSize := None);
      var copy := HotCopy(db, hash, o);
      if copy.Some? {
        res := Rehydrate(o, copy.value, obj, fail);
      } else {
        res := Rematerialise(o, data.value, obj, hot, suffix, id, fail);
      }
    }

    /** An object in a sound store is compressed, and can be archived then. */
    method CompressSound(o: ObjectId, id: ReplicaId, vault: Backend)
      requires Valid() && Sound(db, phys, hash, original, squeeze, expand, o, vault) && id !in db.replicas
      modifies this
      ensures Valid() && hash == old(hash) && db.archives == old(db).archives
      ensures db.replicas.Keys <= old(db).replicas.Keys + {id}
      ensures AllIntact(db, phys) && CanArchive(db, phys, hash, original, o, vault)
    {
      ghost var d, p, sizes := db, phys, original;
      SoundCompresses(db, phys, hash, original, squeeze, expand, o, vault);
      var compressed := Compress(o, 0, id, 5);
      RowsAfter(d, db, compressed.value, id);
      SoundArchives(d, p, db, phys, hash, sizes, original, squeeze, expand, o, vault, compressed.value, id);
    }

    /** There: an object in a sound store is compressed and archived. */
    method CompressArchive(o: ObjectId, id: ReplicaId, x: ArchiveId, vault: Backend)
      requires Valid() && Sound(db, phys, hash, original, squeeze, expand, o, vault) && id !in db.replicas && x !in db.archives
      modifies this
      ensures Valid() && hash == old(hash)
      ensures db.replicas.Keys <= old(db).replicas.Keys + {id}
      ensures AllIntact(db, phys) && Readable(db, phys, hash, o, x)
    {
      CompressSound(o, id, vault);
      ghost var e, q := db, phys;
      var archived;
      ghost var wrote, place;
      archived, wrote, place := ArchiveObject(o, x, vault, 2);
      VaultKeepsIntact(e, q, db, phys, place);
    }

    /** There and back: while no write fails, an object whose content the codec really squeezes, in a
        store with no damaged payload and no archive of the object yet, is compressed, archived and
        restored. */
    method CompressArchiveRestore(o: ObjectId, id: ReplicaId, x: ArchiveId, vault: Backend, hot: Backend, again: ReplicaId)
      returns (r: ReplicaId)
      requires Valid() && Sound(db, phys, hash, original, squeeze, expand, o, vault)
      requires id !in db.replicas && again !in db.replicas && again != id && x !in db.archives
      modifies this
      ensures Valid() && hash == old(hash) && IsRestored(db, phys, hash, original, o, r)
    {
      CompressArchive(o, id, x, vault);
      SoundRestores(db, phys, hash, o, x, hot);
      var restored := RestoreObject(o, x, hot, 0, again, 4);
      r := restored.value;
    }
  }

  ghost predicate AllIntact(d: Db, phys: Physical) {
    forall r <- d.replicas :: Has(phys, PlaceOf(d.replicas[r]), d.replicas[r].content)
  }

  ghost predicate SameVaults(p: Physical, q: Physical) {
    forall l: Loc :: l.Vault? ==> (l in q <==> l in p) && (l in q ==> q[l] == p[l])
  }

  /** What CompressArchiveRestore asks of the store it starts from. */
  ghost predicate Sound(d: Db, phys: Physical, hash: map<ObjectId, Content>, original: map<ObjectId, nat>,
                        squeeze: Content -> Option<Content>, expand: (Content, nat) -> Option<Content>, o: ObjectId, vault: Backend)
  {
    && AllIntact(d, phys)
    && o in d.objects && o in hash && d.objects[o].state != Compressed && o !in original && !CheckTransition(d.objects[o].state, Compressed).Illegal?
    && HotCopy(d, hash, o).Some?
    && squeeze(hash[o]).Some? && squeeze(hash[o]).value != hash[o] && expand(squeeze(hash[o]).value, hash[o].length) == Some(hash[o])
    && (forall l <- phys :: l.Vault? ==> !(l.backend == vault && l.owner == o))
  }

  /** Canonical payloads are those of some row. */
  lemma CanonicalIntact(d: Db, phys: Physical, i: Identity)
    requires Exact(d.replicas, d.dedup) && AllIntact(d, phys) && i in d.dedup
    ensures Has(phys, Payload(i.backend, d.dedup[i].key), i.content)
  {
    assert ExactFor(d.replicas, d.dedup, i);
    var r :| r in RowSet(d.replicas, i);
    assert PlaceOf(d.replicas[r]) == Payload(i.backend, d.dedup[i].key);
  }

  lemma SoundCompresses(d: Db, phys: Physical, hash: map<ObjectId, Content>, original: map<ObjectId, nat>,
                        squeeze: Content -> Option<Content>, expand: (Content, nat) -> Option<Content>, o: ObjectId, vault: Backend)
    requires Exact(d.replicas, d.dedup) && Sound(d, phys, hash, original, squeeze, expand, o, vault)
    ensures CanCompress(d, phys, hash, original, squeeze, expand, o)
  {
    var row := d.replicas[HotCopy(d, hash, o).value];
    var i := Identity(squeeze(hash[o]).value, row.backend);
    if i in d.dedup { CanonicalIntact(d, phys, i); }
  }

  lemma SoundArchives(d: Db, p: Physical, e: Db, q: Physical, hash: map<ObjectId, Content>, sizes: map<ObjectId, nat>, original: map<ObjectId, nat>,
                      squeeze: Content -> Option<Content>, expand: (Content, nat) -> Option<Content>, o: ObjectId, vault: Backend, r: ReplicaId, id: ReplicaId)
    requires Sound(d, p, hash, sizes, squeeze, expand, o, vault)
    requires CompressedInto(d, e, hash, original, o, r, id) && KeepsBytes(e.replicas, p, q, id) && SameVaults(p, q) && id !in d.replicas
    requires Has(q, PlaceOf(e.replicas[id]), e.replicas[id].content) && squeeze(hash[o]) == Some(e.replicas[id].content)
    ensures AllIntact(e, q) && CanArchive(e, q, hash, original, o, vault)
  {
    forall s <- e.replicas ensures Has(q, PlaceOf(e.replicas[s]), e.replicas[s].content) {
      if s != id { assert e.replicas[s] == d.replicas[s]; }
    }
    assert id in Sources(e, hash, o);
  }

  lemma RowsAfter(d: Db, e: Db, r: ReplicaId, id: ReplicaId)
    requires id in e.replicas && e.replicas == (d.replicas - {r})[id := e.replicas[id]]
    ensures e.replicas.Keys <= d.replicas.Keys + {id}
  {
  }

  lemma VaultKeepsIntact(d: Db, p: Physical, e: Db, q: Physical, place: Loc)
    requires AllIntact(d, p) && e.replicas == d.replicas && place.Vault? && place in q && q == p[place := q[place]]
    ensures AllIntact(e, q)
  {
  }

  lemma SoundRestores(d: Db, phys: Physical, hash: map<ObjectId, Content>, o: ObjectId, x: ArchiveId, hot: Backend)
    requires AllIntact(d, phys) && Exact(d.replicas, d.dedup) && Readable(d, phys, hash, o, x)
    ensures Rehydrates(d, phys, hash, o, x) || Rematerialises(d, phys, hash, o, x, hot)
  {
    if Identity(hash[o], hot) in d.dedup { CanonicalIntact(d, phys, Identity(hash[o], hot)); }
  }

  /** Archive row `y` had its bytes before and has not after. */
  ghost predicate LosesBytes(m: map<ArchiveId, Archive>, before: Physical, after: Physical, y: ArchiveId) {
    y in m && VaultOf(m[y]) in before && VaultOf(m[y]) !in after
  }

  ghost predicate SomeLoses(m: map<ArchiveId, Archive>, before: Physical, after: Physical) {
    exists y :: LosesBytes(m, before, after, y)
  }

  /** An archive row is at `place` already, and its bytes are there. */
  ghost predicate Occupied(m: map<ArchiveId, Archive>, phys: Physical, place: Loc) {
    place in phys && exists y :: y in m && VaultOf(m[y]) == place
  }

  lemma LosesNothing(m: map<ArchiveId, Archive>, phys: Physical)
    ensures !SomeLoses(m, phys, phys)
  {
  }

  lemma LosesAt(m: map<ArchiveId, Archive>, before: Physical, place: Loc)
    ensures SomeLoses(m, before, before - {place}) <==> Occupied(m, before, place)
  {
    if Occupied(m, before, place) {
      var y :| y in m && VaultOf(m[y]) == place;
      assert LosesBytes(m, before, before - {place}, y);
    }
  }

  lemma Undone<K, V>(m: map<K, V>, k: K, v: V, was: map<K, V>)
    requires k !in was && m == was[k := v]
    ensures m - {k} == was
  {
  }

  function ValidCount(m: map<ReplicaId, Replica>, o: ObjectId): (n: nat) {
    |set r | r in m && m[r].owner == o && m[r].valid|
  }

  /** The object as a restore leaves it: WARM, uncompressed, with the size of its content and the number
      of its valid rows; nothing is kept of a compression. */
  predicate RestoredTo(d: Db, e: Db, hash: map<ObjectId, Content>, was: map<ObjectId, nat>, original: map<ObjectId, nat>, o: ObjectId) {
    && o in d.objects && o in hash && original == was - {o}
    && e.objects == d.objects[o := d.objects[o].(state := Warm, compressedSize := None, physicalSize := hash[o].length,
                                                 replicationCount := ValidCount(e.replicas, o))]
  }

  /** `o` is restored: replica `r` holds its content, and its metadata says so. */
  ghost predicate IsRestored(d: Db, phys: Physical, hash: map<ObjectId, Content>, original: map<ObjectId, nat>, o: ObjectId, r: ReplicaId) {
    && o in d.objects && d.objects[o].state == Warm && d.objects[o].compressedSize.None? && o !in original
    && d.objects[o].replicationCount == ValidCount(d.replicas, o)
    && o in hash && r in d.replicas && d.replicas[r].owner == o && d.replicas[r].valid && d.replicas[r].content == hash[o]
    && PlaceOf(d.replicas[r]) in phys && phys[PlaceOf(d.replicas[r])] == hash[o]
    && d.objects[o].physicalSize == d.replicas[r].size
  }

  lemma ObjectGood(d: Db, e: Db, hash: map<ObjectId, Content>, original: map<ObjectId, nat>, expand: (Content, nat) -> Option<Content>,
                   o: ObjectId, restored: Object)
    requires Good(d, hash, original, expand) && o in hash && restored.compressedSize.None?
    requires e == d.(objects := d.objects[o := restored])
    ensures Good(e, hash, original - {o}, expand)
  {
  }

  lemma AddGood(d: Db, e: Db, hash: map<ObjectId, Content>, original: map<ObjectId, nat>, expand: (Content, nat) -> Option<Content>,
                o: ObjectId, id: ReplicaId, row: Replica, restored: Object)
    requires Good(d, hash, original, expand) && o in hash && restored.compressedSize.None? && id !in d.replicas
    requires row.owner == o && row.content == hash[o] && row.key.content == row.content && row.size == row.content.length
    requires IdentityOf(row) in d.dedup ==> d.dedup[IdentityOf(row)].key == row.key
    requires e == d.(replicas := d.replicas[id := row], dedup := d.dedup[IdentityOf(row) := Counted(d.dedup, row)], objects := d.objects[o := restored])
    ensures Good(e, hash, original - {o}, expand)
  {
    SizeOfEntry(d.replicas, d.dedup, IdentityOf(row));
    AddExact(d.replicas, d.dedup, id, row);
  }

  lemma AddRestored(d: Db, e: Db, phys: Physical, hash: map<ObjectId, Content>, original: map<ObjectId, nat>,
                    o: ObjectId, id: ReplicaId, row: Replica, obj: Object)
    requires e.replicas == d.replicas[id := row] && e.objects == d.objects[o := obj.(replicationCount := ValidCount(e.replicas, o))]
    requires obj.state == Warm && obj.compressedSize.None? && obj.physicalSize == row.size
    requires o in hash && row.owner == o && row.valid && row.content == hash[o] && Has(phys, PlaceOf(row), hash[o])
    ensures IsRestored(e, phys, hash, original - {o}, o, id) && e.replicas == d.replicas[id := e.replicas[id]]
  {
  }

  lemma AddRestoredTo(d: Db, e: Db, hash: map<ObjectId, Content>, original: map<ObjectId, nat>, o: ObjectId, obj: Object)
    requires o in d.objects && o in hash && obj == d.objects[o].(state := Warm, compressedSize := None)
    requires e.objects == d.objects[o := obj.(physicalSize := hash[o].length, replicationCount := ValidCount(e.replicas, o))]
    ensures RestoredTo(d, e, hash, original, original - {o}, o)
  {
  }

  /** `o` is restored by a new row `id` for its content; nothing else has changed but the counts. */
  ghost predicate StoredAs(d: Db, e: Db, phys: Physical, hash: map<ObjectId, Content>, original: map<ObjectId, nat>, expand: (Content, nat) -> Option<Content>,
                           o: ObjectId, id: ReplicaId, hot: Backend)
  {
    && Good(e, hash, original - {o}, expand) && IsRestored(e, phys, hash, original - {o}, o, id)
    && RestoredTo(d, e, hash, original, original - {o}, o) && e.archives == d.archives && id in e.replicas
    && e.replicas == d.replicas[id := Replica(o, d.objects[o].generation, hot, e.replicas[id].key, hash[o].length, hash[o], true)]
  }

  /** What recording the new row has achieved. */
  lemma AddDone(d: Db, e: Db, phys: Physical, hash: map<ObjectId, Content>, original: map<ObjectId, nat>, expand: (Content, nat) -> Option<Content>,
                o: ObjectId, id: ReplicaId, row: Replica, obj: Object, hot: Backend)
    requires Good(d, hash, original, expand) && o in d.objects && o in hash && id !in d.replicas && obj == d.objects[o].(state := Warm, compressedSize := None)
    requires row == Replica(o, d.objects[o].generation, hot, row.key, hash[o].length, hash[o], true) && row.key.content == row.content
    requires IdentityOf(row) in d.dedup ==> d.dedup[IdentityOf(row)].key == row.key
    requires e == d.(replicas := d.replicas[id := row], dedup := d.dedup[IdentityOf(row) := Counted(d.dedup, row)],
                     objects := d.objects[o := obj.(physicalSize := row.size, replicationCount := ValidCount(e.replicas, o))])
    requires Has(phys, PlaceOf(row), hash[o])
    ensures StoredAs(d, e, phys, hash, original, expand, o, id, hot)
  {
    AddGood(d, e, hash, original, expand, o, id, row, e.objects[o]);
    AddRestored(d, e, phys, hash, original, o, id, row, obj.(physicalSize := row.size));
    AddRestoredTo(d, e, hash, original, o, obj);
  }

  lemma SizeOfEntry(m: map<ReplicaId, Replica>, dedup: map<Identity, DedupEntry>, i: Identity)
    requires Exact(m, dedup) && SizesHold(m)
    ensures i in dedup ==> dedup[i].size == i.content.length
  {
    assert ExactFor(m, dedup, i);
    if i in dedup { var r :| r in RowSet(m, i); }
  }

  lemma ArchiveGood(d: Db, e: Db, hash: map<ObjectId, Content>, original: map<ObjectId, nat>, expand: (Content, nat) -> Option<Content>,
                    o: ObjectId, x: ArchiveId, record: Archive)
    requires Good(d, hash, original, expand) && o in hash && record.owner == o && Expands(expand, hash[o], record.content)
    requires e == d.(objects := d.objects[o := d.objects[o].(state := Archived)], archives := d.archives[x := record])
    ensures Good(e, hash, original, expand)
  {
  }

  /** What a compression of `o` did: row `id` holds its compressed payload in place of row `r`. */
  ghost predicate CompressedInto(d: Db, e: Db, hash: map<ObjectId, Content>, original: map<ObjectId, nat>, o: ObjectId, r: ReplicaId, id: ReplicaId) {
    && o in e.objects && e.objects[o].state == Compressed && e.objects[o].compressedSize.Some?
    && o in hash && o in original && original[o] == hash[o].length
    && r in d.replicas && d.replicas[r].owner == o && d.replicas[r].content == hash[o]
    && id in e.replicas && e.replicas == (d.replicas - {r})[id := e.replicas[id]]
    && e.replicas[id].owner == o && e.replicas[id].valid
    && e.archives == d.archives
  }

  lemma SwapDone(d: Db, e: Db, hash: map<ObjectId, Content>, original: map<ObjectId, nat>, o: ObjectId, r: ReplicaId, id: ReplicaId, row: Replica, updated: Object)
    requires e == d.(objects := d.objects[o := updated], replicas := (d.replicas - {r})[id := row], dedup := e.dedup)
    requires updated.state == Compressed && updated.compressedSize.Some? && o in hash && o in original && original[o] == hash[o].length
    requires r in d.replicas && d.replicas[r].owner == o && d.replicas[r].content == hash[o] && row.owner == o && row.valid
    ensures CompressedInto(d, e, hash, original, o, r, id) && e.replicas[id] == row
  {
  }

  /** Payloads at which no replica row is. */
  ghost function Unused(m: map<ReplicaId, Replica>, phys: Physical): (places: set<Loc>) {
    set l | l in phys && l.Payload? && forall r <- m :: PlaceOf(m[r]) != l
  }

  /** A swap that deletes the old payload with its last reference leaves no payload unused. */
  lemma SwapLeavesNothing(m: map<ReplicaId, Replica>, dedup: map<Identity, DedupEntry>, r: ReplicaId, id: ReplicaId, row: Replica, p: Physical, q: Physical)
    requires Exact(m, dedup) && r in m && id !in m && IdentityOf(m[r]) in dedup && row.backend == m[r].backend
    requires m[r].content == row.content ==> m[r].key == row.key
    requires forall l <- q :: l in p || l == PlaceOf(row)
    requires m[r].content != row.content && dedup[IdentityOf(m[r])].refs == 1 ==> PlaceOf(m[r]) !in q
    ensures Unused((m - {r})[id := row], q) <= Unused(m, p)
  {
    var n := (m - {r})[id := row];
    forall l <- Unused(n, q) ensures l in Unused(m, p) {
      assert PlaceOf(n[id]) != l;
      SecondRow(m, dedup, r);
      if x :| x in m && x != r && PlaceOf(m[x]) == PlaceOf(m[r]) { assert n[x] == m[x] && PlaceOf(n[x]) != l; }
      forall x <- m ensures PlaceOf(m[x]) != l {
        if x != r { assert n[x] == m[x]; }
      }
    }
  }

  lemma AddLeavesNothing(m: map<ReplicaId, Replica>, id: ReplicaId, row: Replica, p: Physical, q: Physical)
    requires id !in m && forall l <- q :: l in p || l == PlaceOf(row)
    ensures Unused(m[id := row], q) <= Unused(m, p)
  {
    var n := m[id := row];
    forall l <- Unused(n, q) ensures l in Unused(m, p) {
      assert PlaceOf(n[id]) != l;
      forall x <- m ensures PlaceOf(m[x]) != l { assert n[x] == m[x]; }
    }
  }

  /** Of a payload with more than one reference there is another row at the same place. */
  lemma SecondRow(m: map<ReplicaId, Replica>, dedup: map<Identity, DedupEntry>, r: ReplicaId)
    requires Exact(m, dedup) && r in m && IdentityOf(m[r]) in dedup
    ensures dedup[IdentityOf(m[r])].refs != 1 ==> exists x :: x in m && x != r && PlaceOf(m[x]) == PlaceOf(m[r])
  {
    var i := IdentityOf(m[r]);
    assert ExactFor(m, dedup, i) && r in RowSet(m, i);
    if dedup[i].refs != 1 {
      assert |RowSet(m, i) - {r}| == |RowSet(m, i)| - 1;
      var x :| x in RowSet(m, i) - {r};
      assert PlaceOf(m[x]) == PlaceOf(m[r]);
    }
  }

  lemma SwapKeepsBytes(m: map<ReplicaId, Replica>, r: ReplicaId, id: ReplicaId, row: Replica, p: Physical, q: Physical, s: Physical)
    requires KeepsBytes(m, p, q, r) && KeepsBytes(m, q, s, r)
    ensures KeepsBytes((m - {r})[id := row], p, s, id)
  {
  }

  /** Rows other than `but` keep the bytes they had. */
  ghost predicate KeepsBytes(m: map<ReplicaId, Replica>, before: Physical, after: Physical, but: ReplicaId) {
    forall r <- m :: r != but && PlaceOf(m[r]) in before ==> PlaceOf(m[r]) in after && after[PlaceOf(m[r])] == before[PlaceOf(m[r])]
  }

  lemma RowCounted(m: map<ReplicaId, Replica>, dedup: map<Identity, DedupEntry>, r: ReplicaId)
    requires Exact(m, dedup) && r in m
    ensures IdentityOf(m[r]) in dedup && dedup[IdentityOf(m[r])].key == m[r].key
  {
    assert ExactFor(m, dedup, IdentityOf(m[r])) && r in RowSet(m, IdentityOf(m[r]));
  }

  lemma EntryKey(m: map<ReplicaId, Replica>, dedup: map<Identity, DedupEntry>, i: Identity)
    requires Exact(m, dedup) && KeysHold(m)
    ensures i in dedup ==> dedup[i].key.content == i.content && dedup[i].refs >= 1
  {
    assert ExactFor(m, dedup, i);
    if i in dedup { var r :| r in RowSet(m, i); }
  }

  /** A payload without a dedup row has no replica rows, at whatever key. */
  lemma NoRowAt(m: map<ReplicaId, Replica>, dedup: map<Identity, DedupEntry>, i: Identity, key: Key)
    requires Exact(m, dedup) && KeysHold(m) && i !in dedup && key.content == i.content
    ensures forall r <- m :: PlaceOf(m[r]) != Payload(i.backend, key)
  {
    assert ExactFor(m, dedup, i);
    forall r <- m ensures PlaceOf(m[r]) != Payload(i.backend, key) { assert r !in RowSet(m, i); }
  }

  /** The row with the last reference is the only one at its place. */
  lemma LastRow(m: map<ReplicaId, Replica>, dedup: map<Identity, DedupEntry>, r: ReplicaId)
    requires Exact(m, dedup) && KeysHold(m) && r in m && IdentityOf(m[r]) in dedup && dedup[IdentityOf(m[r])].refs == 1
    ensures forall q <- m :: PlaceOf(m[q]) == PlaceOf(m[r]) ==> q == r
  {
    assert ExactFor(m, dedup, IdentityOf(m[r]));
    Singleton(RowSet(m, IdentityOf(m[r])), r);
    forall q <- m | PlaceOf(m[q]) == PlaceOf(m[r]) ensures q == r { assert q in RowSet(m, IdentityOf(m[r])); }
  }

  /** The store after `n` of the five writes of a swap. */
  function SwapStage(d: Db, n: nat, o: ObjectId, r: ReplicaId, id: ReplicaId, row: Replica, updated: Object): (e: Db)
    requires r in d.replicas
  {
    var i, j := IdentityOf(d.replicas[r]), IdentityOf(row);
    var counted := if n >= 1 && i != j then d.dedup[j := Counted(d.dedup, row)] else d.dedup;
    var released := if n >= 2 && i != j then Released(counted, i) else counted;
    var replicas := if n >= 4 then (d.replicas - {r})[id := row] else if n >= 3 then d.replicas - {r} else d.replicas;
    d.(dedup := released, replicas := replicas, objects := if n >= 5 then d.objects[o := updated] else d.objects)
  }

  /** The dedup table after a swap. */
  function Swapped(dedup: map<Identity, DedupEntry>, i: Identity, row: Replica): (after: map<Identity, DedupEntry>) {
    if i == IdentityOf(row) then dedup else Released(dedup[IdentityOf(row) := Counted(dedup, row)], i)
  }

  /** Swapping one row for another of the same object and backend keeps the table exact. */
  lemma SwapExact(m: map<ReplicaId, Replica>, dedup: map<Identity, DedupEntry>, r: ReplicaId, id: ReplicaId, row: Replica)
    requires Exact(m, dedup) && r in m && id !in m && m[r].key.content == m[r].content && m[r].size == m[r].content.length
    requires row.key.content == row.content && row.size == row.content.length
    requires forall q <- m :: m[q].size == m[q].content.length
    requires IdentityOf(row) in dedup ==> dedup[IdentityOf(row)].key == row.key
    ensures IdentityOf(m[r]) in dedup && dedup[IdentityOf(m[r])].refs >= 1
    ensures Exact((m - {r})[id := row], Swapped(dedup, IdentityOf(m[r]), row))
  {
    assert ExactFor(m, dedup, IdentityOf(m[r])) && r in RowSet(m, IdentityOf(m[r]));
    assert ExactFor(m, dedup, IdentityOf(row));
    AddExact(m, dedup, id, row);
    var more, counted := m[id := row], dedup[IdentityOf(row) := Counted(dedup, row)];
    RemoveExact(more, counted, r);
    assert more - {r} == (m - {r})[id := row];
    if IdentityOf(m[r]) == IdentityOf(row) { CountedReleased(dedup, row); }
  }

  // ------------------------------------------------------------------
  // Where archiving and restoring do not keep what they should
  // ------------------------------------------------------------------

  const Bytes: Content := Content(1, 1)

  const HotRow: Replica := Replica(0, 0, 0, Key(Bytes, 0), 1, Bytes, true)

  const VaultRow: Archive := Archive(0, 0, 0, 0, 1, Bytes)

  /** An object that was archived once and still has its hot copy, in the given state. */
  function Twice(state: Lifecycle): (d: Db) {
    Db(map[0 := Object(0, state, Ephemeral, false, false, false, 1, 1, None)], map[0 := HotRow], map[0 := VaultRow],
       map[Identity(Bytes, 0) := DedupEntry(Key(Bytes, 0), 1, 1)], map[], map[], map[])
  }

  const TwicePhys: Physical := map[Payload(0, Key(Bytes, 0)) := Bytes, Vault(0, 0, 0) := Bytes]

  lemma TwiceGood(state: Lifecycle, expand: (Content, nat) -> Option<Content>)
    ensures Good(Twice(state), map[0 := Bytes], map[], expand)
  {
    var d := Twice(state);
    forall i ensures ExactFor(d.replicas, d.dedup, i) {
      assert RowSet(d.replicas, i) == if i == Identity(Bytes, 0) then {0} else {};
    }
  }

  /** A store in which a failing archive loses bytes: the object was archived, restored while its hot
      copy was there, and is about to be archived again, from the same replica. */
  lemma SecondArchiveLoses(expand: (Content, nat) -> Option<Content>)
    ensures Good(Twice(Warm), map[0 := Bytes], map[], expand)
    ensures CanArchive(Twice(Warm), TwicePhys, map[0 := Bytes], map[], 0, 0)
    ensures var place := Vault(0, 0, Source(Twice(Warm), map[0 := Bytes], 0).value);
            Occupied(Twice(Warm).archives, TwicePhys, place) && SomeLoses(Twice(Warm).archives, TwicePhys, TwicePhys - {place})
  {
    TwiceGood(Warm, expand);
    assert Sources(Twice(Warm), map[0 := Bytes], 0) == {0};
    assert VaultOf(Twice(Warm).archives[0]) == Vault(0, 0, 0);
    LosesAt(Twice(Warm).archives, TwicePhys, Vault(0, 0, 0));
  }

  /** A store in which a restore that cannot write its audit row leaves the object restored. */
  lemma RestoreHalfDone(expand: (Content, nat) -> Option<Content>)
    ensures Good(Twice(Archived), map[0 := Bytes], map[], expand)
    ensures Rehydrates(Twice(Archived), TwicePhys, map[0 := Bytes], 0, 0)
  {
    TwiceGood(Archived, expand);
    assert HotCopies(Twice(Archived), map[0 := Bytes], 0) == {0};
  }
}
