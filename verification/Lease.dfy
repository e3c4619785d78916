/** The coordinator lease, a single row, and the epoch fence at the nodes. */
module Lease {
  import opened Fabric

  const MAX_EPOCH: nat := 0x7FFF_FFFF_FFFF_FFFF
  const MAX_TIME: int := 0x7FFF_FFFF_FFFF_FFFF
  const MIN_TIME: int := -0x8000_0000_0000_0000

  type Time = t: int | MIN_TIME <= t <= MAX_TIME

  datatype Holder = Holder(process: string, boot: nat)

  datatype Row = Row(epoch: nat, holder: Holder, lastSeen: Time)

  /** The age of a lease, in saturating arithmetic. */
  function Age(now: Time, seen: Time): (age: Time) {
    if now - seen > MAX_TIME then MAX_TIME else if now - seen < MIN_TIME then MIN_TIME else now - seen
  }

  /** A lease that was released, or has not been renewed for longer than the window. */
  predicate Stale(row: Row, now: Time, window: Time) {
    row.lastSeen == 0 || Age(now, row.lastSeen) > window
  }

  /** In plain integers: renewed, not released since, and no more than a window ago; no age is longer
      than the longest window. */
  predicate Within(row: Row, now: Time, window: Time) {
    row.lastSeen != 0 && (now - row.lastSeen <= window || window == MAX_TIME)
  }

  predicate Held(row: Option<Row>, h: Holder, epoch: nat) {
    row.Some? && row.value.epoch == epoch && row.value.holder == h
  }

  datatype Call =
    | Claim(holder: Holder, now: Time, window: Time)
    | Beat(holder: Holder, epoch: nat, now: Time)
    | Free(holder: Holder, epoch: nat)

  /** What a call answers; a claim answers the epoch it was granted. */
  function Answer(row: Option<Row>, c: Call): (res: Result<nat>) {
    match c
    case Claim(h, now, window) =>
      if h.process == "" || window <= 0 then Err(InvalidArgument)
      else if row.None? then Ok(1)
      else if !Stale(row.value, now, window) then Err(Conflict)
      else if row.value.epoch >= MAX_EPOCH then Err(InvalidArgument)
      else Ok(row.value.epoch + 1)
    case Beat(h, epoch, _) => if Held(row, h, epoch) then Ok(epoch) else Err(Conflict)
    case Free(h, epoch) => if Held(row, h, epoch) then Ok(epoch) else Err(Conflict)
  }

  /** The row a call leaves behind. */
  function After(row: Option<Row>, c: Call): (next: Option<Row>) {
    if Answer(row, c).Err? then row
    else
      match c
      case Claim(h, now, _) => Some(Row(Answer(row, c).value, h, now))
      case Beat(_, _, now) => Some(row.value.(lastSeen := if now > row.value.lastSeen then now else row.value.lastSeen))
      case Free(_, _) => Some(row.value.(lastSeen := 0))
  }

  // ------------------------------------------------------------------
  // Any sequence of calls
  // ------------------------------------------------------------------

  function AfterAll(row: Option<Row>, calls: seq<Call>): (next: Option<Row>)
    decreases |calls|
  {
    if calls == [] then row else AfterAll(After(row, calls[0]), calls[1..])
  }

  function EpochOf(row: Option<Row>): (epoch: nat) {
    if row.None? then 0 else row.value.epoch
  }

  /** Epochs never go back, and as long as the epoch stands so does its holder. */
  lemma {:induction false} EpochMonotone(row: Option<Row>, calls: seq<Call>)
    ensures EpochOf(row) <= EpochOf(AfterAll(row, calls))
    ensures row.Some? && EpochOf(row) == EpochOf(AfterAll(row, calls)) ==>
              AfterAll(row, calls).Some? && AfterAll(row, calls).value.holder == row.value.holder
    decreases |calls|
  {
    if calls != [] { EpochMonotone(After(row, calls[0]), calls[1..]); }
  }

  /** Every granted epoch is above every epoch granted before, whatever was called in between. */
  lemma EpochsIncrease(row: Option<Row>, first: Call, calls: seq<Call>, second: Call)
    requires first.Claim? && second.Claim? && Answer(row, first).Ok?
    requires Answer(AfterAll(After(row, first), calls), second).Ok?
    ensures Answer(row, first).value < Answer(AfterAll(After(row, first), calls), second).value
  {
    EpochMonotone(After(row, first), calls);
  }

  /** A superseded holder is locked out for good: whoever does not hold the lease now, with an epoch
      already granted, is refused after every further sequence of calls, and changes nothing. */
  lemma SupersededForever(row: Option<Row>, h: Holder, epoch: nat, calls: seq<Call>, now: Time)
    requires row.Some? && epoch <= row.value.epoch && !Held(row, h, epoch)
    ensures Answer(AfterAll(row, calls), Beat(h, epoch, now)).Err? && Answer(AfterAll(row, calls), Free(h, epoch)).Err?
    ensures After(AfterAll(row, calls), Beat(h, epoch, now)) == AfterAll(row, calls) == After(AfterAll(row, calls), Free(h, epoch))
  {
    EpochMonotone(row, calls);
  }

  /** A lease kept fresh cannot be taken: while every claim falls within its window of the last
      renewal, no sequence of calls that does not free the lease changes the holder. */
  ghost predicate KeptFresh(row: Option<Row>, calls: seq<Call>)
    decreases |calls|
  {
    calls != [] ==>
      && !calls[0].Free?
      && (calls[0].Claim? && row.Some? ==> Within(row.value, calls[0].now, calls[0].window))
      && KeptFresh(After(row, calls[0]), calls[1..])
  }

  lemma {:induction false} FreshNotTaken(row: Option<Row>, calls: seq<Call>)
    requires row.Some? && KeptFresh(row, calls)
    ensures Held(AfterAll(row, calls), row.value.holder, row.value.epoch)
    decreases |calls|
  {
    if calls != [] { FreshNotTaken(After(row, calls[0]), calls[1..]); }
  }

  /** A heartbeat after a clean release takes the lease back: the next claim is refused again
      exactly when the heartbeat's clock was past zero and is still within the window. */
  lemma HeartbeatRevives(row: Row, now: Time, other: Holder, later: Time, window: Time)
    requires other.process != "" && window > 0 && row.epoch < MAX_EPOCH
    ensures var freed := After(Some(row), Free(row.holder, row.epoch));
            var revived := After(freed, Beat(row.holder, row.epoch, now));
            && Answer(freed, Claim(other, later, window)).Ok?
            && (Answer(revived, Claim(other, later, window)).Err? <==> now > 0 && (later - now <= window || window == MAX_TIME))
  {
  }

  // ------------------------------------------------------------------
  // The lease row over its life
  // ------------------------------------------------------------------

  lemma {:induction false} AfterAllSnoc(row: Option<Row>, calls: seq<Call>, c: Call)
    ensures AfterAll(row, calls + [c]) == After(AfterAll(row, calls), c)
    decreases |calls|
  {
    if calls == [] {
      assert [c][1..] == [];
    } else {
      assert (calls + [c])[1..] == calls[1..] + [c];
      AfterAllSnoc(After(row, calls[0]), calls[1..], c);
    }
  }

  class Coordinator {
    var row: Option<Row>
    // Every call there ever was, and the holders of epochs 1, 2, 3 and so on.
    ghost var calls: seq<Call>
    ghost var grants: seq<Holder>

    ghost predicate Valid()
      reads this
    {
      && row == AfterAll(None, calls)
      && (row.None? <==> grants == [])
      && (row.Some? ==> row.value.epoch == |grants| && row.value.holder == grants[|grants| - 1])
    }

    /** `h` was granted `epoch`, and nobody was granted one since. */
    ghost predicate LastGranted(h: Holder, epoch: nat)
      reads this
    {
      0 < epoch == |grants| && grants[epoch - 1] == h
    }

    /** Nobody can take the lease at `now`. */
    ghost predicate Fresh(now: Time, window: Time)
      reads this
    {
      row.Some? && Within(row.value, now, window)
    }

    constructor ()
      ensures Valid() && grants == [] && calls == []
    {
      row, calls, grants := None, [], [];
    }

    /** A grant is the next epoch after all that were ever granted; who is refused changes nothing; and
        a fresh lease is refused to everyone, its holder included. */
    method ClaimCoordinator(process: string, boot: nat, now: Time, window: Time) returns (res: Result<nat>)
      requires Valid()
      modifies this
      ensures Valid() && calls == old(calls) + [Claim(Holder(process, boot), now, window)]
      ensures res.Ok? ==> grants == old(grants) + [Holder(process, boot)] && LastGranted(Holder(process, boot), res.value)
      ensures res.Ok? ==> row == Some(Row(res.value, Holder(process, boot), now))
      ensures res.Err? ==> grants == old(grants) && row == old(row)
      ensures res.Ok? <==> process != "" && window > 0 && !old(Fresh(now, window)) && |old(grants)| < MAX_EPOCH
      ensures res == Err(Conflict) <==> process != "" && window > 0 && old(Fresh(now, window))
      ensures res == Err(Conflict) && window < MAX_TIME ==> old(row).value.lastSeen != 0 && now - old(row).value.lastSeen <= window
      ensures res.Ok? && old(row).Some? ==> old(row).value.lastSeen == 0 || now - old(row).value.lastSeen > window
    {
      AfterAllSnoc(None, calls, Claim(Holder(process, boot), now, window));
      calls := calls + [Claim(Holder(process, boot), now, window)];
      if process == "" { return Err(InvalidArgument); }
      if window <= 0 { return Err(InvalidArgument); }
      match row
      case None =>
        row := Some(Row(1, Holder(process, boot), now));
        grants := [Holder(process, boot)];
        return Ok(1);
      case Some(current) =>
        if current.lastSeen == 0 || Age(now, current.lastSeen) > window {
          var epoch := current.epoch + 1;
          if epoch > MAX_EPOCH { return Err(InvalidArgument); }
          row := Some(Row(epoch, Holder(process, boot), now));
          grants := grants + [Holder(process, boot)];
          return Ok(epoch);
        }
        return Err(Conflict);
    }

    /** Accepted from exactly the holder of the last grant; nobody can then take the lease within a
        window of `now`. */
    method Heartbeat(process: string, boot: nat, epoch: nat, now: Time) returns (res: Result<nat>)
      requires Valid()
      modifies this
      ensures Valid() && calls == old(calls) + [Beat(Holder(process, boot), epoch, now)] && grants == old(grants)
      ensures res.Ok? <==> LastGranted(Holder(process, boot), epoch)
      ensures res.Ok? ==> row == Some(Row(epoch, Holder(process, boot), if now > old(row).value.lastSeen then now else old(row).value.lastSeen))
      ensures res.Ok? && now > 0 ==> forall later: Time, w: Time :: w > 0 && later - now <= w ==> Fresh(later, w)
      ensures res.Err? ==> row == old(row)
    {
      AfterAllSnoc(None, calls, Beat(Holder(process, boot), epoch, now));
      calls := calls + [Beat(Holder(process, boot), epoch, now)];
      if row.Some? && row.value.holder.process == process && row.value.holder.boot == boot && row.value.epoch == epoch {
        if now > row.value.lastSeen { row := Some(row.value.(lastSeen := now)); }
        return Ok(epoch);
      }
      return Err(Conflict);
    }

    /** Accepted from exactly the holder of the last grant; anybody can then take the lease. */
    method Release(process: string, boot: nat, epoch: nat) returns (res: Result<nat>)
      requires Valid()
      modifies this
      ensures Valid() && calls == old(calls) + [Free(Holder(process, boot), epoch)] && grants == old(grants)
      ensures res.Ok? <==> LastGranted(Holder(process, boot), epoch)
      ensures res.Ok? ==> row == Some(Row(epoch, Holder(process, boot), 0)) && forall later: Time, w: Time :: !Fresh(later, w)
      ensures res.Err? ==> row == old(row)
    {
      AfterAllSnoc(None, calls, Free(Holder(process, boot), epoch));
      calls := calls + [Free(Holder(process, boot), epoch)];
      if row.Some? && row.value.holder.process == process && row.value.holder.boot == boot && row.value.epoch == epoch {
        row := Some(row.value.(lastSeen := 0));
        return Ok(epoch);
      }
      return Err(Conflict);
    }
  }

  // ------------------------------------------------------------------
  // Nodes
  // ------------------------------------------------------------------

  /** What a node knows, and the stamps of the operations it has let in and not executed yet: the
      handler compares the epoch first and executes afterwards, while the heartbeat thread goes on. */
  datatype Fence = Fence(epoch: nat, registered: bool, running: multiset<nat>)

  /** What happens at a node: a heartbeat cycle with its replies, an operation arriving, or one that
      was let in being executed. */
  datatype Event =
    | Cycle(registration: Option<nat>, beat: Option<nat>)
    | Arrive(stamp: nat)
    | Execute(stamp: nat)

  /** One reply's epoch is learned unless it is older than what the node knows. */
  function Learned(f: Fence, reply: Option<nat>): (g: Fence) {
    if reply.None? || reply.value < f.epoch then f.(registered := false) else f.(epoch := reply.value, registered := true)
  }

  predicate Admits(f: Fence, stamp: nat) {
    stamp == f.epoch
  }

  predicate Possible(f: Fence, e: Event) {
    e.Execute? ==> e.stamp in f.running
  }

  function Heard(f: Fence, e: Event): (g: Fence) {
    match e
    case Arrive(stamp) => if Admits(f, stamp) then f.(running := f.running + multiset{stamp}) else f
    case Execute(stamp) => f.(running := f.running - multiset{stamp})
    case Cycle(registration, beat) =>
      var r := if f.registered then f else Learned(f, registration);
      if r.registered then Learned(r, beat) else r
  }

  /** `g` is reached from `f` by the events, in that order. */
  ghost predicate Hears(f: Fence, events: seq<Event>, g: Fence)
    decreases |events|
  {
    if events == [] then f == g else Possible(f, events[0]) && Hears(Heard(f, events[0]), events[1..], g)
  }

  lemma {:induction false} HearsMonotone(f: Fence, events: seq<Event>, g: Fence)
    requires Hears(f, events, g)
    ensures f.epoch <= g.epoch
    decreases |events|
  {
    if events != [] { HearsMonotone(Heard(f, events[0]), events[1..], g); }
  }

  lemma {:induction false} HearsSnoc(f: Fence, events: seq<Event>, g: Fence, e: Event)
    requires Hears(f, events, g) && Possible(g, e)
    ensures Hears(f, events + [e], Heard(g, e))
    decreases |events|
  {
    if events == [] {
      assert [e][1..] == [];
    } else {
      assert (events + [e])[1..] == events[1..] + [e];
      HearsSnoc(Heard(f, events[0]), events[1..], g, e);
    }
  }

  /** A node that has learned an epoch lets in nothing stamped below it, ever after. */
  lemma NeverBelow(f: Fence, events: seq<Event>, g: Fence, stamp: nat)
    requires Hears(f, events, g) && Admits(g, stamp)
    ensures stamp >= f.epoch
  {
    HearsMonotone(f, events, g);
  }

  function Executions(events: seq<Event>, stamp: nat): (n: nat) {
    if events == [] then 0 else (if events[0] == Execute(stamp) then 1 else 0) + Executions(events[1..], stamp)
  }

  /** Once an epoch is learned, the operations stamped below it that are executed or still running are
      exactly those that were running at that moment. */
  lemma {:induction false} StaleExecutions(f: Fence, events: seq<Event>, g: Fence, stamp: nat)
    requires Hears(f, events, g) && stamp < f.epoch
    ensures Executions(events, stamp) + g.running[stamp] == f.running[stamp]
    decreases |events|
  {
    if events != [] {
      var h := Heard(f, events[0]);
      HearsMonotone(f, [events[0]], h);
      StaleExecutions(h, events[1..], g, stamp);
    }
  }

  /** A run from `f` in which an operation stamped `stamp` is executed. */
  ghost predicate Finishes(f: Fence, events: seq<Event>, g: Fence, stamp: nat) {
    Hears(f, events, g) && Executions(events, stamp) > 0
  }

  /** A stale operation can still be executed exactly when it was let in before the later epoch was
      learned and has not finished since. */
  lemma StaleIff(f: Fence, stamp: nat)
    requires stamp < f.epoch
    ensures (exists events, g :: Finishes(f, events, g, stamp)) <==> stamp in f.running
  {
    if stamp in f.running {
      var events, g := FinishStale(f, stamp);
      assert Finishes(f, events, g, stamp);
    } else {
      forall events, g ensures !Finishes(f, events, g, stamp) {
        if Hears(f, events, g) { StaleExecutions(f, events, g, stamp); }
      }
    }
  }

  lemma FinishStale(f: Fence, stamp: nat) returns (events: seq<Event>, g: Fence)
    requires stamp in f.running
    ensures Finishes(f, events, g, stamp)
  {
    var e := Execute(stamp);
    events, g := [e], Heard(f, e);
    assert [] + [e] == events && events[1..] == [];
    assert Hears(f, [], f) && Possible(f, e);
    HearsSnoc(f, [], f, e);
  }

  /** Lease and fence together: once a node has heard from a coordinator that claimed later, it lets in
      nothing of the one that claimed before, whatever either of them, or anyone, does next; and it
      executes nothing of it but what it had let in by then. */
  lemma SupersededCannotAct(row: Option<Row>, first: Call, calls: seq<Call>, second: Call, f: Fence, events: seq<Event>, g: Fence)
    requires first.Claim? && second.Claim? && Answer(row, first).Ok?
    requires Answer(AfterAll(After(row, first), calls), second).Ok?
    requires f.epoch >= Answer(AfterAll(After(row, first), calls), second).value && Hears(f, events, g)
    ensures !Admits(g, Answer(row, first).value)
    ensures Executions(events, Answer(row, first).value) <= f.running[Answer(row, first).value]
  {
    EpochsIncrease(row, first, calls, second);
    HearsMonotone(f, events, g);
    StaleExecutions(f, events, g, Answer(row, first).value);
  }

  class Node {
    var epoch: nat
    var registered: bool
    // The operations let in, everything that happened since the start, and the epochs learned.
    ghost var running: multiset<nat>
    ghost var first: nat
    ghost var events: seq<Event>
    ghost var learned: seq<nat>

    ghost predicate Valid()
      reads this
    {
      && Hears(Fence(first, true, multiset{}), events, Fence(epoch, registered, running))
      && learned != [] && learned[|learned| - 1] == epoch
      && forall i, k :: 0 <= i <= k < |learned| ==> learned[i] <= learned[k]
    }

    /** Not older than anything the node was ever told and believed. */
    ghost predicate Newest(stamp: nat)
      reads this
    {
      forall e <- learned :: e <= stamp
    }

    /** Serves only after its registration answered, with the coordinator's epoch. */
    constructor (registration: nat)
      ensures Valid() && learned == [registration] && running == multiset{} && registered
    {
      epoch, registered := registration, true;
      running, first, events, learned := multiset{}, registration, [], [registration];
    }

    /** Succeeds exactly when the replies it needs came and neither is older than anything learned
        before it; then the last reply's epoch is learned. Nothing learned is ever forgotten. */
    method HeartbeatCycle(registration: Option<nat>, beat: Option<nat>) returns (ok: bool)
      requires Valid()
      modifies this
      ensures Valid() && events == old(events) + [Cycle(registration, beat)] && running == old(running)
      ensures ok == registered && old(learned) <= learned
      ensures forall e <- learned :: e in old(learned) || Some(e) == registration || Some(e) == beat
      ensures ok <==> && (old(registered) || (registration.Some? && old(Newest(registration.value))))
                      && beat.Some? && old(Newest(beat.value)) && (!old(registered) ==> registration.value <= beat.value)
      ensures ok ==> beat.value in learned && Newest(beat.value)
    {
      HearsSnoc(Fence(first, true, multiset{}), events, Fence(epoch, registered, running), Cycle(registration, beat));
      events := events + [Cycle(registration, beat)];
      assert old(learned)[|old(learned)| - 1] in old(learned);
      if !registered {
        if registration.None? { return false; }
        if registration.value < epoch { return false; }
        epoch := registration.value;
        registered := true;
        learned := learned + [epoch];
      }
      if beat.None? || beat.value < epoch {
        registered := false;
        return false;
      }
      epoch := beat.value;
      learned := learned + [epoch];
      return true;
    }

    /** The check at the door: an operation is let in only if no epoch the node ever learned is above
        its stamp, and only with an epoch it did learn. */
    method Admit(stamp: nat) returns (ok: bool)
      requires Valid()
      modifies this
      ensures Valid() && events == old(events) + [Arrive(stamp)] && learned == old(learned)
      ensures ok <==> stamp in learned && Newest(stamp)
      ensures running == if ok then old(running) + multiset{stamp} else old(running)
    {
      HearsSnoc(Fence(first, true, multiset{}), events, Fence(epoch, registered, running), Arrive(stamp));
      events := events + [Arrive(stamp)];
      assert epoch == learned[|learned| - 1] && epoch in learned;
      ok := stamp == epoch;
      if ok { running := running + multiset{stamp}; }
    }

    /** What was let in is executed, however the epoch has moved on. */
    method Finish(stamp: nat)
      requires Valid() && stamp in running
      modifies this`running, this`events
      ensures Valid() && events == old(events) + [Execute(stamp)] && running == old(running) - multiset{stamp}
    {
      HearsSnoc(Fence(first, true, multiset{}), events, Fence(epoch, registered, running), Execute(stamp));
      events := events + [Execute(stamp)];
      running := running - multiset{stamp};
    }
  }
}
