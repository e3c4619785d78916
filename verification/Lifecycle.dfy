/** The static lifecycle transition table. */
module LifecycleTable {
  import opened Fabric

  datatype Transition = Allowed | Noop | Illegal

  function CheckTransition(from: Lifecycle, to: Lifecycle): (t: Transition) {
    if from == to then Noop
    else if to in Successors(from) then Allowed
    else Illegal
  }

  function Successors(from: Lifecycle): (next: set<Lifecycle>) {
    match from
    case Created => {Hot, Warm, Cold, Failed}
    case Hot => {Warm, Cold, Compressed, Archived, Recomputable, Deduped, Failed}
    case Warm => {Hot, Cold, Compressed, Archived, Recomputable, Failed}
    case Cold => {Hot, Warm, Compressed, Archived, Recomputable, Deduped, Failed}
    case Compressed => {Hot, Warm, Cold, Archived, Recomputable, Failed}
    case Deduped => {Hot, Warm, Cold, Archived, Recomputable, ReclaimPending, Failed}
    case Archived => {Hot, Warm, Recomputable, ReclaimPending, Failed}
    case Recomputable => {Hot, Warm, ReclaimPending, Failed}
    case ReclaimPending => {Reclaimed, Hot, Warm, Failed}
    case Reclaimed => {}
    case Failed => {}
  }

  /** States from which reclaim first steps through RECOMPUTABLE. */
  predicate NeedsStep(from: Lifecycle) {
    from in {Hot, Warm, Cold, Compressed}
  }

  /** The preflight check of the whole route to RECLAIM_PENDING. */
  predicate RouteLegal(o: Object) {
    if NeedsStep(o.state) then
      && (o.reconstructible || o.durability == Ephemeral)
      && !CheckTransition(o.state, Recomputable).Illegal?
      && !CheckTransition(Recomputable, ReclaimPending).Illegal?
    else !CheckTransition(o.state, ReclaimPending).Illegal?
  }

  /** RECLAIMED and FAILED are the states nothing leaves, and only RECLAIM_PENDING leads to
      RECLAIMED. */
  lemma TableEnds(from: Lifecycle)
    ensures (forall to: Lifecycle :: to != from ==> CheckTransition(from, to).Illegal?) <==> from in {Reclaimed, Failed}
    ensures CheckTransition(from, Reclaimed).Allowed? <==> from == ReclaimPending
  {
    assert from !in {Reclaimed, Failed} ==> CheckTransition(from, Failed).Allowed?;
  }

  /** What may be compressed, archived and restored, by state. */
  lemma TierStates(from: Lifecycle)
    ensures CheckTransition(from, Compressed).Allowed? <==> from in {Hot, Warm, Cold}
    ensures CheckTransition(from, Archived).Allowed? <==> from in {Hot, Warm, Cold, Compressed, Deduped}
    ensures CheckTransition(from, Warm).Allowed? <==> from in {Created, Hot, Cold, Compressed, Deduped, Archived, Recomputable, ReclaimPending}
  {
  }

  /** The objects a reclaim may start on: those past the hot tiers, and in the hot tiers those that
      can be made again or are ephemeral. */
  lemma RouteStates(o: Object)
    ensures RouteLegal(o) <==>
              || o.state in {Deduped, Archived, Recomputable, ReclaimPending}
              || (o.state in {Hot, Warm, Cold, Compressed} && (o.reconstructible || o.durability == Ephemeral))
  {
  }
}
