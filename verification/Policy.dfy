/** The policy registry: which policies it admits, when it is complete, and what it resolves to. */
module Policies {
  import opened Fabric

  datatype Kind =
    | ByDefault | ByClass | ByOwner | ByPressure | ByDurability | BySurvivability | ByEmergency
    | ByAge | ByReuse | ByRecomposition | ByDependency

  datatype Pressure = Normal | Elevated | High | CriticalPressure

  datatype Survivability = AnyLoss | Recomputed | SurvivesDurably | SurvivesCritically

  /** A policy. `soundNumbers` says that its threshold is finite, its reuse probability lies in
      [0,1] and its weights are valid. */
  datatype Policy = Policy(
    id: string,
    version: string,
    kind: Kind,
    soundNumbers: bool,
    class_: Option<string>,
    owner: Option<string>,
    pressure: Option<Pressure>,
    durability: Option<Durability>,
    survivability: Option<Survivability>,
    emergency: bool)

  /** What resolution looks at. */
  datatype Subject = Subject(class_: string, owner: string, durability: Durability, survivability: Survivability)

  predicate Blank(s: string) {
    forall c <- s :: c == ' ' || c == '\t' || c == '\n' || c == '\r'
  }

  predicate Named(o: Option<string>) {
    o.Some? && !Blank(o.value)
  }

  /** How many selectors a policy sets. */
  function Selectors(p: Policy): (n: nat) {
    (if p.class_.Some? then 1 else 0) + (if p.owner.Some? then 1 else 0) + (if p.pressure.Some? then 1 else 0)
    + (if p.durability.Some? then 1 else 0) + (if p.survivability.Some? then 1 else 0)
  }

  /** The selector of the policy's kind is set, and no other. */
  predicate SelectorValid(p: Policy) {
    match p.kind
    case ByDefault => Selectors(p) == 0 && !p.emergency
    case ByClass => Named(p.class_) && Selectors(p) == 1 && !p.emergency
    case ByOwner => Named(p.owner) && Selectors(p) == 1 && !p.emergency
    case ByPressure => p.pressure.Some? && Selectors(p) == 1 && !p.emergency
    case ByDurability => p.durability.Some? && Selectors(p) == 1 && !p.emergency
    case BySurvivability => p.survivability.Some? && Selectors(p) == 1 && !p.emergency
    case ByEmergency => p.pressure == Some(CriticalPressure) && Selectors(p) == 1 && p.emergency
    case _ => false
  }

  predicate ValidPolicy(p: Policy) {
    !Blank(p.id) && !Blank(p.version) && p.soundNumbers && SelectorValid(p)
  }

  /** What must not be shared by two policies. */
  datatype Selector =
    | AnyObject
    | OfClass(string)
    | OfOwner(string)
    | AtPressure(Option<Pressure>)
    | OfDurability(Option<Durability>)
    | OfSurvivability(Option<Survivability>)
    | InEmergency(Option<Pressure>)
    | Unsupported(Kind)

  function OrEmpty(o: Option<string>): (s: string) {
    if o.Some? then o.value else ""
  }

  function SelectorOf(p: Policy): (s: Selector) {
    match p.kind
    case ByDefault => AnyObject
    case ByClass => OfClass(OrEmpty(p.class_))
    case ByOwner => OfOwner(OrEmpty(p.owner))
    case ByPressure => AtPressure(p.pressure)
    case ByDurability => OfDurability(p.durability)
    case BySurvivability => OfSurvivability(p.survivability)
    case ByEmergency => InEmergency(p.pressure)
    case _ => Unsupported(p.kind)
  }

  // ------------------------------------------------------------------
  // Resolution
  // ------------------------------------------------------------------

  const TIERS: nat := 7

  /** Tiers from the most specific, 0, to the default, 6. */
  predicate AppliesAt(p: Policy, tier: nat, o: Subject, at: Pressure) {
    match tier
    case 0 => p.kind == ByEmergency && p.emergency && p.pressure == Some(at)
    case 1 => p.kind == ByPressure && !p.emergency && p.pressure == Some(at)
    case 2 => p.kind == ByClass && p.class_ == Some(o.class_)
    case 3 => p.kind == ByOwner && p.owner == Some(o.owner)
    case 4 => p.kind == ByDurability && p.durability == Some(o.durability)
    case 5 => p.kind == BySurvivability && p.survivability == Some(o.survivability)
    case 6 => p.kind == ByDefault
    case _ => false
  }

  function Matching(ps: seq<Policy>, tier: nat, o: Subject, at: Pressure): (some: seq<Policy>) {
    if ps == [] then []
    else (if AppliesAt(ps[0], tier, o, at) then [ps[0]] else []) + Matching(ps[1..], tier, o, at)
  }

  /** The sole policy of a tier, if there is one; two are an error. */
  function Unique(some: seq<Policy>): (res: Result<Option<Policy>>) {
    if |some| > 1 then Err(Conflict) else if some == [] then Ok(None) else Ok(Some(some[0]))
  }

  function ResolveFrom(ps: seq<Policy>, tier: nat, o: Subject, at: Pressure): (res: Result<Policy>)
    requires tier <= TIERS
    decreases TIERS - tier
  {
    if tier == TIERS then Err(NotFound)
    else
      match Unique(Matching(ps, tier, o, at))
      case Err(e) => Err(e)
      case Ok(Some(p)) => Ok(p)
      case Ok(None) => ResolveFrom(ps, tier + 1, o, at)
  }

  function Resolve(ps: seq<Policy>, o: Subject, at: Pressure): (res: Result<Policy>) {
    ResolveFrom(ps, 0, o, at)
  }

  // ------------------------------------------------------------------
  // Completeness
  // ------------------------------------------------------------------

  ghost predicate DistinctSelectors(ps: seq<Policy>) {
    forall i, k :: 0 <= i < k < |ps| ==> SelectorOf(ps[i]) != SelectorOf(ps[k])
  }

  function Defaults(ps: seq<Policy>): (n: nat) {
    if ps == [] then 0 else Defaults(ps[..|ps| - 1]) + (if ps[|ps| - 1].kind == ByDefault then 1 else 0)
  }

  ghost predicate CompleteSet(ps: seq<Policy>) {
    (forall p <- ps :: ValidPolicy(p)) && Defaults(ps) == 1 && DistinctSelectors(ps)
  }

  /** Two valid policies that apply to one object at one tier have the same selector. */
  lemma SameTierSameSelector(p: Policy, q: Policy, tier: nat, o: Subject, at: Pressure)
    ensures AppliesAt(p, tier, o, at) && AppliesAt(q, tier, o, at) ==> SelectorOf(p) == SelectorOf(q)
  {
  }

  lemma {:induction false} MatchingFrom(ps: seq<Policy>, tier: nat, o: Subject, at: Pressure)
    ensures forall p :: p in Matching(ps, tier, o, at) <==> p in ps && AppliesAt(p, tier, o, at)
  {
    if ps != [] { MatchingFrom(ps[1..], tier, o, at); }
  }

  /** With distinct selectors at most one policy applies at a tier. */
  lemma {:induction false} AtMostOne(ps: seq<Policy>, tier: nat, o: Subject, at: Pressure)
    requires DistinctSelectors(ps)
    ensures |Matching(ps, tier, o, at)| <= 1
    decreases |ps|
  {
    if ps != [] {
      assert DistinctSelectors(ps[1..]) by {
        forall i, k | 0 <= i < k < |ps[1..]| ensures SelectorOf(ps[1..][i]) != SelectorOf(ps[1..][k]) {
          assert ps[1..][i] == ps[i + 1] && ps[1..][k] == ps[k + 1];
        }
      }
      AtMostOne(ps[1..], tier, o, at);
      MatchingFrom(ps[1..], tier, o, at);
      forall q | q in ps[1..] && AppliesAt(ps[0], tier, o, at) ensures !AppliesAt(q, tier, o, at) {
        var k :| 0 <= k < |ps[1..]| && ps[1..][k] == q;
        assert ps[k + 1] == q;
        SameTierSameSelector(ps[0], q, tier, o, at);
      }
      assert Matching(ps[1..], tier, o, at) != [] ==> Matching(ps[1..], tier, o, at)[0] in Matching(ps[1..], tier, o, at);
    }
  }

  lemma {:induction false} HasDefault(ps: seq<Policy>)
    requires Defaults(ps) > 0
    ensures exists p :: p in ps && p.kind == ByDefault
    decreases |ps|
  {
    var front, last := ps[..|ps| - 1], ps[|ps| - 1];
    assert last in ps;
    if last.kind != ByDefault {
      HasDefault(front);
      var p :| p in front && p.kind == ByDefault;
      assert p in ps;
    }
  }

  /** `p` is the one policy of the most specific tier that applies at all. */
  ghost predicate MostSpecific(ps: seq<Policy>, p: Policy, from: nat, o: Subject, at: Pressure) {
    exists tier ::
      && from <= tier < TIERS && p in ps && AppliesAt(p, tier, o, at)
      && (forall q <- ps :: AppliesAt(q, tier, o, at) ==> q == p)
      && (forall finer, q :: from <= finer < tier && q in ps ==> !AppliesAt(q, finer, o, at))
  }

  lemma NothingFiner(ps: seq<Policy>, p: Policy, tier: nat, o: Subject, at: Pressure)
    requires MostSpecific(ps, p, tier + 1, o, at) && forall q <- ps :: !AppliesAt(q, tier, o, at)
    ensures MostSpecific(ps, p, tier, o, at)
  {
    var t :| && tier + 1 <= t < TIERS && p in ps && AppliesAt(p, t, o, at)
             && (forall q <- ps :: AppliesAt(q, t, o, at) ==> q == p)
             && (forall finer, q :: tier + 1 <= finer < t && q in ps ==> !AppliesAt(q, finer, o, at));
    assert tier <= t < TIERS && AppliesAt(p, t, o, at);
  }

  lemma {:induction false} ResolvesFrom(ps: seq<Policy>, tier: nat, o: Subject, at: Pressure)
    requires DistinctSelectors(ps) && tier < TIERS
    requires exists p :: p in ps && p.kind == ByDefault
    ensures ResolveFrom(ps, tier, o, at).Ok? && MostSpecific(ps, ResolveFrom(ps, tier, o, at).value, tier, o, at)
    decreases TIERS - tier
  {
    var some := Matching(ps, tier, o, at);
    AtMostOne(ps, tier, o, at);
    MatchingFrom(ps, tier, o, at);
    if some == [] {
      forall q <- ps ensures !AppliesAt(q, tier, o, at) { assert q !in some; }
      assert tier != 6;
      ResolvesFrom(ps, tier + 1, o, at);
      NothingFiner(ps, ResolveFrom(ps, tier + 1, o, at).value, tier, o, at);
    } else {
      assert some[0] in some;
      forall q <- ps | AppliesAt(q, tier, o, at) ensures q == some[0] { assert q in some; }
    }
  }

  /** A complete registry resolves every object at every pressure, to the one policy of the most
      specific tier that applies. */
  lemma CompleteResolves(ps: seq<Policy>, o: Subject, at: Pressure)
    requires CompleteSet(ps)
    ensures Resolve(ps, o, at).Ok? && MostSpecific(ps, Resolve(ps, o, at).value, 0, o, at)
  {
    HasDefault(ps);
    ResolvesFrom(ps, 0, o, at);
  }

  // ------------------------------------------------------------------
  // The order of the kinds
  // ------------------------------------------------------------------

  /** Whatever is resolved, of a complete registry or not, is the only one of its tier, and nothing
      finer applies. */
  lemma {:induction false} ResolvedSpecific(ps: seq<Policy>, tier: nat, o: Subject, at: Pressure)
    requires tier <= TIERS && ResolveFrom(ps, tier, o, at).Ok?
    ensures MostSpecific(ps, ResolveFrom(ps, tier, o, at).value, tier, o, at)
    decreases TIERS - tier
  {
    var some := Matching(ps, tier, o, at);
    MatchingFrom(ps, tier, o, at);
    if some == [] {
      forall q <- ps ensures !AppliesAt(q, tier, o, at) { assert q !in some; }
      ResolvedSpecific(ps, tier + 1, o, at);
      NothingFiner(ps, ResolveFrom(ps, tier + 1, o, at).value, tier, o, at);
    } else {
      assert some[0] in some && |some| == 1;
      forall q <- ps | AppliesAt(q, tier, o, at) ensures q == some[0] { assert q in some; }
    }
  }

  /** The policy's selector, on the policy's own fields, fits the object and the pressure. */
  predicate Fits(p: Policy, o: Subject, at: Pressure) {
    || (p.kind == ByEmergency && p.emergency && p.pressure == Some(at))
    || (p.kind == ByPressure && !p.emergency && p.pressure == Some(at))
    || (p.kind == ByClass && p.class_ == Some(o.class_))
    || (p.kind == ByOwner && p.owner == Some(o.owner))
    || (p.kind == ByDurability && p.durability == Some(o.durability))
    || (p.kind == BySurvivability && p.survivability == Some(o.survivability))
    || p.kind == ByDefault
  }

  lemma FitsSomewhere(p: Policy, o: Subject, at: Pressure) returns (tier: nat)
    requires Fits(p, o, at)
    ensures tier < TIERS && AppliesAt(p, tier, o, at)
  {
    tier := if p.kind == ByEmergency then 0 else if p.kind == ByPressure then 1 else if p.kind == ByClass then 2
            else if p.kind == ByOwner then 3 else if p.kind == ByDurability then 4 else if p.kind == BySurvivability then 5 else 6;
  }

  /** Emergency before pressure, class, owner, durability, survivability and default: no policy is
      resolved while one of an earlier kind fits, and no other of its own kind fits. */
  lemma KindOrder(ps: seq<Policy>, o: Subject, at: Pressure)
    requires Resolve(ps, o, at).Ok?
    ensures var p := Resolve(ps, o, at).value;
            && p in ps && Fits(p, o, at)
            && forall q <- ps :: Fits(q, o, at) && q != p ==>
                 match p.kind
                 case ByEmergency => q.kind !in {ByEmergency}
                 case ByPressure => q.kind !in {ByEmergency, ByPressure}
                 case ByClass => q.kind !in {ByEmergency, ByPressure, ByClass}
                 case ByOwner => q.kind !in {ByEmergency, ByPressure, ByClass, ByOwner}
                 case ByDurability => q.kind !in {ByEmergency, ByPressure, ByClass, ByOwner, ByDurability}
                 case BySurvivability => q.kind == ByDefault
                 case ByDefault => false
                 case _ => false
  {
    var p := Resolve(ps, o, at).value;
    ResolvedSpecific(ps, 0, o, at);
    var tier :| && 0 <= tier < TIERS && p in ps && AppliesAt(p, tier, o, at)
                && (forall q <- ps :: AppliesAt(q, tier, o, at) ==> q == p)
                && (forall finer, q :: 0 <= finer < tier && q in ps ==> !AppliesAt(q, finer, o, at));
    forall q | q in ps && Fits(q, o, at) && q != p ensures exists other: nat :: tier < other < TIERS && AppliesAt(q, other, o, at) {
      var other := FitsSomewhere(q, o, at);
      assert other != tier && !(other < tier);
    }
  }

  /** Resolution finds nothing exactly where no policy fits. */
  lemma ResolveFails(ps: seq<Policy>, o: Subject, at: Pressure)
    ensures Resolve(ps, o, at) == Err(NotFound) <==> forall p <- ps :: !Fits(p, o, at)
  {
    FailsFrom(ps, 0, o, at);
    if p :| p in ps && Fits(p, o, at) {
      var tier := FitsSomewhere(p, o, at);
    }
  }

  lemma {:induction false} FailsFrom(ps: seq<Policy>, tier: nat, o: Subject, at: Pressure)
    requires tier <= TIERS
    ensures ResolveFrom(ps, tier, o, at) == Err(NotFound) <==> forall t, p :: tier <= t < TIERS && p in ps ==> !AppliesAt(p, t, o, at)
    decreases TIERS - tier
  {
    if tier < TIERS {
      MatchingFrom(ps, tier, o, at);
      var some := Matching(ps, tier, o, at);
      FailsFrom(ps, tier + 1, o, at);
      if some != [] { assert some[0] in some; }
    }
  }

  // ------------------------------------------------------------------
  // What a valid policy and a selector are, field by field
  // ------------------------------------------------------------------

  /** A policy is valid exactly when it is named, its numbers are sound, and of the selectors it sets
      the one its kind asks for and no other. */
  lemma ValidIff(p: Policy)
    ensures ValidPolicy(p) <==>
              && !Blank(p.id) && !Blank(p.version) && p.soundNumbers
              && p.kind in {ByDefault, ByClass, ByOwner, ByPressure, ByDurability, BySurvivability, ByEmergency}
              && (p.class_.Some? <==> p.kind == ByClass) && (p.class_.Some? ==> !Blank(p.class_.value))
              && (p.owner.Some? <==> p.kind == ByOwner) && (p.owner.Some? ==> !Blank(p.owner.value))
              && (p.pressure.Some? <==> p.kind in {ByPressure, ByEmergency})
              && (p.durability.Some? <==> p.kind == ByDurability)
              && (p.survivability.Some? <==> p.kind == BySurvivability)
              && (p.emergency <==> p.kind == ByEmergency) && (p.emergency ==> p.pressure == Some(CriticalPressure))
  {
  }

  /** Two valid policies have the same selector exactly when some object and pressure fit both and
      they are of one kind: distinct selectors are exactly what keeps resolution unambiguous. */
  lemma SameSelectorIff(p: Policy, q: Policy)
    requires ValidPolicy(p) && ValidPolicy(q)
    ensures SelectorOf(p) == SelectorOf(q) <==> p.kind == q.kind && exists o, at :: Fits(p, o, at) && Fits(q, o, at)
  {
    ValidIff(p);
    ValidIff(q);
    if SelectorOf(p) == SelectorOf(q) {
      var o := Subject(OrEmpty(p.class_), OrEmpty(p.owner),
                       if p.durability.Some? then p.durability.value else Ephemeral,
                       if p.survivability.Some? then p.survivability.value else AnyLoss);
      var at := if p.pressure.Some? then p.pressure.value else Normal;
      assert Fits(p, o, at) && Fits(q, o, at);
    }
  }

  // ------------------------------------------------------------------
  // Order independence
  // ------------------------------------------------------------------

  lemma {:induction false} MatchingCount(ps: seq<Policy>, tier: nat, o: Subject, at: Pressure, p: Policy)
    ensures multiset(Matching(ps, tier, o, at))[p] == if AppliesAt(p, tier, o, at) then multiset(ps)[p] else 0
    decreases |ps|
  {
    if ps != [] {
      assert ps == [ps[0]] + ps[1..];
      MatchingCount(ps[1..], tier, o, at, p);
    }
  }

  lemma MatchingMultiset(ps: seq<Policy>, qs: seq<Policy>, tier: nat, o: Subject, at: Pressure)
    requires multiset(ps) == multiset(qs)
    ensures multiset(Matching(ps, tier, o, at)) == multiset(Matching(qs, tier, o, at))
  {
    forall p ensures multiset(Matching(ps, tier, o, at))[p] == multiset(Matching(qs, tier, o, at))[p] {
      MatchingCount(ps, tier, o, at, p);
      MatchingCount(qs, tier, o, at, p);
    }
  }

  lemma UniqueOfMultiset(some: seq<Policy>, others: seq<Policy>)
    requires multiset(some) == multiset(others)
    ensures Unique(some) == Unique(others)
  {
    assert |multiset(some)| == |some| && |multiset(others)| == |others|;
    if |some| == 1 {
      assert some == [some[0]] && others == [others[0]];
      assert some[0] in multiset(others);
    }
  }

  lemma {:induction false} OrderFreeFrom(ps: seq<Policy>, qs: seq<Policy>, tier: nat, o: Subject, at: Pressure)
    requires multiset(ps) == multiset(qs) && tier <= TIERS
    ensures ResolveFrom(ps, tier, o, at) == ResolveFrom(qs, tier, o, at)
    decreases TIERS - tier
  {
    if tier < TIERS {
      MatchingMultiset(ps, qs, tier, o, at);
      UniqueOfMultiset(Matching(ps, tier, o, at), Matching(qs, tier, o, at));
      OrderFreeFrom(ps, qs, tier + 1, o, at);
    }
  }

  /** Resolution does not depend on the order of registration, errors included. */
  lemma OrderFree(ps: seq<Policy>, qs: seq<Policy>, o: Subject, at: Pressure)
    requires multiset(ps) == multiset(qs)
    ensures Resolve(ps, o, at) == Resolve(qs, o, at)
  {
    OrderFreeFrom(ps, qs, 0, o, at);
  }

  // ------------------------------------------------------------------
  // The registry
  // ------------------------------------------------------------------

  const DefaultPolicy: Policy := Policy("reclaim-default", "v1", ByDefault, true, None, None, None, None, None, false)

  const EmergencyPolicy: Policy := Policy("reclaim-emergency", "v1", ByEmergency, true, None, None, Some(CriticalPressure), None, None, true)

  lemma NotBlank(s: string, c: char)
    requires |s| > 0 && s[0] == c && c != ' ' && c != '\t' && c != '\n' && c != '\r'
    ensures !Blank(s)
  {
    assert c in s;
  }

  lemma DefaultsComplete()
    ensures CompleteSet([DefaultPolicy, EmergencyPolicy])
  {
    NotBlank(DefaultPolicy.id, 'r');
    NotBlank(EmergencyPolicy.id, 'r');
    NotBlank("v1", 'v');
    var ps := [DefaultPolicy, EmergencyPolicy];
    assert ps[..1] == [DefaultPolicy] && ps[..1][..0] == [];
    assert Defaults(ps[..1]) == 1;
  }

  ghost function Chosen(ps: seq<Policy>): (keys: set<Selector>) {
    set i | 0 <= i < |ps| :: SelectorOf(ps[i])
  }

  lemma DistinctSnoc(ps: seq<Policy>, p: Policy)
    ensures DistinctSelectors(ps + [p]) <==> DistinctSelectors(ps) && SelectorOf(p) !in Chosen(ps)
    ensures Chosen(ps + [p]) == Chosen(ps) + {SelectorOf(p)}
  {
    var qs := ps + [p];
    if DistinctSelectors(qs) {
      forall i | 0 <= i < |ps| ensures SelectorOf(ps[i]) != SelectorOf(p) { assert qs[i] == ps[i] && qs[|ps|] == p; }
      forall i, k | 0 <= i < k < |ps| ensures SelectorOf(ps[i]) != SelectorOf(ps[k]) { assert qs[i] == ps[i] && qs[k] == ps[k]; }
    }
    assert forall i :: 0 <= i < |ps| ==> qs[i] == ps[i];
    assert qs[|ps|] == p;
  }

  class PolicyRegistry {
    var policies: seq<Policy>

    constructor ()
      ensures CompleteSet(policies)
    {
      policies := [DefaultPolicy, EmergencyPolicy];
      new;
      DefaultsComplete();
    }

    method Add(p: Policy) returns (res: Result<()>)
      modifies this
      ensures res.Ok? <==> ValidPolicy(p) && forall q <- old(policies) :: q.id != p.id || q.version != p.version
      ensures policies == if res.Ok? then old(policies) + [p] else old(policies)
    {
      if !ValidPolicy(p) { return Err(InvalidArgument); }
      if exists q :: q in policies && q.id == p.id && q.version == p.version { return Err(Conflict); }
      policies := policies + [p];
      return Ok(());
    }

    /** Accepts exactly the complete registries. */
    method ValidateComplete() returns (res: Result<()>)
      ensures res.Ok? <==> CompleteSet(policies)
    {
      var valid := AllValid(policies);
      if !valid { return Err(InvalidArgument); }
      var defaults := CountDefaults(policies);
      if defaults != 1 { return Err(InvalidArgument); }
      var ambiguous := Ambiguous(policies);
      return if ambiguous then Err(Conflict) else Ok(());
    }
  }

  method AllValid(ps: seq<Policy>) returns (ok: bool)
    ensures ok <==> forall p <- ps :: ValidPolicy(p)
  {
    var i := 0;
    while i < |ps|
      invariant 0 <= i <= |ps|
      invariant forall p <- ps[..i] :: ValidPolicy(p)
    {
      if !ValidPolicy(ps[i]) { return false; }
      assert ps[..i + 1] == ps[..i] + [ps[i]];
      i := i + 1;
    }
    assert ps[..i] == ps;
    return true;
  }

  method CountDefaults(ps: seq<Policy>) returns (n: nat)
    ensures n == Defaults(ps)
  {
    n := 0;
    var i := 0;
    while i < |ps|
      invariant 0 <= i <= |ps|
      invariant n == Defaults(ps[..i])
    {
      assert ps[..i + 1][..i] == ps[..i];
      if ps[i].kind == ByDefault { n := n + 1; }
      i := i + 1;
    }
    assert ps[..i] == ps;
  }

  /** Files the full ids under their selectors and looks for a selector with two. */
  method Ambiguous(ps: seq<Policy>) returns (found: bool)
    ensures found <==> !DistinctSelectors(ps)
  {
    var selectors: map<Selector, seq<string>> := map[];
    var i := 0;
    while i < |ps|
      invariant 0 <= i <= |ps|
      invariant selectors.Keys == Chosen(ps[..i]) && forall s <- selectors :: selectors[s] != []
      invariant SomeDoubled(selectors) <==> !DistinctSelectors(ps[..i])
    {
      var s := SelectorOf(ps[i]);
      DistinctSnoc(ps[..i], ps[i]);
      assert ps[..i + 1] == ps[..i] + [ps[i]];
      DoubledSnoc(selectors, s, ps[i].id + "-" + ps[i].version);
      selectors := selectors[s := (if s in selectors then selectors[s] else []) + [ps[i].id + "-" + ps[i].version]];
      i := i + 1;
    }
    assert ps[..i] == ps;
    found := SomeDoubled(selectors);
  }

  predicate SomeDoubled(selectors: map<Selector, seq<string>>) {
    exists s :: s in selectors && |selectors[s]| > 1
  }

  lemma DoubledSnoc(selectors: map<Selector, seq<string>>, s: Selector, id: string)
    requires forall k <- selectors :: selectors[k] != []
    ensures var next := selectors[s := (if s in selectors then selectors[s] else []) + [id]];
            SomeDoubled(next) <==> SomeDoubled(selectors) || s in selectors
  {
    var next := selectors[s := (if s in selectors then selectors[s] else []) + [id]];
    if SomeDoubled(selectors) {
      var k :| k in selectors && |selectors[k]| > 1;
      assert k in next && |next[k]| > 1;
    }
    if s in selectors { assert |next[s]| > 1; }
  }
}
