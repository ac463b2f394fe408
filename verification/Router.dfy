/** Deterministic route selection over the catalog, with a fallback chain and an explanation. */
module Router {
  import opened Options
  import opened Sorting
  import opened Catalogs
  import Budget

  datatype Config = Config(
    expectedInput: int, expectedOutput: int, costWeight: real, includedBonus: real, tierMatchBonus: real,
    tierDistancePenalty: real, riskFloorTier: int, diversityPenalty: real)

  const ZERO_CONFIG := Config(0, 0, 0.0, 0.0, 0.0, 0.0, 0, 0.0)
  const DEFAULT_CONFIG := Config(20000, 4000, 1.0, 0.5, 1.0, 0.6, STANDARD, 0.25)

  // No configuration at all is the default one, and the expected tokens are always positive.
  function Effective(c: Config): Config {
    var given := if c == ZERO_CONFIG then DEFAULT_CONFIG else c;
    given.(expectedInput := if given.expectedInput <= 0 then 20000 else given.expectedInput,
          expectedOutput := if given.expectedOutput <= 0 then 4000 else given.expectedOutput)
  }

  /** A configuration holds as it is, but for expected tokens that are not positive; none at all is the default one. */
  lemma EffectiveMeaning(c: Config)
    ensures c == Config(0, 0, 0.0, 0.0, 0.0, 0.0, 0, 0.0)
            ==> Effective(c) == Config(20000, 4000, 1.0, 0.5, 1.0, 0.6, 2, 0.25)
    ensures c != Config(0, 0, 0.0, 0.0, 0.0, 0.0, 0, 0.0)
            ==> var e := Effective(c);
                && e == c.(expectedInput := e.expectedInput, expectedOutput := e.expectedOutput)
                && e.expectedInput == (if c.expectedInput > 0 then c.expectedInput else 20000)
                && e.expectedOutput == (if c.expectedOutput > 0 then c.expectedOutput else 4000)
  {
  }

  datatype Request = Request(
    complexity: int, risk: int, needsImages: bool, contextTokens: int, project: string, task: string,
    preferStrong: bool, allowIncludedOnly: bool, penalised: map<string, int>)

  datatype FactorName = TierMatch | Cost | Included | Priority | Diversity

  datatype Factor = Factor(name: FactorName, delta: real)

  datatype Route = Route(entry: Entry, estimatedCost: real, score: real, factors: seq<Factor>)

  datatype Exclusion = EntryDisabled | NoImages | ContextTooSmall | BudgetBlocked | AccountUnavailable

  datatype Excluded = Excluded(entry: Entry, reason: Exclusion)

  // selectedIndex is where the selected route stands among the alternatives.
  datatype Explanation = Explanation(
    selected: Option<Route>, selectedIndex: nat, targetTier: int, alternatives: seq<Route>, excluded: seq<Excluded>,
    fallbackChain: seq<Route>, hardBlocked: bool)

  // Whether the quota manager lets an engine's account be used.
  type Quota = (string, string) -> bool

  // What one selection goes by.
  datatype Context = Context(config: Config, request: Request, target: int, includedOnly: bool, available: Quota)

  // ---- tiers ----

  function BaseTier(complexity: int, preferStrong: bool): (tier: int)
    ensures TINY <= tier <= MAX_TIER
  {
    match complexity
    case 0 => TINY
    case 1 => 1
    case 2 => STANDARD
    case 3 => if preferStrong then 3 else STANDARD
    case 4 => if preferStrong then MAX_TIER else 3
    case _ => STANDARD
  }

  // High risk floors the tier.
  function Target(config: Config, r: Request): (tier: int)
    ensures tier >= BaseTier(r.complexity, r.preferStrong) >= TINY
    ensures r.risk >= 3 ==> tier >= config.riskFloorTier
    ensures tier == BaseTier(r.complexity, r.preferStrong) || (r.risk >= 3 && tier == config.riskFloorTier)
  {
    var base := BaseTier(r.complexity, r.preferStrong);
    if r.risk >= 3 && config.riskFloorTier > base then config.riskFloorTier else base
  }

  /** With a preference for strength the tier is the band; without one the two upper bands come one tier lower. */
  lemma BaseTierMeaning(c: int)
    requires 0 <= c <= 4
    ensures BaseTier(c, true) == c
    ensures BaseTier(c, false) == if c <= 2 then c else c - 1
  {
  }

  /** A harder band, or a preference for strength, never lowers the tier. */
  lemma BaseTierIsMonotone(c: int, strong: bool, c': int, strong': bool)
    requires 0 <= c <= c' <= 4 && (strong ==> strong')
    ensures BaseTier(c, strong) <= BaseTier(c', strong')
  {
  }

  // The target first, then stronger tiers upwards, then weaker ones downwards.
  ghost predicate TriedBefore(target: int, a: int, b: int) {
    if a == target then b != target
    else if a > target then b > a || b < target
    else b < a
  }

  ghost predicate TriedInOrder(target: int, tiers: seq<int>) {
    forall i, j :: 0 <= i < j < |tiers| ==> TriedBefore(target, tiers[i], tiers[j])
  }

  function Ascending(from: int): seq<int>
    decreases MAX_TIER + 1 - from
  {
    if from > MAX_TIER then [] else [from] + Ascending(from + 1)
  }

  function Descending(from: int): seq<int>
    decreases from - TINY + 1
  {
    if from < TINY then [] else [from] + Descending(from - 1)
  }

  function FallbackTiers(target: int): seq<int> {
    [target] + Ascending(target + 1) + Descending(target - 1)
  }

  lemma {:induction false} AscendingMeaning(from: int)
    ensures |Ascending(from)| == if from > MAX_TIER then 0 else MAX_TIER + 1 - from
    ensures forall i :: 0 <= i < |Ascending(from)| ==> Ascending(from)[i] == from + i
    decreases MAX_TIER + 1 - from
  {
    if from <= MAX_TIER { AscendingMeaning(from + 1); }
  }

  lemma {:induction false} DescendingMeaning(from: int)
    ensures |Descending(from)| == if from < TINY then 0 else from - TINY + 1
    ensures forall i :: 0 <= i < |Descending(from)| ==> Descending(from)[i] == from - i
    decreases from - TINY + 1
  {
    if from >= TINY { DescendingMeaning(from - 1); }
  }

  /** The target, every stronger tier and every weaker one, in the order they are to be tried. */
  lemma FallbackTiersMeaning(target: int)
    requires target >= TINY
    ensures TriedInOrder(target, FallbackTiers(target))
    ensures forall t :: TINY <= t <= MAX_TIER ==> t in FallbackTiers(target)
  {
    AscendingMeaning(target + 1);
    DescendingMeaning(target - 1);
    var up, down := Ascending(target + 1), Descending(target - 1);
    forall t | TINY <= t <= MAX_TIER
      ensures t in FallbackTiers(target)
    {
      if t > target {
        assert up[t - target - 1] == t;
      } else if t < target {
        assert down[target - 1 - t] == t;
      }
    }
  }

  method OrderedFallbackTiers(target: int) returns (tiers: seq<int>)
    ensures tiers == FallbackTiers(target)
  {
    tiers := [target];
    var t := target + 1;
    while t <= MAX_TIER
      invariant [target] + Ascending(target + 1) == tiers + Ascending(t)
      decreases MAX_TIER + 1 - t
    {
      tiers := tiers + [t];
      t := t + 1;
    }
    t := target - 1;
    while t >= TINY
      invariant FallbackTiers(target) == tiers + Descending(t)
      decreases t - TINY + 1
    {
      tiers := tiers + [t];
      t := t - 1;
    }
  }

  // ---- eligibility and score ----

  function EstimateCost(config: Config, e: Entry): real {
    if e.inputCost <= 0.0 && e.outputCost <= 0.0 then 0.0
    else config.expectedInput as real / 1000000.0 * e.inputCost + config.expectedOutput as real / 1000000.0 * e.outputCost
  }

  /** The estimate prices the expected tokens by the million, unless no price is known. */
  lemma EstimateMeaning(config: Config, e: Entry)
    ensures EstimateCost(config, e) * 1000000.0
         == if e.inputCost <= 0.0 && e.outputCost <= 0.0 then 0.0
            else config.expectedInput as real * e.inputCost + config.expectedOutput as real * e.outputCost
  {
  }

  function ExcludeReason(c: Context, e: Entry): Option<Exclusion> {
    if e.disabled then Some(EntryDisabled)
    else if c.request.needsImages && !e.supportsImages then Some(NoImages)
    else if c.request.contextTokens > 0 && e.contextWindow > 0 && c.request.contextTokens > e.contextWindow
    then Some(ContextTooSmall)
    else if c.includedOnly && !e.subscriptionIncluded then Some(BudgetBlocked)
    else if !c.available(e.engine, e.account) then Some(AccountUnavailable)
    else None
  }

  // What a route has to meet. An unknown context window holds anything.
  ghost predicate Usable(c: Context, e: Entry) {
    && !e.disabled
    && (c.request.needsImages ==> e.supportsImages)
    && (e.contextWindow <= 0 || c.request.contextTokens <= e.contextWindow || c.request.contextTokens <= 0)
    && (c.includedOnly ==> e.subscriptionIncluded)
    && c.available(e.engine, e.account)
  }

  /** The reason is the first of those that hold, in this order, and there is one exactly when the entry is not usable. */
  lemma ReasonMeaning(c: Context, e: Entry)
    ensures var reason, r := ExcludeReason(c, e), c.request;
            var tooSmall := r.contextTokens > 0 && e.contextWindow > 0 && r.contextTokens > e.contextWindow;
            && (reason.None? <==> Usable(c, e))
            && (reason == Some(EntryDisabled) <==> e.disabled)
            && (reason == Some(NoImages) <==> !e.disabled && r.needsImages && !e.supportsImages)
            && (reason == Some(ContextTooSmall) ==> tooSmall)
            && (reason == Some(BudgetBlocked) ==> c.includedOnly && !e.subscriptionIncluded && !tooSmall)
            && (reason == Some(AccountUnavailable) ==>
                  && !c.available(e.engine, e.account) && !tooSmall && (c.includedOnly ==> e.subscriptionIncluded))
  {
  }

  function Distance(a: int, b: int): nat {
    if a < b then b - a else a - b
  }

  // The cost counts in full from ten dollars on.
  function CostShare(cost: real): real {
    if cost / 10.0 > 1.0 then 1.0 else cost / 10.0
  }

  function Penalty(weight: real, amount: real): real {
    -(weight * amount)
  }

  function TierFactor(c: Context, e: Entry): real {
    c.config.tierMatchBonus + Penalty(c.config.tierDistancePenalty, Distance(e.tier, c.target) as real)
  }

  // What an entry's cost, subscription, priority and over-used engine contribute, where they contribute at all.
  function CostFactor(c: Context, e: Entry): seq<Factor> {
    if EstimateCost(c.config, e) > 0.0
    then [Factor(Cost, Penalty(c.config.costWeight, CostShare(EstimateCost(c.config, e))))] else []
  }

  function IncludedFactor(c: Context, e: Entry): seq<Factor> {
    if e.subscriptionIncluded then [Factor(Included, c.config.includedBonus)] else []
  }

  function PriorityFactor(e: Entry): seq<Factor> {
    if e.priority != 0 then [Factor(Priority, e.priority as real * 0.1)] else []
  }

  function DiversityFactor(c: Context, e: Entry): seq<Factor> {
    if e.engine in c.request.penalised && c.request.penalised[e.engine] > 0
    then [Factor(Diversity, Penalty(c.config.diversityPenalty, c.request.penalised[e.engine] as real))] else []
  }

  function Factors(c: Context, e: Entry): seq<Factor> {
    [Factor(TierMatch, TierFactor(c, e))] + CostFactor(c, e) + IncludedFactor(c, e) + PriorityFactor(e) + DiversityFactor(c, e)
  }

  function Total(factors: seq<Factor>): real {
    if factors == [] then 0.0 else Total(factors[..|factors| - 1]) + factors[|factors| - 1].delta
  }

  function RouteOf(c: Context, e: Entry): Route {
    Route(e, EstimateCost(c.config, e), Total(Factors(c, e)), Factors(c, e))
  }

  method ScoreEntry(c: Context, e: Entry) returns (r: Route)
    ensures r == RouteOf(c, e)
  {
    hide EstimateCost, CostShare, Penalty, Total;
    var cost := EstimateCost(c.config, e);
    var dist := e.tier - c.target;
    if dist < 0 {
      dist := -dist;
    }
    assert dist == Distance(e.tier, c.target);
    var factors := [Factor(TierMatch, c.config.tierMatchBonus + Penalty(c.config.tierDistancePenalty, dist as real))];
    ghost var done := [Factor(TierMatch, TierFactor(c, e))];
    if cost > 0.0 {
      factors := factors + [Factor(Cost, Penalty(c.config.costWeight, CostShare(cost)))];
    }
    done := done + CostFactor(c, e);
    assert factors == done;
    if e.subscriptionIncluded {
      factors := factors + [Factor(Included, c.config.includedBonus)];
    }
    done := done + IncludedFactor(c, e);
    assert factors == done;
    if e.priority != 0 {
      factors := factors + [Factor(Priority, e.priority as real * 0.1)];
    }
    done := done + PriorityFactor(e);
    assert factors == done;
    if e.engine in c.request.penalised && c.request.penalised[e.engine] > 0 {
      factors := factors + [Factor(Diversity, Penalty(c.config.diversityPenalty, c.request.penalised[e.engine] as real))];
    }
    assert factors == done + DiversityFactor(c, e);
    assert factors == Factors(c, e);
    var total := Sum(factors);
    r := Route(e, cost, total, factors);
  }

  method Sum(factors: seq<Factor>) returns (total: real)
    ensures total == Total(factors)
  {
    total := 0.0;
    for i := 0 to |factors|
      invariant total == Total(factors[..i])
    {
      assert factors[..i + 1][..i] == factors[..i];
      total := total + factors[i].delta;
    }
    assert factors[..|factors|] == factors;
  }

  // ---- ranking ----

  predicate ScoresBefore(a: Route, b: Route) {
    a.score >= b.score
  }

  // What the tiers below n offer, cheapest tier first.
  function Offered(entries: seq<Entry>, n: nat): seq<Entry> {
    if n == 0 then [] else Offered(entries, n - 1) + TierEntries(entries, n - 1)
  }

  function Eligible(c: Context, offered: seq<Entry>): seq<Route> {
    if offered == [] then []
    else
      var last := offered[|offered| - 1];
      Eligible(c, offered[..|offered| - 1]) + if ExcludeReason(c, last).None? then [RouteOf(c, last)] else []
  }

  function Rejected(c: Context, offered: seq<Entry>): seq<Excluded> {
    if offered == [] then []
    else
      var last := offered[|offered| - 1];
      Rejected(c, offered[..|offered| - 1])
      + match ExcludeReason(c, last) case Some(reason) => [Excluded(last, reason)] case None => []
  }

  function Ranked(c: Context, entries: seq<Entry>): seq<Route> {
    Sort(Eligible(c, Offered(entries, MAX_TIER + 1)), ScoresBefore)
  }

  // The first alternative of a tier, or the number of alternatives.
  function FirstOfTier(alternatives: seq<Route>, tier: int): (i: nat)
    ensures i <= |alternatives|
    ensures i < |alternatives| ==> alternatives[i].entry.tier == tier
    ensures forall j :: 0 <= j < i ==> alternatives[j].entry.tier != tier
  {
    if alternatives == [] || alternatives[0].entry.tier == tier then 0 else 1 + FirstOfTier(alternatives[1..], tier)
  }

  // The best of each tier that has one, in the order of the tiers.
  function Chain(alternatives: seq<Route>, tiers: seq<int>): seq<Route> {
    if tiers == [] then []
    else
      var first := FirstOfTier(alternatives, tiers[|tiers| - 1]);
      Chain(alternatives, tiers[..|tiers| - 1]) + if first < |alternatives| then [alternatives[first]] else []
  }

  // ---- what ranking keeps ----

  // How many of the routes are of this entry.
  function RoutesTo(routes: seq<Route>, e: Entry): nat {
    if routes == [] then 0 else (if routes[0].entry == e then 1 else 0) + RoutesTo(routes[1..], e)
  }

  function ExclusionsOf(excluded: seq<Excluded>, e: Entry): nat {
    if excluded == [] then 0 else (if excluded[0].entry == e then 1 else 0) + ExclusionsOf(excluded[1..], e)
  }

  lemma {:induction false} OneMoreRoute(routes: seq<Route>, r: Route, e: Entry)
    ensures RoutesTo(routes + [r], e) == RoutesTo(routes, e) + if r.entry == e then 1 else 0
  {
    if routes != [] {
      OneMoreRoute(routes[1..], r, e);
      assert (routes + [r])[1..] == routes[1..] + [r];
    }
  }

  lemma {:induction false} OneMoreExclusion(excluded: seq<Excluded>, x: Excluded, e: Entry)
    ensures ExclusionsOf(excluded + [x], e) == ExclusionsOf(excluded, e) + if x.entry == e then 1 else 0
  {
    if excluded != [] {
      OneMoreExclusion(excluded[1..], x, e);
      assert (excluded + [x])[1..] == excluded[1..] + [x];
    }
  }

  lemma {:induction false} OfferedSplits(c: Context, offered: seq<Entry>, e: Entry)
    ensures RoutesTo(Eligible(c, offered), e) + ExclusionsOf(Rejected(c, offered), e) == multiset(offered)[e]
  {
    hide ExcludeReason, RouteOf, RoutesTo, ExclusionsOf;
    if offered == [] {
      NothingCounted(e);
    } else {
      var front, last := offered[..|offered| - 1], offered[|offered| - 1];
      OfferedSplits(c, front, e);
      assert offered == front + [last];
      RouteIsOfEntry(c, last);
      if ExcludeReason(c, last).None? {
        assert Rejected(c, front) + [] == Rejected(c, front);
        OneMoreRoute(Eligible(c, front), RouteOf(c, last), e);
      } else {
        assert Eligible(c, front) + [] == Eligible(c, front);
        OneMoreExclusion(Rejected(c, front), Excluded(last, ExcludeReason(c, last).value), e);
      }
    }
  }

  lemma NothingCounted(e: Entry)
    ensures RoutesTo([], e) == 0 && ExclusionsOf([], e) == 0
  {
  }

  lemma RouteIsOfEntry(c: Context, e: Entry)
    ensures RouteOf(c, e).entry == e
  {
  }

  lemma {:induction false} OfferedCounts(entries: seq<Entry>, n: nat, e: Entry)
    ensures multiset(Offered(entries, n))[e] == if !e.disabled && 0 <= e.tier < n then multiset(entries)[e] else 0
  {
    hide TierEntries;
    if n > 0 {
      OfferedCounts(entries, n - 1, e);
      TierEntriesMeaning(entries, n - 1, e);
    }
  }

  lemma {:induction false} InsertKeepsRoutes(x: Route, s: seq<Route>, e: Entry)
    ensures RoutesTo(Insert(x, s, ScoresBefore), e) == RoutesTo(s, e) + if x.entry == e then 1 else 0
  {
    if s != [] && !ScoresBefore(x, s[0]) {
      InsertKeepsRoutes(x, s[1..], e);
    }
  }

  lemma {:induction false} SortKeepsRoutes(s: seq<Route>, e: Entry)
    ensures RoutesTo(Sort(s, ScoresBefore), e) == RoutesTo(s, e)
  {
    if s != [] {
      SortKeepsRoutes(s[1..], e);
      InsertKeepsRoutes(s[0], Sort(s[1..], ScoresBefore), e);
    }
  }

  /**
   Every enabled entry of a defined tier appears, as often as in the catalog, in the alternatives and exclusions taken
   together; a disabled or undefined one in neither.
   */
  lemma EveryEntryIsAccountedFor(c: Context, entries: seq<Entry>, e: Entry)
    ensures RoutesTo(Ranked(c, entries), e) + ExclusionsOf(Rejected(c, Offered(entries, MAX_TIER + 1)), e)
         == if !e.disabled && TINY <= e.tier <= MAX_TIER then multiset(entries)[e] else 0
  {
    hide Offered, Eligible, Rejected, RoutesTo, ExclusionsOf;
    OfferedCounts(entries, MAX_TIER + 1, e);
    OfferedSplits(c, Offered(entries, MAX_TIER + 1), e);
    SortKeepsRoutes(Eligible(c, Offered(entries, MAX_TIER + 1)), e);
  }

  lemma {:induction false} EligibleMember(c: Context, offered: seq<Entry>, r: Route)
    ensures r in Eligible(c, offered)
            <==> r.entry in offered && ExcludeReason(c, r.entry).None? && r == RouteOf(c, r.entry)
  {
    hide ExcludeReason, Factors, Total, EstimateCost;
    if offered != [] {
      EligibleMember(c, offered[..|offered| - 1], r);
      assert offered == offered[..|offered| - 1] + [offered[|offered| - 1]];
    }
  }

  lemma {:induction false} RejectedMember(c: Context, offered: seq<Entry>, x: Excluded)
    ensures x in Rejected(c, offered) <==> x.entry in offered && ExcludeReason(c, x.entry) == Some(x.reason)
  {
    hide ExcludeReason;
    if offered != [] {
      RejectedMember(c, offered[..|offered| - 1], x);
      assert offered == offered[..|offered| - 1] + [offered[|offered| - 1]];
    }
  }

  lemma OfferedMember(entries: seq<Entry>, e: Entry)
    ensures e in Offered(entries, MAX_TIER + 1) <==> e in entries && !e.disabled && TINY <= e.tier <= MAX_TIER
  {
    OfferedCounts(entries, MAX_TIER + 1, e);
    assert e in Offered(entries, MAX_TIER + 1) <==> multiset(Offered(entries, MAX_TIER + 1))[e] > 0;
    assert e in entries <==> multiset(entries)[e] > 0;
  }

  /** The alternatives are the scored routes of exactly the usable entries of a defined tier, best score first. */
  lemma AlternativesMeaning(c: Context, entries: seq<Entry>, r: Route)
    ensures r in Ranked(c, entries)
            <==> && r.entry in entries && TINY <= r.entry.tier <= MAX_TIER
                 && Usable(c, r.entry) && r == RouteOf(c, r.entry)
    ensures Sorted(Ranked(c, entries), ScoresBefore)
  {
    hide Offered, Eligible, RouteOf;
    var eligible := Eligible(c, Offered(entries, MAX_TIER + 1));
    SortMembers(eligible, ScoresBefore, r);
    EligibleMember(c, Offered(entries, MAX_TIER + 1), r);
    OfferedMember(entries, r.entry);
    SortSorts(eligible, ScoresBefore);
  }

  /** Each exclusion names a true reason, and when only included routes may run nothing else is an alternative. */
  lemma ExclusionsAreJust(c: Context, entries: seq<Entry>, r: Route, x: Excluded)
    ensures r in Ranked(c, entries) && c.includedOnly ==> r.entry.subscriptionIncluded
    ensures x in Rejected(c, Offered(entries, MAX_TIER + 1)) ==> ExcludeReason(c, x.entry) == Some(x.reason) && !x.reason.EntryDisabled?
  {
    hide Offered, Rejected, Ranked;
    AlternativesMeaning(c, entries, r);
    RejectedMember(c, Offered(entries, MAX_TIER + 1), x);
    OfferedMember(entries, x.entry);
  }

  // ---- the chain ----

  // The head of its tier: an alternative no other of the tier beats.
  ghost predicate BestOfTier(alternatives: seq<Route>, r: Route) {
    r in alternatives && forall a :: a in alternatives && a.entry.tier == r.entry.tier ==> a.score <= r.score
  }

  lemma FirstIsBest(alternatives: seq<Route>, tier: int)
    requires Sorted(alternatives, ScoresBefore)
    ensures var i := FirstOfTier(alternatives, tier);
            if i < |alternatives| then alternatives[i].entry.tier == tier && BestOfTier(alternatives, alternatives[i])
            else forall a :: a in alternatives ==> a.entry.tier != tier
  {
    var i := FirstOfTier(alternatives, tier);
    if i < |alternatives| {
      forall a | a in alternatives && a.entry.tier == tier
        ensures a.score <= alternatives[i].score
      {
        var j :| 0 <= j < |alternatives| && alternatives[j] == a;
        if i < j { assert ScoresBefore(alternatives[i], alternatives[j]); }
      }
    }
  }

  ghost predicate ChainOk(alternatives: seq<Route>, tiers: seq<int>, target: int, chain: seq<Route>) {
    && (forall r :: r in chain ==> BestOfTier(alternatives, r) && r.entry.tier in tiers)
    && (forall i, j :: 0 <= i < j < |chain| ==> TriedBefore(target, chain[i].entry.tier, chain[j].entry.tier))
    && (forall a :: a in alternatives && a.entry.tier in tiers ==> exists r :: r in chain && r.entry.tier == a.entry.tier)
  }

  lemma {:induction false} ChainIsOk(alternatives: seq<Route>, tiers: seq<int>, target: int)
    requires Sorted(alternatives, ScoresBefore) && TriedInOrder(target, tiers)
    ensures ChainOk(alternatives, tiers, target, Chain(alternatives, tiers))
  {
    hide BestOfTier, TriedBefore, Sorted, FirstOfTier, ChainOk;
    if tiers == [] {
      EmptyChainIsOk(alternatives, target);
    } else {
      var front, last := tiers[..|tiers| - 1], tiers[|tiers| - 1];
      ChainIsOk(alternatives, front, target);
      FirstIsBest(alternatives, last);
      var first := FirstOfTier(alternatives, last);
      assert tiers == front + [last];
      if first < |alternatives| {
        ChainGrows(alternatives, front, last, target, Chain(alternatives, front), alternatives[first]);
      } else {
        ChainSkips(alternatives, front, last, target, Chain(alternatives, front));
      }
    }
  }

  lemma EmptyChainIsOk(alternatives: seq<Route>, target: int)
    ensures ChainOk(alternatives, [], target, [])
  {
  }

  lemma ChainSkips(alternatives: seq<Route>, front: seq<int>, last: int, target: int, chain: seq<Route>)
    requires ChainOk(alternatives, front, target, chain)
    requires forall a :: a in alternatives ==> a.entry.tier != last
    ensures ChainOk(alternatives, front + [last], target, chain + [])
  {
    hide BestOfTier, TriedBefore;
    assert chain + [] == chain;
  }

  lemma ChainGrows(
    alternatives: seq<Route>, front: seq<int>, last: int, target: int, chain: seq<Route>, r: Route)
    requires ChainOk(alternatives, front, target, chain) && TriedInOrder(target, front + [last])
    requires BestOfTier(alternatives, r) && r.entry.tier == last
    ensures ChainOk(alternatives, front + [last], target, chain + [r])
  {
    hide BestOfTier, TriedBefore;
    var longer := chain + [r];
    forall i, j | 0 <= i < j < |longer|
      ensures TriedBefore(target, longer[i].entry.tier, longer[j].entry.tier)
    {
      if j == |chain| {
        LinkIsEarlier(front, last, target, chain[i].entry.tier);
      }
    }
    assert longer[|chain|] == r && r in longer;
    assert forall q :: q in chain ==> q in longer;
  }

  lemma LinkIsEarlier(front: seq<int>, last: int, target: int, tier: int)
    requires TriedInOrder(target, front + [last]) && tier in front
    ensures TriedBefore(target, tier, last)
  {
    var k :| 0 <= k < |front| && front[k] == tier;
    assert (front + [last])[k] == tier && (front + [last])[|front|] == last;
  }

  // ---- selection ----

  function Explained(
    entries: seq<Entry>, config: Config, request: Request, available: Quota, blocked: bool): Explanation
  {
    var target := Target(config, request);
    var c := Context(config, request, target, request.allowIncludedOnly || blocked, available);
    var alternatives := Ranked(c, entries);
    var chain := Chain(alternatives, FallbackTiers(target));
    Explanation(
      if chain == [] then None else Some(chain[0]),
      if chain == [] then 0 else FirstOfTier(alternatives, chain[0].entry.tier),
      target, alternatives, Rejected(c, Offered(entries, MAX_TIER + 1)), chain, blocked)
  }

  // The highest estimate in a tier's list.
  function HighestCost(config: Config, entries: seq<Entry>): real {
    if entries == [] then 0.0
    else
      var rest, cost := HighestCost(config, entries[..|entries| - 1]), EstimateCost(config, entries[|entries| - 1]);
      if cost > rest then cost else rest
  }

  /** It is no less than any of their estimates, and one of them unless it is zero. */
  lemma {:induction false} HighestCostMeaning(config: Config, entries: seq<Entry>)
    ensures HighestCost(config, entries) >= 0.0
    ensures forall e :: e in entries ==> EstimateCost(config, e) <= HighestCost(config, entries)
    ensures HighestCost(config, entries) > 0.0 ==>
              exists e :: e in entries && EstimateCost(config, e) == HighestCost(config, entries)
  {
    hide EstimateCost;
    if entries != [] {
      HighestCostMeaning(config, entries[..|entries| - 1]);
      assert entries == entries[..|entries| - 1] + [entries[|entries| - 1]];
    }
  }

  /**
   The fallback chain holds the best route of every tier that has any, at most one a tier, in the order target,
   stronger, weaker; the selected route is its head, and there is none exactly when there is no alternative.
   */
  lemma SelectionMeaning(entries: seq<Entry>, config: Config, request: Request, available: Quota, blocked: bool)
    ensures var x := Explained(entries, config, request, available, blocked);
            && Sorted(x.alternatives, ScoresBefore)
            && ChainOk(x.alternatives, FallbackTiers(x.targetTier), x.targetTier, x.fallbackChain)
            && (forall a :: a in x.alternatives ==> exists r :: r in x.fallbackChain && r.entry.tier == a.entry.tier)
            && (x.selected.None? <==> x.alternatives == [])
            && (x.selected.Some? ==>
                  && x.fallbackChain != [] && x.selected.value == x.fallbackChain[0]
                  && BestOfTier(x.alternatives, x.selected.value)
                  && x.selectedIndex < |x.alternatives| && x.alternatives[x.selectedIndex] == x.selected.value
                  && forall a :: a in x.alternatives && a.entry.tier != x.selected.value.entry.tier ==>
                       TriedBefore(x.targetTier, x.selected.value.entry.tier, a.entry.tier))
            && (blocked ==> forall a :: a in x.alternatives ==> a.entry.subscriptionIncluded)
  {
    hide Ranked, Rejected, Offered, FallbackTiers, Chain, Target, BestOfTier, TriedBefore, RouteOf, ExcludeReason;
    var x := Explained(entries, config, request, available, blocked);
    var c := Context(config, request, x.targetTier, request.allowIncludedOnly || blocked, available);
    forall r
      ensures r in x.alternatives ==> TINY <= r.entry.tier <= MAX_TIER
      ensures Sorted(x.alternatives, ScoresBefore)
      ensures r in x.alternatives && c.includedOnly ==> r.entry.subscriptionIncluded
    {
      AlternativesMeaning(c, entries, r);
      ExclusionsAreJust(c, entries, r, Excluded(r.entry, NoImages));
    }
    FallbackTiersMeaning(x.targetTier);
    ChainIsOk(x.alternatives, FallbackTiers(x.targetTier), x.targetTier);
    ChainIsHead(x.alternatives, FallbackTiers(x.targetTier));
    if x.alternatives != [] {
      assert x.alternatives[0] in x.alternatives;
    }
    if x.fallbackChain != [] {
      assert x.fallbackChain[0] in x.fallbackChain;
      assert BestOfTier(x.alternatives, x.selected.value);
    }
  }

  /**
   The choice is restricted to included routes exactly by the request or by a hard block: with either every alternative
   is included, and with neither every entry that meets the rest is an alternative, included or not.
   */
  lemma RestrictionMeaning(
    entries: seq<Entry>, config: Config, request: Request, available: Quota, blocked: bool, e: Entry)
    ensures var x := Explained(entries, config, request, available, blocked);
            (exists a :: a in x.alternatives && a.entry == e)
            <==> && e in entries && TINY <= e.tier <= MAX_TIER && !e.disabled
                 && (request.needsImages ==> e.supportsImages)
                 && (e.contextWindow > 0 && request.contextTokens > 0 ==> request.contextTokens <= e.contextWindow)
                 && available(e.engine, e.account)
                 && (request.allowIncludedOnly || blocked ==> e.subscriptionIncluded)
  {
    hide Ranked, Rejected, Offered, Chain, FallbackTiers, RouteOf;
    var x := Explained(entries, config, request, available, blocked);
    var c := Context(config, request, x.targetTier, request.allowIncludedOnly || blocked, available);
    forall r
      ensures r in x.alternatives <==>
                && r.entry in entries && TINY <= r.entry.tier <= MAX_TIER && Usable(c, r.entry) && r == RouteOf(c, r.entry)
    {
      AlternativesMeaning(c, entries, r);
    }
    RouteIsOfEntry(c, e);
    assert RouteOf(c, e) in x.alternatives <==> e in entries && TINY <= e.tier <= MAX_TIER && Usable(c, e);
  }

  // Each link is the first alternative of its tier.
  lemma {:induction false} ChainIsHead(alternatives: seq<Route>, tiers: seq<int>)
    ensures forall r :: r in Chain(alternatives, tiers) ==>
              var i := FirstOfTier(alternatives, r.entry.tier); i < |alternatives| && alternatives[i] == r
  {
    if tiers != [] {
      ChainIsHead(alternatives, tiers[..|tiers| - 1]);
    }
  }

  lemma {:induction false} OfferedIgnoresOrder(a: seq<Entry>, b: seq<Entry>, n: nat)
    requires NoDuplicates(a) && multiset(a) == multiset(b)
    ensures Offered(a, n) == Offered(b, n)
  {
    hide TierEntries, NoDuplicates;
    if n > 0 {
      OfferedIgnoresOrder(a, b, n - 1);
      TierEntriesIgnoreOrder(a, b, n - 1);
    }
  }

  /** The whole explanation, budget check included, is the same in whatever order the entries were added. */
  lemma RoutingIgnoresCatalogOrder(
    a: seq<Entry>, b: seq<Entry>, config: Config, request: Request, available: Quota, blocked: bool)
    requires NoDuplicates(a) && multiset(a) == multiset(b)
    ensures Explained(a, config, request, available, blocked) == Explained(b, config, request, available, blocked)
    ensures HighestCost(config, TierEntries(a, Target(config, request)))
         == HighestCost(config, TierEntries(b, Target(config, request)))
  {
    OfferedIgnoresOrder(a, b, MAX_TIER + 1);
    TierEntriesIgnoreOrder(a, b, Target(config, request));
  }

  // How far apart two tiers are.
  function TiersApart(a: int, b: int): (d: real)
    ensures d >= 0.0 && (d == (a - b) as real || d == (b - a) as real)
  {
    Distance(a, b) as real
  }

  // A cost's share of ten dollars, at most all of it.
  function ShareOfTen(cost: real): (share: real)
    ensures cost <= 10.0 ==> share * 10.0 == cost
    ensures cost >= 10.0 ==> share == 1.0
  {
    CostShare(cost)
  }

  /** A score is the tier match, less the cost, plus what subscription, priority and diversity add. */
  lemma ScoreMeaning(c: Context, e: Entry)
    ensures RouteOf(c, e).score ==
              c.config.tierMatchBonus - c.config.tierDistancePenalty * TiersApart(e.tier, c.target)
              - (if EstimateCost(c.config, e) <= 0.0 then 0.0
                 else c.config.costWeight * ShareOfTen(EstimateCost(c.config, e)))
              + (if e.subscriptionIncluded then c.config.includedBonus else 0.0)
              + e.priority as real * 0.1
              - (if e.engine in c.request.penalised && c.request.penalised[e.engine] > 0
                 then c.config.diversityPenalty * c.request.penalised[e.engine] as real else 0.0)
  {
    TierMeaning(c, e);
    CostMeaning(c, e);
    hide TierFactor, EstimateCost, CostShare, Total, TiersApart, ShareOfTen;
    var tier := [Factor(TierMatch, TierFactor(c, e))];
    NoFactors();
    TotalOfNote([], tier);
    assert [] + tier == tier;
    TotalOfNote(tier, CostFactor(c, e));
    TotalOfNote(tier + CostFactor(c, e), IncludedFactor(c, e));
    TotalOfNote(tier + CostFactor(c, e) + IncludedFactor(c, e), PriorityFactor(e));
    TotalOfNote(tier + CostFactor(c, e) + IncludedFactor(c, e) + PriorityFactor(e), DiversityFactor(c, e));
  }

  lemma TierMeaning(c: Context, e: Entry)
    ensures TierFactor(c, e) == c.config.tierMatchBonus - c.config.tierDistancePenalty * TiersApart(e.tier, c.target)
  {
    var d := TiersApart(e.tier, c.target);
    assert d == Distance(e.tier, c.target) as real;
    assert Penalty(c.config.tierDistancePenalty, d) == -(c.config.tierDistancePenalty * d);
    hide TiersApart, Penalty, Distance;
  }

  lemma CostMeaning(c: Context, e: Entry)
    ensures var share := ShareOfTen(EstimateCost(c.config, e));
            Penalty(c.config.costWeight, CostShare(EstimateCost(c.config, e))) == -(c.config.costWeight * share)
  {
    var share := ShareOfTen(EstimateCost(c.config, e));
    assert share == CostShare(EstimateCost(c.config, e));
    assert Penalty(c.config.costWeight, share) == -(c.config.costWeight * share);
    hide ShareOfTen, CostShare, Penalty, EstimateCost;
  }

  lemma NoFactors()
    ensures Total([]) == 0.0
  {
  }

  lemma TotalOfNote(before: seq<Factor>, note: seq<Factor>)
    requires |note| <= 1
    ensures Total(before + note) == Total(before) + if note == [] then 0.0 else note[0].delta
  {
    if note == [] {
      assert before + note == before;
    } else {
      assert (before + note)[..|before|] == before;
    }
  }

  // ---- the router ----

  class Selector {
    const catalog: Catalog
    const budget: Budget.Controller?
    const config: Config

    constructor (catalog: Catalog, budget: Budget.Controller?, config: Config)
      ensures this.catalog == catalog && this.budget == budget
      ensures this.config == Effective(config)
    {
      this.catalog := catalog;
      this.budget := budget;
      var c := if config == ZERO_CONFIG then DEFAULT_CONFIG else config;
      if c.expectedInput <= 0 {
        c := c.(expectedInput := 20000);
      }
      if c.expectedOutput <= 0 {
        c := c.(expectedOutput := 4000);
      }
      this.config := c;
    }

    method EstimateForTier(tier: int) returns (best: real)
      ensures best == HighestCost(config, TierEntries(catalog.entries, tier))
    {
      var entries := catalog.ByTier(tier);
      best := 0.0;
      for i := 0 to |entries|
        invariant best == HighestCost(config, entries[..i])
      {
        assert entries[..i + 1][..i] == entries[..i];
        var cost := EstimateCost(config, entries[i]);
        if cost > best {
          best := cost;
        }
      }
      assert entries[..|entries|] == entries;
    }

    method RankedAlternatives(c: Context) returns (alternatives: seq<Route>, excluded: seq<Excluded>)
      ensures alternatives == Ranked(c, catalog.entries)
      ensures excluded == Rejected(c, Offered(catalog.entries, MAX_TIER + 1))
    {
      hide ExcludeReason, RouteOf, TierEntries;
      alternatives, excluded := [], [];
      for tier := TINY to MAX_TIER + 1
        invariant alternatives == Eligible(c, Offered(catalog.entries, tier))
        invariant excluded == Rejected(c, Offered(catalog.entries, tier))
      {
        var entries := catalog.ByTier(tier);
        ghost var before := Offered(catalog.entries, tier);
        assert before + entries[..0] == before;
        for i := 0 to |entries|
          invariant alternatives == Eligible(c, before + entries[..i])
          invariant excluded == Rejected(c, before + entries[..i])
        {
          var e := entries[i];
          assert (before + entries[..i + 1])[..|before| + i] == before + entries[..i];
          var reason := ExcludeReason(c, e);
          if reason.Some? {
            excluded := excluded + [Excluded(e, reason.value)];
            continue;
          }
          var route := ScoreEntry(c, e);
          alternatives := alternatives + [route];
        }
        assert before + entries[..|entries|] == Offered(catalog.entries, tier + 1);
      }
      alternatives := Sort(alternatives, ScoresBefore);
    }

    method Select(alternatives: seq<Route>, tiers: seq<int>) returns (selected: Option<Route>, index: nat)
      ensures var chain := Chain(alternatives, tiers);
              && selected == (if chain == [] then None else Some(chain[0]))
              && index == (if chain == [] then 0 else FirstOfTier(alternatives, chain[0].entry.tier))
    {
      selected, index := None, 0;
      var k := 0;
      while k < |tiers| && selected.None?
        invariant 0 <= k <= |tiers|
        invariant var chain := Chain(alternatives, tiers[..k]);
                  && selected == (if chain == [] then None else Some(chain[0]))
                  && index == (if chain == [] then 0 else FirstOfTier(alternatives, chain[0].entry.tier))
      {
        assert tiers[..k + 1][..k] == tiers[..k];
        var i := FindTier(alternatives, tiers[k]);
        if i < |alternatives| {
          selected, index := Some(alternatives[i]), i;
        }
        k := k + 1;
      }
      ChainStartsEarly(alternatives, tiers, k);
    }

    method FindTier(alternatives: seq<Route>, tier: int) returns (i: nat)
      ensures i == FirstOfTier(alternatives, tier)
    {
      i := 0;
      while i < |alternatives| && alternatives[i].entry.tier != tier
        invariant i <= |alternatives| && forall j :: 0 <= j < i ==> alternatives[j].entry.tier != tier
      {
        i := i + 1;
      }
    }

    method BuildChain(alternatives: seq<Route>, tiers: seq<int>) returns (chain: seq<Route>)
      requires forall i, j :: 0 <= i < j < |tiers| ==> tiers[i] != tiers[j]
      ensures chain == Chain(alternatives, tiers)
    {
      chain := [];
      var seen: set<int> := {};
      for k := 0 to |tiers|
        invariant chain == Chain(alternatives, tiers[..k])
        invariant forall t :: t in seen ==> t in tiers[..k]
      {
        assert tiers[..k + 1][..k] == tiers[..k];
        var i := 0;
        while i < |alternatives| && !(alternatives[i].entry.tier == tiers[k] && tiers[k] !in seen)
          invariant i <= |alternatives| && forall j :: 0 <= j < i ==> alternatives[j].entry.tier != tiers[k]
        {
          i := i + 1;
        }
        if i < |alternatives| {
          chain := chain + [alternatives[i]];
          seen := seen + {tiers[k]};
        }
      }
      assert tiers[..|tiers|] == tiers;
    }

    /** available is the quota manager's word on each account, and now the time of the budget check. */
    method Route(request: Request, available: Quota, now: Budget.Instant) returns (x: Option<Explanation>)
      ensures x.Some? <==> 0 <= request.complexity <= 4 && 0 <= request.risk <= 4
      ensures x.Some? ==>
                && x.value == Explained(catalog.entries, config, request, available, x.value.hardBlocked)
                && (x.value.hardBlocked <==>
                      && budget != null
                      && !Budget.Affordable(budget.limits, budget.records,
                                            Budget.Scope(request.project, request.task, request.risk, Some(Budget.Coding)),
                                            HighestCost(config, TierEntries(catalog.entries, Target(config, request))), now))
    {
      if !(0 <= request.complexity <= 4) {
        return None;
      }
      if !(0 <= request.risk <= 4) {
        return None;
      }
      hide Ranked, Rejected, Offered, Chain, FallbackTiers, HighestCost, TierEntries, Budget.Affordable;
      var target := BaseTier(request.complexity, request.preferStrong);
      if request.risk >= 3 && config.riskFloorTier > target {
        target := config.riskFloorTier;
      }
      var estimate := EstimateForTier(target);
      var hardBlocked := false;
      if budget != null {
        var scope := Budget.Scope(request.project, request.task, request.risk, Some(Budget.Coding));
        var decision := budget.CanAfford(scope, estimate, true, true, now);
        hardBlocked := decision.hardBlocked;
      }
      var includedOnly := request.allowIncludedOnly;
      if hardBlocked {
        includedOnly := true;
      }
      var tiers := OrderedFallbackTiers(target);
      FallbackTiersMeaning(target);
      var c := Context(config, request, target, includedOnly, available);
      var alternatives, excluded := RankedAlternatives(c);
      var selected, index := Select(alternatives, tiers);
      TriedOnce(target, tiers);
      var chain := BuildChain(alternatives, tiers);
      x := Some(Explanation(selected, index, target, alternatives, excluded, chain, hardBlocked));
    }
  }

  lemma TriedOnce(target: int, tiers: seq<int>)
    requires TriedInOrder(target, tiers)
    ensures forall i, j :: 0 <= i < j < |tiers| ==> tiers[i] != tiers[j]
  {
    forall i, j | 0 <= i < j < |tiers|
      ensures tiers[i] != tiers[j]
    {
      assert TriedBefore(target, tiers[i], tiers[j]);
    }
  }

  // The chain over all tiers starts as the chain over the first k does, if that is not empty.
  lemma {:induction false} ChainStartsEarly(alternatives: seq<Route>, tiers: seq<int>, k: nat)
    requires k <= |tiers| && (k == |tiers| || Chain(alternatives, tiers[..k]) != [])
    ensures k == |tiers| ==> Chain(alternatives, tiers) == Chain(alternatives, tiers[..k])
    ensures k < |tiers| ==>
              && Chain(alternatives, tiers) != []
              && Chain(alternatives, tiers)[0] == Chain(alternatives, tiers[..k])[0]
    decreases |tiers|
  {
    if k == |tiers| {
      assert tiers[..k] == tiers;
    } else {
      var front := tiers[..|tiers| - 1];
      assert front[..k] == tiers[..k];
      ChainStartsEarly(alternatives, front, k);
    }
  }
}
