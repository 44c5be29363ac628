/**
 The budget side of VeronicaOS. `before_step` plans and arbitrates under the lock
 but deducts nothing; `after_step` books the cost. Each lock section is one atomic
 step, and steps of different threads interleave freely.
 */
module BudgetLoop {
  import opened Basics
  import opened Planner
  import Arbiter

  /** Either planner, with its configuration and drifting state. */
  datatype PlannerState =
    | Simple(limits: Limits, ceiling: real)
    | Cooling(limits: Limits, state: Adaptive)
  {
    function Ceiling(): real {
      if Simple? then ceiling else state.ceiling
    }

    function Next(call: PlanCall): PlannerState {
      if Simple? then Simple(limits, SimpleNext(limits, ceiling, call.analysis, call.chainRemaining))
      else Cooling(limits, AdaptiveNext(limits, state, call))
    }
  }

  datatype Os = Os(
    budget: real,
    orgCeiling: Option<real>,
    totalSpent: real,
    chainSpent: map<string, real>,
    planner: PlannerState)

  /**
   One call of before_step: the intent, what the earlier stages produced, and which
   stages overran their time budget.
   */
  datatype Request = Request(
    chain: string,
    denied: bool,
    analysis: Option<Analysis>,
    estimate: real,
    plannerTimeout: bool,
    arbiterTimeout: bool)

  datatype Handle = Handle(chain: string, ceiling: real)

  // ---------------------------------------------------------------- the lock sections

  function SpentOn(os: Os, chain: string): real {
    if chain in os.chainSpent then os.chainSpent[chain] else 0.0
  }

  function Remaining(os: Os): real {
    os.budget - os.totalSpent
  }

  /**
   The planner's state after a request. The stage runs to completion before its overrun
   is noticed, so it moves either way.
   */
  function Planned(os: Os, r: Request): PlannerState {
    if r.denied then os.planner
    else os.planner.Next(PlanCall(r.analysis, r.estimate, os.budget - SpentOn(os, r.chain)))
  }

  function Capped(orgCeiling: Option<real>, desired: real): real {
    if orgCeiling.Some? && desired > orgCeiling.value then orgCeiling.value else desired
  }

  /** What the planning stages ask for. */
  function DesiredCeiling(os: Os, r: Request): real {
    Capped(os.orgCeiling, if r.plannerTimeout then MinR(1.0, Remaining(os)) else Planned(os, r).Ceiling())
  }

  /** The pass-through arbiter on a single desire. */
  function PassOne(desired: real, remaining: real): real {
    if desired > remaining && desired > 0.0 then remaining else desired
  }

  function IssuedCeiling(os: Os, r: Request): real {
    if r.denied then 0.0
    else if r.arbiterTimeout then DesiredCeiling(os, r)
    else PassOne(DesiredCeiling(os, r), Remaining(os))
  }

  function Booked(os: Os, chain: string, cost: real): Os {
    os.(totalSpent := os.totalSpent + cost,
        chainSpent := os.chainSpent[chain := SpentOn(os, chain) + cost])
  }

  lemma PassThroughOne(d: Arbiter.Terms, remaining: real)
    ensures Arbiter.ScaledBy(d, Arbiter.Scale([d], remaining)).ceiling == PassOne(d.ceiling, remaining)
  {
    assert [d][..0] == [];
    assert Arbiter.TotalDesired([d]) == d.ceiling;
  }

  /**
   The ceiling issued and the planner afterwards, case by case: nothing for a denied
   request; else what the planner comes to for the chain, or at most a dollar and what
   is left when it overran; never above the organisation's cap; and, if the arbiter saw
   it and it is positive, never above what is left.
   */
  ghost predicate IssuedByCases(os: Os, r: Request, issued: real, after: PlannerState) {
    if r.denied then issued == 0.0 && after == os.planner
    else
      var spent := if r.chain in os.chainSpent then os.chainSpent[r.chain] else 0.0;
      var call := PlanCall(r.analysis, r.estimate, os.budget - spent);
      var left := os.budget - os.totalSpent;
      && (os.planner.Simple? ==>
            after == Simple(os.planner.limits,
                            SimpleNext(os.planner.limits, os.planner.ceiling, r.analysis, os.budget - spent)))
      && (os.planner.Cooling? ==>
            after == Cooling(os.planner.limits, AdaptiveNext(os.planner.limits, os.planner.state, call)))
      && var planned := if after.Simple? then after.ceiling else after.state.ceiling;
         var asked := if !r.plannerTimeout then planned else if left < 1.0 then left else 1.0;
         var allowed := if os.orgCeiling.Some? && os.orgCeiling.value < asked then os.orgCeiling.value else asked;
         issued == if !r.arbiterTimeout && allowed > 0.0 && left < allowed then left else allowed
  }

  lemma IssuedIsByCases(os: Os, r: Request)
    ensures IssuedByCases(os, r, IssuedCeiling(os, r), Planned(os, r))
  {
  }

  /** No request that was not denied is issued more than the organisation allows, whatever overran. */
  lemma IssuedWithinOrgCeiling(os: Os, r: Request)
    requires os.orgCeiling.Some? && !r.denied
    ensures IssuedCeiling(os, r) <= os.orgCeiling.value
  {
  }

  class VeronicaOS {
    const budget: real
    const orgCeiling: Option<real>
    var totalSpent: real
    var chainSpent: map<string, real>
    var planner: PlannerState

    ghost function State(): Os
      reads this
    {
      Os(budget, orgCeiling, totalSpent, chainSpent, planner)
    }

    constructor (budget: real, orgCeiling: Option<real>, planner: PlannerState)
      ensures State() == Os(budget, orgCeiling, 0.0, map[], planner)
    {
      this.budget, this.orgCeiling, this.planner := budget, orgCeiling, planner;
      totalSpent, chainSpent := 0.0, map[];
    }

    method BeforeStep(r: Request) returns (handle: Handle)
      modifies this`planner
      ensures planner == Planned(old(State()), r)
      ensures handle == Handle(r.chain, IssuedCeiling(old(State()), r))
      ensures IssuedByCases(old(State()), r, handle.ceiling, planner)
    {
      IssuedIsByCases(State(), r);
      if r.denied {
        return Handle(r.chain, 0.0);
      }
      var spent := if r.chain in chainSpent then chainSpent[r.chain] else 0.0;
      var remaining, chainRemaining := budget - totalSpent, budget - spent;
      planner := planner.Next(PlanCall(r.analysis, r.estimate, chainRemaining));
      var desired := planner.Ceiling();
      if r.plannerTimeout {
        desired := MinR(1.0, remaining);
      }
      if orgCeiling.Some? && desired > orgCeiling.value {
        desired := orgCeiling.value;
      }
      if r.arbiterTimeout {
        return Handle(r.chain, desired);
      }
      var ceiling := ArbitrateOne(r.chain, desired, remaining);
      return Handle(r.chain, ceiling);
    }

    /** The default arbiter on the single desire of a step. */
    method ArbitrateOne(chain: string, desired: real, remaining: real) returns (ceiling: real)
      ensures ceiling == PassOne(desired, remaining)
    {
      var terms := Arbiter.Terms(chain, desired, 100, 50000, "halt", None, 30000, 50);
      var configs := Arbiter.Passthrough([terms], remaining);
      assert Arbiter.Final([terms], 0, 1) && Arbiter.Listed([terms], [terms][0].chainId);
      PassThroughOne(terms, remaining);
      return configs[chain].ceiling;
    }

    method AfterStep(chain: string, cost: real, collectorTimeout: bool)
      modifies this`totalSpent, this`chainSpent
      ensures State() == if collectorTimeout then old(State()) else Booked(old(State()), chain, cost)
      ensures !collectorTimeout ==>
                && totalSpent == old(totalSpent) + cost && chainSpent.Keys == old(chainSpent).Keys + {chain}
                && chainSpent[chain] == (if chain in old(chainSpent) then old(chainSpent)[chain] + cost else cost)
                && forall c :: c in old(chainSpent) && c != chain ==> chainSpent[c] == old(chainSpent)[c]
    {
      if collectorTimeout {
        return;
      }
      totalSpent := totalSpent + cost;
      chainSpent := chainSpent[chain := (if chain in chainSpent then chainSpent[chain] else 0.0) + cost];
    }
  }

  // ---------------------------------------------------------------- concurrent runs

  /** The books and the handles of the steps in flight. */
  datatype System = System(os: Os, flight: map<nat, Handle>)

  /**
   How the cost of a finished step reaches the books: reported, replaced by the zero
   of a fallback when the snapshot cannot be read, or not at all when the collector
   overruns.
   */
  datatype Delivery = Reported | SnapshotFailed | CollectorTimeout

  datatype Event =
    | Begin(id: nat, request: Request)
    | Finish(id: nat, cost: real, delivery: Delivery)

  /** A negative ceiling fails the conversion to an execution config, so the step never starts. */
  function Step(s: System, e: Event): System {
    match e
    case Begin(id, r) =>
      if id in s.flight then s
      else
        var ceiling := IssuedCeiling(s.os, r);
        System(s.os.(planner := Planned(s.os, r)),
               if ceiling < 0.0 then s.flight else s.flight[id := Handle(r.chain, ceiling)])
    case Finish(id, cost, delivery) =>
      if id !in s.flight then s
      else
        System(if delivery.CollectorTimeout? then s.os else Booked(s.os, s.flight[id].chain, Delivered(cost, delivery)),
               s.flight - {id})
  }

  /** The cost the books see. */
  function Delivered(cost: real, delivery: Delivery): real {
    if delivery.Reported? then cost else 0.0
  }

  /** A begin moves nothing in the books and takes its step up exactly when the ceiling is not negative. */
  lemma BeginTakesUp(s: System, id: nat, r: Request)
    requires id !in s.flight
    ensures var after := Step(s, Begin(id, r));
            && after.os.totalSpent == s.os.totalSpent && after.os.chainSpent == s.os.chainSpent
            && after.os.planner == Planned(s.os, r)
            && after.flight == if IssuedCeiling(s.os, r) >= 0.0
                               then s.flight[id := Handle(r.chain, IssuedCeiling(s.os, r))] else s.flight
  {
  }

  /** A finish takes its step out of flight; only a reported cost changes what is booked, on its chain and in total. */
  lemma FinishStep(s: System, id: nat, cost: real, delivery: Delivery)
    requires id in s.flight
    ensures var after, chain := Step(s, Finish(id, cost, delivery)), s.flight[id].chain;
            && after.flight == s.flight - {id} && after.os.planner == s.os.planner
            && after.os.totalSpent == (if delivery.Reported? then s.os.totalSpent + cost else s.os.totalSpent)
            && SpentOn(after.os, chain) == SpentOn(s.os, chain) + (if delivery.Reported? then cost else 0.0)
            && forall c :: c != chain ==> SpentOn(after.os, c) == SpentOn(s.os, c)
  {
  }

  function Run(os: Os, events: seq<Event>): System {
    if events == [] then System(os, map[])
    else Step(Run(os, events[..|events| - 1]), events[|events| - 1])
  }

  function CeilingOf(h: Handle): real {
    h.ceiling
  }

  function Amount(x: real): real {
    x
  }

  /** The steps of one chain that are in flight. */
  function On(flight: map<nat, Handle>, chain: string): map<nat, Handle> {
    map id | id in flight && flight[id].chain == chain :: flight[id]
  }

  ghost predicate Fresh(os: Os) {
    os.budget >= 0.0 && os.totalSpent == 0.0 && os.chainSpent == map[]
  }

  /** Never more than `k` steps in flight at once. */
  ghost predicate AtMost(os: Os, events: seq<Event>, k: nat) {
    |Run(os, events).flight| <= k && (events != [] ==> AtMost(os, events[..|events| - 1], k))
  }

  ghost predicate AtMostOn(os: Os, events: seq<Event>, chain: string, k: nat) {
    |On(Run(os, events).flight, chain)| <= k && (events != [] ==> AtMostOn(os, events[..|events| - 1], chain, k))
  }

  /** Every step that finishes cost at most the ceiling it was issued. */
  ghost predicate CostsWithinCeilings(os: Os, events: seq<Event>) {
    events == [] ||
    (var s, e := Run(os, events[..|events| - 1]), events[|events| - 1];
     && CostsWithinCeilings(os, events[..|events| - 1])
     && (e.Finish? && e.id in s.flight ==> e.cost <= s.flight[e.id].ceiling))
  }

  ghost predicate CostsNonNegative(events: seq<Event>) {
    forall i :: 0 <= i < |events| && events[i].Finish? ==> events[i].cost >= 0.0
  }

  /** An arbiter timeout skips the comparison with what is left; the request fits when it would not have mattered. */
  predicate Fits(os: Os, r: Request) {
    r.arbiterTimeout && !r.denied ==> DesiredCeiling(os, r) <= MaxR(Remaining(os), 0.0)
  }

  /** Every request that was taken up fitted at that moment. */
  ghost predicate AllFit(os: Os, events: seq<Event>) {
    events == [] ||
    (var s, e := Run(os, events[..|events| - 1]), events[|events| - 1];
     && AllFit(os, events[..|events| - 1])
     && (e.Begin? && e.id !in s.flight ==> Fits(s.os, e.request)))
  }

  /** The most any one step can be issued. */
  function Cap(os: Os): real {
    MaxR(MaxR(os.planner.limits.min, os.planner.limits.max), 1.0)
  }

  /** What every ceiling is bounded by at the moment it is issued. */
  lemma IssueBounds(os: Os, r: Request)
    ensures IssuedCeiling(os, r) <= Cap(os)
    ensures IssuedCeiling(os, r) <= MaxR(Remaining(os), 0.0) <==> Fits(os, r)
    ensures IssuedCeiling(os, r) > 0.0 ==>
              IssuedCeiling(os, r) <= MaxR(Remaining(os), os.budget - SpentOn(os, r.chain))
    ensures Planned(os, r).limits == os.planner.limits
  {
  }

  lemma {:induction false} RunFacts(os: Os, events: seq<Event>)
    ensures var s := Run(os, events);
            && s.os.budget == os.budget && s.os.orgCeiling == os.orgCeiling
            && s.os.planner.limits == os.planner.limits
            && forall id :: id in s.flight ==> 0.0 <= s.flight[id].ceiling <= Cap(os)
  {
    if events != [] {
      var earlier, e := events[..|events| - 1], events[|events| - 1];
      RunFacts(os, earlier);
      if e.Begin? {
        IssueBounds(Run(os, earlier).os, e.request);
      }
    }
  }

  /** A step issued at most what is left, next to fewer than `k` others of at most `cap` each, keeps the bound. */
  lemma BeginKeepsBound(flight: map<nat, Handle>, id: nat, h: Handle, k: nat, cap: real, left: real)
    requires id !in flight && k >= 1 && |flight[id := h]| <= k
    requires forall i :: i in flight ==> flight[i].ceiling <= cap
    requires cap >= 0.0 && (h.ceiling == 0.0 || h.ceiling <= left)
    requires SumBy(flight, CeilingOf) <= left + Multiple(k - 1, cap)
    ensures SumBy(flight[id := h], CeilingOf) <= left + Multiple(k - 1, cap)
  {
    SumByInsert(flight, CeilingOf, id, h);
    SumByAtMost(flight, CeilingOf, cap);
    MapGrows(flight, id, h);
    MultipleMonotone(|flight|, k - 1, cap);
  }

  /** What is booked and what the steps in flight may still cost. */
  ghost function Exposure(s: System): real {
    s.os.totalSpent + SumBy(s.flight, CeilingOf)
  }

  ghost predicate CeilingsNonNegative(s: System) {
    forall id :: id in s.flight ==> s.flight[id].ceiling >= 0.0
  }

  lemma FinishNeverRaises(s: System, id: nat, cost: real, delivery: Delivery)
    requires CeilingsNonNegative(s) && id in s.flight && cost <= s.flight[id].ceiling
    ensures var after := Step(s, Finish(id, cost, delivery));
            && CeilingsNonNegative(after) && Exposure(after) <= Exposure(s)
            && (delivery.Reported? && cost == s.flight[id].ceiling ==> Exposure(after) == Exposure(s))
  {
    SumBySplit(s.flight, CeilingOf, id);
  }

  lemma BeginKeepsExposure(s: System, id: nat, r: Request, k: nat, cap: real)
    requires k >= 1 && cap >= 0.0 && id !in s.flight && Fits(s.os, r)
    requires forall i :: i in s.flight ==> s.flight[i].ceiling <= cap
    requires |Step(s, Begin(id, r)).flight| <= k
    requires Exposure(s) <= s.os.budget + Multiple(k - 1, cap)
    ensures Exposure(Step(s, Begin(id, r))) <= s.os.budget + Multiple(k - 1, cap)
  {
    IssueBounds(s.os, r);
    var h := Handle(r.chain, IssuedCeiling(s.os, r));
    if h.ceiling >= 0.0 {
      BeginKeepsBound(s.flight, id, h, k, cap, Remaining(s.os));
    }
  }

  /** No step can be issued more than `cap`: it is at least the planner's bounds or the organisation's cap. */
  ghost predicate Caps(os: Os, cap: real) {
    cap >= 0.0 && (cap >= Cap(os) || (os.orgCeiling.Some? && cap >= os.orgCeiling.value))
  }

  lemma IssuedWithinCaps(os: Os, r: Request, cap: real)
    requires Caps(os, cap)
    ensures IssuedCeiling(os, r) <= cap
  {
    IssueBounds(os, r);
    if os.orgCeiling.Some? && !r.denied {
      IssuedWithinOrgCeiling(os, r);
    }
  }

  lemma {:induction false} FlightWithinCaps(os: Os, events: seq<Event>, cap: real)
    requires Caps(os, cap)
    ensures Caps(Run(os, events).os, cap)
    ensures forall id :: id in Run(os, events).flight ==> Run(os, events).flight[id].ceiling <= cap
  {
    RunFacts(os, events);
    if events != [] {
      var earlier, e := events[..|events| - 1], events[|events| - 1];
      FlightWithinCaps(os, earlier, cap);
      if e.Begin? {
        IssuedWithinCaps(Run(os, earlier).os, e.request, cap);
      }
    }
  }

  /** In every run a step begun by a request that was not denied holds at most the organisation's cap. */
  lemma OrgCeilingHolds(os: Os, events: seq<Event>, id: nat, r: Request)
    requires os.orgCeiling.Some? && !r.denied && id !in Run(os, events).flight
    ensures var flight := Run(os, events + [Begin(id, r)]).flight;
            id in flight ==> flight[id].ceiling <= os.orgCeiling.value
  {
    RunFacts(os, events);
    IssuedWithinOrgCeiling(Run(os, events).os, r);
    assert (events + [Begin(id, r)])[..|events|] == events;
  }

  lemma {:induction false} OverspendBoundBy(os: Os, events: seq<Event>, k: nat, cap: real)
    requires Fresh(os) && k >= 1 && AtMost(os, events, k) && Caps(os, cap)
    requires CostsWithinCeilings(os, events) && AllFit(os, events)
    ensures Exposure(Run(os, events)) <= os.budget + Multiple(k - 1, cap)
  {
    if events == [] {
      MultipleMonotone(0, k - 1, cap);
    } else {
      var earlier, e := events[..|events| - 1], events[|events| - 1];
      var s := Run(os, earlier);
      OverspendBoundBy(os, earlier, k, cap);
      RunFacts(os, earlier);
      FlightWithinCaps(os, earlier, cap);
      match e
      case Begin(id, r) =>
        if id !in s.flight {
          BeginKeepsExposure(s, id, r, k, cap);
        }
      case Finish(id, cost, delivery) =>
        if id in s.flight {
          FinishNeverRaises(s, id, cost, delivery);
        }
    }
  }

  /**
   The true concurrent guarantee. `before_step` deducts nothing, so k steps in
   flight can overshoot, but never by more than k - 1 of the largest ceilings: what
   is booked plus what is in flight stays within budget + (k - 1) * cap. An arbiter
   timeout does no harm as long as the desire it lets through fits what is left.
   */
  lemma OverspendBound(os: Os, events: seq<Event>, k: nat)
    requires Fresh(os) && k >= 1 && AtMost(os, events, k)
    requires CostsWithinCeilings(os, events) && AllFit(os, events)
    ensures var s := Run(os, events);
            s.os.totalSpent + SumBy(s.flight, CeilingOf) <= os.budget + Multiple(k - 1, Cap(os))
  {
    OverspendBoundBy(os, events, k, Cap(os));
  }

  /** With an organisation's cap that is not negative, the smaller of the two caps counts. */
  lemma CappedOverspendBound(os: Os, events: seq<Event>, k: nat)
    requires Fresh(os) && k >= 1 && AtMost(os, events, k) && os.orgCeiling.Some? && os.orgCeiling.value >= 0.0
    requires CostsWithinCeilings(os, events) && AllFit(os, events)
    ensures var s := Run(os, events);
            s.os.totalSpent + SumBy(s.flight, CeilingOf)
            <= os.budget + Multiple(k - 1, MinR(Cap(os), os.orgCeiling.value))
  {
    OverspendBoundBy(os, events, k, MinR(Cap(os), os.orgCeiling.value));
  }

  /** One step at a time never overspends: the books never pass the budget. */
  lemma SequentialNeverOverspends(os: Os, events: seq<Event>)
    requires Fresh(os) && AtMost(os, events, 1)
    requires CostsWithinCeilings(os, events) && AllFit(os, events)
    ensures Run(os, events).os.totalSpent <= os.budget
  {
    OverspendBound(os, events, 1);
    RunFacts(os, events);
    SumByNonNegative(Run(os, events).flight, CeilingOf);
  }

  /** `k` begins that all ask for everything. */
  function Burst(k: nat, request: Request): seq<Event> {
    if k == 0 then [] else Burst(k - 1, request) + [Begin(k, request)]
  }

  /** The handles those begins put in flight. */
  function BurstFlight(k: nat, cap: real): map<nat, Handle> {
    if k == 0 then map[] else BurstFlight(k - 1, cap)[k := Handle("chain", cap)]
  }

  lemma {:induction false} BurstIds(k: nat, cap: real)
    ensures forall id :: id in BurstFlight(k, cap) ==> id <= k
    ensures SumBy(BurstFlight(k, cap), CeilingOf) == Multiple(k, cap)
  {
    if k > 0 {
      BurstIds(k - 1, cap);
      SumByInsert(BurstFlight(k - 1, cap), CeilingOf, k, Handle("chain", cap));
    }
  }

  lemma {:induction false} BurstSize(k: nat, cap: real)
    ensures |BurstFlight(k, cap)| == k
  {
    if k > 0 {
      var earlier := BurstFlight(k - 1, cap);
      BurstSize(k - 1, cap);
      BurstIds(k - 1, cap);
      assert k !in earlier;
      MapGrows(earlier, k, Handle("chain", cap));
      assert BurstFlight(k, cap) == earlier[k := Handle("chain", cap)];
    }
  }

  function TightOs(cap: real): Os {
    Os(cap, None, 0.0, map[], Simple(Limits(0.0, cap, "halt", None, 30000), cap))
  }

  lemma BurstBegins(cap: real, flight: map<nat, Handle>, id: nat, request: Request)
    requires cap >= 1.0 && id !in flight
    requires request == Request("chain", false, None, 0.0, false, false)
    ensures Step(System(TightOs(cap), flight), Begin(id, request))
            == System(TightOs(cap), flight[id := Handle("chain", cap)])
  {
  }

  lemma {:induction false} BurstRun(k: nat, cap: real, request: Request)
    requires cap >= 1.0
    requires request == Request("chain", false, None, 0.0, false, false)
    ensures Run(TightOs(cap), Burst(k, request)) == System(TightOs(cap), BurstFlight(k, cap))
  {
    if k > 0 {
      BurstRun(k - 1, cap, request);
      BurstIds(k - 1, cap);
      BurstBegins(cap, BurstFlight(k - 1, cap), k, request);
      assert Burst(k, request)[..|Burst(k, request)| - 1] == Burst(k - 1, request);
    }
  }

  /** The bound is attained for every k, so no smaller one is right. */
  lemma OverspendBoundIsTight(k: nat, cap: real, request: Request)
    requires cap >= 1.0
    requires request == Request("chain", false, None, 0.0, false, false)
    ensures var os := TightOs(cap);
            var s := Run(os, Burst(k, request));
            && Fresh(os) && Cap(os) == cap
            && s.os == os && (forall id :: id in s.flight ==> id <= k) && |s.flight| == k
            && SumBy(s.flight, CeilingOf) == Multiple(k, cap)
            && (k >= 1 ==> s.os.totalSpent + SumBy(s.flight, CeilingOf) == os.budget + Multiple(k - 1, Cap(os)))
  {
    BurstRun(k, cap, request);
    BurstIds(k, cap);
    BurstSize(k, cap);
  }

  // ---------------------------------------------------------------- per chain, with timeouts

  /** The total is the sum of the chains' books, in every run. */
  lemma {:induction false} TotalIsSumOfChains(os: Os, events: seq<Event>)
    requires Fresh(os)
    ensures SumBy(Run(os, events).os.chainSpent, Amount) == Run(os, events).os.totalSpent
  {
    if events != [] {
      var earlier, e := events[..|events| - 1], events[|events| - 1];
      var s := Run(os, earlier);
      TotalIsSumOfChains(os, earlier);
      if e.Finish? && e.id in s.flight && !e.delivery.CollectorTimeout? {
        var chain, cost := s.flight[e.id].chain, Delivered(e.cost, e.delivery);
        if chain in s.os.chainSpent {
          SumByReplace(s.os.chainSpent, Amount, chain, s.os.chainSpent[chain] + cost);
        } else {
          SumByInsert(s.os.chainSpent, Amount, chain, cost);
        }
      }
    }
  }

  lemma {:induction false} ChainsNonNegative(os: Os, events: seq<Event>)
    requires Fresh(os) && CostsNonNegative(events)
    ensures forall c :: c in Run(os, events).os.chainSpent ==> Run(os, events).os.chainSpent[c] >= 0.0
  {
    if events != [] {
      ChainsNonNegative(os, events[..|events| - 1]);
    }
  }

  lemma ChainWithinTotal(os: Os, events: seq<Event>, chain: string)
    requires Fresh(os) && CostsNonNegative(events)
    ensures SpentOn(Run(os, events).os, chain) <= Run(os, events).os.totalSpent
  {
    var books := Run(os, events).os.chainSpent;
    TotalIsSumOfChains(os, events);
    ChainsNonNegative(os, events);
    if chain in books {
      SumBySplit(books, Amount, chain);
      SumByNonNegative(books - {chain}, Amount);
    } else {
      SumByNonNegative(books, Amount);
    }
  }

  lemma OnInsert(flight: map<nat, Handle>, id: nat, h: Handle, chain: string)
    requires id !in flight
    ensures On(flight[id := h], chain) == if h.chain == chain then On(flight, chain)[id := h] else On(flight, chain)
  {
  }

  lemma OnRemove(flight: map<nat, Handle>, id: nat, chain: string)
    ensures On(flight - {id}, chain) == On(flight, chain) - {id}
    ensures id !in On(flight, chain) ==> On(flight - {id}, chain) == On(flight, chain)
  {
  }

  ghost predicate ChainBound(s: System, chain: string, k: nat, cap: real)
    requires k >= 1
  {
    SpentOn(s.os, chain) + SumBy(On(s.flight, chain), CeilingOf) <= s.os.budget + Multiple(k - 1, cap)
  }

  lemma ChainBegin(s: System, id: nat, r: Request, chain: string, k: nat, cap: real)
    requires k >= 1 && ChainBound(s, chain, k, cap) && cap >= 0.0
    requires forall i :: i in s.flight ==> s.flight[i].ceiling <= cap
    requires SpentOn(s.os, chain) <= s.os.totalSpent
    requires |On(Step(s, Begin(id, r)).flight, chain)| <= k
    ensures ChainBound(Step(s, Begin(id, r)), chain, k, cap)
  {
    IssueBounds(s.os, r);
    var h := Handle(r.chain, IssuedCeiling(s.os, r));
    if id !in s.flight && h.ceiling >= 0.0 {
      OnInsert(s.flight, id, h, chain);
      if r.chain == chain {
        BeginKeepsBound(On(s.flight, chain), id, h, k, cap, s.os.budget - SpentOn(s.os, chain));
      }
    }
  }

  lemma ChainFinish(s: System, id: nat, cost: real, delivery: Delivery, chain: string, k: nat, cap: real)
    requires k >= 1 && ChainBound(s, chain, k, cap)
    requires id in s.flight ==> cost <= s.flight[id].ceiling && 0.0 <= s.flight[id].ceiling
    ensures ChainBound(Step(s, Finish(id, cost, delivery)), chain, k, cap)
  {
    OnRemove(s.flight, id, chain);
    if id in s.flight && s.flight[id].chain == chain {
      SumBySplit(On(s.flight, chain), CeilingOf, id);
    }
  }

  /**
   Per chain the same bound survives every timeout, the arbiter's included: a chain
   with at most k of its own steps in flight stays within budget + (k - 1) * cap.
   */
  lemma {:induction false} ChainOverspendBound(os: Os, events: seq<Event>, chain: string, k: nat)
    requires Fresh(os) && k >= 1 && AtMostOn(os, events, chain, k)
    requires CostsWithinCeilings(os, events) && CostsNonNegative(events)
    ensures var s := Run(os, events);
            SpentOn(s.os, chain) + SumBy(On(s.flight, chain), CeilingOf) <= os.budget + Multiple(k - 1, Cap(os))
  {
    RunFacts(os, events);
    if events == [] {
      MultipleMonotone(0, k - 1, Cap(os));
    } else {
      var earlier, e := events[..|events| - 1], events[|events| - 1];
      ChainOverspendBound(os, earlier, chain, k);
      RunFacts(os, earlier);
      ChainWithinTotal(os, earlier, chain);
      match e
      case Begin(id, r) => ChainBegin(Run(os, earlier), id, r, chain, k, Cap(os));
      case Finish(id, cost, late) => ChainFinish(Run(os, earlier), id, cost, late, chain, k, Cap(os));
    }
  }

  // ---------------------------------------------------------------- the two escapes

  /** What the finished steps really cost, booked or not. */
  function TrueCost(os: Os, events: seq<Event>): real {
    if events == [] then 0.0
    else
      var s, e := Run(os, events[..|events| - 1]), events[|events| - 1];
      TrueCost(os, events[..|events| - 1]) + if e.Finish? && e.id in s.flight then e.cost else 0.0
  }

  /** The part of it that failed snapshots and collector timeouts kept off the books. */
  function Lost(os: Os, events: seq<Event>): real {
    if events == [] then 0.0
    else
      var s, e := Run(os, events[..|events| - 1]), events[|events| - 1];
      Lost(os, events[..|events| - 1]) +
      if e.Finish? && e.id in s.flight then e.cost - Delivered(e.cost, e.delivery) else 0.0
  }

  /** The books differ from the truth by exactly what failed snapshots and collector timeouts lost. */
  lemma {:induction false} BooksMissExactlyTheLost(os: Os, events: seq<Event>)
    requires Fresh(os)
    ensures Run(os, events).os.totalSpent + Lost(os, events) == TrueCost(os, events)
  {
    if events != [] {
      BooksMissExactlyTheLost(os, events[..|events| - 1]);
    }
  }

  /** So real spending obeys the bound up to the lost costs. */
  lemma TrueCostBound(os: Os, events: seq<Event>, k: nat)
    requires Fresh(os) && k >= 1 && AtMost(os, events, k)
    requires CostsWithinCeilings(os, events) && AllFit(os, events)
    ensures TrueCost(os, events) + SumBy(Run(os, events).flight, CeilingOf)
            <= os.budget + Multiple(k - 1, Cap(os)) + Lost(os, events)
  {
    OverspendBound(os, events, k);
    BooksMissExactlyTheLost(os, events);
  }

  /** A system with nothing but finishes still to come. */
  function Drained(s: System, more: seq<Event>): System {
    if more == [] then s else Step(Drained(s, more[..|more| - 1]), more[|more| - 1])
  }

  /** Steps in flight finish one by one, each within its ceiling. */
  ghost predicate FinishesWithin(s: System, more: seq<Event>) {
    more == [] ||
    (var earlier, e := Drained(s, more[..|more| - 1]), more[|more| - 1];
     && FinishesWithin(s, more[..|more| - 1])
     && e.Finish? && e.id in earlier.flight && e.cost <= earlier.flight[e.id].ceiling)
  }

  /** Some costs within the ceilings in flight take the books past the budget. */
  ghost predicate CanOverspend(s: System) {
    exists more :: OverspendsBy(s, more)
  }

  ghost predicate OverspendsBy(s: System, more: seq<Event>) {
    FinishesWithin(s, more) && Drained(s, more).os.totalSpent > s.os.budget
  }

  lemma {:induction false} DrainNeverRaises(s: System, more: seq<Event>)
    requires CeilingsNonNegative(s) && FinishesWithin(s, more)
    ensures CeilingsNonNegative(Drained(s, more)) && Exposure(Drained(s, more)) <= Exposure(s)
  {
    if more != [] {
      var earlier, e := more[..|more| - 1], more[|more| - 1];
      DrainNeverRaises(s, earlier);
      FinishNeverRaises(Drained(s, earlier), e.id, e.cost, e.delivery);
    }
  }

  /** Finishing every step at its ceiling, after some that were finished already, books the whole exposure. */
  lemma {:induction false} FinishAll(s: System, done: seq<Event>) returns (more: seq<Event>)
    requires CeilingsNonNegative(s) && FinishesWithin(s, done)
    ensures FinishesWithin(s, more) && Drained(s, more).os.totalSpent == Exposure(Drained(s, done))
    decreases Drained(s, done).flight.Keys
  {
    var now := Drained(s, done);
    if now.flight == map[] {
      more := done;
    } else {
      var id :| id in now.flight;
      var e := Finish(id, now.flight[id].ceiling, Reported);
      var longer := done + [e];
      assert longer[..|longer| - 1] == done;
      DrainNeverRaises(s, done);
      FinishNeverRaises(now, id, e.cost, Reported);
      more := FinishAll(s, longer);
    }
  }

  /** Any number of steps in flight can overspend between them exactly when the exposure exceeds the budget. */
  lemma FlightOverspendsExactlyWhen(s: System)
    requires CeilingsNonNegative(s)
    ensures CanOverspend(s) <==> Exposure(s) > s.os.budget
  {
    if Exposure(s) > s.os.budget {
      var more := FinishAll(s, []);
      assert OverspendsBy(s, more);
    }
    forall more | OverspendsBy(s, more) ensures Exposure(s) > s.os.budget {
      DrainNeverRaises(s, more);
      SumByNonNegative(Drained(s, more).flight, CeilingOf);
    }
  }

  /**
   So taking up a request makes overspending possible exactly when booked, in flight
   and issued together exceed the budget.
   */
  lemma OverspendsExactlyWhen(s: System, id: nat, r: Request)
    requires CeilingsNonNegative(s) && id !in s.flight
    ensures CanOverspend(Step(s, Begin(id, r))) <==>
            s.os.totalSpent + SumBy(s.flight, CeilingOf) + MaxR(IssuedCeiling(s.os, r), 0.0) > s.os.budget
  {
    FlightOverspendsExactlyWhen(Step(s, Begin(id, r)));
    if IssuedCeiling(s.os, r) >= 0.0 {
      SumByInsert(s.flight, CeilingOf, id, Handle(r.chain, IssuedCeiling(s.os, r)));
    }
  }

  /** A step on its own can overspend exactly when its request does not fit; anything the arbiter saw always does. */
  lemma AloneOverspendsExactlyWhen(s: System, id: nat, r: Request)
    requires s.flight == map[] && s.os.totalSpent <= s.os.budget
    ensures CanOverspend(Step(s, Begin(id, r))) <==> !Fits(s.os, r)
  {
    OverspendsExactlyWhen(s, id, r);
    IssueBounds(s.os, r);
  }

  /** Overspending was not possible after any request of the run was taken up. */
  ghost predicate NeverCouldOverspend(os: Os, events: seq<Event>) {
    events == [] ||
    (var s, e := Run(os, events[..|events| - 1]), events[|events| - 1];
     && NeverCouldOverspend(os, events[..|events| - 1])
     && (e.Begin? && e.id !in s.flight ==> !CanOverspend(Step(s, e))))
  }

  /**
   The exact condition over whole sequential runs: overspending is never possible if
   and only if every request fits.
   */
  lemma {:induction false} SequentialSafeExactlyWhen(os: Os, events: seq<Event>)
    requires Fresh(os) && AtMost(os, events, 1) && CostsWithinCeilings(os, events)
    ensures NeverCouldOverspend(os, events) <==> AllFit(os, events)
  {
    if events != [] {
      var earlier, e := events[..|events| - 1], events[|events| - 1];
      var s := Run(os, earlier);
      SequentialSafeExactlyWhen(os, earlier);
      if AllFit(os, earlier) && e.Begin? && e.id !in s.flight {
        RunFacts(os, earlier);
        OverspendBound(os, earlier, 1);
        SumByNonNegative(s.flight, CeilingOf);
        SequentialBegin(s, e.id, e.request);
      }
    }
  }

  /** Where one step at a time is in flight, a begin makes overspending possible exactly when it does not fit. */
  lemma SequentialBegin(s: System, id: nat, r: Request)
    requires CeilingsNonNegative(s) && id !in s.flight && Exposure(s) <= s.os.budget && s.os.totalSpent <= s.os.budget
    requires |Step(s, Begin(id, r)).flight| <= 1
    ensures CanOverspend(Step(s, Begin(id, r))) <==> !Fits(s.os, r)
  {
    var ceiling := IssuedCeiling(s.os, r);
    IssueBounds(s.os, r);
    if ceiling < 0.0 {
      OverspendsExactlyWhen(s, id, r);
    } else {
      MapGrows(s.flight, id, Handle(r.chain, ceiling));
      AloneOverspendsExactlyWhen(s, id, r);
    }
  }

  /**
   A chain that did all the spending so far is held to its own share, which is all
   there is: it fits under any timeout.
   */
  lemma OwnShareFits(os: Os, r: Request)
    requires SpentOn(os, r.chain) >= os.totalSpent
    ensures Fits(os, r)
  {
  }

  /** So runs on a single chain are safe whatever times out. */
  lemma {:induction false} OneChainFits(os: Os, events: seq<Event>, chain: string)
    requires Fresh(os)
    requires forall i :: 0 <= i < |events| && events[i].Begin? ==> events[i].request.chain == chain
    ensures AllFit(os, events)
    ensures SpentOn(Run(os, events).os, chain) == Run(os, events).os.totalSpent
    ensures forall id :: id in Run(os, events).flight ==> Run(os, events).flight[id].chain == chain
  {
    if events != [] {
      var earlier, e := events[..|events| - 1], events[|events| - 1];
      OneChainFits(os, earlier, chain);
      if e.Begin? {
        OwnShareFits(Run(os, earlier).os, e.request);
      }
    }
  }

  lemma {:induction false} WithoutTimeoutAllFit(os: Os, events: seq<Event>)
    requires forall i :: 0 <= i < |events| && events[i].Begin? ==> !events[i].request.arbiterTimeout
    ensures AllFit(os, events)
  {
    if events != [] {
      WithoutTimeoutAllFit(os, events[..|events| - 1]);
    }
  }

  /** Such a request after such a state: a sequential run over two chains that books twice the budget. */
  lemma ArbiterTimeoutEscapes()
    ensures var os := Os(1.0, None, 0.0, map[], Simple(Limits(0.1, 10.0, "halt", None, 30000), 1.0));
            var calm := Request("a", false, None, 0.0, false, false);
            var rushed := Request("b", false, None, 0.0, false, true);
            var events := [Begin(0, calm), Finish(0, 1.0, Reported), Begin(1, rushed), Finish(1, 1.0, Reported)];
            && Fresh(os) && AtMost(os, events, 1) && CostsWithinCeilings(os, events)
            && Run(os, events).os.totalSpent == 2.0
  {
    var os := Os(1.0, None, 0.0, map[], Simple(Limits(0.1, 10.0, "halt", None, 30000), 1.0));
    var calm := Request("a", false, None, 0.0, false, false);
    var rushed := Request("b", false, None, 0.0, false, true);
    var events := [Begin(0, calm), Finish(0, 1.0, Reported), Begin(1, rushed), Finish(1, 1.0, Reported)];
    assert events[..3] == [Begin(0, calm), Finish(0, 1.0, Reported), Begin(1, rushed)];
    assert events[..3][..2] == [Begin(0, calm), Finish(0, 1.0, Reported)];
    assert events[..3][..2][..1] == [Begin(0, calm)];
    assert Run(os, []) == System(os, map[]);
    assert Run(os, [Begin(0, calm)]) == System(os, map[0 := Handle("a", 1.0)]);
    var booked := os.(totalSpent := 1.0, chainSpent := map["a" := 1.0]);
    assert Run(os, events[..3][..2]) == System(booked, map[]);
    assert SpentOn(booked, "b") == 0.0 by { assert "a"[0] != "b"[0]; }
    assert Run(os, events[..3]) == System(booked, map[1 := Handle("b", 1.0)]);
    assert AtMost(os, [], 1);
    assert AtMost(os, events[..3][..2][..1], 1);
    assert AtMost(os, events[..3][..2], 1);
    assert AtMost(os, events[..3], 1);
    assert CostsWithinCeilings(os, events[..3][..2][..1]);
    assert CostsWithinCeilings(os, events[..3][..2]);
    assert CostsWithinCeilings(os, events[..3]);
  }
}
