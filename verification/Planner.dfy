/** The two planners: a ceiling that drifts with the analyzer's recommendations. */
module Planner {
  import opened Basics
  import opened Arbiter

  datatype Recommendation = Continue | Tighten | Loosen | Halt

  datatype Severity = Info | Warning | Critical

  datatype Signal = Signal(kind: string, severity: Severity)

  datatype Analysis = Analysis(signals: seq<Signal>, recommendation: Recommendation)

  /** The constructor arguments that bound and decorate every plan. */
  datatype Limits = Limits(min: real, max: real, onExceed: string, fallbackModel: Option<string>, timeoutMs: int)

  const DEFAULT_STEPS := 100
  const DEFAULT_TOKENS_OUT := 50000
  const DEFAULT_PRIORITY := 50

  /** A plan at a given ceiling. Its chain is filled in by the caller. */
  function PlanAt(limits: Limits, ceiling: real, analysis: Option<Analysis>, windowSteps: int): Terms {
    Terms("", ceiling, if DEFAULT_STEPS <= windowSteps then DEFAULT_STEPS else windowSteps, DEFAULT_TOKENS_OUT,
          OnExceed(limits, analysis), limits.fallbackModel, limits.timeoutMs, DEFAULT_PRIORITY)
  }

  function Clamp(limits: Limits, ceiling: real, chainRemaining: real): real {
    MinR(MaxR(limits.min, MinR(limits.max, ceiling)), chainRemaining)
  }

  /** No plan exceeds the larger configured bound, or what its chain has left. */
  lemma ClampBounds(limits: Limits, ceiling: real, chainRemaining: real)
    ensures Clamp(limits, ceiling, chainRemaining) <= MaxR(limits.min, limits.max)
    ensures Clamp(limits, ceiling, chainRemaining) <= chainRemaining
    ensures chainRemaining >= limits.min ==> Clamp(limits, ceiling, chainRemaining) >= limits.min
  {
  }

  /**
   A moved ceiling lands within the bounds, the lower one winning if they cross, and
   within what the chain has left.
   */
  ghost predicate Lands(limits: Limits, moved: real, left: real, after: real) {
    var within :=
      if moved <= limits.min || limits.max <= limits.min then limits.min
      else if moved >= limits.max then limits.max
      else moved;
    after == if left < within then left else within
  }

  /** A plan halts when the analysis says so; its other terms are the planner's own. */
  ghost predicate PlanFor(limits: Limits, analysis: Option<Analysis>, windowSteps: int, ceiling: real, plan: Terms) {
    && plan.chainId == "" && plan.ceiling == ceiling
    && plan.ceilingSteps == (if windowSteps < 100 then windowSteps else 100) && plan.ceilingTokensOut == 50000
    && plan.onExceed == (if analysis.Some? && analysis.value.recommendation.Halt? then "halt" else limits.onExceed)
    && plan.fallbackModel == limits.fallbackModel && plan.timeoutMs == limits.timeoutMs && plan.priority == 50
  }

  function OnExceed(limits: Limits, analysis: Option<Analysis>): string {
    if analysis.Some? && analysis.value.recommendation == Halt then "halt" else limits.onExceed
  }

  // ---------------------------------------------------------------- SimplePlanner

  const TIGHTEN := 0.90
  const LOOSEN := 1.05

  function SimpleNext(limits: Limits, ceiling: real, analysis: Option<Analysis>, chainRemaining: real): real {
    var moved :=
      if analysis.None? then ceiling
      else match analysis.value.recommendation
        case Tighten => ceiling * TIGHTEN
        case Loosen => ceiling * LOOSEN
        case _ => ceiling;
    Clamp(limits, moved, chainRemaining)
  }

  class SimplePlanner {
    const limits: Limits
    var effectiveCeiling: real

    constructor (limits: Limits, base: real)
      ensures this.limits == limits && effectiveCeiling == base
    {
      this.limits := limits;
      effectiveCeiling := base;
    }

    method Plan(analysis: Option<Analysis>, chainRemaining: real, windowSteps: int) returns (desired: Terms)
      modifies this`effectiveCeiling
      ensures effectiveCeiling == SimpleNext(limits, old(effectiveCeiling), analysis, chainRemaining)
      ensures desired == PlanAt(limits, effectiveCeiling, analysis, windowSteps)
      ensures PlanFor(limits, analysis, windowSteps, effectiveCeiling, desired)
      ensures analysis.Some? && analysis.value.recommendation.Tighten? ==>
                Lands(limits, old(effectiveCeiling) * 0.9, chainRemaining, effectiveCeiling)
      ensures analysis.Some? && analysis.value.recommendation.Loosen? ==>
                Lands(limits, old(effectiveCeiling) * 1.05, chainRemaining, effectiveCeiling)
      ensures analysis.None? || analysis.value.recommendation.Continue? || analysis.value.recommendation.Halt? ==>
                Lands(limits, old(effectiveCeiling), chainRemaining, effectiveCeiling)
    {
      var ceiling, onExceed := effectiveCeiling, limits.onExceed;
      if analysis.Some? {
        match analysis.value.recommendation
        case Tighten => ceiling := ceiling * TIGHTEN;
        case Loosen => ceiling := ceiling * LOOSEN;
        case Halt => onExceed := "halt";
        case Continue =>
      }
      ceiling := MaxR(limits.min, MinR(limits.max, ceiling));
      ceiling := MinR(ceiling, chainRemaining);
      effectiveCeiling := ceiling;
      var steps := if windowSteps < DEFAULT_STEPS then windowSteps else DEFAULT_STEPS;
      return Terms("", ceiling, steps, DEFAULT_TOKENS_OUT, onExceed, limits.fallbackModel, limits.timeoutMs,
          DEFAULT_PRIORITY);
    }
  }

  /** `x` cut by the tighten factor `n` times: 0.9^n * x. */
  function Cut(x: real, n: nat): real {
    if n == 0 then x else TIGHTEN * Cut(x, n - 1)
  }

  /** The ceiling after one tightening plan per entry of `left`, each entry what the chain had left at that call. */
  function AfterTightens(limits: Limits, ceiling: real, analysis: Analysis, left: seq<real>): real {
    if left == [] then ceiling
    else
      SimpleNext(limits, AfterTightens(limits, ceiling, analysis, left[..|left| - 1]), Some(analysis), left[|left| - 1])
  }

  lemma {:induction false} TightensDecay(limits: Limits, ceiling: real, analysis: Analysis, left: seq<real>)
    requires 0.0 < limits.min <= limits.max && ceiling <= limits.max
    requires analysis.recommendation == Tighten
    ensures AfterTightens(limits, ceiling, analysis, left) <= MaxR(limits.min, Cut(limits.max, |left|))
  {
    if left != [] {
      TightensDecay(limits, ceiling, analysis, left[..|left| - 1]);
    }
  }

  /**
   Enough consecutive tightens land exactly on the floor, or on what the chain has
   left when that is less, however the chain's remainder moved in between.
   */
  lemma TightensReachFloor(limits: Limits, ceiling: real, analysis: Analysis, left: seq<real>)
    requires 0.0 < limits.min <= limits.max && ceiling <= limits.max
    requires analysis.recommendation == Tighten
    requires left != [] && Cut(limits.max, |left|) <= limits.min
    ensures AfterTightens(limits, ceiling, analysis, left) == MinR(limits.min, left[|left| - 1])
  {
    var earlier := left[..|left| - 1];
    TightensDecay(limits, ceiling, analysis, earlier);
  }

  // ---------------------------------------------------------------- AdaptivePlanner

  const HALTED := 0.50
  const ERROR := 0.85
  const TIMEOUT := 0.90
  const ADAPTIVE_LOOSEN := 1.03
  const COOLDOWN := 3
  const HEADROOM := 1.5

  /** The drifting ceiling and the plans left to wait before the next adjustment. */
  datatype Adaptive = Adaptive(ceiling: real, cooldown: int)

  datatype PlanCall = PlanCall(analysis: Option<Analysis>, estimate: real, chainRemaining: real)

  predicate IsHaltTighten(signal: Signal) {
    signal.kind == "halt_tighten"
  }

  function SeverityFactor(critical: bool): real {
    if critical then HALTED else ERROR
  }

  /**
   The first halt_tighten signal decides; without one, the worst severity of any
   signal; without signals, the mildest cut.
   */
  function TightenFactor(signals: seq<Signal>): real {
    if i: nat :| i < |signals| && IsHaltTighten(signals[i])
                 && forall j :: 0 <= j < i ==> !IsHaltTighten(signals[j]) then
      SeverityFactor(signals[i].severity == Critical)
    else if signals != [] then SeverityFactor(exists s :: s in signals && s.severity == Critical)
    else TIMEOUT
  }

  ghost predicate FirstHaltTighten(signals: seq<Signal>, i: nat) {
    i < |signals| && signals[i].kind == "halt_tighten" && forall j :: 0 <= j < i ==> signals[j].kind != "halt_tighten"
  }

  /** The factor the signals call for. */
  ghost predicate CutTo(signals: seq<Signal>, factor: real) {
    && (forall i: nat :: FirstHaltTighten(signals, i) ==>
          factor == if signals[i].severity.Critical? then 0.5 else 0.85)
    && ((forall i :: 0 <= i < |signals| ==> signals[i].kind != "halt_tighten") && signals != [] ==>
          factor == if exists i :: 0 <= i < |signals| && signals[i].severity.Critical? then 0.5 else 0.85)
    && (signals == [] ==> factor == 0.9)
  }

  lemma TightenFactorIsCut(signals: seq<Signal>)
    ensures CutTo(signals, TightenFactor(signals))
  {
    if i: nat :| FirstHaltTighten(signals, i) {
      assert forall j: nat :: FirstHaltTighten(signals, j) ==> j == i;
      assert IsHaltTighten(signals[i]) && forall j :: 0 <= j < i ==> !IsHaltTighten(signals[j]);
    } else if signals != [] {
      assert (exists s :: s in signals && s.severity == Critical)
        <==> (exists i :: 0 <= i < |signals| && signals[i].severity.Critical?);
    }
  }

  method ComputeTightenFactor(signals: seq<Signal>) returns (factor: real)
    ensures factor == TightenFactor(signals)
  {
    var anyCritical := false;
    for i := 0 to |signals|
      invariant forall j :: 0 <= j < i ==> !IsHaltTighten(signals[j])
      invariant anyCritical == exists j :: 0 <= j < i && signals[j].severity == Critical
    {
      if IsHaltTighten(signals[i]) {
        return SeverityFactor(signals[i].severity == Critical);
      }
      anyCritical := anyCritical || signals[i].severity == Critical;
    }
    if signals != [] {
      return SeverityFactor(anyCritical);
    }
    return TIMEOUT;
  }

  /** The ceiling cut by a tighten factor, by cases on the three factors there are. */
  function Tightened(ceiling: real, factor: real): real {
    if factor == HALTED then ceiling * 0.50
    else if factor == ERROR then ceiling * 0.85
    else ceiling * 0.90
  }

  lemma TightenedIsProduct(ceiling: real, signals: seq<Signal>)
    ensures Tightened(ceiling, TightenFactor(signals)) == ceiling * TightenFactor(signals)
  {
  }

  predicate Adjusts(s: Adaptive, call: PlanCall) {
    s.cooldown <= 0 && call.analysis.Some? && call.analysis.value.recommendation in {Tighten, Loosen}
  }

  /** The ceiling after the factor, before any clamp. */
  function Moved(s: Adaptive, call: PlanCall): real {
    if !Adjusts(s, call) then s.ceiling
    else if call.analysis.value.recommendation == Tighten then
      Tightened(s.ceiling, TightenFactor(call.analysis.value.signals))
    else s.ceiling * ADAPTIVE_LOOSEN
  }

  function AdaptiveNext(limits: Limits, s: Adaptive, call: PlanCall): Adaptive {
    Adaptive(Clamp(limits, MaxR(Moved(s, call), call.estimate * HEADROOM), call.chainRemaining),
             if Adjusts(s, call) then COOLDOWN else if s.cooldown > 1 then s.cooldown - 1 else 0)
  }

  /** Some headroom over the estimated cost, whatever the drift. */
  function WithHeadroom(ceiling: real, estimate: real): real {
    if ceiling < estimate * 1.5 then estimate * 1.5 else ceiling
  }

  /**
   A plan of the adaptive planner, case by case: it adjusts only when the cooldown is
   over and the recommendation is to tighten or loosen, and then waits three plans.
   */
  ghost predicate AdaptsTo(limits: Limits, before: Adaptive, call: PlanCall, after: Adaptive) {
    var tightens := call.analysis.Some? && call.analysis.value.recommendation.Tighten? && before.cooldown <= 0;
    var loosens := call.analysis.Some? && call.analysis.value.recommendation.Loosen? && before.cooldown <= 0;
    && (tightens || loosens ==> after.cooldown == 3)
    && (!tightens && !loosens ==> after.cooldown == if before.cooldown <= 1 then 0 else before.cooldown - 1)
    && (loosens ==>
          Lands(limits, WithHeadroom(before.ceiling * 1.03, call.estimate), call.chainRemaining, after.ceiling))
    && (!tightens && !loosens ==>
          Lands(limits, WithHeadroom(before.ceiling, call.estimate), call.chainRemaining, after.ceiling))
    && (tightens && TightenFactor(call.analysis.value.signals) == 0.5 ==>
          Lands(limits, WithHeadroom(before.ceiling * 0.5, call.estimate), call.chainRemaining, after.ceiling))
    && (tightens && TightenFactor(call.analysis.value.signals) == 0.85 ==>
          Lands(limits, WithHeadroom(before.ceiling * 0.85, call.estimate), call.chainRemaining, after.ceiling))
    && (tightens && TightenFactor(call.analysis.value.signals) == 0.9 ==>
          Lands(limits, WithHeadroom(before.ceiling * 0.9, call.estimate), call.chainRemaining, after.ceiling))
  }

  lemma ClampLands(limits: Limits, ceiling: real, left: real)
    ensures Lands(limits, ceiling, left, Clamp(limits, ceiling, left))
  {
  }

  lemma HeadroomAdded(ceiling: real, estimate: real)
    ensures MaxR(ceiling, estimate * HEADROOM) == WithHeadroom(ceiling, estimate)
  {
  }

  lemma MovedLands(limits: Limits, before: Adaptive, call: PlanCall, moved: real)
    requires moved == Moved(before, call)
    ensures Lands(limits, WithHeadroom(moved, call.estimate), call.chainRemaining,
                  AdaptiveNext(limits, before, call).ceiling)
  {
    HeadroomAdded(moved, call.estimate);
    ClampLands(limits, WithHeadroom(moved, call.estimate), call.chainRemaining);
  }

  lemma AdaptiveByCases(limits: Limits, before: Adaptive, call: PlanCall)
    ensures AdaptsTo(limits, before, call, AdaptiveNext(limits, before, call))
  {
    MovedLands(limits, before, call, Moved(before, call));
  }

  class AdaptivePlanner {
    const limits: Limits
    var effectiveCeiling: real
    var cooldowns: map<string, int>

    ghost function State(): Adaptive
      reads this
    {
      Adaptive(effectiveCeiling, if "" in cooldowns then cooldowns[""] else 0)
    }

    constructor (limits: Limits, base: real)
      ensures this.limits == limits && State() == Adaptive(base, 0)
    {
      this.limits := limits;
      effectiveCeiling := base;
      cooldowns := map[];
    }

    method Adjust(call: PlanCall, wait: int) returns (ceiling: real, adjusted: bool)
      requires wait == State().cooldown
      ensures ceiling == Moved(State(), call) && adjusted == Adjusts(State(), call)
    {
      ceiling, adjusted := effectiveCeiling, false;
      if call.analysis.Some? && wait <= 0 {
        if call.analysis.value.recommendation == Tighten {
          var factor := ComputeTightenFactor(call.analysis.value.signals);
          TightenedIsProduct(ceiling, call.analysis.value.signals);
          ceiling, adjusted := ceiling * factor, true;
        } else if call.analysis.value.recommendation == Loosen {
          ceiling, adjusted := ceiling * ADAPTIVE_LOOSEN, true;
        }
      }
    }

    method Plan(call: PlanCall, windowSteps: int) returns (desired: Terms)
      modifies this
      ensures State() == AdaptiveNext(limits, old(State()), call)
      ensures desired == PlanAt(limits, effectiveCeiling, call.analysis, windowSteps)
      ensures PlanFor(limits, call.analysis, windowSteps, effectiveCeiling, desired)
      ensures AdaptsTo(limits, old(State()), call, State())
    {
      AdaptiveByCases(limits, State(), call);
      var onExceed := limits.onExceed;
      var wait := if "" in cooldowns then cooldowns[""] else 0;
      if call.analysis.Some? && call.analysis.value.recommendation == Halt {
        onExceed := "halt";
      }
      var ceiling, adjusted := Adjust(call, wait);
      ceiling := MaxR(ceiling, call.estimate * HEADROOM);
      ceiling := MaxR(limits.min, MinR(limits.max, ceiling));
      ceiling := MinR(ceiling, call.chainRemaining);
      effectiveCeiling := ceiling;
      if adjusted {
        cooldowns := cooldowns["" := COOLDOWN];
      } else {
        cooldowns := cooldowns["" := if wait - 1 > 0 then wait - 1 else 0];
      }
      var steps := if windowSteps < DEFAULT_STEPS then windowSteps else DEFAULT_STEPS;
      return Terms("", ceiling, steps, DEFAULT_TOKENS_OUT, onExceed, limits.fallbackModel, limits.timeoutMs,
          DEFAULT_PRIORITY);
    }
  }

  function AdaptiveRun(limits: Limits, s: Adaptive, calls: seq<PlanCall>): Adaptive {
    if calls == [] then s
    else AdaptiveNext(limits, AdaptiveRun(limits, s, calls[..|calls| - 1]), calls[|calls| - 1])
  }

  predicate AdjustsAt(limits: Limits, s: Adaptive, calls: seq<PlanCall>, i: nat)
    requires i < |calls|
  {
    Adjusts(AdaptiveRun(limits, s, calls[..i]), calls[i])
  }

  /** How many of the calls moved the ceiling by a factor. */
  function Adjustments(limits: Limits, s: Adaptive, calls: seq<PlanCall>): nat {
    if calls == [] then 0
    else
      Adjustments(limits, s, calls[..|calls| - 1]) +
      if Adjusts(AdaptiveRun(limits, s, calls[..|calls| - 1]), calls[|calls| - 1]) then 1 else 0
  }

  lemma {:induction false} CooldownAfterAdjustment(limits: Limits, s: Adaptive, calls: seq<PlanCall>, i: nat, j: nat)
    requires i < j <= |calls| && j <= i + COOLDOWN
    requires AdjustsAt(limits, s, calls, i)
    ensures AdaptiveRun(limits, s, calls[..j]).cooldown == COOLDOWN - (j - i - 1)
  {
    assert calls[..j][..j - 1] == calls[..j - 1];
    if j > i + 1 {
      CooldownAfterAdjustment(limits, s, calls, i, j - 1);
    }
  }

  /** Two adjusting plans are at least four calls apart, in every run from every state. */
  lemma AdjustmentsAreSpaced(limits: Limits, s: Adaptive, calls: seq<PlanCall>, i: nat, j: nat)
    requires i < j < |calls|
    requires AdjustsAt(limits, s, calls, i) && AdjustsAt(limits, s, calls, j)
    ensures j - i >= 4
  {
    if j <= i + COOLDOWN {
      CooldownAfterAdjustment(limits, s, calls, i, j);
    }
  }

  /** So n plans adjust at most ceil(n / 4) times from a fresh planner. */
  lemma {:induction false} AdjustmentRate(limits: Limits, s: Adaptive, calls: seq<PlanCall>)
    requires 0 <= s.cooldown <= COOLDOWN
    ensures 0 <= AdaptiveRun(limits, s, calls).cooldown <= COOLDOWN
    ensures 4 * Adjustments(limits, s, calls) <= |calls| + AdaptiveRun(limits, s, calls).cooldown
    ensures Adjustments(limits, s, calls) <= (|calls| + 3) / 4
  {
    if calls != [] {
      AdjustmentRate(limits, s, calls[..|calls| - 1]);
    }
  }
}
