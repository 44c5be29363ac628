/** Two evaluators of the same ceilings: the step simulation and the replay of recorded events. */
module WhatIf {
  import opened Basics

  datatype Action = Halt | Degrade | Queue

  datatype Decision = Allow | Refuse(action: Action)

  datatype Policy = Policy(
    ceilingUsd: real,
    onExceed: Action,
    ceilingTokens: Option<int>,
    ceilingSteps: Option<int>,
    deadline: Option<real>,
    expiry: Option<real>)

  datatype Step = Step(cost: real, tokens: int)

  function CostOf(steps: seq<Step>, n: nat): real
    requires n <= |steps|
  {
    if n == 0 then 0.0 else CostOf(steps, n - 1) + steps[n - 1].cost
  }

  function TokensOf(steps: seq<Step>, n: nat): int
    requires n <= |steps|
  {
    if n == 0 then 0 else TokensOf(steps, n - 1) + steps[n - 1].tokens
  }

  predicate AtMost(n: int, limit: Option<int>) {
    limit.None? || n <= limit.value
  }

  /** The clock is past neither the deadline nor the expiry. */
  predicate OnTime(p: Policy, now: real) {
    (p.deadline.None? || now <= p.deadline.value) && (p.expiry.None? || now <= p.expiry.value)
  }

  // ---------------------------------------------------------------- simulation

  function EvaluateStep(p: Policy, now: real, step: Step, cost: real, tokens: int, index: nat): Decision {
    var projectedCost, projectedTokens, projectedSteps := cost + step.cost, tokens + step.tokens, index + 1;
    if projectedCost > p.ceilingUsd then Refuse(p.onExceed)
    else if p.ceilingTokens.Some? && projectedTokens > p.ceilingTokens.value then Refuse(p.onExceed)
    else if p.ceilingSteps.Some? && projectedSteps > p.ceilingSteps.value then Refuse(p.onExceed)
    else if p.deadline.Some? && now > p.deadline.value then Refuse(Halt)
    else if p.expiry.Some? && now > p.expiry.value then Refuse(Halt)
    else Allow
  }

  /** The first n steps taken together stay within all three ceilings. */
  predicate WithinCeilings(p: Policy, steps: seq<Step>, n: nat)
    requires n <= |steps|
  {
    CostOf(steps, n) <= p.ceilingUsd && AtMost(TokensOf(steps, n), p.ceilingTokens) && AtMost(n, p.ceilingSteps)
  }

  /** k steps are let through: every prefix up to k fits, and the one after it does not. */
  ghost predicate LetThrough(p: Policy, now: real, steps: seq<Step>, k: nat) {
    && k <= |steps|
    && (k > 0 ==> OnTime(p, now))
    && (forall n :: 1 <= n <= k ==> WithinCeilings(p, steps, n))
    && (k < |steps| ==> !(WithinCeilings(p, steps, k + 1) && OnTime(p, now)))
  }

  datatype StepResult = StepResult(index: nat, step: Step, cumulative: real, decision: Decision)

  datatype Simulation = Simulation(allowed: nat, halted: nat, total: real, final: Decision, results: seq<StepResult>)

  /** The verdict on the first step that is not let through. */
  function Verdict(p: Policy, steps: seq<Step>, k: nat): Decision
    requires k <= |steps|
  {
    if k == |steps| then Allow else if WithinCeilings(p, steps, k + 1) then Refuse(Halt) else Refuse(p.onExceed)
  }

  /** What the first n steps come to in cost, tokens or number is beyond what the policy allows. */
  ghost predicate Exceeds(p: Policy, steps: seq<Step>, n: nat)
    requires n <= |steps|
  {
    || CostOf(steps, n) > p.ceilingUsd
    || (p.ceilingTokens.Some? && TokensOf(steps, n) > p.ceilingTokens.value)
    || (p.ceilingSteps.Some? && n > p.ceilingSteps.value)
  }

  ghost predicate Late(p: Policy, now: real) {
    (p.deadline.Some? && now > p.deadline.value) || (p.expiry.Some? && now > p.expiry.value)
  }

  /**
   Steps pass while nothing is exceeded or late; the first that does not is refused as
   the policy says, or halted for time.
   */
  lemma LetThroughMeans(p: Policy, now: real, steps: seq<Step>, k: nat)
    requires LetThrough(p, now, steps, k)
    ensures forall n :: 0 < n <= k ==> !Exceeds(p, steps, n)
    ensures k > 0 ==> !Late(p, now)
    ensures k < |steps| ==> Exceeds(p, steps, k + 1) || Late(p, now)
    ensures Verdict(p, steps, k) == if k == |steps| then Allow
                                    else if Exceeds(p, steps, k + 1) then Refuse(p.onExceed) else Refuse(Halt)
  {
    forall n | 0 < n <= k ensures !Exceeds(p, steps, n) {
      assert WithinCeilings(p, steps, n);
    }
  }

  /** Equal steps add up to multiples. */
  lemma {:induction false} EqualSteps(steps: seq<Step>, n: nat, step: Step)
    requires n <= |steps| && forall i :: 0 <= i < n ==> steps[i] == step
    ensures CostOf(steps, n) == Multiple(n, step.cost) && TokensOf(steps, n) == n * step.tokens
  {
    if n > 0 {
      EqualSteps(steps, n - 1, step);
      assert (n - 1) * step.tokens + step.tokens == n * step.tokens;
    }
  }

  /** The totals grow by one step at a time. */
  lemma NextTotals(steps: seq<Step>, n: nat)
    requires n < |steps|
    ensures CostOf(steps, 0) == 0.0 && CostOf(steps, n + 1) == CostOf(steps, n) + steps[n].cost
    ensures TokensOf(steps, 0) == 0 && TokensOf(steps, n + 1) == TokensOf(steps, n) + steps[n].tokens
  {
  }

  method Simulate(p: Policy, now: real, steps: seq<Step>) returns (r: Simulation)
    ensures LetThrough(p, now, steps, r.allowed)
    ensures r.allowed + r.halted == |steps|
    ensures r.total == CostOf(steps, r.allowed)
    ensures r.final == Verdict(p, steps, r.allowed)
    ensures |r.results| == if r.allowed < |steps| then r.allowed + 1 else r.allowed
    ensures forall i :: 0 <= i < r.allowed ==> r.results[i] == StepResult(i, steps[i], CostOf(steps, i + 1), Allow)
    ensures r.allowed < |steps| ==> r.results[r.allowed] == StepResult(r.allowed, steps[r.allowed], r.total, r.final)
  {
    var results: seq<StepResult>, cost, tokens := [], 0.0, 0;
    var allowed, halted := 0, 0;
    var final := Allow;
    var i := 0;
    while i < |steps|
      invariant i <= |steps| && allowed == i == |results| && halted == 0 && final == Allow
      invariant cost == CostOf(steps, i) && tokens == TokensOf(steps, i)
      invariant i > 0 ==> OnTime(p, now)
      invariant forall n :: 1 <= n <= i ==> WithinCeilings(p, steps, n)
      invariant forall n :: 0 <= n < i ==> results[n] == StepResult(n, steps[n], CostOf(steps, n + 1), Allow)
    {
      final := EvaluateStep(p, now, steps[i], cost, tokens, i);
      if final == Allow {
        cost := cost + steps[i].cost;
        tokens := tokens + steps[i].tokens;
        allowed := allowed + 1;
      } else {
        halted := halted + 1;
      }
      results := results + [StepResult(i, steps[i], cost, final)];
      if final != Allow {
        halted := halted + |steps| - i - 1;
        break;
      }
      i := i + 1;
    }
    return Simulation(allowed, halted, cost, final, results);
  }

  /** The count is determined. */
  lemma LetThroughUnique(p: Policy, now: real, steps: seq<Step>, k: nat, k': nat)
    requires LetThrough(p, now, steps, k) && LetThrough(p, now, steps, k')
    ensures k == k'
  {
  }

  predicate NonNegative(steps: seq<Step>) {
    forall i :: 0 <= i < |steps| ==> steps[i].cost >= 0.0 && steps[i].tokens >= 0
  }

  lemma {:induction false} TotalsGrow(steps: seq<Step>, m: nat, n: nat)
    requires m <= n <= |steps|
    ensures (forall i :: m <= i < n ==> steps[i].cost >= 0.0) ==> CostOf(steps, m) <= CostOf(steps, n)
    ensures (forall i :: m <= i < n ==> steps[i].tokens >= 0) ==> TokensOf(steps, m) <= TokensOf(steps, n)
  {
    if m < n {
      TotalsGrow(steps, m, n - 1);
    }
  }

  /** Without negative costs and tokens the prefix let through is the longest one within all ceilings. */
  lemma LongestPrefix(p: Policy, now: real, steps: seq<Step>, k: nat, n: nat)
    requires NonNegative(steps) && LetThrough(p, now, steps, k) && 0 < n <= |steps|
    ensures n <= k <==> OnTime(p, now) && WithinCeilings(p, steps, n)
  {
    if n > k && WithinCeilings(p, steps, n) {
      TotalsGrow(steps, k + 1, n);
      assert WithinCeilings(p, steps, k + 1);
    }
  }

  // ---------------------------------------------------------------- replay

  /** A recorded event; a cost that is not finite is absent. */
  datatype Event = Event(stepId: string, cost: Option<real>, tokens: int, decision: string)

  datatype Diff = Diff(stepId: string, original: string, replayed: string, changed: bool)

  function NameOf(d: Decision): string {
    match d
    case Allow => "allow"
    case Refuse(Halt) => "halt"
    case Refuse(Degrade) => "degrade"
    case Refuse(Queue) => "queue"
  }

  function StepOf(e: Event): Step {
    Step(if e.cost.Some? then e.cost.value else 0.0, e.tokens)
  }

  function Scenario(events: seq<Event>): (s: seq<Step>)
    ensures |s| == |events| && forall i :: 0 <= i < |s| ==> s[i] == StepOf(events[i])
  {
    seq(|events|, i requires 0 <= i < |events| => StepOf(events[i]))
  }

  function ReplayDecision(p: Policy, e: Event, index: nat, cost: real): Decision {
    var projected := cost + StepOf(e).cost;
    if projected > p.ceilingUsd then Refuse(p.onExceed)
    else if p.ceilingSteps.Some? && index + 1 > p.ceilingSteps.value then Refuse(p.onExceed)
    else if p.ceilingTokens.Some? && e.tokens > p.ceilingTokens.value then Refuse(p.onExceed)
    else Allow
  }

  /** Replay's test of one event: the cost of everything up to it, its position, and its own tokens. */
  predicate ReplayAllows(p: Policy, steps: seq<Step>, i: nat)
    requires i < |steps|
  {
    CostOf(steps, i + 1) <= p.ceilingUsd && AtMost(i + 1, p.ceilingSteps) && AtMost(steps[i].tokens, p.ceilingTokens)
  }

  /** How many of the decisions differ. */
  function Changed(diffs: seq<Diff>): nat {
    if diffs == [] then 0
    else
      var last := diffs[|diffs| - 1];
      Changed(diffs[..|diffs| - 1]) + if last.original != last.replayed then 1 else 0
  }

  lemma ChangedAppend(diffs: seq<Diff>, d: Diff)
    ensures Changed(diffs + [d]) == Changed(diffs) + if d.original != d.replayed then 1 else 0
  {
    assert (diffs + [d])[..|diffs|] == diffs;
  }

  /** What replay reports of one event; without an override the recorded decision stands. */
  function DiffOf(override: Option<Policy>, events: seq<Event>, i: nat): Diff
    requires i < |events|
  {
    var original := events[i].decision;
    var replayed :=
      if override.None? then original
      else NameOf(if ReplayAllows(override.value, Scenario(events), i) then Allow else Refuse(override.value.onExceed));
    Diff(events[i].stepId, original, replayed, replayed != original)
  }

  /** A report case by case: the recorded decision without an override, else `allow` unless a ceiling is exceeded. */
  lemma DiffByCases(override: Option<Policy>, events: seq<Event>, i: nat)
    requires i < |events|
    ensures var d, e := DiffOf(override, events, i), events[i];
            && d.stepId == e.stepId && d.original == e.decision && (d.changed <==> d.replayed != d.original)
            && (override.None? ==> d.replayed == e.decision)
            && (override.Some? ==>
                  var p := override.value;
                  var over := || CostOf(Scenario(events), i + 1) > p.ceilingUsd
                              || (p.ceilingSteps.Some? && i + 1 > p.ceilingSteps.value)
                              || (p.ceilingTokens.Some? && e.tokens > p.ceilingTokens.value);
                  d.replayed == if !over then "allow"
                                else match p.onExceed
                                     case Halt => "halt"
                                     case Degrade => "degrade"
                                     case Queue => "queue")
    ensures Scenario(events)[i] == Step(if events[i].cost.Some? then events[i].cost.value else 0.0, events[i].tokens)
  {
  }

  /** The decision replay comes to for one event, given the cost of those before it. */
  function Replayed(override: Option<Policy>, e: Event, index: nat, cost: real): string {
    if override.None? then e.decision else NameOf(ReplayDecision(override.value, e, index, cost))
  }

  lemma DecisionIsReplayAllows(override: Option<Policy>, events: seq<Event>, i: nat)
    requires i < |events|
    ensures var original, replayed := events[i].decision, Replayed(override, events[i], i, CostOf(Scenario(events), i));
            && Diff(events[i].stepId, original, replayed, replayed != original) == DiffOf(override, events, i)
            && (override.None? ==> replayed == original)
            && CostOf(Scenario(events), i + 1) == CostOf(Scenario(events), i) + StepOf(events[i]).cost
  {
  }

  /** These are the reports of the first events. */
  ghost predicate Reports(override: Option<Policy>, events: seq<Event>, diffs: seq<Diff>) {
    |diffs| <= |events| && forall i :: 0 <= i < |diffs| ==> diffs[i] == DiffOf(override, events, i)
  }

  lemma ReportsAppend(override: Option<Policy>, events: seq<Event>, diffs: seq<Diff>, diff: Diff)
    requires Reports(override, events, diffs) && |diffs| < |events| && diff == DiffOf(override, events, |diffs|)
    ensures Reports(override, events, diffs + [diff])
  {
  }

  /** One turn of the loop. */
  method ReplayOne(override: Option<Policy>, events: seq<Event>, i: nat, cost: real) returns (diff: Diff)
    requires i < |events| && cost == CostOf(Scenario(events), i)
    ensures diff == DiffOf(override, events, i) && (override.None? ==> diff.replayed == diff.original)
  {
    DecisionIsReplayAllows(override, events, i);
    var replayed := Replayed(override, events[i], i, cost);
    return Diff(events[i].stepId, events[i].decision, replayed, replayed != events[i].decision);
  }

  /** Costs go on adding up after a refusal, and every changed decision is counted. */
  method Replay(override: Option<Policy>, events: seq<Event>) returns (diffs: seq<Diff>, changed: nat)
    ensures |diffs| == |events| && Reports(override, events, diffs)
    ensures changed == Changed(diffs) && (override.None? ==> changed == 0)
  {
    var cost := 0.0;
    diffs, changed := [], 0;
    ghost var steps := Scenario(events);
    for i := 0 to |events|
      invariant |diffs| == i && cost == CostOf(steps, i)
      invariant changed == Changed(diffs) && (override.None? ==> changed == 0)
      invariant Reports(override, events, diffs)
    {
      var diff := ReplayOne(override, events, i, cost);
      ChangedAppend(diffs, diff);
      ReportsAppend(override, events, diffs, diff);
      if diff.replayed != diff.original {
        changed := changed + 1;
      }
      diffs := diffs + [diff];
      cost := cost + StepOf(events[i]).cost;
    }
  }

  // ---------------------------------------------------------------- the two compared

  /**
   Exactly how the two differ when no token count is negative: the simulation lets step i
   through when replay allows every event up to it and, besides, the tokens add up to no more
   than their ceiling on the way and the clock is on time.
   */
  lemma SimulationAgainstReplay(p: Policy, now: real, steps: seq<Step>, k: nat, i: nat)
    requires LetThrough(p, now, steps, k) && i < |steps|
    requires forall j :: 0 <= j < |steps| ==> steps[j].tokens >= 0
    ensures i < k <==> && (forall j :: 0 <= j <= i ==> ReplayAllows(p, steps, j))
                       && (forall n :: 0 < n <= i + 1 ==> AtMost(TokensOf(steps, n), p.ceilingTokens))
                       && OnTime(p, now)
  {
    if i < k {
      forall j | 0 <= j <= i ensures ReplayAllows(p, steps, j) {
        assert WithinCeilings(p, steps, j + 1);
        TotalsGrow(steps, 0, j);
      }
      forall n | 0 < n <= i + 1 ensures AtMost(TokensOf(steps, n), p.ceilingTokens) {
        assert WithinCeilings(p, steps, n);
      }
    } else {
      StoppedAt(p, now, steps, k);
    }
  }

  /** The step the simulation stops at fails one of replay's tests, the token total or the clock. */
  lemma StoppedAt(p: Policy, now: real, steps: seq<Step>, k: nat)
    requires LetThrough(p, now, steps, k) && k < |steps|
    ensures !ReplayAllows(p, steps, k) || !AtMost(TokensOf(steps, k + 1), p.ceilingTokens) || !OnTime(p, now)
  {}

  predicate CostsNonNegative(steps: seq<Step>) {
    forall i :: 0 <= i < |steps| ==> steps[i].cost >= 0.0
  }

  /**
   Without a token ceiling, a deadline or an expiry, replay allows exactly the prefix
   that the simulation lets through.
   */
  lemma ReplayIsTheSamePrefix(p: Policy, now: real, steps: seq<Step>, k: nat, i: nat)
    requires CostsNonNegative(steps) && p.ceilingTokens.None? && p.deadline.None? && p.expiry.None?
    requires LetThrough(p, now, steps, k) && i < |steps|
    ensures ReplayAllows(p, steps, i) <==> i < k
  {
    if i < k {
      assert WithinCeilings(p, steps, i + 1);
    } else if ReplayAllows(p, steps, i) {
      TotalsGrow(steps, k + 1, i + 1);
      assert WithinCeilings(p, steps, k + 1);
    }
  }

  /**
   When the two agree, for any policy: replay allows exactly the prefix that the simulation lets
   through if and only if every event replay allows also keeps the tokens so far within their
   ceiling and is on time, the two things only the simulation looks at.
   */
  lemma AgreeExactlyWhen(p: Policy, now: real, steps: seq<Step>, k: nat)
    requires NonNegative(steps) && LetThrough(p, now, steps, k)
    ensures (forall i :: 0 <= i < |steps| ==> (ReplayAllows(p, steps, i) <==> i < k)) <==>
            (forall i :: 0 <= i < |steps| && ReplayAllows(p, steps, i) ==>
               AtMost(TokensOf(steps, i + 1), p.ceilingTokens) && OnTime(p, now))
  {
    forall i | 0 <= i < k
      ensures ReplayAllows(p, steps, i) && AtMost(TokensOf(steps, i + 1), p.ceilingTokens) && OnTime(p, now)
    {
      SimulationAgainstReplay(p, now, steps, k, i);
    }
    if k < |steps| {
      StoppedAt(p, now, steps, k);
      forall i | k <= i < |steps| && ReplayAllows(p, steps, i) && AtMost(TokensOf(steps, i + 1), p.ceilingTokens)
        ensures ReplayAllows(p, steps, k)
      {
        AllowedEarlier(p, steps, k, i);
      }
    }
  }

  /** What replay allows with the tokens so far within their ceiling, it allows before. */
  lemma AllowedEarlier(p: Policy, steps: seq<Step>, k: nat, i: nat)
    requires NonNegative(steps) && k <= i < |steps|
    requires ReplayAllows(p, steps, i) && AtMost(TokensOf(steps, i + 1), p.ceilingTokens)
    ensures ReplayAllows(p, steps, k) && AtMost(TokensOf(steps, k + 1), p.ceilingTokens)
  {
    TotalsGrow(steps, k + 1, i + 1);
    TotalsGrow(steps, 0, k);
  }

  /**
   With a token ceiling they part: replay allows both events of 6 tokens under a
   ceiling of 10, the simulation one.
   */
  lemma TokenCeilingsDiffer(now: real)
    ensures var p, steps := Policy(1.0, Halt, Some(10), None, None, None), [Step(0.0, 6), Step(0.0, 6)];
            LetThrough(p, now, steps, 1) && ReplayAllows(p, steps, 0) && ReplayAllows(p, steps, 1)
    ensures var p, steps := Policy(1.0, Halt, Some(10), None, None, None), [Step(0.0, 20), Step(0.0, 1)];
            LetThrough(p, now, steps, 0) && !ReplayAllows(p, steps, 0) && ReplayAllows(p, steps, 1)
  {
  }
}
