/**
 The priority-weighted arbiter: a proportional pass capped at each desire, a
 second pass over what the caps left, a floor, and a rescale to the budget.
 */
module ProportionalArbiter {
  import opened Basics
  import opened Arbiter

  const FLOOR := 0.01
  const EPS := 0.000000000001

  datatype ArithmeticError = DivisionByZero

  // ---------------------------------------------------------------- sums

  function Sum(s: seq<real>): real {
    if s == [] then 0.0 else Sum(s[..|s| - 1]) + s[|s| - 1]
  }

  lemma {:induction false} SumAdds(a: seq<real>, b: seq<real>, c: seq<real>)
    requires |a| == |b| == |c| && forall i :: 0 <= i < |a| ==> c[i] == a[i] + b[i]
    ensures Sum(c) == Sum(a) + Sum(b)
  {
    if a != [] {
      SumAdds(a[..|a| - 1], b[..|b| - 1], c[..|c| - 1]);
    }
  }

  function Plus(a: seq<real>, b: seq<real>): (c: seq<real>)
    requires |a| == |b|
    ensures |c| == |a| && forall i :: 0 <= i < |c| ==> c[i] == a[i] + b[i]
  {
    seq(|a|, i requires 0 <= i < |a| => a[i] + b[i])
  }

  function Constant(n: nat, x: real): (c: seq<real>)
    ensures |c| == n && forall i :: 0 <= i < n ==> c[i] == x
  {
    seq(n, i => x)
  }

  lemma {:induction false} SumMonotone(a: seq<real>, b: seq<real>)
    requires |a| == |b| && forall i :: 0 <= i < |a| ==> a[i] <= b[i]
    ensures Sum(a) <= Sum(b)
  {
    if a != [] {
      SumMonotone(a[..|a| - 1], b[..|b| - 1]);
    }
  }

  lemma {:induction false} SumScales(a: seq<real>, b: seq<real>, k: real)
    requires |a| == |b| && forall i :: 0 <= i < |a| ==> b[i] == a[i] * k
    ensures Sum(b) == Sum(a) * k
  {
    if a != [] {
      SumScales(a[..|a| - 1], b[..|b| - 1], k);
    }
  }

  lemma {:induction false} SumConstant(a: seq<real>, k: real)
    requires forall i :: 0 <= i < |a| ==> a[i] == k
    ensures Sum(a) == |a| as real * k
  {
    if a != [] {
      SumConstant(a[..|a| - 1], k);
      OneMore(|a|, k);
    }
  }

  // ---------------------------------------------------------------- the four stages

  /** Desires with a positive priority, in order. */
  function Eligible(desires: seq<Terms>): (e: seq<Terms>)
    ensures forall i :: 0 <= i < |e| ==> e[i].priority > 0 && e[i] in desires
    ensures forall d :: d in desires && d.priority > 0 ==> d in e
  {
    if desires == [] then []
    else
      var last := desires[|desires| - 1];
      Eligible(desires[..|desires| - 1]) + if last.priority > 0 then [last] else []
  }

  ghost predicate Positive(e: seq<Terms>) {
    forall i :: 0 <= i < |e| ==> e[i].priority > 0
  }

  function Priorities(e: seq<Terms>): (w: seq<real>)
    ensures |w| == |e|
  {
    seq(|e|, i requires 0 <= i < |e| => e[i].priority as real)
  }

  lemma {:induction false} WeightPositive(e: seq<Terms>)
    requires Positive(e)
    ensures Sum(Priorities(e)) >= |e| as real
  {
    if e != [] {
      WeightPositive(e[..|e| - 1]);
      assert Priorities(e)[..|e| - 1] == Priorities(e[..|e| - 1]);
    }
  }

  /** `amount` divided in proportion to the weights. */
  function Portions(weights: seq<real>, total: real, amount: real): (p: seq<real>)
    requires total > 0.0
    ensures |p| == |weights|
  {
    seq(|weights|, i requires 0 <= i < |weights| => weights[i] / total * amount)
  }

  function First(e: seq<Terms>, shares: seq<real>): (a: seq<real>)
    requires |shares| == |e|
    ensures |a| == |e|
  {
    seq(|e|, i requires 0 <= i < |e| => MinR(shares[i], e[i].ceiling))
  }

  /** What each cap leaves on the table. */
  function Excess(e: seq<Terms>, shares: seq<real>): (x: seq<real>)
    requires |shares| == |e|
    ensures |x| == |e| && forall i :: 0 <= i < |x| ==> x[i] >= 0.0
  {
    seq(|e|, i requires 0 <= i < |e| => MaxR(shares[i] - e[i].ceiling, 0.0))
  }

  /** The priorities that still take part after pass 1. */
  function Uncapped(e: seq<Terms>, shares: seq<real>): (w: seq<real>)
    requires |shares| == |e|
    ensures |w| == |e|
  {
    seq(|e|, i requires 0 <= i < |e| => if shares[i] > e[i].ceiling then 0.0 else e[i].priority as real)
  }

  /** Each uncapped chain's portion of the surplus. */
  function Extras(e: seq<Terms>, shares: seq<real>): (x: seq<real>)
    requires |shares| == |e|
    ensures |x| == |e|
  {
    var surplus, weight := Sum(Excess(e, shares)), Sum(Uncapped(e, shares));
    if surplus > EPS && weight > EPS then Portions(Uncapped(e, shares), weight, surplus) else Constant(|e|, 0.0)
  }

  function Second(e: seq<Terms>, shares: seq<real>, extras: seq<real>): (a: seq<real>)
    requires |shares| == |e| == |extras|
    ensures |a| == |e|
  {
    seq(|e|, i requires 0 <= i < |e| => MinR(First(e, shares)[i] + extras[i], e[i].ceiling))
  }

  function Floored(a: seq<real>, budget: real): (f: seq<real>)
    ensures |f| == |a|
  {
    if budget >= |a| as real * FLOOR then seq(|a|, i requires 0 <= i < |a| => MaxR(a[i], FLOOR)) else a
  }

  function Times(a: seq<real>, factor: real): (b: seq<real>)
    ensures |b| == |a|
  {
    seq(|a|, i requires 0 <= i < |a| => a[i] * factor)
  }

  function Shares(e: seq<Terms>, budget: real): (s: seq<real>)
    requires e != [] && Positive(e)
    ensures |s| == |e|
  {
    WeightPositive(e);
    Portions(Priorities(e), Sum(Priorities(e)), budget)
  }

  /** The allocations after both passes. */
  function Passes(e: seq<Terms>, budget: real): (a: seq<real>)
    requires e != [] && Positive(e)
    ensures |a| == |e|
  {
    var shares := Shares(e, budget);
    Second(e, shares, Extras(e, shares))
  }

  /** The double clamp: a total over the budget is scaled back to it. */
  function Rescaled(a: seq<real>, budget: real): (r: seq<real>)
    ensures |r| == |a|
  {
    var total := Sum(a);
    if total > budget + EPS && total != 0.0 then Times(a, budget / total) else a
  }

  /** The allocation of each eligible desire. */
  function Allocation(e: seq<Terms>, budget: real): (a: seq<real>)
    requires e != [] && Positive(e)
    ensures |a| == |e|
  {
    Rescaled(Floored(Passes(e, budget), budget), budget)
  }

  // ---------------------------------------------------------------- portions

  lemma Regroup(p: real, total: real, amount: real)
    requires total > 0.0
    ensures p / total * amount == p * (amount / total)
  {
  }

  /** Portions add up to the amount that was divided. */
  lemma PortionsConserve(weights: seq<real>, total: real, amount: real)
    requires total > 0.0 && total == Sum(weights)
    ensures Sum(Portions(weights, total, amount)) == amount
  {
    var portions := Portions(weights, total, amount);
    forall i | 0 <= i < |weights| ensures portions[i] == weights[i] * (amount / total) {
      Regroup(weights[i], total, amount);
    }
    SumScales(weights, portions, amount / total);
    assert total * (amount / total) == amount;
  }

  /** A larger weight never gets a smaller portion of a non-negative amount. */
  lemma PortionsOrdered(weights: seq<real>, total: real, amount: real, i: nat, j: nat)
    requires total > 0.0 && amount >= 0.0 && i < |weights| && j < |weights| && weights[i] >= weights[j] >= 0.0
    ensures Portions(weights, total, amount)[i] >= Portions(weights, total, amount)[j] >= 0.0
  {
  }

  lemma {:induction false} SumNonNegative(a: seq<real>)
    requires forall i :: 0 <= i < |a| ==> a[i] >= 0.0
    ensures Sum(a) >= 0.0
  {
    if a != [] {
      SumNonNegative(a[..|a| - 1]);
    }
  }

  lemma ExtrasNonNegative(e: seq<Terms>, shares: seq<real>)
    requires |shares| == |e| && Positive(e)
    ensures forall i :: 0 <= i < |e| ==> Extras(e, shares)[i] >= 0.0
    ensures Sum(Extras(e, shares)) <= Sum(Excess(e, shares))
  {
    var surplus, weights := Sum(Excess(e, shares)), Uncapped(e, shares);
    SumNonNegative(Excess(e, shares));
    if surplus > EPS && Sum(weights) > EPS {
      PortionsConserve(weights, Sum(weights), surplus);
      forall i | 0 <= i < |e| ensures Extras(e, shares)[i] >= 0.0 {
        PortionsOrdered(weights, Sum(weights), surplus, i, i);
      }
    } else {
      SumConstant(Constant(|e|, 0.0), 0.0);
    }
  }

  // ---------------------------------------------------------------- conservation

  /** Pass 1 accounts for every share: allocations and surplus add up to what was divided. */
  lemma FirstPassConserves(e: seq<Terms>, shares: seq<real>)
    requires |shares| == |e|
    ensures Sum(First(e, shares)) + Sum(Excess(e, shares)) == Sum(shares)
  {
    SumAdds(First(e, shares), Excess(e, shares), shares);
  }

  /** Pass 2 hands out at most the surplus, so it stays within what was divided, for any budget and any ceilings. */
  lemma SecondPassWithinBudget(e: seq<Terms>, shares: seq<real>, extras: seq<real>)
    requires |shares| == |e| == |extras| && Sum(extras) <= Sum(Excess(e, shares))
    ensures Sum(Second(e, shares, extras)) <= Sum(shares)
  {
    var first := First(e, shares);
    FirstPassConserves(e, shares);
    SumAdds(first, extras, Plus(first, extras));
    SecondBelow(e, shares, extras, Plus(first, extras));
    SumMonotone(Second(e, shares, extras), Plus(first, extras));
  }

  lemma SecondBelow(e: seq<Terms>, shares: seq<real>, extras: seq<real>, bound: seq<real>)
    requires |shares| == |e| == |extras| == |bound|
    requires forall i :: 0 <= i < |e| ==> bound[i] == First(e, shares)[i] + extras[i]
    ensures forall i :: 0 <= i < |e| ==> Second(e, shares, extras)[i] <= bound[i]
  {
  }

  lemma PassesWithinBudget(e: seq<Terms>, budget: real)
    requires e != [] && Positive(e)
    ensures Sum(Passes(e, budget)) <= budget
  {
    var shares := Shares(e, budget);
    SharesConserve(e, budget);
    ExtrasNonNegative(e, shares);
    SecondPassWithinBudget(e, shares, Extras(e, shares));
  }

  lemma SharesConserve(e: seq<Terms>, budget: real)
    requires e != [] && Positive(e)
    ensures Sum(Shares(e, budget)) == budget
  {
    WeightPositive(e);
    PortionsConserve(Priorities(e), Sum(Priorities(e)), budget);
  }

  // ---------------------------------------------------------------- the floor and the rescale

  /** The floor at most doubles what the passes gave out. */
  lemma FloorAtMostDoubles(a: seq<real>, budget: real)
    requires forall i :: 0 <= i < |a| ==> a[i] >= 0.0
    requires budget >= |a| as real * FLOOR && Sum(a) <= budget
    ensures Sum(Floored(a, budget)) <= 2.0 * budget
  {
    FlooredBelow(a, budget);
    RaisedBy(a, Floored(a, budget), FLOOR);
    FloorsTotal(|a|);
  }

  lemma FloorsTotal(n: nat)
    ensures Sum(Constant(n, FLOOR)) == n as real * FLOOR
  {
    SumConstant(Constant(n, FLOOR), FLOOR);
  }

  lemma FlooredBelow(a: seq<real>, budget: real)
    requires forall i :: 0 <= i < |a| ==> a[i] >= 0.0
    ensures forall i :: 0 <= i < |a| ==> Floored(a, budget)[i] <= a[i] + FLOOR
  {
  }

  /** Raising every entry by at most x raises the sum by at most as many x. */
  lemma RaisedBy(a: seq<real>, b: seq<real>, x: real)
    requires |a| == |b| && forall i :: 0 <= i < |a| ==> b[i] <= a[i] + x
    ensures Sum(b) <= Sum(a) + Sum(Constant(|a|, x))
  {
    var each := Constant(|a|, x);
    SumAdds(a, each, Plus(a, each));
    SumMonotone(b, Plus(a, each));
  }

  /** Without a floor there is nothing to rescale, so the rescale never divides by zero. */
  lemma RescaleDefined(a: seq<real>, budget: real)
    requires a != [] && Sum(a) <= budget
    ensures Sum(Floored(a, budget)) > budget + EPS ==> budget >= |a| as real * FLOOR > 0.0
    ensures Sum(Floored(a, budget)) > budget + EPS ==> Sum(Floored(a, budget)) > 0.0
  {
  }

  /** The rescale lands on the budget. */
  lemma RescaledTotal(a: seq<real>, budget: real)
    requires Sum(a) == 0.0 ==> budget + EPS >= 0.0
    ensures Sum(Rescaled(a, budget)) <= budget + EPS
  {
    var total := Sum(a);
    if total > budget + EPS {
      SumScales(a, Times(a, budget / total), budget / total);
      assert total * (budget / total) == budget;
    }
  }

  /** The rescale keeps the order. */
  lemma RescaledOrdered(a: seq<real>, budget: real, i: nat, j: nat)
    requires i < |a| && j < |a| && a[i] >= a[j] && budget >= 0.0
    ensures Rescaled(a, budget)[i] >= Rescaled(a, budget)[j]
  {
  }

  /** When the total is at most twice the budget, the rescale takes at most half, and never adds. */
  lemma RescaledAtLeastHalf(a: seq<real>, budget: real, i: nat)
    requires i < |a| && a[i] >= 0.0 && 0.0 <= Sum(a) <= 2.0 * budget
    ensures a[i] / 2.0 <= Rescaled(a, budget)[i] <= a[i]
  {
    var total := Sum(a);
    if total > budget + EPS && total != 0.0 {
      Ratio(budget, total);
      TimesRange(a, budget / total, i);
    }
  }

  lemma Ratio(x: real, y: real)
    requires 0.0 < x <= y <= 2.0 * x
    ensures 0.5 <= x / y <= 1.0
  {
    var r := x / y;
    assert r * y == x;
    assert (r - 0.5) * y >= 0.0;
    assert (1.0 - r) * y >= 0.0;
    if r < 0.5 {
      assert (r - 0.5) * y < 0.0;
    }
  }

  lemma TimesRange(a: seq<real>, ratio: real, i: nat)
    requires i < |a| && a[i] >= 0.0 && 0.5 <= ratio <= 1.0
    ensures a[i] / 2.0 <= Times(a, ratio)[i] <= a[i]
  {
    assert a[i] * (ratio - 0.5) >= 0.0;
    assert a[i] * (1.0 - ratio) >= 0.0;
  }

  // ---------------------------------------------------------------- what callers get

  /** The allocations never add up to more than the budget and its tolerance, for any budget and any ceilings. */
  lemma NeverOverAllocated(e: seq<Terms>, budget: real)
    requires e != [] && Positive(e)
    ensures Sum(Allocation(e, budget)) <= budget + EPS
  {
    var passes := Passes(e, budget);
    PassesWithinBudget(e, budget);
    RescaleDefined(passes, budget);
    RescaledTotal(Floored(passes, budget), budget);
  }

  lemma SharesOrdered(e: seq<Terms>, budget: real, i: nat, j: nat)
    requires Positive(e) && i < |e| && j < |e| && budget >= 0.0 && e[i].priority >= e[j].priority
    ensures Shares(e, budget)[i] >= Shares(e, budget)[j] >= 0.0
  {
    WeightPositive(e);
    PortionsOrdered(Priorities(e), Sum(Priorities(e)), budget, i, j);
  }

  lemma PassesInRange(e: seq<Terms>, budget: real)
    requires e != [] && Positive(e) && budget >= 0.0
    requires forall i :: 0 <= i < |e| ==> e[i].ceiling >= 0.0
    ensures forall i :: 0 <= i < |e| ==> 0.0 <= Passes(e, budget)[i] <= e[i].ceiling
  {
    var shares := Shares(e, budget);
    forall i | 0 <= i < |e| ensures shares[i] >= 0.0 {
      SharesOrdered(e, budget, i, i);
    }
    ExtrasNonNegative(e, shares);
  }

  /**
   Nobody is starved and nobody overfed: with a floor's worth of budget for
   everyone each chain keeps at least half a floor, and in any case no more than it
   asked for or the floor.
   */
  lemma AllocationRange(e: seq<Terms>, budget: real, i: nat)
    requires Positive(e) && i < |e| && budget >= 0.0
    requires forall j :: 0 <= j < |e| ==> e[j].ceiling >= 0.0
    ensures budget >= |e| as real * FLOOR ==> Allocation(e, budget)[i] >= FLOOR / 2.0
    ensures 0.0 <= Allocation(e, budget)[i] <= MaxR(e[i].ceiling, FLOOR)
  {
    PassesInRange(e, budget);
    PassesWithinBudget(e, budget);
    AllocationRangeFrom(Passes(e, budget), budget, i, e[i].ceiling);
  }

  lemma AllocationRangeFrom(a: seq<real>, budget: real, i: nat, ceiling: real)
    requires i < |a| && 0.0 <= a[i] <= ceiling && Sum(a) <= budget
    requires forall j :: 0 <= j < |a| ==> a[j] >= 0.0
    ensures budget >= |a| as real * FLOOR ==> Rescaled(Floored(a, budget), budget)[i] >= FLOOR / 2.0
    ensures 0.0 <= Rescaled(Floored(a, budget), budget)[i] <= MaxR(ceiling, FLOOR)
  {
    SumNonNegative(a);
    SumNonNegative(Floored(a, budget));
    if budget >= |a| as real * FLOOR {
      FloorAtMostDoubles(a, budget);
    }
    RescaledAtLeastHalf(Floored(a, budget), budget, i);
  }

  /**
   Fairness under domination: a chain with at least the priority and at least the
   ceiling of another is never allocated less, through both passes, the floor and
   the rescale.
   */
  lemma DominationIsRespected(e: seq<Terms>, budget: real, i: nat, j: nat)
    requires Positive(e) && i < |e| && j < |e| && budget >= 0.0
    requires e[i].priority >= e[j].priority && e[i].ceiling >= e[j].ceiling
    ensures Allocation(e, budget)[i] >= Allocation(e, budget)[j]
  {
    SharesOrdered(e, budget, i, j);
    SecondIsOrdered(e, Shares(e, budget), i, j);
    FlooredOrdered(Passes(e, budget), budget, i, j);
    RescaledOrdered(Floored(Passes(e, budget), budget), budget, i, j);
  }

  lemma FlooredOrdered(a: seq<real>, budget: real, i: nat, j: nat)
    requires i < |a| && j < |a| && a[i] >= a[j]
    ensures Floored(a, budget)[i] >= Floored(a, budget)[j]
  {
  }

  lemma SecondIsOrdered(e: seq<Terms>, shares: seq<real>, i: nat, j: nat)
    requires Positive(e) && i < |e| == |shares| && j < |e|
    requires shares[i] >= shares[j] && e[i].priority >= e[j].priority && e[i].ceiling >= e[j].ceiling
    ensures Second(e, shares, Extras(e, shares))[i] >= Second(e, shares, Extras(e, shares))[j]
  {
    var surplus, weights := Sum(Excess(e, shares)), Uncapped(e, shares);
    ExtrasNonNegative(e, shares);
    if weights[i] >= weights[j] && surplus > EPS && Sum(weights) > EPS {
      PortionsOrdered(weights, Sum(weights), surplus, i, j);
    }
  }

  // ---------------------------------------------------------------- in proportion to the priorities

  function TotalPriority(e: seq<Terms>): int {
    if e == [] then 0 else TotalPriority(e[..|e| - 1]) + e[|e| - 1].priority
  }

  lemma {:induction false} TotalPriorityPositive(e: seq<Terms>)
    requires Positive(e)
    ensures TotalPriority(e) >= |e|
  {
    if e != [] {
      TotalPriorityPositive(e[..|e| - 1]);
    }
  }

  /** The budget per unit of priority. */
  function UnitShare(e: seq<Terms>, budget: real): real
    requires e != [] && Positive(e)
  {
    TotalPriorityPositive(e);
    budget / TotalPriority(e) as real
  }

  /** A desire's part of the budget by its priority alone. */
  function FairShare(e: seq<Terms>, budget: real, i: nat): real
    requires i < |e| && Positive(e)
  {
    Multiple(e[i].priority, UnitShare(e, budget))
  }

  /**
   What a division owes the priorities. Desires left below their ceilings hold amounts
   in the ratio of their priorities; a desire whose share exceeds its ceiling gets
   exactly the ceiling, any other at least its share; nothing beyond the budget is
   handed out, and all of it is when nobody who could take more was stopped by a
   ceiling.
   */
  ghost predicate Proportional(e: seq<Terms>, budget: real, a: seq<real>)
    requires Positive(e) && |a| == |e|
  {
    && (forall i, j :: 0 <= i < |e| && 0 <= j < |e| && a[i] < e[i].ceiling && a[j] < e[j].ceiling ==>
          Multiple(e[j].priority, a[i]) == Multiple(e[i].priority, a[j]))
    && (forall i :: 0 <= i < |e| && FairShare(e, budget, i) > e[i].ceiling ==> a[i] == e[i].ceiling)
    && (forall i :: 0 <= i < |e| && FairShare(e, budget, i) <= e[i].ceiling ==>
          FairShare(e, budget, i) <= a[i] <= e[i].ceiling)
    && Sum(a) <= budget
    && ((exists k :: 0 <= k < |e| && FairShare(e, budget, k) <= e[k].ceiling) &&
        (forall i :: 0 <= i < |e| && FairShare(e, budget, i) <= e[i].ceiling ==> a[i] < e[i].ceiling) ==>
          Sum(a) >= budget - 0.000000000001)
  }

  lemma {:induction false} PrioritiesTotal(e: seq<Terms>)
    ensures Sum(Priorities(e)) == TotalPriority(e) as real
  {
    if e != [] {
      PrioritiesTotal(e[..|e| - 1]);
      assert Priorities(e)[..|e| - 1] == Priorities(e[..|e| - 1]);
    }
  }

  lemma SharesAreFair(e: seq<Terms>, budget: real, i: nat)
    requires Positive(e) && i < |e|
    ensures Shares(e, budget)[i] == FairShare(e, budget, i)
  {
    WeightPositive(e);
    PrioritiesTotal(e);
    PortionOfUnit(e[i].priority, Sum(Priorities(e)), budget);
  }

  /** A portion is so many units. */
  lemma PortionOfUnit(n: nat, total: real, amount: real)
    requires total > 0.0
    ensures n as real / total * amount == Multiple(n, amount / total)
  {
    MultipleIsProduct(n, amount / total);
    Regroup(n as real, total, amount);
  }

  /** What pass 2 adds per unit of priority. */
  function ExtraRate(e: seq<Terms>, shares: seq<real>): real
    requires |shares| == |e|
  {
    var surplus, weight := Sum(Excess(e, shares)), Sum(Uncapped(e, shares));
    if surplus > EPS && weight > EPS then surplus / weight else 0.0
  }

  lemma ExtraAt(e: seq<Terms>, shares: seq<real>, i: nat)
    requires |shares| == |e| && i < |e| && shares[i] <= e[i].ceiling && Positive(e)
    ensures Extras(e, shares)[i] == Multiple(e[i].priority, ExtraRate(e, shares))
  {
    var surplus, weight := Sum(Excess(e, shares)), Sum(Uncapped(e, shares));
    if surplus > EPS && weight > EPS {
      PortionOfUnit(e[i].priority, weight, surplus);
    } else {
      MultipleOfZero(e[i].priority);
    }
  }

  /** Whoever ends below its ceiling was not capped in pass 1 and holds its share and its extra. */
  lemma BelowCeiling(e: seq<Terms>, shares: seq<real>, extras: seq<real>, i: nat)
    requires |shares| == |e| == |extras| && i < |e| && extras[i] >= 0.0
    requires Second(e, shares, extras)[i] < e[i].ceiling
    ensures shares[i] <= e[i].ceiling && Second(e, shares, extras)[i] == shares[i] + extras[i]
  {
  }

  /** What both passes give per unit of priority to whoever stays below its ceiling. */
  function Level(e: seq<Terms>, budget: real): real
    requires e != [] && Positive(e)
  {
    UnitShare(e, budget) + ExtraRate(e, Shares(e, budget))
  }

  lemma CommonLevel(e: seq<Terms>, budget: real, i: nat)
    requires Positive(e) && i < |e| && Passes(e, budget)[i] < e[i].ceiling
    ensures Passes(e, budget)[i] == Multiple(e[i].priority, Level(e, budget))
  {
    var shares := Shares(e, budget);
    ExtrasNonNegative(e, shares);
    BelowCeiling(e, shares, Extras(e, shares), i);
    SharesAreFair(e, budget, i);
    ExtraAt(e, shares, i);
    MultipleAdds(e[i].priority, UnitShare(e, budget), ExtraRate(e, shares));
  }

  lemma SameLevelInRatio(a: real, b: real, p: nat, q: nat, level: real)
    requires a == Multiple(p, level) && b == Multiple(q, level)
    ensures Multiple(q, a) == Multiple(p, b)
  {
    MultiplesCommute(q, p, level);
  }

  /** Two desires below their ceilings hold amounts in the ratio of their priorities. */
  lemma PassesInRatio(e: seq<Terms>, budget: real, i: nat, j: nat)
    requires Positive(e) && i < |e| && j < |e|
    requires Passes(e, budget)[i] < e[i].ceiling && Passes(e, budget)[j] < e[j].ceiling
    ensures Multiple(e[j].priority, Passes(e, budget)[i]) == Multiple(e[i].priority, Passes(e, budget)[j])
  {
    CommonLevel(e, budget, i);
    CommonLevel(e, budget, j);
    SameLevelInRatio(Passes(e, budget)[i], Passes(e, budget)[j], e[i].priority, e[j].priority, Level(e, budget));
  }

  /** Multiples in that relation are products: the amounts are in the ratio p to q. */
  lemma RatioAsProduct(a: real, b: real, p: nat, q: nat)
    ensures Multiple(q, a) == Multiple(p, b) <==> a * q as real == b * p as real
  {
    MultipleIsProduct(q, a);
    MultipleIsProduct(p, b);
  }

  lemma {:induction false} SumAtLeast(a: seq<real>, k: nat)
    requires k < |a| && forall i :: 0 <= i < |a| ==> a[i] >= 0.0
    ensures Sum(a) >= a[k]
  {
    if k < |a| - 1 {
      SumAtLeast(a[..|a| - 1], k);
    } else {
      SumNonNegative(a[..|a| - 1]);
    }
  }

  /** When somebody was not capped, pass 2 hands out the whole surplus unless it is negligible. */
  lemma ExtrasUseSurplus(e: seq<Terms>, shares: seq<real>, k: nat)
    requires Positive(e) && |shares| == |e| && k < |e| && shares[k] <= e[k].ceiling
    ensures Sum(Extras(e, shares)) >= Sum(Excess(e, shares)) - EPS
  {
    var weights := Uncapped(e, shares);
    SumAtLeast(weights, k);
    if Sum(Excess(e, shares)) > EPS {
      PortionsConserve(weights, Sum(weights), Sum(Excess(e, shares)));
    } else {
      ExtrasNonNegative(e, shares);
      SumNonNegative(Extras(e, shares));
    }
  }

  /** Pass 2 where no ceiling stops it: everybody has the first allocation and the extra. */
  lemma SecondIsSum(e: seq<Terms>, shares: seq<real>, extras: seq<real>)
    requires |shares| == |e| == |extras|
    requires forall i :: 0 <= i < |e| && shares[i] > e[i].ceiling ==> extras[i] == 0.0
    requires forall i :: 0 <= i < |e| && shares[i] <= e[i].ceiling ==> Second(e, shares, extras)[i] < e[i].ceiling
    ensures Sum(Second(e, shares, extras)) == Sum(First(e, shares)) + Sum(extras)
  {
    SumAdds(First(e, shares), extras, Second(e, shares, extras));
  }

  /** And when no ceiling stops it there, all of the budget is handed out. */
  lemma PassesUseBudget(e: seq<Terms>, budget: real, k: nat)
    requires Positive(e) && k < |e| && Shares(e, budget)[k] <= e[k].ceiling
    requires forall i :: 0 <= i < |e| && Shares(e, budget)[i] <= e[i].ceiling ==> Passes(e, budget)[i] < e[i].ceiling
    ensures Sum(Passes(e, budget)) >= budget - EPS
  {
    var shares := Shares(e, budget);
    SharesConserve(e, budget);
    FirstPassConserves(e, shares);
    ExtrasUseSurplus(e, shares, k);
    ExtrasOfCapped(e, shares);
    SecondIsSum(e, shares, Extras(e, shares));
  }

  lemma PassesAgainstShares(e: seq<Terms>, budget: real, i: nat)
    requires Positive(e) && i < |e|
    ensures Shares(e, budget)[i] > e[i].ceiling ==> Passes(e, budget)[i] == e[i].ceiling
    ensures Shares(e, budget)[i] <= e[i].ceiling ==> Shares(e, budget)[i] <= Passes(e, budget)[i] <= e[i].ceiling
  {
    ExtrasNonNegative(e, Shares(e, budget));
    ExtrasOfCapped(e, Shares(e, budget));
  }

  lemma PassesAgainstFairShare(e: seq<Terms>, budget: real)
    requires e != [] && Positive(e)
    ensures var a := Passes(e, budget);
            forall i :: 0 <= i < |e| ==>
              && FairShare(e, budget, i) == Shares(e, budget)[i]
              && (FairShare(e, budget, i) > e[i].ceiling ==> a[i] == e[i].ceiling)
              && (FairShare(e, budget, i) <= e[i].ceiling ==> FairShare(e, budget, i) <= a[i] <= e[i].ceiling)
  {
    forall i | 0 <= i < |e|
      ensures FairShare(e, budget, i) == Shares(e, budget)[i]
      ensures Shares(e, budget)[i] > e[i].ceiling ==> Passes(e, budget)[i] == e[i].ceiling
      ensures Shares(e, budget)[i] <= e[i].ceiling ==> Shares(e, budget)[i] <= Passes(e, budget)[i] <= e[i].ceiling
    {
      SharesAreFair(e, budget, i);
      PassesAgainstShares(e, budget, i);
    }
  }

  lemma PassesUseFairBudget(e: seq<Terms>, budget: real, k: nat)
    requires Positive(e) && k < |e| && FairShare(e, budget, k) <= e[k].ceiling
    requires forall i :: 0 <= i < |e| && FairShare(e, budget, i) <= e[i].ceiling ==> Passes(e, budget)[i] < e[i].ceiling
    ensures Sum(Passes(e, budget)) >= budget - EPS
  {
    PassesAgainstFairShare(e, budget);
    PassesUseBudget(e, budget, k);
  }

  /** The two passes are proportional, for any budget and any ceilings. */
  lemma PassesAreProportional(e: seq<Terms>, budget: real)
    requires e != [] && Positive(e)
    ensures Proportional(e, budget, Passes(e, budget))
  {
    ProportionalFrom(e, budget, Passes(e, budget));
  }

  lemma ProportionalFrom(e: seq<Terms>, budget: real, a: seq<real>)
    requires e != [] && Positive(e) && a == Passes(e, budget)
    ensures Proportional(e, budget, a)
  {
    PassesAgainstFairShare(e, budget);
    PassesWithinBudget(e, budget);
    forall i, j | 0 <= i < |e| && 0 <= j < |e| && a[i] < e[i].ceiling && a[j] < e[j].ceiling
      ensures Multiple(e[j].priority, a[i]) == Multiple(e[i].priority, a[j])
    {
      PassesInRatio(e, budget, i, j);
    }
    if (exists k :: 0 <= k < |e| && FairShare(e, budget, k) <= e[k].ceiling) &&
       (forall i :: 0 <= i < |e| && FairShare(e, budget, i) <= e[i].ceiling ==> a[i] < e[i].ceiling) {
      var k :| 0 <= k < |e| && FairShare(e, budget, k) <= e[k].ceiling;
      PassesUseFairBudget(e, budget, k);
    }
  }

  /** The floor raises what is below it to it when everybody could have one, and does nothing else. */
  lemma FlooredExactly(a: seq<real>, budget: real, i: nat)
    requires i < |a|
    ensures budget >= |a| as real * 0.01 ==> Floored(a, budget)[i] == if a[i] < 0.01 then 0.01 else a[i]
    ensures budget < |a| as real * 0.01 ==> Floored(a, budget)[i] == a[i]
  {
  }

  lemma Quotient(x: real, y: real) returns (f: real)
    requires y != 0.0
    ensures f == x / y && f * y == x
  {
    f := x / y;
  }

  /** The rescale multiplies everybody by one factor, which is 1 unless it lands the total on the budget. */
  lemma RescaleFactor(a: seq<real>, budget: real) returns (f: real)
    ensures Rescaled(a, budget) == Times(a, f)
    ensures Sum(a) > budget + 0.000000000001 && Sum(a) != 0.0 ==> f * Sum(a) == budget == Sum(Rescaled(a, budget))
    ensures Sum(a) <= budget + 0.000000000001 || Sum(a) == 0.0 ==> f == 1.0
  {
    if Sum(a) > budget + EPS && Sum(a) != 0.0 {
      f := Quotient(budget, Sum(a));
      SumTimes(a, f, budget);
    } else {
      f := 1.0;
      assert Times(a, 1.0) == a;
    }
  }

  lemma SumTimes(a: seq<real>, f: real, budget: real)
    requires f * Sum(a) == budget
    ensures Sum(Times(a, f)) == budget
  {
    SumScales(a, Times(a, f), f);
  }

  /** Where no floor acts nothing is rescaled either. */
  lemma AllocationIsPasses(e: seq<Terms>, budget: real)
    requires e != [] && Positive(e)
    requires budget < |e| as real * 0.01 || forall i :: 0 <= i < |e| ==> Allocation(e, budget)[i] > 0.01
    ensures Allocation(e, budget) == Passes(e, budget)
  {
    PassesWithinBudget(e, budget);
    UnflooredWhenAbove(Passes(e, budget), |e|, budget, Allocation(e, budget));
  }

  lemma UnflooredWhenAbove(a: seq<real>, n: nat, budget: real, b: seq<real>)
    requires a != [] && |a| == n && Sum(a) <= budget && b == Rescaled(Floored(a, budget), budget)
    requires budget < n as real * 0.01 || forall i :: 0 <= i < n ==> b[i] > 0.01
    ensures b == a
  {
    if budget >= |a| as real * 0.01 {
      forall i | 0 <= i < |a| ensures a[i] >= 0.01 {
        FlooredExactly(a, budget, i);
        RescaleRaisesNobody(Floored(a, budget), budget, i);
      }
    }
    assert Floored(a, budget) == a;
  }

  lemma RescaleRaisesNobody(a: seq<real>, budget: real, i: nat)
    requires i < |a| && a[i] >= 0.0 && budget >= 0.0
    ensures Rescaled(a, budget)[i] <= a[i]
  {
    var f := RescaleFactor(a, budget);
    if Sum(a) > budget + EPS {
      AtMostOne(f, Sum(a), budget);
    }
    Shrinks(a[i], f);
  }

  lemma Shrinks(x: real, f: real)
    requires x >= 0.0 && f <= 1.0
    ensures x * f <= x
  {
    assert x * (1.0 - f) >= 0.0;
  }

  lemma AtMostOne(f: real, total: real, budget: real)
    requires f * total == budget && 0.0 <= budget < total
    ensures f <= 1.0
  {
    if f > 1.0 {
      Grows(f, total);
    }
  }

  lemma Grows(f: real, total: real)
    requires f > 1.0 && total > 0.0
    ensures f * total > total
  {
    assert (f - 1.0) * total > 0.0;
  }

  /** So what is finally allocated is proportional wherever neither floor nor rescale acts. */
  lemma AllocationIsProportional(e: seq<Terms>, budget: real)
    requires e != [] && Positive(e)
    requires budget < |e| as real * 0.01 || forall i :: 0 <= i < |e| ==> Allocation(e, budget)[i] > 0.01
    ensures Proportional(e, budget, Allocation(e, budget))
  {
    AllocationIsPasses(e, budget);
    PassesAreProportional(e, budget);
  }

  lemma {:induction false} MultipleScales(n: nat, x: real, f: real)
    ensures Multiple(n, x * f) == Multiple(n, x) * f
  {
    if n == 0 {
      assert 0.0 * f == 0.0;
    } else {
      MultipleScales(n - 1, x, f);
      Distribute(Multiple(n - 1, x), x, f);
    }
  }

  lemma Distribute(x: real, y: real, f: real)
    ensures (x + y) * f == x * f + y * f
  {
  }

  lemma TimesInRatio(a: seq<real>, f: real, i: nat, j: nat, p: nat, q: nat)
    requires i < |a| && j < |a| && Multiple(q, a[i]) == Multiple(p, a[j])
    ensures Multiple(q, Times(a, f)[i]) == Multiple(p, Times(a, f)[j])
  {
    ScaledMultiple(a[i], Multiple(q, a[i]), Times(a, f)[i], q, f);
    ScaledMultiple(a[j], Multiple(q, a[i]), Times(a, f)[j], p, f);
  }

  lemma ScaledMultiple(x: real, u: real, y: real, n: nat, f: real)
    requires u == Multiple(n, x) && y == x * f
    ensures Multiple(n, y) == u * f
  {
    MultipleScales(n, x, f);
  }

  lemma RescaledInRatio(a: seq<real>, budget: real, i: nat, j: nat, p: nat, q: nat)
    requires i < |a| && j < |a| && Multiple(q, a[i]) == Multiple(p, a[j])
    ensures Multiple(q, Rescaled(a, budget)[i]) == Multiple(p, Rescaled(a, budget)[j])
  {
    var f := RescaleFactor(a, budget);
    TimesInRatio(a, f, i, j, p, q);
  }

  /** The ratio of priorities even survives the rescale, for desires the floor leaves alone. */
  lemma AllocationInRatio(e: seq<Terms>, budget: real, i: nat, j: nat)
    requires Positive(e) && i < |e| && j < |e|
    ensures && Passes(e, budget)[i] < e[i].ceiling && Floored(Passes(e, budget), budget)[i] == Passes(e, budget)[i]
            && Passes(e, budget)[j] < e[j].ceiling && Floored(Passes(e, budget), budget)[j] == Passes(e, budget)[j]
            ==> Multiple(e[j].priority, Allocation(e, budget)[i]) == Multiple(e[i].priority, Allocation(e, budget)[j])
  {
    var a := Passes(e, budget);
    if a[i] < e[i].ceiling && a[j] < e[j].ceiling && Floored(a, budget)[i] == a[i] && Floored(a, budget)[j] == a[j] {
      PassesInRatio(e, budget, i, j);
      RescaledInRatio(Floored(a, budget), budget, i, j, e[i].priority, e[j].priority);
    }
  }

  // ---------------------------------------------------------------- the arbiter

  /** Desire `i` is in the table, with the value `x` when no chain is listed twice. */
  ghost predicate Entry(e: seq<Terms>, allocations: map<string, real>, i: nat, x: real)
    requires i < |e|
  {
    e[i].chainId in allocations && (Distinct(e) ==> allocations[e[i].chainId] == x)
  }

  /** The table after recording `v` for the first `n` desires. */
  ghost predicate Table(e: seq<Terms>, allocations: map<string, real>, v: seq<real>, n: nat)
    requires |v| == |e| && n <= |e|
  {
    (forall id :: id in allocations ==> Listed(e, id)) && forall i :: 0 <= i < n ==> Entry(e, allocations, i, v[i])
  }

  lemma TableExtend(e: seq<Terms>, allocations: map<string, real>, v: seq<real>, n: nat, x: real)
    requires |v| == |e| && n < |e| && Table(e, allocations, v, n) && x == v[n]
    ensures Table(e, allocations[e[n].chainId := x], v, n + 1)
  {
  }

  lemma TableUpdate(e: seq<Terms>, allocations: map<string, real>, v: seq<real>, m: nat, x: real)
    requires |v| == |e| && m < |e| && Table(e, allocations, v, |e|)
    ensures Table(e, allocations[e[m].chainId := x], v[m := x], |e|)
  {
  }

  /** The positions, among the first `n`, of the desires pass 1 did not cap. */
  ghost predicate AreUncapped(e: seq<Terms>, shares: seq<real>, n: nat, members: set<nat>)
    requires |shares| == |e| && n <= |e|
  {
    forall i: nat :: i in members <==> i < n && shares[i] <= e[i].ceiling
  }

  lemma SumPrefix(s: seq<real>, n: nat)
    requires n < |s|
    ensures Sum(s[..n + 1]) == Sum(s[..n]) + s[n]
  {
    assert s[..n + 1][..n] == s[..n];
  }

  method FirstPass(e: seq<Terms>, shares: seq<real>)
    returns (allocations: map<string, real>, surplus: real, uncapped: set<nat>)
    requires |shares| == |e|
    ensures Table(e, allocations, First(e, shares), |e|)
    ensures surplus == Sum(Excess(e, shares))
    ensures AreUncapped(e, shares, |e|, uncapped)
  {
    allocations, surplus, uncapped := map[], 0.0, {};
    ghost var first, excess := First(e, shares), Excess(e, shares);
    for n := 0 to |e|
      invariant Table(e, allocations, first, n)
      invariant surplus == Sum(excess[..n])
      invariant AreUncapped(e, shares, n, uncapped)
    {
      SumPrefix(excess, n);
      if shares[n] > e[n].ceiling {
        TableExtend(e, allocations, first, n, e[n].ceiling);
        surplus := surplus + (shares[n] - e[n].ceiling);
        allocations := allocations[e[n].chainId := e[n].ceiling];
      } else {
        TableExtend(e, allocations, first, n, shares[n]);
        allocations := allocations[e[n].chainId := shares[n]];
        uncapped := uncapped + {n};
      }
    }
    assert excess[..|e|] == excess;
  }

  /** The portion of the surplus each uncapped desire is due. */
  method Redistribution(e: seq<Terms>, shares: seq<real>, surplus: real, uncapped: set<nat>) returns (extras: seq<real>)
    requires |shares| == |e| && AreUncapped(e, shares, |e|, uncapped)
    requires surplus == Sum(Excess(e, shares))
    ensures extras == Extras(e, shares)
  {
    var uncappedWeight := 0.0;
    ghost var weights := Uncapped(e, shares);
    for n := 0 to |e|
      invariant uncappedWeight == Sum(weights[..n])
    {
      SumPrefix(weights, n);
      if n in uncapped {
        uncappedWeight := uncappedWeight + e[n].priority as real;
      }
    }
    assert weights[..|e|] == weights;
    if uncapped == {} {
      SumConstant(weights, 0.0);
    }
    if surplus > EPS && uncapped != {} && uncappedWeight > EPS {
      extras := Portions(Uncapped(e, shares), uncappedWeight, surplus);
    } else {
      extras := Constant(|e|, 0.0);
    }
  }

  lemma ExtrasOfCapped(e: seq<Terms>, shares: seq<real>)
    requires |shares| == |e|
    ensures forall i :: 0 <= i < |e| && shares[i] > e[i].ceiling ==> Extras(e, shares)[i] == 0.0
  {
  }

  /** A desire pass 1 capped is where pass 2 leaves it. */
  lemma CappedStays(e: seq<Terms>, shares: seq<real>, extras: seq<real>, m: nat)
    requires |shares| == |e| == |extras| && m < |e| && shares[m] > e[m].ceiling && extras[m] == 0.0
    ensures Second(e, shares, extras)[m] == First(e, shares)[m]
  {
  }

  method SecondPass(
      e: seq<Terms>, shares: seq<real>, extras: seq<real>, allocations: map<string, real>, uncapped: set<nat>)
    returns (result: map<string, real>)
    requires |shares| == |e| == |extras|
    requires Table(e, allocations, First(e, shares), |e|)
    requires AreUncapped(e, shares, |e|, uncapped)
    requires forall i :: 0 <= i < |e| && shares[i] > e[i].ceiling ==> extras[i] == 0.0
    ensures Table(e, result, Second(e, shares, extras), |e|)
  {
    result := allocations;
    ghost var first, second := First(e, shares), Second(e, shares, extras);
    ghost var v := first;
    for m := 0 to |e|
      invariant |v| == |e| && Table(e, result, v, |e|)
      invariant forall i :: 0 <= i < |e| ==> v[i] == if i < m then second[i] else first[i]
    {
      assert Entry(e, result, m, v[m]);
      if m in uncapped {
        var newAlloc := MinR(result[e[m].chainId] + extras[m], e[m].ceiling);
        TableUpdate(e, result, v, m, newAlloc);
        result := result[e[m].chainId := newAlloc];
      } else {
        CappedStays(e, shares, extras, m);
      }
      v := v[m := second[m]];
    }
    assert v == second;
  }

  /** The sum of the table's values, each chain once. */
  method TotalOf(e: seq<Terms>, allocations: map<string, real>, ghost v: seq<real>) returns (total: real)
    requires |v| == |e| && Table(e, allocations, v, |e|)
    ensures Distinct(e) ==> total == Sum(v)
  {
    total := 0.0;
    var seen: set<string> := {};
    for n := 0 to |e|
      invariant forall id :: id in seen ==> exists i :: 0 <= i < n && e[i].chainId == id
      invariant Distinct(e) ==> total == Sum(v[..n])
    {
      SumPrefix(v, n);
      assert Entry(e, allocations, n, v[n]);
      if e[n].chainId !in seen {
        total := total + allocations[e[n].chainId];
        seen := seen + {e[n].chainId};
      }
    }
    assert v[..|e|] == v;
  }

  /** The floor, the rescale and the resulting policies, from the table after both passes. */
  method Finish(e: seq<Terms>, budget: real, passed: map<string, real>, ghost a: seq<real>)
    returns (r: Result<map<string, Terms>, ArithmeticError>)
    requires e != [] && |a| == |e| && Table(e, passed, a, |e|) && Sum(a) <= budget
    ensures r.Ok? ==> Covers(r.value.Keys, e)
    ensures Distinct(e) ==>
              && r.Ok?
              && forall i :: 0 <= i < |e| ==>
                   e[i].chainId in r.value &&
                   r.value[e[i].chainId] == e[i].(ceiling := Rescaled(Floored(a, budget), budget)[i])
  {
    var allocations := passed;
    if budget >= |e| as real * FLOOR {
      allocations := map id | id in allocations :: MaxR(allocations[id], FLOOR);
    }
    ghost var floored := Floored(a, budget);
    var total := TotalOf(e, allocations, floored);
    RescaleDefined(a, budget);
    ghost var v := floored;
    if total > budget + EPS {
      if total == 0.0 {
        return Err(DivisionByZero);
      }
      allocations := ScaleTable(e, allocations, floored, budget / total);
      v := Times(floored, budget / total);
    }
    assert Distinct(e) ==> v == Rescaled(floored, budget);
    var result := Policies(e, allocations, v);
    return Ok(result);
  }

  /** The policies issued from a complete table. */
  method Policies(e: seq<Terms>, allocations: map<string, real>, ghost v: seq<real>)
    returns (result: map<string, Terms>)
    requires |v| == |e| && Table(e, allocations, v, |e|)
    ensures Covers(result.Keys, e)
    ensures Distinct(e) ==> forall i :: 0 <= i < |e| ==>
              e[i].chainId in result && result[e[i].chainId] == e[i].(ceiling := v[i])
  {
    forall i | 0 <= i < |e| ensures e[i].chainId in allocations {
      assert Entry(e, allocations, i, v[i]);
    }
    var policies := Allocated(e, allocations);
    SameChains(policies, e);
    result := Issue(policies);
    if Distinct(e) {
      forall i | 0 <= i < |e|
        ensures e[i].chainId in result && result[e[i].chainId] == e[i].(ceiling := v[i])
      {
        assert Entry(e, allocations, i, v[i]);
        assert Final(policies, i, |policies|);
        assert Listed(policies, policies[i].chainId);
      }
    }
  }

  method ScaleTable(e: seq<Terms>, allocations: map<string, real>, ghost v: seq<real>, scale: real)
    returns (scaled: map<string, real>)
    requires |v| == |e| && Table(e, allocations, v, |e|)
    ensures Table(e, scaled, Times(v, scale), |e|)
  {
    scaled := map id | id in allocations :: allocations[id] * scale;
  }

  /** Every desire with the ceiling its chain was allocated. */
  function Allocated(e: seq<Terms>, allocations: map<string, real>): (p: seq<Terms>)
    requires forall i :: 0 <= i < |e| ==> e[i].chainId in allocations
    ensures |p| == |e|
    ensures forall i :: 0 <= i < |e| ==> p[i] == e[i].(ceiling := allocations[e[i].chainId])
  {
    seq(|e|, i requires 0 <= i < |e| => e[i].(ceiling := allocations[e[i].chainId]))
  }

  /** Exactly the eligible chains are answered; when no chain is listed twice, each with its allocation. */
  method Arbitrate(desires: seq<Terms>, budget: real) returns (r: Result<map<string, Terms>, ArithmeticError>)
    ensures var e := Eligible(desires);
            && (e == [] ==> r == Ok(map[]))
            && (r.Ok? ==> Covers(r.value.Keys, e))
            && (e != [] && Distinct(e) ==>
                  && r.Ok?
                  && forall i :: 0 <= i < |e| ==>
                       e[i].chainId in r.value &&
                       r.value[e[i].chainId] == e[i].(ceiling := Allocation(e, budget)[i]))
    ensures var e := Eligible(desires);
            e != [] && Distinct(e) ==>
              var a := Ceilings(e, r.value);
              budget < |e| as real * 0.01 || (forall i :: 0 <= i < |e| ==> a[i] > 0.01) ==> Proportional(e, budget, a)
  {
    var e := Eligible(desires);
    if e == [] {
      return Ok(map[]);
    }
    var shares := Shares(e, budget);
    var allocations, surplus, uncapped := FirstPass(e, shares);
    var extras := Redistribution(e, shares, surplus, uncapped);
    ExtrasOfCapped(e, shares);
    allocations := SecondPass(e, shares, extras, allocations, uncapped);
    PassesWithinBudget(e, budget);
    r := Finish(e, budget, allocations, Passes(e, budget));
    if Distinct(e) {
      CeilingsAreAllocation(e, budget, r.value);
    }
  }

  /** The ceilings of the policies answered, in the order of the desires. */
  ghost function Ceilings(e: seq<Terms>, policies: map<string, Terms>): (a: seq<real>)
    ensures |a| == |e|
  {
    seq(|e|, i requires 0 <= i < |e| => if e[i].chainId in policies then policies[e[i].chainId].ceiling else 0.0)
  }

  lemma CeilingsAreAllocation(e: seq<Terms>, budget: real, policies: map<string, Terms>)
    requires e != [] && Positive(e)
    requires forall i :: 0 <= i < |e| ==>
               e[i].chainId in policies && policies[e[i].chainId] == e[i].(ceiling := Allocation(e, budget)[i])
    ensures var a := Ceilings(e, policies);
            budget < |e| as real * 0.01 || (forall i :: 0 <= i < |e| ==> a[i] > 0.01) ==> Proportional(e, budget, a)
  {
    var a := Ceilings(e, policies);
    assert a == Allocation(e, budget);
    if budget < |e| as real * 0.01 || (forall i :: 0 <= i < |e| ==> a[i] > 0.01) {
      AllocationIsProportional(e, budget);
    }
  }
}
