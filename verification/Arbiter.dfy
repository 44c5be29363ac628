/** What an arbiter works on, and the default pass-through arbiter. */
module Arbiter {
  import opened Basics

  /**
   A chain's limits. The planner's DesiredPolicy and the PolicyConfig an arbiter
   issues share these fields; the arbiters only ever change the ceiling.
   */
  datatype Terms = Terms(
    chainId: string,
    ceiling: real,
    ceilingSteps: int,
    ceilingTokensOut: int,
    onExceed: string,
    fallbackModel: Option<string>,
    timeoutMs: int,
    priority: int)

  /** Some desire is for chain `id`. */
  ghost predicate Listed(desires: seq<Terms>, id: string) {
    exists i :: 0 <= i < |desires| && desires[i].chainId == id
  }

  /** The keys are exactly the chains listed. */
  ghost predicate Covers(keys: set<string>, desires: seq<Terms>) {
    forall id :: id in keys <==> Listed(desires, id)
  }

  ghost predicate Distinct(desires: seq<Terms>) {
    forall i, j :: 0 <= i < j < |desires| ==> desires[i].chainId != desires[j].chainId
  }

  lemma SameChains(a: seq<Terms>, b: seq<Terms>)
    requires |a| == |b| && forall i :: 0 <= i < |a| ==> a[i].chainId == b[i].chainId
    ensures forall id :: Listed(a, id) <==> Listed(b, id)
  {
  }

  function TotalDesired(desires: seq<Terms>): real {
    if desires == [] then 0.0
    else TotalDesired(desires[..|desires| - 1]) + desires[|desires| - 1].ceiling
  }

  function Scale(desires: seq<Terms>, budget: real): real {
    var total := TotalDesired(desires);
    if total > budget && total > 0.0 then budget / total else 1.0
  }

  function ScaledBy(d: Terms, factor: real): Terms {
    d.(ceiling := d.ceiling * factor)
  }

  function Scaled(desires: seq<Terms>, factor: real): (r: seq<Terms>)
    ensures |r| == |desires|
    ensures forall i :: 0 <= i < |r| ==> r[i] == ScaledBy(desires[i], factor)
  {
    seq(|desires|, i requires 0 <= i < |desires| => ScaledBy(desires[i], factor))
  }

  /** Nothing between `i` and `n` answers for the same chain. */
  ghost predicate Final(desires: seq<Terms>, i: nat, n: nat)
    requires i < n <= |desires|
  {
    forall j :: i < j < n ==> desires[j].chainId != desires[i].chainId
  }

  /** A dict filled in order: every chain ends with its last entry. */
  method Issue(policies: seq<Terms>) returns (result: map<string, Terms>)
    ensures Covers(result.Keys, policies)
    ensures forall i :: 0 <= i < |policies| && Final(policies, i, |policies|) ==>
              result[policies[i].chainId] == policies[i]
  {
    result := map[];
    for n := 0 to |policies|
      invariant forall i :: 0 <= i < n ==> policies[i].chainId in result
      invariant forall id :: id in result ==> exists i :: 0 <= i < n && policies[i].chainId == id
      invariant forall i :: 0 <= i < n && Final(policies, i, n) ==> result[policies[i].chainId] == policies[i]
    {
      result := result[policies[n].chainId := policies[n]];
    }
  }

  /** Every chain gets its (last) desire, scaled down by the common factor. */
  method Passthrough(desires: seq<Terms>, budget: real) returns (result: map<string, Terms>)
    ensures Covers(result.Keys, desires)
    ensures forall i :: 0 <= i < |desires| && Final(desires, i, |desires|) ==>
              result[desires[i].chainId] == ScaledBy(desires[i], Scale(desires, budget))
  {
    if desires == [] {
      return map[];
    }
    var totalDesired := TotalDesired(desires);
    var scale := 1.0;
    if totalDesired > budget && totalDesired > 0.0 {
      scale := budget / totalDesired;
    }
    var policies := Scaled(desires, scale);
    result := Issue(policies);
    SameChains(policies, desires);
    forall i | 0 <= i < |desires| && Final(desires, i, |desires|)
      ensures Final(policies, i, |policies|)
    {
    }
  }

  lemma {:induction false} TotalScales(desires: seq<Terms>, factor: real)
    ensures TotalDesired(Scaled(desires, factor)) == TotalDesired(desires) * factor
  {
    if desires != [] {
      var earlier := desires[..|desires| - 1];
      TotalScales(earlier, factor);
      assert Scaled(desires, factor)[..|desires| - 1] == Scaled(earlier, factor);
    }
  }

  /**
   The scaled ceilings fill the budget when the desires add up to more than it and to
   something positive, and are left alone otherwise.
   */
  lemma PassthroughTotal(desires: seq<Terms>, budget: real)
    ensures var total := TotalDesired(desires);
            TotalDesired(Scaled(desires, Scale(desires, budget)))
            == if total > budget && total > 0.0 then budget else total
  {
    TotalScales(desires, Scale(desires, budget));
  }

  /** The total of desires is theirs one by one. */
  lemma {:induction false} TotalDesiredAdds(a: seq<Terms>, b: seq<Terms>)
    ensures TotalDesired([]) == 0.0
    ensures forall d :: TotalDesired([d]) == d.ceiling
    ensures TotalDesired(a + b) == TotalDesired(a) + TotalDesired(b)
  {
    forall d: Terms ensures TotalDesired([d]) == d.ceiling {
      assert [d][..0] == [];
    }
    if b == [] {
      assert a + b == a;
    } else {
      var n := |b| - 1;
      TotalDesiredAdds(a, b[..n]);
      assert (a + b)[..|a + b| - 1] == a + b[..n];
    }
  }

  /**
   A policy differs from its desire in the ceiling only, and the budget is shared in
   proportion to the desired ceilings.
   */
  lemma ScaledInProportion(d: Terms, desires: seq<Terms>, budget: real)
    ensures var policy, total := ScaledBy(d, Scale(desires, budget)), TotalDesired(desires);
            && policy == d.(ceiling := policy.ceiling)
            && (total > budget && total > 0.0 ==> policy.ceiling * total == d.ceiling * budget)
            && (total <= budget || total <= 0.0 ==> policy.ceiling == d.ceiling)
  {
    var total := TotalDesired(desires);
    if total > budget && total > 0.0 {
      Quotient(d.ceiling, budget, total);
    }
  }

  lemma Quotient(x: real, budget: real, total: real)
    requires total > 0.0
    ensures x * (budget / total) * total == x * budget
  {
    var f := budget / total;
    assert f * total == budget;
    assert (x * f) * total == x * (f * total);
  }
}
