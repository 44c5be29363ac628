/**
 What the clients of the distributed budget may spend: the ceilings they were
 granted, backed by a reservation or not, in runs with refusals, lapsed
 reservations and retries.
 */
module RedisGrants {
  import opened Basics
  import opened RedisBudget

  /**
   A ceiling a client was granted and has not settled yet, and whether its reservation
   covered it when it was granted.
   */
  datatype Held = Held(ceiling: real, backed: bool)

  function Granted(total: int, s: Shared, k: Key, desired: real): Held {
    var after, ceiling := AfterReserve(total, s, k, ToMicro(desired)), Grant(total, s, k, desired);
    Held(ceiling, k in after.live && ToMicro(ceiling) <= after.live[k])
  }

  function GrantsAfter(total: int, s: Shared, grants: map<Key, Held>, call: Call): map<Key, Held> {
    match call
    case Arbitrate(k, desired) => grants[k := Granted(total, s, k, desired)]
    case Complete(k, _) => grants - {k}
    case Lapse(_) => grants
  }

  /**
   The grants outstanding. A retry replaces the grant of its step; a reservation
   that lapses leaves its grant with the client.
   */
  function Grants(total: int, calls: seq<Call>): map<Key, Held> {
    if calls == [] then map[]
    else
      var earlier := calls[..|calls| - 1];
      GrantsAfter(total, Run(total, Lower(earlier)), Grants(total, earlier), calls[|calls| - 1])
  }

  /** A desire is not negative, and a completion settles a grant and keeps within it. */
  predicate Allowed(grants: map<Key, Held>, call: Call) {
    match call
    case Arbitrate(k, desired) => desired >= 0.0
    case Complete(k, cost) => k in grants && 0.0 <= cost <= grants[k].ceiling
    case Lapse(_) => true
  }

  /**
   Every step keeps its cost between zero and what it was granted last, refused
   reserves, lapsed reservations and retries included.
   */
  ghost predicate WithinGrants(total: int, calls: seq<Call>) {
    calls == [] ||
    (var earlier := calls[..|calls| - 1];
     WithinGrants(total, earlier) && Allowed(Grants(total, earlier), calls[|calls| - 1]))
  }

  /** The backed grants whose reservations lapsed. */
  function Lapsed(grants: map<Key, Held>, s: Shared): map<Key, Held> {
    map k | k in grants && grants[k].backed && k !in s.live :: grants[k]
  }

  /** The grants nothing was reserved for, or too little. */
  function Loose(grants: map<Key, Held>): map<Key, Held> {
    map k | k in grants && IsLoose(grants, k) :: grants[k]
  }

  predicate IsLoose(grants: map<Key, Held>, k: Key) {
    k in grants && !grants[k].backed
  }

  function Size(h: Held): int {
    ToMicro(h.ceiling)
  }

  /** What is reserved for outstanding grants, or was until it lapsed. */
  ghost function Secured(grants: map<Key, Held>, s: Shared): int {
    SumInt(s.live, Amount) + SumInt(Lapsed(grants, s), Size)
  }

  /** Live reservations belong to outstanding grants and cover those that count as backed. */
  ghost predicate Matched(grants: map<Key, Held>, s: Shared) {
    && (forall k :: k in s.live ==> k in grants && s.live[k] >= 0)
    && (forall k :: k in s.live && k in grants && grants[k].backed ==> Size(grants[k]) <= s.live[k])
    && (forall k :: k in grants ==> grants[k].ceiling >= 0.0)
    && (grants != map[] ==> s.remaining.Some?)
    && (s.remaining.Some? ==> s.remaining.value >= 0)
  }

  // ---------------------------------------------------------------- one call

  lemma SizesNonNegative(grants: map<Key, Held>)
    requires forall k :: k in grants ==> grants[k].ceiling >= 0.0
    ensures forall k :: k in grants ==> Size(grants[k]) >= 0
    ensures SumInt(grants, Size) >= 0
  {
    forall k | k in grants ensures Size(grants[k]) >= 0 {
      MicroConversion(grants[k].ceiling, grants[k].ceiling, 0);
    }
    SumIntNonNegative(grants, Size);
  }

  lemma ArbitrateMatches(total: int, grants: map<Key, Held>, s: Shared, k: Key, desired: real)
    requires total >= 0 && Matched(grants, s) && desired >= 0.0
    ensures Matched(grants[k := Granted(total, s, k, desired)], AfterReserve(total, s, k, ToMicro(desired)))
  {
    MicroConversion(desired, desired, 0);
  }

  lemma CompleteMatches(grants: map<Key, Held>, s: Shared, k: Key, cost: real)
    requires Matched(grants, s) && k in grants && cost >= 0.0
    ensures Matched(grants - {k}, AfterSettle(s, k, ToMicro(cost)))
  {
    MicroConversion(cost, cost, 0);
  }

  lemma {:induction false} GrantsMatch(total: int, calls: seq<Call>)
    requires total >= 0 && WithinGrants(total, calls)
    ensures Matched(Grants(total, calls), Run(total, Lower(calls)))
  {
    if calls != [] {
      var earlier, call := calls[..|calls| - 1], calls[|calls| - 1];
      var grants, s := Grants(total, earlier), Run(total, Lower(earlier));
      GrantsMatch(total, earlier);
      LowerLast(calls);
      match call
      case Arbitrate(k, desired) => ArbitrateMatches(total, grants, s, k, desired);
      case Complete(k, cost) => CompleteMatches(grants, s, k, cost);
      case Lapse(k) =>
    }
  }

  /** Dropping a key from a sum of sizes that are not negative. */
  lemma DropSize(grants: map<Key, Held>, k: Key)
    requires forall l :: l in grants ==> grants[l].ceiling >= 0.0
    ensures SumInt(grants - {k}, Size) == SumInt(grants, Size) - (if k in grants then Size(grants[k]) else 0)
    ensures SumInt(grants - {k}, Size) <= SumInt(grants, Size)
  {
    if k in grants {
      SumIntSplit(grants, Size, k);
      MicroConversion(grants[k].ceiling, grants[k].ceiling, 0);
    } else {
      assert grants - {k} == grants;
    }
  }

  /** Arbitrating moves money from the counter to a reservation, or moves nothing. */
  lemma ArbitrateSecures(total: int, grants: map<Key, Held>, s: Shared, k: Key, desired: real)
    requires Matched(grants, s)
    ensures var grants', s' := grants[k := Granted(total, s, k, desired)], AfterReserve(total, s, k, ToMicro(desired));
            && SumInt(Lapsed(grants', s'), Size) <= SumInt(Lapsed(grants, s), Size)
            && Secured(grants', s') + Known(s', total) <= Secured(grants, s) + Known(s, total)
  {
    var grants', s' := grants[k := Granted(total, s, k, desired)], AfterReserve(total, s, k, ToMicro(desired));
    assert Lapsed(grants', s') == Lapsed(grants, s) - {k};
    DropSize(Lapsed(grants, s), k);
    if s'.live != s.live {
      SumIntInsert(s.live, Amount, k, ToMicro(desired));
    }
  }

  /** What a completion does to the lapsed and the live reservations. */
  lemma CompleteReleases(grants: map<Key, Held>, s: Shared, k: Key, cost: real)
    requires Matched(grants, s) && k in grants
    ensures var s' := AfterSettle(s, k, ToMicro(cost));
            && SumInt(s'.live, Amount) == SumInt(s.live, Amount) - (if k in s.live then s.live[k] else 0)
            && SumInt(Lapsed(grants - {k}, s'), Size)
               == SumInt(Lapsed(grants, s), Size) - (if k in Lapsed(grants, s) then Size(grants[k]) else 0)
  {
    assert Lapsed(grants - {k}, AfterSettle(s, k, ToMicro(cost))) == Lapsed(grants, s) - {k};
    DropSize(Lapsed(grants, s), k);
    if k in s.live {
      SumIntSplit(s.live, Amount, k);
    }
  }

  /** A completion is paid from what was secured for it, its loose grant, or the counter. */
  lemma CompletePays(grants: map<Key, Held>, s: Shared, k: Key, cost: real)
    requires Matched(grants, s) && k in grants && 0.0 <= cost <= grants[k].ceiling
    ensures var grants', s' := grants - {k}, AfterSettle(s, k, ToMicro(cost));
            && ToMicro(cost) + Secured(grants', s') + SumInt(Loose(grants'), Size)
               <= Secured(grants, s) + SumInt(Loose(grants), Size)
            && (|| ToMicro(cost) + Secured(grants', s') + Known(s', 0) <= Secured(grants, s) + Known(s, 0)
                || Known(s', 0) == 0)
  {
    CompleteReleases(grants, s, k, cost);
    MicroConversion(cost, grants[k].ceiling, 0);
    assert Loose(grants - {k}) == Loose(grants) - {k};
    DropSize(Loose(grants), k);
  }

  /** A reservation that lapses was at least the size of its backed grant. */
  lemma LapseReleases(grants: map<Key, Held>, s: Shared, k: Key)
    requires Matched(grants, s)
    ensures var s' := AfterExpiry(s, k);
            && SumInt(Lapsed(grants, s'), Size)
               <= SumInt(Lapsed(grants, s), Size) + (if k in s.live then s.live[k] else 0)
            && Secured(grants, s') <= Secured(grants, s)
  {
    var s', lapsed := AfterExpiry(s, k), Lapsed(grants, s);
    if k in s.live {
      SumIntSplit(s.live, Amount, k);
      if grants[k].backed {
        SumIntInsert(lapsed, Size, k, grants[k]);
        assert Lapsed(grants, s') == lapsed[k := grants[k]];
      } else {
        assert Lapsed(grants, s') == lapsed;
      }
    } else {
      assert Lapsed(grants, s') == lapsed && s' == s;
    }
  }

  lemma OneGrantSecured(grants: map<Key, Held>, s: Shared, k: Key)
    requires Matched(grants, s) && k in grants
    ensures var rest, s' := grants - {k}, Shared(s.remaining, s.live - {k});
            && Matched(rest, s')
            && Secured(rest, s') + SumInt(Loose(rest), Size) + Size(grants[k])
               <= Secured(grants, s) + SumInt(Loose(grants), Size)
  {
    var rest, s' := grants - {k}, Shared(s.remaining, s.live - {k});
    assert Lapsed(rest, s') == Lapsed(grants, s) - {k} && Loose(rest) == Loose(grants) - {k};
    DropSize(Lapsed(grants, s), k);
    DropSize(Loose(grants), k);
    if k in s.live {
      SumIntSplit(s.live, Amount, k);
    } else {
      assert s' == s;
    }
  }

  /** All grants together are at most what is secured and what is loose. */
  lemma {:induction false} SizesSecured(grants: map<Key, Held>, s: Shared)
    requires Matched(grants, s)
    ensures SumInt(grants, Size) <= Secured(grants, s) + SumInt(Loose(grants), Size)
    decreases |grants|
  {
    if grants == map[] {
      assert Lapsed(grants, s) == map[] && Loose(grants) == map[] && s.live == map[];
    } else {
      var k :| k in grants;
      OneGrantSecured(grants, s, k);
      SizesSecured(grants - {k}, Shared(s.remaining, s.live - {k}));
      SumIntSplit(grants, Size, k);
    }
  }

  // ---------------------------------------------------------------- what may still be charged

  /** The charges so far and all that the outstanding grants allow. */
  ghost function Exposure(total: int, calls: seq<Call>): int {
    Charged(Lower(calls)) + SumInt(Grants(total, calls), Size)
  }

  /** The run `all` goes on from `calls` without another arbitration. */
  ghost predicate Finishes(calls: seq<Call>, all: seq<Call>) {
    calls <= all && forall i :: |calls| <= i < |all| ==> !all[i].Arbitrate?
  }

  /** Some way of finishing what is outstanding, each step within its grant, charges past the total. */
  ghost predicate CanOverspend(total: int, calls: seq<Call>) {
    exists all :: OverspendsBy(total, calls, all)
  }

  ghost predicate OverspendsBy(total: int, calls: seq<Call>, all: seq<Call>) {
    Finishes(calls, all) && WithinGrants(total, all) && Charged(Lower(all)) > total
  }

  lemma ExposureStep(total: int, calls: seq<Call>)
    requires calls != [] && WithinGrants(total, calls) && !calls[|calls| - 1].Arbitrate?
    ensures Exposure(total, calls) <= Exposure(total, calls[..|calls| - 1])
    ensures calls[|calls| - 1].Complete? ==>
              var grants, call := Grants(total, calls[..|calls| - 1]), calls[|calls| - 1];
              Exposure(total, calls) == Exposure(total, calls[..|calls| - 1])
                  + ToMicro(call.cost) - Size(grants[call.key])
  {
    var earlier, call := calls[..|calls| - 1], calls[|calls| - 1];
    LowerLast(calls);
    if call.Complete? {
      SumIntSplit(Grants(total, earlier), Size, call.key);
      MicroConversion(call.cost, Grants(total, earlier)[call.key].ceiling, 0);
    }
  }

  /** Without arbitration the exposure never rises. */
  lemma {:induction false} ExposureNeverRises(total: int, calls: seq<Call>, all: seq<Call>)
    requires Finishes(calls, all) && WithinGrants(total, all)
    ensures Exposure(total, all) <= Exposure(total, calls)
    decreases |all|
  {
    if |all| == |calls| {
      assert all == calls;
    } else {
      ExposureStep(total, all);
      ExposureNeverRises(total, calls, all[..|all| - 1]);
    }
  }

  lemma CompleteFully(total: int, calls: seq<Call>, k: Key, longer: seq<Call>)
    requires total >= 0 && WithinGrants(total, calls) && k in Grants(total, calls)
    requires longer == calls + [Complete(k, Grants(total, calls)[k].ceiling)]
    ensures WithinGrants(total, longer) && Exposure(total, longer) == Exposure(total, calls)
    ensures Grants(total, longer) == Grants(total, calls) - {k}
  {
    assert longer[..|longer| - 1] == calls;
    GrantsMatch(total, calls);
    ExposureStep(total, longer);
  }

  lemma FinishesOneMore(calls: seq<Call>, call: Call, longer: seq<Call>, all: seq<Call>)
    requires longer == calls + [call] && !call.Arbitrate? && Finishes(longer, all)
    ensures Finishes(calls, all)
  {
    assert all[|calls|] == longer[|calls|];
  }

  /** Completing every grant at its ceiling charges all of it. */
  lemma {:induction false} FinishAll(total: int, calls: seq<Call>) returns (all: seq<Call>)
    requires total >= 0 && WithinGrants(total, calls)
    ensures Finishes(calls, all) && WithinGrants(total, all)
    ensures Charged(Lower(all)) == Exposure(total, calls)
    decreases Grants(total, calls).Keys
  {
    var grants := Grants(total, calls);
    if grants == map[] {
      all := calls;
    } else {
      var k :| k in grants;
      var call := Complete(k, grants[k].ceiling);
      CompleteFully(total, calls, k, calls + [call]);
      all := FinishAll(total, calls + [call]);
      FinishesOneMore(calls, call, calls + [call], all);
    }
  }

  /**
   For every run within its grants: what is outstanding can be finished past the
   total if and only if the charges so far and the outstanding grants exceed it.
   */
  lemma OverspendsExactlyWhen(total: int, calls: seq<Call>)
    requires total >= 0 && WithinGrants(total, calls)
    ensures CanOverspend(total, calls) <==> Exposure(total, calls) > total
  {
    if Exposure(total, calls) > total {
      var all := FinishAll(total, calls);
      assert OverspendsBy(total, calls, all);
    }
    forall all | OverspendsBy(total, calls, all) ensures Exposure(total, calls) > total {
      ExposureNeverRises(total, calls, all);
      GrantsMatch(total, all);
      SizesNonNegative(Grants(total, all));
    }
  }

  // ---------------------------------------------------------------- careful arbitration

  /** Every other grant outstanding is backed, and a retry asks for no more than its live reservation. */
  ghost predicate CarefulCall(grants: map<Key, Held>, s: Shared, call: Call) {
    call.Arbitrate? ==>
      && (forall l :: l in grants && l != call.key ==> grants[l].backed)
      && (call.key in s.live ==> ToMicro(call.ceiling) <= s.live[call.key])
  }

  /** Nobody arbitrates beside a grant that is not backed. */
  ghost predicate Careful(total: int, calls: seq<Call>) {
    calls == [] ||
    (var earlier := calls[..|calls| - 1];
     Careful(total, earlier) && CarefulCall(Grants(total, earlier), Run(total, Lower(earlier)), calls[|calls| - 1]))
  }

  /** The charges with everything secured, and either the counter or the loose grants, stay within the total. */
  ghost predicate Within(total: int, charged: int, grants: map<Key, Held>, s: Shared) {
    && charged + Secured(grants, s) + Known(s, total) <= total
    && charged + Secured(grants, s) + SumInt(Loose(grants), Size) <= total
  }

  /** After a careful arbitration at most its own grant is loose. */
  lemma CarefulLoose(total: int, grants: map<Key, Held>, s: Shared, k: Key, desired: real)
    requires CarefulCall(grants, s, Arbitrate(k, desired))
    ensures var held := Granted(total, s, k, desired);
            SumInt(Loose(grants[k := held]), Size) == if held.backed then 0 else Size(held)
  {
    var held := Granted(total, s, k, desired);
    if held.backed {
      assert Loose(grants[k := held]) == map[];
    } else {
      SumIntInsert(map[], Size, k, held);
      assert Loose(grants[k := held]) == map[][k := held];
    }
  }

  /** A loose grant careful arbitration hands out is what is left. */
  lemma CarefulGrant(total: int, grants: map<Key, Held>, s: Shared, k: Key, desired: real)
    requires total >= 0 && Matched(grants, s) && CarefulCall(grants, s, Arbitrate(k, desired))
    ensures var held, s' := Granted(total, s, k, desired), AfterReserve(total, s, k, ToMicro(desired));
            Known(s', total) >= 0 && (held.backed || Size(held) == Known(s', total))
  {
    MicroConversion(0.0, 0.0, Known(s, total));
  }

  lemma ArbitrateStaysWithin(total: int, charged: int, grants: map<Key, Held>, s: Shared, k: Key, desired: real)
    requires total >= 0 && Matched(grants, s) && Within(total, charged, grants, s) && desired >= 0.0
    requires CarefulCall(grants, s, Arbitrate(k, desired))
    ensures Within(total, charged,
                   grants[k := Granted(total, s, k, desired)], AfterReserve(total, s, k, ToMicro(desired)))
  {
    ArbitrateSecures(total, grants, s, k, desired);
    CarefulLoose(total, grants, s, k, desired);
    CarefulGrant(total, grants, s, k, desired);
  }

  lemma CompleteStaysWithin(total: int, charged: int, grants: map<Key, Held>, s: Shared, k: Key, cost: real)
    requires Matched(grants, s) && Within(total, charged, grants, s)
    requires k in grants && 0.0 <= cost <= grants[k].ceiling
    ensures Within(total, charged + ToMicro(cost), grants - {k}, AfterSettle(s, k, ToMicro(cost)))
  {
    CompletePays(grants, s, k, cost);
    CompleteMatches(grants, s, k, cost);
    SizesNonNegative(Loose(grants - {k}));
  }

  lemma {:induction false} CarefulStaysWithin(total: int, calls: seq<Call>)
    requires total >= 0 && WithinGrants(total, calls) && Careful(total, calls)
    ensures Within(total, Charged(Lower(calls)), Grants(total, calls), Run(total, Lower(calls)))
  {
    if calls == [] {
      assert Lapsed(map[], EMPTY) == map[] && Loose(map[]) == map[];
    } else {
      var earlier, call := calls[..|calls| - 1], calls[|calls| - 1];
      var grants, s := Grants(total, earlier), Run(total, Lower(earlier));
      CarefulStaysWithin(total, earlier);
      GrantsMatch(total, earlier);
      LowerLast(calls);
      match call
      case Arbitrate(k, desired) => ArbitrateStaysWithin(total, Charged(Lower(earlier)), grants, s, k, desired);
      case Complete(k, cost) => CompleteStaysWithin(total, Charged(Lower(earlier)), grants, s, k, cost);
      case Lapse(k) => LapseReleases(grants, s, k);
    }
  }

  /**
   With any number of grants outstanding, refusals, lapses and retries included:
   if nobody arbitrates beside a grant that is not backed, what was charged and all
   that is still granted stay within the total.
   */
  lemma CarefulNeverOverspends(total: int, calls: seq<Call>)
    requires total >= 0 && WithinGrants(total, calls) && Careful(total, calls)
    ensures Exposure(total, calls) <= total && Charged(Lower(calls)) <= total && !CanOverspend(total, calls)
  {
    CarefulStaysWithin(total, calls);
    GrantsMatch(total, calls);
    SizesSecured(Grants(total, calls), Run(total, Lower(calls)));
    SizesNonNegative(Grants(total, calls));
    OverspendsExactlyWhen(total, calls);
  }

  /** Each step completes before the next one arbitrates. */
  ghost predicate OneAtATime(total: int, calls: seq<Call>) {
    calls == [] ||
    (&& OneAtATime(total, calls[..|calls| - 1])
     && (calls[|calls| - 1].Arbitrate? ==> Grants(total, calls[..|calls| - 1]) == map[]))
  }

  lemma {:induction false} TurnsAreCareful(total: int, calls: seq<Call>)
    requires total >= 0 && WithinGrants(total, calls) && OneAtATime(total, calls)
    ensures Careful(total, calls)
  {
    if calls != [] {
      TurnsAreCareful(total, calls[..|calls| - 1]);
      GrantsMatch(total, calls[..|calls| - 1]);
    }
  }

  /** Steps that take turns never charge more than the total. */
  lemma TurnsNeverOverspend(total: int, calls: seq<Call>)
    requires total >= 0 && WithinGrants(total, calls) && OneAtATime(total, calls)
    ensures Charged(Lower(calls)) <= total
  {
    TurnsAreCareful(total, calls);
    CarefulNeverOverspends(total, calls);
  }

  // ---------------------------------------------------------------- careless arbitration

  /** What settles of loose grants charged beyond what was left. */
  function Shortfall(total: int, calls: seq<Call>): int {
    if calls == [] then 0
    else
      var earlier, call := calls[..|calls| - 1], calls[|calls| - 1];
      var grants, s := Grants(total, earlier), Run(total, Lower(earlier));
      Shortfall(total, earlier) +
      if call.Complete? && IsLoose(grants, call.key) then Overdraft(s, Settle(call.key, ToMicro(call.cost))) else 0
  }

  /** Such a run sends no negative amount. */
  lemma {:induction false} GrantsNonNegative(total: int, calls: seq<Call>)
    requires WithinGrants(total, calls)
    ensures NonNegative(Lower(calls))
  {
    if calls != [] {
      var call := calls[|calls| - 1];
      GrantsNonNegative(total, calls[..|calls| - 1]);
      LowerLast(calls);
      match call
      case Arbitrate(k, desired) => MicroConversion(desired, desired, 0);
      case Complete(k, cost) => MicroConversion(cost, cost, 0);
      case Lapse(k) =>
    }
  }

  /** And it opens with a reserve. */
  lemma {:induction false} GrantsOpen(total: int, calls: seq<Call>)
    requires total >= 0 && WithinGrants(total, calls)
    ensures Opening(total, Lower(calls)) == None || Opening(total, Lower(calls)) == Some(total)
  {
    if calls != [] {
      var earlier := calls[..|calls| - 1];
      GrantsOpen(total, earlier);
      GrantsMatch(total, earlier);
      LowerLast(calls);
      Conservation(total, Lower(earlier));
    }
  }

  /**
   The part of the clamp's forgiveness a completion adds is covered by its lapsed
   reservation, unless its grant was loose.
   */
  lemma CompletionCovered(grants: map<Key, Held>, s: Shared, k: Key, cost: real)
    requires Matched(grants, s) && k in grants && 0.0 <= cost <= grants[k].ceiling
    ensures var s', overdraft := AfterSettle(s, k, ToMicro(cost)), Overdraft(s, Settle(k, ToMicro(cost)));
            overdraft + SumInt(Lapsed(grants - {k}, s'), Size)
            <= SumInt(Lapsed(grants, s), Size) + (if IsLoose(grants, k) then overdraft else 0)
  {
    CompleteReleases(grants, s, k, cost);
    MicroConversion(cost, grants[k].ceiling, 0);
  }

  /** What the clamp forgave is covered by leaked reservations, up to the shortfall of loose grants. */
  lemma {:induction false} ForgivenIsCovered(total: int, calls: seq<Call>)
    requires total >= 0 && WithinGrants(total, calls)
    ensures Forgiven(total, Lower(calls)) + SumInt(Lapsed(Grants(total, calls), Run(total, Lower(calls))), Size)
            <= Leaked(total, Lower(calls)) + Shortfall(total, calls)
  {
    if calls == [] {
      assert Lapsed(map[], EMPTY) == map[];
    } else {
      var earlier, call := calls[..|calls| - 1], calls[|calls| - 1];
      var grants, s := Grants(total, earlier), Run(total, Lower(earlier));
      ForgivenIsCovered(total, earlier);
      GrantsMatch(total, earlier);
      LowerLast(calls);
      match call
      case Arbitrate(k, desired) => ArbitrateSecures(total, grants, s, k, desired);
      case Complete(k, cost) => CompletionCovered(grants, s, k, cost);
      case Lapse(k) => LapseReleases(grants, s, k);
    }
  }

  /**
   Whatever grants are outstanding together, the processes charge at most the
   total plus the shortfall of loose grants.
   */
  lemma OverspendIsShortfall(total: int, calls: seq<Call>)
    requires total >= 0 && WithinGrants(total, calls)
    ensures Charged(Lower(calls)) <= total + Shortfall(total, calls)
  {
    var ops, grants := Lower(calls), Grants(total, calls);
    GrantsMatch(total, calls);
    GrantsNonNegative(total, calls);
    GrantsOpen(total, calls);
    ForgivenIsCovered(total, calls);
    Conservation(total, ops);
    ReservationsNonNegative(total, ops);
    SumIntNonNegative(Run(total, ops).live, Amount);
    SizesNonNegative(Lapsed(grants, Run(total, ops)));
  }

  /** How many completions were of loose grants. */
  function LooseCompletions(total: int, calls: seq<Call>): nat {
    if calls == [] then 0
    else
      var earlier, call := calls[..|calls| - 1], calls[|calls| - 1];
      LooseCompletions(total, earlier) + if call.Complete? && IsLoose(Grants(total, earlier), call.key) then 1 else 0
  }

  /** Nobody retries a live step with a desire above `cap`. */
  ghost predicate RetriesAtMost(total: int, calls: seq<Call>, cap: int) {
    calls == [] ||
    (var earlier, call := calls[..|calls| - 1], calls[|calls| - 1];
     && RetriesAtMost(total, earlier, cap)
     && (call.Arbitrate? && call.key in Run(total, Lower(earlier)).live ==> ToMicro(call.ceiling) <= cap))
  }

  lemma {:induction false} LooseGrantsAreSmall(total: int, calls: seq<Call>, cap: int)
    requires 0 <= total <= cap && WithinGrants(total, calls) && RetriesAtMost(total, calls, cap)
    ensures forall k :: k in Grants(total, calls) && IsLoose(Grants(total, calls), k) ==>
              Size(Grants(total, calls)[k]) <= cap
  {
    if calls != [] {
      var earlier, call := calls[..|calls| - 1], calls[|calls| - 1];
      LooseGrantsAreSmall(total, earlier, cap);
      GrantsMatch(total, earlier);
      GrantsNonNegative(total, earlier);
      NeverOverReserved(total, Lower(earlier));
      if call.Arbitrate? {
        MicroConversion(call.ceiling, call.ceiling, Known(Run(total, Lower(earlier)), total));
      }
    }
  }

  lemma OverdraftAtMostCost(s: Shared, k: Key, actual: int)
    requires actual >= 0 && Known(s, 0) >= 0
    requires k in s.live ==> s.live[k] >= 0
    ensures Overdraft(s, Settle(k, actual)) <= actual
  {
  }

  lemma LooseCompletionAtMost(grants: map<Key, Held>, s: Shared, k: Key, cost: real, cap: int)
    requires Matched(grants, s) && k in grants && 0.0 <= cost <= grants[k].ceiling && Size(grants[k]) <= cap
    ensures Overdraft(s, Settle(k, ToMicro(cost))) <= cap
  {
    MicroConversion(cost, grants[k].ceiling, 0);
    OverdraftAtMostCost(s, k, ToMicro(cost));
  }

  lemma ShortfallStep(total: int, calls: seq<Call>, cap: int)
    requires 0 <= total <= cap && WithinGrants(total, calls) && RetriesAtMost(total, calls, cap) && calls != []
    ensures var earlier := calls[..|calls| - 1];
            Shortfall(total, calls) - Shortfall(total, earlier)
            <= if LooseCompletions(total, calls) == LooseCompletions(total, earlier) then 0 else cap
  {
    var earlier, call := calls[..|calls| - 1], calls[|calls| - 1];
    if call.Complete? && IsLoose(Grants(total, earlier), call.key) {
      GrantsMatch(total, earlier);
      LooseGrantsAreSmall(total, earlier, cap);
      LooseCompletionAtMost(Grants(total, earlier), Run(total, Lower(earlier)), call.key, call.cost, cap);
    }
  }

  lemma {:induction false} ShortfallBound(total: int, calls: seq<Call>, cap: int)
    requires 0 <= total <= cap && WithinGrants(total, calls) && RetriesAtMost(total, calls, cap)
    ensures Shortfall(total, calls) <= Repeated(LooseCompletions(total, calls), cap)
  {
    if calls != [] {
      ShortfallBound(total, calls[..|calls| - 1], cap);
      ShortfallStep(total, calls, cap);
    }
  }

  /**
   With any number of grants outstanding, each completion of a loose one costs at
   most one more cap: the total, or what live steps are retried with if that is more.
   */
  lemma GrantsOverspendBound(total: int, calls: seq<Call>, cap: int)
    requires 0 <= total <= cap && WithinGrants(total, calls) && RetriesAtMost(total, calls, cap)
    ensures Charged(Lower(calls)) <= total + Repeated(LooseCompletions(total, calls), cap)
  {
    OverspendIsShortfall(total, calls);
    ShortfallBound(total, calls, cap);
  }

  /** Never more than `m` grants outstanding at once. */
  ghost predicate OutstandingAtMost(total: int, calls: seq<Call>, m: nat) {
    |Grants(total, calls)| <= m && (calls != [] ==> OutstandingAtMost(total, calls[..|calls| - 1], m))
  }

  /** Where a run within its grants, at most two at a time, has got to. */
  datatype Reached = Reached(
      remaining: int, live: map<Key, int>, grants: map<Key, Held>, open: int, charged: int, loose: int)

  function NextReached(total: int, r: Reached, call: Call): Reached {
    var s := Shared(Some(r.remaining), r.live);
    var s' := Step(total, s, OpOf(call));
    Reached(Known(s', 0), s'.live, GrantsAfter(total, s, r.grants, call),
            r.open + (if call.Arbitrate? then 1 else if call.Complete? then -1 else 0),
            r.charged + (if call.Complete? then ToMicro(call.cost) else 0),
            r.loose + (if call.Complete? && IsLoose(r.grants, call.key) then 1 else 0))
  }

  /** The books of a run are these. */
  ghost predicate At(total: int, calls: seq<Call>, r: Reached) {
    && WithinGrants(total, calls)
    && (Run(total, Lower(calls)) == Shared(Some(r.remaining), r.live)
        || (Run(total, Lower(calls)) == EMPTY && r.remaining == total && r.live == map[] && r.grants == map[]))
    && Grants(total, calls) == r.grants
    && Charged(Lower(calls)) == r.charged && LooseCompletions(total, calls) == r.loose
  }

  predicate MayFollow(total: int, r: Reached, call: Call) {
    !call.Lapse? && Allowed(r.grants, call) && NextReached(total, r, call).open <= 2
  }

  /** One entry in the books; none if the call breaks the rules. */
  function Entry(total: int): (Reached, Call) -> Option<Reached> {
    (r: Reached, call: Call) => if MayFollow(total, r, call) then Some(NextReached(total, r, call)) else None
  }

  /** The books of a run of arbitrations and completions, kept call by call. */
  function Tracked(total: int, calls: seq<Call>): Option<Reached> {
    Fold(Reached(total, map[], map[], 0, 0, 0), calls, Entry(total))
  }

  lemma {:induction false} StateAfter(total: int, calls: seq<Call>, call: Call, all: seq<Call>)
    requires all == calls + [call]
    ensures Run(total, Lower(all)) == Step(total, Run(total, Lower(calls)), OpOf(call))
  {
    assert all[..|all| - 1] == calls;
    LowerLast(all);
  }

  lemma {:induction false} BooksAfter(total: int, calls: seq<Call>, call: Call, all: seq<Call>)
    requires all == calls + [call]
    ensures Charged(Lower(all)) == Charged(Lower(calls)) + (if call.Complete? then ToMicro(call.cost) else 0)
    ensures LooseCompletions(total, all)
            == LooseCompletions(total, calls) +
               (if call.Complete? && IsLoose(Grants(total, calls), call.key) then 1 else 0)
  {
    assert all[..|all| - 1] == calls;
    LowerLast(all);
  }

  lemma {:induction false} RulesAfter(total: int, calls: seq<Call>, call: Call, all: seq<Call>)
    requires all == calls + [call]
    ensures Grants(total, all) == GrantsAfter(total, Run(total, Lower(calls)), Grants(total, calls), call)
    ensures WithinGrants(total, calls) && Allowed(Grants(total, calls), call) ==> WithinGrants(total, all)
  {
    assert all[..|all| - 1] == calls;
  }

  /** What the server and the grants become, from the books. */
  lemma NextFromState(total: int, s: Shared, r: Reached, call: Call)
    requires MayFollow(total, r, call)
    requires s == Shared(Some(r.remaining), r.live)
             || (s == EMPTY && r.remaining == total && r.live == map[] && r.grants == map[])
    ensures var after := NextReached(total, r, call);
            && Step(total, s, OpOf(call)) == Shared(Some(after.remaining), after.live)
            && GrantsAfter(total, s, r.grants, call) == after.grants
  {
  }

  lemma {:induction false} AtAfter(total: int, calls: seq<Call>, r: Reached, call: Call, all: seq<Call>)
    requires At(total, calls, r) && MayFollow(total, r, call) && all == calls + [call]
    ensures At(total, all, NextReached(total, r, call))
  {
    NextFromState(total, Run(total, Lower(calls)), r, call);
    StateAfter(total, calls, call, all);
    BooksAfter(total, calls, call, all);
    RulesAfter(total, calls, call, all);
  }

  /** The books kept call by call are those of the run itself. */
  lemma {:induction false} TrackedIsRun(total: int, calls: seq<Call>)
    requires Tracked(total, calls).Some?
    ensures At(total, calls, Tracked(total, calls).value)
  {
    if calls != [] {
      var earlier, call := calls[..|calls| - 1], calls[|calls| - 1];
      TrackedIsRun(total, earlier);
      var r := Tracked(total, earlier).value;
      assert calls == earlier + [call];
      assert Tracked(total, calls) == Entry(total)(r, call);
      AtAfter(total, earlier, r, call, calls);
    }
  }

  lemma OpenCounts(total: int, r: Reached, call: Call)
    requires |r.grants| <= r.open && MayFollow(total, r, call)
    ensures |NextReached(total, r, call).grants| <= NextReached(total, r, call).open <= 2
  {
    if call.Complete? {
      MapShrinks(r.grants, call.key);
    } else {
      MapGrows(r.grants, call.key, NextReached(total, r, call).grants[call.key]);
    }
  }

  lemma {:induction false} AtMostTwoOpen(total: int, calls: seq<Call>)
    requires Tracked(total, calls).Some?
    ensures OutstandingAtMost(total, calls, 2)
    ensures |Tracked(total, calls).value.grants| <= Tracked(total, calls).value.open
  {
    TrackedIsRun(total, calls);
    if calls != [] {
      AtMostTwoOpen(total, calls[..|calls| - 1]);
      OpenCounts(total, Tracked(total, calls[..|calls| - 1]).value, calls[|calls| - 1]);
    }
  }

  /** One step is refused and granted all that remains, while another reserves it, spends nothing and is refunded. */
  function Round(k: Key, l: Key, total: int): seq<Call> {
    [Arbitrate(k, FromMicro(total + 1)), Arbitrate(l, FromMicro(total)), Complete(k, FromMicro(total)),
     Complete(l, FromMicro(0))]
  }

  function Rounds(n: nat, k: Key, l: Key, total: int): seq<Call> {
    if n == 0 then [] else Rounds(n - 1, k, l, total) + Round(k, l, total)
  }

  /** Nothing outstanding and everything there. */
  function Idle(total: int, charged: int, loose: int): Reached {
    Reached(total, map[], map[], 0, charged, loose)
  }

  function OnlyLoose(k: Key, total: int, charged: int, loose: int): Reached {
    Reached(total, map[], map[k := Held(FromMicro(total), false)], 1, charged, loose)
  }

  function OnlyReserved(l: Key, total: int, charged: int, loose: int): Reached {
    Reached(0, map[l := total], map[l := Held(FromMicro(total), true)], 1, charged, loose)
  }

  /** In the middle of a round: the loose grant beside the reserved one. */
  function Both(k: Key, l: Key, total: int, charged: int, loose: int): Reached {
    Reached(0, map[l := total], map[k := Held(FromMicro(total), false), l := Held(FromMicro(total), true)],
            2, charged, loose)
  }

  lemma MicroOf(n: nat)
    ensures ToMicro(FromMicro(n)) == n && FromMicro(n) >= 0.0 && FromMicro(0) == 0.0
  {
    MicroConversion(0.0, 0.0, n);
  }

  lemma RefusedEntry(total: nat, k: Key, charged: int, loose: int)
    ensures Entry(total)(Idle(total, charged, loose), Arbitrate(k, FromMicro(total + 1)))
            == Some(OnlyLoose(k, total, charged, loose))
  {
    MicroOf(total);
    MicroOf(total + 1);
  }

  lemma ReservedEntry(total: nat, l: Key, charged: int, loose: int)
    ensures Entry(total)(Idle(total, charged, loose), Arbitrate(l, FromMicro(total)))
            == Some(OnlyReserved(l, total, charged, loose))
  {
    MicroOf(total);
  }

  lemma ReservedBesideEntry(total: nat, k: Key, l: Key, charged: int, loose: int)
    requires k != l
    ensures Entry(total)(OnlyLoose(k, total, charged, loose), Arbitrate(l, FromMicro(total)))
            == Some(Both(k, l, total, charged, loose))
  {
    MicroOf(total);
  }

  lemma LooseEntry(total: nat, k: Key, l: Key, charged: int, loose: int)
    requires k != l
    ensures Entry(total)(Both(k, l, total, charged, loose), Complete(k, FromMicro(total)))
            == Some(OnlyReserved(l, total, charged + total, loose + 1))
  {
    MicroOf(total);
    assert Both(k, l, total, charged, loose).grants - {k} == OnlyReserved(l, total, charged, loose).grants;
  }

  lemma SettledEntry(total: nat, l: Key, spent: nat, charged: int, loose: int)
    requires spent <= total
    ensures Entry(total)(OnlyReserved(l, total, charged, loose), Complete(l, FromMicro(spent)))
            == Some(Reached(total - spent, map[], map[], 0, charged + spent, loose))
  {
    MicroOf(spent);
    var r := OnlyReserved(l, total, charged, loose);
    assert r.grants - {l} == map[] && r.live - {l} == map[];
  }

  lemma RoundSplits(calls: seq<Call>, k: Key, l: Key, total: nat, two: seq<Call>)
    requires two == calls + [Arbitrate(k, FromMicro(total + 1))] + [Arbitrate(l, FromMicro(total))]
    ensures calls + Round(k, l, total) == two + [Complete(k, FromMicro(total))] + [Complete(l, FromMicro(0))]
  {
  }

  /** The two arbitrations of a round. */
  lemma RoundOpens(total: nat, calls: seq<Call>, k: Key, l: Key, charged: int, loose: int, two: seq<Call>)
    requires k != l && Tracked(total, calls) == Some(Idle(total, charged, loose))
    requires two == calls + [Arbitrate(k, FromMicro(total + 1))] + [Arbitrate(l, FromMicro(total))]
    ensures Tracked(total, two) == Some(Both(k, l, total, charged, loose))
  {
    var start, entry := Idle(total, 0, 0), Entry(total);
    var one := calls + [Arbitrate(k, FromMicro(total + 1))];
    RefusedEntry(total, k, charged, loose);
    FoldOne(start, calls, entry, Idle(total, charged, loose), Arbitrate(k, FromMicro(total + 1)), one);
    ReservedBesideEntry(total, k, l, charged, loose);
    FoldOne(start, one, entry, OnlyLoose(k, total, charged, loose), Arbitrate(l, FromMicro(total)), two);
  }

  /** And its two completions. */
  lemma RoundCloses(total: nat, two: seq<Call>, k: Key, l: Key, charged: int, loose: int, all: seq<Call>)
    requires k != l && Tracked(total, two) == Some(Both(k, l, total, charged, loose))
    requires all == two + [Complete(k, FromMicro(total))] + [Complete(l, FromMicro(0))]
    ensures Tracked(total, all) == Some(Idle(total, charged + total, loose + 1))
  {
    var start, entry := Idle(total, 0, 0), Entry(total);
    var three := two + [Complete(k, FromMicro(total))];
    LooseEntry(total, k, l, charged, loose);
    FoldOne(start, two, entry, Both(k, l, total, charged, loose), Complete(k, FromMicro(total)), three);
    SettledEntry(total, l, 0, charged + total, loose + 1);
    FoldOne(start, three, entry, OnlyReserved(l, total, charged + total, loose + 1), Complete(l, FromMicro(0)), all);
  }

  lemma RoundKeepsTotal(total: nat, calls: seq<Call>, k: Key, l: Key, charged: int, loose: int)
    requires k != l && Tracked(total, calls) == Some(Idle(total, charged, loose))
    ensures Tracked(total, calls + Round(k, l, total)) == Some(Idle(total, charged + total, loose + 1))
  {
    var two := calls + [Arbitrate(k, FromMicro(total + 1))] + [Arbitrate(l, FromMicro(total))];
    RoundSplits(calls, k, l, total, two);
    RoundOpens(total, calls, k, l, charged, loose, two);
    RoundCloses(total, two, k, l, charged, loose, calls + Round(k, l, total));
  }

  lemma {:induction false} RoundsCharge(n: nat, k: Key, l: Key, total: nat)
    requires k != l
    ensures Tracked(total, Rounds(n, k, l, total)) == Some(Idle(total, Repeated(n, total), n))
  {
    if n > 0 {
      RoundsCharge(n - 1, k, l, total);
      RoundKeepsTotal(total, Rounds(n - 1, k, l, total), k, l, Repeated(n - 1, total), n - 1);
    }
  }

  /** Rounds, and then one more total spent by a step on its own. */
  function Spree(n: nat, k: Key, l: Key, total: int): seq<Call> {
    Rounds(n, k, l, total) + [Arbitrate(l, FromMicro(total))] + [Complete(l, FromMicro(total))]
  }

  lemma SpreeCharges(n: nat, k: Key, l: Key, total: nat)
    requires k != l
    ensures Tracked(total, Spree(n, k, l, total)) == Some(Reached(0, map[], map[], 0, Repeated(n, total) + total, n))
  {
    var rounds, charged := Rounds(n, k, l, total), Repeated(n, total);
    var last := rounds + [Arbitrate(l, FromMicro(total))];
    RoundsCharge(n, k, l, total);
    ReservedEntry(total, l, charged, n);
    FoldOne(Idle(total, 0, 0), rounds, Entry(total), Idle(total, charged, n), Arbitrate(l, FromMicro(total)), last);
    SettledEntry(total, l, total, charged, n);
    FoldOne(Idle(total, 0, 0), last, Entry(total), OnlyReserved(l, total, charged, n), Complete(l, FromMicro(total)),
            Spree(n, k, l, total));
  }

  /**
   The bound is attained for every n: two grants at a time are enough to charge any
   multiple of the total, each within its grant.
   */
  lemma GrantsBoundIsAttained(n: nat, k: Key, l: Key, total: nat)
    requires k != l
    ensures var calls := Spree(n, k, l, total);
            && WithinGrants(total, calls) && OutstandingAtMost(total, calls, 2) && LooseCompletions(total, calls) == n
            && Charged(Lower(calls)) == total + Repeated(n, total)
  {
    SpreeCharges(n, k, l, total);
    TrackedIsRun(total, Spree(n, k, l, total));
    AtMostTwoOpen(total, Spree(n, k, l, total));
  }
}
