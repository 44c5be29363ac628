/**
 The distributed budget: many processes share one `remaining` counter and a
 table of live reservations. Each Lua script is one atomic step, and so is the
 expiry of a reservation's TTL. Amounts are integer micro-USD.
 */
module RedisBudget {
  import opened Basics

  type Key = string

  /** The keys of one budget scope; `remaining` is absent until the first script that sets it. */
  datatype Shared = Shared(remaining: Option<int>, live: map<Key, int>)

  const EMPTY := Shared(None, map[])

  datatype Reply =
    | Reserved(amount: int)
    | Insufficient(remaining: int, requested: int)
    | Expired(deducted: int)
    | Settled(diff: int)

  // ---------------------------------------------------------------- the scripts

  function Known(s: Shared, otherwise: int): int {
    if s.remaining.Some? then s.remaining.value else otherwise
  }

  function AfterReserve(total: int, s: Shared, k: Key, amount: int): Shared {
    if k in s.live then s
    else
      var remaining := Known(s, total);
      if remaining < amount then s.(remaining := Some(remaining))
      else Shared(Some(remaining - amount), s.live[k := amount])
  }

  function AfterSettle(s: Shared, k: Key, actual: int): Shared {
    var remaining := Known(s, 0);
    if k !in s.live then
      s.(remaining := Some(if remaining < actual then 0 else remaining - actual))
    else
      var diff := s.live[k] - actual;
      Shared(if diff > 0 then Some(remaining + diff)
             else if diff == 0 then s.remaining
             else Some(if remaining + diff < 0 then 0 else remaining + diff),
             s.live - {k})
  }

  /** The TTL drops the reservation and refunds nothing. */
  function AfterExpiry(s: Shared, k: Key): Shared {
    s.(live := s.live - {k})
  }

  /** The server: GET, SET and DEL on the two kinds of key. */
  class Server {
    var remaining: Option<int>
    var live: map<Key, int>

    ghost function State(): Shared
      reads this
    {
      Shared(remaining, live)
    }

    constructor ()
      ensures State() == EMPTY
    {
      remaining, live := None, map[];
    }

    method Reserve(k: Key, amount: int, total: int) returns (reply: Reply)
      modifies this
      ensures State() == AfterReserve(total, old(State()), k, amount)
      ensures reply == if k in old(live) then Reserved(old(live)[k])
                       else if k in live then Reserved(amount)
                       else Insufficient(Known(State(), total), amount)
      ensures k in old(live) ==> live == old(live) && remaining == old(remaining)
      ensures k !in old(live) ==>
                var left := if old(remaining).Some? then old(remaining).value else total;
                && live == (if left < amount then old(live) else old(live)[k := amount])
                && remaining == Some(if left < amount then left else left - amount)
    {
      if k in live {
        return Reserved(live[k]);
      }
      if remaining.None? {
        remaining := Some(total);
      }
      if remaining.value < amount {
        return Insufficient(remaining.value, amount);
      }
      live := live[k := amount];
      remaining := Some(remaining.value - amount);
      return Reserved(amount);
    }

    method Settle(k: Key, actual: int) returns (reply: Reply)
      modifies this
      ensures State() == AfterSettle(old(State()), k, actual)
      ensures reply == if k in old(live) then Settled(old(live)[k] - actual) else Expired(actual)
      ensures live == old(live) - {k}
      ensures var left := if old(remaining).Some? then old(remaining).value else 0;
              var reserved := if k in old(live) then old(live)[k] else 0;
              && (k in old(live) && actual == reserved ==> remaining == old(remaining))
              && (k in old(live) && actual < reserved ==> remaining == Some(left + (reserved - actual)))
              && (k !in old(live) || actual > reserved ==>
                    remaining == Some(if left + reserved < actual then 0 else left + reserved - actual))
    {
      var current := if remaining.Some? then remaining.value else 0;
      if k !in live {
        var newRemaining := current - actual;
        if newRemaining < 0 {
          newRemaining := 0;
        }
        remaining := Some(newRemaining);
        return Expired(actual);
      }
      var diff := live[k] - actual;
      if diff > 0 {
        remaining := Some(current + diff);
      } else if diff < 0 {
        var newRemaining := current + diff;
        if newRemaining < 0 {
          newRemaining := 0;
        }
        remaining := Some(newRemaining);
      }
      live := live - {k};
      return Settled(diff);
    }

    method Expire(k: Key)
      modifies this
      ensures State() == AfterExpiry(old(State()), k)
      ensures live == old(live) - {k} && remaining == old(remaining)
    {
      live := live - {k};
    }
  }

  // ---------------------------------------------------------------- runs

  datatype Op = Reserve(key: Key, amount: int) | Settle(key: Key, actual: int) | Expire(key: Key)

  function Step(total: int, s: Shared, op: Op): Shared {
    match op
    case Reserve(k, amount) => AfterReserve(total, s, k, amount)
    case Settle(k, actual) => AfterSettle(s, k, actual)
    case Expire(k) => AfterExpiry(s, k)
  }

  /** The state after any interleaving of scripts and expiries, in the order the server ran them. */
  function Run(total: int, ops: seq<Op>): Shared {
    if ops == [] then EMPTY
    else Step(total, Run(total, ops[..|ops| - 1]), ops[|ops| - 1])
  }

  function Amount(micro: int): int {
    micro
  }

  /** What the settles of a run charged. */
  function Charged(ops: seq<Op>): int {
    if ops == [] then 0
    else Charged(ops[..|ops| - 1]) + (match ops[|ops| - 1] case Settle(_, actual) => actual case _ => 0)
  }

  /** What expiries took out of circulation: each dropped reservation, in full. */
  function Leaked(total: int, ops: seq<Op>): int {
    if ops == [] then 0
    else
      var before := Run(total, ops[..|ops| - 1]);
      Leaked(total, ops[..|ops| - 1]) +
      match ops[|ops| - 1]
      case Expire(k) => if k in before.live then before.live[k] else 0
      case _ => 0
  }

  /** The part of a charge that neither the reservation nor the remaining budget covered. */
  function Overdraft(s: Shared, op: Op): int {
    match op
    case Settle(k, actual) =>
      var reserved := if k in s.live then s.live[k] else 0;
      if k in s.live && actual <= reserved then 0
      else if actual <= Known(s, 0) + reserved then 0
      else actual - Known(s, 0) - reserved
    case _ => 0
  }

  /** What the clamp at zero forgave over a run. */
  function Forgiven(total: int, ops: seq<Op>): int {
    if ops == [] then 0
    else Forgiven(total, ops[..|ops| - 1]) + Overdraft(Run(total, ops[..|ops| - 1]), ops[|ops| - 1])
  }

  /** The budget a run opens with: the total if a reserve comes first, nothing if a settle does. */
  function Opening(total: int, ops: seq<Op>): Option<int> {
    if ops == [] then None
    else
      var earlier := Opening(total, ops[..|ops| - 1]);
      if earlier.Some? then earlier
      else match ops[|ops| - 1] case Reserve(_, _) => Some(total) case Settle(_, _) => Some(0) case Expire(_) => None
  }

  /**
   Conservation, for every run and every amount, negative ones included: what is
   left, reserved, charged and leaked adds up to the opening budget plus what the
   clamp forgave.
   */
  lemma {:induction false} Conservation(total: int, ops: seq<Op>)
    ensures var s := Run(total, ops);
            && s.remaining.Some? == Opening(total, ops).Some?
            && (s.remaining.None? ==> s.live == map[])
            && Known(s, 0) + SumInt(s.live, Amount) + Charged(ops) + Leaked(total, ops)
               == (if Opening(total, ops).Some? then Opening(total, ops).value else 0) + Forgiven(total, ops)
  {
    if ops != [] {
      var earlier, op := ops[..|ops| - 1], ops[|ops| - 1];
      var s := Run(total, earlier);
      Conservation(total, earlier);
      match op
      case Reserve(k, amount) =>
        if k !in s.live && Known(s, total) >= amount {
          SumIntInsert(s.live, Amount, k, amount);
        }
      case Settle(k, actual) =>
        if k in s.live {
          SumIntSplit(s.live, Amount, k);
        }
      case Expire(k) =>
        if k in s.live {
          SumIntSplit(s.live, Amount, k);
        } else {
          assert s.live - {k} == s.live;
        }
    }
  }

  ghost predicate NonNegative(ops: seq<Op>) {
    forall i :: 0 <= i < |ops| ==>
      match ops[i] case Reserve(_, amount) => amount >= 0 case Settle(_, actual) => actual >= 0 case Expire(_) => true
  }

  /** The shared counter never goes negative, whatever amounts clients send. */
  lemma {:induction false} RemainingNeverNegative(total: int, ops: seq<Op>)
    requires total >= 0
    ensures Known(Run(total, ops), 0) >= 0
  {
    if ops != [] {
      RemainingNeverNegative(total, ops[..|ops| - 1]);
    }
  }

  lemma {:induction false} ReservationsNonNegative(total: int, ops: seq<Op>)
    requires NonNegative(ops)
    ensures forall k :: k in Run(total, ops).live ==> Run(total, ops).live[k] >= 0
    ensures Charged(ops) >= 0 && Leaked(total, ops) >= 0
  {
    if ops != [] {
      ReservationsNonNegative(total, ops[..|ops| - 1]);
    }
  }

  /** With non-negative amounts no interleaving ever has more than the total on hand and reserved. */
  lemma {:induction false} NeverOverReserved(total: int, ops: seq<Op>)
    requires total >= 0 && NonNegative(ops)
    ensures Known(Run(total, ops), 0) + SumInt(Run(total, ops).live, Amount) <= total
    ensures Run(total, ops).remaining.Some? ==> 0 <= Run(total, ops).remaining.value <= total
  {
    RemainingNeverNegative(total, ops);
    ReservationsNonNegative(total, ops);
    SumIntNonNegative(Run(total, ops).live, Amount);
    if ops != [] {
      var earlier, op := ops[..|ops| - 1], ops[|ops| - 1];
      var s := Run(total, earlier);
      NeverOverReserved(total, earlier);
      RemainingNeverNegative(total, earlier);
      ReservationsNonNegative(total, earlier);
      Conservation(total, earlier);
      if op.Reserve? && op.key !in s.live && Known(s, total) >= op.amount {
        SumIntInsert(s.live, Amount, op.key, op.amount);
      } else if op.key in s.live {
        SumIntSplit(s.live, Amount, op.key);
      } else if op.Expire? {
        assert s.live - {op.key} == s.live;
      }
    }
  }

  /** A run whose first script is a settle leaves the scope without budget for good. */
  lemma {:induction false} SettleFirstPinsBudget(total: int, ops: seq<Op>)
    requires NonNegative(ops) && Opening(total, ops) == Some(0)
    requires total != 0
    ensures Run(total, ops).remaining == Some(0)
    ensures forall k :: k in Run(total, ops).live ==> Run(total, ops).live[k] == 0
  {
    var earlier := ops[..|ops| - 1];
    Conservation(total, earlier);
    if Opening(total, earlier).Some? {
      SettleFirstPinsBudget(total, earlier);
    }
  }

  // ---------------------------------------------------------------- runs that settle what they reserved

  /** Every reserve is non-negative; every settle finds its reservation and spends at most that. */
  ghost predicate Honest(total: int, ops: seq<Op>) {
    ops == [] ||
    (var s := Run(total, ops[..|ops| - 1]);
     && Honest(total, ops[..|ops| - 1])
     && match ops[|ops| - 1]
        case Reserve(_, amount) => amount >= 0
        case Settle(k, actual) => k in s.live && 0 <= actual <= s.live[k]
        case Expire(_) => true)
  }

  lemma {:induction false} HonestIsNonNegative(total: int, ops: seq<Op>)
    requires Honest(total, ops)
    ensures NonNegative(ops) && Forgiven(total, ops) == 0
    ensures Opening(total, ops) in {None, Some(total)}
  {
    if ops != [] {
      HonestIsNonNegative(total, ops[..|ops| - 1]);
      Conservation(total, ops[..|ops| - 1]);
    }
  }

  /**
   Honest processes never charge more than the total between them, in any
   interleaving and with any expiries; once every reservation is settled and none
   leaked, the counter is the total less what was spent, whatever the order was.
   */
  lemma HonestNeverOverspend(total: int, ops: seq<Op>)
    requires total >= 0 && Honest(total, ops)
    ensures Charged(ops) + Leaked(total, ops) + SumInt(Run(total, ops).live, Amount) <= total
    ensures Charged(ops) <= total
    ensures Run(total, ops).live == map[] && Leaked(total, ops) == 0 && Run(total, ops).remaining.Some?
            ==> Run(total, ops).remaining == Some(total - Charged(ops))
  {
    HonestIsNonNegative(total, ops);
    Conservation(total, ops);
    RemainingNeverNegative(total, ops);
    ReservationsNonNegative(total, ops);
    SumIntNonNegative(Run(total, ops).live, Amount);
  }

  /** The run with every reserve of an already live key removed. */
  function WithoutRepeats(total: int, ops: seq<Op>): seq<Op> {
    if ops == [] then []
    else
      var earlier, op := ops[..|ops| - 1], ops[|ops| - 1];
      if op.Reserve? && op.key in Run(total, earlier).live then WithoutRepeats(total, earlier)
      else WithoutRepeats(total, earlier) + [op]
  }

  /** Retrying a reserve while it is live changes neither the state nor any total, however often it is done. */
  lemma {:induction false} RepeatedReservesAreFree(total: int, ops: seq<Op>)
    ensures var once := WithoutRepeats(total, ops);
            && Run(total, once) == Run(total, ops)
            && Charged(once) == Charged(ops)
            && Leaked(total, once) == Leaked(total, ops)
            && Forgiven(total, once) == Forgiven(total, ops)
            && (Honest(total, ops) ==> Honest(total, once))
  {
    if ops != [] {
      var earlier, once := ops[..|ops| - 1], WithoutRepeats(total, ops);
      RepeatedReservesAreFree(total, earlier);
      if once != WithoutRepeats(total, earlier) {
        assert once[..|once| - 1] == WithoutRepeats(total, earlier);
      }
    }
  }

  /** No repeat is left. */
  lemma {:induction false} NoRepeatsLeft(total: int, ops: seq<Op>, i: nat)
    requires i < |WithoutRepeats(total, ops)| && WithoutRepeats(total, ops)[i].Reserve?
    ensures WithoutRepeats(total, ops)[i].key !in Run(total, WithoutRepeats(total, ops)[..i]).live
  {
    if ops != [] {
      var earlier, once := ops[..|ops| - 1], WithoutRepeats(total, ops);
      var kept := WithoutRepeats(total, earlier);
      if i < |kept| {
        NoRepeatsLeft(total, earlier, i);
        assert once[i] == kept[i] && once[..i] == kept[..i];
      } else {
        RepeatedReservesAreFree(total, earlier);
        assert once[..i] == kept;
      }
    }
  }

  /**
   A second settle of the same step finds no reservation and charges the step again, in
   every run and for any cost.
   */
  lemma SecondSettleChargesAgain(total: int, ops: seq<Op>, k: Key, actual: int)
    requires k in Run(total, ops).live
    ensures var first := ops + [Settle(k, actual)];
            var second := first + [Settle(k, actual)];
            && Charged(second) == Charged(ops) + 2 * actual
            && Known(Run(total, second), 0)
               == (if Known(Run(total, first), 0) < actual then 0 else Known(Run(total, first), 0) - actual)
  {
  }

  /**
   Only a settle of nothing, or one that finds the budget used up, is without effect on
   the budget when no record is left.
   */
  lemma UnrecordedSettleIsFreeExactlyWhen(s: Shared, k: Key, actual: int)
    requires k !in s.live && actual >= 0 && Known(s, 0) >= 0
    ensures Known(AfterSettle(s, k, actual), 0) == Known(s, 0) <==> actual == 0 || Known(s, 0) == 0
  {
  }

  // ---------------------------------------------------------------- the USD side

  const MICRO := 1000000.0

  /** Python's `round`: to the nearest integer, ties to even. */
  function RoundHalfEven(x: real): int {
    var down := x.Floor;
    var rest := x - down as real;
    if rest < 0.5 then down
    else if rest > 0.5 then down + 1
    else if down % 2 == 0 then down
    else down + 1
  }

  function ToMicro(usd: real): int {
    RoundHalfEven(usd * MICRO)
  }

  function FromMicro(micro: int): real {
    micro as real / MICRO
  }

  /** Rounding is nearest, monotone, and undone by the conversion back. */
  lemma MicroConversion(x: real, y: real, micro: int)
    ensures -0.5 <= ToMicro(x) as real - x * 1000000.0 <= 0.5
    ensures ToMicro(x) as real - x * 1000000.0 == 0.5 || x * 1000000.0 - ToMicro(x) as real == 0.5 ==>
              ToMicro(x) % 2 == 0
    ensures FromMicro(micro) * 1000000.0 == micro as real
    ensures x <= y ==> ToMicro(x) <= ToMicro(y)
    ensures ToMicro(FromMicro(micro)) == micro
    ensures x >= 0.0 ==> ToMicro(x) >= 0
  {
  }

  /** What the processes do: arbitrate a desire, complete a step, or let a reservation lapse. */
  datatype Call =
    | Arbitrate(key: Key, ceiling: real)
    | Complete(key: Key, cost: real)
    | Lapse(key: Key)

  function OpOf(call: Call): Op {
    match call
    case Arbitrate(k, ceiling) => Reserve(k, ToMicro(ceiling))
    case Complete(k, cost) => Settle(k, ToMicro(cost))
    case Lapse(k) => Expire(k)
  }

  function Lower(calls: seq<Call>): (ops: seq<Op>)
    ensures |ops| == |calls|
  {
    if calls == [] then [] else Lower(calls[..|calls| - 1]) + [OpOf(calls[|calls| - 1])]
  }

  lemma LowerLast(calls: seq<Call>)
    requires calls != []
    ensures Lower(calls)[..|calls| - 1] == Lower(calls[..|calls| - 1])
  {
  }

  /** The ceiling written into each live allocation record. */
  function Records(total: int, calls: seq<Call>): map<Key, real> {
    if calls == [] then map[]
    else
      var earlier := Records(total, calls[..|calls| - 1]);
      var after := Run(total, Lower(calls));
      match calls[|calls| - 1]
      case Arbitrate(k, ceiling) => if k in after.live && k !in earlier then earlier[k := ceiling] else earlier
      case Complete(k, _) => earlier - {k}
      case Lapse(k) => earlier - {k}
  }

  /** Every step keeps its cost between zero and the ceiling recorded for it, and completes while that record lives. */
  ghost predicate WithinCeilings(total: int, calls: seq<Call>) {
    calls == [] ||
    (var records := Records(total, calls[..|calls| - 1]);
     && WithinCeilings(total, calls[..|calls| - 1])
     && match calls[|calls| - 1]
        case Arbitrate(_, ceiling) => ceiling >= 0.0
        case Complete(k, cost) => k in records && 0.0 <= cost <= records[k]
        case Lapse(_) => true)
  }

  lemma {:induction false} RecordsMatchReservations(total: int, calls: seq<Call>)
    ensures Records(total, calls).Keys == Run(total, Lower(calls)).live.Keys
    ensures forall k :: k in Records(total, calls) ==>
              Run(total, Lower(calls)).live[k] == ToMicro(Records(total, calls)[k])
  {
    if calls != [] {
      RecordsMatchReservations(total, calls[..|calls| - 1]);
      LowerLast(calls);
    }
  }

  /** Staying within a USD ceiling is enough: rounding never turns an honest cost into an overspend. */
  lemma {:induction false} WithinCeilingsIsHonest(total: int, calls: seq<Call>)
    requires WithinCeilings(total, calls)
    ensures Honest(total, Lower(calls))
  {
    if calls != [] {
      var earlier, call := calls[..|calls| - 1], calls[|calls| - 1];
      WithinCeilingsIsHonest(total, earlier);
      RecordsMatchReservations(total, earlier);
      LowerLast(calls);
      match call
      case Arbitrate(k, ceiling) => MicroConversion(ceiling, ceiling, 0);
      case Complete(k, cost) => MicroConversion(cost, Records(total, earlier)[k], 0);
      case Lapse(k) =>
    }
  }

  /** The client-level guarantee, in the units clients use. */
  lemma ClientsNeverOverspend(budget: real, calls: seq<Call>)
    requires budget >= 0.0 && WithinCeilings(ToMicro(budget), calls)
    ensures Charged(Lower(calls)) <= ToMicro(budget)
    ensures FromMicro(Charged(Lower(calls))) <= budget + 0.5 / MICRO
  {
    MicroConversion(budget, budget, 0);
    WithinCeilingsIsHonest(ToMicro(budget), calls);
    HonestNeverOverspend(ToMicro(budget), Lower(calls));
    assert FromMicro(Charged(Lower(calls))) <= FromMicro(ToMicro(budget));
  }

  /** The client side of a reserve: the ceiling handed to the step. */
  method ArbitrateRedis(server: Server, k: Key, desired: real, total: int) returns (ceiling: real)
    modifies server
    ensures server.State() == AfterReserve(total, old(server.State()), k, ToMicro(desired))
    ensures ceiling == Grant(total, old(server.State()), k, desired)
    ensures var left := if old(server.remaining).Some? then old(server.remaining).value else total;
            if k !in old(server.live) && left < ToMicro(desired) then ceiling * 1000000.0 == left as real
            else ceiling == desired
  {
    var reply := server.Reserve(k, ToMicro(desired), total);
    if reply.Insufficient? {
      ceiling := FromMicro(reply.remaining);
    } else {
      ceiling := desired;
    }
  }

  /** The ceiling a client is granted in state `s`. */
  function Grant(total: int, s: Shared, k: Key, desired: real): real {
    if k !in s.live && Known(s, total) < ToMicro(desired) then FromMicro(Known(s, total)) else desired
  }

  /**
   A grant is backed by a reservation of the same amount exactly when the key was
   free and the budget sufficed, or the live record already has that amount. A
   refused reserve still grants what remains, and a retry with another desire
   grants the new desire against the old record: neither is backed.
   */
  lemma GrantBackedExactlyWhen(total: int, s: Shared, k: Key, desired: real)
    ensures var after := AfterReserve(total, s, k, ToMicro(desired));
            (k in after.live && after.live[k] == ToMicro(Grant(total, s, k, desired)))
            <==> (if k in s.live then s.live[k] == ToMicro(desired) else ToMicro(desired) <= Known(s, total))
  {
  }
}
