/**
 The event emitter: a ring buffer that counts what it overwrites, and subscribers
 that are dropped at their third failure in a row.
 */
module BufferedEmitter {
  import opened Basics

  datatype Event = Event(kind: string, payload: map<string, string>)

  const MAX_FAILURES := 3

  datatype State = State(buffer: seq<Event>, dropped: nat, subscribers: set<string>, failures: map<string, nat>)

  function Fails(failures: map<string, nat>, name: string): nat {
    if name in failures then failures[name] else 0
  }

  // ---------------------------------------------------------------- the operations

  /** The subscribers whose callback raises and thereby reaches the limit. */
  function Expelled(s: State, failing: set<string>): set<string> {
    set name | name in s.subscribers && name in failing && Fails(s.failures, name) + 1 >= MAX_FAILURES
  }

  /** The counts after the callbacks of one emit, those of expelled subscribers removed. */
  function Counts(s: State, failing: set<string>): map<string, nat> {
    map name | name in s.failures.Keys + (s.subscribers * failing) && name !in Expelled(s, failing) ::
      if name !in s.subscribers then Fails(s.failures, name)
      else if name in failing then Fails(s.failures, name) + 1
      else 0
  }

  function AfterEmit(s: State, maxlen: nat, e: Event, failing: set<string>): State {
    State(LastN(s.buffer + [e], maxlen),
          if |s.buffer| == maxlen then s.dropped + 1 else s.dropped,
          s.subscribers - Expelled(s, failing),
          Counts(s, failing))
  }

  function DrainCount(s: State, n: int): nat {
    if n < 0 then 0 else if n < |s.buffer| then n else |s.buffer|
  }

  function AfterDrain(s: State, n: int): State {
    s.(buffer := s.buffer[DrainCount(s, n)..])
  }

  function AfterSubscribe(s: State, name: string): State {
    s.(subscribers := s.subscribers + {name}, failures := s.failures[name := 0])
  }

  function AfterUnsubscribe(s: State, name: string): State {
    s.(subscribers := s.subscribers - {name}, failures := s.failures - {name})
  }

  /** The ring after an event: it grows until it is full, and then forgets its oldest event and counts that. */
  ghost predicate Rings(before: State, maxlen: nat, e: Event, after: State) {
    && (|before.buffer| < maxlen ==> after.buffer == before.buffer + [e] && after.dropped == before.dropped)
    && (|before.buffer| == maxlen > 0 ==>
          after.buffer == before.buffer[1..] + [e] && after.dropped == before.dropped + 1)
    && (maxlen == 0 && before.buffer == [] ==> after.buffer == [] && after.dropped == before.dropped + 1)
  }

  /**
   The subscribers after their callbacks: a third failure in a row expels, another
   failure counts, a success resets.
   */
  ghost predicate CalledBack(before: State, failing: set<string>, after: State) {
    forall name ::
      var count := if name in before.failures then before.failures[name] else 0;
      && (name in after.subscribers <==> name in before.subscribers && !(name in failing && count >= 2))
      && (name in before.subscribers && name !in after.subscribers ==> name !in after.failures)
      && (name in after.subscribers && name in failing ==> name in after.failures && after.failures[name] == count + 1)
      && (name in after.subscribers && name !in failing && name in before.failures ==>
            name in after.failures && after.failures[name] == 0)
  }

  lemma EmitByCases(s: State, maxlen: nat, e: Event, failing: set<string>)
    ensures Rings(s, maxlen, e, AfterEmit(s, maxlen, e, failing))
    ensures CalledBack(s, failing, AfterEmit(s, maxlen, e, failing))
  {
  }

  class Emitter {
    const maxlen: nat
    var buffer: seq<Event>
    var dropped: nat
    var subscribers: set<string>
    var failCounts: map<string, nat>

    ghost function Contents(): State
      reads this
    {
      State(buffer, dropped, subscribers, failCounts)
    }

    constructor (maxlen: nat)
      ensures this.maxlen == maxlen && Contents() == State([], 0, {}, map[])
    {
      this.maxlen := maxlen;
      buffer, dropped, subscribers, failCounts := [], 0, {}, map[];
    }

    /** Appends, then calls every subscriber; `failing` names those whose callback raises. */
    method Emit(e: Event, failing: set<string>)
      modifies this
      ensures Contents() == AfterEmit(old(Contents()), maxlen, e, failing)
    {
      if |buffer| == maxlen {
        dropped := dropped + 1;
      }
      buffer := LastN(buffer + [e], maxlen);
      var removals := CallBack(failing);
      subscribers := subscribers - removals;
      failCounts := failCounts - removals;
      ghost var before := old(Contents());
      assert removals == Expelled(before, failing);
      assert failCounts == Counts(before, failing);
    }

    /** The callbacks: failures are counted one by one, successes reset afterwards. */
    method CallBack(failing: set<string>) returns (removals: set<string>)
      modifies this`failCounts
      ensures removals ==
                set name | name in subscribers && name in failing && Fails(old(failCounts), name) + 1 >= MAX_FAILURES
      ensures failCounts.Keys == old(failCounts).Keys + (subscribers * failing)
      ensures forall name :: name in failCounts ==>
                failCounts[name] == if name !in subscribers then Fails(old(failCounts), name)
                                    else if name in failing then Fails(old(failCounts), name) + 1
                                    else 0
    {
      var todo, resets := subscribers, {};
      removals := {};
      while todo != {}
        invariant todo <= subscribers
        invariant resets == subscribers - todo - failing
        invariant removals ==
                    set name | name in subscribers - todo && name in failing &&
                               Fails(old(failCounts), name) + 1 >= MAX_FAILURES
        invariant failCounts.Keys == old(failCounts).Keys + ((subscribers - todo) * failing)
        invariant forall name :: name in failCounts ==>
                    failCounts[name] ==
                    Fails(old(failCounts), name) + if name in (subscribers - todo) * failing then 1 else 0
        decreases todo
      {
        var name :| name in todo;
        todo := todo - {name};
        if name in failing {
          var count := (if name in failCounts then failCounts[name] else 0) + 1;
          failCounts := failCounts[name := count];
          if count >= MAX_FAILURES {
            removals := removals + {name};
          }
        } else {
          resets := resets + {name};
        }
      }
      failCounts := map name | name in failCounts :: if name in resets then 0 else failCounts[name];
    }

    method Drain(n: int) returns (result: seq<Event>)
      modifies this`buffer
      ensures Contents() == AfterDrain(old(Contents()), n)
      ensures result == old(buffer)[..DrainCount(old(Contents()), n)]
      ensures old(buffer) == result + buffer
      ensures |result| == if n <= 0 then 0 else if n <= |old(buffer)| then n else |old(buffer)|
    {
      result := [];
      var count := if n < |buffer| then n else |buffer|;
      var taken := 0;
      while taken < count
        invariant 0 <= taken <= if count < 0 then 0 else count
        invariant result == old(buffer)[..taken] && buffer == old(buffer)[taken..]
      {
        result := result + [buffer[0]];
        buffer := buffer[1..];
        taken := taken + 1;
      }
    }

    method Subscribe(name: string)
      modifies this
      ensures Contents() == AfterSubscribe(old(Contents()), name)
      ensures subscribers == old(subscribers) + {name} && failCounts == old(failCounts)[name := 0]
    {
      subscribers := subscribers + {name};
      failCounts := failCounts[name := 0];
    }

    method Unsubscribe(name: string)
      modifies this
      ensures Contents() == AfterUnsubscribe(old(Contents()), name)
      ensures subscribers == old(subscribers) - {name} && failCounts == old(failCounts) - {name}
    {
      subscribers := subscribers - {name};
      failCounts := failCounts - {name};
    }
  }

  // ---------------------------------------------------------------- runs

  datatype Op =
    | Emit(event: Event, failing: set<string>)
    | Drain(n: int)
    | Subscribe(name: string)
    | Unsubscribe(name: string)

  function Step(maxlen: nat, s: State, op: Op): State {
    match op
    case Emit(e, failing) => AfterEmit(s, maxlen, e, failing)
    case Drain(n) => AfterDrain(s, n)
    case Subscribe(name) => AfterSubscribe(s, name)
    case Unsubscribe(name) => AfterUnsubscribe(s, name)
  }

  function Run(maxlen: nat, ops: seq<Op>): State {
    if ops == [] then State([], 0, {}, map[]) else Step(maxlen, Run(maxlen, ops[..|ops| - 1]), ops[|ops| - 1])
  }

  /** Every event ever emitted. */
  function Emitted(ops: seq<Op>): seq<Event> {
    if ops == [] then []
    else Emitted(ops[..|ops| - 1]) + match ops[|ops| - 1] case Emit(e, _) => [e] case _ => []
  }

  /** How many events drains have taken. */
  function Drained(maxlen: nat, ops: seq<Op>): nat {
    if ops == [] then 0
    else
      Drained(maxlen, ops[..|ops| - 1]) +
      match ops[|ops| - 1] case Drain(n) => DrainCount(Run(maxlen, ops[..|ops| - 1]), n) case _ => 0
  }

  /** The buffer is the log from `start` on, within its capacity. */
  ghost predicate HoldsFrom(buffer: seq<Event>, maxlen: nat, log: seq<Event>, start: nat) {
    |buffer| <= maxlen && start <= |log| && buffer == log[start..]
  }

  lemma EmitKeepsSuffix(s: State, maxlen: nat, log: seq<Event>, start: nat, e: Event, failing: set<string>)
    requires HoldsFrom(s.buffer, maxlen, log, start)
    ensures var after := AfterEmit(s, maxlen, e, failing);
            HoldsFrom(after.buffer, maxlen, log + [e], start + after.dropped - s.dropped)
  {
    assert s.buffer + [e] == (log + [e])[start..];
  }

  lemma DrainKeepsSuffix(s: State, maxlen: nat, log: seq<Event>, start: nat, n: int)
    requires HoldsFrom(s.buffer, maxlen, log, start)
    ensures HoldsFrom(AfterDrain(s, n).buffer, maxlen, log, start + DrainCount(s, n))
  {
  }

  /**
   The buffer is the emitted log from the first event neither overwritten nor
   drained, and never longer than its capacity.
   */
  lemma {:induction false} BufferIsLogSuffix(maxlen: nat, ops: seq<Op>)
    ensures var s, log, start := Run(maxlen, ops), Emitted(ops), Run(maxlen, ops).dropped + Drained(maxlen, ops);
            |s.buffer| <= maxlen && start <= |log| && s.buffer == log[start..]
  {
    if ops != [] {
      var earlier, op := ops[..|ops| - 1], ops[|ops| - 1];
      var s, log := Run(maxlen, earlier), Emitted(earlier);
      var start := s.dropped + Drained(maxlen, earlier);
      BufferIsLogSuffix(maxlen, earlier);
      match op
      case Emit(e, failing) => EmitKeepsSuffix(s, maxlen, log, start, e, failing);
      case Drain(n) => DrainKeepsSuffix(s, maxlen, log, start, n);
      case Subscribe(_) =>
      case Unsubscribe(_) =>
    }
  }

  /** What a drain hands out is the next stretch of the log, in order and without gaps of its own. */
  lemma DrainHandsOutNext(maxlen: nat, ops: seq<Op>, n: int)
    ensures var s := Run(maxlen, ops);
            var start, count := s.dropped + Drained(maxlen, ops), DrainCount(s, n);
            start + count <= |Emitted(ops)| && s.buffer[..count] == Emitted(ops)[start..start + count]
  {
    var s, log := Run(maxlen, ops), Emitted(ops);
    BufferIsLogSuffix(maxlen, ops);
    FrontOfSuffix(log, s.dropped + Drained(maxlen, ops), DrainCount(s, n));
  }

  lemma FrontOfSuffix(log: seq<Event>, start: nat, count: nat)
    requires start + count <= |log|
    ensures log[start..][..count] == log[start..start + count]
  {
  }

  // ---------------------------------------------------------------- subscribers

  /** The results of a subscriber's callbacks since it last subscribed, unless it unsubscribed since. */
  function Results(ops: seq<Op>, name: string): Option<seq<bool>> {
    if ops == [] then None
    else
      var earlier := Results(ops[..|ops| - 1], name);
      match ops[|ops| - 1]
      case Emit(_, failing) => if earlier.Some? then Some(earlier.value + [name !in failing]) else None
      case Drain(_) => earlier
      case Subscribe(other) => if other == name then Some([]) else earlier
      case Unsubscribe(other) => if other == name then None else earlier
  }

  ghost predicate ThreeFailuresInARow(h: seq<bool>) {
    exists i :: 0 <= i < |h| - 2 && !h[i] && !h[i + 1] && !h[i + 2]
  }

  /** `k` failures in a row at the end of `h`, and no more. */
  ghost predicate EndsInFailures(h: seq<bool>, k: nat) {
    k <= |h| && (forall i :: |h| - k <= i < |h| ==> !h[i]) && (k < |h| ==> h[|h| - k - 1])
  }

  lemma AnotherResult(h: seq<bool>, k: nat, ok: bool)
    requires EndsInFailures(h, k) && !ThreeFailuresInARow(h) && k < MAX_FAILURES
    ensures EndsInFailures(h + [ok], if ok then 0 else k + 1)
    ensures ThreeFailuresInARow(h + [ok]) <==> !ok && k == 2
  {
    var g := h + [ok];
    if !ok && k == 2 {
      assert !g[|g| - 3] && !g[|g| - 3 + 1] && !g[|g| - 3 + 2];
    }
    if ThreeFailuresInARow(g) {
      var i :| 0 <= i < |g| - 2 && !g[i] && !g[i + 1] && !g[i + 2];
      assert i == |h| - 2;
    }
  }

  lemma StillThree(h: seq<bool>, ok: bool)
    requires ThreeFailuresInARow(h)
    ensures ThreeFailuresInARow(h + [ok])
  {
    var i :| 0 <= i < |h| - 2 && !h[i] && !h[i + 1] && !h[i + 2];
    assert !(h + [ok])[i] && !(h + [ok])[i + 1] && !(h + [ok])[i + 2];
  }

  /**
   In every run: a subscriber is there exactly while it has not failed three times
   in a row since it subscribed, and its failure count is the number of failures it
   currently ends in.
   */
  lemma {:induction false} ExpelledAtThirdFailure(maxlen: nat, ops: seq<Op>, name: string)
    ensures var s, r := Run(maxlen, ops), Results(ops, name);
            && (name in s.subscribers <==> r.Some? && !ThreeFailuresInARow(r.value))
            && (name in s.subscribers ==>
                  name in s.failures && s.failures[name] < MAX_FAILURES && EndsInFailures(r.value, s.failures[name]))
  {
    if ops != [] {
      var earlier, op := ops[..|ops| - 1], ops[|ops| - 1];
      ExpelledAtThirdFailure(maxlen, earlier, name);
      var r := Results(earlier, name);
      if op.Emit? && r.Some? {
        if name in Run(maxlen, earlier).subscribers {
          AnotherResult(r.value, Run(maxlen, earlier).failures[name], name !in op.failing);
        } else {
          StillThree(r.value, name !in op.failing);
        }
      }
    }
  }
}
