/**
 The event pipeline: converted events are batched under a lock, written out
 outside it with retries, and kept in a bounded dead-letter list when the store
 keeps refusing them.
 */
module EventIngestor {
  import opened Basics

  /** A converted event. */
  datatype Outcome = Outcome(
    stepId: string,
    chainId: string,
    operationName: string,
    decision: string,
    cost: real,
    tokens: nat,
    durationMs: real,
    timestamp: real)

  const DEAD_LETTER_MAX := 1000
  const ATTEMPTS := 3

  /** How many of `n` refused outcomes still fit the dead-letter list. */
  function Room(dead: seq<Outcome>, n: nat): (k: nat)
    ensures k <= n
  {
    if |dead| >= DEAD_LETTER_MAX then 0
    else if n <= DEAD_LETTER_MAX - |dead| then n
    else DEAD_LETTER_MAX - |dead|
  }

  /** The dead-letter list after taking in what fits of a refused batch. */
  function DeadLettered(dead: seq<Outcome>, outcomes: seq<Outcome>): seq<Outcome> {
    dead + outcomes[..Room(dead, |outcomes|)]
  }

  /** A store after accepting a batch: the newest records, up to its capacity. */
  function Stored(records: seq<Outcome>, outcomes: seq<Outcome>, maxRecords: nat): seq<Outcome> {
    LastN(records + outcomes, maxRecords)
  }

  // ---------------------------------------------------------------- the objects

  class OutcomeStore {
    const maxRecords: nat
    var records: seq<Outcome>

    constructor (maxRecords: int)
      ensures this.maxRecords == (if maxRecords < 1 then 1 else maxRecords) && records == []
    {
      this.maxRecords := if maxRecords < 1 then 1 else maxRecords;
      records := [];
    }

    method PutMany(outcomes: seq<Outcome>)
      modifies this
      ensures records == Stored(old(records), outcomes, maxRecords)
      ensures records == LastN(old(records) + outcomes, maxRecords)
    {
      records := records + outcomes;
      if |records| > maxRecords {
        records := records[|records| - maxRecords..];
      }
    }
  }

  class Ingestor {
    const store: OutcomeStore
    const batchSize: nat
    var batch: seq<Outcome>
    var deadLetter: seq<Outcome>
    var ingestedTotal: nat
    var errorTotal: nat

    constructor (store: OutcomeStore, batchSize: int)
      ensures this.store == store && this.batchSize == (if batchSize < 0 then 0 else batchSize)
      ensures batch == [] && deadLetter == [] && ingestedTotal == 0 && errorTotal == 0
    {
      this.store, this.batchSize := store, if batchSize < 0 then 0 else batchSize;
      batch, deadLetter, ingestedTotal, errorTotal := [], [], 0, 0;
    }

    /** Writes with retries, where the store refuses the first `refusals` attempts. */
    method Write(outcomes: seq<Outcome>, refusals: nat) returns (persisted: nat)
      modifies store, this`deadLetter, this`errorTotal
      ensures refusals < ATTEMPTS ==>
                && persisted == |outcomes| && store.records == Stored(old(store.records), outcomes, store.maxRecords)
                && deadLetter == old(deadLetter) && errorTotal == old(errorTotal)
      ensures refusals >= ATTEMPTS ==>
                && persisted == 0 && store.records == old(store.records)
                && deadLetter == DeadLettered(old(deadLetter), outcomes)
                && errorTotal == old(errorTotal) + |outcomes|
      ensures refusals < 3 ==> persisted == |outcomes| && deadLetter == old(deadLetter)
      ensures refusals >= 3 ==>
                var fitting := if |old(deadLetter)| >= 1000 then 0
                               else if |old(deadLetter)| + |outcomes| <= 1000 then |outcomes|
                               else 1000 - |old(deadLetter)|;
                persisted == 0 && deadLetter == old(deadLetter) + outcomes[..fitting]
    {
      for attempt := 0 to ATTEMPTS
        invariant attempt <= refusals
        invariant store.records == old(store.records)
        invariant deadLetter == old(deadLetter) && errorTotal == old(errorTotal)
      {
        if attempt == refusals {
          store.PutMany(outcomes);
          return |outcomes|;
        }
      }
      errorTotal := errorTotal + |outcomes|;
      var stored := Room(deadLetter, |outcomes|);
      if stored > 0 {
        deadLetter := deadLetter + outcomes[..stored];
      }
      return 0;
    }

    /** Takes one event, already converted if conversion succeeded; returns the batch it must write, if any. */
    method Enqueue(converted: Option<Outcome>) returns (flushNow: Option<seq<Outcome>>)
      modifies this`batch, this`ingestedTotal, this`errorTotal
      ensures converted.None? ==>
                flushNow == None && batch == old(batch) && ingestedTotal == old(ingestedTotal)
                && errorTotal == old(errorTotal) + 1
      ensures converted.Some? ==>
                && ingestedTotal == old(ingestedTotal) + 1 && errorTotal == old(errorTotal)
                && (flushNow, batch) == Taken(batchSize, old(batch), converted.value)
      ensures converted.Some? && batchSize == 0 ==> flushNow == Some([converted.value]) && batch == old(batch)
      ensures converted.Some? && batchSize > 0 && |old(batch)| + 1 >= batchSize ==>
                flushNow == Some(old(batch) + [converted.value]) && batch == []
      ensures converted.Some? && |old(batch)| + 1 < batchSize ==>
                flushNow == None && batch == old(batch) + [converted.value]
    {
      if converted.None? {
        errorTotal := errorTotal + 1;
        return None;
      }
      ingestedTotal := ingestedTotal + 1;
      if batchSize == 0 {
        return Some([converted.value]);
      }
      batch := batch + [converted.value];
      if |batch| >= batchSize {
        flushNow := Some(batch);
        batch := [];
      } else {
        flushNow := None;
      }
    }

    method Ingest(converted: Option<Outcome>, refusals: nat)
      modifies this, store
      ensures converted.None? ==>
                && batch == old(batch) && deadLetter == old(deadLetter) && store.records == old(store.records)
                && ingestedTotal == old(ingestedTotal) && errorTotal == old(errorTotal) + 1
      ensures converted.Some? ==>
                var (full, rest) := Taken(batchSize, old(batch), converted.value);
                var written := if full.Some? then full.value else [];
                var refused := full.Some? && refusals >= ATTEMPTS;
                && batch == rest && ingestedTotal == old(ingestedTotal) + 1
                && store.records == (if full.None? || refused then old(store.records)
                                     else Stored(old(store.records), written, store.maxRecords))
                && deadLetter == (if refused then DeadLettered(old(deadLetter), written) else old(deadLetter))
                && errorTotal == old(errorTotal) + if refused then |written| else 0
      ensures converted.Some? && |old(batch)| + 1 < batchSize ==>
                batch == old(batch) + [converted.value] && store.records == old(store.records)
      ensures converted.Some? && |old(batch)| + 1 >= batchSize > 0 && refusals < 3 ==>
                && batch == []
                && store.records == LastN(old(store.records) + (old(batch) + [converted.value]), store.maxRecords)
    {
      var flushNow := Enqueue(converted);
      if flushNow.Some? {
        var _ := Write(flushNow.value, refusals);
      }
    }

    method Flush(refusals: nat) returns (persisted: nat)
      modifies this, store
      ensures batch == [] && ingestedTotal == old(ingestedTotal)
      ensures persisted == if refusals < ATTEMPTS then |old(batch)| else 0
      ensures store.records == if refusals < ATTEMPTS && old(batch) != []
                               then Stored(old(store.records), old(batch), store.maxRecords) else old(store.records)
      ensures deadLetter == if refusals < ATTEMPTS then old(deadLetter) else DeadLettered(old(deadLetter), old(batch))
      ensures errorTotal == old(errorTotal) + if refusals < ATTEMPTS then 0 else |old(batch)|
    {
      var pending := batch;
      batch := [];
      if pending == [] {
        return 0;
      }
      persisted := Write(pending, refusals);
    }
  }

  /** What enqueuing an outcome hands to the writer, and what stays batched. */
  function Taken(batchSize: nat, batch: seq<Outcome>, o: Outcome): (Option<seq<Outcome>>, seq<Outcome>) {
    if batchSize == 0 then (Some([o]), batch)
    else if |batch| + 1 >= batchSize then (Some(batch + [o]), [])
    else (None, batch + [o])
  }

  // ---------------------------------------------------------------- interleaved threads

  /** A batch some thread is writing, and how often the store has refused it. */
  datatype Write = Write(outcomes: seq<Outcome>, refusals: nat)

  /**
   The shared state and the writes in flight, with four observations: everything
   converted, accepted and dropped, and conversion failures.
   */
  datatype System = System(
    batch: seq<Outcome>,
    writes: map<nat, Write>,
    records: seq<Outcome>,
    dead: seq<Outcome>,
    ingested: nat,
    errors: nat,
    converted: seq<Outcome>,
    accepted: seq<Outcome>,
    dropped: seq<Outcome>,
    conversionFailures: nat)

  const START := System([], map[], [], [], 0, 0, [], [], [], 0)

  datatype Action =
    | ConversionFails
    | Enqueue(thread: nat, outcome: Outcome)
    | Swap(thread: nat)
    | Accept(thread: nat)
    | Refuse(thread: nat)
    | GiveUp(thread: nat)

  datatype Config = Config(batchSize: nat, maxRecords: nat)

  /** One lock section or store call. A thread in the middle of a write only goes on with that write. */
  function Step(cfg: Config, s: System, a: Action): System {
    match a
    case ConversionFails => s.(errors := s.errors + 1, conversionFailures := s.conversionFailures + 1)
    case Enqueue(t, o) =>
      if t in s.writes then s
      else
        var (full, rest) := Taken(cfg.batchSize, s.batch, o);
        s.(ingested := s.ingested + 1, converted := s.converted + [o], batch := rest,
           writes := if full.Some? then s.writes[t := Write(full.value, 0)] else s.writes)
    case Swap(t) =>
      if t in s.writes || s.batch == [] then s
      else s.(batch := [], writes := s.writes[t := Write(s.batch, 0)])
    case Accept(t) =>
      if t !in s.writes || s.writes[t].refusals >= ATTEMPTS then s
      else
        s.(records := Stored(s.records, s.writes[t].outcomes, cfg.maxRecords),
           accepted := s.accepted + s.writes[t].outcomes,
           writes := s.writes - {t})
    case Refuse(t) =>
      if t !in s.writes || s.writes[t].refusals >= ATTEMPTS then s
      else s.(writes := s.writes[t := Write(s.writes[t].outcomes, s.writes[t].refusals + 1)])
    case GiveUp(t) =>
      if t !in s.writes || s.writes[t].refusals < ATTEMPTS then s
      else
        var outcomes := s.writes[t].outcomes;
        s.(errors := s.errors + |outcomes|,
           dead := DeadLettered(s.dead, outcomes),
           dropped := s.dropped + outcomes[Room(s.dead, |outcomes|)..],
           writes := s.writes - {t})
  }

  function Run(cfg: Config, actions: seq<Action>): System {
    if actions == [] then START
    else Step(cfg, Run(cfg, actions[..|actions| - 1]), actions[|actions| - 1])
  }

  /**
   A thread that is not writing enqueues: its event joins the batch, or leaves with it
   to be written when that is full.
   */
  lemma EnqueueStep(cfg: Config, s: System, t: nat, o: Outcome)
    requires t !in s.writes
    ensures var after := Step(cfg, s, Enqueue(t, o));
            && after.converted == s.converted + [o] && after.ingested == s.ingested + 1
            && (cfg.batchSize == 0 ==> after.batch == s.batch && after.writes == s.writes[t := Write([o], 0)])
            && (cfg.batchSize > 0 && |s.batch| + 1 >= cfg.batchSize ==>
                  after.batch == [] && after.writes == s.writes[t := Write(s.batch + [o], 0)])
            && (|s.batch| + 1 < cfg.batchSize ==> after.batch == s.batch + [o] && after.writes == s.writes)
  {
  }

  /** A write is accepted within its three attempts; then its outcomes are in the store and the thread is free. */
  lemma AcceptStep(cfg: Config, s: System, t: nat)
    requires t in s.writes && s.writes[t].refusals < 3
    ensures var after := Step(cfg, s, Accept(t));
            && after.records == LastN(s.records + s.writes[t].outcomes, cfg.maxRecords)
            && after.accepted == s.accepted + s.writes[t].outcomes && after.writes == s.writes - {t}
    ensures Step(cfg, s, Refuse(t)).writes == s.writes[t := Write(s.writes[t].outcomes, s.writes[t].refusals + 1)]
  {
  }

  /**
   After the third refusal it is given up: what fits a list of 1000 is dead-lettered,
   the rest dropped, all of it an error.
   */
  lemma GiveUpStep(cfg: Config, s: System, t: nat)
    requires t in s.writes && s.writes[t].refusals >= 3
    ensures var after, outcomes := Step(cfg, s, GiveUp(t)), s.writes[t].outcomes;
            var fitting := if |s.dead| >= 1000 then 0
                           else if |s.dead| + |outcomes| <= 1000 then |outcomes|
                           else 1000 - |s.dead|;
            && after.dead == s.dead + outcomes[..fitting] && after.dropped == s.dropped + outcomes[fitting..]
            && after.errors == s.errors + |outcomes| && after.writes == s.writes - {t}
    ensures Step(cfg, s, Accept(t)) == s
  {
  }

  /** A failed conversion is an error and nothing else. */
  lemma ConversionFailsStep(cfg: Config, s: System)
    ensures Step(cfg, s, ConversionFails) == s.(errors := s.errors + 1, conversionFailures := s.conversionFailures + 1)
  {
  }

  /** A flush takes the whole batch to be written. */
  lemma SwapStep(cfg: Config, s: System, t: nat)
    requires t !in s.writes && s.batch != []
    ensures var after := Step(cfg, s, Swap(t));
            after.batch == [] && after.writes == s.writes[t := Write(s.batch, 0)]
  {
  }

  /** How often `x` occurs in `s`; without an `x`, how long `s` is. */
  function Measure(x: Option<Outcome>, s: seq<Outcome>): nat {
    if x.None? then |s| else multiset(s)[x.value]
  }

  lemma MeasureAdds(x: Option<Outcome>, s: seq<Outcome>, t: seq<Outcome>)
    ensures Measure(x, s + t) == Measure(x, s) + Measure(x, t)
  {
  }

  /** Cutting a sequence loses nothing. */
  lemma MeasureCut(x: Option<Outcome>, s: seq<Outcome>, n: nat)
    requires n <= |s|
    ensures Measure(x, s[..n]) + Measure(x, s[n..]) == Measure(x, s)
  {
    assert s[..n] + s[n..] == s;
    MeasureAdds(x, s[..n], s[n..]);
  }

  function CarriedBy(x: Option<Outcome>): Write -> int {
    (w: Write) => Measure(x, w.outcomes)
  }

  /** The occurrences of `x` in all the places a converted event can be. */
  ghost function InPlaces(s: System, x: Option<Outcome>): int {
    Measure(x, s.batch) + SumInt(s.writes, CarriedBy(x)) +
    Measure(x, s.accepted) + Measure(x, s.dead) + Measure(x, s.dropped)
  }

  lemma EnqueueMoves(cfg: Config, s: System, t: nat, o: Outcome, x: Option<Outcome>)
    requires t !in s.writes
    ensures InPlaces(Step(cfg, s, Enqueue(t, o)), x) == InPlaces(s, x) + Measure(x, [o])
  {
    var (full, rest) := Taken(cfg.batchSize, s.batch, o);
    MeasureAdds(x, s.batch, [o]);
    if full.Some? {
      SumIntInsert(s.writes, CarriedBy(x), t, Write(full.value, 0));
    }
  }

  lemma SwapMoves(cfg: Config, s: System, t: nat, x: Option<Outcome>)
    requires t !in s.writes
    ensures InPlaces(Step(cfg, s, Swap(t)), x) == InPlaces(s, x)
  {
    SumIntInsert(s.writes, CarriedBy(x), t, Write(s.batch, 0));
  }

  lemma AcceptMoves(cfg: Config, s: System, t: nat, x: Option<Outcome>)
    requires t in s.writes
    ensures InPlaces(Step(cfg, s, Accept(t)), x) == InPlaces(s, x)
  {
    SumIntSplit(s.writes, CarriedBy(x), t);
    MeasureAdds(x, s.accepted, s.writes[t].outcomes);
  }

  lemma RefuseMoves(cfg: Config, s: System, t: nat, x: Option<Outcome>)
    requires t in s.writes
    ensures InPlaces(Step(cfg, s, Refuse(t)), x) == InPlaces(s, x)
  {
    SumIntReplace(s.writes, CarriedBy(x), t, Write(s.writes[t].outcomes, s.writes[t].refusals + 1));
  }

  lemma GiveUpMoves(cfg: Config, s: System, t: nat, x: Option<Outcome>)
    requires t in s.writes
    ensures InPlaces(Step(cfg, s, GiveUp(t)), x) == InPlaces(s, x)
  {
    var outcomes := s.writes[t].outcomes;
    var stored := Room(s.dead, |outcomes|);
    SumIntSplit(s.writes, CarriedBy(x), t);
    MeasureAdds(x, s.dead, outcomes[..stored]);
    MeasureAdds(x, s.dropped, outcomes[stored..]);
    MeasureCut(x, outcomes, stored);
  }

  /**
   Nothing is lost or duplicated on the way, in any interleaving: every event
   occurs as often among batch, writes in flight, store, dead letter and dropped
   together as it was converted, and those places together hold as many events as
   were converted.
   */
  lemma {:induction false} EveryEventInOnePlace(cfg: Config, actions: seq<Action>, x: Option<Outcome>)
    ensures Measure(x, Run(cfg, actions).converted) == InPlaces(Run(cfg, actions), x)
  {
    if actions != [] {
      var s, a := Run(cfg, actions[..|actions| - 1]), actions[|actions| - 1];
      EveryEventInOnePlace(cfg, actions[..|actions| - 1], x);
      match a
      case ConversionFails =>
      case Enqueue(t, o) =>
        if t !in s.writes {
          EnqueueMoves(cfg, s, t, o, x);
          MeasureAdds(x, s.converted, [o]);
        }
      case Swap(t) => if t !in s.writes { SwapMoves(cfg, s, t, x); }
      case Accept(t) => if t in s.writes { AcceptMoves(cfg, s, t, x); }
      case Refuse(t) => if t in s.writes { RefuseMoves(cfg, s, t, x); }
      case GiveUp(t) => if t in s.writes { GiveUpMoves(cfg, s, t, x); }
    }
  }

  /** The store's snapshot is the end of everything it accepted. */
  lemma {:induction false} StoreKeepsTail(cfg: Config, actions: seq<Action>)
    ensures Run(cfg, actions).records == LastN(Run(cfg, actions).accepted, cfg.maxRecords)
  {
    if actions != [] {
      var s, a := Run(cfg, actions[..|actions| - 1]), actions[|actions| - 1];
      StoreKeepsTail(cfg, actions[..|actions| - 1]);
      if a.Accept? && a.thread in s.writes {
        LastNOfAppend(s.accepted, s.writes[a.thread].outcomes, cfg.maxRecords);
      }
    }
  }

  lemma {:induction false} BatchStaysSmall(cfg: Config, actions: seq<Action>)
    ensures var batch := Run(cfg, actions).batch;
            if cfg.batchSize == 0 then batch == [] else |batch| < cfg.batchSize
  {
    if actions != [] {
      BatchStaysSmall(cfg, actions[..|actions| - 1]);
    }
  }

  /** The counters and bounds that go with it. */
  lemma {:induction false} CountersAreExact(cfg: Config, actions: seq<Action>)
    ensures var s := Run(cfg, actions);
            && s.ingested == |s.converted|
            && s.errors == s.conversionFailures + |s.dead| + |s.dropped|
            && |s.dead| <= DEAD_LETTER_MAX
            && (s.dropped != [] ==> |s.dead| == DEAD_LETTER_MAX)
  {
    if actions != [] {
      CountersAreExact(cfg, actions[..|actions| - 1]);
    }
  }

  /** So ingested_total is the number of events in those five places. */
  lemma IngestedIsTheSum(cfg: Config, actions: seq<Action>)
    ensures var s := Run(cfg, actions);
            s.ingested == |s.batch| + SumInt(s.writes, CarriedBy(None)) + |s.accepted| + |s.dead| + |s.dropped|
  {
    EveryEventInOnePlace(cfg, actions, None);
    CountersAreExact(cfg, actions);
  }

  /** A run with a single writer that never has to give up; the store may refuse attempts that a retry makes good. */
  ghost predicate OneWriter(cfg: Config, actions: seq<Action>) {
    && OnlyFirst(Run(cfg, actions).writes)
    && (actions != [] ==> !actions[|actions| - 1].GiveUp? && OneWriter(cfg, actions[..|actions| - 1]))
  }

  ghost predicate OnlyFirst(writes: map<nat, Write>) {
    forall t :: t in writes ==> t == 0
  }

  function InFlight(writes: map<nat, Write>): seq<Outcome> {
    if 0 in writes then writes[0].outcomes else []
  }

  /** The store, the write and the batch hold the converted events in order. */
  ghost predicate Ordered(s: System) {
    && s.converted == s.accepted + (InFlight(s.writes) + s.batch)
    && s.dead == [] && s.dropped == []
  }

  lemma AppendedLast(a: seq<Outcome>, b: seq<Outcome>, c: seq<Outcome>, o: Outcome)
    ensures (a + (b + c)) + [o] == a + (b + (c + [o]))
  {
  }

  lemma EnqueueOrdered(cfg: Config, s: System, t: nat, o: Outcome)
    requires Ordered(s) && (cfg.batchSize == 0 ==> s.batch == [])
    requires OnlyFirst(s.writes) && OnlyFirst(Step(cfg, s, Enqueue(t, o)).writes)
    ensures Ordered(Step(cfg, s, Enqueue(t, o)))
  {
    if t !in s.writes {
      var (full, rest) := Taken(cfg.batchSize, s.batch, o);
      TakenKeepsOrder(cfg.batchSize, s.batch, o);
      AppendedLast(s.accepted, InFlight(s.writes), s.batch, o);
      if full.Some? {
        var writes := s.writes[t := Write(full.value, 0)];
        assert t in writes && InFlight(writes) == full.value;
        assert InFlight(s.writes) + (s.batch + [o]) == s.batch + [o];
      }
    }
  }

  /** What is handed over comes before what stays. */
  lemma TakenKeepsOrder(batchSize: nat, batch: seq<Outcome>, o: Outcome)
    requires batchSize == 0 ==> batch == []
    ensures var (full, rest) := Taken(batchSize, batch, o);
            (if full.Some? then full.value else []) + rest == batch + [o]
  {
  }

  lemma SwapOrdered(cfg: Config, s: System, t: nat)
    requires Ordered(s) && OnlyFirst(Step(cfg, s, Swap(t)).writes)
    ensures Ordered(Step(cfg, s, Swap(t)))
  {
    assert s.batch + [] == s.batch && [] + s.batch == s.batch;
    if t !in s.writes && s.batch != [] {
      assert t in Step(cfg, s, Swap(t)).writes;
    }
  }

  lemma AcceptOrdered(cfg: Config, s: System, t: nat)
    requires Ordered(s) && OnlyFirst(s.writes)
    ensures Ordered(Step(cfg, s, Accept(t)))
  {
  }

  /** Then the store receives the events in the order they were converted. */
  lemma {:induction false} SingleWriterKeepsOrder(cfg: Config, actions: seq<Action>)
    requires OneWriter(cfg, actions)
    ensures Ordered(Run(cfg, actions))
  {
    if actions != [] {
      var s, a := Run(cfg, actions[..|actions| - 1]), actions[|actions| - 1];
      SingleWriterKeepsOrder(cfg, actions[..|actions| - 1]);
      BatchStaysSmall(cfg, actions[..|actions| - 1]);
      match a
      case Enqueue(t, o) => EnqueueOrdered(cfg, s, t, o);
      case Swap(t) => SwapOrdered(cfg, s, t);
      case Accept(t) => AcceptOrdered(cfg, s, t);
      case _ =>
    }
  }
}
