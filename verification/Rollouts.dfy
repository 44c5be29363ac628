/** The rollout lifecycle: six states with back edges, and an audit history capped at 1000 entries. */
module Rollouts {
  import opened Basics

  datatype State = Draft | Simulated | Approved | Promoted | Active | Revoked

  const MAX_HISTORY := 1000
  const MAX_REPORT_SIZE := 65536

  /** The allowed edges. */
  predicate Leads(s: State, t: State) {
    match s
    case Draft => t.Simulated? || t.Revoked?
    case Simulated => t.Approved? || t.Revoked? || t.Draft?
    case Approved => t.Promoted? || t.Revoked? || t.Draft?
    case Promoted => t.Active? || t.Revoked? || t.Approved?
    case Active => t.Revoked?
    case Revoked => false
  }

  datatype Entry = Entry(from: State, to: State, actor: string)

  /** A simulation report and the length of its serialised text, absent when it cannot be serialised. */
  datatype Report = Report(body: string, serialized: Option<nat>)

  datatype Rollout = Rollout(state: State, history: seq<Entry>, report: Option<Report>)

  datatype RolloutError = NotFound | InvalidTransition | HistoryLimit | InvalidReport

  function NewRollout(): Rollout {
    Rollout(Draft, [], None)
  }

  predicate Storable(r: Report) {
    r.serialized.Some? && r.serialized.value <= MAX_REPORT_SIZE
  }

  datatype Op = Move(target: State, actor: string) | Simulate(result: Report, who: string) | SetReport(value: Report)

  // ---------------------------------------------------------------- one step

  predicate Accepts(r: Rollout, op: Op) {
    match op
    case Move(target, _) => Leads(r.state, target) && |r.history| < MAX_HISTORY
    case Simulate(report, _) => r.state == Draft && Storable(report) && |r.history| < MAX_HISTORY
    case SetReport(report) => r.state == Draft && Storable(report)
  }

  function Recorded(r: Rollout, target: State, actor: string): Rollout {
    r.(state := target, history := r.history + [Entry(r.state, target, actor)])
  }

  /** The rollout after an operation. A `Simulate` stores its report before the history limit refuses it. */
  function Step(r: Rollout, op: Op): Rollout {
    match op
    case Move(target, actor) =>
      if !Accepts(r, op) then r
      else if target == Draft then Recorded(r, target, actor).(report := None) else Recorded(r, target, actor)
    case Simulate(report, who) =>
      if r.state != Draft || !Storable(report) then r
      else if |r.history| < MAX_HISTORY then Recorded(r.(report := Some(report)), Simulated, who)
      else r.(report := Some(report))
    case SetReport(report) =>
      if Accepts(r, op) then r.(report := Some(report)) else r
  }

  /** The edges there are, back edges included. */
  lemma EdgesAre(s: State, t: State)
    ensures Leads(s, t) <==> (s, t) in {
              (Draft, Simulated), (Draft, Revoked),
              (Simulated, Approved), (Simulated, Revoked), (Simulated, Draft),
              (Approved, Promoted), (Approved, Revoked), (Approved, Draft),
              (Promoted, Active), (Promoted, Revoked), (Promoted, Approved),
              (Active, Revoked)}
  {
  }

  ghost predicate FitsStorage(r: Report) {
    r.serialized.Some? && r.serialized.value <= 65536
  }

  /** A move records who made it and from where; going back to DRAFT discards the report. */
  ghost predicate MovedTo(before: Rollout, target: State, actor: string, after: Rollout, done: bool) {
    && (done <==> Leads(before.state, target) && |before.history| < 1000)
    && (done ==>
          && after.state == target && after.history == before.history + [Entry(before.state, target, actor)]
          && after.report == if target.Draft? then None else before.report)
    && (!done ==> after == before)
  }

  /** A simulation keeps its report and moves on; at the history limit it only keeps the report. */
  ghost predicate SimulatedWith(before: Rollout, report: Report, actor: string, after: Rollout, done: bool) {
    && (done <==> before.state.Draft? && FitsStorage(report) && |before.history| < 1000)
    && after.report == (if before.state.Draft? && FitsStorage(report) then Some(report) else before.report)
    && (done ==> after.state.Simulated? && after.history == before.history + [Entry(Draft, Simulated, actor)])
    && (!done ==> after.state == before.state && after.history == before.history)
  }

  class Registry {
    var rollouts: map<string, Rollout>

    /** Every rollout's history leads from DRAFT to its state. */
    ghost predicate Valid()
      reads this
    {
      forall id :: id in rollouts ==> Traced(rollouts[id])
    }

    constructor ()
      ensures Valid() && rollouts == map[]
    {
      rollouts := map[];
    }

    method Create(id: string) returns (r: Rollout)
      requires Valid()
      modifies this
      ensures Valid() && rollouts == old(rollouts)[id := r] && r == NewRollout()
      ensures r == Rollout(Draft, [], None)
    {
      r := NewRollout();
      rollouts := rollouts[id := r];
    }

    method Transition(id: string, target: State, actor: string) returns (r: Result<Rollout, RolloutError>)
      requires Valid()
      modifies this
      ensures Valid()
      ensures id !in old(rollouts) ==> r == Err(NotFound) && rollouts == old(rollouts)
      ensures id in old(rollouts) ==>
                var before, op := old(rollouts)[id], Move(target, actor);
                && rollouts == old(rollouts)[id := Step(before, op)]
                && (r.Ok? <==> Accepts(before, op)) && (r.Ok? ==> r.value == rollouts[id])
                && (r == Err(HistoryLimit) <==> Leads(before.state, target) && |before.history| >= MAX_HISTORY)
      ensures id in old(rollouts) ==> MovedTo(old(rollouts)[id], target, actor, rollouts[id], r.Ok?)
    {
      if id !in rollouts {
        return Err(NotFound);
      }
      var rollout := rollouts[id];
      StepKeepsTraced(rollout, Move(target, actor));
      if !Leads(rollout.state, target) {
        return Err(InvalidTransition);
      }
      if |rollout.history| >= MAX_HISTORY {
        return Err(HistoryLimit);
      }
      rollout := rollout.(history := rollout.history + [Entry(rollout.state, target, actor)]);
      rollout := rollout.(state := target);
      if target == Draft {
        rollout := rollout.(report := None);
      }
      rollouts := rollouts[id := rollout];
      return Ok(rollout);
    }

    method SetSimulationResult(id: string, report: Report) returns (r: Result<Rollout, RolloutError>)
      requires Valid()
      modifies this
      ensures Valid()
      ensures id !in old(rollouts) ==> r == Err(NotFound) && rollouts == old(rollouts)
      ensures id in old(rollouts) ==>
                && rollouts == old(rollouts)[id := Step(old(rollouts)[id], SetReport(report))]
                && (r.Ok? <==> Accepts(old(rollouts)[id], SetReport(report))) && (r.Ok? ==> r.value == rollouts[id])
      ensures id in old(rollouts) ==>
                var before := old(rollouts)[id];
                && (r.Ok? <==> before.state.Draft? && FitsStorage(report))
                && rollouts[id] == if r.Ok? then before.(report := Some(report)) else before
    {
      if id !in rollouts {
        return Err(NotFound);
      }
      var rollout := rollouts[id];
      if rollout.state != Draft {
        return Err(InvalidTransition);
      }
      if !Storable(report) {
        return Err(InvalidReport);
      }
      rollout := rollout.(report := Some(report));
      rollouts := rollouts[id := rollout];
      return Ok(rollout);
    }

    /** The report is assigned first, so a refusal at the history limit leaves it behind. */
    method Simulate(id: string, report: Report, actor: string) returns (r: Result<Rollout, RolloutError>)
      requires Valid()
      modifies this
      ensures Valid()
      ensures id !in old(rollouts) ==> r == Err(NotFound) && rollouts == old(rollouts)
      ensures id in old(rollouts) ==>
                var before, op := old(rollouts)[id], Op.Simulate(report, actor);
                && rollouts == old(rollouts)[id := Step(before, op)]
                && (r.Ok? <==> Accepts(before, op)) && (r.Ok? ==> r.value == rollouts[id])
                && (r == Err(HistoryLimit) <==>
                    before.state == Draft && Storable(report) && |before.history| >= MAX_HISTORY)
      ensures id in old(rollouts) ==> SimulatedWith(old(rollouts)[id], report, actor, rollouts[id], r.Ok?)
    {
      if id !in rollouts {
        return Err(NotFound);
      }
      var rollout := rollouts[id];
      StepKeepsTraced(rollout, Op.Simulate(report, actor));
      if rollout.state != Draft {
        return Err(InvalidTransition);
      }
      if !Storable(report) {
        return Err(InvalidReport);
      }
      rollouts := rollouts[id := rollout.(report := Some(report))];
      if |rollout.history| >= MAX_HISTORY {
        return Err(HistoryLimit);
      }
      rollout := rollouts[id];
      rollout := rollout.(history := rollout.history + [Entry(rollout.state, Simulated, actor)]);
      rollout := rollout.(state := Simulated);
      rollouts := rollouts[id := rollout];
      return Ok(rollout);
    }
  }

  // ---------------------------------------------------------------- every run

  /** The entries link up from DRAFT along allowed edges. */
  ghost predicate Linked(h: seq<Entry>) {
    forall i :: 0 <= i < |h| ==> LinkedAt(h, i)
  }

  ghost predicate LinkedAt(h: seq<Entry>, i: nat)
    requires i < |h|
  {
    h[i].from == StateBefore(h, i) && Leads(h[i].from, h[i].to)
  }

  function StateBefore(h: seq<Entry>, i: nat): State
    requires i <= |h|
  {
    if i == 0 then Draft else h[i - 1].to
  }

  function EndOf(h: seq<Entry>): State {
    StateBefore(h, |h|)
  }

  lemma LinkedAppend(h: seq<Entry>, e: Entry)
    requires Linked(h) && e.from == EndOf(h) && Leads(e.from, e.to)
    ensures Linked(h + [e]) && EndOf(h + [e]) == e.to
  {
    var all := h + [e];
    forall i | 0 <= i < |all| ensures LinkedAt(all, i) {
      assert StateBefore(all, i) == StateBefore(h, i);
      assert i < |h| ==> all[i] == h[i] && LinkedAt(h, i);
    }
  }

  ghost predicate Traced(r: Rollout) {
    Linked(r.history) && EndOf(r.history) == r.state && |r.history| <= MAX_HISTORY
  }

  lemma StepKeepsTraced(r: Rollout, op: Op)
    requires Traced(r)
    ensures Traced(Step(r, op))
    ensures r.history <= Step(r, op).history
  {
    match op
    case Move(target, actor) =>
      if Accepts(r, op) {
        LinkedAppend(r.history, Entry(r.state, target, actor));
      }
    case Simulate(report, who) =>
      if Accepts(r, op) {
        LinkedAppend(r.history, Entry(r.state, Simulated, who));
      }
    case SetReport(report) =>
  }

  /** A rollout after a run of operations from a given state. */
  function Run(r: Rollout, ops: seq<Op>): Rollout {
    if ops == [] then r else Step(Run(r, ops[..|ops| - 1]), ops[|ops| - 1])
  }

  /**
   Every rollout's history is a linked path of allowed edges from DRAFT to its state,
   at most 1000 long, and only grows.
   */
  lemma {:induction false} HistoryIsPath(r: Rollout, ops: seq<Op>)
    requires Traced(r)
    ensures Traced(Run(r, ops)) && r.history <= Run(r, ops).history && |Run(r, ops).history| <= 1000
  {
    if ops != [] {
      HistoryIsPath(r, ops[..|ops| - 1]);
      StepKeepsTraced(Run(r, ops[..|ops| - 1]), ops[|ops| - 1]);
    }
  }

  /** Nothing changes a revoked rollout. */
  lemma {:induction false} RevokedIsFinal(r: Rollout, ops: seq<Op>)
    requires r.state == Revoked
    ensures Run(r, ops) == r
  {
    if ops != [] {
      RevokedIsFinal(r, ops[..|ops| - 1]);
    }
  }

  // ---------------------------------------------------------------- review order

  /** Among the first n entries, none from the i-th on goes back to DRAFT. */
  ghost predicate NoDraftSince(h: seq<Entry>, i: int, n: int) {
    0 <= i < n <= |h| && forall k :: i <= k < n ==> !h[k].to.Draft?
  }

  ghost predicate SimulatedAt(h: seq<Entry>, i: int, n: int) {
    NoDraftSince(h, i, n) && h[i].to.Simulated?
  }

  ghost predicate ApprovedAt(h: seq<Entry>, i: int, j: int, n: int) {
    SimulatedAt(h, i, n) && i < j < n && h[j].to.Approved?
  }

  ghost predicate PromotedAt(h: seq<Entry>, i: int, j: int, k: int, n: int) {
    ApprovedAt(h, i, j, n) && j < k < n && h[k].to.Promoted?
  }

  lemma {:induction false} SinceSimulated(h: seq<Entry>, n: nat) returns (i: int)
    requires Linked(h) && n <= |h|
    requires !StateBefore(h, n).Draft? && !StateBefore(h, n).Revoked?
    ensures SimulatedAt(h, i, n)
  {
    var last := h[n - 1];
    if last.to.Simulated? {
      i := n - 1;
    } else {
      assert LinkedAt(h, n - 1);
      i := SinceSimulated(h, n - 1);
    }
  }

  lemma {:induction false} SinceApproved(h: seq<Entry>, n: nat) returns (i: int, j: int)
    requires Linked(h) && n <= |h|
    requires StateBefore(h, n).Approved? || StateBefore(h, n).Promoted? || StateBefore(h, n).Active?
    ensures ApprovedAt(h, i, j, n)
  {
    var last := h[n - 1];
    assert LinkedAt(h, n - 1);
    if last.from.Simulated? {
      i := SinceSimulated(h, n - 1);
      j := n - 1;
    } else {
      i, j := SinceApproved(h, n - 1);
    }
  }

  /**
   Back edges cannot shorten the review: promotion follows simulation and approval, in
   order, since the last DRAFT.
   */
  lemma {:induction false} SincePromoted(h: seq<Entry>, n: nat) returns (i: int, j: int, k: int)
    requires Linked(h) && n <= |h|
    requires StateBefore(h, n).Promoted? || StateBefore(h, n).Active?
    ensures PromotedAt(h, i, j, k, n)
  {
    var last := h[n - 1];
    assert LinkedAt(h, n - 1);
    if last.to.Promoted? {
      i, j := SinceApproved(h, n - 1);
      k := n - 1;
    } else {
      i, j, k := SincePromoted(h, n - 1);
    }
  }

  /** Any ACTIVE rollout has passed SIMULATED, APPROVED and PROMOTED in that order since its last DRAFT. */
  lemma ActiveWasReviewed(ops: seq<Op>)
    requires Run(NewRollout(), ops).state == Active
    ensures var h := Run(NewRollout(), ops).history;
            exists i, j, k :: PromotedAt(h, i, j, k, |h|)
  {
    HistoryIsPath(NewRollout(), ops);
    var h := Run(NewRollout(), ops).history;
    var i, j, k := SincePromoted(h, |h|);
    assert PromotedAt(h, i, j, k, |h|);
  }

  // ---------------------------------------------------------------- reports

  /** Runs in which SIMULATED is only entered through `Simulate`, as the routes do. */
  predicate ThroughSimulate(ops: seq<Op>) {
    forall i :: 0 <= i < |ops| ==> !(ops[i].Move? && ops[i].target == Simulated)
  }

  /** Then a rollout past DRAFT and not revoked carries a report that could be stored. */
  lemma {:induction false} ReviewedHasReport(ops: seq<Op>)
    requires ThroughSimulate(ops)
    ensures var r := Run(NewRollout(), ops);
            && (r.state != Draft && r.state != Revoked ==> r.report.Some?)
            && (r.report.Some? ==> Storable(r.report.value))
  {
    if ops != [] {
      ReviewedHasReport(ops[..|ops| - 1]);
    }
  }

  /** Once approved, the report is the one that was reviewed: it changes only in DRAFT or on the way back to it. */
  lemma {:induction false} ReportIsFrozen(r: Rollout, ops: seq<Op>)
    requires Traced(r) && r.state != Draft
    requires forall n :: |r.history| <= n < |Run(r, ops).history| ==> Run(r, ops).history[n].to != Draft
    ensures Run(r, ops).report == r.report && Run(r, ops).state != Draft
    decreases |ops|
  {
    if ops != [] {
      var front := ops[..|ops| - 1];
      HistoryIsPath(r, front);
      StepKeepsTraced(Run(r, front), ops[|ops| - 1]);
      var h, h' := Run(r, front).history, Run(r, ops).history;
      forall n | |r.history| <= n < |h| ensures h[n].to != Draft {
        assert h[n] == h'[n];
      }
      ReportIsFrozen(r, front);
      if ops[|ops| - 1].Move? && |h'| > |h| {
        assert h'[|h|].to == ops[|ops| - 1].target;
      }
    }
  }

  /**
   A refused simulation leaves the rollout as it was exactly when it was not the
   history limit that refused a new report.
   */
  lemma SimulateIsAtomicExactlyWhen(r: Rollout, report: Report, who: string)
    requires !Accepts(r, Op.Simulate(report, who))
    ensures Step(r, Op.Simulate(report, who)) == r <==>
            r.state != Draft || !Storable(report) || r.report == Some(report)
  {}

  lemma {:induction false} RunAppend(r: Rollout, ops: seq<Op>, op: Op, all: seq<Op>)
    requires all == ops + [op]
    ensures Run(r, all) == Step(Run(r, ops), op)
  {
    assert all[..|all| - 1] == ops;
  }

  lemma {:induction false} RunAppendTwo(r: Rollout, ops: seq<Op>, op: Op, op': Op, all: seq<Op>)
    requires all == ops + [op, op']
    ensures Run(r, all) == Step(Step(Run(r, ops), op), op')
  {
    var most := all[..|all| - 1];
    assert most == ops + [op] && all == most + [op'];
    RunAppend(r, ops, op, most);
    RunAppend(r, most, op', all);
  }

  /** Simulate and fall back to DRAFT, n times over. */
  function Rounds(n: nat, report: Report): seq<Op> {
    if n == 0 then [] else Rounds(n - 1, report) + [Op.Simulate(report, "system"), Move(Draft, "a")]
  }

  lemma {:induction false} RoundsFill(n: nat, report: Report)
    requires 2 * n <= MAX_HISTORY && Storable(report)
    ensures var r := Run(NewRollout(), Rounds(n, report));
            r.state == Draft && r.report == None && |r.history| == 2 * n
  {
    if n > 0 {
      RoundsFill(n - 1, report);
      RunAppendTwo(NewRollout(), Rounds(n - 1, report), Op.Simulate(report, "system"), Move(Draft, "a"),
          Rounds(n, report));
    }
  }

  /** A reachable refusal that is not atomic: the report stays although the state did not move. */
  lemma RefusedSimulateLeavesReport(report: Report)
    requires Storable(report)
    ensures var r, op := Run(NewRollout(), Rounds(500, report)), Op.Simulate(report, "system");
            !Accepts(r, op) && r.report == None && Step(r, op) == r.(report := Some(report))
  {
    RoundsFill(500, report);
  }

  // ---------------------------------------------------------------- revocation

  /** Revocation succeeds exactly when the rollout is not revoked yet and its history has room. */
  lemma RevocableExactlyWhen(r: Rollout, actor: string)
    ensures Step(r, Move(Revoked, actor)) != r <==> r.state != Revoked && |r.history| < 1000
    ensures Step(r, Move(Revoked, actor)) != r ==> Step(r, Move(Revoked, actor)).state == Revoked
  {
  }

  /** Simulate, then approve and promote n times over. */
  function BackAndForth(n: nat, report: Report): seq<Op> {
    if n == 0 then [Op.Simulate(report, "system")]
    else BackAndForth(n - 1, report) + [Move(Approved, "a"), Move(Promoted, "a")]
  }

  lemma {:induction false} BackAndForthFills(n: nat, report: Report)
    requires 2 * n + 1 <= MAX_HISTORY && Storable(report)
    ensures var r := Run(NewRollout(), BackAndForth(n, report));
            r.state == (if n == 0 then Simulated else Promoted) && |r.history| == 2 * n + 1
  {
    if n == 0 {
      assert Run(NewRollout(), [Op.Simulate(report, "system")][..0]) == NewRollout();
    } else {
      BackAndForthFills(n - 1, report);
      var r := Run(NewRollout(), BackAndForth(n - 1, report));
      RunAppendTwo(NewRollout(), BackAndForth(n - 1, report), Move(Approved, "a"), Move(Promoted, "a"),
          BackAndForth(n, report));
      ApproveAndPromote(r);
    }
  }

  lemma ApproveAndPromote(r: Rollout)
    requires (r.state == Simulated || r.state == Promoted) && |r.history| + 2 <= MAX_HISTORY
    ensures var r' := Step(Step(r, Move(Approved, "a")), Move(Promoted, "a"));
            r'.state == Promoted && |r'.history| == |r.history| + 2
  {}

  /** Not every state can be revoked: some ACTIVE rollout, reached through the routes' operations, never can. */
  lemma StuckActive(report: Report, ops: seq<Op>)
    requires Storable(report)
    ensures var r := Run(NewRollout(), BackAndForth(499, report) + [Move(Active, "a")]);
            r.state == Active && Run(r, ops).state == Active
  {
    BackAndForthFills(499, report);
    var all := BackAndForth(499, report) + [Move(Active, "a")];
    RunAppend(NewRollout(), BackAndForth(499, report), Move(Active, "a"), all);
    FullActiveStays(Run(NewRollout(), all), ops);
  }

  lemma {:induction false} FullActiveStays(r: Rollout, ops: seq<Op>)
    requires r.state == Active && |r.history| >= MAX_HISTORY
    ensures Run(r, ops) == r
  {
    if ops != [] {
      FullActiveStays(r, ops[..|ops| - 1]);
    }
  }
}
