/**
 Step history: the simple in-memory store, and the file store with its
 incremental statistics and two-file rotation that may fail half way.
 */
module HistoryStore {
  import opened Basics

  datatype Status = Succeed | Halted | Failed | TimedOut

  datatype Outcome = Outcome(
    stepId: string,
    requestId: string,
    chainId: string,
    kind: string,
    status: Status,
    cost: real,
    tokensIn: int,
    tokensOut: int,
    elapsedMs: real,
    model: Option<string>,
    events: seq<string>,
    timestampMs: int)

  datatype StoreError = ChainLimitReached

  const MAX_CHAINS := 10000
  const MAX_OUTCOMES := 50000

  predicate Succeeded(o: Outcome) {
    o.status == Succeed
  }

  function ClampedLimit(limit: int): (n: nat)
    ensures 1 <= limit <= 50000 ==> n == limit
    ensures limit > 50000 ==> n == 50000
    ensures limit < 1 ==> n == 1
  {
    if limit > MAX_OUTCOMES then MAX_OUTCOMES else if limit < 1 then 1 else limit
  }

  // ---------------------------------------------------------------- MemoryStore

  type Chains = map<string, seq<Outcome>>

  predicate Accepts<V>(known: map<string, V>, chain: string) {
    chain in known || |known| < MAX_CHAINS
  }

  function Recorded(chains: Chains, chain: string): seq<Outcome> {
    if chain in chains then chains[chain] else []
  }

  function AfterMemoryCommit(chains: Chains, o: Outcome): Chains {
    if !Accepts(chains, o.chainId) then chains
    else chains[o.chainId := LastN(Recorded(chains, o.chainId) + [o], MAX_OUTCOMES)]
  }

  /** `k` is the length of the run of outcomes at the end of `log` that all have the given success. */
  ghost predicate IsTrailingRun(log: seq<Outcome>, success: bool, k: int) {
    && 0 <= k <= |log|
    && (forall i :: |log| - k <= i < |log| ==> log[i].status.Succeed? == success)
    && (k < |log| ==> log[|log| - k - 1].status.Succeed? != success)
  }

  lemma TrailingRunUnique(log: seq<Outcome>, success: bool, k: int, l: int)
    requires IsTrailingRun(log, success, k) && IsTrailingRun(log, success, l)
    ensures k == l
  {
  }

  class MemoryStore {
    var chains: Chains

    constructor ()
      ensures chains == map[]
    {
      chains := map[];
    }

    method Commit(o: Outcome) returns (r: Result<(), StoreError>)
      modifies this
      ensures chains == AfterMemoryCommit(old(chains), o)
      ensures r == if Accepts(old(chains), o.chainId) then Ok(()) else Err(ChainLimitReached)
      ensures o.chainId !in old(chains) && |old(chains)| >= 10000 ==> r.Err? && chains == old(chains)
      ensures o.chainId in old(chains) || |old(chains)| < 10000 ==>
                var before := if o.chainId in old(chains) then old(chains)[o.chainId] else [];
                r.Ok? && chains == old(chains)[o.chainId := LastN(before + [o], 50000)]
    {
      if o.chainId !in chains && |chains| >= MAX_CHAINS {
        return Err(ChainLimitReached);
      }
      var chain := (if o.chainId in chains then chains[o.chainId] else []) + [o];
      if |chain| > MAX_OUTCOMES {
        chain := chain[|chain| - MAX_OUTCOMES..];
      }
      chains := chains[o.chainId := chain];
      return Ok(());
    }

    method BuildHistory(chainId: string, limit: int) returns (lastN: seq<Outcome>, failureStreak: nat)
      ensures lastN == LastN(Recorded(chains, chainId), ClampedLimit(limit))
      ensures chainId !in chains ==> lastN == []
      ensures 1 <= limit <= 50000 && chainId in chains ==> lastN == LastN(chains[chainId], limit)
      ensures IsTrailingRun(lastN, false, failureStreak)
    {
      var outcomes := if chainId in chains then chains[chainId] else [];
      lastN := LastN(outcomes, ClampedLimit(limit));
      failureStreak := 0;
      while failureStreak < |lastN| && !Succeeded(lastN[|lastN| - failureStreak - 1])
        invariant failureStreak <= |lastN|
        invariant forall i :: |lastN| - failureStreak <= i < |lastN| ==> !Succeeded(lastN[i])
      {
        failureStreak := failureStreak + 1;
      }
    }
  }

  // ---------------------------------------------------------------- FileStore

  const EPS := 0.000000000001

  function Ema(prev: real, current: real): real {
    if prev < EPS then current else 0.3 * current + 0.7 * prev
  }

  datatype Stats = Stats(
    costEma: real,
    successStreak: nat,
    failureStreak: nat,
    totalCommits: nat,
    commitsSinceRotate: nat)

  const NO_STATS := Stats(0.0, 0, 0, 0, 0)

  function StatsAfter(stats: Stats, o: Outcome): Stats {
    Stats(Ema(stats.costEma, o.cost),
          if Succeeded(o) then stats.successStreak + 1 else 0,
          if Succeeded(o) then 0 else stats.failureStreak + 1,
          stats.totalCommits + 1,
          stats.commitsSinceRotate + 1)
  }

  /** A file `{stem}.jsonl` of the data directory. */
  datatype FileName = Jsonl(stem: string)

  type Files = map<FileName, seq<Outcome>>

  datatype Disk = Disk(files: Files, stats: map<string, Stats>)

  /** How the file system treats a rotation: all goes well, the unlink fails, or the rename after it does. */
  datatype Rotation = Smooth | UnlinkFails | RenameFails

  function ActiveName(chain: string): FileName {
    Jsonl(chain)
  }

  function RotatedName(chain: string): FileName {
    Jsonl(chain + ".1")
  }

  function Lines(files: Files, name: FileName): seq<Outcome> {
    if name in files then files[name] else []
  }

  function Known(stats: map<string, Stats>, chain: string): Stats {
    if chain in stats then stats[chain] else NO_STATS
  }

  /** The files after a rotation attempt, and whether it succeeded. */
  function Rotated(files: Files, active: FileName, rotated: FileName, rotation: Rotation): (Files, bool) {
    if rotated in files && rotation == UnlinkFails then (files, false)
    else if active !in files then (files - {rotated}, true)
    else if rotation == RenameFails then (files - {rotated}, false)
    else ((files - {rotated})[rotated := files[active]] - {active}, true)
  }

  /** The files and the statistics of one chain after an accepted commit. */
  function Committed(
      files: Files, active: FileName, rotated: FileName, stats: Stats, maxLines: int, o: Outcome, rotation: Rotation)
    : (Files, Stats)
  {
    var appended := files[active := Lines(files, active) + [o]];
    var counted := StatsAfter(stats, o);
    if counted.commitsSinceRotate < maxLines then (appended, counted)
    else
      var (moved, ok) := Rotated(appended, active, rotated, rotation);
      (moved, if ok then counted.(commitsSinceRotate := 0) else counted)
  }

  function AfterFileCommit(disk: Disk, maxLines: int, o: Outcome, rotation: Rotation): Disk {
    if !Accepts(disk.stats, o.chainId) then disk
    else
      var (files, stats) := Committed(disk.files, ActiveName(o.chainId), RotatedName(o.chainId),
                                      Known(disk.stats, o.chainId), maxLines, o, rotation);
      Disk(files, disk.stats[o.chainId := stats])
  }

  /** What reading a record back yields: negative numbers raised to zero, and no events. */
  function Sanitized(o: Outcome): Outcome {
    o.(cost := MaxR(0.0, o.cost),
       tokensIn := if o.tokensIn < 0 then 0 else o.tokensIn,
       tokensOut := if o.tokensOut < 0 then 0 else o.tokensOut,
       elapsedMs := MaxR(0.0, o.elapsedMs),
       events := [])
  }

  function SanitizedAll(s: seq<Outcome>): (r: seq<Outcome>)
    ensures |r| == |s| && forall i :: 0 <= i < |s| ==> r[i] == Sanitized(s[i])
  {
    seq(|s|, i requires 0 <= i < |s| => Sanitized(s[i]))
  }

  /** The outcomes the file store finds for a chain. */
  function Recent(files: Files, chain: string, limit: nat): seq<Outcome> {
    var active := SanitizedAll(Lines(files, ActiveName(chain)));
    var found := if |active| < limit then SanitizedAll(Lines(files, RotatedName(chain))) + active else active;
    LastN(found, limit)
  }

  class FileStore {
    const maxLines: int
    var files: Files
    var chainStats: map<string, Stats>

    ghost function State(): Disk
      reads this
    {
      Disk(files, chainStats)
    }

    constructor (maxLines: int)
      ensures this.maxLines == maxLines && State() == Disk(map[], map[])
    {
      this.maxLines := maxLines;
      files, chainStats := map[], map[];
    }

    method Commit(o: Outcome, rotation: Rotation) returns (r: Result<(), StoreError>)
      modifies this
      ensures State() == AfterFileCommit(old(State()), maxLines, o, rotation)
      ensures r == if Accepts(old(chainStats), o.chainId) then Ok(()) else Err(ChainLimitReached)
      ensures r.Err? <==> o.chainId !in old(chainStats) && |old(chainStats)| >= 10000
      ensures r.Err? ==> files == old(files) && chainStats == old(chainStats)
    {
      var chain := o.chainId;
      if chain !in chainStats && |chainStats| >= MAX_CHAINS {
        return Err(ChainLimitReached);
      }
      var active := ActiveName(chain);
      files := files[active := Lines(files, active) + [o]];
      var stats := Count(if chain in chainStats then chainStats[chain] else NO_STATS, o);
      if stats.commitsSinceRotate >= maxLines {
        var ok := Rotate(chain, rotation);
        if ok {
          stats := stats.(commitsSinceRotate := 0);
        }
      }
      chainStats := chainStats[chain := stats];
      return Ok(());
    }

    static method Count(before: Stats, o: Outcome) returns (stats: Stats)
      ensures stats == StatsAfter(before, o)
      ensures stats.costEma == if before.costEma < 0.000000000001 then o.cost else 0.3 * o.cost + 0.7 * before.costEma
      ensures o.status.Succeed? ==> stats.successStreak == before.successStreak + 1 && stats.failureStreak == 0
      ensures !o.status.Succeed? ==> stats.failureStreak == before.failureStreak + 1 && stats.successStreak == 0
      ensures stats.totalCommits == before.totalCommits + 1 && stats.commitsSinceRotate == before.commitsSinceRotate + 1
    {
      stats := before.(costEma := Ema(before.costEma, o.cost));
      if Succeeded(o) {
        stats := stats.(successStreak := stats.successStreak + 1, failureStreak := 0);
      } else {
        stats := stats.(failureStreak := stats.failureStreak + 1, successStreak := 0);
      }
      stats := stats.(totalCommits := stats.totalCommits + 1);
      stats := stats.(commitsSinceRotate := stats.commitsSinceRotate + 1);
    }

    method Rotate(chain: string, rotation: Rotation) returns (ok: bool)
      modifies this`files
      ensures (files, ok) == Rotated(old(files), ActiveName(chain), RotatedName(chain), rotation)
      ensures var active, rotated := Jsonl(chain), Jsonl(chain + ".1");
              && (rotation.UnlinkFails? && rotated in old(files) ==> !ok && files == old(files))
              && (!(rotation.UnlinkFails? && rotated in old(files)) && active !in old(files) ==>
                    ok && files == old(files) - {rotated})
              && (rotation.RenameFails? && active in old(files) ==> !ok && files == old(files) - {rotated})
              && (!rotation.RenameFails? && !(rotation.UnlinkFails? && rotated in old(files))
                  && active in old(files) ==>
                    ok && files == (old(files) - {active})[rotated := old(files)[active]])
    {
      var active, rotated := ActiveName(chain), RotatedName(chain);
      if rotated in files {
        if rotation == UnlinkFails {
          return false;
        }
        files := files - {rotated};
      }
      assert files == old(files) - {rotated};
      assert active != rotated by { assert |active.stem| != |rotated.stem|; }
      if active in files {
        if rotation == RenameFails {
          return false;
        }
        files := files[rotated := files[active]] - {active};
      }
      return true;
    }

    method ReadOutcomes(name: FileName) returns (records: seq<Outcome>)
      ensures records == SanitizedAll(Lines(files, name))
      ensures name !in files ==> records == []
      ensures name in files ==> |records| == |files[name]| && forall i :: 0 <= i < |records| ==>
                var o := files[name][i];
                records[i] == o.(cost := if o.cost < 0.0 then 0.0 else o.cost,
                                 tokensIn := if o.tokensIn < 0 then 0 else o.tokensIn,
                                 tokensOut := if o.tokensOut < 0 then 0 else o.tokensOut,
                                 elapsedMs := if o.elapsedMs < 0.0 then 0.0 else o.elapsedMs,
                                 events := [])
    {
      records := [];
      if name !in files {
        return;
      }
      var lines := files[name];
      for n := 0 to |lines|
        invariant records == SanitizedAll(lines[..n])
      {
        records := records + [Sanitized(lines[n])];
      }
      assert lines[..|lines|] == lines;
    }

    method LoadRecentOutcomes(chain: string, limit: nat) returns (outcomes: seq<Outcome>)
      ensures outcomes == Recent(files, chain, limit)
    {
      outcomes := ReadOutcomes(ActiveName(chain));
      if |outcomes| < limit && RotatedName(chain) in files {
        var older := ReadOutcomes(RotatedName(chain));
        outcomes := older + outcomes;
      }
      assert SanitizedAll([]) + outcomes == outcomes;
      outcomes := LastN(outcomes, limit);
    }

    method BuildHistory(chain: string, limit: int) returns (lastN: seq<Outcome>, stats: Stats)
      ensures lastN == Recent(files, chain, ClampedLimit(limit))
      ensures 1 <= limit <= 50000 ==> lastN == Recent(files, chain, limit)
      ensures stats == Known(chainStats, chain)
    {
      stats := if chain in chainStats then chainStats[chain] else NO_STATS;
      lastN := LoadRecentOutcomes(chain, ClampedLimit(limit));
    }
  }

  // ---------------------------------------------------------------- runs

  datatype Commit = Commit(outcome: Outcome, rotation: Rotation)

  function MemoryRun(commits: seq<Commit>): Chains {
    if commits == [] then map[]
    else AfterMemoryCommit(MemoryRun(commits[..|commits| - 1]), commits[|commits| - 1].outcome)
  }

  function FileRun(maxLines: int, commits: seq<Commit>): Disk {
    if commits == [] then Disk(map[], map[])
    else
      AfterFileCommit(FileRun(maxLines, commits[..|commits| - 1]), maxLines,
                      commits[|commits| - 1].outcome, commits[|commits| - 1].rotation)
  }

  /** The accepted commits of one chain, oldest first. */
  function Of(commits: seq<Commit>, chain: string): seq<Commit> {
    if commits == [] then []
    else
      var earlier, last := commits[..|commits| - 1], commits[|commits| - 1];
      Of(earlier, chain) +
      if last.outcome.chainId == chain && Accepts(MemoryRun(earlier), chain) then [last] else []
  }

  function Outcomes(commits: seq<Commit>): (log: seq<Outcome>)
    ensures |log| == |commits| && forall i :: 0 <= i < |log| ==> log[i] == commits[i].outcome
  {
    seq(|commits|, i requires 0 <= i < |commits| => commits[i].outcome)
  }

  lemma OutcomesStep(commits: seq<Commit>)
    requires commits != []
    ensures Outcomes(commits) == Outcomes(commits[..|commits| - 1]) + [commits[|commits| - 1].outcome]
  {
  }

  /** Everything ever accepted for a chain, oldest first. */
  function Log(commits: seq<Commit>, chain: string): seq<Outcome> {
    Outcomes(Of(commits, chain))
  }

  lemma LogStep(commits: seq<Commit>, chain: string)
    requires commits != []
    ensures var earlier, o := commits[..|commits| - 1], commits[|commits| - 1].outcome;
            Log(commits, chain)
            == Log(earlier, chain) + if o.chainId == chain && Accepts(MemoryRun(earlier), chain) then [o] else []
  {
  }

  /** The in-memory store keeps the end of the log. */
  lemma {:induction false} MemoryKeepsTail(commits: seq<Commit>, chain: string)
    ensures Recorded(MemoryRun(commits), chain) == LastN(Log(commits, chain), MAX_OUTCOMES)
  {
    if commits != [] {
      var earlier, o := commits[..|commits| - 1], commits[|commits| - 1].outcome;
      MemoryKeepsTail(earlier, chain);
      LogStep(commits, chain);
      LastNOfAppend(Log(earlier, chain), [o], MAX_OUTCOMES);
    }
  }

  lemma {:induction false} SameChains(maxLines: int, commits: seq<Commit>)
    ensures FileRun(maxLines, commits).stats.Keys == MemoryRun(commits).Keys
    ensures |FileRun(maxLines, commits).stats| == |MemoryRun(commits)|
  {
    if commits != [] {
      SameChains(maxLines, commits[..|commits| - 1]);
    }
    assert |FileRun(maxLines, commits).stats| == |FileRun(maxLines, commits).stats.Keys|;
    assert |MemoryRun(commits)| == |MemoryRun(commits).Keys|;
  }

  // ---------------------------------------------------------------- one chain on its own

  /** A chain's two files, each possibly absent, and its commit counter. */
  datatype Pair = Pair(active: Option<seq<Outcome>>, rotated: Option<seq<Outcome>>, sinceRotate: nat)

  function Held(file: Option<seq<Outcome>>): seq<Outcome> {
    if file.Some? then file.value else []
  }

  /** The rotation protocol on a single chain. */
  function PairAfter(p: Pair, maxLines: int, c: Commit): Pair {
    var grown, count := Held(p.active) + [c.outcome], p.sinceRotate + 1;
    if count < maxLines then Pair(Some(grown), p.rotated, count)
    else if p.rotated.Some? && c.rotation == UnlinkFails then Pair(Some(grown), p.rotated, count)
    else if c.rotation == RenameFails then Pair(Some(grown), None, count)
    else Pair(None, Some(grown), 0)
  }

  function PairRun(maxLines: int, commits: seq<Commit>): Pair {
    if commits == [] then Pair(None, None, 0)
    else PairAfter(PairRun(maxLines, commits[..|commits| - 1]), maxLines, commits[|commits| - 1])
  }

  function File(files: Files, name: FileName): Option<seq<Outcome>> {
    if name in files then Some(files[name]) else None
  }

  function ViewOf(disk: Disk, chain: string): Pair {
    Pair(File(disk.files, ActiveName(chain)), File(disk.files, RotatedName(chain)),
         Known(disk.stats, chain).commitsSinceRotate)
  }

  /** Two chains share no file unless one id is the other followed by ".1". */
  lemma NamesApart(c: string, d: string)
    ensures RotatedName(c) == RotatedName(d) ==> c == d
    ensures ActiveName(c) == RotatedName(d) <==> c == d + ".1"
    ensures ActiveName(c) != RotatedName(c)
  {
    assert c == (c + ".1")[..|c|] && d == (d + ".1")[..|d|];
    assert |c + ".1"| == |c| + 2 && |d + ".1"| == |d| + 2;
  }

  /** No commit of the run is for a chain whose files collide with those of `chain`. */
  ghost predicate Separate(commits: seq<Commit>, chain: string) {
    forall i :: 0 <= i < |commits| ==>
      commits[i].outcome.chainId != chain + ".1" && commits[i].outcome.chainId + ".1" != chain
  }

  /** A commit leaves every file but the chain's two alone. */
  lemma CommittedElsewhere(
      files: Files, active: FileName, rotated: FileName, stats: Stats, maxLines: int, c: Commit, name: FileName)
    requires name != active && name != rotated
    ensures File(Committed(files, active, rotated, stats, maxLines, c.outcome, c.rotation).0, name) == File(files, name)
  {
  }

  /** On the chain's own files a commit is the single-chain protocol. */
  lemma CommittedHere(files: Files, active: FileName, rotated: FileName, stats: Stats, maxLines: int, c: Commit)
    requires active != rotated
    ensures var (after, counted) := Committed(files, active, rotated, stats, maxLines, c.outcome, c.rotation);
            Pair(File(after, active), File(after, rotated), counted.commitsSinceRotate)
            == PairAfter(Pair(File(files, active), File(files, rotated), stats.commitsSinceRotate), maxLines, c)
  {
  }

  lemma CommitOnView(disk: Disk, maxLines: int, c: Commit, chain: string)
    requires c.outcome.chainId != chain + ".1" && c.outcome.chainId + ".1" != chain
    ensures ViewOf(AfterFileCommit(disk, maxLines, c.outcome, c.rotation), chain)
            == if c.outcome.chainId == chain && Accepts(disk.stats, chain)
               then PairAfter(ViewOf(disk, chain), maxLines, c)
               else ViewOf(disk, chain)
  {
    var own := c.outcome.chainId;
    NamesApart(own, chain);
    var stats := Known(disk.stats, own);
    if own == chain {
      CommittedHere(disk.files, ActiveName(own), RotatedName(own), stats, maxLines, c);
    } else {
      CommittedElsewhere(disk.files, ActiveName(own), RotatedName(own), stats, maxLines, c, ActiveName(chain));
      CommittedElsewhere(disk.files, ActiveName(own), RotatedName(own), stats, maxLines, c, RotatedName(chain));
    }
  }

  /** Whatever other chains do, a chain's files go through its own commits only. */
  lemma {:induction false} ChainsAreIndependent(maxLines: int, commits: seq<Commit>, chain: string)
    requires Separate(commits, chain)
    ensures ViewOf(FileRun(maxLines, commits), chain) == PairRun(maxLines, Of(commits, chain))
  {
    if commits != [] {
      var earlier, last := commits[..|commits| - 1], commits[|commits| - 1];
      ChainsAreIndependent(maxLines, earlier, chain);
      SameChains(maxLines, earlier);
      CommitOnView(FileRun(maxLines, earlier), maxLines, last, chain);
      var own := Of(commits, chain);
      assert own != Of(earlier, chain) ==> own[..|own| - 1] == Of(earlier, chain);
    }
  }

  // ---------------------------------------------------------------- rotation loses nothing a reader may ask for

  function Threshold(maxLines: int): nat {
    if maxLines < 1 then 1 else maxLines
  }

  /** The log is what rotation discarded followed by the two files, and one of them is a full file once anything was. */
  ghost predicate Intact(
      gone: seq<Outcome>, rotated: seq<Outcome>, active: seq<Outcome>, log: seq<Outcome>, threshold: nat) {
    log == gone + (rotated + active) && (gone == [] || |rotated| >= threshold || |active| >= threshold)
  }

  lemma IntactAppend(
      gone: seq<Outcome>, rotated: seq<Outcome>, active: seq<Outcome>, log: seq<Outcome>, threshold: nat, o: Outcome)
    requires Intact(gone, rotated, active, log, threshold)
    ensures Intact(gone, rotated, active + [o], log + [o], threshold)
  {
  }

  /** Dropping the older file, with or without the rename that should follow, is safe once the active file is full. */
  lemma IntactDrop(gone: seq<Outcome>, rotated: seq<Outcome>, active: seq<Outcome>, log: seq<Outcome>, threshold: nat)
    requires Intact(gone, rotated, active, log, threshold) && |active| >= threshold
    ensures Intact(gone + rotated, [], active, log, threshold) && Intact(gone + rotated, active, [], log, threshold)
  {
  }

  ghost predicate PairIntact(gone: seq<Outcome>, p: Pair, log: seq<Outcome>, threshold: nat) {
    Intact(gone, Held(p.rotated), Held(p.active), log, threshold) && p.sinceRotate == |Held(p.active)|
  }

  lemma PairAfterIntact(gone: seq<Outcome>, p: Pair, maxLines: int, c: Commit, log: seq<Outcome>)
    requires PairIntact(gone, p, log, Threshold(maxLines))
    ensures var after := PairAfter(p, maxLines, c);
            || PairIntact(gone, after, log + [c.outcome], Threshold(maxLines))
            || PairIntact(gone + Held(p.rotated), after, log + [c.outcome], Threshold(maxLines))
  {
    var rotated, grown := Held(p.rotated), Held(p.active) + [c.outcome];
    IntactAppend(gone, rotated, Held(p.active), log, Threshold(maxLines), c.outcome);
    if |grown| >= maxLines {
      IntactDrop(gone, rotated, grown, log + [c.outcome], Threshold(maxLines));
    }
  }

  lemma {:induction false} PairRunIntact(maxLines: int, commits: seq<Commit>) returns (gone: seq<Outcome>)
    ensures PairIntact(gone, PairRun(maxLines, commits), Outcomes(commits), Threshold(maxLines))
  {
    gone := [];
    if commits != [] {
      var earlier, last := commits[..|commits| - 1], commits[|commits| - 1];
      OutcomesStep(commits);
      gone := PairRunIntact(maxLines, earlier);
      var p := PairRun(maxLines, earlier);
      PairAfterIntact(gone, p, maxLines, last, Outcomes(earlier));
      if !PairIntact(gone, PairRun(maxLines, commits), Outcomes(commits), Threshold(maxLines)) {
        gone := gone + Held(p.rotated);
      }
    }
  }

  /** The records a reader of the chain's two files ends up with. */
  function Found(active: seq<Outcome>, rotated: seq<Outcome>, limit: nat): seq<Outcome> {
    LastN(if |active| < limit then rotated + active else active, limit)
  }

  lemma FoundOfIntact(
      gone: seq<Outcome>, rotated: seq<Outcome>, active: seq<Outcome>, log: seq<Outcome>, threshold: nat, limit: nat)
    requires Intact(gone, rotated, active, log, threshold) && limit <= threshold
    ensures Found(active, rotated, limit) == LastN(log, limit)
  {
  }

  lemma RecentIsFound(files: Files, chain: string, limit: nat)
    ensures Recent(files, chain, limit)
            == SanitizedAll(Found(Lines(files, ActiveName(chain)), Lines(files, RotatedName(chain)), limit))
  {
    SanitizedParts(Lines(files, ActiveName(chain)), Lines(files, RotatedName(chain)), limit);
  }

  lemma SanitizedParts(active: seq<Outcome>, rotated: seq<Outcome>, limit: nat)
    ensures LastN(if |active| < limit then SanitizedAll(rotated) + SanitizedAll(active) else SanitizedAll(active),
                  limit)
            == SanitizedAll(Found(active, rotated, limit))
  {
    assert SanitizedAll(rotated) + SanitizedAll(active) == SanitizedAll(rotated + active);
  }

  /**
   For every run of commits to any chains and every pattern of rotation failures,
   the file store returns exactly the last `limit` outcomes of the chain, provided
   the limit is at most one file: the same sequence the in-memory store returns, as
   read back from disk.
   */
  lemma FileStoreMatchesMemory(maxLines: int, commits: seq<Commit>, chain: string, limit: int)
    requires Separate(commits, chain) && ClampedLimit(limit) <= Threshold(maxLines)
    ensures var inMemory := LastN(Recorded(MemoryRun(commits), chain), ClampedLimit(limit));
            && inMemory == LastN(Log(commits, chain), ClampedLimit(limit))
            && Recent(FileRun(maxLines, commits).files, chain, ClampedLimit(limit)) == SanitizedAll(inMemory)
    ensures 1 <= limit <= 50000 ==>
              var last := LastN(Log(commits, chain), limit);
              && LastN(Recorded(MemoryRun(commits), chain), limit) == last
              && Recent(FileRun(maxLines, commits).files, chain, limit) == SanitizedAll(last)
  {
    var n, p := ClampedLimit(limit), PairRun(maxLines, Of(commits, chain));
    MemoryKeepsTail(commits, chain);
    LastNOfLastN(Log(commits, chain), MAX_OUTCOMES, n);
    ChainsAreIndependent(maxLines, commits, chain);
    var gone := PairRunIntact(maxLines, Of(commits, chain));
    FoundOfIntact(gone, Held(p.rotated), Held(p.active), Log(commits, chain), Threshold(maxLines), n);
    RecentIsFound(FileRun(maxLines, commits).files, chain, n);
  }

  /** Nothing in the outcome is changed by writing it out and reading it back. */
  predicate IsClean(o: Outcome) {
    o.cost >= 0.0 && o.tokensIn >= 0 && o.tokensOut >= 0 && o.elapsedMs >= 0.0 && o.events == []
  }

  /** The stores agree to the letter exactly when nothing recent needed cleaning. */
  lemma AgreeExactlyWhenClean(maxLines: int, commits: seq<Commit>, chain: string, limit: int)
    requires Separate(commits, chain) && ClampedLimit(limit) <= Threshold(maxLines)
    ensures var inMemory := LastN(Recorded(MemoryRun(commits), chain), ClampedLimit(limit));
            Recent(FileRun(maxLines, commits).files, chain, ClampedLimit(limit)) == inMemory
            <==> forall i :: 0 <= i < |inMemory| ==> IsClean(inMemory[i])
  {
    var inMemory := LastN(Recorded(MemoryRun(commits), chain), ClampedLimit(limit));
    FileStoreMatchesMemory(maxLines, commits, chain, limit);
    SanitizedWhenClean(inMemory);
  }

  lemma SanitizedWhenClean(s: seq<Outcome>)
    ensures SanitizedAll(s) == s <==> forall i :: 0 <= i < |s| ==> IsClean(s[i])
  {
  }

  function Copies(o: Outcome, n: nat): seq<Commit> {
    if n == 0 then [] else Copies(o, n - 1) + [Commit(o, Smooth)]
  }

  /** How many records the two files hold, and the commit counter. */
  datatype Sizes = Sizes(active: nat, rotated: nat, sinceRotate: nat)

  function SizesOf(p: Pair): Sizes {
    Sizes(|Held(p.active)|, |Held(p.rotated)|, p.sinceRotate)
  }

  function SizesAfter(s: Sizes, maxLines: int): Sizes {
    if s.sinceRotate + 1 < maxLines then Sizes(s.active + 1, s.rotated, s.sinceRotate + 1)
    else Sizes(0, s.active + 1, 0)
  }

  function SizesRun(maxLines: int, n: nat): Sizes {
    if n == 0 then Sizes(0, 0, 0) else SizesAfter(SizesRun(maxLines, n - 1), maxLines)
  }

  lemma SizesStep(p: Pair, maxLines: int, c: Commit)
    requires c.rotation.Smooth?
    ensures SizesOf(PairAfter(p, maxLines, c)) == SizesAfter(SizesOf(p), maxLines)
  {
  }

  lemma {:induction false} SizesOfCopies(o: Outcome, maxLines: int, n: nat)
    ensures SizesOf(PairRun(maxLines, Copies(o, n))) == SizesRun(maxLines, n)
  {
    if n > 0 {
      var copies := Copies(o, n);
      SizesOfCopies(o, maxLines, n - 1);
      assert copies[..|copies| - 1] == Copies(o, n - 1);
      SizesStep(PairRun(maxLines, Copies(o, n - 1)), maxLines, Commit(o, Smooth));
    }
  }

  lemma {:induction false} SizesOfTwoFiles(maxLines: int, n: nat)
    requires n <= 2 * Threshold(maxLines)
    ensures var m, s := Threshold(maxLines), SizesRun(maxLines, n);
            && s.rotated == (if n < m then 0 else m)
            && s.active == s.sinceRotate == (if n == 2 * m then 0 else if n < m then n else n - m)
  {
    if n > 0 {
      SizesOfTwoFiles(maxLines, n - 1);
    }
  }

  lemma {:induction false} CopiesAreAccepted(o: Outcome, n: nat)
    ensures |Copies(o, n)| == n && Of(Copies(o, n), o.chainId) == Copies(o, n)
    ensures MemoryRun(Copies(o, n)).Keys <= {o.chainId}
  {
    if n > 0 {
      CopiesAreAccepted(o, n - 1);
      assert Copies(o, n)[..|Copies(o, n)| - 1] == Copies(o, n - 1);
      AtMostOneKey(MemoryRun(Copies(o, n - 1)), o.chainId);
    }
  }

  lemma {:induction false} CopiesAreSeparate(o: Outcome, n: nat)
    ensures Separate(Copies(o, n), o.chainId)
  {
    if n > 0 {
      CopiesAreSeparate(o, n - 1);
      assert |o.chainId| != |o.chainId + ".1"|;
    }
  }

  lemma AtMostOneKey<V>(m: map<string, V>, k: string)
    requires m.Keys <= {k}
    ensures |m| <= 1
  {
    if m.Keys != {} {
      assert m.Keys == {k};
    }
    assert |m| == |m.Keys|;
  }

  /** Past one file the promise fails for every configuration: two files' worth of commits leave only one to read. */
  lemma LimitBeyondOneFileFails(o: Outcome, maxLines: int, limit: int)
    requires ClampedLimit(limit) > Threshold(maxLines)
    ensures var commits := Copies(o, 2 * Threshold(maxLines));
            && Separate(commits, o.chainId)
            && Recent(FileRun(maxLines, commits).files, o.chainId, ClampedLimit(limit))
               != SanitizedAll(LastN(Log(commits, o.chainId), ClampedLimit(limit)))
  {
    var n, limited := 2 * Threshold(maxLines), ClampedLimit(limit);
    var commits := Copies(o, n);
    CopiesAreAccepted(o, n);
    CopiesAreSeparate(o, n);
    OneFileLeft(o, maxLines, limited);
    assert |LastN(Log(commits, o.chainId), limited)| > Threshold(maxLines);
  }

  lemma OneFileLeft(o: Outcome, maxLines: int, limit: nat)
    requires limit > Threshold(maxLines)
    ensures |Recent(FileRun(maxLines, Copies(o, 2 * Threshold(maxLines))).files, o.chainId, limit)|
            == Threshold(maxLines)
  {
    var n := 2 * Threshold(maxLines);
    CopiesAreAccepted(o, n);
    CopiesAreSeparate(o, n);
    SizesOfCopies(o, maxLines, n);
    SizesOfTwoFiles(maxLines, n);
    ChainsAreIndependent(maxLines, Copies(o, n), o.chainId);
    RecentIsFound(FileRun(maxLines, Copies(o, n)).files, o.chainId, limit);
  }

  lemma CommitToOwnFile(files: Files, active: FileName, rotated: FileName, stats: Stats, maxLines: int, o: Outcome)
    requires active != rotated && files.Keys <= {active}
    ensures var (after, counted) := Committed(files, active, rotated, stats, maxLines, o, Smooth);
            var full := stats.commitsSinceRotate + 1 >= maxLines;
            && after == map[(if full then rotated else active) := Lines(files, active) + [o]]
            && counted.commitsSinceRotate == if full then 0 else stats.commitsSinceRotate + 1
  {
  }

  /** A single chain has written these records to its first file, or has just rotated them out when the file is full. */
  ghost predicate FirstFile(disk: Disk, chain: string, maxLines: int, records: seq<Outcome>) {
    && disk.stats.Keys <= {chain}
    && Known(disk.stats, chain).commitsSinceRotate == (if |records| < Threshold(maxLines) then |records| else 0)
    && (|records| < Threshold(maxLines) ==>
          disk.files.Keys <= {ActiveName(chain)} && Lines(disk.files, ActiveName(chain)) == records)
    && (|records| >= Threshold(maxLines) ==> disk.files == map[RotatedName(chain) := records])
  }

  lemma FirstFileGrows(disk: Disk, maxLines: int, records: seq<Outcome>, o: Outcome)
    requires FirstFile(disk, o.chainId, maxLines, records) && |records| < Threshold(maxLines)
    ensures FirstFile(AfterFileCommit(disk, maxLines, o, Smooth), o.chainId, maxLines, records + [o])
  {
    AtMostOneKey(disk.stats, o.chainId);
    NamesApart(o.chainId, o.chainId);
    CommitToOwnFile(disk.files, ActiveName(o.chainId), RotatedName(o.chainId), Known(disk.stats, o.chainId),
        maxLines, o);
  }

  /** A chain on its own fills its first file and then rotates it out. */
  lemma {:induction false} FirstFileFills(maxLines: int, commits: seq<Commit>, chain: string)
    requires |commits| <= Threshold(maxLines)
    requires forall i :: 0 <= i < |commits| ==> commits[i].outcome.chainId == chain && commits[i].rotation.Smooth?
    ensures FirstFile(FileRun(maxLines, commits), chain, maxLines, Outcomes(commits))
  {
    if commits != [] {
      var earlier, o := commits[..|commits| - 1], commits[|commits| - 1].outcome;
      FirstFileFills(maxLines, earlier, chain);
      FirstFileGrows(FileRun(maxLines, earlier), maxLines, Outcomes(earlier), o);
      OutcomesStep(commits);
    }
  }

  lemma {:induction false} CopiesAreSame(o: Outcome, n: nat)
    ensures |Copies(o, n)| == n && forall i :: 0 <= i < n ==> Copies(o, n)[i] == Commit(o, Smooth)
  {
    if n > 0 {
      CopiesAreSame(o, n - 1);
    }
  }

  /** A full file of one chain, then one commit of a chain named like the file it was rotated to. */
  function Collision(o: Outcome, thief: Outcome, maxLines: int): seq<Commit> {
    Copies(o, Threshold(maxLines)) + [Commit(thief, Smooth)]
  }

  lemma CollisionOnDisk(o: Outcome, thief: Outcome, maxLines: int)
    requires thief.chainId == o.chainId + ".1"
    ensures var records := Outcomes(Copies(o, Threshold(maxLines))) + [thief];
            FileRun(maxLines, Collision(o, thief, maxLines)).files ==
            map[(if maxLines > 1 then ActiveName(thief.chainId) else RotatedName(thief.chainId)) := records]
  {
    var copies, commits := Copies(o, Threshold(maxLines)), Collision(o, thief, maxLines);
    assert commits[..|commits| - 1] == copies;
    CopiesAreSame(o, Threshold(maxLines));
    FirstFileFills(maxLines, copies, o.chainId);
    ThiefCommits(FileRun(maxLines, copies), o, thief, maxLines, Outcomes(copies));
  }

  lemma ThiefCommits(disk: Disk, o: Outcome, thief: Outcome, maxLines: int, records: seq<Outcome>)
    requires thief.chainId == o.chainId + ".1"
    requires FirstFile(disk, o.chainId, maxLines, records) && |records| == Threshold(maxLines)
    ensures AfterFileCommit(disk, maxLines, thief, Smooth).files ==
            map[(if maxLines > 1 then ActiveName(thief.chainId) else RotatedName(thief.chainId)) := records + [thief]]
  {
    assert |o.chainId| != |thief.chainId|;
    AtMostOneKey(disk.stats, o.chainId);
    NamesApart(thief.chainId, thief.chainId);
    CommitToOwnFile(disk.files, ActiveName(thief.chainId), RotatedName(thief.chainId), NO_STATS, maxLines, thief);
  }

  lemma CollisionLogs(o: Outcome, thief: Outcome, maxLines: int)
    requires thief.chainId == o.chainId + ".1"
    ensures LastN(Log(Collision(o, thief, maxLines), o.chainId), 1) == [o]
    ensures Log(Collision(o, thief, maxLines), thief.chainId) == [thief]
  {
    var n, commits := Threshold(maxLines), Collision(o, thief, maxLines);
    CopiesAreAccepted(o, n);
    AtMostOneKey(MemoryRun(Copies(o, n)), o.chainId);
    assert commits[..|commits| - 1] == Copies(o, n) && |o.chainId| != |thief.chainId|;
    LogStep(commits, o.chainId);
    LogStep(commits, thief.chainId);
    NothingOf(o, n, thief.chainId);
    OutcomesStep(Copies(o, n));
  }

  lemma {:induction false} NothingOf(o: Outcome, n: nat, chain: string)
    requires chain != o.chainId
    ensures Log(Copies(o, n), chain) == []
  {
    if n > 0 {
      NothingOf(o, n - 1, chain);
      assert Copies(o, n)[..|Copies(o, n)| - 1] == Copies(o, n - 1);
    }
  }

  /**
   And separation is needed, for every configuration: a chain called like another's
   rotated file takes that file over. The victim's latest outcome is no longer what
   it reads, and the other chain reads it as its own.
   */
  lemma CollidingChainTakesFile(o: Outcome, thief: Outcome, maxLines: int)
    requires thief.chainId == o.chainId + ".1"
    ensures var commits := Collision(o, thief, maxLines);
            var files := FileRun(maxLines, commits).files;
            && LastN(Log(commits, o.chainId), 1) == [o] && Log(commits, thief.chainId) == [thief]
            && Recent(files, o.chainId, 1) == (if maxLines > 1 then [Sanitized(thief)] else [])
            && Recent(files, thief.chainId, 2) == [Sanitized(o), Sanitized(thief)]
  {
    var copies := Outcomes(Copies(o, Threshold(maxLines)));
    CollisionOnDisk(o, thief, maxLines);
    CollisionLogs(o, thief, maxLines);
    CopiesAreAccepted(o, Threshold(maxLines));
    OutcomesStep(Copies(o, Threshold(maxLines)));
    if maxLines > 1 {
      ReadShared(map[ActiveName(thief.chainId) := copies + [thief]], o, thief, copies);
    } else {
      ReadMoved(map[RotatedName(thief.chainId) := copies + [thief]], o, thief, copies);
    }
  }

  lemma ReadShared(files: Files, o: Outcome, thief: Outcome, copies: seq<Outcome>)
    requires thief.chainId == o.chainId + ".1" && copies != [] && copies[|copies| - 1] == o
    requires files == map[ActiveName(thief.chainId) := copies + [thief]]
    ensures Recent(files, o.chainId, 1) == [Sanitized(thief)]
    ensures Recent(files, thief.chainId, 2) == [Sanitized(o), Sanitized(thief)]
  {
    assert |ActiveName(o.chainId).stem| < |ActiveName(thief.chainId).stem|;
    RecentIsFound(files, o.chainId, 1);
    RecentIsFound(files, thief.chainId, 2);
    assert copies + [thief] + [] == copies + [thief];
  }

  lemma ReadMoved(files: Files, o: Outcome, thief: Outcome, copies: seq<Outcome>)
    requires thief.chainId == o.chainId + ".1" && copies != [] && copies[|copies| - 1] == o
    requires files == map[RotatedName(thief.chainId) := copies + [thief]]
    ensures Recent(files, o.chainId, 1) == []
    ensures Recent(files, thief.chainId, 2) == [Sanitized(o), Sanitized(thief)]
  {
    assert |ActiveName(o.chainId).stem| < |ActiveName(thief.chainId).stem| < |RotatedName(thief.chainId).stem|;
    RecentIsFound(files, o.chainId, 1);
    RecentIsFound(files, thief.chainId, 2);
    assert copies + [thief] + [] == copies + [thief];
  }

  // ---------------------------------------------------------------- incremental statistics

  /** The statistics of a chain, from its own commits. */
  function Tally(commits: seq<Commit>): Stats {
    if commits == [] then NO_STATS
    else StatsAfter(Tally(commits[..|commits| - 1]), commits[|commits| - 1].outcome)
  }

  /** The statistics without the rotation counter. */
  function Essence(stats: Stats): Stats {
    stats.(commitsSinceRotate := 0)
  }

  lemma CommitOnStats(disk: Disk, maxLines: int, c: Commit, chain: string)
    ensures Essence(Known(AfterFileCommit(disk, maxLines, c.outcome, c.rotation).stats, chain))
            == if c.outcome.chainId == chain && Accepts(disk.stats, chain)
               then Essence(StatsAfter(Known(disk.stats, chain), c.outcome))
               else Essence(Known(disk.stats, chain))
  {
  }

  lemma {:induction false} StatsAreTally(maxLines: int, commits: seq<Commit>, chain: string)
    ensures Essence(Known(FileRun(maxLines, commits).stats, chain)) == Essence(Tally(Of(commits, chain)))
  {
    if commits != [] {
      var earlier := commits[..|commits| - 1];
      StatsAreTally(maxLines, earlier, chain);
      SameChains(maxLines, earlier);
      CommitOnStats(FileRun(maxLines, earlier), maxLines, commits[|commits| - 1], chain);
      var own := Of(commits, chain);
      assert own != Of(earlier, chain) ==> own[..|own| - 1] == Of(earlier, chain);
    }
  }

  lemma TrailingRunStep(log: seq<Outcome>, success: bool, k: int, o: Outcome)
    requires IsTrailingRun(log, success, k)
    ensures IsTrailingRun(log + [o], success, if Succeeded(o) == success then k + 1 else 0)
  {
  }

  lemma {:induction false} TallyStreaks(commits: seq<Commit>)
    ensures IsTrailingRun(Outcomes(commits), true, Tally(commits).successStreak)
    ensures IsTrailingRun(Outcomes(commits), false, Tally(commits).failureStreak)
    ensures Tally(commits).totalCommits == |commits|
  {
    if commits != [] {
      var earlier, o := commits[..|commits| - 1], commits[|commits| - 1].outcome;
      TallyStreaks(earlier);
      TrailingRunStep(Outcomes(earlier), true, Tally(earlier).successStreak, o);
      TrailingRunStep(Outcomes(earlier), false, Tally(earlier).failureStreak, o);
      OutcomesStep(commits);
    }
  }

  /** The counters kept one commit at a time are the trailing runs of the whole log, and its length. */
  lemma StreaksMatchLog(maxLines: int, commits: seq<Commit>, chain: string)
    ensures var stats := Known(FileRun(maxLines, commits).stats, chain);
            && IsTrailingRun(Log(commits, chain), true, stats.successStreak)
            && IsTrailingRun(Log(commits, chain), false, stats.failureStreak)
            && stats.totalCommits == |Log(commits, chain)|
  {
    StatsAreTally(maxLines, commits, chain);
    TallyStreaks(Of(commits, chain));
  }

  /** The in-memory store's scanned streak is the same number, cut at the limit. */
  lemma ScannedStreakIsCapped(maxLines: int, commits: seq<Commit>, chain: string, limit: int, scanned: int)
    requires IsTrailingRun(LastN(Recorded(MemoryRun(commits), chain), ClampedLimit(limit)), false, scanned)
    ensures var whole := Known(FileRun(maxLines, commits).stats, chain).failureStreak;
            scanned == if whole <= ClampedLimit(limit) then whole else ClampedLimit(limit)
  {
    var log, n := Log(commits, chain), ClampedLimit(limit);
    StreaksMatchLog(maxLines, commits, chain);
    MemoryKeepsTail(commits, chain);
    LastNOfLastN(log, MAX_OUTCOMES, n);
    TailStreak(log, n, Known(FileRun(maxLines, commits).stats, chain).failureStreak, scanned);
  }

  lemma TailStreak(log: seq<Outcome>, n: nat, whole: int, scanned: int)
    requires IsTrailingRun(log, false, whole) && IsTrailingRun(LastN(log, n), false, scanned)
    ensures scanned == if whole <= n then whole else n
  {
  }

  lemma {:induction false} TallyEma(commits: seq<Commit>, low: real, high: real)
    requires forall i :: 0 <= i < |commits| ==> low <= commits[i].outcome.cost <= high
    ensures commits != [] ==> low <= Tally(commits).costEma <= high
  {
    if commits != [] {
      TallyEma(commits[..|commits| - 1], low, high);
    }
  }

  /** The moving average stays between the smallest and the largest cost committed, resets included. */
  lemma EmaWithinCosts(maxLines: int, commits: seq<Commit>, chain: string, low: real, high: real)
    requires Log(commits, chain) != []
    requires forall i :: 0 <= i < |Log(commits, chain)| ==> low <= Log(commits, chain)[i].cost <= high
    ensures low <= Known(FileRun(maxLines, commits).stats, chain).costEma <= high
  {
    StatsAreTally(maxLines, commits, chain);
    var own := Of(commits, chain);
    assert forall i :: 0 <= i < |own| ==> own[i].outcome == Log(commits, chain)[i];
    TallyEma(own, low, high);
  }
}
