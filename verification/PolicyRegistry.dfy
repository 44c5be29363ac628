/**
 Optimistic concurrency on policies. `update` is two lock sections with unlocked
 validation between them; `register` distributes outside the lock and then stores.
 Versions come from the distributor's own counter.
 */
module PolicyRegistry {
  import opened Basics

  datatype Policy = Policy(
    chainId: string,
    ceilingUsd: real,
    onExceed: string,
    issuedAt: real,
    ceilingTokensOut: Option<int>,
    ceilingSteps: Option<int>,
    timeoutMs: Option<int>,
    fallbackModel: Option<string>,
    rateWindowSeconds: Option<real>,
    rateCeilingCalls: Option<int>,
    priority: int,
    deadline: Option<real>,
    expiry: Option<real>,
    plannerVersion: Option<string>)

  /** The fields of an update request; an absent one leaves the policy alone. */
  datatype Fields = Fields(
    ceilingUsd: Option<real>,
    onExceed: Option<string>,
    ceilingTokensOut: Option<int>,
    ceilingSteps: Option<int>,
    timeoutMs: Option<int>,
    fallbackModel: Option<string>,
    rateWindowSeconds: Option<real>,
    rateCeilingCalls: Option<int>,
    priority: Option<int>,
    deadline: Option<real>,
    expiry: Option<real>,
    plannerVersion: Option<string>)

  datatype Bundle = Bundle(policy: Policy, version: nat)

  datatype RegistryError = NotFound | Stale | Invalid

  function Or<T>(change: Option<T>, otherwise: T): T {
    if change.Some? then change.value else otherwise
  }

  function First<T>(change: Option<T>, otherwise: Option<T>): Option<T> {
    if change.Some? then change else otherwise
  }

  function Updated(policy: Policy, fields: Fields, now: real): Policy {
    Policy(policy.chainId,
           Or(fields.ceilingUsd, policy.ceilingUsd),
           Or(fields.onExceed, policy.onExceed),
           now,
           First(fields.ceilingTokensOut, policy.ceilingTokensOut),
           First(fields.ceilingSteps, policy.ceilingSteps),
           First(fields.timeoutMs, policy.timeoutMs),
           First(fields.fallbackModel, policy.fallbackModel),
           First(fields.rateWindowSeconds, policy.rateWindowSeconds),
           First(fields.rateCeilingCalls, policy.rateCeilingCalls),
           Or(fields.priority, policy.priority),
           First(fields.deadline, policy.deadline),
           First(fields.expiry, policy.expiry),
           First(fields.plannerVersion, policy.plannerVersion))
  }

  /** The policy after an update: what was given replaces what was there, the rest stays, and the issue time is now. */
  ghost predicate FieldsApplied(before: Policy, fields: Fields, now: real, after: Policy) {
    && after.chainId == before.chainId && after.issuedAt == now
    && after.ceilingUsd == (if fields.ceilingUsd.Some? then fields.ceilingUsd.value else before.ceilingUsd)
    && after.onExceed == (if fields.onExceed.Some? then fields.onExceed.value else before.onExceed)
    && after.ceilingTokensOut ==
       (if fields.ceilingTokensOut.Some? then fields.ceilingTokensOut else before.ceilingTokensOut)
    && after.ceilingSteps == (if fields.ceilingSteps.Some? then fields.ceilingSteps else before.ceilingSteps)
    && after.timeoutMs == (if fields.timeoutMs.Some? then fields.timeoutMs else before.timeoutMs)
    && after.fallbackModel == (if fields.fallbackModel.Some? then fields.fallbackModel else before.fallbackModel)
    && after.rateWindowSeconds ==
       (if fields.rateWindowSeconds.Some? then fields.rateWindowSeconds else before.rateWindowSeconds)
    && after.rateCeilingCalls ==
       (if fields.rateCeilingCalls.Some? then fields.rateCeilingCalls else before.rateCeilingCalls)
    && after.priority == (if fields.priority.Some? then fields.priority.value else before.priority)
    && after.deadline == (if fields.deadline.Some? then fields.deadline else before.deadline)
    && after.expiry == (if fields.expiry.Some? then fields.expiry else before.expiry)
    && after.plannerVersion == (if fields.plannerVersion.Some? then fields.plannerVersion else before.plannerVersion)
  }

  lemma UpdatedAppliesFields(policy: Policy, fields: Fields, now: real)
    ensures FieldsApplied(policy, fields, now, Updated(policy, fields, now))
  {
  }

  predicate NonNegative(x: Option<int>) {
    x.Some? ==> x.value >= 0
  }

  /** The distributor's admission test. */
  predicate Valid(policy: Policy, strict: bool) {
    && policy.ceilingUsd >= 0.0
    && policy.onExceed in {"halt", "degrade", "queue"}
    && NonNegative(policy.ceilingSteps) && NonNegative(policy.ceilingTokensOut) && NonNegative(policy.timeoutMs)
    && (strict ==> policy.ceilingSteps.Some? && policy.ceilingTokensOut.Some? && policy.timeoutMs.Some?)
  }

  /** What the distributor admits. */
  ghost predicate Admissible(policy: Policy, strict: bool) {
    && policy.ceilingUsd >= 0.0
    && (policy.onExceed == "halt" || policy.onExceed == "degrade" || policy.onExceed == "queue")
    && (policy.ceilingSteps.Some? ==> policy.ceilingSteps.value >= 0)
    && (policy.ceilingTokensOut.Some? ==> policy.ceilingTokensOut.value >= 0)
    && (policy.timeoutMs.Some? ==> policy.timeoutMs.value >= 0)
    && (strict ==> policy.ceilingSteps.Some? && policy.ceilingTokensOut.Some? && policy.timeoutMs.Some?)
  }

  lemma ValidIsAdmissible(policy: Policy, strict: bool)
    ensures Valid(policy, strict) <==> Admissible(policy, strict)
  {
  }

  // ---------------------------------------------------------------- the objects

  class Distributor {
    const strict: bool
    var version: nat

    constructor (strict: bool)
      ensures this.strict == strict && version == 0
    {
      this.strict := strict;
      version := 0;
    }

    method Distribute(policy: Policy) returns (r: Result<Bundle, RegistryError>)
      modifies this`version
      ensures r == if Valid(policy, strict) then Ok(NextBundle(old(version), policy)) else Err(Invalid)
      ensures version == if r.Ok? then r.value.version else old(version)
      ensures r.Ok? <==> Admissible(policy, strict)
      ensures r.Ok? ==> r.value.policy == policy && r.value.version == version == old(version) + 1
    {
      ValidIsAdmissible(policy, strict);
      if !Valid(policy, strict) {
        return Err(Invalid);
      }
      version := version + 1;
      return Ok(Bundle(policy, version));
    }
  }

  class Registry {
    const distributor: Distributor
    var store: map<string, Bundle>

    constructor (distributor: Distributor)
      ensures this.distributor == distributor && store == map[]
    {
      this.distributor := distributor;
      store := map[];
    }

    /** The lock section of register. */
    method Put(bundle: Bundle)
      modifies this`store
      ensures store == AfterPut(old(store), bundle)
      ensures store == old(store)[bundle.policy.chainId := bundle]
    {
      store := store[bundle.policy.chainId := bundle];
    }

    /** Distributes outside the lock, then stores whatever is there. */
    method Register(policy: Policy) returns (r: Result<Bundle, RegistryError>)
      modifies this`store, distributor`version
      ensures r == if Valid(policy, distributor.strict) then Ok(NextBundle(old(distributor.version), policy))
                   else Err(Invalid)
      ensures store == if r.Ok? then AfterPut(old(store), r.value) else old(store)
      ensures distributor.version == if r.Ok? then r.value.version else old(distributor.version)
    {
      r := distributor.Distribute(policy);
      if r.Ok? {
        Put(r.value);
      }
    }

    /** The first lock section of update. */
    method ReadForUpdate(chain: string, current: int, fields: Fields, now: real)
      returns (r: Result<(Bundle, Policy), RegistryError>)
      ensures r == Fetch(store, chain, current, fields, now)
      ensures chain !in store ==> r == Err(NotFound)
      ensures chain in store && store[chain].version != current ==> r == Err(Stale)
      ensures chain in store && store[chain].version == current ==>
                r.Ok? && r.value.0 == store[chain] && FieldsApplied(store[chain].policy, fields, now, r.value.1)
    {
      if chain !in store {
        return Err(NotFound);
      }
      var existing := store[chain];
      if existing.version != current {
        return Err(Stale);
      }
      return Ok((existing, Updated(existing.policy, fields, now)));
    }

    /** The second lock section of update, with the version checked again. */
    method CommitUpdate(chain: string, current: int, bundle: Bundle) returns (r: Result<Bundle, RegistryError>)
      modifies this`store
      ensures store == AfterCommit(old(store), chain, current, bundle)
      ensures r == if Unchanged(old(store), chain, current) then Ok(bundle) else Err(Stale)
      ensures r.Ok? <==> chain in old(store) && old(store)[chain].version == current
      ensures store == if r.Ok? then old(store)[chain := bundle] else old(store)
    {
      if chain !in store || store[chain].version != current {
        return Err(Stale);
      }
      store := store[chain := bundle];
      return Ok(bundle);
    }

    /** An update nothing interferes with: it succeeds exactly when the version is current and the result is valid. */
    method Update(chain: string, current: int, fields: Fields, now: real) returns (r: Result<Bundle, RegistryError>)
      modifies this`store, distributor`version
      ensures r.Ok? <==> Unchanged(old(store), chain, current) &&
                         Valid(Updated(old(store)[chain].policy, fields, now), distributor.strict)
      ensures r.Ok? ==> r.value == Bundle(Updated(old(store)[chain].policy, fields, now), distributor.version)
                        && store == old(store)[chain := r.value] && distributor.version == old(distributor.version) + 1
      ensures r.Err? ==> store == old(store)
      ensures r.Ok? ==>
                && chain in old(store) && old(store)[chain].version == current
                && FieldsApplied(old(store)[chain].policy, fields, now, store[chain].policy)
                && Admissible(store[chain].policy, distributor.strict)
                && store == old(store)[chain := store[chain]] && store[chain].version == old(distributor.version) + 1
      ensures chain in old(store) && old(store)[chain].version == current ==>
                forall p: Policy :: FieldsApplied(old(store)[chain].policy, fields, now, p) ==>
                  (r.Ok? <==> Admissible(p, distributor.strict))
    {
      if chain in store {
        UpdatedAppliesFields(store[chain].policy, fields, now);
        ValidIsAdmissible(Updated(store[chain].policy, fields, now), distributor.strict);
      }
      var read := ReadForUpdate(chain, current, fields, now);
      if read.Err? {
        return Err(read.error);
      }
      var made := distributor.Distribute(read.value.1);
      if made.Err? {
        return made;
      }
      r := CommitUpdate(chain, current, made.value);
    }
  }

  /** The bundle made of a policy when `version` is the last one given out. */
  function NextBundle(version: nat, policy: Policy): Bundle {
    Bundle(policy, version + 1)
  }

  /** Registering stores without looking. */
  function AfterPut(store: map<string, Bundle>, bundle: Bundle): map<string, Bundle> {
    store[bundle.policy.chainId := bundle]
  }

  /** An update stores only over the version it was asked to replace. */
  function AfterCommit(store: map<string, Bundle>, chain: string, current: int, bundle: Bundle): map<string, Bundle> {
    if Unchanged(store, chain, current) then store[chain := bundle] else store
  }

  predicate Unchanged(store: map<string, Bundle>, chain: string, current: int) {
    chain in store && store[chain].version == current
  }

  function Fetch(store: map<string, Bundle>, chain: string, current: int, fields: Fields, now: real)
    : Result<(Bundle, Policy), RegistryError>
  {
    if chain !in store then Err(NotFound)
    else if !Unchanged(store, chain, current) then Err(Stale)
    else Ok((store[chain], Updated(store[chain].policy, fields, now)))
  }

  // ---------------------------------------------------------------- interleaved threads

  /** Where a thread is between lock sections. */
  datatype Thread =
    | Idle
    | Registering(bundle: Bundle)
    | HasRead(chain: string, current: int, seen: Bundle, fields: Fields, now: real)
    | HasBundle(chain: string, current: int, seen: Bundle, fields: Fields, now: real, bundle: Bundle)

  /** One successful update: the bundle it was computed from, the bundle it replaced, and the bundle it wrote. */
  datatype Success = Success(
      chain: string, current: int, fields: Fields, now: real, seen: Bundle, replaced: Bundle, written: Bundle)

  /** The shared state, the threads, and two observations: every bundle issued, and every successful update. */
  datatype System = System(
    store: map<string, Bundle>,
    version: nat,
    threads: map<nat, Thread>,
    issued: map<nat, Bundle>,
    successes: seq<Success>)

  const START := System(map[], 0, map[], map[], [])

  datatype Action =
    | RegisterDistribute(thread: nat, policy: Policy)
    | RegisterStore(thread: nat)
    | UpdateRead(thread: nat, chain: string, current: int, fields: Fields, now: real)
    | UpdateDistribute(thread: nat)
    | UpdateCommit(thread: nat)

  function At(s: System, thread: nat): Thread {
    if thread in s.threads then s.threads[thread] else Idle
  }

  /** The bundle a thread will store if it gets to. */
  function Holding(t: Thread): Option<Bundle> {
    match t
    case Registering(b) => Some(b)
    case HasBundle(_, _, _, _, _, b) => Some(b)
    case _ => None
  }

  function Issue(s: System, policy: Policy): (System, Bundle) {
    var b := NextBundle(s.version, policy);
    (s.(version := b.version, issued := s.issued[b.version := b]), b)
  }

  /** One atomic section. An action that does not fit where its thread is does nothing. */
  function Step(strict: bool, s: System, a: Action): System {
    var t := At(s, a.thread);
    match a
    case RegisterDistribute(id, policy) =>
      if t != Idle || !Valid(policy, strict) then s
      else
        var (issued, b) := Issue(s, policy);
        issued.(threads := s.threads[id := Registering(b)])
    case RegisterStore(id) =>
      if !t.Registering? then s
      else s.(store := AfterPut(s.store, t.bundle), threads := s.threads[id := Idle])
    case UpdateRead(id, chain, current, fields, now) =>
      if t != Idle || Fetch(s.store, chain, current, fields, now).Err? then s
      else s.(threads := s.threads[id := HasRead(chain, current, s.store[chain], fields, now)])
    case UpdateDistribute(id) =>
      if !t.HasRead? then s
      else
        var policy := Updated(t.seen.policy, t.fields, t.now);
        if !Valid(policy, strict) then s.(threads := s.threads[id := Idle])
        else
          var (issued, b) := Issue(s, policy);
          issued.(threads := s.threads[id := HasBundle(t.chain, t.current, t.seen, t.fields, t.now, b)])
    case UpdateCommit(id) =>
      if !t.HasBundle? then s
      else if !Unchanged(s.store, t.chain, t.current) then s.(threads := s.threads[id := Idle])
      else
        s.(store := AfterCommit(s.store, t.chain, t.current, t.bundle),
           threads := s.threads[id := Idle],
           successes := s.successes +
                        [Success(t.chain, t.current, t.fields, t.now, t.seen, s.store[t.chain], t.bundle)])
  }

  function Run(strict: bool, actions: seq<Action>): System {
    if actions == [] then START
    else Step(strict, Run(strict, actions[..|actions| - 1]), actions[|actions| - 1])
  }

  // ---------------------------------------------------------------- what every section keeps

  ghost predicate Known(s: System, b: Bundle) {
    b.version in s.issued && s.issued[b.version] == b
  }

  /** Every bundle in sight is the one issued under its version. */
  ghost predicate Ledger(s: System) {
    && (forall v :: v in s.issued ==> v <= s.version)
    && (forall c :: c in s.store ==> Known(s, s.store[c]))
    && (forall t :: t in s.threads && Holding(s.threads[t]).Some? ==> Known(s, Holding(s.threads[t]).value))
  }

  /** A thread part way through an update saw an issued bundle of the version it was asked for. */
  ghost predicate Midway(s: System, t: Thread) {
    && (t.HasRead? || t.HasBundle? ==> Known(s, t.seen) && t.seen.version == t.current)
    && (t.HasBundle? ==>
          t.bundle.version > t.seen.version && t.bundle.policy == Updated(t.seen.policy, t.fields, t.now))
  }

  /** A version is in at most one place: one chain of the store or one thread. */
  ghost predicate Exclusive(s: System) {
    && (forall c, d :: c in s.store && d in s.store && c != d ==> s.store[c].version != s.store[d].version)
    && (forall t, u :: t in s.threads && u in s.threads && t != u
          && Holding(s.threads[t]).Some? && Holding(s.threads[u]).Some?
          ==> Holding(s.threads[t]).value.version != Holding(s.threads[u]).value.version)
    && (forall c, t :: c in s.store && t in s.threads && Holding(s.threads[t]).Some?
          ==> s.store[c].version != Holding(s.threads[t]).value.version)
  }

  /** A version an update replaced is nowhere any more. */
  ghost predicate Retired(s: System, v: int) {
    && (forall c :: c in s.store ==> s.store[c].version != v)
    && (forall t :: t in s.threads && Holding(s.threads[t]).Some? ==> Holding(s.threads[t]).value.version != v)
    && v <= s.version
  }

  ghost predicate Atomic(u: Success) {
    && u.replaced == u.seen && u.replaced.version == u.current
    && u.written.version > u.replaced.version
    && u.written.policy == Updated(u.replaced.policy, u.fields, u.now)
  }

  ghost predicate Inv(s: System) {
    && Ledger(s) && Exclusive(s)
    && (forall t :: t in s.threads ==> Midway(s, s.threads[t]))
    && (forall i :: 0 <= i < |s.successes| ==> Atomic(s.successes[i]) && Retired(s, s.successes[i].current))
    && (forall i, j :: 0 <= i < j < |s.successes| ==> s.successes[i].current != s.successes[j].current)
  }

  lemma KeepRegisterDistribute(strict: bool, s: System, id: nat, policy: Policy)
    requires Inv(s)
    ensures Inv(Step(strict, s, RegisterDistribute(id, policy)))
  {
    if At(s, id) == Idle && Valid(policy, strict) {
      var (issued, b) := Issue(s, policy);
      IssueKeeps(s, policy);
      KeepHold(issued, id, Registering(b));
    }
  }

  /** Issuing a bundle under the next version disturbs nothing. */
  lemma IssueKeeps(s: System, policy: Policy)
    requires Inv(s)
    ensures var (issued, b) := Issue(s, policy);
            && Inv(issued) && Known(issued, b) && Retired(issued, b.version)
            && forall i :: 0 <= i < |s.successes| ==> s.successes[i].current < b.version
  {
    var (issued, b) := Issue(s, policy);
    IssueIsNew(s, policy);
    IssueKeepsKnown(s, policy);
    forall i | 0 <= i < |s.successes|
      ensures s.successes[i].current < b.version && Retired(issued, s.successes[i].current)
    {
      assert Retired(s, s.successes[i].current);
    }
  }

  lemma IssueKeepsKnown(s: System, policy: Policy)
    requires Inv(s)
    ensures var issued := Issue(s, policy).0;
            Ledger(issued) && Exclusive(issued) && forall t :: t in s.threads ==> Midway(issued, s.threads[t])
  {
    var issued := Issue(s, policy).0;
    forall b: Bundle | Known(s, b) ensures Known(issued, b) {
    }
  }

  /** Nothing in sight has the next version yet. */
  lemma IssueIsNew(s: System, policy: Policy)
    requires Ledger(s)
    ensures var (issued, b) := Issue(s, policy);
            Known(issued, b) && Retired(issued, b.version)
  {
  }

  /** A thread may hold a bundle that is known and nowhere else. */
  lemma KeepHold(s: System, id: nat, t: Thread)
    requires Inv(s) && Holding(At(s, id)).None? && Midway(s, t) && Holding(t).Some?
    requires Known(s, Holding(t).value) && Retired(s, Holding(t).value.version)
    requires forall i :: 0 <= i < |s.successes| ==> s.successes[i].current < Holding(t).value.version
    ensures Inv(s.(threads := s.threads[id := t]))
  {
  }

  /** The store after taking over the bundle a thread holds. */
  function Handed(s: System, id: nat, chain: string): System
    requires Holding(At(s, id)).Some?
  {
    s.(store := s.store[chain := Holding(At(s, id)).value], threads := s.threads[id := Idle])
  }

  lemma HandedIsExclusive(s: System, id: nat, chain: string)
    requires Inv(s) && Holding(At(s, id)).Some?
    ensures Ledger(Handed(s, id, chain)) && Exclusive(Handed(s, id, chain))
    ensures forall t :: t in Handed(s, id, chain).threads ==>
              Midway(Handed(s, id, chain), Handed(s, id, chain).threads[t])
  {
  }

  /** A retired version stays so, and the overwritten one joins them. */
  lemma HandedRetires(s: System, id: nat, chain: string, v: int)
    requires Inv(s) && Holding(At(s, id)).Some?
    requires Retired(s, v) || (chain in s.store && v == s.store[chain].version)
    ensures Retired(Handed(s, id, chain), v)
  {
  }

  /** Storing the bundle a thread holds; what it overwrites is nowhere afterwards. */
  lemma KeepStore(s: System, id: nat, chain: string)
    requires Inv(s) && Holding(At(s, id)).Some?
    ensures Inv(Handed(s, id, chain))
    ensures chain in s.store ==> Retired(Handed(s, id, chain), s.store[chain].version)
  {
    HandedIsExclusive(s, id, chain);
    forall i | 0 <= i < |s.successes| ensures Retired(Handed(s, id, chain), s.successes[i].current) {
      HandedRetires(s, id, chain, s.successes[i].current);
    }
    if chain in s.store {
      HandedRetires(s, id, chain, s.store[chain].version);
    }
  }

  lemma KeepRegisterStore(strict: bool, s: System, id: nat)
    requires Inv(s)
    ensures Inv(Step(strict, s, RegisterStore(id)))
  {
    if At(s, id).Registering? {
      KeepStore(s, id, At(s, id).bundle.policy.chainId);
    }
  }

  lemma AddSuccess(s: System, u: Success)
    requires Inv(s) && Atomic(u) && Retired(s, u.current)
    requires forall i :: 0 <= i < |s.successes| ==> s.successes[i].current != u.current
    ensures Inv(s.(successes := s.successes + [u]))
  {
  }

  lemma KeepThread(s: System, id: nat, t: Thread)
    requires Inv(s) && Midway(s, t) && Holding(t).None?
    ensures Inv(s.(threads := s.threads[id := t]))
  {
  }

  lemma KeepUpdateRead(strict: bool, s: System, id: nat, chain: string, current: int, fields: Fields, now: real)
    requires Inv(s)
    ensures Inv(Step(strict, s, UpdateRead(id, chain, current, fields, now)))
  {
    if At(s, id) == Idle && Fetch(s.store, chain, current, fields, now).Ok? {
      KeepThread(s, id, HasRead(chain, current, s.store[chain], fields, now));
    }
  }

  lemma KeepUpdateDistribute(strict: bool, s: System, id: nat)
    requires Inv(s)
    ensures Inv(Step(strict, s, UpdateDistribute(id)))
  {
    var t := At(s, id);
    if t.HasRead? {
      var policy := Updated(t.seen.policy, t.fields, t.now);
      if Valid(policy, strict) {
        var (issued, b) := Issue(s, policy);
        IssueKeeps(s, policy);
        KeepHold(issued, id, HasBundle(t.chain, t.current, t.seen, t.fields, t.now, b));
      } else {
        KeepThread(s, id, Idle);
      }
    }
  }

  /** The version check pins the bundle: only the one that was read carries that version. */
  lemma KeepUpdateCommit(strict: bool, s: System, id: nat)
    requires Inv(s)
    ensures Inv(Step(strict, s, UpdateCommit(id)))
  {
    var t := At(s, id);
    if t.HasBundle? {
      if Unchanged(s.store, t.chain, t.current) {
        assert Known(s, s.store[t.chain]) && Midway(s, t);
        var after := s.(store := s.store[t.chain := t.bundle], threads := s.threads[id := Idle]);
        KeepStore(s, id, t.chain);
        AddSuccess(after, Success(t.chain, t.current, t.fields, t.now, t.seen, s.store[t.chain], t.bundle));
      } else {
        KeepThread(s, id, Idle);
      }
    }
  }

  lemma {:induction false} Invariant(strict: bool, actions: seq<Action>)
    ensures Inv(Run(strict, actions))
  {
    if actions != [] {
      var s := Run(strict, actions[..|actions| - 1]);
      Invariant(strict, actions[..|actions| - 1]);
      match actions[|actions| - 1]
      case RegisterDistribute(id, policy) => KeepRegisterDistribute(strict, s, id, policy);
      case RegisterStore(id) => KeepRegisterStore(strict, s, id);
      case UpdateRead(id, chain, current, fields, now) => KeepUpdateRead(strict, s, id, chain, current, fields, now);
      case UpdateDistribute(id) => KeepUpdateDistribute(strict, s, id);
      case UpdateCommit(id) => KeepUpdateCommit(strict, s, id);
    }
  }

  /**
   In every interleaving of registers and updates: each successful update replaced
   the very bundle it had read, wrote that bundle's policy with its own fields
   applied under a strictly greater version, and no two of them were given the same
   version.
   */
  lemma UpdatesAreAtomic(strict: bool, actions: seq<Action>)
    ensures var successes := Run(strict, actions).successes;
            && (forall i :: 0 <= i < |successes| ==>
                  var u := successes[i];
                  && u.replaced == u.seen && u.seen.version == u.current < u.written.version
                  && FieldsApplied(u.replaced.policy, u.fields, u.now, u.written.policy))
            && (forall i, j :: 0 <= i < j < |successes| ==> successes[i].current != successes[j].current)
  {
    Invariant(strict, actions);
    var successes := Run(strict, actions).successes;
    forall i | 0 <= i < |successes|
      ensures FieldsApplied(successes[i].replaced.policy, successes[i].fields, successes[i].now,
                            successes[i].written.policy)
    {
      assert Atomic(successes[i]);
      UpdatedAppliesFields(successes[i].replaced.policy, successes[i].fields, successes[i].now);
    }
  }

  /**
   And an update that nothing interferes with does succeed, from every reachable state:
   its three sections write the policy with the fields applied under the next version.
   */
  lemma UpdateSucceedsAlone(
      strict: bool, actions: seq<Action>, id: nat, chain: string, current: int, fields: Fields, now: real)
    requires var s := Run(strict, actions);
             && At(s, id).Idle? && chain in s.store && s.store[chain].version == current
             && Admissible(Updated(s.store[chain].policy, fields, now), strict)
    ensures var s := Run(strict, actions);
            var read := Step(strict, s, UpdateRead(id, chain, current, fields, now));
            var after := Step(strict, Step(strict, read, UpdateDistribute(id)), UpdateCommit(id));
            && chain in after.store && after.store == s.store[chain := after.store[chain]]
            && FieldsApplied(s.store[chain].policy, fields, now, after.store[chain].policy)
            && after.store[chain].version == after.version == s.version + 1
            && At(after, id).Idle? && |after.successes| == |s.successes| + 1
  {
    var s := Run(strict, actions);
    var policy := Updated(s.store[chain].policy, fields, now);
    UpdatedAppliesFields(s.store[chain].policy, fields, now);
    ValidIsAdmissible(policy, strict);
    var read := Step(strict, s, UpdateRead(id, chain, current, fields, now));
    assert At(read, id) == HasRead(chain, current, s.store[chain], fields, now) && read.store == s.store;
    var distributed := Step(strict, read, UpdateDistribute(id));
    assert At(distributed, id) == HasBundle(chain, current, s.store[chain], fields, now, NextBundle(s.version, policy));
    assert distributed.store == s.store;
  }

  /** So does a registration. */
  lemma RegisterSucceedsAlone(strict: bool, s: System, id: nat, policy: Policy)
    requires At(s, id).Idle? && Admissible(policy, strict)
    ensures var after := Step(strict, Step(strict, s, RegisterDistribute(id, policy)), RegisterStore(id));
            && after.store == s.store[policy.chainId := Bundle(policy, s.version + 1)]
            && after.version == s.version + 1 && At(after, id).Idle? && after.successes == s.successes
  {
    ValidIsAdmissible(policy, strict);
    var distributed := Step(strict, s, RegisterDistribute(id, policy));
    assert At(distributed, id) == Registering(Bundle(policy, s.version + 1)) && distributed.store == s.store;
  }

  /** A stored version falls exactly when a register stores a bundle that was issued before the stored one. */
  lemma VersionFallsExactlyWhen(strict: bool, actions: seq<Action>, a: Action, chain: string)
    requires chain in Run(strict, actions).store
    ensures var s := Run(strict, actions);
            var t, after := At(s, a.thread), Step(strict, s, a).store;
            && chain in after
            && (after[chain].version < s.store[chain].version <==>
                && a.RegisterStore? && t.Registering?
                && t.bundle.policy.chainId == chain && t.bundle.version < s.store[chain].version)
  {
    var s := Run(strict, actions);
    Invariant(strict, actions);
    if a.UpdateCommit? && At(s, a.thread).HasBundle? {
      CommitRaises(s, a.thread);
    }
  }

  /** A bundle an update commits is newer than the one it names. */
  lemma CommitRaises(s: System, id: nat)
    requires Inv(s) && At(s, id).HasBundle?
    ensures At(s, id).bundle.version > At(s, id).current
  {
    assert Midway(s, s.threads[id]);
  }

  /** Registers race, though: the later distribution may be stored first, and the stored version then goes down. */
  lemma RegistersMayLowerVersion(policy: Policy)
    requires Valid(policy, false)
    ensures var before := [RegisterDistribute(0, policy), RegisterDistribute(1, policy), RegisterStore(1)];
            var after := before + [RegisterStore(0)];
            && Run(false, before).store == map[policy.chainId := Bundle(policy, 2)]
            && Run(false, after).store == map[policy.chainId := Bundle(policy, 1)]
  {
    var a, b, c, d := RegisterDistribute(0, policy), RegisterDistribute(1, policy), RegisterStore(1), RegisterStore(0);
    assert [a][..0] == [] && [a, b][..1] == [a] && [a, b, c][..2] == [a, b];
    assert ([a, b, c] + [d])[..3] == [a, b, c];
    var first, second := Bundle(policy, 1), Bundle(policy, 2);
    assert Run(false, []) == START;
    assert Run(false, [a]) == System(map[], 1, map[0 := Registering(first)], map[1 := first], []);
    assert Run(false, [a, b])
        == System(map[], 2, map[0 := Registering(first), 1 := Registering(second)], map[1 := first, 2 := second], []);
    assert Run(false, [a, b, c]).store == map[policy.chainId := second];
    assert At(Run(false, [a, b, c]), 0) == Registering(first);
  }
}
