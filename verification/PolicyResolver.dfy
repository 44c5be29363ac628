/** Policy inheritance: overrides folded along the root path, the child last. */
module PolicyResolver {
  import opened Basics
  import opened TenantRegistry

  const POLICY_FIELDS: set<string> := {
    "chain_id", "ceiling_usd", "on_exceed", "issued_at", "ceiling_tokens_out", "ceiling_steps", "fallback_model",
    "timeout_ms", "rate_window_seconds", "rate_ceiling_calls", "priority", "deadline_ts", "expires_at",
    "planner_version"
  }

  /** A policy as a record of its fields. */
  type Policy = map<string, Value>

  datatype ResolveError = InvalidOverride | AncestorsUnavailable(error: TenantError)

  // ---------------------------------------------------------------- one override

  predicate NonNegativeNumber(v: Value) {
    (v.Whole? && v.n >= 0) || (v.Number? && v.x >= 0.0)
  }

  predicate NonNegativeInteger(v: Value) {
    v.Whole? && v.n >= 0
  }

  /** What the validator lets through; `chain_id` is a field without a rule, so it never passes. */
  predicate ValidOverride(key: string, v: Value) {
    if key == "ceiling_usd" then NonNegativeNumber(v)
    else if key == "priority" then v.Whole? && 0 <= v.n <= 100
    else if key == "timeout_ms" then v.Null? || NonNegativeNumber(v)
    else if key in ["ceiling_tokens_out", "ceiling_steps", "rate_ceiling_calls"] then v.Null? || NonNegativeInteger(v)
    else if key == "rate_window_seconds" then v.Null? || NonNegativeNumber(v)
    else if key == "on_exceed" then v in [Text("halt"), Text("degrade"), Text("queue")]
    else if key in ["fallback_model", "planner_version"] then v.Null? || (v.Text? && |v.s| <= 1024)
    else key in ["deadline_ts", "expires_at", "issued_at"] && (v.Null? || NonNegativeNumber(v))
  }

  /** The fields there are, the limits that may be lifted with null, and what each field takes. */
  lemma FieldRules(v: Value)
    ensures POLICY_FIELDS == {
              "chain_id", "ceiling_usd", "on_exceed", "issued_at", "ceiling_tokens_out", "ceiling_steps",
              "fallback_model", "timeout_ms", "rate_window_seconds", "rate_ceiling_calls", "priority", "deadline_ts",
              "expires_at", "planner_version"}
    ensures ValidOverride("ceiling_usd", v) <==> (v.Whole? && v.n >= 0) || (v.Number? && v.x >= 0.0)
    ensures ValidOverride("priority", v) <==> v.Whole? && 0 <= v.n <= 100
    ensures ValidOverride("on_exceed", v) <==> v == Text("halt") || v == Text("degrade") || v == Text("queue")
    ensures forall k :: k in {"timeout_ms", "rate_window_seconds", "deadline_ts", "expires_at", "issued_at"} ==>
              (ValidOverride(k, v) <==> v.Null? || (v.Whole? && v.n >= 0) || (v.Number? && v.x >= 0.0))
    ensures forall k :: k in {"ceiling_tokens_out", "ceiling_steps", "rate_ceiling_calls"} ==>
              (ValidOverride(k, v) <==> v.Null? || (v.Whole? && v.n >= 0))
    ensures forall k :: k in {"fallback_model", "planner_version"} ==>
              (ValidOverride(k, v) <==> v.Null? || (v.Text? && |v.s| <= 1024))
    ensures !ValidOverride("chain_id", v)
  {
  }

  // ---------------------------------------------------------------- one tenant

  /** The overrides that name a policy field; the others are ignored. */
  function Relevant(o: Overrides): Overrides {
    map k | k in o && k in POLICY_FIELDS :: o[k]
  }

  predicate Legal(o: Overrides) {
    forall k :: k in o && k in POLICY_FIELDS ==> ValidOverride(k, o[k])
  }

  function Apply(p: Result<Policy, ResolveError>, o: Overrides): Result<Policy, ResolveError> {
    if p.Err? then p else if Legal(o) then Ok(p.value + Relevant(o)) else Err(InvalidOverride)
  }

  /** Collects the overrides in whatever order the table yields them, refusing at the first invalid one. */
  method CheckOverrides(o: Overrides) returns (r: Result<Overrides, ResolveError>)
    ensures r == if Legal(o) then Ok(Relevant(o)) else Err(InvalidOverride)
    ensures r.Ok? <==> forall k :: k in o && k in POLICY_FIELDS ==> ValidOverride(k, o[k])
    ensures r.Ok? ==> forall k ::
              (k in r.value <==> k in o && k in POLICY_FIELDS) && (k in r.value ==> r.value[k] == o[k])
  {
    var checked: Overrides, left := map[], o.Keys;
    while left != {}
      invariant left <= o.Keys
      invariant forall k :: k in checked <==> k in o && k !in left && k in POLICY_FIELDS
      invariant forall k :: k in checked ==> checked[k] == o[k] && ValidOverride(k, o[k])
      decreases |left|
    {
      var k :| k in left;
      left := left - {k};
      if k in POLICY_FIELDS {
        if !ValidOverride(k, o[k]) {
          return Err(InvalidOverride);
        }
        checked := checked[k := o[k]];
      }
    }
    assert checked == Relevant(o);
    return Ok(checked);
  }

  // ---------------------------------------------------------------- inheritance

  /** What a tenant inherits: its own overrides applied to what its parent resolves to, roots starting from the base. */
  ghost function Effective(m: Tenants, depth: map<string, nat>, id: string, base: Policy): Result<Policy, ResolveError>
    requires Forest(m, depth)
    decreases if id in m then depth[id] else 0
  {
    if id !in m then Ok(base)
    else
      assert Level(m, depth, id);
      Apply(if m[id].parent.None? then Ok(base) else Effective(m, depth, m[id].parent.value, base), m[id].overrides)
  }

  /** An error anywhere on the path is the error of everyone below. */
  lemma {:induction false} ErrorsAreInherited(m: Tenants, depth: map<string, nat>, id: string, base: Policy, k: nat)
    requires Forest(m, depth) && id in m && k < depth[id]
    requires Effective(m, depth, UpPath(m, depth, id)[k], base).Err?
    ensures Effective(m, depth, id, base) == Err(InvalidOverride)
    decreases depth[id]
  {
    assert Level(m, depth, id);
    if m[id].parent.Some? {
      var parent := m[id].parent.value;
      if k > 0 {
        UpPathShift(m, depth, id);
        assert UpPath(m, depth, parent)[k - 1] == UpPath(m, depth, id)[k];
        ErrorsAreInherited(m, depth, parent, base, k - 1);
      } else if Effective(m, depth, parent, base).Err? {
        ErrorsAreInherited(m, depth, parent, base, 0);
      }
    }
  }

  /** The tenant one turn reaches, from the policy of the tenant before it. */
  lemma ResolveTurn(
      m: Tenants, depth: map<string, nat>, here: string, base: Policy, before: Option<string>, policy: Policy)
    requires Forest(m, depth) && here in m && m[here].parent == before
    requires Ok(policy) == if before.None? then Ok(base) else Effective(m, depth, before.value, base)
    ensures Effective(m, depth, here, base) == Apply(Ok(policy), m[here].overrides)
  {}

  lemma ResolveStops(m: Tenants, depth: map<string, nat>, id: string, base: Policy, i: nat)
    requires Forest(m, depth) && id in m && i < depth[id]
    requires Effective(m, depth, RootPath(m, depth, id)[i], base).Err?
    ensures Effective(m, depth, id, base) == Err(InvalidOverride)
  {
    RootPathDepth(m, depth, id, i);
    ErrorsAreInherited(m, depth, id, base, depth[id] - 1 - i);
  }

  /**
   The loop over the root path computes inheritance: the tenant's overrides applied to what its
   parent resolves to, errors included. Depth is an obstacle only beyond 101 nodes, which no
   valid registry has.
   */
  method Resolve(id: string, registry: Registry, base: Policy) returns (r: Result<Policy, ResolveError>)
    requires Forest(registry.tenants, registry.depth)
    ensures id in registry.tenants && registry.depth[id] > MAX_DEPTH + 1 ==> r.Err? && r.error.AncestorsUnavailable?
    ensures id !in registry.tenants || registry.depth[id] <= MAX_DEPTH + 1 ==>
              r == Effective(registry.tenants, registry.depth, id, base)
    ensures id !in registry.tenants ==> r == Ok(base)
    ensures registry.Valid() ==> r == Effective(registry.tenants, registry.depth, id, base)
  {
    if id !in registry.tenants {
      return Ok(base);
    }
    var ancestors := registry.GetAncestors(id);
    if ancestors.Err? {
      return Err(AncestorsUnavailable(ancestors.error));
    }
    r := FoldPath(registry.tenants, registry.depth, id, ancestors.value + [id], base);
  }

  method FoldPath(m: Tenants, ghost depth: map<string, nat>, ghost id: string, path: seq<string>, base: Policy)
    returns (r: Result<Policy, ResolveError>)
    requires Forest(m, depth) && id in m && path == RootPath(m, depth, id)
    ensures r == Effective(m, depth, id, base)
  {
    var policy := base;
    for i := 0 to |path|
      invariant Ok(policy) == if i == 0 then Ok(base) else Effective(m, depth, path[i - 1], base)
    {
      RootPathLinks(m, depth, id, i);
      ResolveTurn(m, depth, path[i], base, m[path[i]].parent, policy);
      var checked := CheckOverrides(m[path[i]].overrides);
      if checked.Err? {
        ResolveStops(m, depth, id, base, i);
        return Err(checked.error);
      }
      policy := policy + checked.value;
    }
    assert path[|path| - 1] == UpPath(m, depth, id)[0];
    return Ok(policy);
  }

  predicate Sets(m: Tenants, id: string, field: string) {
    id in m && field in m[id].overrides
  }

  /** The nearest tenant on the way up that sets a field decides it. */
  lemma {:induction false} NearestSetterWins(
      m: Tenants, depth: map<string, nat>, id: string, base: Policy, field: string, j: nat)
    requires Forest(m, depth) && id in m && j < depth[id]
    requires field in POLICY_FIELDS && Effective(m, depth, id, base).Ok?
    requires Sets(m, UpPath(m, depth, id)[j], field)
    requires forall i :: 0 <= i < j ==> !Sets(m, UpPath(m, depth, id)[i], field)
    ensures field in Effective(m, depth, id, base).value
    ensures Effective(m, depth, id, base).value[field] == m[UpPath(m, depth, id)[j]].overrides[field]
    decreases j
  {
    assert Level(m, depth, id);
    if j > 0 {
      var parent := m[id].parent.value;
      UpPathShift(m, depth, id);
      assert !Sets(m, UpPath(m, depth, id)[0], field);
      NearestSetterWins(m, depth, parent, base, field, j - 1);
    }
  }

  /** A field nobody on the root path sets is the base policy's. */
  lemma {:induction false} UnsetFieldIsTheBase(
      m: Tenants, depth: map<string, nat>, id: string, base: Policy, field: string)
    requires Forest(m, depth) && id in m && field in base && Effective(m, depth, id, base).Ok?
    requires forall i :: 0 <= i < depth[id] ==> !Sets(m, UpPath(m, depth, id)[i], field)
    ensures field in Effective(m, depth, id, base).value && Effective(m, depth, id, base).value[field] == base[field]
    decreases depth[id]
  {
    assert Level(m, depth, id);
    var up := UpPath(m, depth, id);
    assert !Sets(m, up[0], field);
    if m[id].parent.Some? {
      var above := UpPath(m, depth, m[id].parent.value);
      forall i | 0 <= i < |above| ensures !Sets(m, above[i], field) {
        assert above[i] == up[i + 1];
      }
      UnsetFieldIsTheBase(m, depth, m[id].parent.value, base, field);
    }
  }

  /** Resolution fails exactly when some tenant on the root path carries an invalid override of a policy field. */
  lemma {:induction false} ResolvesExactlyWhenLegal(m: Tenants, depth: map<string, nat>, id: string, base: Policy)
    requires Forest(m, depth) && id in m
    ensures Effective(m, depth, id, base).Ok? <==> forall a :: a in UpPath(m, depth, id) ==> Legal(m[a].overrides)
    decreases depth[id]
  {
    UpPathSplit(m, depth, id);
    assert UpPath(m, depth, id)[0] == id;
    if m[id].parent.Some? {
      assert Level(m, depth, id);
      ResolvesExactlyWhenLegal(m, depth, m[id].parent.value, base);
    }
  }

  // ---------------------------------------------------------------- what a resolved policy is

  /** Every field present with a value the validator accepts; the chain id is any value. */
  ghost predicate WellFormed(p: Policy) {
    && p.Keys == POLICY_FIELDS
    && forall k :: k in p && k != "chain_id" ==> ValidOverride(k, p[k])
  }

  lemma NoRuleForChainId(v: Value)
    ensures !ValidOverride("chain_id", v)
  {
  }

  lemma ApplyKeepsWellFormed(p: Policy, o: Overrides)
    requires WellFormed(p) && Legal(o)
    ensures WellFormed(p + Relevant(o)) && "chain_id" in p && (p + Relevant(o))["chain_id"] == p["chain_id"]
  {
    assert "chain_id" in POLICY_FIELDS;
    if "chain_id" in o {
      NoRuleForChainId(o["chain_id"]);
      assert false;
    }
  }

  /** Inheritance keeps policies well-formed and can never change whose policy it is. */
  lemma {:induction false} ResolvedIsWellFormed(m: Tenants, depth: map<string, nat>, id: string, base: Policy)
    requires Forest(m, depth) && WellFormed(base) && Effective(m, depth, id, base).Ok?
    ensures WellFormed(Effective(m, depth, id, base).value) && "chain_id" in base
    ensures "chain_id" in Effective(m, depth, id, base).value
    ensures Effective(m, depth, id, base).value["chain_id"] == base["chain_id"]
    decreases if id in m then depth[id] else 0
  {
    if id !in m {
      assert "chain_id" in POLICY_FIELDS;
    } else {
      assert Level(m, depth, id);
      if m[id].parent.Some? {
        ResolvedIsWellFormed(m, depth, m[id].parent.value, base);
        ApplyKeepsWellFormed(Effective(m, depth, m[id].parent.value, base).value, m[id].overrides);
      } else {
        ApplyKeepsWellFormed(base, m[id].overrides);
      }
    }
  }

  // ---------------------------------------------------------------- who an operation reaches

  /** Two registries that agree on the parents and overrides of everyone on a root path. */
  ghost predicate SameAbove(m: Tenants, depth: map<string, nat>, m': Tenants, id: string)
    requires Forest(m, depth) && id in m
  {
    forall a :: a in UpPath(m, depth, id) ==>
      a in m' && m'[a].parent == m[a].parent && m'[a].overrides == m[a].overrides
  }

  /** The same root path and the same effective policy. */
  ghost predicate SameFor(
      m: Tenants, depth: map<string, nat>, m': Tenants, depth': map<string, nat>, id: string, base: Policy)
    requires Forest(m, depth) && Forest(m', depth')
  {
    && (id in m <==> id in m')
    && (id in m ==> UpPath(m', depth', id) == UpPath(m, depth, id))
    && Effective(m', depth', id, base) == Effective(m, depth, id, base)
  }

  lemma {:induction false} SameAboveSameFor(
      m: Tenants, depth: map<string, nat>, m': Tenants, depth': map<string, nat>, id: string, base: Policy)
    requires Forest(m, depth) && Forest(m', depth') && id in m && SameAbove(m, depth, m', id)
    ensures SameFor(m, depth, m', depth', id, base)
    decreases depth[id]
  {
    assert Level(m, depth, id) && UpPath(m, depth, id)[0] == id;
    if m[id].parent.Some? {
      UpPathSplit(m, depth, id);
      SameAboveSameFor(m, depth, m', depth', m[id].parent.value, base);
    }
  }

  /** A leaf is on nobody's root path but its own. */
  lemma {:induction false} LeafOnNoOtherPath(m: Tenants, depth: map<string, nat>, leaf: string, id: string)
    requires Forest(m, depth) && IsLeaf(m, leaf) && id in m && id != leaf
    ensures leaf !in UpPath(m, depth, id)
    decreases depth[id]
  {
    assert Level(m, depth, id);
    if m[id].parent.Some? {
      LeafOnNoOtherPath(m, depth, leaf, m[id].parent.value);
    }
  }

  lemma RegisterReachesOnlyItself(
      m: Tenants, depth: map<string, nat>, id: string, t: Tenant, other: string, base: Policy)
    requires Forest(m, depth) && CanRegister(m, depth, id, t) && other != id
    ensures var m', depth' := m[id := t], depth[id := DepthBelow(depth, t.parent)];
            Forest(m', depth') && SameFor(m, depth, m', depth', other, base)
  {
    RegisterKeepsForest(m, depth, id, t);
    if other in m {
      SameAboveSameFor(m, depth, m[id := t], depth[id := DepthBelow(depth, t.parent)], other, base);
    }
  }

  lemma DeleteReachesOnlyItself(m: Tenants, depth: map<string, nat>, id: string, other: string, base: Policy)
    requires Forest(m, depth) && id in m && IsLeaf(m, id) && other != id
    ensures Forest(m - {id}, depth - {id}) && SameFor(m, depth, m - {id}, depth - {id}, other, base)
  {
    DeleteKeepsForest(m, depth, id);
    if other in m {
      LeafOnNoOtherPath(m, depth, id, other);
      SameAboveSameFor(m, depth, m - {id}, depth - {id}, other, base);
    }
  }

  lemma UpdateReachesDescendants(
      m: Tenants, depth: map<string, nat>, id: string, t: Tenant, other: string, base: Policy)
    requires Forest(m, depth) && id in m && t.parent == m[id].parent
    requires t.overrides == m[id].overrides || other !in m || id !in UpPath(m, depth, other)
    ensures Forest(m[id := t], depth) && SameFor(m, depth, m[id := t], depth, other, base)
  {
    UpdateKeepsForest(m, depth, id, t);
    if other in m {
      SameAboveSameFor(m, depth, m[id := t], depth, other, base);
    } else {
      assert UpPath(m, depth, id)[0] == id;
    }
  }

  /**
   Register, update or delete of x changes the effective policy of x and of its descendants only:
   whoever does not have x on its root path keeps path and policy. A registration or deletion
   reaches nobody but x, and an update that leaves the overrides alone reaches nobody at all.
   */
  lemma OnlyDescendantsAffected(m: Tenants, depth: map<string, nat>, op: Op, other: string, base: Policy)
    requires Forest(m, depth) && Shallow(depth)
    requires op.Update? && op.overrides.Some? ==> other !in m || op.id !in UpPath(m, depth, other)
    requires op.Update? || other != op.id
    ensures var (m', depth') := Step(m, depth, op);
            Forest(m', depth') && SameFor(m, depth, m', depth', other, base)
  {
    match op
    case Register(id, t) =>
      if CanRegister(m, depth, id, t) {
        RegisterReachesOnlyItself(m, depth, id, t, other, base);
      }
    case Update(id, name, overrides) =>
      if id in m {
        UpdateReachesDescendants(m, depth, id, Edited(m[id], name, overrides), other, base);
      }
    case Delete(id) =>
      if id in m && IsLeaf(m, id) {
        DeleteReachesOnlyItself(m, depth, id, other, base);
      }
  }

  // ---------------------------------------------------------------- what an operation is for

  /** An update with new overrides leaves every root path as it was. */
  lemma UpdateKeepsPaths(m: Tenants, depth: map<string, nat>, id: string, t: Tenant, other: string)
    requires Forest(m, depth) && id in m && t.parent == m[id].parent && other in m
    ensures Forest(m[id := t], depth) && UpPath(m[id := t], depth, other) == UpPath(m, depth, other)
    decreases depth[other]
  {
    UpdateKeepsForest(m, depth, id, t);
    assert Level(m, depth, other);
    if m[other].parent.Some? {
      UpdateKeepsPaths(m, depth, id, t, m[other].parent.value);
    }
  }

  /**
   An update of a tenant's overrides takes effect: wherever a descendant, or the tenant
   itself, resolves afterwards and nobody nearer sets the field, it has the new value.
   */
  lemma UpdateTakesEffect(
      m: Tenants, depth: map<string, nat>, id: string, name: Option<string>, o: Overrides, other: string, base: Policy,
      field: string, j: nat)
    requires Forest(m, depth) && Shallow(depth) && id in m && other in m
    requires field in POLICY_FIELDS && field in o
    requires j < depth[other] && UpPath(m, depth, other)[j] == id
    requires forall i :: 0 <= i < j ==> UpPath(m, depth, other)[i] != id && !Sets(m, UpPath(m, depth, other)[i], field)
    ensures var (m', depth') := Step(m, depth, Update(id, name, Some(o)));
            && Forest(m', depth')
            && (Effective(m', depth', other, base).Ok? ==>
                  field in Effective(m', depth', other, base).value
                  && Effective(m', depth', other, base).value[field] == o[field])
  {
    var t := Edited(m[id], name, Some(o));
    var m' := m[id := t];
    UpdateStep(m, depth, id, name, Some(o));
    assert Step(m, depth, Update(id, name, Some(o))) == (m', depth);
    UpdateKeepsPaths(m, depth, id, t, other);
    if Effective(m', depth, other, base).Ok? {
      forall i | 0 <= i < j ensures !Sets(m', UpPath(m', depth, other)[i], field) {
        assert !Sets(m, UpPath(m, depth, other)[i], field);
      }
      NearestSetterWins(m', depth, other, base, field, j);
    }
  }

  /** In particular the tenant itself has the new value whenever it resolves at all. */
  lemma UpdateTakesEffectOnItself(
      m: Tenants, depth: map<string, nat>, id: string, name: Option<string>, o: Overrides, base: Policy, field: string)
    requires Forest(m, depth) && Shallow(depth) && id in m && field in POLICY_FIELDS && field in o
    ensures var (m', depth') := Step(m, depth, Update(id, name, Some(o)));
            && Forest(m', depth')
            && (Effective(m', depth', id, base).Ok? ==>
                  field in Effective(m', depth', id, base).value
                  && Effective(m', depth', id, base).value[field] == o[field])
  {
    assert Level(m, depth, id);
    UpdateTakesEffect(m, depth, id, name, o, id, base, field, 0);
  }

  // ---------------------------------------------------------------- narrowing

  function Amount(v: Value): real {
    if v.Whole? then v.n as real else if v.Number? then v.x else 0.0
  }

  ghost function CeilingOf(p: Policy): real {
    if "ceiling_usd" in p then Amount(p["ceiling_usd"]) else 0.0
  }

  /** A limit as a number; no number is no limit at all. */
  function Limit(v: Value): Option<real> {
    if v.Whole? then Some(v.n as real) else if v.Number? then Some(v.x) else None
  }

  /** The first limit lets through no more than the second. */
  predicate NoWider(v: Value, w: Value) {
    Limit(w).None? || (Limit(v).Some? && Limit(v).value <= Limit(w).value)
  }

  /**
   For every field that is a limit: a child stays within its parent exactly when it
   leaves the field alone or sets a value that does. Setting null where the parent
   has a limit lifts it.
   */
  lemma NarrowsExactlyWhen(m: Tenants, depth: map<string, nat>, id: string, base: Policy, field: string)
    requires Forest(m, depth) && id in m && m[id].parent.Some?
    requires field in POLICY_FIELDS && field in base && Effective(m, depth, id, base).Ok?
    ensures var parent, child := Effective(m, depth, m[id].parent.value, base), Effective(m, depth, id, base).value;
            && parent.Ok? && field in parent.value && field in child
            && (NoWider(child[field], parent.value[field]) <==>
                (field in m[id].overrides ==> NoWider(m[id].overrides[field], parent.value[field])))
  {
    assert Level(m, depth, id);
    FieldsStay(m, depth, m[id].parent.value, base, field);
  }

  lemma {:induction false} FieldsStay(m: Tenants, depth: map<string, nat>, id: string, base: Policy, field: string)
    requires Forest(m, depth) && field in base && Effective(m, depth, id, base).Ok?
    ensures field in Effective(m, depth, id, base).value
    decreases if id in m then depth[id] else 0
  {
    if id in m {
      assert Level(m, depth, id);
      if m[id].parent.Some? {
        FieldsStay(m, depth, m[id].parent.value, base, field);
      }
    }
  }

  ghost function WideningRun(): seq<Op> {
    [Register("org", Tenant("Org", None, map["ceiling_usd" := Whole(10)])),
     Register("team", Tenant("Team", Some("org"), map["ceiling_usd" := Whole(100)]))]
  }

  lemma CeilingOfSetter(m: Tenants, depth: map<string, nat>, id: string, base: Policy, n: nat)
    requires Forest(m, depth) && id in m && m[id].overrides == map["ceiling_usd" := Whole(n)]
    requires m[id].parent.Some? ==> Effective(m, depth, m[id].parent.value, base).Ok?
    ensures Effective(m, depth, id, base).Ok? && CeilingOf(Effective(m, depth, id, base).value) == n as real
  {
  }

  lemma WideningTable()
    ensures var ops := WideningRun();
            Run(ops).0 == map["org" := ops[0].tenant, "team" := ops[1].tenant]
  {
  }

  /** Narrowing is not enforced: a team registered under an organisation capped at 10 may spend 100. */
  lemma NarrowingNotEnforced(base: Policy)
    ensures var (m, depth) := Run(WideningRun());
            && "org" in m && "team" in m && m["team"].parent == Some("org")
            && Effective(m, depth, "org", base).Ok? && Effective(m, depth, "team", base).Ok?
            && CeilingOf(Effective(m, depth, "org", base).value) == 10.0
            && CeilingOf(Effective(m, depth, "team", base).value) == 100.0
  {
    WideningTable();
    var (m, depth) := Run(WideningRun());
    assert "org" != "team" by { assert |"org"| != |"team"|; }
    CeilingOfSetter(m, depth, "org", base, 10);
    CeilingOfSetter(m, depth, "team", base, 100);
  }
}
