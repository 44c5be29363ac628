/** The tenant hierarchy: a table of nodes with parent ids, walked upwards under a depth guard. */
module TenantRegistry {
  import opened Basics

  /** The values a policy field or an override may have; `NotFinite` stands for NaN and the infinities. */
  datatype Value = Null | Flag(b: bool) | Whole(n: int) | Number(x: real) | NotFinite | Text(s: string) | Compound

  type Overrides = map<string, Value>

  datatype Tenant = Tenant(name: string, parent: Option<string>, overrides: Overrides)

  type Tenants = map<string, Tenant>

  datatype TenantError = AlreadyExists | ParentNotFound | CircularReference | NotFound | HasChildren

  const MAX_DEPTH := 100

  // ---------------------------------------------------------------- forests

  /** `depth` counts the nodes on every tenant's root path: parents exist and every path ends. */
  ghost predicate Forest(m: Tenants, depth: map<string, nat>) {
    && depth.Keys == m.Keys
    && forall id :: id in m ==> Level(m, depth, id)
  }

  ghost predicate Level(m: Tenants, depth: map<string, nat>, id: string)
    requires id in m && depth.Keys == m.Keys
  {
    if m[id].parent.None? then depth[id] == 1
    else m[id].parent.value in m && depth[id] == depth[m[id].parent.value] + 1 && depth[id] > 1
  }

  /** No root path has more than 101 nodes. */
  ghost predicate Shallow(depth: map<string, nat>) {
    forall id :: id in depth ==> depth[id] <= MAX_DEPTH + 1
  }

  /** The path from a tenant up to its root, the tenant first. */
  ghost function UpPath(m: Tenants, depth: map<string, nat>, id: string): (p: seq<string>)
    requires Forest(m, depth) && id in m
    ensures |p| == depth[id] && p[0] == id
    ensures forall i :: 0 <= i < |p| ==> p[i] in m
    decreases depth[id]
  {
    assert Level(m, depth, id);
    if m[id].parent.None? then [id] else [id] + UpPath(m, depth, m[id].parent.value)
  }

  /** The rest of the path above a tenant. */
  ghost function Above(m: Tenants, depth: map<string, nat>, parent: Option<string>): (p: seq<string>)
    requires Forest(m, depth) && (parent.Some? ==> parent.value in m)
  {
    if parent.None? then [] else UpPath(m, depth, parent.value)
  }

  lemma UpPathSplit(m: Tenants, depth: map<string, nat>, id: string)
    requires Forest(m, depth) && id in m
    ensures m[id].parent.Some? ==> m[id].parent.value in m
    ensures UpPath(m, depth, id) == [id] + Above(m, depth, m[id].parent)
  {
  }

  function Reverse<T>(s: seq<T>): (r: seq<T>)
    ensures |r| == |s|
    ensures forall i :: 0 <= i < |s| ==> r[i] == s[|s| - 1 - i]
  {
    if s == [] then [] else Reverse(s[1..]) + [s[0]]
  }

  /** The path from the root down to a tenant, the tenant last. */
  ghost function RootPath(m: Tenants, depth: map<string, nat>, id: string): (p: seq<string>)
    requires Forest(m, depth) && id in m
    ensures |p| == depth[id]
    ensures forall i :: 0 <= i < |p| ==> p[i] == UpPath(m, depth, id)[depth[id] - 1 - i]
  {
    Reverse(UpPath(m, depth, id))
  }

  // ---------------------------------------------------------------- the operations

  predicate ParentPresent(m: Tenants, parent: Option<string>) {
    parent.Some? ==> parent.value in m
  }

  /** Registration is refused for a known id, an unknown parent, or a parent more than 100 nodes from its root. */
  predicate CanRegister(m: Tenants, depth: map<string, nat>, id: string, t: Tenant)
    requires depth.Keys == m.Keys
  {
    id !in m && ParentPresent(m, t.parent) && (t.parent.Some? ==> depth[t.parent.value] <= MAX_DEPTH)
  }

  function DepthBelow(depth: map<string, nat>, parent: Option<string>): nat {
    if parent.Some? && parent.value in depth then depth[parent.value] + 1 else 1
  }

  predicate IsLeaf(m: Tenants, id: string) {
    forall other :: other in m ==> m[other].parent != Some(id)
  }

  class Registry {
    var tenants: Tenants
    ghost var depth: map<string, nat>

    ghost predicate Valid()
      reads this
    {
      Forest(tenants, depth) && Shallow(depth)
    }

    constructor ()
      ensures Valid() && tenants == map[]
    {
      tenants, depth := map[], map[];
    }

    /** Ids from `start` upwards; raises when the guard is hit before the root. */
    method WalkAncestors(start: string) returns (r: Result<seq<string>, TenantError>)
      requires Forest(tenants, depth)
      ensures start !in tenants ==> r == Ok([])
      ensures start in tenants ==>
                r == if depth[start] > MAX_DEPTH then Err(CircularReference) else Ok(UpPath(tenants, depth, start))
    {
      var visited: seq<string>, current := [], Some(start);
      var steps := 0;
      while current.Some?
        invariant |visited| == steps <= MAX_DEPTH
        invariant start in tenants ==>
                    && ParentPresent(tenants, current)
                    && UpPath(tenants, depth, start) == visited + Above(tenants, depth, current)
        invariant start !in tenants ==> visited == [] && current == Some(start)
        decreases MAX_DEPTH - steps, current.Some?
      {
        if steps >= MAX_DEPTH {
          return Err(CircularReference);
        }
        if current.value !in tenants {
          return Ok(visited);
        }
        UpPathSplit(tenants, depth, current.value);
        visited := visited + [current.value];
        current := tenants[current.value].parent;
        steps := steps + 1;
      }
      assert visited + [] == visited;
      return Ok(visited);
    }

    method Register(id: string, t: Tenant) returns (r: Result<(), TenantError>)
      requires Valid()
      modifies this
      ensures Valid()
      ensures r.Ok? <==> CanRegister(old(tenants), old(depth), id, t)
      ensures r.Ok? <==>
                && id !in old(tenants)
                && (t.parent.Some? ==> t.parent.value in old(tenants) && old(depth)[t.parent.value] <= 100)
      ensures r == Err(AlreadyExists) <==> id in old(tenants)
      ensures r == Err(ParentNotFound) <==>
                id !in old(tenants) && t.parent.Some? && t.parent.value !in old(tenants)
      ensures r.Ok? ==> tenants == old(tenants)[id := t] && depth == old(depth)[id := DepthBelow(old(depth), t.parent)]
      ensures r.Err? ==> tenants == old(tenants) && depth == old(depth)
      ensures r == Err(CircularReference) <==>
                id !in old(tenants) && t.parent.Some? && t.parent.value in old(tenants)
                    && old(depth)[t.parent.value] > MAX_DEPTH
    {
      if id in tenants {
        return Err(AlreadyExists);
      }
      if t.parent.Some? && t.parent.value !in tenants {
        return Err(ParentNotFound);
      }
      if t.parent.Some? {
        var walk := WalkAncestors(t.parent.value);
        if walk.Err? {
          return Err(walk.error);
        }
      }
      RegisterKeepsForest(tenants, depth, id, t);
      depth := depth[id := DepthBelow(depth, t.parent)];
      tenants := tenants[id := t];
      return Ok(());
    }

    method Update(id: string, name: Option<string>, overrides: Option<Overrides>)
      returns (r: Result<Tenant, TenantError>)
      requires Valid()
      modifies this`tenants
      ensures Valid()
      ensures id in old(tenants) ==>
                && tenants == old(tenants)[id := Edited(old(tenants)[id], name, overrides)] && r == Ok(tenants[id])
      ensures id in old(tenants) ==>
                && tenants == old(tenants)[id := tenants[id]] && tenants[id].parent == old(tenants)[id].parent
                && tenants[id].name == (if name.Some? then name.value else old(tenants)[id].name)
                && tenants[id].overrides == (if overrides.Some? then overrides.value else old(tenants)[id].overrides)
      ensures id !in old(tenants) ==> r == Err(NotFound) && tenants == old(tenants)
    {
      if id !in tenants {
        return Err(NotFound);
      }
      var t := tenants[id];
      UpdateKeepsForest(tenants, depth, id, Edited(t, name, overrides));
      if name.Some? {
        t := t.(name := name.value);
      }
      if overrides.Some? {
        t := t.(overrides := overrides.value);
      }
      tenants := tenants[id := t];
      return Ok(t);
    }

    method Delete(id: string) returns (r: Result<(), TenantError>)
      requires Valid()
      modifies this
      ensures Valid()
      ensures r == if id !in old(tenants) then Err(NotFound)
                   else if IsLeaf(old(tenants), id) then Ok(())
                   else Err(HasChildren)
      ensures r.Ok? <==> id in old(tenants) && forall other :: other in old(tenants) ==>
                old(tenants)[other].parent != Some(id)
      ensures tenants == if r.Ok? then old(tenants) - {id} else old(tenants)
      ensures depth == if r.Ok? then old(depth) - {id} else old(depth)
    {
      if id !in tenants {
        return Err(NotFound);
      }
      if !IsLeaf(tenants, id) {
        return Err(HasChildren);
      }
      DeleteKeepsForest(tenants, depth, id);
      depth := depth - {id};
      tenants := tenants - {id};
      return Ok(());
    }

    /** The proper ancestors, root first; the guard fires only on a path no valid registry has. */
    method GetAncestors(id: string) returns (r: Result<seq<string>, TenantError>)
      requires Forest(tenants, depth)
      ensures id !in tenants ==> r == Ok([])
      ensures id in tenants ==> (r.Err? <==> depth[id] > MAX_DEPTH + 1)
      ensures id in tenants && r.Ok? ==> r.value + [id] == RootPath(tenants, depth, id)
      ensures Valid() ==> r.Ok?
    {
      if id !in tenants {
        return Ok([]);
      }
      var ancestors: seq<string>, parent := [], tenants[id].parent;
      UpPathSplit(tenants, depth, id);
      ghost var above := Above(tenants, depth, parent);
      var steps := 0;
      while parent.Some?
        invariant |ancestors| == steps <= MAX_DEPTH && ParentPresent(tenants, parent)
        invariant above == ancestors + Above(tenants, depth, parent)
        decreases MAX_DEPTH - steps, parent.Some?
      {
        if steps >= MAX_DEPTH {
          return Err(CircularReference);
        }
        UpPathSplit(tenants, depth, parent.value);
        ghost var rest := Above(tenants, depth, tenants[parent.value].parent);
        assert ancestors + ([parent.value] + rest) == (ancestors + [parent.value]) + rest;
        ancestors := ancestors + [parent.value];
        parent := tenants[parent.value].parent;
        steps := steps + 1;
      }
      assert ancestors + [] == ancestors;
      AncestorsEndPath(tenants, depth, id);
      return Ok(Reverse(ancestors));
    }
  }

  lemma AncestorsEndPath(m: Tenants, depth: map<string, nat>, id: string)
    requires Forest(m, depth) && id in m && ParentPresent(m, m[id].parent)
    ensures Reverse(Above(m, depth, m[id].parent)) + [id] == RootPath(m, depth, id)
    ensures |Above(m, depth, m[id].parent)| == depth[id] - 1
  {
  }

  function Edited(t: Tenant, name: Option<string>, overrides: Option<Overrides>): Tenant {
    Tenant(if name.Some? then name.value else t.name, t.parent,
           if overrides.Some? then overrides.value else t.overrides)
  }

  // ---------------------------------------------------------------- what every operation keeps

  lemma RegisterKeepsForest(m: Tenants, depth: map<string, nat>, id: string, t: Tenant)
    requires Forest(m, depth) && CanRegister(m, depth, id, t)
    ensures Forest(m[id := t], depth[id := DepthBelow(depth, t.parent)])
  {
  }

  lemma UpdateKeepsForest(m: Tenants, depth: map<string, nat>, id: string, t: Tenant)
    requires Forest(m, depth) && id in m && t.parent == m[id].parent
    ensures Forest(m[id := t], depth)
  {
  }

  lemma DeleteKeepsForest(m: Tenants, depth: map<string, nat>, id: string)
    requires Forest(m, depth) && id in m && IsLeaf(m, id)
    ensures Forest(m - {id}, depth - {id})
  {
  }

  datatype Op =
    | Register(id: string, tenant: Tenant)
    | Update(id: string, name: Option<string>, overrides: Option<Overrides>)
    | Delete(id: string)

  /** The table and the depths after an operation; a refused one changes neither. */
  function Step(m: Tenants, depth: map<string, nat>, op: Op): (Tenants, map<string, nat>)
    requires depth.Keys == m.Keys
  {
    match op
    case Register(id, t) =>
      if CanRegister(m, depth, id, t) then (m[id := t], depth[id := DepthBelow(depth, t.parent)]) else (m, depth)
    case Update(id, name, overrides) =>
      if id in m then (m[id := Edited(m[id], name, overrides)], depth) else (m, depth)
    case Delete(id) =>
      if id in m && IsLeaf(m, id) then (m - {id}, depth - {id}) else (m, depth)
  }

  /** What an update changes in the table: the given name and overrides of its tenant, and nothing else. */
  lemma UpdateStep(m: Tenants, depth: map<string, nat>, id: string, name: Option<string>, overrides: Option<Overrides>)
    requires depth.Keys == m.Keys
    ensures var (m', depth') := Step(m, depth, Update(id, name, overrides));
            && depth' == depth && m'.Keys == m.Keys
            && (forall other :: other in m && other != id ==> m'[other] == m[other])
            && (id in m ==>
                  && m'[id].parent == m[id].parent
                  && (name.Some? ==> m'[id].name == name.value) && (name.None? ==> m'[id].name == m[id].name)
                  && (overrides.Some? ==> m'[id].overrides == overrides.value)
                  && (overrides.None? ==> m'[id].overrides == m[id].overrides))
  {
  }

  /** A registration that succeeds adds its tenant as given; a deletion takes away its own tenant only. */
  lemma RegisterAndDeleteStep(m: Tenants, depth: map<string, nat>, id: string, t: Tenant)
    requires depth.Keys == m.Keys
    ensures var m' := Step(m, depth, Register(id, t)).0;
            m' == if id !in m && (t.parent.Some? ==> t.parent.value in m && depth[t.parent.value] <= 100)
                  then m[id := t] else m
    ensures var m' := Step(m, depth, Delete(id)).0;
            m' == if forall other :: other in m ==> m[other].parent != Some(id) then m - {id} else m
  {
    assert id !in m ==> m - {id} == m;
  }

  lemma StepKeepsForest(m: Tenants, depth: map<string, nat>, op: Op)
    requires Forest(m, depth) && Shallow(depth)
    ensures var (m', depth') := Step(m, depth, op); Forest(m', depth') && Shallow(depth')
  {
    match op
    case Register(id, t) =>
      if CanRegister(m, depth, id, t) {
        RegisterKeepsForest(m, depth, id, t);
      }
    case Update(id, name, overrides) =>
      if id in m {
        UpdateKeepsForest(m, depth, id, Edited(m[id], name, overrides));
      }
    case Delete(id) =>
      if id in m && IsLeaf(m, id) {
        DeleteKeepsForest(m, depth, id);
      }
  }

  /** The registry after a run of operations. */
  ghost function Run(ops: seq<Op>): (s: (Tenants, map<string, nat>))
    ensures Forest(s.0, s.1) && Shallow(s.1)
  {
    if ops == [] then (map[], map[])
    else
      var (m, depth) := Run(ops[..|ops| - 1]);
      StepKeepsForest(m, depth, ops[|ops| - 1]);
      Step(m, depth, ops[|ops| - 1])
  }

  /** Nobody is on a path twice: a tenant's ancestors sit at strictly smaller depths. */
  lemma {:induction false} DepthsAlongPath(m: Tenants, depth: map<string, nat>, id: string, i: nat)
    requires Forest(m, depth) && id in m && i < depth[id]
    ensures depth[UpPath(m, depth, id)[i]] == depth[id] - i
    decreases i
  {
    if i > 0 {
      assert Level(m, depth, id);
      DepthsAlongPath(m, depth, m[id].parent.value, i - 1);
      assert UpPath(m, depth, id)[i] == UpPath(m, depth, m[id].parent.value)[i - 1];
    }
  }

  lemma {:induction false} ParentsAlongPath(m: Tenants, depth: map<string, nat>, id: string, i: nat)
    requires Forest(m, depth) && id in m && i + 1 < depth[id]
    ensures m[UpPath(m, depth, id)[i]].parent == Some(UpPath(m, depth, id)[i + 1])
    decreases i
  {
    assert Level(m, depth, id);
    if i > 0 {
      ParentsAlongPath(m, depth, m[id].parent.value, i - 1);
    }
  }

  /** A parent's path is its child's without the first entry. */
  lemma UpPathShift(m: Tenants, depth: map<string, nat>, id: string)
    requires Forest(m, depth) && id in m && m[id].parent.Some? && m[id].parent.value in m
    ensures forall i :: 0 <= i < depth[m[id].parent.value] ==>
              i + 1 < depth[id] && UpPath(m, depth, m[id].parent.value)[i] == UpPath(m, depth, id)[i + 1]
  {
  }

  lemma RootPathDepth(m: Tenants, depth: map<string, nat>, id: string, i: nat)
    requires Forest(m, depth) && id in m && i < depth[id]
    ensures var path := RootPath(m, depth, id);
            && path[i] == UpPath(m, depth, id)[depth[id] - 1 - i]
            && path[i] in m && depth[path[i]] == i + 1
  {
    var up, k := UpPath(m, depth, id), depth[id] - 1 - i;
    DepthsAlongPath(m, depth, id, k);
    assert up[k] in m && depth[up[k]] == i + 1;
  }

  lemma RootPathLinks(m: Tenants, depth: map<string, nat>, id: string, i: nat)
    requires Forest(m, depth) && id in m && i < depth[id]
    ensures var path := RootPath(m, depth, id);
            path[i] in m && m[path[i]].parent == if i == 0 then None else Some(path[i - 1])
  {
    var k := depth[id] - 1 - i;
    RootPathDepth(m, depth, id, i);
    if i == 0 {
      NoParentAtTop(m, depth, RootPath(m, depth, id)[0]);
    } else {
      ParentsAlongPath(m, depth, id, k);
      RootPathDepth(m, depth, id, i - 1);
    }
  }

  lemma NoParentAtTop(m: Tenants, depth: map<string, nat>, id: string)
    requires Forest(m, depth) && id in m && depth[id] == 1
    ensures m[id].parent == None
  {
    assert Level(m, depth, id);
  }

  /** A path from a tenant without parent, from parent to child, to `id`, repeating nobody. */
  ghost predicate IsRootPath(m: Tenants, path: seq<string>, id: string) {
    && 1 <= |path| && path[|path| - 1] == id
    && (forall i :: 0 <= i < |path| ==> path[i] in m)
    && (forall i :: 0 <= i < |path| ==> m[path[i]].parent == if i == 0 then None else Some(path[i - 1]))
    && (forall i, j :: 0 <= i < j < |path| ==> path[i] != path[j])
  }

  /** Every reachable registry is a forest whose root paths have at most 101 nodes. */
  lemma ReachableIsForest(ops: seq<Op>, id: string)
    requires id in Run(ops).0
    ensures var (m, depth) := Run(ops);
            var path := RootPath(m, depth, id);
            IsRootPath(m, path, id) && |path| <= 101
  {
    var (m, depth) := Run(ops);
    ForestHasRootPaths(m, depth, id);
  }

  lemma ForestHasRootPaths(m: Tenants, depth: map<string, nat>, id: string)
    requires Forest(m, depth) && id in m
    ensures IsRootPath(m, RootPath(m, depth, id), id)
  {
    var path := RootPath(m, depth, id);
    assert Level(m, depth, id);
    forall i | 0 <= i < |path|
      ensures depth[path[i]] == i + 1 && m[path[i]].parent == if i == 0 then None else Some(path[i - 1])
    {
      RootPathDepth(m, depth, id, i);
      RootPathLinks(m, depth, id, i);
    }
    assert path[|path| - 1] == UpPath(m, depth, id)[0];
  }
}
