/** Delegated keys: a child key is never wider than its parent. */
module Delegation {
  import opened Wrappers

  datatype Scope =
    | Mcp | Read | Write | ToolsRead | ToolsCall | ToolsWrite
    | StateRead | StateWrite | SecretsWrite | KeysManage | Admin

  /** Holding `s` grants `other`. */
  predicate Implies(s: Scope, other: Scope) {
    || s == other || s == Mcp
    || (s == ToolsWrite && (other == ToolsCall || other == ToolsRead))
    || (s == ToolsCall && other == ToolsRead)
    || (s == StateWrite && other == StateRead)
  }

  lemma ImpliesIsAnOrder()
    ensures forall s :: Implies(s, s)
    ensures forall s, t, u :: Implies(s, t) && Implies(t, u) ==> Implies(s, u)
    ensures forall s, t :: Implies(s, t) && Implies(t, s) ==> s == t
  {
  }

  /** What the descriptions of the scopes say each includes. */
  predicate Includes(s: Scope, t: Scope) {
    (s, t) in {(ToolsCall, ToolsRead), (ToolsWrite, ToolsCall), (StateWrite, StateRead)}
  }

  ghost predicate IsOrder(r: (Scope, Scope) -> bool) {
    (forall s :: r(s, s)) && forall s, t, u :: r(s, t) && r(t, u) ==> r(s, u)
  }

  ghost predicate Honours(r: (Scope, Scope) -> bool) {
    (forall s :: r(Mcp, s)) && forall s, t :: Includes(s, t) ==> r(s, t)
  }

  /** Implication grants just that: it is the least order in which the full scope has every other
      and each has what it is said to include. */
  lemma ImpliesIsLeast(r: (Scope, Scope) -> bool, s: Scope, t: Scope)
    requires IsOrder(r) && Honours(r)
    ensures IsOrder(Implies) && Honours(Implies)
    ensures Implies(s, t) ==> r(s, t)
  {
    ImpliesIsAnOrder();
    assert Includes(ToolsCall, ToolsRead) && Includes(ToolsWrite, ToolsCall) && Includes(StateWrite, StateRead);
    assert r(ToolsWrite, ToolsCall) && r(ToolsCall, ToolsRead);
  }

  predicate HeldImplies(held: seq<Scope>, want: Scope) {
    exists i :: 0 <= i < |held| && Implies(held[i], want)
  }

  /** It is held if some scope held grants it. */
  lemma HeldIff(held: seq<Scope>, want: Scope)
    ensures HeldImplies(held, want) <==> exists s :: s in held && Implies(s, want)
  {
    if HeldImplies(held, want) {
      var i :| 0 <= i < |held| && Implies(held[i], want);
      assert held[i] in held;
    }
  }

  const DEPTH_MAX := 3

  datatype Authority = Authority(
    scopes: seq<Scope>,
    tools: Option<seq<string>>,
    expiresAt: Option<int>,
    depth: int,
    canDelegate: bool)

  const PRIMARY := Authority([Mcp], None, None, 0, true)

  datatype Request = Request(scopes: seq<Scope>, tools: Option<seq<string>>, ttl: int, now: int, canDelegate: bool)

  datatype Excess = ScopeExcess(scope: Scope) | ToolExcess(tool: string) | TtlExcess(ttl: int) | DepthExcess(depth: int)

  function FirstScope(held: seq<Scope>, wanted: seq<Scope>): (r: Option<Scope>)
    ensures r.None? <==> forall i | 0 <= i < |wanted| :: HeldImplies(held, wanted[i])
    ensures r.Some? ==> exists i | 0 <= i < |wanted| ::
      && wanted[i] == r.value && !HeldImplies(held, wanted[i])
      && forall j | 0 <= j < i :: HeldImplies(held, wanted[j])
  {
    if wanted == [] then None
    else if !HeldImplies(held, wanted[0]) then Some(wanted[0])
    else
      var r := FirstScope(held, wanted[1..]);
      assert forall i | 1 <= i < |wanted| :: wanted[i] == wanted[1..][i - 1];
      r
  }

  function FirstTool(allowed: seq<string>, wanted: seq<string>): (r: Option<string>)
    ensures r.None? <==> forall i | 0 <= i < |wanted| :: wanted[i] in allowed
    ensures r.Some? ==> exists i | 0 <= i < |wanted| ::
      && wanted[i] == r.value && wanted[i] !in allowed
      && forall j | 0 <= j < i :: wanted[j] in allowed
  {
    if wanted == [] then None
    else if wanted[0] !in allowed then Some(wanted[0])
    else
      var r := FirstTool(allowed, wanted[1..]);
      assert forall i | 1 <= i < |wanted| :: wanted[i] == wanted[1..][i - 1];
      r
  }

  /** The child's authority, or the first item beyond the parent's. */
  function Narrow(parent: Authority, req: Request): Result<Authority, Excess> {
    var scope := FirstScope(parent.scopes, req.scopes);
    if scope.Some? then Failure(ScopeExcess(scope.value))
    else
      var tool :=
        if req.tools.Some? && parent.tools.Some? then FirstTool(parent.tools.value, req.tools.value) else None;
      if tool.Some? then Failure(ToolExcess(tool.value))
      else
        var expiresAt := req.now + req.ttl;
        if parent.expiresAt.Some? && expiresAt > parent.expiresAt.value then Failure(TtlExcess(req.ttl))
        else if parent.depth + 1 > DEPTH_MAX then Failure(DepthExcess(parent.depth + 1))
        else
          Success(Authority(req.scopes, if req.tools.Some? then req.tools else parent.tools, Some(expiresAt),
                            parent.depth + 1, req.canDelegate))
  }

  // ---- when a request is refused ------------------------------------------------------------

  predicate ScopesWithin(parent: Authority, req: Request) {
    forall i | 0 <= i < |req.scopes| :: HeldImplies(parent.scopes, req.scopes[i])
  }

  predicate ToolsWithin(parent: Authority, req: Request) {
    req.tools.Some? && parent.tools.Some? ==>
      forall i | 0 <= i < |req.tools.value| :: req.tools.value[i] in parent.tools.value
  }

  predicate TimeWithin(parent: Authority, req: Request) {
    parent.expiresAt.Some? ==> req.now + req.ttl <= parent.expiresAt.value
  }

  predicate DepthWithin(parent: Authority) {
    parent.depth < DEPTH_MAX
  }

  /** Nothing is refused but what exceeds the parent, and the first kind in the order scope,
      tool, lifetime, depth is the one named. */
  lemma NarrowRefusesIff(parent: Authority, req: Request)
    ensures var r := Narrow(parent, req);
      && (r.Success? <==>
            ScopesWithin(parent, req) && ToolsWithin(parent, req) && TimeWithin(parent, req) && DepthWithin(parent))
      && (r.Failure? && r.error.ScopeExcess? <==> !ScopesWithin(parent, req))
      && (r.Failure? && r.error.ToolExcess? <==> ScopesWithin(parent, req) && !ToolsWithin(parent, req))
      && (r.Failure? && r.error.TtlExcess? <==>
            ScopesWithin(parent, req) && ToolsWithin(parent, req) && !TimeWithin(parent, req))
      && (r.Failure? && r.error.DepthExcess? <==>
            ScopesWithin(parent, req) && ToolsWithin(parent, req) && TimeWithin(parent, req) && !DepthWithin(parent))
      && (r.Failure? && r.error.ScopeExcess? ==>
            r.error.scope in req.scopes && !HeldImplies(parent.scopes, r.error.scope))
      && (r.Failure? && r.error.ToolExcess? ==>
            r.error.tool in req.tools.value && r.error.tool !in parent.tools.value)
      && (r.Failure? && r.error.TtlExcess? ==> r.error.ttl == req.ttl)
      && (r.Failure? && r.error.DepthExcess? ==> r.error.depth == parent.depth + 1)
  {
    var scope := FirstScope(parent.scopes, req.scopes);
    if scope.Some? {
      var i :| 0 <= i < |req.scopes| && req.scopes[i] == scope.value && !HeldImplies(parent.scopes, req.scopes[i]);
    }
  }

  // ---- what a key may do ---------------------------------------------------------------------

  /** The key may use `tool` under `scope` at `time`. */
  predicate May(a: Authority, scope: Scope, tool: string, time: int) {
    && HeldImplies(a.scopes, scope)
    && (a.tools.Some? ==> tool in a.tools.value)
    && (a.expiresAt.Some? ==> time < a.expiresAt.value)
  }

  /** A child may do exactly what was asked for, within what its parent may do; it may delegate if
      that was asked for, and stands one below. */
  lemma ChildMayIff(parent: Authority, req: Request, scope: Scope, tool: string, time: int)
    requires Narrow(parent, req).Success?
    ensures Narrow(parent, req).value.canDelegate == req.canDelegate
    ensures Narrow(parent, req).value.depth == parent.depth + 1
    ensures May(Narrow(parent, req).value, scope, tool, time) <==>
      && May(parent, scope, tool, time)
      && HeldImplies(req.scopes, scope) && (req.tools.Some? ==> tool in req.tools.value) && time < req.now + req.ttl
  {
    NarrowRefusesIff(parent, req);
    if HeldImplies(req.scopes, scope) {
      ImpliedByParent(parent.scopes, req.scopes, scope);
    }
    if req.tools.Some? && parent.tools.Some? && tool in req.tools.value {
      var k :| 0 <= k < |req.tools.value| && req.tools.value[k] == tool;
    }
  }

  lemma ImpliedByParent(held: seq<Scope>, asked: seq<Scope>, scope: Scope)
    requires forall i | 0 <= i < |asked| :: HeldImplies(held, asked[i])
    requires HeldImplies(asked, scope)
    ensures HeldImplies(held, scope)
  {
    ImpliesIsAnOrder();
    var i :| 0 <= i < |asked| && Implies(asked[i], scope);
    var j :| 0 <= j < |held| && Implies(held[j], asked[i]);
    assert Implies(held[j], scope);
  }

  /** The keys of a chain, the root first, as far as each may delegate and its request is granted. */
  function Chain(root: Authority, reqs: seq<Request>): (keys: seq<Authority>)
    ensures keys != [] && keys[0] == root
    decreases reqs
  {
    if reqs == [] || !root.canDelegate || Narrow(root, reqs[0]).Failure? then [root]
    else [root] + Chain(Narrow(root, reqs[0]).value, reqs[1..])
  }

  /** Down any chain, a key may do no more than any key above it, each of which may delegate;
      its depth counts the delegations; and none is deeper than the limit. */
  lemma {:induction false} ChainOnlyShrinks(root: Authority, reqs: seq<Request>, i: nat, j: nat,
                                            scope: Scope, tool: string, time: int)
    requires i <= j < |Chain(root, reqs)|
    ensures May(Chain(root, reqs)[j], scope, tool, time) ==> May(Chain(root, reqs)[i], scope, tool, time)
    ensures i < j ==> Chain(root, reqs)[i].canDelegate
    ensures Chain(root, reqs)[j].depth == root.depth + j
    ensures j > 0 ==> Chain(root, reqs)[j].depth <= 3
    decreases reqs
  {
    if j > 0 {
      var child := Narrow(root, reqs[0]).value;
      var rest := Chain(child, reqs[1..]);
      assert Chain(root, reqs) == [root] + rest;
      NarrowRefusesIff(root, reqs[0]);
      if i > 0 {
        ChainOnlyShrinks(child, reqs[1..], i - 1, j - 1, scope, tool, time);
      } else {
        ChainOnlyShrinks(child, reqs[1..], 0, j - 1, scope, tool, time);
        if May(rest[j - 1], scope, tool, time) {
          ChildMayIff(root, reqs[0], scope, tool, time);
        }
      }
    }
  }

  /** Under a primary key at most three keys follow one another. */
  lemma ChainIsShort(reqs: seq<Request>)
    ensures |Chain(PRIMARY, reqs)| <= 4
  {
    var keys := Chain(PRIMARY, reqs);
    if |keys| > 1 {
      ChainOnlyShrinks(PRIMARY, reqs, 0, |keys| - 1, Mcp, "", 0);
    }
  }
}
