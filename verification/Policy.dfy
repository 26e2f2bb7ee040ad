/** Authorization policies and how they propagate to sub-messages. */
module Policy {
  import opened Bytes

  datatype AccessType = Unspecified | Nobody | Everybody | AnyOfAddresses
  datatype AccessConfig = AccessConfig(permission: AccessType, addresses: seq<Addr>)

  /** AccessConfig.Allowed; an unspecified permission panics, so nothing is permitted. */
  predicate Allowed(c: AccessConfig, actor: Addr) {
    c.permission.Everybody? || (c.permission.AnyOfAddresses? && actor in c.addresses)
  }

  predicate TypeIsSubset(a: AccessType, super: AccessType) {
    match super
    case Everybody => !a.Unspecified?
    case Nobody => a.Nobody?
    case AnyOfAddresses => a.Nobody? || a.AnyOfAddresses?
    case Unspecified => false
  }

  predicate IsSubset(a: AccessConfig, super: AccessConfig) {
    match super.permission
    case AnyOfAddresses =>
      a.permission.Nobody? || (a.permission.AnyOfAddresses? && forall x | x in a.addresses :: x in super.addresses)
    case Unspecified => false
    case _ => TypeIsSubset(a.permission, super.permission)
  }

  /** A subset configuration lets in nobody its superset keeps out. */
  lemma SubsetAllowsNoMore(a: AccessConfig, super: AccessConfig, actor: Addr)
    requires IsSubset(a, super) && Allowed(a, actor)
    ensures Allowed(super, actor)
  {
  }

  datatype Action = ActionInstantiate | ActionMigrate

  datatype Policy = Default | Gov(propagate: set<Action>) | Partial(action: Action, base: Policy)

  /** What a policy is asked for. */
  datatype Right =
    | CreateCode(upload: AccessConfig, instantiate: AccessConfig, actor: Addr, config: AccessConfig)
    | UseCode(config: AccessConfig, actor: Addr)
    | ModifyContract(admin: Option<Addr>, actor: Addr)
    | ModifyCodeAccess(creator: Option<Addr>, actor: Addr, isSubset: bool)

  predicate DefaultPermits(r: Right) {
    match r
    case CreateCode(upload, instantiate, actor, config) => Allowed(upload, actor) && IsSubset(config, instantiate)
    case UseCode(config, actor) => Allowed(config, actor)
    case ModifyContract(admin, actor) => admin == Some(actor)
    case ModifyCodeAccess(creator, actor, isSubset) => creator == Some(actor) && isSubset
  }

  predicate Permits(p: Policy, r: Right) {
    match p
    case Default => DefaultPermits(r)
    case Gov(_) => true
    case Partial(action, base) =>
      || (r.UseCode? && action.ActionInstantiate?)
      || (r.ModifyContract? && action.ActionMigrate?)
      || Permits(base, r)
  }

  /** Who is let in: anybody if the configuration says so, else those it lists. */
  predicate MayUse(c: AccessConfig, actor: Addr) {
    match c.permission
    case Everybody => true
    case AnyOfAddresses => exists i :: 0 <= i < |c.addresses| && c.addresses[i] == actor
    case Nobody => false
    case Unspecified => false
  }

  /** Under the default policy exactly those may instantiate a code, and only those may upload. */
  lemma AccessIsNeeded(c: AccessConfig, actor: Addr)
    ensures Permits(Default, UseCode(c, actor)) <==> MayUse(c, actor)
    ensures forall i, x :: Permits(Default, CreateCode(c, i, actor, x)) ==> MayUse(c, actor)
    ensures forall i, x | IsSubset(x, i) :: Permits(Default, CreateCode(c, i, actor, x)) <==> MayUse(c, actor)
  {
  }

  /** An address longer than all of a list. */
  function Stranger(list: seq<Addr>): (a: Addr)
    ensures forall i | 0 <= i < |list| :: |list[i]| < |a|
  {
    if list == [] then [0]
    else
      var s := Stranger(list[..|list| - 1]);
      if |list[|list| - 1]| < |s| then s else list[|list| - 1] + [0]
  }

  /** A configuration is taken for a subset exactly if it lets in nobody the other keeps out,
      as long as both are specified and it does not list nobody. */
  lemma SubsetIff(a: AccessConfig, super: AccessConfig)
    requires !a.permission.Unspecified? && !super.permission.Unspecified?
    requires a.permission.AnyOfAddresses? ==> a.addresses != []
    ensures IsSubset(a, super) <==> forall actor :: MayUse(a, actor) ==> MayUse(super, actor)
  {
    if forall actor :: MayUse(a, actor) ==> MayUse(super, actor) {
      if a.permission.Everybody? {
        var x := Stranger(super.addresses);
        assert MayUse(a, x) && MayUse(super, x);
      } else if a.permission.AnyOfAddresses? {
        forall x | x in a.addresses ensures MayUse(super, x) { assert MayUse(a, x); }
        assert MayUse(super, a.addresses[0]);
      }
    } else {
      var actor :| MayUse(a, actor) && !MayUse(super, actor);
      assert Allowed(a, actor) && !Allowed(super, actor);
    }
  }

  /** SubMessageAuthorizationPolicy */
  function SubPolicy(p: Policy, action: Action): Policy {
    match p
    case Default => p
    case Gov(propagate) => if action in propagate then Partial(action, Default) else Default
    case Partial(_, _) => p
  }

  /** selectAuthorizationPolicy: the authority always acts with the gov policy. */
  function Select(ctx: Option<Policy>, sender: Addr, authority: Addr, propagate: set<Action>): Policy {
    if sender == authority then Gov(propagate)
    else if ctx.Some? then ctx.value
    else Default
  }

  /** A message on a path of nested messages: who sent it and what it does. Executing
      a contract leaves the policy in the context alone, the other two replace it. */
  datatype Hop = Hop(sender: Addr, does: Option<Action>)

  function Next(ctx: Option<Policy>, hop: Hop, authority: Addr, propagate: set<Action>): Option<Policy> {
    match hop.does
    case None => ctx
    case Some(action) => Some(SubPolicy(Select(ctx, hop.sender, authority, propagate), action))
  }

  /** The policies the messages of a path run under. */
  function Along(ctx: Option<Policy>, path: seq<Hop>, authority: Addr, propagate: set<Action>): (ps: seq<Policy>)
    ensures |ps| == |path|
    decreases path
  {
    if path == [] then []
    else [Select(ctx, path[0].sender, authority, propagate)]
         + Along(Next(ctx, path[0], authority, propagate), path[1..], authority, propagate)
  }

  predicate WithinDefaults(ctx: Option<Policy>) {
    ctx.None? || ctx.value.Default? || (ctx.value.Partial? && ctx.value.base.Default?)
  }

  ghost predicate NoMore(child: Policy, parent: Policy) {
    forall r :: Permits(child, r) ==> Permits(parent, r)
  }

  lemma SubPolicyNoMore(p: Policy, action: Action)
    ensures NoMore(SubPolicy(p, action), p)
  {
  }

  /** One hop: the next message, unless the authority itself sends it, may do no more. */
  lemma HopNoMore(ctx: Option<Policy>, hop: Hop, next: Addr, authority: Addr, propagate: set<Action>)
    requires next != authority && WithinDefaults(ctx)
    ensures NoMore(Select(Next(ctx, hop, authority, propagate), next, authority, propagate),
                   Select(ctx, hop.sender, authority, propagate))
    ensures WithinDefaults(Next(ctx, hop, authority, propagate))
  {
  }

  /** Along every path whose later senders are not the authority, no message may do
      what an earlier one may not. */
  lemma {:induction false} RightsOnlyShrink(ctx: Option<Policy>, path: seq<Hop>, authority: Addr, propagate: set<Action>, i: nat, j: nat)
    requires WithinDefaults(ctx) && i <= j < |path|
    requires forall k | 1 <= k < |path| :: path[k].sender != authority
    ensures NoMore(Along(ctx, path, authority, propagate)[j], Along(ctx, path, authority, propagate)[i])
    decreases path
  {
    if j > 0 {
      var ctx1 := Next(ctx, path[0], authority, propagate);
      HopNoMore(ctx, path[0], path[1].sender, authority, propagate);
      var tail := Along(ctx1, path[1..], authority, propagate);
      if i > 0 {
        RightsOnlyShrink(ctx1, path[1..], authority, propagate, i - 1, j - 1);
      } else {
        RightsOnlyShrink(ctx1, path[1..], authority, propagate, 0, j - 1);
        assert tail[0] == Select(ctx1, path[1].sender, authority, propagate);
      }
    }
  }

  /** No message below the first gains more than default rights over code. */
  lemma {:induction false} CodeRightsStayDefault(ctx: Option<Policy>, path: seq<Hop>, authority: Addr, propagate: set<Action>, j: nat, r: Right)
    requires WithinDefaults(ctx) && 1 <= j < |path|
    requires forall k | 1 <= k < |path| :: path[k].sender != authority
    requires r.CreateCode? || r.ModifyCodeAccess?
    ensures Permits(Along(ctx, path, authority, propagate)[j], r) <==> DefaultPermits(r)
    decreases path
  {
    var ctx1 := Next(ctx, path[0], authority, propagate);
    HopNoMore(ctx, path[0], path[1].sender, authority, propagate);
    var tail := Along(ctx1, path[1..], authority, propagate);
    assert Along(ctx, path, authority, propagate)[j] == tail[j - 1];
    if j == 1 {
      assert tail[0] == Select(ctx1, path[1].sender, authority, propagate);
    } else {
      CodeRightsStayDefault(ctx1, path[1..], authority, propagate, j - 1, r);
    }
  }

  /** A partial policy is a fixed point: it reaches every depth unchanged. */
  lemma {:induction false} PartialReachesEveryDepth(p: Policy, path: seq<Hop>, authority: Addr, propagate: set<Action>, j: nat)
    requires p.Partial? && j < |path|
    requires forall k | 0 <= k < |path| :: path[k].sender != authority
    ensures Along(Some(p), path, authority, propagate)[j] == p
    decreases path
  {
    if j > 0 {
      PartialReachesEveryDepth(p, path[1..], authority, propagate, j - 1);
    }
  }

  /** The right an action stands for. */
  predicate RightOf(action: Action, r: Right) {
    match action
    case ActionInstantiate => r.UseCode?
    case ActionMigrate => r.ModifyContract?
  }

  /** Below a message of the authority whose action it propagates, every message may do that
      action to anything, and otherwise what anybody may do; if it does not propagate the
      action, only the latter. */
  lemma AuthorityPropagates(ctx: Option<Policy>, path: seq<Hop>, authority: Addr, propagate: set<Action>, action: Action, j: nat, r: Right)
    requires 1 <= j < |path| && path[0] == Hop(authority, Some(action)) && forall k | 1 <= k < |path| :: path[k].sender != authority
    ensures Permits(Along(ctx, path, authority, propagate)[j], r) <==> (action in propagate && RightOf(action, r)) || DefaultPermits(r)
  {
    var below := path[1..];
    assert Along(ctx, path, authority, propagate)[j] == Along(Some(SubPolicy(Gov(propagate), action)), below, authority, propagate)[j - 1];
    if action in propagate {
      PartialReachesEveryDepth(Partial(action, Default), below, authority, propagate, j - 1);
    } else {
      DefaultReachesEveryDepth(Some(Default), below, authority, propagate, j - 1);
    }
  }

  lemma {:induction false} DefaultReachesEveryDepth(ctx: Option<Policy>, path: seq<Hop>, authority: Addr, propagate: set<Action>, j: nat)
    requires j < |path| && (ctx == None || ctx == Some(Default)) && forall k | 0 <= k < |path| :: path[k].sender != authority
    ensures Along(ctx, path, authority, propagate)[j] == Default
    decreases path
  {
    if j > 0 { DefaultReachesEveryDepth(Next(ctx, path[0], authority, propagate), path[1..], authority, propagate, j - 1); }
  }

  /** The sender condition is needed: a message the authority sends further down has
      all rights again. */
  lemma {:induction false} AuthorityRegainsRights(ctx: Option<Policy>, path: seq<Hop>, authority: Addr, propagate: set<Action>, r: Right)
    requires path != [] && path[|path| - 1].sender == authority
    ensures Permits(Along(ctx, path, authority, propagate)[|path| - 1], r)
    decreases path
  {
    if |path| > 1 {
      AuthorityRegainsRights(Next(ctx, path[0], authority, propagate), path[1..], authority, propagate, r);
    }
  }
}
