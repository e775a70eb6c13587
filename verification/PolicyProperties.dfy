// What decisions depend on, how they move when policies or roles are edited, and
// what the shipped policy file decides.
module PolicyProperties {
  import opened Json
  import opened Cedar
  import opened Policy

  // ---- What a decision depends on ----------------------------------------

  function RoleSet(roles: seq<string>): set<string> {
    set r | r in roles
  }

  lemma SameRoleUids(roles: seq<string>, others: seq<string>)
    requires RoleSet(roles) <= RoleSet(others)
    ensures RoleUids(roles) <= RoleUids(others)
  {
    forall u | u in RoleUids(roles) ensures u in RoleUids(others) {
      var i :| 0 <= i < |roles| && RoleUid(roles[i]) == u;
      assert roles[i] in RoleSet(roles);
      var j :| 0 <= j < |others| && others[j] == roles[i];
      assert RoleUid(others[j]) == u;
    }
  }

  // Only the user, the set of roles, the tool, the `id` argument, the policies and the graph
  // matter: neither the order nor the repetition of roles, nor any other argument.
  lemma DecisionDependsOnly(ps: PolicySet, user: string, roles: seq<string>, others: seq<string>, tool: string,
                            args: Object, args': Object, g: Graph)
    requires RoleSet(roles) == RoleSet(others) && IdArg(args) == IdArg(args')
    ensures Judge(ps, user, roles, tool, args, g) == Judge(ps, user, others, tool, args', g)
  {
    SameRoleUids(roles, others);
    SameRoleUids(others, roles);
    assert RoleUids(roles) == RoleUids(others);
    assert EntitiesFor(user, roles, tool) == EntitiesFor(user, others, tool);
  }

  // ---- What a policy set permits ------------------------------------------

  // Anything that destroys or moves data out, by its name.
  predicate NamedDestructive(tool: string) {
    "delete_" <= tool || "transfer_" <= tool || "drop_" <= tool || "remove_" <= tool
  }

  // The policy's scopes and condition fit the call: the user by name or by one of the roles, the
  // one action there is, the tool by name, and the tool's risk.
  predicate Applies(p: Cedar.Policy, user: string, roles: seq<string>, tool: string) {
    && (match p.principal
        case Anything => true
        case Equals(u) => u == Uid("AgentGate::User", user)
        case Within(g) => g == Uid("AgentGate::User", user) || (g.kind == "AgentGate::Role" && g.id in roles))
    && (match p.action
        case Anything => true
        case Equals(a) => a == Uid("AgentGate::Action", "call_tool")
        case Within(a) => a == Uid("AgentGate::Action", "call_tool"))
    && (match p.resource
        case Anything => true
        case Equals(r) => r == Uid("AgentGate::Tool", tool)
        case Within(r) => r == Uid("AgentGate::Tool", tool))
    && (match p.condition
        case Always => true
        case ResourceAttribute(name, value) =>
          name == "risk" && value == if NamedDestructive(tool) then "destructive" else "read")
  }

  // The entity graph adds nothing to that and takes nothing away.
  lemma SatisfiedIffApplies(p: Cedar.Policy, user: string, roles: seq<string>, tool: string)
    ensures Satisfied(p, EntitiesFor(user, roles, tool), Request(UserUid(user), CALL_TOOL, ToolUid(tool)))
            <==> Applies(p, user, roles, tool)
  {
    EntityViews(user, roles, tool);
    FourPrefixes(tool);
    DistinctKinds(user, tool);
    if p.principal.Within? { RoleMembership(p.principal.uid, roles); }
  }

  lemma RoleMembership(g: Uid, roles: seq<string>)
    ensures g in RoleUids(roles) <==> g.kind == "AgentGate::Role" && g.id in roles
  {
    if g.kind == "AgentGate::Role" && g.id in roles {
      var i :| 0 <= i < |roles| && roles[i] == g.id;
      assert RoleUid(roles[i]) == g;
    }
  }

  // For every policy set: a call is permitted exactly when some permit applies to it and no forbid does.
  lemma MayCallIff(ps: PolicySet, user: string, roles: seq<string>, tool: string)
    ensures MayCall(ps, user, roles, tool) <==>
              && (exists p :: p in ps && p.effect.Permit? && Applies(p, user, roles, tool))
              && !(exists p :: p in ps && p.effect.Forbid? && Applies(p, user, roles, tool))
  {
    var es, r := EntitiesFor(user, roles, tool), Request(UserUid(user), CALL_TOOL, ToolUid(tool));
    AuthorizedByMembers(ps, es, r);
    forall p | p in ps ensures Satisfied(p, es, r) <==> Applies(p, user, roles, tool) {
      SatisfiedIffApplies(p, user, roles, tool);
    }
  }

  // ---- Edits of the policy set -------------------------------------------

  predicate SamePolicies(ps: PolicySet, qs: PolicySet) {
    (forall p :: p in ps ==> p in qs) && (forall p :: p in qs ==> p in ps)
  }

  // Cedar's answer, restated over the policies present rather than their positions.
  lemma AuthorizedByMembers(ps: PolicySet, es: Entities, r: Request)
    ensures Authorized(ps, es, r) <==>
              && (exists p :: p in ps && p.effect.Permit? && Satisfied(p, es, r))
              && !(exists p :: p in ps && p.effect.Forbid? && Satisfied(p, es, r))
  {
    forall i | 0 <= i < |ps| ensures ps[i] in ps {}
  }

  lemma SameMayCall(ps: PolicySet, qs: PolicySet, user: string, roles: seq<string>, tool: string)
    requires SamePolicies(ps, qs)
    ensures MayCall(ps, user, roles, tool) <==> MayCall(qs, user, roles, tool)
  {
    var es, r := EntitiesFor(user, roles, tool), Request(UserUid(user), CALL_TOOL, ToolUid(tool));
    AuthorizedByMembers(ps, es, r);
    AuthorizedByMembers(qs, es, r);
  }

  // Reordering or repeating policies changes no decision.
  lemma OrderIsIrrelevant(ps: PolicySet, qs: PolicySet, user: string, roles: seq<string>, tool: string, args: Object, g: Graph)
    requires SamePolicies(ps, qs)
    ensures Judge(ps, user, roles, tool, args, g) == Judge(qs, user, roles, tool, args, g)
  {
    SameMayCall(ps, qs, user, roles, tool);
  }

  // Adding a policy: a forbid can only move a decision to deny, a permit only off deny.
  lemma AddedPolicy(ps: PolicySet, p: Cedar.Policy, user: string, roles: seq<string>, tool: string, args: Object, g: Graph)
    ensures
      var before := Judge(ps, user, roles, tool, args, g);
      var after := Judge(ps + [p], user, roles, tool, args, g);
      after == before || (if p.effect.Forbid? then after.Deny? else before.Deny?)
  {
    var es, r := EntitiesFor(user, roles, tool), Request(UserUid(user), CALL_TOOL, ToolUid(tool));
    AuthorizedByMembers(ps, es, r);
    AuthorizedByMembers(ps + [p], es, r);
  }

  // The human stays in the loop: no policy edit, role change or graph change turns a parked
  // call into one that is let through.
  lemma ParkedIsNeverAllowed(ps: PolicySet, qs: PolicySet, user: string, other: string, roles: seq<string>, others: seq<string>,
                             tool: string, args: Object, args': Object, g: Graph, h: Graph)
    requires Judge(ps, user, roles, tool, args, g).NeedsApproval?
    ensures !Judge(qs, other, others, tool, args', h).Allow?
  {
    assert Destructive(tool);
  }

  // Without forbids, more roles never lose a permission.
  lemma MoreRolesNeverLose(ps: PolicySet, user: string, roles: seq<string>, more: seq<string>, tool: string, args: Object, g: Graph)
    requires forall p :: p in ps ==> p.effect.Permit?
    requires RoleSet(roles) <= RoleSet(more)
    requires !Judge(ps, user, roles, tool, args, g).Deny?
    ensures Judge(ps, user, more, tool, args, g) == Judge(ps, user, roles, tool, args, g)
  {
    var es, fs := EntitiesFor(user, roles, tool), EntitiesFor(user, more, tool);
    var r := Request(UserUid(user), CALL_TOOL, ToolUid(tool));
    SameRoleUids(roles, more);
    AuthorizedByMembers(ps, es, r);
    AuthorizedByMembers(ps, fs, r);
    DistinctKinds(user, tool);
    var p :| p in ps && Satisfied(p, es, r);
    SatisfiedWithMoreRoles(p, user, roles, more, tool);
  }

  lemma DistinctKinds(user: string, tool: string)
    ensures forall role :: RoleUid(role) != UserUid(user) && RoleUid(role) != ToolUid(tool) && RoleUid(role) != CALL_TOOL
    ensures UserUid(user) != ToolUid(tool) && UserUid(user) != CALL_TOOL && ToolUid(tool) != CALL_TOOL
  {
    assert "AgentGate::Role"[11] != "AgentGate::User"[11] && "AgentGate::Role"[11] != "AgentGate::Tool"[11];
    assert "AgentGate::Role"[11] != "AgentGate::Action"[11] && "AgentGate::User"[11] != "AgentGate::Tool"[11];
    assert "AgentGate::User"[11] != "AgentGate::Action"[11] && "AgentGate::Tool"[11] != "AgentGate::Action"[11];
  }

  lemma SatisfiedWithMoreRoles(p: Cedar.Policy, user: string, roles: seq<string>, more: seq<string>, tool: string)
    requires RoleUids(roles) <= RoleUids(more)
    requires Satisfied(p, EntitiesFor(user, roles, tool), Request(UserUid(user), CALL_TOOL, ToolUid(tool)))
    ensures Satisfied(p, EntitiesFor(user, more, tool), Request(UserUid(user), CALL_TOOL, ToolUid(tool)))
  {
    DistinctKinds(user, tool);
    var es, fs := EntitiesFor(user, roles, tool), EntitiesFor(user, more, tool);
    EntityViews(user, roles, tool);
    EntityViews(user, more, tool);
  }

  // What the entity graph says about the three parts of a request.
  lemma EntityViews(user: string, roles: seq<string>, tool: string)
    ensures
      var es := EntitiesFor(user, roles, tool);
      && UserUid(user) in es && es[UserUid(user)] == Entity(RoleUids(roles), map[])
      && ToolUid(tool) in es && es[ToolUid(tool)] == Entity({}, map["risk" := Risk(tool)])
      && CALL_TOOL !in es
  {
    DistinctKinds(user, tool);
    assert UserUid(user) !in RoleUids(roles) && ToolUid(tool) !in RoleUids(roles) && CALL_TOOL !in RoleUids(roles);
  }

  // ---- The shipped policy file -------------------------------------------

  const READERS_READ := Cedar.Policy(Permit, Within(Uid("AgentGate::Role", "reader")), Equals(Uid("AgentGate::Action", "call_tool")),
                                     Anything, ResourceAttribute("risk", "read"))
  const ADMINS_CALL := Cedar.Policy(Permit, Within(Uid("AgentGate::Role", "admin")), Equals(Uid("AgentGate::Action", "call_tool")),
                                    Anything, Always)

  const SHIPPED: PolicySet := [READERS_READ, ADMINS_CALL]

  // Owns the named record, as far as the graph can tell.
  predicate OwnerShown(user: string, args: Object, g: Graph) {
    g.NotConfigured? ||
    (g.Owners? && "id" in args && args["id"].JString? && args["id"].text != "" && Edge(user, args["id"].text) in g.edges)
  }

  lemma ShippedCedar(user: string, roles: seq<string>, tool: string)
    ensures MayCall(SHIPPED, user, roles, tool) <==> "admin" in roles || ("reader" in roles && !NamedDestructive(tool))
  {
    MayCallIff(SHIPPED, user, roles, tool);
    assert |"read"| != |"destructive"|;
    assert "AgentGate::User"[11] != "AgentGate::Role"[11];
    assert READERS_READ in SHIPPED && ADMINS_CALL in SHIPPED;
    assert Applies(READERS_READ, user, roles, tool) <==> "reader" in roles && !NamedDestructive(tool);
    assert Applies(ADMINS_CALL, user, roles, tool) <==> "admin" in roles;
  }

  // The documented table, for every role list, tool name, arguments and graph.
  lemma ShippedTable(user: string, roles: seq<string>, tool: string, args: Object, g: Graph)
    ensures Judge(SHIPPED, user, roles, tool, args, g) ==
              if "delete_" <= tool || "transfer_" <= tool || "drop_" <= tool || "remove_" <= tool
              then (if "admin" in roles && OwnerShown(user, args, g) then NeedsApproval else Deny)
              else if "admin" in roles || "reader" in roles then Allow else Deny
  {
    ShippedCedar(user, roles, tool);
    FourPrefixes(tool);
  }

  // Switching ownership checks on only narrows destructive answers to deny, for every policy set.
  lemma OwnershipOnlyNarrows(ps: PolicySet, user: string, roles: seq<string>, tool: string, args: Object, g: Graph)
    ensures
      var without := Judge(ps, user, roles, tool, args, NotConfigured);
      var narrowed := Judge(ps, user, roles, tool, args, g);
      if NamedDestructive(tool) then narrowed == (if OwnerShown(user, args, g) then without else Deny) else narrowed == without
  {
    FourPrefixes(tool);
    assert g.NotConfigured? || g.Unreachable? || g.Owners?;
  }
}
