// agentgate/internal/policy/engine.go
module Policy {
  import opened Wrappers
  import opened Json
  import opened Cedar

  datatype Decision = Allow | Deny | NeedsApproval

  // One owner edge of the relationship graph.
  datatype Edge = Edge(user: string, record: string)

  // What the relationship checker answers during one Decide call.
  datatype Graph = NotConfigured | Unreachable | Owners(edges: set<Edge>)

  const DESTRUCTIVE_PREFIXES: seq<string> := ["delete_", "transfer_", "drop_", "remove_"]

  predicate Destructive(tool: string) {
    exists i :: 0 <= i < |DESTRUCTIVE_PREFIXES| && DESTRUCTIVE_PREFIXES[i] <= tool
  }

  // The naming convention, spelled out.
  lemma FourPrefixes(tool: string)
    ensures Destructive(tool) <==> "delete_" <= tool || "transfer_" <= tool || "drop_" <= tool || "remove_" <= tool
  {
    assert DESTRUCTIVE_PREFIXES[0] == "delete_" && DESTRUCTIVE_PREFIXES[1] == "transfer_";
    assert DESTRUCTIVE_PREFIXES[2] == "drop_" && DESTRUCTIVE_PREFIXES[3] == "remove_";
  }

  function Risk(tool: string): string {
    if Destructive(tool) then "destructive" else "read"
  }

  function UserUid(user: string): Uid { Uid("AgentGate::User", user) }

  function RoleUid(role: string): Uid { Uid("AgentGate::Role", role) }

  function ToolUid(tool: string): Uid { Uid("AgentGate::Tool", tool) }

  const CALL_TOOL := Uid("AgentGate::Action", "call_tool")

  function RoleUids(roles: seq<string>): set<Uid> {
    set i | 0 <= i < |roles| :: RoleUid(roles[i])
  }

  // The entity graph Cedar evaluates against: the user inside its role groups,
  // the tool with its risk attribute, and the bare role groups.
  function EntitiesFor(user: string, roles: seq<string>, tool: string): Entities {
    (map[UserUid(user) := Entity(RoleUids(roles), map[]),
         ToolUid(tool) := Entity({}, map["risk" := Risk(tool)])])
    + (map u | u in RoleUids(roles) :: Entity({}, map[]))
  }

  predicate MayCall(ps: PolicySet, user: string, roles: seq<string>, tool: string) {
    Authorized(ps, EntitiesFor(user, roles, tool), Request(UserUid(user), CALL_TOOL, ToolUid(tool)))
  }

  // Engine.Decide as a function of everything it looks at.
  function Judge(ps: PolicySet, user: string, roles: seq<string>, tool: string, args: Object, g: Graph): Decision {
    if !MayCall(ps, user, roles, tool) then Deny
    else if !Destructive(tool) then Allow
    else if g.NotConfigured? then NeedsApproval
    else if IdArg(args) == None || IdArg(args) == Some("") then Deny
    else if g.Owners? && Edge(user, IdArg(args).value) in g.edges then NeedsApproval
    else Deny
  }

  // ---- Policy text -------------------------------------------------------

  // SHA-256 in hexadecimal.
  type Digest = s: string | |s| == 64 witness seq(64, _ => '0')

  // The two things done to a policy file's text.
  datatype Reader = Reader(parse: string -> Option<PolicySet>, digest: string -> Digest)

  // A short identifier of the policy text: twelve digits of its hash.
  function VersionOf(reader: Reader, text: string): string {
    reader.digest(text)[..12]
  }
}
