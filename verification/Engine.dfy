// agentgate/internal/policy/engine.go: the engine object.
module Engine {
  import opened Wrappers
  import opened Json
  import opened Cedar
  import opened Policy
  import opened Relations

  function GraphAnswer(relations: Client?, answered: bool): Graph
    reads relations
  {
    if relations == null then NotConfigured else if answered then Owners(relations.edges) else Unreachable
  }

  method IsDestructive(tool: string) returns (found: bool)
    ensures found <==> "delete_" <= tool || "transfer_" <= tool || "drop_" <= tool || "remove_" <= tool
    ensures found <==> Destructive(tool)
  {
    FourPrefixes(tool);
    for i := 0 to |DESTRUCTIVE_PREFIXES|
      invariant forall j :: 0 <= j < i ==> !(DESTRUCTIVE_PREFIXES[j] <= tool)
    {
      if DESTRUCTIVE_PREFIXES[i] <= tool {
        return true;
      }
    }
    return false;
  }

  class Engine {
    var policies: PolicySet
    var version: string
    const reader: Reader
    const relations: Client?

    constructor (reader: Reader, text: string, relations: Client?)
      requires reader.parse(text).Some?
      ensures this.reader == reader && this.relations == relations
      ensures policies == reader.parse(text).value && version == VersionOf(reader, text)
      ensures version <= reader.digest(text) && |version| == 12
    {
      this.reader := reader;
      this.relations := relations;
      policies := reader.parse(text).value;
      version := VersionOf(reader, text);
    }

    // New: no engine unless the file can be read and parsed. `disk` is what reading returned.
    static method Start(reader: Reader, disk: Option<string>, relations: Client?) returns (e: Engine?)
      ensures e != null <==> disk.Some? && reader.parse(disk.value).Some?
      ensures e != null ==>
                && fresh(e) && e.reader == reader && e.relations == relations
                && reader.parse(disk.value) == Some(e.policies) && e.version == VersionOf(reader, disk.value)
                && e.version <= reader.digest(disk.value) && |e.version| == 12
    {
      if disk.None? || reader.parse(disk.value).None? {
        return null;
      }
      e := new Engine(reader, disk.value, relations);
    }

    // The locked swap at the end of Reload: both fields change together, and belong together.
    method Install(text: string, ps: PolicySet)
      requires reader.parse(text) == Some(ps)
      modifies this
      ensures reader.parse(text) == Some(policies) && version == VersionOf(reader, text)
      ensures version <= reader.digest(text) && |version| == 12
    {
      policies := ps;
      version := reader.digest(text)[..12];
    }

    // Reload with nothing in between: `disk` is what reading the file returned. A failed
    // reload changes nothing.
    method Reload(disk: Option<string>) returns (ok: bool)
      modifies this
      ensures ok <==> disk.Some? && reader.parse(disk.value).Some?
      ensures policies == (if ok then reader.parse(disk.value).value else old(policies))
      ensures version == (if ok then VersionOf(reader, disk.value) else old(version))
      ensures ok ==> version <= reader.digest(disk.value) && |version| == 12
    {
      if disk.None? || reader.parse(disk.value).None? {
        return false;
      }
      Install(disk.value, reader.parse(disk.value).value);
      return true;
    }

    // What Decide does with the policy set it took under the lock. `answered` is false when the
    // graph was asked and gave no answer.
    method Evaluate(ps: PolicySet, user: string, roles: seq<string>, tool: string, args: Object)
      returns (decision: Decision, answered: bool)
      ensures decision == Judge(ps, user, roles, tool, args, GraphAnswer(relations, answered))
    {
      answered := true;
      var destructive := IsDestructive(tool);
      var risk := if destructive then "destructive" else "read";
      var parents: set<Uid> := {};
      for i := 0 to |roles|
        invariant parents == RoleUids(roles[..i])
      {
        parents := parents + {RoleUid(roles[i])};
        assert roles[..i + 1] == roles[..i] + [roles[i]];
        RoleUidsAppend(roles[..i], roles[i]);
      }
      assert roles[..|roles|] == roles;
      var entities: Entities := map[UserUid(user) := Entity(parents, map[]),
                                    ToolUid(tool) := Entity({}, map["risk" := risk])];
      entities := entities + (map u | u in parents :: Entity({}, map[]));
      if !Authorized(ps, entities, Request(UserUid(user), CALL_TOOL, ToolUid(tool))) {
        return Deny, answered;
      }
      if destructive {
        if relations != null {
          var record := StrAt(args, "id");
          if record == "" {
            return Deny, answered;
          }
          var owns, o := relations.CheckOwner(user, record);
          answered := owns.Some?;
          if owns != Some(true) {
            return Deny, answered;
          }
        }
        return NeedsApproval, answered;
      }
      return Allow, answered;
    }

    method Decide(user: string, roles: seq<string>, tool: string, args: Object) returns (decision: Decision, answered: bool)
      ensures decision == Judge(policies, user, roles, tool, args, GraphAnswer(relations, answered))
      ensures relations == null ==> (decision.Deny? <==> !MayCall(policies, user, roles, tool))
      ensures
        var destructive := "delete_" <= tool || "transfer_" <= tool || "drop_" <= tool || "remove_" <= tool;
        && (decision.Allow? <==> MayCall(policies, user, roles, tool) && !destructive)
        && (decision.NeedsApproval? <==>
              && MayCall(policies, user, roles, tool) && destructive
              && (relations != null ==>
                    && answered && "id" in args && args["id"].JString? && args["id"].text != ""
                    && Edge(user, args["id"].text) in relations.edges))
    {
      FourPrefixes(tool);
      var ps := policies;
      decision, answered := Evaluate(ps, user, roles, tool, args);
    }
  }

  lemma RoleUidsAppend(roles: seq<string>, role: string)
    ensures RoleUids(roles + [role]) == RoleUids(roles) + {RoleUid(role)}
  {
    var all := roles + [role];
    forall u | u in RoleUids(roles) + {RoleUid(role)} ensures u in RoleUids(all) {
      if u in RoleUids(roles) {
        var i :| 0 <= i < |roles| && RoleUid(roles[i]) == u;
        assert RoleUid(all[i]) == u;
      } else {
        assert RoleUid(all[|roles|]) == u;
      }
    }
  }
}
