// The fragment of the Cedar policy language that policies/agentgate.cedar is
// written in: permit and forbid, `==` and `in` scopes, one attribute test,
// default deny, forbid overrides permit.
module Cedar {

  datatype Uid = Uid(kind: string, id: string)

  datatype Scope = Anything | Equals(uid: Uid) | Within(uid: Uid)

  // `when { resource.name == "value" }`. An absent attribute is an evaluation
  // error, and a policy that errors counts as not satisfied.
  datatype Condition = Always | ResourceAttribute(name: string, value: string)

  datatype Effect = Permit | Forbid

  datatype Policy = Policy(effect: Effect, principal: Scope, action: Scope, resource: Scope, condition: Condition)

  type PolicySet = seq<Policy>

  datatype Entity = Entity(parents: set<Uid>, attributes: map<string, string>)

  type Entities = map<Uid, Entity>

  datatype Request = Request(principal: Uid, action: Uid, resource: Uid)

  // Membership in the entity graphs Decide builds, which are one level deep.
  predicate Belongs(es: Entities, uid: Uid, group: Uid) {
    uid == group || (uid in es && group in es[uid].parents)
  }

  predicate InScope(es: Entities, uid: Uid, scope: Scope) {
    match scope
    case Anything => true
    case Equals(u) => uid == u
    case Within(group) => Belongs(es, uid, group)
  }

  predicate Holds(es: Entities, resource: Uid, c: Condition) {
    match c
    case Always => true
    case ResourceAttribute(name, value) =>
      resource in es && name in es[resource].attributes && es[resource].attributes[name] == value
  }

  predicate Satisfied(p: Policy, es: Entities, r: Request) {
    && InScope(es, r.principal, p.principal)
    && InScope(es, r.action, p.action)
    && InScope(es, r.resource, p.resource)
    && Holds(es, r.resource, p.condition)
  }

  predicate Authorized(ps: PolicySet, es: Entities, r: Request) {
    && (exists i :: 0 <= i < |ps| && ps[i].effect.Permit? && Satisfied(ps[i], es, r))
    && !(exists i :: 0 <= i < |ps| && ps[i].effect.Forbid? && Satisfied(ps[i], es, r))
  }
}
