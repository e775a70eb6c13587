// agentgate/internal/identity/identity.go
module Identity {
  import opened Wrappers
  import opened Json
  import opened Base64Url

  // Who is calling: the agent, the human it acts for and that human's roles.
  datatype Identity = Identity(agentId: string, onBehalfOf: string, roles: seq<string>, subject: string)

  // ---- The claims search -------------------------------------------------

  // Looks like a JWT claim set.
  predicate Qualifies(m: Object) {
    "sub" in m || "on_behalf_of" in m
  }

  // The map found by following `path` through map-valued children.
  function At(v: Json, path: seq<string>): Option<Object>
    decreases |path|
  {
    if !v.JObject? then None
    else if path == [] then Some(v.fields)
    else if path[0] in v.fields then At(v.fields[path[0]], path[1..])
    else None
  }

  ghost predicate NoClaimsIn(v: Json) {
    forall path :: At(v, path).Some? ==> !Qualifies(At(v, path).value)
  }

  // `m` qualifies, and nothing above it on its path does.
  ghost predicate FirstOnPath(v: Json, path: seq<string>, m: Object) {
    && At(v, path) == Some(m) && Qualifies(m)
    && forall n :: 0 <= n < |path| ==> At(v, path[..n]).Some? && !Qualifies(At(v, path[..n]).value)
  }

  // `m` under keys, one inside the other.
  function Nested(keys: seq<string>, m: Object): Json {
    if keys == [] then JObject(m) else JObject(map[keys[0] := Nested(keys[1..], m)])
  }

  // However deep a claim set lies, it is there to be found.
  lemma {:induction false} NestedIsFound(keys: seq<string>, m: Object)
    requires "sub" in m || "on_behalf_of" in m
    ensures At(Nested(keys, m), keys) == Some(m) && !NoClaimsIn(Nested(keys, m))
    decreases |keys|
  {
    if keys != [] { NestedIsFound(keys[1..], m); }
  }

  lemma OneLevelDown(v: Json, key: string, path: seq<string>, m: Object)
    requires v.JObject? && key in v.fields && !Qualifies(v.fields) && FirstOnPath(v.fields[key], path, m)
    ensures FirstOnPath(v, [key] + path, m)
  {
    var down := [key] + path;
    assert down[1..] == path;
    forall n | 0 <= n < |down| ensures At(v, down[..n]).Some? && !Qualifies(At(v, down[..n]).value) {
      if n > 0 { assert down[..n][1..] == path[..n - 1]; }
    }
  }

  lemma NothingBelow(v: Json)
    requires v.JObject? && !Qualifies(v.fields) && forall k :: k in v.fields ==> NoClaimsIn(v.fields[k])
    ensures NoClaimsIn(v)
  {
    forall path | At(v, path).Some? ensures !Qualifies(At(v, path).value) {
      if path != [] { assert NoClaimsIn(v.fields[path[0]]); }
    }
  }

  // Sound and complete for every order in which Go may walk a map: it finds nothing exactly when
  // no map reachable through maps qualifies, and otherwise a map that is first on its path.
  method FindClaimsMap(v: Json) returns (found: Option<Object>)
    ensures found.None? <==> NoClaimsIn(v)
    ensures found.Some? ==> exists path :: FirstOnPath(v, path, found.value)
    ensures found.Some? ==> "sub" in found.value || "on_behalf_of" in found.value
    decreases v
  {
    if !v.JObject? {
      return None;
    }
    var m := v.fields;
    if "sub" in m || "on_behalf_of" in m {
      assert At(v, []) == Some(m) && FirstOnPath(v, [], m);
      return Some(m);
    }
    var unseen := m.Keys;
    while unseen != {}
      invariant unseen <= m.Keys
      invariant forall k :: k in m && k !in unseen ==> NoClaimsIn(m[k])
      decreases |unseen|
    {
      var key :| key in unseen;
      unseen := unseen - {key};
      found := FindClaimsMap(m[key]);
      if found.Some? {
        ghost var path :| FirstOnPath(m[key], path, found.value);
        OneLevelDown(v, key, path, found.value);
        assert At(v, [key] + path) == found;
        return;
      }
    }
    NothingBelow(v);
    return None;
  }

  // The filter metadata of a check request: one map per filter, walked in any order.
  method ClaimsFromMetadata(md: map<string, Object>) returns (found: Option<Object>)
    ensures found.None? <==> forall k :: k in md ==> NoClaimsIn(JObject(md[k]))
    ensures found.Some? ==> exists k, path :: k in md && FirstOnPath(JObject(md[k]), path, found.value)
    ensures found.Some? ==> "sub" in found.value || "on_behalf_of" in found.value
  {
    var unseen := md.Keys;
    while unseen != {}
      invariant unseen <= md.Keys
      invariant forall k :: k in md && k !in unseen ==> NoClaimsIn(JObject(md[k]))
      decreases |unseen|
    {
      var key :| key in unseen;
      unseen := unseen - {key};
      found := FindClaimsMap(JObject(md[key]));
      if found.Some? {
        return;
      }
    }
    return None;
  }

  // ---- Bearer tokens -----------------------------------------------------

  // Go's strings.Split on one character.
  function Split(s: string, sep: char): (parts: seq<string>)
    ensures |parts| == Occurrences(s, sep) + 1
  {
    if s == [] then [[]]
    else
      var rest := Split(s[1..], sep);
      if s[0] == sep then [[]] + rest else [[s[0]] + rest[0]] + rest[1..]
  }

  function Occurrences(s: string, c: char): nat {
    if s == [] then 0 else (if s[0] == c then 1 else 0) + Occurrences(s[1..], c)
  }

  function TrimPrefix(s: string, prefix: string): string {
    if prefix <= s then s[|prefix|..] else s
  }

  const BEARER := "Bearer "

  // The payload bytes of an authorization header's token.
  function JwtPayload(header: string): Option<seq<Byte>> {
    var parts := Split(TrimPrefix(header, BEARER), '.');
    if |parts| != 3 then None else Decode(parts[1])
  }

  lemma {:induction false} SplitHead(head: string, rest: string, sep: char)
    requires sep !in head
    ensures Split(head + [sep] + rest, sep) == [head] + Split(rest, sep)
    decreases |head|
  {
    var s := head + [sep] + rest;
    if head == [] {
      assert s[1..] == rest;
    } else {
      assert s[1..] == head[1..] + [sep] + rest;
      SplitHead(head[1..], rest, sep);
      assert head == [head[0]] + head[1..];
    }
  }

  lemma {:induction false} SplitNone(s: string, sep: char)
    requires sep !in s
    ensures Split(s, sep) == [s]
    decreases |s|
  {
    if s != [] {
      SplitNone(s[1..], sep);
      assert s == [s[0]] + s[1..];
    }
  }

  lemma EncodedHasNoDot(payload: seq<Byte>)
    ensures '.' !in Encode(payload)
  {
    forall i | 0 <= i < |Encode(payload)| ensures Encode(payload)[i] != '.' {
      LetterDigit(Pack(payload)[i], '.');
    }
  }

  // A bearer string built from any payload, between dot-free segments, decodes to that payload;
  // so does a bare token.
  lemma BearerRoundTrip(head: string, payload: seq<Byte>, signature: string)
    requires '.' !in head && '.' !in signature
    ensures
      var token := head + "." + (Encode(payload) + "." + signature);
      JwtPayload("Bearer " + token) == Some(payload) && (!("Bearer " <= token) ==> JwtPayload(token) == Some(payload))
  {
    var token := head + "." + (Encode(payload) + "." + signature);
    assert ("Bearer " + token)[7..] == token;
    EncodedHasNoDot(payload);
    SplitNone(signature, '.');
    SplitHead(Encode(payload), signature, '.');
    SplitHead(head, Encode(payload) + "." + signature, '.');
    DecodeInvertsEncode(payload);
  }

  // A token is refused exactly when it does not have two dots or its middle segment does not decode.
  lemma PayloadRefused(header: string)
    ensures
      var token := if "Bearer " <= header then header[7..] else header;
      JwtPayload(header).None? <==> Occurrences(token, '.') != 2 || Decode(Split(token, '.')[1]).None?
  {
    assert |Split(TrimPrefix(header, BEARER), '.')| == Occurrences(TrimPrefix(header, BEARER), '.') + 1;
  }

  // ---- Resolving the identity --------------------------------------------

  function Texts(items: seq<Json>): seq<string> {
    seq(|items|, i requires 0 <= i < |items| => Str(items[i]))
  }

  // The flat `roles` claim if it is a list, else Keycloak's realm_access.roles if that is one, else none.
  function RolesOf(claims: Object): seq<string> {
    if "roles" in claims && claims["roles"].JArray? then Texts(claims["roles"].items)
    else if "realm_access" in claims && claims["realm_access"].JObject?
            && "roles" in claims["realm_access"].fields && claims["realm_access"].fields["roles"].JArray?
    then Texts(claims["realm_access"].fields["roles"].items)
    else []
  }

  function Resolved(claims: Object): Identity {
    Identity(
      StrAt(claims, "azp"),
      if StrAt(claims, "on_behalf_of") != "" then StrAt(claims, "on_behalf_of") else StrAt(claims, "preferred_username"),
      RolesOf(claims),
      StrAt(claims, "sub"))
  }

  method AppendTexts(roles: seq<string>, items: seq<Json>) returns (out: seq<string>)
    ensures out == roles + Texts(items)
  {
    out := roles;
    for i := 0 to |items|
      invariant out == roles + Texts(items[..i])
    {
      out := out + [Str(items[i])];
      assert Texts(items[..i + 1]) == Texts(items[..i]) + [Str(items[i])];
    }
    assert items[..|items|] == items;
  }

  // The text under `key`: anything but a string, or nothing, reads as the empty string.
  predicate TextUnder(claims: Object, key: string, text: string) {
    if key in claims && claims[key].JString? then text == claims[key].text else text == ""
  }

  // One text for each item, in order.
  predicate TextsOf(items: seq<Json>, texts: seq<string>) {
    |texts| == |items| && forall k :: 0 <= k < |items| ==> texts[k] == if items[k].JString? then items[k].text else ""
  }

  // Who the claims say is calling, claim by claim.
  predicate Names(claims: Object, id: Identity) {
    && TextUnder(claims, "azp", id.agentId) && TextUnder(claims, "sub", id.subject)
    && (if "on_behalf_of" in claims && claims["on_behalf_of"].JString? && claims["on_behalf_of"].text != ""
        then id.onBehalfOf == claims["on_behalf_of"].text
        else TextUnder(claims, "preferred_username", id.onBehalfOf))
    && (if "roles" in claims && claims["roles"].JArray? then TextsOf(claims["roles"].items, id.roles)
        else if "realm_access" in claims && claims["realm_access"].JObject?
                && "roles" in claims["realm_access"].fields && claims["realm_access"].fields["roles"].JArray?
        then TextsOf(claims["realm_access"].fields["roles"].items, id.roles)
        else id.roles == [])
  }

  // No two identities fit the same claims.
  lemma NamesOne(claims: Object, id: Identity, other: Identity)
    requires Names(claims, id) && Names(claims, other)
    ensures id == other
  {
    assert id.roles == other.roles;
  }

  lemma ResolvedNames(claims: Object)
    ensures Names(claims, Resolved(claims))
  {
  }

  method FromClaims(claims: Object) returns (id: Identity)
    ensures id == Resolved(claims) && Names(claims, id)
    ensures "azp" in claims && claims["azp"].JString? ==> id.agentId == claims["azp"].text
    ensures "sub" in claims && claims["sub"].JString? ==> id.subject == claims["sub"].text
    ensures "on_behalf_of" in claims && claims["on_behalf_of"].JString? && claims["on_behalf_of"].text != "" ==>
              id.onBehalfOf == claims["on_behalf_of"].text
    ensures id.onBehalfOf == "" <==> StrAt(claims, "on_behalf_of") == "" && StrAt(claims, "preferred_username") == ""
  {
    id := Identity(StrAt(claims, "azp"), StrAt(claims, "on_behalf_of"), [], StrAt(claims, "sub"));
    if id.onBehalfOf == "" {
      id := id.(onBehalfOf := StrAt(claims, "preferred_username"));
    }
    var roles := id.roles;
    if "roles" in claims && claims["roles"].JArray? {
      roles := AppendTexts(roles, claims["roles"].items);
    } else if "realm_access" in claims && claims["realm_access"].JObject? {
      var access := claims["realm_access"].fields;
      if "roles" in access && access["roles"].JArray? {
        roles := AppendTexts(roles, access["roles"].items);
      }
    }
    id := id.(roles := roles);
    ResolvedNames(claims);
  }

  // `unmarshal` is the JSON parser. Validated metadata wins; the bearer token is the fallback;
  // with neither, nobody is resolved.
  method FromCheckRequest(md: map<string, Object>, authorization: string, unmarshal: seq<Byte> -> Option<Object>)
    returns (who: Option<Identity>)
    ensures (exists k :: k in md && !NoClaimsIn(JObject(md[k]))) ==>
              who.Some? && exists k, path, m :: k in md && FirstOnPath(JObject(md[k]), path, m) && Names(m, who.value)
    ensures (forall k :: k in md ==> NoClaimsIn(JObject(md[k]))) ==>
              if authorization == "" || JwtPayload(authorization).None? || unmarshal(JwtPayload(authorization).value).None?
              then who.None?
              else who.Some? && Names(unmarshal(JwtPayload(authorization).value).value, who.value)
  {
    var claims := ClaimsFromMetadata(md);
    if claims.Some? {
      var id := FromClaims(claims.value);
      return Some(id);
    }
    if authorization == "" {
      return None;
    }
    var payload := JwtPayload(authorization);
    if payload.None? {
      return None;
    }
    claims := unmarshal(payload.value);
    if claims.None? {
      return None;
    }
    var id := FromClaims(claims.value);
    return Some(id);
  }
}
