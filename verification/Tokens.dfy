/**
 Pod tokens: the grants Minos composes for a project (minos/core/commission.go), the JSON body that is signed and read
 back (pkg/jwt/bearer.go), and the claims a broker asks about (pkg/jwt/jwt.go). Claim names are those of RFC 7519,
 section 4.1. Signing itself is taken as perfect: what is verified is the body that was signed.
 */
module Tokens {
  import Tasks

  type Time = Tasks.Time

  const SECOND: Time := 1_000_000_000

  datatype Json = Null | Number(n: int) | Text(s: string) | Array(items: seq<Json>) | Object(fields: map<string, Json>)

  /** A nil list of scopes and an empty one are the same here: the composer only ever leaves nil ones empty. */
  datatype Claims = Claims(
    subject: string, issuer: string, audience: seq<string>, issuedAt: Time, expires: Time, jti: string,
    scopes: map<string, seq<string>>)

  predicate HasAudience(c: Claims, broker: string) {
    broker in c.audience
  }

  predicate HasScope(c: Claims, broker: string, op: string) {
    broker in c.scopes && op in c.scopes[broker]
  }

  // ---- Composing ----

  datatype Endpoint = Endpoint(name: string, scopes: seq<string>)

  /** The part of a project's configuration that grants anything. */
  datatype Project = Project(hecateRefs: seq<string>, endpoints: seq<Endpoint>)

  const FETCH := "credentials.fetch:"
  const LIFETIME: Time := 7_200_000_000_000

  function FetchScopes(refs: seq<string>): (scopes: seq<string>)
    ensures |scopes| == |refs| && forall i :: 0 <= i < |refs| ==> scopes[i] == FETCH + refs[i]
  {
    seq(|refs|, i requires 0 <= i < |refs| => FETCH + refs[i])
  }

  function ScopesAt(scopes: map<string, seq<string>>, name: string): seq<string> {
    if name in scopes then scopes[name] else []
  }

  /** The audience and the scopes say what the project grants. */
  ghost predicate Composed(proj: Project, audience: seq<string>, scopes: map<string, seq<string>>) {
    && (forall b :: b in audience <==> Addressed(proj, b))
    && (forall b, op :: op in ScopesAt(scopes, b) <==> Granted(proj, b, op))
  }

  lemma OneMoreEndpoint(proj: Project, ep: Endpoint, broker: string, op: string)
    ensures var more := proj.(endpoints := proj.endpoints + [ep]);
            && (Addressed(more, broker) <==> Addressed(proj, broker) || ep.name == broker)
            && (Granted(more, broker, op) <==> Granted(proj, broker, op) || (ep.name == broker && op in ep.scopes))
  {
    var more := proj.endpoints + [ep];
    assert more[|proj.endpoints|] == ep;
    assert forall e :: e in more <==> e in proj.endpoints || e == ep;
  }

  method ComposeCapabilities(taskId: string, proj: Project, jti: string, now: Time) returns (c: Claims)
    ensures c.subject == "task:" + taskId && c.issuer == "minos" && c.jti == jti
    ensures c.issuedAt == now && c.expires == now + LIFETIME
    ensures forall b :: HasAudience(c, b) <==> Addressed(proj, b)
    ensures forall b, op :: HasScope(c, b, op) <==> Granted(proj, b, op)
  {
    var audience := ["minos", "argus"];
    var scopes := map["minos" := ["task.lifecycle"], "argus" := ["heartbeat"]];
    if |proj.hecateRefs| > 0 {
      audience := audience + ["hecate"];
      var hecateScopes := [];
      for i := 0 to |proj.hecateRefs|
        invariant hecateScopes == FetchScopes(proj.hecateRefs)[..i]
      {
        hecateScopes := hecateScopes + [FETCH + proj.hecateRefs[i]];
      }
      scopes := scopes["hecate" := hecateScopes];
      assert hecateScopes == FetchScopes(proj.hecateRefs);
    }
    HecateScopes(proj.hecateRefs);
    for i := 0 to |proj.endpoints|
      invariant Composed(Project(proj.hecateRefs, proj.endpoints[..i]), audience, scopes)
    {
      var ep := proj.endpoints[i];
      ghost var done := Project(proj.hecateRefs, proj.endpoints[..i]);
      assert proj.endpoints[..i + 1] == proj.endpoints[..i] + [ep];
      forall b, op ensures (Addressed(done.(endpoints := done.endpoints + [ep]), b) <==>
          Addressed(done, b) || ep.name == b)
                   ensures (Granted(done.(endpoints := done.endpoints + [ep]), b, op) <==>
                            Granted(done, b, op) || (ep.name == b && op in ep.scopes))
      {
        OneMoreEndpoint(done, ep, b, op);
      }
      audience := audience + [ep.name];
      scopes := scopes[ep.name := (if ep.name in scopes then scopes[ep.name] else []) + ep.scopes];
    }
    assert proj.endpoints[..|proj.endpoints|] == proj.endpoints;
    c := Claims("task:" + taskId, "minos", audience, now, now + LIFETIME, jti, scopes);
  }

  // ---- What a project grants, said without any token ----

  predicate Addressed(proj: Project, broker: string) {
    || broker == "minos" || broker == "argus"
    || (broker == "hecate" && proj.hecateRefs != [])
    || exists ep :: ep in proj.endpoints && ep.name == broker
  }

  predicate FetchGranted(refs: seq<string>, op: string) {
    exists ref :: ref in refs && op == FETCH + ref
  }

  predicate EndpointGrants(endpoints: seq<Endpoint>, broker: string, op: string) {
    exists ep :: ep in endpoints && ep.name == broker && op in ep.scopes
  }

  predicate Granted(proj: Project, broker: string, op: string) {
    || (broker == "minos" && op == "task.lifecycle")
    || (broker == "argus" && op == "heartbeat")
    || (broker == "hecate" && FetchGranted(proj.hecateRefs, op))
    || EndpointGrants(proj.endpoints, broker, op)
  }

  lemma HecateScopes(refs: seq<string>)
    ensures forall op :: op in FetchScopes(refs) <==> FetchGranted(refs, op)
  {
    forall op ensures op in FetchScopes(refs) <==> FetchGranted(refs, op) {
      if op in FetchScopes(refs) {
        var i :| 0 <= i < |refs| && FetchScopes(refs)[i] == op;
        assert refs[i] in refs;
      }
      if FetchGranted(refs, op) {
        var ref :| ref in refs && op == FETCH + ref;
        var i :| 0 <= i < |refs| && refs[i] == ref;
        assert FetchScopes(refs)[i] == op;
      }
    }
  }

  // ---- The signed body ----

  /** The members of the body that are written and read; others are ignored. */
  datatype Name = Sub | Iss | Aud | Iat | Exp | Jti | McpScopes

  type Body = map<Name, Json>

  function Texts(ss: seq<string>): Json {
    if ss == [] then Null else Array(seq(|ss|, i requires 0 <= i < |ss| => Text(ss[i])))
  }

  /** Unix(): whole seconds, rounded towards the past. */
  function Seconds(t: Time): int {
    t / SECOND
  }

  function Encode(c: Claims): Body {
    map[Sub := Text(c.subject), Iss := Text(c.issuer), Aud := Texts(c.audience),
        Iat := Number(Seconds(c.issuedAt)), Exp := Number(Seconds(c.expires)), Jti := Text(c.jti),
        McpScopes := Object(map b | b in c.scopes :: Texts(c.scopes[b]))]
  }

  /** The strings of a JSON list; anything else in it is skipped. */
  function Strings(items: seq<Json>): seq<string> {
    if items == [] then []
        else Strings(items[..|items| - 1]) + (if items[|items| - 1].Text? then [items[|items| - 1].s] else [])
  }

  lemma {:induction false} StringsAreTexts(items: seq<Json>, s: string)
    ensures s in Strings(items) <==> Text(s) in items
    decreases |items|
  {
    if items != [] {
      var first, last := items[..|items| - 1], items[|items| - 1];
      StringsAreTexts(first, s);
      assert items == first + [last];
    }
  }

  function Str(fields: Body, key: Name): string {
    if key in fields && fields[key].Text? then fields[key].s else ""
  }

  function Instant(fields: Body, key: Name): Time {
    if key in fields && fields[key].Number? then fields[key].n * SECOND else Tasks.ZERO_TIME
  }

  function Items(fields: Body, key: Name): seq<Json> {
    if key in fields && fields[key].Array? then fields[key].items else []
  }

  /** Lists that are not lists (null, for one) leave no entry. */
  function ScopeLists(fields: map<string, Json>): map<string, seq<string>> {
    map b | b in fields && fields[b].Array? :: Strings(fields[b].items)
  }

  function Decode(fields: Body): Claims {
    Claims(Str(fields, Sub), Str(fields, Iss), Strings(Items(fields, Aud)),
           Instant(fields, Iat), Instant(fields, Exp), Str(fields, Jti),
           if McpScopes in fields && fields[McpScopes].Object? then ScopeLists(fields[McpScopes].fields) else map[])
  }

  method ReadStrings(items: seq<Json>) returns (list: seq<string>)
    ensures list == Strings(items)
    ensures forall s :: s in list <==> Text(s) in items
  {
    list := [];
    for i := 0 to |items|
      invariant list == Strings(items[..i])
    {
      assert items[..i + 1][..i] == items[..i];
      if items[i].Text? {
        list := list + [items[i].s];
      }
    }
    assert items[..|items|] == items;
    forall s ensures s in list <==> Text(s) in items {
      StringsAreTexts(items, s);
    }
  }

  /** mapToClaims: whatever is missing or of another type stays at its zero value. */
  method MapToClaims(fields: Body) returns (c: Claims)
    ensures c == Decode(fields)
    ensures Exp !in fields || !fields[Exp].Number? ==> c.expires == 0
    ensures Jti !in fields || !fields[Jti].Text? ==> c.jti == ""
    ensures Aud !in fields || !fields[Aud].Array? ==> c.audience == []
    ensures McpScopes !in fields || !fields[McpScopes].Object? ==> c.scopes == map[]
    ensures Exp in fields && fields[Exp].Number? ==> c.expires == fields[Exp].n * SECOND
    ensures Jti in fields && fields[Jti].Text? ==> c.jti == fields[Jti].s
    ensures forall b :: Aud in fields && fields[Aud].Array? ==> (b in c.audience <==> Text(b) in fields[Aud].items)
  {
    c := Claims("", "", [], Tasks.ZERO_TIME, Tasks.ZERO_TIME, "", map[]);
    if Sub in fields && fields[Sub].Text? {
      c := c.(subject := fields[Sub].s);
    }
    if Iss in fields && fields[Iss].Text? {
      c := c.(issuer := fields[Iss].s);
    }
    if Aud in fields && fields[Aud].Array? {
      var audience := ReadStrings(fields[Aud].items);
      c := c.(audience := audience);
    }
    if Iat in fields && fields[Iat].Number? {
      c := c.(issuedAt := fields[Iat].n * SECOND);
    }
    if Exp in fields && fields[Exp].Number? {
      c := c.(expires := fields[Exp].n * SECOND);
    }
    if Jti in fields && fields[Jti].Text? {
      c := c.(jti := fields[Jti].s);
    }
    if McpScopes in fields && fields[McpScopes].Object? {
      var scopes := ReadScopes(fields[McpScopes].fields);
      c := c.(scopes := scopes);
    }
  }

  method ReadScopes(lists: map<string, Json>) returns (scopes: map<string, seq<string>>)
    ensures scopes == ScopeLists(lists)
  {
    scopes := map[];
    var rest := lists.Keys;
    while rest != {}
      invariant rest <= lists.Keys
      invariant forall b :: b in scopes <==> b in lists && b !in rest && lists[b].Array?
      invariant forall b :: b in scopes ==> scopes[b] == Strings(lists[b].items)
      decreases |rest|
    {
      var b :| b in rest;
      rest := rest - {b};
      if lists[b].Array? {
        var list := ReadStrings(lists[b].items);
        scopes := scopes[b := list];
      }
    }
  }

  // ---- Round trip ----

  lemma {:induction false} StringsOfTexts(ss: seq<string>, items: seq<Json>)
    requires |items| == |ss| && forall i :: 0 <= i < |ss| ==> items[i] == Text(ss[i])
    ensures Strings(items) == ss
    decreases |ss|
  {
    if ss != [] {
      StringsOfTexts(ss[..|ss| - 1], items[..|items| - 1]);
    }
  }

  /** What a broker reads back: whole seconds, and no entry for a broker without scopes. */
  function ReadBack(c: Claims): Claims {
    c.(issuedAt := Seconds(c.issuedAt) * SECOND, expires := Seconds(c.expires) * SECOND,
       scopes := map b | b in c.scopes && c.scopes[b] != [] :: c.scopes[b])
  }

  lemma ItemsOfTexts(ss: seq<string>)
    ensures Texts(ss).Array? <==> ss != []
    ensures Texts(ss).Array? ==> Strings(Texts(ss).items) == ss
  {
    if ss != [] {
      StringsOfTexts(ss, Texts(ss).items);
    }
  }

  lemma EncodeDecode(c: Claims)
    ensures Decode(Encode(c)) == ReadBack(c)
  {
    ItemsOfTexts(c.audience);
    var lists := map b | b in c.scopes :: Texts(c.scopes[b]);
    forall b | b in c.scopes ensures lists[b].Array? <==> c.scopes[b] != []
                             ensures lists[b].Array? ==> Strings(lists[b].items) == c.scopes[b]
    {
      ItemsOfTexts(c.scopes[b]);
    }
    assert ScopeLists(lists) == ReadBack(c).scopes;
  }

  /** Reading a token back changes no answer a broker gets about it. */
  lemma SameAnswers(c: Claims, broker: string, op: string)
    ensures HasAudience(Decode(Encode(c)), broker) <==> HasAudience(c, broker)
    ensures HasScope(Decode(Encode(c)), broker, op) <==> HasScope(c, broker, op)
    ensures Decode(Encode(c)).expires <= c.expires < Decode(Encode(c)).expires + SECOND
    ensures Decode(Encode(c)).jti == c.jti
  {
    EncodeDecode(c);
  }
}
