/**
 What a broker lets through (pkg/brokerauth): the ordered checks of Require, and the in-memory replay store that forgets
 a token once it has expired.
 */
module BrokerAuth {
  import opened Options
  import opened Text
  import opened Tokens

  /**
   One request. `verified` is what the signature check makes of the bearer. The clock is read three times while the
   request is handled: when it comes in, by the signature check, which refuses a token from its expiry on (section 4.1.4
   of RFC 7519), and by the replay store.
   */
  datatype Request = Request(
    authorization: string, verified: Option<Claims>, arrived: Time, checked: Time, recorded: Time)

  datatype Verdict = MissingBearer | InvalidBearer | AudienceMismatch | ExpiredToken | ScopeDenied | Replay | Allowed

  function BearerFromHeader(h: string): string {
    if "Bearer " <= h then TrimSpace(h[7..]) else ""
  }

  /** The header is a bearer's, with something after the scheme. */
  predicate CarriesBearer(h: string) {
    "Bearer " <= h && exists i :: 7 <= i < |h| && !IsSpace(h[i])
  }

  lemma BearerCarried(h: string)
    ensures BearerFromHeader(h) != "" <==> CarriesBearer(h)
  {
    if "Bearer " <= h {
      TrimmedAway(h[7..]);
      if CarriesBearer(h) {
        var i :| 7 <= i < |h| && !IsSpace(h[i]);
        assert h[7..][i - 7] == h[i];
      }
      if HasText(h[7..]) {
        var i :| 0 <= i < |h[7..]| && !IsSpace(h[7..][i]);
        assert h[i + 7] == h[7..][i];
      }
    }
  }

  /** The claims name the operation among the broker's scopes; no operation asks for none. */
  predicate InScope(c: Claims, broker: string, op: string) {
    op == "" || (broker in c.scopes && op in c.scopes[broker])
  }

  /** The store has a jti and would still have it after its sweep. */
  predicate Remembered(entries: map<string, Time>, jti: string, now: Time) {
    jti != "" && jti in entries && entries[jti] >= now
  }

  /** Everything Require checks before it asks the replay store. */
  function Screened(broker: string, op: string, r: Request): Verdict {
    if BearerFromHeader(r.authorization) == "" then MissingBearer
    else match r.verified
         case None => InvalidBearer
         case Some(c) =>
           if r.checked >= c.expires then InvalidBearer
           else if !HasAudience(c, broker) then AudienceMismatch
           else if c.expires < r.arrived then ExpiredToken
           else if op != "" && !HasScope(c, broker, op) then ScopeDenied
           else Allowed
  }

  /** The store after its sweep at `now`. */
  function Swept(entries: map<string, Time>, now: Time): map<string, Time> {
    map k | k in entries && entries[k] >= now :: entries[k]
  }

  function Recorded(entries: map<string, Time>, jti: string, expires: Time, now: Time): map<string, Time> {
    if jti in Swept(entries, now) then Swept(entries, now) else Swept(entries, now)[jti := expires]
  }

  function VerdictOn(entries: map<string, Time>, broker: string, op: string, r: Request): Verdict {
    if Screened(broker, op, r) != Allowed then Screened(broker, op, r)
    else if r.verified.Some? && r.verified.value.jti != ""
        && r.verified.value.jti in Swept(entries, r.recorded) then Replay
    else Allowed
  }

  function EntriesAfter(entries: map<string, Time>, broker: string, op: string, r: Request): map<string, Time> {
    if Screened(broker, op, r) != Allowed || r.verified == None || r.verified.value.jti == "" then entries
    else Recorded(entries, r.verified.value.jti, r.verified.value.expires, r.recorded)
  }

  class MemReplayStore {
    var entries: map<string, Time>

    constructor ()
      ensures entries == map[]
    {
      entries := map[];
    }

    method Seen(jti: string, expires: Time, now: Time) returns (seen: bool)
      modifies this
      ensures seen <==> jti in old(entries) && old(entries)[jti] >= now
      ensures forall k :: k in entries <==> k == jti || (k in old(entries) && old(entries)[k] >= now)
      ensures forall k :: k in entries ==> entries[k] == if k == jti && !seen then expires else old(entries)[k]
      ensures entries == Recorded(old(entries), jti, expires, now)
      ensures seen == (jti in Swept(old(entries), now))
    {
      var rest := entries.Keys;
      while rest != {}
        invariant rest <= entries.Keys <= old(entries).Keys
        invariant forall k :: k in entries ==> entries[k] == old(entries)[k]
        invariant forall k :: k in old(entries) && k !in rest ==> (k in entries <==> old(entries)[k] >= now)
        decreases |rest|
      {
        var k :| k in rest;
        rest := rest - {k};
        if entries[k] < now {
          entries := entries - {k};
        }
      }
      assert entries == Swept(old(entries), now);
      if jti in entries {
        return true;
      }
      entries := entries[jti := expires];
      return false;
    }
  }

  class Verifier {
    const broker: string
    const replay: MemReplayStore

    constructor (broker: string, replay: MemReplayStore)
      ensures this.broker == broker && this.replay == replay
    {
      this.broker, this.replay := broker, replay;
    }

    /**
     A request is let through exactly if it carries a bearer whose signature is right, not expired at either look at the
     clock, addressed to this broker, good for the operation, and not remembered by the replay store. Every refusal
     names the first of these that is missing.
     */
    method Require(op: string, r: Request) returns (v: Verdict)
      modifies replay
      ensures v == VerdictOn(old(replay.entries), broker, op, r)
      ensures replay.entries == EntriesAfter(old(replay.entries), broker, op, r)
      ensures v == Allowed <==>
              && CarriesBearer(r.authorization) && r.verified.Some? && r.checked < r.verified.value.expires
              && broker in r.verified.value.audience && r.arrived <= r.verified.value.expires
              && InScope(r.verified.value, broker, op)
              && !Remembered(old(replay.entries), r.verified.value.jti, r.recorded)
      ensures v == MissingBearer <==> !CarriesBearer(r.authorization)
      ensures v == InvalidBearer <==>
              CarriesBearer(r.authorization) && (r.verified == None || r.checked >= r.verified.value.expires)
      ensures v == AudienceMismatch <==>
              && CarriesBearer(r.authorization) && r.verified.Some? && r.checked < r.verified.value.expires
              && broker !in r.verified.value.audience
      ensures v == ExpiredToken <==>
              && CarriesBearer(r.authorization) && r.verified.Some? && r.checked < r.verified.value.expires
              && broker in r.verified.value.audience && r.verified.value.expires < r.arrived
      ensures v == ScopeDenied <==>
              && CarriesBearer(r.authorization) && r.verified.Some? && r.checked < r.verified.value.expires
              && broker in r.verified.value.audience && r.arrived <= r.verified.value.expires
              && !InScope(r.verified.value, broker, op)
      ensures v == Replay <==>
              && CarriesBearer(r.authorization) && r.verified.Some? && r.checked < r.verified.value.expires
              && broker in r.verified.value.audience && r.arrived <= r.verified.value.expires
              && InScope(r.verified.value, broker, op)
              && Remembered(old(replay.entries), r.verified.value.jti, r.recorded)
      ensures (v == Allowed || v == Replay) && r.verified.value.jti != "" ==>
                r.verified.value.jti in replay.entries
                && forall k :: k in replay.entries && k != r.verified.value.jti <==>
                     k in old(replay.entries) && old(replay.entries)[k] >= r.recorded && k != r.verified.value.jti
      ensures (v == Allowed || v == Replay) && r.verified.value.jti != "" ==>
                forall k :: k in replay.entries ==>
                  replay.entries[k] == if k == r.verified.value.jti && v == Allowed then r.verified.value.expires
                                       else old(replay.entries)[k]
      ensures v != Allowed && v != Replay ==> replay.entries == old(replay.entries)
      ensures v == Allowed && r.verified.value.jti == "" ==> replay.entries == old(replay.entries)
    {
      BearerCarried(r.authorization);
      hide BearerFromHeader, CarriesBearer;
      var raw := BearerFromHeader(r.authorization);
      if raw == "" {
        return MissingBearer;
      }
      if r.verified == None || r.checked >= r.verified.value.expires {
        return InvalidBearer;
      }
      var claims := r.verified.value;
      if !HasAudience(claims, broker) {
        return AudienceMismatch;
      }
      if claims.expires < r.arrived {
        return ExpiredToken;
      }
      if op != "" && !HasScope(claims, broker, op) {
        return ScopeDenied;
      }
      if claims.jti != "" {
        var seen := replay.Seen(claims.jti, claims.expires, r.recorded);
        if seen {
          return Replay;
        }
      }
      return Allowed;
    }
  }

  // ---- Token meaning ----

  /** A request with a token that is still valid when the request is handled, and not seen before. */
  predicate FirstUse(entries: map<string, Time>, read: Claims, r: Request) {
    && BearerFromHeader(r.authorization) != "" && r.verified == Some(read)
    && r.arrived <= r.checked < read.expires
    && read.jti !in entries
  }

  lemma FirstUseVerdict(entries: map<string, Time>, broker: string, op: string, read: Claims, r: Request)
    requires FirstUse(entries, read, r)
    ensures VerdictOn(entries, broker, op, r) == Allowed <==>
            HasAudience(read, broker) && (op != "" ==> HasScope(read, broker, op))
  {
    hide BearerFromHeader;
  }

  /**
   Meaning is preserved from the project's configuration to the broker's decision: composed, signed and read back, a
   token is allowed an operation exactly when the project grants it that operation at that broker.
   */
  lemma TokenMeaning(proj: Project, c: Claims, entries: map<string, Time>, broker: string, op: string, r: Request)
    requires forall b :: HasAudience(c, b) <==> Addressed(proj, b)
    requires forall b, o :: HasScope(c, b, o) <==> Granted(proj, b, o)
    requires FirstUse(entries, Decode(Encode(c)), r)
    ensures op != "" ==> (VerdictOn(entries, broker, op, r) == Allowed <==> Granted(proj, broker, op))
    ensures op == "" ==> (VerdictOn(entries, broker, op, r) == Allowed <==> Addressed(proj, broker))
  {
    hide *;
    FirstUseVerdict(entries, broker, op, Decode(Encode(c)), r);
    SameAnswers(c, broker, op);
    if Granted(proj, broker, op) {
      GrantedIsAddressed(proj, broker, op);
    }
  }

  lemma GrantedIsAddressed(proj: Project, broker: string, op: string)
    requires Granted(proj, broker, op)
    ensures Addressed(proj, broker)
  {
  }

  /**
   The whole way: Minos composes a token for a project, the body is read back, and the broker decides on its first use
   before the expiry in whole seconds.
   */
  method ComposeAndRequire(v: Verifier, taskId: string, proj: Project, jti: string, minted: Time, op: string,
                           authorization: string, arrived: Time, checked: Time, recorded: Time)
    returns (verdict: Verdict)
    requires BearerFromHeader(authorization) != "" && jti !in v.replay.entries
    requires arrived <= checked < Seconds(minted + LIFETIME) * SECOND
    modifies v.replay
    ensures op != "" ==> (verdict == Allowed <==> Granted(proj, v.broker, op))
    ensures op == "" ==> (verdict == Allowed <==> Addressed(proj, v.broker))
  {
    var c := ComposeCapabilities(taskId, proj, jti, minted);
    var read := MapToClaims(Encode(c));
    var r := Request(authorization, Some(read), arrived, checked, recorded);
    ReadBackExpiry(c);
    TokenMeaning(proj, c, v.replay.entries, v.broker, op, r);
    verdict := v.Require(op, r);
  }

  lemma ReadBackExpiry(c: Claims)
    ensures Decode(Encode(c)).expires == Seconds(c.expires) * SECOND && Decode(Encode(c)).jti == c.jti
  {
    EncodeDecode(c);
  }

  // ---- At most once ----

  /** One broker's requests, each for some operation. */
  datatype Call = Call(op: string, request: Request)

  /** One clock that never runs backwards, requests one at a time. */
  predicate Ordered(from: Time, calls: seq<Call>)
    decreases |calls|
  {
    calls == [] ||
    (var r := calls[0].request;
     from <= r.arrived <= r.checked <= r.recorded && Ordered(r.recorded, calls[1..]))
  }

  /** Every token with this jti is the same token: Minos mints a fresh jti for each. */
  predicate OneToken(c: Claims, calls: seq<Call>) {
    forall call :: call in calls && call.request.verified.Some? && call.request.verified.value.jti == c.jti ==>
      call.request.verified == Some(c)
  }

  /** The token expires between the signature check and the replay store's look at the clock. */
  predicate Straddles(c: Claims, r: Request) {
    r.checked < c.expires < r.recorded
  }

  /** The token is let through by this request. */
  predicate LetThrough(entries: map<string, Time>, broker: string, c: Claims, call: Call) {
    call.request.verified == Some(c) && VerdictOn(entries, broker, call.op, call.request) == Allowed
  }

  /** How often the token is let through. */
  function Uses(entries: map<string, Time>, broker: string, c: Claims, calls: seq<Call>): nat
    decreases |calls|
  {
    if calls == [] then 0
    else
      var next := EntriesAfter(entries, broker, calls[0].op, calls[0].request);
      (if LetThrough(entries, broker, c, calls[0]) then 1 else 0) + Uses(next, broker, c, calls[1..])
  }

  /** The request presents the token, passes every check before the replay store, and straddles the expiry. */
  predicate Slips(broker: string, c: Claims, call: Call) {
    call.request.verified == Some(c) && Screened(broker, call.op, call.request) == Allowed && Straddles(c, call.request)
  }

  ghost predicate NoneSlips(broker: string, c: Claims, calls: seq<Call>) {
    forall i :: 0 <= i < |calls| ==> !Slips(broker, c, calls[i])
  }

  /** Once the token has been let through, no later request slips. */
  ghost predicate NoneSlipsAfterUse(entries: map<string, Time>, broker: string, c: Claims, calls: seq<Call>)
    decreases |calls|
  {
    calls == [] ||
    if LetThrough(entries, broker, c, calls[0]) then NoneSlips(broker, c, calls[1..])
    else NoneSlipsAfterUse(EntriesAfter(entries, broker, calls[0].op, calls[0].request), broker, c, calls[1..])
  }

  /** If the store knows the jti, it knows it with this token's expiry. */
  predicate Honest(entries: map<string, Time>, c: Claims) {
    c.jti in entries ==> entries[c.jti] == c.expires
  }

  /** The store still knows the token, or its expiry has passed. */
  predicate Spent(entries: map<string, Time>, c: Claims, now: Time) {
    Honest(entries, c) && (c.jti in entries || c.expires < now)
  }

  /** A spent token stays spent, and a request gets it through again exactly if it slips. */
  lemma SpentTokenAgain(entries: map<string, Time>, broker: string, c: Claims, call: Call, from: Time)
    requires c.jti != "" && Spent(entries, c, from) && OneToken(c, [call])
    requires from <= call.request.arrived <= call.request.checked <= call.request.recorded
    ensures Spent(EntriesAfter(entries, broker, call.op, call.request), c, call.request.recorded)
    ensures LetThrough(entries, broker, c, call) <==> Slips(broker, c, call)
  {
    assert call in [call];
  }

  lemma FirstUseSpends(entries: map<string, Time>, broker: string, c: Claims, call: Call)
    requires c.jti != "" && Honest(entries, c) && OneToken(c, [call])
    ensures var next := EntriesAfter(entries, broker, call.op, call.request);
            Honest(next, c) && (LetThrough(entries, broker, c, call) ==> Spent(next, c, call.request.recorded))
  {
    assert call in [call];
  }

  lemma {:induction false} SpentUsesAreSlips(entries: map<string, Time>, broker: string, c: Claims, calls: seq<Call>,
          from: Time)
    requires c.jti != "" && Spent(entries, c, from) && Ordered(from, calls) && OneToken(c, calls)
    ensures Uses(entries, broker, c, calls) == 0 <==> NoneSlips(broker, c, calls)
    decreases |calls|
  {
    if calls != [] {
      var call, rest := calls[0], calls[1..];
      assert call in calls;
      SpentTokenAgain(entries, broker, c, call, from);
      SpentUsesAreSlips(EntriesAfter(entries, broker, call.op, call.request), broker, c, rest, call.request.recorded);
      NoneSlipsSplit(broker, c, calls);
    }
  }

  lemma NoneSlipsSplit(broker: string, c: Claims, calls: seq<Call>)
    requires calls != []
    ensures NoneSlips(broker, c, calls) <==> !Slips(broker, c, calls[0]) && NoneSlips(broker, c, calls[1..])
  {
    forall i | 1 <= i < |calls| ensures calls[i] == calls[1..][i - 1] {
    }
  }

  /**
   Exactly when a token with a jti is let through at most once, over any sequence of requests one at a time under one
   clock: when no request after the one that used it both passes the other checks and straddles its expiry. At every
   other instant at which the store forgets it, it is refused anyway.
   */
  lemma {:induction false} AllowedAtMostOnce(entries: map<string, Time>, broker: string, c: Claims, calls: seq<Call>,
          from: Time)
    requires c.jti != "" && Ordered(from, calls) && OneToken(c, calls) && Honest(entries, c)
    ensures Uses(entries, broker, c, calls) <= 1 <==> NoneSlipsAfterUse(entries, broker, c, calls)
    decreases |calls|
  {
    if calls != [] {
      var call, rest := calls[0], calls[1..];
      assert call in calls;
      var next := EntriesAfter(entries, broker, call.op, call.request);
      FirstUseSpends(entries, broker, c, call);
      if LetThrough(entries, broker, c, call) {
        SpentUsesAreSlips(next, broker, c, rest, call.request.recorded);
      } else {
        AllowedAtMostOnce(next, broker, c, rest, call.request.recorded);
      }
    }
  }

  /**
   For two requests in a row: a token that has just been let through is let through again by the next request exactly if
   that request passes the other checks and straddles the expiry.
   */
  lemma LetThroughAgainIffStraddled(entries: map<string, Time>, broker: string, c: Claims, first: Call, second: Call)
    requires c.jti != "" && first.request.verified == Some(c) && second.request.verified == Some(c)
    requires VerdictOn(entries, broker, first.op, first.request) == Allowed
    requires Ordered(first.request.arrived, [first, second]) && first.request.recorded <= c.expires
    ensures LetThrough(EntriesAfter(entries, broker, first.op, first.request), broker, c, second) <==>
            Screened(broker, second.op, second.request) == Allowed && Straddles(c, second.request)
  {
    assert [first, second][1..] == [second];
  }

  /** The condition fails: a token used well before its expiry is let through again by a request that straddles it. */
  lemma StraddledTokenUsedTwice()
    ensures var read := Claims("task:1", "minos", ["minos"], 0, 2 * SECOND, "jti", map[]);
            var first := Call("", Request("Bearer t", Some(read), SECOND, SECOND, SECOND));
            var second := Call("", Request("Bearer t", Some(read), 2 * SECOND - 2, 2 * SECOND - 1, 2 * SECOND + 1));
            && Ordered(0, [first, second]) && OneToken(read, [first, second])
            && Uses(map[], "minos", read, [first, second]) == 2
  {
    var read := Claims("task:1", "minos", ["minos"], 0, 2 * SECOND, "jti", map[]);
    var first := Call("", Request("Bearer t", Some(read), SECOND, SECOND, SECOND));
    var second := Call("", Request("Bearer t", Some(read), 2 * SECOND - 2, 2 * SECOND - 1, 2 * SECOND + 1));
    BearerRead();
    assert [first, second][1..] == [second] && [second][1..] == [];
    var next := EntriesAfter(map[], "minos", "", first.request);
    assert next == map["jti" := 2 * SECOND];
    assert Uses(next, "minos", read, [second]) == 1;
  }

  lemma BearerRead()
    ensures BearerFromHeader("Bearer t") == "t"
  {
    assert "Bearer t"[7..] == "t";
    TrimmedStays("t");
  }
}
