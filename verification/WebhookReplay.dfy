/**
 Slack webhooks are taken once (cerberus/verification/slack/slack.go): a timestamp check, a signature, and a delivery id
 looked up in a store that forgets ids after its retention window (cerberus/core/replay/replay.go).
 */
module WebhookReplay {
  import opened Options
  import Tasks

  type Time = Tasks.Time

  const SECOND: Time := 1_000_000_000

  // ---- The store ----

  /** The ids a clean-up at `now` leaves; a window of zero or less never cleans up. */
  function Retained(seen: map<string, Time>, window: Time, now: Time): map<string, Time> {
    if window <= 0 then seen else map k | k in seen && seen[k] >= now - window :: seen[k]
  }

  function SeenAfter(seen: map<string, Time>, window: Time, key: string, at: Time): map<string, Time> {
    if key in Retained(seen, window, at) then Retained(seen, window, at) else Retained(seen, window, at)[key := at]
  }

  /** The key was recorded within the window; a window of zero or less reaches back for ever. */
  predicate Remembers(seen: map<string, Time>, window: Time, key: string, now: Time) {
    key in seen && (window > 0 ==> seen[key] >= now - window)
  }

  class MemStore {
    var seen: map<string, Time>
    const window: Time

    constructor (window: Time)
      ensures seen == map[] && this.window == window
    {
      seen, this.window := map[], window;
    }

    method Seen(key: string, at: Time) returns (before: bool)
      modifies this
      ensures before == Remembers(old(seen), window, key, at)
      ensures key in seen && (if before then seen[key] == old(seen)[key] else seen[key] == at)
      ensures before == (key in Retained(old(seen), window, at))
      ensures seen == SeenAfter(old(seen), window, key, at)
    {
      GcLocked(at);
      if key in seen {
        return true;
      }
      seen := seen[key := at];
      return false;
    }

    method GcLocked(now: Time)
      modifies this
      ensures seen == Retained(old(seen), window, now)
    {
      if window <= 0 {
        return;
      }
      var cutoff := now - window;
      var rest := seen.Keys;
      while rest != {}
        invariant rest <= seen.Keys <= old(seen).Keys
        invariant forall k :: k in seen ==> seen[k] == old(seen)[k]
        invariant forall k :: k in old(seen) && k !in rest ==> (k in seen <==> old(seen)[k] >= cutoff)
        decreases |rest|
      {
        var k :| k in rest;
        rest := rest - {k};
        if seen[k] < cutoff {
          seen := seen - {k};
        }
      }
    }
  }

  // ---- The verifier ----

  /** A request: its headers, whether the signature over timestamp and body is right, and the body's hash prefix. */
  datatype Webhook = Webhook(signature: string, timestamp: string, signedRight: bool, digest: string)

  const DIGEST_LENGTH := 16

  datatype Verdict = MissingHeader | Skewed | InvalidSignature | Replayed | Accepted(delivery: string)

  /** strconv.ParseInt in base 10 for 64 bits. */
  function ParseInt(s: string): Option<int> {
    var digits := if s != "" && (s[0] == '-' || s[0] == '+') then s[1..] else s;
    if digits == "" || exists c :: c in digits && !('0' <= c <= '9') then None
    else
      var n := if s[0] == '-' then -Digits(digits) else Digits(digits);
      if -0x8000_0000_0000_0000 <= n < 0x8000_0000_0000_0000 then Some(n) else None
  }

  function Digits(s: string): int {
    if s == "" then 0 else 10 * Digits(s[..|s| - 1]) + (s[|s| - 1] as int - '0' as int)
  }

  /** A number in decimal, as strconv.FormatInt prints it. */
  function Decimal(n: int): string {
    if n < 0 then "-" + DecimalDigits(-n) else DecimalDigits(n)
  }

  function DecimalDigits(n: nat): string {
    (if n < 10 then "" else DecimalDigits(n / 10)) + [('0' as int + n % 10) as char]
  }

  lemma {:induction false} DigitsOfDecimal(n: nat)
    ensures var s := DecimalDigits(n); s != "" && Digits(s) == n && forall c :: c in s ==> '0' <= c <= '9'
    decreases n
  {
    var s := DecimalDigits(n);
    if n >= 10 {
      DigitsOfDecimal(n / 10);
      assert s[..|s| - 1] == DecimalDigits(n / 10);
    } else {
      assert s[..0] == "";
    }
  }

  predicate Fits64(n: int) {
    -0x8000_0000_0000_0000 <= n < 0x8000_0000_0000_0000
  }

  lemma ParseDigits(digits: string)
    requires digits != "" && forall c :: c in digits ==> '0' <= c <= '9'
    ensures ParseInt(digits) == if Fits64(Digits(digits)) then Some(Digits(digits)) else None
  {
    hide Digits;
    assert digits[0] in digits;
  }

  lemma ParseNegative(digits: string)
    requires digits != "" && forall c :: c in digits ==> '0' <= c <= '9'
    ensures ParseInt("-" + digits) == if Fits64(-Digits(digits)) then Some(-Digits(digits)) else None
  {
    hide Digits;
    assert ("-" + digits)[1..] == digits;
  }

  /** A number in range is read back from its decimal digits; one out of range is refused. */
  lemma ParseIntReadsDecimal(n: int)
    ensures ParseInt(Decimal(n)) ==
            if -0x8000_0000_0000_0000 <= n < 0x8000_0000_0000_0000 then Some(n) else None
  {
    hide ParseInt, DecimalDigits, Digits;
    if n < 0 {
      DigitsOfDecimal(-n);
      ParseNegative(DecimalDigits(-n));
    } else {
      DigitsOfDecimal(n);
      ParseDigits(DecimalDigits(n));
    }
  }

  /** Whatever else than an optional sign and at least one digit is refused. */
  lemma ParseIntRefuses(s: string)
    requires s in {"", "-", "+"} || exists i :: 0 <= i < |s| && !('0' <= s[i] <= '9') && (i == 0 ==> s[i] !in "+-")
    ensures ParseInt(s) == None
  {
    if s !in {"", "-", "+"} {
      var i :| 0 <= i < |s| && !('0' <= s[i] <= '9') && (i == 0 ==> s[i] !in "+-");
      assert i > 0 ==> s[1..][i - 1] == s[i];
      assert s[i] in s;
    }
  }

  function DeliveryId(h: Webhook): string {
    h.timestamp + ":" + h.digest
  }

  /** Everything before the store is asked. */
  function Screened(h: Webhook, skew: Time, now: Time): Option<Verdict> {
    if h.signature == "" || h.timestamp == "" || ParseInt(h.timestamp) == None then Some(MissingHeader)
    else
      var d := now - ParseInt(h.timestamp).value * SECOND;
      if d > skew || d < -skew then Some(Skewed)
      else if !h.signedRight then Some(InvalidSignature)
      else None
  }

  function VerdictOn(seen: map<string, Time>, window: Time, skew: Time, h: Webhook, now: Time): Verdict {
    match Screened(h, skew, now)
    case Some(v) => v
    case None => if DeliveryId(h) in Retained(seen, window, now) then Replayed else Accepted(DeliveryId(h))
  }

  class Verifier {
    const store: MemStore
    const replayWindow: Time

    constructor (store: MemStore, replayWindow: Time)
      ensures this.store == store && this.replayWindow == replayWindow
    {
      this.store, this.replayWindow := store, replayWindow;
    }

    /**
     A webhook is accepted exactly if both headers are there, the timestamp is a number within the window around now,
     the signature is right and the store does not remember the delivery. Every refusal names the first of these
     missing.
     */
    method Verify(h: Webhook, now: Time) returns (v: Verdict)
      modifies store
      ensures v.Accepted? <==>
              && h.signature != "" && h.timestamp != "" && ParseInt(h.timestamp).Some?
              && -replayWindow <= now - ParseInt(h.timestamp).value * SECOND <= replayWindow
              && h.signedRight && !Remembers(old(store.seen), store.window, h.timestamp + ":" + h.digest, now)
      ensures v.Accepted? ==> v.delivery == h.timestamp + ":" + h.digest
      ensures v == MissingHeader <==> h.signature == "" || h.timestamp == "" || ParseInt(h.timestamp) == None
      ensures v == Skewed <==>
              && h.signature != "" && h.timestamp != "" && ParseInt(h.timestamp).Some?
              && !(-replayWindow <= now - ParseInt(h.timestamp).value * SECOND <= replayWindow)
      ensures v == InvalidSignature <==>
              && h.signature != "" && h.timestamp != "" && ParseInt(h.timestamp).Some?
              && -replayWindow <= now - ParseInt(h.timestamp).value * SECOND <= replayWindow
              && !h.signedRight
      ensures v == Replayed <==>
              && h.signature != "" && h.timestamp != "" && ParseInt(h.timestamp).Some?
              && -replayWindow <= now - ParseInt(h.timestamp).value * SECOND <= replayWindow
              && h.signedRight && Remembers(old(store.seen), store.window, h.timestamp + ":" + h.digest, now)
      ensures v.Accepted? ==>
                h.timestamp + ":" + h.digest in store.seen && store.seen[h.timestamp + ":" + h.digest] == now
      ensures !v.Accepted? && v != Replayed ==> store.seen == old(store.seen)
      ensures v == VerdictOn(old(store.seen), store.window, replayWindow, h, now)
      ensures store.seen == if Screened(h, replayWindow, now).Some? then old(store.seen)
                            else SeenAfter(old(store.seen), store.window, DeliveryId(h), now)
    {
      if h.signature == "" || h.timestamp == "" {
        return MissingHeader;
      }
      var parsed := ParseInt(h.timestamp);
      if parsed == None {
        return MissingHeader;
      }
      var ts := parsed.value * SECOND;
      var d := now - ts;
      if d > replayWindow || d < -replayWindow {
        return Skewed;
      }
      if !h.signedRight {
        return InvalidSignature;
      }
      var seen := store.Seen(DeliveryId(h), now);
      v := if seen then Replayed else Accepted(DeliveryId(h));
    }
  }

  // ---- Once ever ----

  /**
   What happens to the store: a webhook is verified, or another source sharing the store looks up a key of its own.
   */
  datatype Event = Hook(webhook: Webhook, at: Time) | Other(key: string, at: Time)

  function Next(seen: map<string, Time>, window: Time, skew: Time, e: Event): map<string, Time> {
    match e
    case Hook(h, now) =>
      if Screened(h, skew, now).Some? then seen else SeenAfter(seen, window, DeliveryId(h), now)
    case Other(key, now) => SeenAfter(seen, window, key, now)
  }

  predicate Ordered(from: Time, events: seq<Event>)
    decreases |events|
  {
    events == [] || (from <= events[0].at && Ordered(events[0].at, events[1..]))
  }

  predicate WellFormed(e: Event) {
    e.Hook? ==> |e.webhook.digest| == DIGEST_LENGTH
  }

  /** How often a delivery id is accepted. */
  function Accepts(seen: map<string, Time>, window: Time, skew: Time, id: string, events: seq<Event>): nat
    decreases |events|
  {
    if events == [] then 0
    else
      (if events[0].Hook? && VerdictOn(seen, window, skew, events[0].webhook, events[0].at) == Accepted(id) then 1
          else 0)
      + Accepts(Next(seen, window, skew, events[0]), window, skew, id, events[1..])
  }

  /** A delivery id tells its timestamp. */
  lemma IdTellsTimestamp(g: Webhook, h: Webhook)
    requires DeliveryId(g) == DeliveryId(h) && |g.digest| == |h.digest|
    ensures g.timestamp == h.timestamp
  {
    var id := DeliveryId(g);
    assert id[..|id| - |g.digest| - 1] == g.timestamp && id[..|id| - |h.digest| - 1] == h.timestamp;
  }

  /** The retention window reaches from the earliest to the latest instant a timestamp is accepted. */
  predicate WindowCovers(window: Time, skew: Time) {
    window <= 0 || window >= 2 * skew
  }

  /** The store knows the delivery, since an instant its timestamp allows, or the timestamp is too old by now. */
  predicate Remembered(seen: map<string, Time>, h: Webhook, skew: Time, now: Time)
    requires ParseInt(h.timestamp).Some?
  {
    var ts := ParseInt(h.timestamp).value * SECOND;
    (DeliveryId(h) in seen && seen[DeliveryId(h)] >= ts - skew) || now > ts + skew
  }

  lemma StaysRemembered(seen: map<string, Time>, window: Time, skew: Time, h: Webhook, e: Event, from: Time)
    requires ParseInt(h.timestamp).Some? && |h.digest| == DIGEST_LENGTH && WellFormed(e) && WindowCovers(window, skew)
    requires Remembered(seen, h, skew, from) && from <= e.at
    ensures Remembered(Next(seen, window, skew, e), h, skew, e.at)
    ensures e.Hook? ==> VerdictOn(seen, window, skew, e.webhook, e.at) != Accepted(DeliveryId(h))
  {
    if e.Hook? && DeliveryId(e.webhook) == DeliveryId(h) {
      IdTellsTimestamp(e.webhook, h);
    }
  }

  lemma {:induction false} NeverAgain(seen: map<string, Time>, window: Time, skew: Time, h: Webhook, events: seq<Event>,
          from: Time)
    requires ParseInt(h.timestamp).Some? && |h.digest| == DIGEST_LENGTH && WindowCovers(window, skew)
    requires Remembered(seen, h, skew, from) && Ordered(from, events) && forall e :: e in events ==> WellFormed(e)
    ensures Accepts(seen, window, skew, DeliveryId(h), events) == 0
    decreases |events|
  {
    if events != [] {
      assert events[0] in events;
      StaysRemembered(seen, window, skew, h, events[0], from);
      NeverAgain(Next(seen, window, skew, events[0]), window, skew, h, events[1..], events[0].at);
    }
  }

  lemma {:induction false} AcceptedOnce(seen: map<string, Time>, window: Time, skew: Time, id: string,
          events: seq<Event>, from: Time)
    requires WindowCovers(window, skew) && Ordered(from, events) && forall e :: e in events ==> WellFormed(e)
    ensures Accepts(seen, window, skew, id, events) <= 1
    decreases |events|
  {
    if events != [] {
      assert events[0] in events;
      var e := events[0];
      var next := Next(seen, window, skew, e);
      if e.Hook? && VerdictOn(seen, window, skew, e.webhook, e.at) == Accepted(id) {
        NeverAgain(next, window, skew, e.webhook, events[1..], e.at);
      } else {
        AcceptedOnce(next, window, skew, id, events[1..], e.at);
      }
    }
  }

  /** The first and the last instant at which a timestamp is accepted. */
  function Extremes(h: Webhook, skew: Time): seq<Event>
    requires ParseInt(h.timestamp).Some?
  {
    var ts := ParseInt(h.timestamp).value * SECOND;
    [Hook(h, ts - skew), Hook(h, ts + skew)]
  }

  lemma ShortWindowForgets(window: Time, skew: Time, h: Webhook)
    requires skew >= 0 && !WindowCovers(window, skew)
    requires Screened(h, skew, if ParseInt(h.timestamp).Some? then ParseInt(h.timestamp).value * SECOND else 0) == None
    ensures Accepts(map[], window, skew, DeliveryId(h), Extremes(h, skew)) == 2
  {
    var events := Extremes(h, skew);
    var id := DeliveryId(h);
    var one := Next(map[], window, skew, events[0]);
    assert one == map[id := events[0].at];
    assert id !in Retained(one, window, events[1].at);
    assert events[1..] == [events[1]] && events[1..][1..] == [];
    assert Accepts(one, window, skew, id, [events[1]]) == 1;
  }

  predicate AlwaysOnce(window: Time, skew: Time, id: string, from: Time, events: seq<Event>) {
    Ordered(from, events) && (forall e :: e in events ==> WellFormed(e)) ==>
        Accepts(map[], window, skew, id, events) <= 1
  }

  /**
   A delivery is accepted at most once ever, under one clock and whatever else shares the store, if and only if the
   retention window is disabled or at least twice the skew the timestamp check allows.
   */
  lemma OnceEverIffWindowCovers(window: Time, skew: Time)
    requires skew >= 0
    ensures WindowCovers(window, skew) <==> forall id, from, events :: AlwaysOnce(window, skew, id, from, events)
  {
    if WindowCovers(window, skew) {
      forall id, from, events ensures AlwaysOnce(window, skew, id, from, events) {
        if Ordered(from, events) && forall e :: e in events ==> WellFormed(e) {
          AcceptedOnce(map[], window, skew, id, events, from);
        }
      }
    } else {
      var h := Webhook("v0=", "1", true, "0123456789abcdef");
      assert Digits("1") == 1;
      var events := Extremes(h, skew);
      ShortWindowForgets(window, skew, h);
      assert |h.digest| == DIGEST_LENGTH;
      assert events[1..] == [events[1]] && events[1..][1..] == [];
      assert Ordered(events[0].at, events);
      assert WellFormed(events[0]) && WellFormed(events[1]);
      assert forall e :: e in events ==> e == events[0] || e == events[1];
      assert !AlwaysOnce(window, skew, DeliveryId(h), events[0].at, events);
    }
  }
}
