/**
 The pull buffer of hermes/core/pull.go: a bounded ring of numbered messages, seen as the tail of the unbounded log of
 everything the consumer's filter accepted.
 */
module PullRing {

  /** The parts of an inbound message the ring's readers look at. */
  datatype Message = Message(surface: string, threadRef: string, user: string, content: string)

  datatype PullEvent = PullEvent(seqNo: nat, msg: Message)

  const DEFAULT_MAX := 32

  /** The log with its sequence numbers, which start at 1. */
  function Numbered(log: seq<Message>): (events: seq<PullEvent>)
    ensures |events| == |log|
    ensures forall i :: 0 <= i < |log| ==> events[i] == PullEvent(i + 1, log[i])
  {
    seq(|log|, i requires 0 <= i < |log| => PullEvent(i + 1, log[i]))
  }

  /** How many messages of a log of length `n` a ring of the given capacity has dropped; 0 or less means no bound. */
  function Evicted(n: nat, capacity: int): (k: nat)
    ensures k <= n
  {
    if capacity > 0 && n > capacity then n - capacity else 0
  }

  function Limit(max: int): nat {
    if max < 1 then 1 else max
  }

  function Max(a: nat, b: nat): nat {
    if a < b then b else a
  }

  function Min(a: nat, b: nat): nat {
    if a < b then a else b
  }

  /** The first log position a read past `since` can still reach. */
  function Start(n: nat, capacity: int, since: nat): (k: nat)
    ensures k <= n
  {
    Min(n, Max(Evicted(n, capacity), since))
  }

  /** What a read past `since` gets from the log: the oldest surviving events, at most `max` of them. */
  function Collect(log: seq<Message>, capacity: int, since: nat, max: int): seq<PullEvent> {
    var k := Start(|log|, capacity, since);
    Numbered(log)[k..Min(|log|, k + Limit(max))]
  }

  /**
   `out` is the first `limit` of the events past `since`, in order: fewer only if there are no more.
   */
  ghost predicate FirstPast(events: seq<PullEvent>, since: nat, limit: nat, out: seq<PullEvent>) {
    && |out| <= limit
    && (forall ev :: ev in out ==> ev in events && since < ev.seqNo)
    && (forall i, j :: 0 <= i < j < |out| ==> out[i].seqNo < out[j].seqNo)
    && (forall ev :: ev in events && since < ev.seqNo && ev !in out ==>
          |out| == limit && forall got :: got in out ==> got.seqNo < ev.seqNo)
  }

  lemma InStretch(log: seq<Message>, a: nat, b: nat, ev: PullEvent)
    requires a <= b <= |log|
    ensures ev in Numbered(log)[a..b] <==> a < ev.seqNo <= b && ev == PullEvent(ev.seqNo, log[ev.seqNo - 1])
  {
    var s := Numbered(log)[a..b];
    if a < ev.seqNo <= b && ev == PullEvent(ev.seqNo, log[ev.seqNo - 1]) {
      assert s[ev.seqNo - 1 - a] == ev;
    }
    if ev in s {
      var i :| 0 <= i < |s| && s[i] == ev;
      assert s[i] == Numbered(log)[a + i];
    }
  }

  lemma StretchIsFirstPast(log: seq<Message>, gone: nat, k: nat, e: nat, since: nat, limit: nat)
    requires gone <= k <= e <= |log| && (since <= k || k == e) && (k > gone ==> k <= since)
    requires e - k <= limit && (e == |log| || e - k == limit)
    ensures FirstPast(Numbered(log)[gone..], since, limit, Numbered(log)[k..e])
  {
    var events, out := Numbered(log)[gone..|log|], Numbered(log)[k..e];
    assert Numbered(log)[gone..] == events;
    assert forall i :: 0 <= i < |out| ==> out[i].seqNo == k + i + 1;
    forall ev | ev in out ensures ev in events && since < ev.seqNo && ev.seqNo <= e {
      InStretch(log, k, e, ev);
      InStretch(log, gone, |log|, ev);
    }
    forall ev | ev in events && since < ev.seqNo && ev !in out ensures e < ev.seqNo && e < |log| {
      InStretch(log, gone, |log|, ev);
      InStretch(log, k, e, ev);
    }
    hide Numbered;
  }

  lemma CollectIsFirstPast(log: seq<Message>, capacity: int, since: nat, max: int)
    ensures FirstPast(Numbered(log)[Evicted(|log|, capacity)..], since, if max < 1 then 1 else max,
                      Collect(log, capacity, since, max))
  {
    hide FirstPast, Numbered;
    var k := Start(|log|, capacity, since);
    StretchIsFirstPast(log, Evicted(|log|, capacity), k, Min(|log|, k + Limit(max)), since, Limit(max));
  }

  class PullConsumer {
    const capacity: int
    const accepts: Message -> bool
    var events: seq<PullEvent>
    var nextSeq: nat
    ghost var log: seq<Message>

    constructor (capacity: int, accepts: Message -> bool)
      ensures this.capacity == capacity && this.accepts == accepts && log == [] && Valid()
    {
      this.capacity, this.accepts := capacity, accepts;
      events, nextSeq, log := [], 1, [];
    }

    /** The ring holds the tail of the log that its capacity leaves. */
    ghost predicate Valid()
      reads this
    {
      nextSeq == |log| + 1 && events == Numbered(log)[Evicted(|log|, capacity)..]
    }

    method Push(msg: Message) returns (number: nat)
      requires Valid()
      modifies this
      ensures Valid()
      ensures accepts(msg) ==> log == old(log) + [msg] && number == |log|
      ensures !accepts(msg) ==> log == old(log) && number == 0
    {
      if !accepts(msg) {
        return 0;
      }
      number := nextSeq;
      nextSeq := nextSeq + 1;
      ghost var before := log;
      log := log + [msg];
      assert Numbered(log) == Numbered(before) + [PullEvent(number, msg)];
      events := events + [PullEvent(number, msg)];
      if capacity > 0 && |events| > capacity {
        events := events[|events| - capacity..];
      }
    }

    method CollectLocked(since: nat, max: int) returns (out: seq<PullEvent>)
      requires Valid()
      ensures out == Collect(log, capacity, since, max)
      ensures FirstPast(events, since, if max < 1 then 1 else max, out)
    {
      CollectIsFirstPast(log, capacity, since, max);
      hide FirstPast;
      out := [];
      ghost var gone := Evicted(|log|, capacity);
      ghost var k := Start(|log|, capacity, since);
      var i := 0;
      while i < |events|
        invariant 0 <= i <= |events|
        invariant |out| < Limit(max)
        invariant out == if gone + i <= k then [] else Numbered(log)[k..gone + i]
      {
        var ev := events[i];
        i := i + 1;
        if ev.seqNo <= since {
          continue;
        }
        out := out + [ev];
        if |out| >= max {
          break;
        }
      }
    }

    /** One read. The wait for new messages is over when it is made. */
    method Next(since: nat, max: int) returns (out: seq<PullEvent>)
      requires Valid()
      ensures out == Collect(log, capacity, since, if max <= 0 then DEFAULT_MAX else max)
      ensures FirstPast(events, since, if max <= 0 then 32 else max, out)
    {
      var limit := max;
      if limit <= 0 {
        limit := DEFAULT_MAX;
      }
      out := CollectLocked(since, limit);
    }
  }
}
