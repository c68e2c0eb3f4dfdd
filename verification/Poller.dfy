/**
 The cursor loop of agents/iris/internal/iris/poller.go, and what it delivers when it reads the ring of
 hermes/core/pull.go while messages keep arriving.
 */
module Poller {
  import opened PullRing

  // ---- The loop ----

  /** One answer to a read: an error, a cancelled context, or a batch stamped with the broker's instance id. */
  datatype Response = Failed | Cancelled | Batch(instance: string, events: seq<PullEvent>)

  datatype Cursor = Cursor(since: nat, lastInstance: string)

  /** The cursor after a batch: the highest sequence number seen. */
  function Advance(since: nat, events: seq<PullEvent>): nat
    decreases |events|
  {
    if events == [] then since else Advance(Max(since, events[0].seqNo), events[1..])
  }

  predicate Restarted(c: Cursor, instance: string) {
    instance != "" && c.lastInstance != "" && instance != c.lastInstance
  }

  /** A batch is fetched with the old cursor; only then may a new instance id reset it. */
  function Absorb(c: Cursor, r: Response): Cursor {
    match r
    case Batch(instance, events) =>
      Cursor(Advance(if Restarted(c, instance) then 0 else c.since, events),
             if instance != "" then instance else c.lastInstance)
    case _ => c
  }

  function AbsorbAll(c: Cursor, rs: seq<Response>): Cursor {
    if rs == [] then c else Absorb(AbsorbAll(c, rs[..|rs| - 1]), rs[|rs| - 1])
  }

  /** Everything handed to the handler, in order. */
  function Handed(rs: seq<Response>): seq<PullEvent> {
    if rs == [] then [] else Handed(rs[..|rs| - 1]) + (if rs[|rs| - 1].Batch? then rs[|rs| - 1].events else [])
  }

  lemma {:induction false} AdvanceIsHighest(since: nat, events: seq<PullEvent>)
    ensures var n := Advance(since, events);
            && since <= n && (forall ev :: ev in events ==> ev.seqNo <= n)
            && (n == since || exists ev :: ev in events && ev.seqNo == n)
    decreases |events|
  {
    if events != [] {
      AdvanceIsHighest(Max(since, events[0].seqNo), events[1..]);
    }
  }

  /**
   A failed or cancelled read leaves the cursor. A batch moves it to the highest number seen, counted from 0 if the
   batch names another instance than the one before; an instance named is remembered.
   */
  lemma CursorRules(c: Cursor, instance: string, events: seq<PullEvent>)
    ensures Absorb(c, Failed) == c && Absorb(c, Cancelled) == c
    ensures var start := if instance != "" && c.lastInstance != "" && instance != c.lastInstance then 0 else c.since;
            var d := Absorb(c, Batch(instance, events));
            && d.lastInstance == (if instance == "" then c.lastInstance else instance)
            && start <= d.since && (forall ev :: ev in events ==> ev.seqNo <= d.since)
            && (d.since == start || exists ev :: ev in events && ev.seqNo == d.since)
  {
    AdvanceIsHighest(if Restarted(c, instance) then 0 else c.since, events);
  }

  lemma {:induction false} AdvanceSnoc(since: nat, events: seq<PullEvent>, ev: PullEvent)
    ensures Advance(since, events + [ev]) == Max(Advance(since, events), ev.seqNo)
    decreases |events|
  {
    if events == [] {
      assert (events + [ev])[1..] == [];
    } else {
      assert (events + [ev])[1..] == events[1..] + [ev];
      AdvanceSnoc(Max(since, events[0].seqNo), events[1..], ev);
    }
  }

  /**
   Run until the context is cancelled, given the answers the reads will get. A handler error does not hold the cursor
   back, so the handler does not appear.
   */
  method Run(responses: seq<Response>) returns (cursor: Cursor, handed: seq<PullEvent>, polls: nat)
    ensures polls <= |responses|
    ensures cursor == AbsorbAll(Cursor(0, ""), responses[..polls]) && handed == Handed(responses[..polls])
    ensures polls < |responses| ==> responses[polls] == Cancelled
    ensures Cancelled !in responses[..polls]
  {
    var since, lastInstance := 0, "";
    handed, polls := [], 0;
    while polls < |responses|
      invariant 0 <= polls <= |responses|
      invariant Cursor(since, lastInstance) == AbsorbAll(Cursor(0, ""), responses[..polls])
      invariant handed == Handed(responses[..polls]) && Cancelled !in responses[..polls]
    {
      var r := responses[polls];
      assert responses[..polls + 1][..polls] == responses[..polls];
      if r == Cancelled {
        break;
      }
      polls := polls + 1;
      if r == Failed {
        continue;
      }
      if r.instance != "" && lastInstance != "" && r.instance != lastInstance {
        since := 0;
      }
      if r.instance != "" {
        lastInstance := r.instance;
      }
      ghost var from, before := since, handed;
      var i := 0;
      while i < |r.events|
        invariant 0 <= i <= |r.events|
        invariant since == Advance(from, r.events[..i]) && handed == before + r.events[..i]
      {
        var ev := r.events[i];
        assert r.events[..i + 1] == r.events[..i] + [ev];
        AdvanceSnoc(from, r.events[..i], ev);
        handed := handed + [ev];
        if ev.seqNo > since {
          since := ev.seqNo;
        }
        i := i + 1;
      }
      assert r.events[..i] == r.events;
    }
    cursor := Cursor(since, lastInstance);
  }

  // ---- The ring read through the cursor, one broker instance ----

  /**
   `log` is every message accepted so far. The last two fields observe: what the handler has been given, and the
   sequence numbers evicted while they were still ahead of the cursor.
   */
  datatype Feed = Feed(log: seq<Message>, capacity: int, cursor: nat, delivered: seq<PullEvent>, lost: set<nat>)

  datatype Step = Push(msg: Message) | Poll(max: int)

  function After(f: Feed, step: Step): Feed {
    match step
    case Push(msg) =>
      var n := |f.log| + 1;
      f.(log := f.log + [msg], lost := if Evicted(n, f.capacity) > f.cursor then f.lost + {Evicted(n, f.capacity)}
          else f.lost)
    case Poll(max) =>
      var got := Collect(f.log, f.capacity, f.cursor, max);
      f.(cursor := Advance(f.cursor, got), delivered := f.delivered + got)
  }

  function AfterAll(f: Feed, steps: seq<Step>): Feed {
    if steps == [] then f else After(AfterAll(f, steps[..|steps| - 1]), steps[|steps| - 1])
  }

  predicate Fresh(f: Feed) {
    f.log == [] && f.cursor == 0 && f.delivered == [] && f.lost == {}
  }

  predicate Increasing(events: seq<PullEvent>) {
    forall i, j :: 0 <= i < j < |events| ==> events[i].seqNo < events[j].seqNo
  }

  predicate FromLog(log: seq<Message>, ev: PullEvent) {
    1 <= ev.seqNo <= |log| && ev.msg == log[ev.seqNo - 1]
  }

  ghost function Numbers(events: seq<PullEvent>): set<nat> {
    set ev | ev in events :: ev.seqNo
  }

  /** Up to the cursor a message was delivered or lost, never both; past it, it is lost exactly if it is evicted. */
  ghost predicate Accounted(f: Feed) {
    forall s :: 1 <= s <= |f.log| ==>
      if s <= f.cursor then s in Numbers(f.delivered) <==> s !in f.lost
      else s in f.lost <==> s <= Evicted(|f.log|, f.capacity)
  }

  ghost predicate Sound(f: Feed) {
    && f.cursor <= |f.log|
    && Increasing(f.delivered)
    && (forall ev :: ev in f.delivered ==> FromLog(f.log, ev) && ev.seqNo <= f.cursor)
    && (forall s :: s in f.lost ==> 1 <= s <= |f.log|)
    && Accounted(f)
  }

  lemma StretchNumbers(log: seq<Message>, k: nat, e: nat)
    requires k <= e <= |log|
    ensures forall s :: s in Numbers(Numbered(log)[k..e]) <==> k < s <= e
    ensures forall ev :: ev in Numbered(log)[k..e] ==> FromLog(log, ev)
    ensures Increasing(Numbered(log)[k..e])
  {
    forall s | k < s <= e ensures s in Numbers(Numbered(log)[k..e]) {
      assert Numbered(log)[k..e][s - 1 - k].seqNo == s;
    }
  }

  lemma NumbersJoined(a: seq<PullEvent>, b: seq<PullEvent>)
    ensures Numbers(a + b) == Numbers(a) + Numbers(b)
  {
  }

  /** A stretch of the log past the cursor moves the cursor to its end. */
  lemma {:induction false} AdvanceOver(since: nat, log: seq<Message>, k: nat, e: nat)
    requires since <= k < e <= |log|
    ensures Advance(since, Numbered(log)[k..e]) == e
    decreases e - k
  {
    assert Numbered(log)[k..e][1..] == Numbered(log)[k + 1..e];
    if k + 1 < e {
      AdvanceOver(k + 1, log, k + 1, e);
    }
  }

  /** What one read does to the cursor and to what has been delivered. */
  lemma PollStretch(f: Feed, max: int)
    requires f.cursor <= |f.log|
    ensures var k := Start(|f.log|, f.capacity, f.cursor);
            var d := After(f, Poll(max));
            && k <= d.cursor <= |f.log| && (d.cursor == k ==> k == f.cursor == |f.log|)
            && d.delivered == f.delivered + Numbered(f.log)[k..d.cursor]
  {
    var k := Start(|f.log|, f.capacity, f.cursor);
    var e := Min(|f.log|, k + Limit(max));
    if k < e {
      AdvanceOver(f.cursor, f.log, k, e);
    }
  }

  lemma PollSound(f: Feed, max: int)
    requires Sound(f)
    ensures Sound(After(f, Poll(max)))
  {
    PollStretch(f, max);
    var k := Start(|f.log|, f.capacity, f.cursor);
    var d := After(f, Poll(max));
    StretchNumbers(f.log, k, d.cursor);
    NumbersJoined(f.delivered, Numbered(f.log)[k..d.cursor]);
  }

  lemma PushSound(f: Feed, msg: Message)
    requires Sound(f)
    ensures Sound(After(f, Push(msg)))
  {
    var d := After(f, Push(msg));
    forall ev | ev in d.delivered ensures FromLog(d.log, ev) {
      assert FromLog(f.log, ev);
    }
  }

  lemma {:induction false} StaysSound(f: Feed, steps: seq<Step>)
    requires Sound(f)
    ensures Sound(AfterAll(f, steps)) && AfterAll(f, steps).capacity == f.capacity
    decreases |steps|
  {
    if steps != [] {
      var first, last := steps[..|steps| - 1], steps[|steps| - 1];
      StaysSound(f, first);
      match last
      case Push(msg) => PushSound(AfterAll(f, first), msg);
      case Poll(max) => PollSound(AfterAll(f, first), max);
    }
  }

  /**
   The ring refines the log. For every interleaving of pushes and reads against one broker instance, what the handler
   gets is strictly increasing, each event is the logged message of its number, and a number the cursor has passed is
   missing exactly if it was evicted while still ahead of the cursor.
   */
  lemma RingRefinesLog(f: Feed, steps: seq<Step>)
    requires Fresh(f)
    ensures var d := AfterAll(f, steps);
            && Increasing(d.delivered) && (forall ev :: ev in d.delivered ==> FromLog(d.log, ev))
            && Accounted(d)
    ensures Sound(AfterAll(f, steps)) && AfterAll(f, steps).capacity == f.capacity
  {
    StaysSound(f, steps);
  }

  /** At every push, the reader is at most a ring behind. */
  predicate KeepsUp(f: Feed, steps: seq<Step>) {
    steps == [] ||
    (var d := AfterAll(f, steps);
     KeepsUp(f, steps[..|steps| - 1])
         && (steps[|steps| - 1].Push? && f.capacity > 0 ==> |d.log| - d.cursor <= f.capacity))
  }

  /** Nothing is lost exactly when the backlog never exceeds the capacity. */
  lemma {:induction false} NothingLostIffKeepsUp(f: Feed, steps: seq<Step>)
    requires Fresh(f)
    ensures AfterAll(f, steps).lost == {} <==> KeepsUp(f, steps)
    decreases |steps|
  {
    if steps != [] {
      var first := steps[..|steps| - 1];
      NothingLostIffKeepsUp(f, first);
      RingRefinesLog(f, first);
      assert AfterAll(f, steps) == After(AfterAll(f, first), steps[|steps| - 1]);
    }
  }

  lemma EvictedAheadIsLost(f: Feed)
    requires Sound(f)
    ensures Evicted(|f.log|, f.capacity) > f.cursor ==> f.lost != {}
  {
    if Evicted(|f.log|, f.capacity) > f.cursor {
      assert Evicted(|f.log|, f.capacity) in f.lost;
    }
  }

  lemma PrefixGrows(f: Feed, max: int)
    requires Sound(f) && f.lost == {} && f.delivered == Numbered(f.log)[..f.cursor]
    ensures var d := After(f, Poll(max)); d.cursor <= |d.log| && d.delivered == Numbered(d.log)[..d.cursor]
  {
    PollStretch(f, max);
    EvictedAheadIsLost(f);
  }

  /** A reader that keeps up gets exactly the first `cursor` messages of the full log, as from an unbounded buffer. */
  lemma {:induction false} KeepingUpDeliversPrefix(f: Feed, steps: seq<Step>)
    requires Fresh(f) && KeepsUp(f, steps)
    ensures var d := AfterAll(f, steps); d.cursor <= |d.log| && d.delivered == Numbered(d.log)[..d.cursor]
    decreases |steps|
  {
    RingRefinesLog(f, steps);
    if steps != [] {
      var first := steps[..|steps| - 1];
      var c := AfterAll(f, first);
      KeepingUpDeliversPrefix(f, first);
      RingRefinesLog(f, first);
      NothingLostIffKeepsUp(f, first);
      match steps[|steps| - 1]
      case Push(msg) =>
        assert Numbered(c.log + [msg])[..c.cursor] == Numbered(c.log)[..c.cursor];
      case Poll(max) =>
        PrefixGrows(c, max);
    }
  }

  /** A read that comes back empty means that everything accepted has been passed. */
  lemma EmptyReadMeansCaughtUp(f: Feed, steps: seq<Step>, max: int)
    requires Fresh(f)
    ensures var d := AfterAll(f, steps); Collect(d.log, d.capacity, d.cursor, max) == [] <==> d.cursor == |d.log|
  {
    RingRefinesLog(f, steps);
    PollStretch(AfterAll(f, steps), max);
  }

  // ---- The cursor loop over such a ring ----

  /** The batches the reads of a run bring, all stamped with the one instance. */
  function Answers(f: Feed, steps: seq<Step>, instance: string): seq<Response> {
    if steps == [] then []
    else
      var first, last := steps[..|steps| - 1], steps[|steps| - 1];
      var d := AfterAll(f, first);
      Answers(f, first, instance) +
      (if last.Poll? then [Batch(instance, Collect(d.log, d.capacity, d.cursor, last.max))] else [])
  }

  /** The loop keeps exactly the cursor of the run and hands on exactly its deliveries. */
  lemma {:induction false} LoopFollowsFeed(f: Feed, steps: seq<Step>, instance: string)
    requires Fresh(f)
    ensures var c := AbsorbAll(Cursor(0, ""), Answers(f, steps, instance));
            c.since == AfterAll(f, steps).cursor && c.lastInstance in {"", instance}
    ensures Handed(Answers(f, steps, instance)) == AfterAll(f, steps).delivered
    decreases |steps|
  {
    if steps != [] {
      var first := steps[..|steps| - 1];
      LoopFollowsFeed(f, first, instance);
      var rs := Answers(f, first, instance);
      if steps[|steps| - 1].Poll? {
        assert Answers(f, steps, instance)[..|rs|] == rs;
      } else {
        assert Answers(f, steps, instance) == rs;
      }
    }
  }

  // ---- A broker restart ----

  /**
   A new broker instance numbers its messages from 1 again, but its first answer was still fetched with the old cursor.
   The cursor starts over exactly if that answer is empty; otherwise it stays past the messages the old cursor hid.
   */
  lemma FirstReadAfterRestart(c: Cursor, instance: string, log: seq<Message>, capacity: int, max: int)
    requires Restarted(c, instance)
    ensures var got := Collect(log, capacity, c.since, max);
            var next := Absorb(c, Batch(instance, got)).since;
            && (next == 0 <==> |log| <= c.since)
            && (next != 0 ==> c.since < next && forall ev :: ev in got ==> c.since < ev.seqNo <= next)
  {
    var k := Start(|log|, capacity, c.since);
    var e := Min(|log|, k + Limit(max));
    if |log| > c.since {
      AdvanceOver(0, log, k, e);
    }
  }

  /** The messages a stale cursor hid from the first read are never delivered: the cursor does not go back. */
  lemma {:induction false} HiddenStaysHidden(f: Feed, steps: seq<Step>, s: nat)
    requires s <= f.cursor <= |f.log| && s !in Numbers(f.delivered)
    ensures var d := AfterAll(f, steps); s <= d.cursor <= |d.log| && s !in Numbers(d.delivered)
    decreases |steps|
  {
    if steps != [] {
      var first := steps[..|steps| - 1];
      var c := AfterAll(f, first);
      HiddenStaysHidden(f, first, s);
      match steps[|steps| - 1]
      case Push(_) =>
      case Poll(max) =>
        PollStretch(c, max);
        var k := Start(|c.log|, c.capacity, c.cursor);
        var e := After(c, Poll(max)).cursor;
        StretchNumbers(c.log, k, e);
        NumbersJoined(c.delivered, Numbered(c.log)[k..e]);
    }
  }

  /** So, after a restart whose first answer is not empty, no message the old cursor covers ever reaches the handler. */
  lemma RestartHides(c: Cursor, instance: string, log: seq<Message>, capacity: int, max: int, steps: seq<Step>, s: nat)
    requires Restarted(c, instance) && 1 <= s <= c.since < |log|
    ensures var got := Collect(log, capacity, c.since, max);
            var next := Absorb(c, Batch(instance, got)).since;
            s !in Numbers(AfterAll(Feed(log, capacity, next, got, {}), steps).delivered)
  {
    var got := Collect(log, capacity, c.since, max);
    var next := Absorb(c, Batch(instance, got)).since;
    var k := Start(|log|, capacity, c.since);
    AdvanceOver(0, log, k, Min(|log|, k + Limit(max)));
    StretchNumbers(log, k, next);
    HiddenStaysHidden(Feed(log, capacity, next, got, {}), steps, s);
  }

  /** What the new instance's ring has evicted, and what the loop has of it once its first answer is absorbed. */
  ghost function FeedAfterRestart(c: Cursor, instance: string, log: seq<Message>, capacity: int, max: int): Feed {
    var got := Collect(log, capacity, c.since, max);
    Feed(log, capacity, Absorb(c, Batch(instance, got)).since, got, Numbers(Numbered(log)[..Evicted(|log|, capacity)]))
  }

  /** A cursor and deliveries right behind everything evicted are in order. */
  lemma StretchSound(log: seq<Message>, capacity: int, k: nat, e: nat)
    requires k <= e <= |log|
    ensures var gone := Evicted(|log|, capacity);
            var f := Feed(log, capacity, e, Numbered(log)[k..e], Numbers(Numbered(log)[..gone]));
            gone == k || e == 0 ==> Sound(f)
  {
    StretchNumbers(log, k, e);
    StretchNumbers(log, 0, Evicted(|log|, capacity));
    assert Numbered(log)[..Evicted(|log|, capacity)] == Numbered(log)[0..Evicted(|log|, capacity)];
  }

  /** A number that was neither delivered nor evicted is unaccounted for. */
  lemma HiddenIsUnsound(log: seq<Message>, capacity: int, k: nat, e: nat)
    requires Evicted(|log|, capacity) < k < e <= |log|
    ensures !Sound(Feed(log, capacity, e, Numbered(log)[k..e], Numbers(Numbered(log)[..Evicted(|log|, capacity)])))
  {
    StretchNumbers(log, k, e);
    StretchNumbers(log, 0, Evicted(|log|, capacity));
    assert Numbered(log)[..Evicted(|log|, capacity)] == Numbered(log)[0..Evicted(|log|, capacity)];
    assert k !in Numbers(Numbered(log)[k..e]) && k !in Numbers(Numbered(log)[..Evicted(|log|, capacity)]);
  }

  lemma FirstAnswerSound(c: Cursor, instance: string, log: seq<Message>, capacity: int, max: int)
    requires Restarted(c, instance)
    ensures Sound(FeedAfterRestart(c, instance, log, capacity, max)) <==>
            |log| <= c.since || c.since <= Evicted(|log|, capacity)
  {
    hide Sound, Numbers;
    var k := Start(|log|, capacity, c.since);
    var e := Min(|log|, k + Limit(max));
    if |log| <= c.since {
      assert Collect(log, capacity, c.since, max) == Numbered(log)[0..0];
      StretchSound(log, capacity, 0, 0);
    } else {
      AdvanceOver(0, log, k, e);
      if c.since <= Evicted(|log|, capacity) {
        StretchSound(log, capacity, k, e);
      } else {
        HiddenIsUnsound(log, capacity, k, e);
      }
    }
  }

  lemma NoStepsNoChange(f: Feed, steps: seq<Step>)
    requires steps == []
    ensures AfterAll(f, steps) == f
  {
  }

  /**
   From then on the new instance is accounted for like the first one, only evicted messages missing, exactly if its
   first answer was empty or all that the old cursor hid from it had been evicted anyway.
   */
  lemma RestartAccountedFor(c: Cursor, instance: string, log: seq<Message>, capacity: int, max: int)
    requires Restarted(c, instance)
    ensures (forall steps :: Sound(AfterAll(FeedAfterRestart(c, instance, log, capacity, max), steps))) <==>
            |log| <= c.since || c.since <= Evicted(|log|, capacity)
  {
    var f := FeedAfterRestart(c, instance, log, capacity, max);
    FirstAnswerSound(c, instance, log, capacity, max);
    if Sound(f) {
      forall steps ensures Sound(AfterAll(f, steps)) {
        StaysSound(f, steps);
      }
    } else {
      NoStepsNoChange(f, []);
    }
  }
}
