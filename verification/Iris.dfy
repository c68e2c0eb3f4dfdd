/**
 Iris answering messages: the conversation store that remembers which sequence numbers were taken up
 (agents/iris/internal/iris/conversation.go) and the handler that checks it before acting and runs the bounded tool loop
 (agents/iris/internal/iris/handler.go).
 */
module Iris {
  import opened Options
  import opened Text
  import opened PullRing
  import opened Poller

  // ---- Conversations ----

  /** msgSeq is 0 for a turn no message caused. */
  datatype Turn = Turn(role: string, content: string, msgSeq: nat)

  datatype Key = Key(surface: string, threadRef: string, user: string)

  type Rows = map<Key, seq<Turn>>

  /** A write that never reached the table, one that did, and one that did without its caller learning so. */
  datatype Write = Refused | Landed | LandedUnseen

  function Turns(rows: Rows, key: Key): seq<Turn> {
    if key in rows then rows[key] else []
  }

  function Appended(rows: Rows, key: Key, turn: Turn, w: Write): Rows {
    if w == Refused then rows else rows[key := Turns(rows, key) + [turn]]
  }

  predicate Recorded(rows: Rows, key: Key, number: nat) {
    exists i :: 0 <= i < |Turns(rows, key)| && Turns(rows, key)[i].msgSeq == number
  }

  class ConversationStore {
    var rows: Rows

    constructor ()
      ensures rows == map[]
    {
      rows := map[];
    }

    method AppendTurn(key: Key, turn: Turn, w: Write) returns (ok: bool)
      modifies this
      ensures rows == Appended(old(rows), key, turn, w) && ok == (w == Landed)
    {
      var turns := if key in rows then rows[key] else [];
      turns := turns + [turn];
      if w != Refused {
        rows := rows[key := turns];
      }
      ok := w == Landed;
    }

    method AlreadyHandled(key: Key, number: nat) returns (already: bool)
      ensures already == Recorded(rows, key, number)
    {
      if key !in rows {
        return false;
      }
      var i := 0;
      while i < |rows[key]|
        invariant 0 <= i <= |rows[key]|
        invariant forall j :: 0 <= j < i ==> rows[key][j].msgSeq != number
      {
        if rows[key][i].msgSeq == number {
          assert Turns(rows, key)[i].msgSeq == number;
          return true;
        }
        i := i + 1;
      }
      return false;
    }
  }

  // ---- The handler ----

  function Lower(c: char): char {
    if 'A' <= c <= 'Z' then c - 'A' + 'a' else c
  }

  predicate HasMention(s: string) {
    |s| >= 5 && (s[0] == '@' || s[0] == '/') && Lower(s[1]) == 'i' && Lower(s[2]) == 'r' && Lower(s[3]) == 'i'
        && Lower(s[4]) == 's'
  }

  function StripIrisPrefix(s: string): string {
    var t := TrimSpace(s);
    if HasMention(t) then TrimSpace(t[5..]) else t
  }

  /**
   How the outside world behaves while one message is handled. A pod that dies part way through leaves what an error at
   that point leaves.
   */
  datatype Effects = Effects(
    lookupOk: bool, greeted: bool, userTurn: Write, reply: Option<string>, posted: bool, assistantTurn: Write)

  /** `started` lists the messages for which the tool loop was started; `recorded` those whose turn was appended. */
  datatype Desk = Desk(rows: Rows, started: seq<nat>, recorded: set<nat>)

  function KeyOf(msg: Message): Key {
    Key(msg.surface, msg.threadRef, msg.user)
  }

  predicate Complete(msg: Message) {
    msg.surface != "" && msg.threadRef != "" && msg.user != ""
  }

  predicate Empty(msg: Message) {
    StripIrisPrefix(msg.content) == ""
  }

  function TakenUp(d: Desk, ev: PullEvent, content: string, w: Write): Desk {
    d.(rows := Appended(d.rows, KeyOf(ev.msg), Turn("user", content, ev.seqNo), w),
       recorded := if w == Refused then d.recorded else d.recorded + {ev.seqNo})
  }

  function Handled(d: Desk, ev: PullEvent, fx: Effects): Desk {
    if !Complete(ev.msg) || !fx.lookupOk || Recorded(d.rows, KeyOf(ev.msg), ev.seqNo) then d
    else if Empty(ev.msg) then (if fx.greeted then TakenUp(d, ev, ev.msg.content, fx.userTurn) else d)
    else
      var e := TakenUp(d, ev, StripIrisPrefix(ev.msg.content), fx.userTurn);
      if fx.userTurn != Landed then e
      else
        var f := e.(started := e.started + [ev.seqNo]);
        if fx.reply == None || !fx.posted then f
        else f.(rows := Appended(f.rows, KeyOf(ev.msg), Turn("assistant", fx.reply.value, 0), fx.assistantTurn))
  }

  /** @iris or /iris, in any case. */
  predicate Mentions(t: string) {
    |t| >= 5 && t[0] in "@/" && t[1] in "iI" && t[2] in "rR" && t[3] in "iI" && t[4] in "sS"
  }

  /** A message says nothing if it is blank, or a mention and blank after it. */
  lemma EmptyMeans(msg: Message)
    ensures var t := TrimSpace(msg.content);
            Empty(msg) <==> !HasText(msg.content) || (Mentions(t) && !HasText(t[5..]))
  {
    var t := TrimSpace(msg.content);
    TrimmedAway(msg.content);
    if |t| >= 5 {
      TrimmedAway(t[5..]);
    }
    hide TrimSpace, HasText;
  }

  lemma OneSpaceTrimmed(text: string)
    requires text != "" && Trimmed(text)
    ensures TrimSpace(" " + text) == text
  {
    assert (" " + text)[1..] == text;
    assert TrimLeft(" " + text) == text;
  }

  lemma MentionTrimmed(text: string)
    requires text != "" && Trimmed(text)
    ensures var s := "@iris" + (" " + text); TrimSpace(s) == s && HasMention(s) && s[5..] == " " + text
  {
    var s := "@iris" + (" " + text);
    assert s[0] == '@' && s[|s| - 1] == text[|text| - 1];
    TrimmedStays(s);
    assert s[..5] == "@iris";
    assert s[1] == 'i' && s[2] == 'r' && s[3] == 'i' && s[4] == 's';
  }

  lemma MentionsIs(t: string)
    ensures HasMention(t) <==> Mentions(t)
  {
  }

  /** What is said after a mention is what counts; without one, the whole. */
  lemma SaidText(text: string)
    requires text != "" && Trimmed(text)
    ensures StripIrisPrefix("@iris" + (" " + text)) == text
    ensures !Mentions(text) ==> StripIrisPrefix(text) == text
  {
    MentionTrimmed(text);
    OneSpaceTrimmed(text);
    TrimmedStays(text);
    MentionsIs(text);
    hide TrimSpace, HasMention, Mentions;
  }

  /** The turns a conversation has after a write. */
  function Written(turns: seq<Turn>, turn: Turn, w: Write): seq<Turn> {
    if w == Refused then turns else turns + [turn]
  }

  /**
   Handling one message, conversation by conversation. Nothing happens to an incomplete message, one whose lookup
   fails, or one whose number its conversation has. One with nothing to say is greeted, and its turn written; one with
   something to say has that turn written and, if the write is known to have landed, the tool loop started, whose
   reply, once posted, is the next turn.
   */
  lemma HandleRules(d: Desk, ev: PullEvent, fx: Effects)
    ensures var e, msg := Handled(d, ev, fx), ev.msg;
            var key := Key(msg.surface, msg.threadRef, msg.user);
            var turns := if key in d.rows then d.rows[key] else [];
            var said := StripIrisPrefix(msg.content);
            var user := Turn("user", if said == "" then msg.content else said, ev.seqNo);
            var loop := said != "" && fx.userTurn == Landed;
            if msg.surface == "" || msg.threadRef == "" || msg.user == "" || !fx.lookupOk
               || (exists i :: 0 <= i < |turns| && turns[i].msgSeq == ev.seqNo) || (said == "" && !fx.greeted)
            then e == d
            else
              && (forall k :: k != key ==> (k in e.rows <==> k in d.rows) && (k in d.rows ==> e.rows[k] == d.rows[k]))
              && e.started == (if loop then d.started + [ev.seqNo] else d.started)
              && (if key in e.rows then e.rows[key] else []) ==
                 (var more := Written(turns, user, fx.userTurn);
                  if loop && fx.reply.Some? && fx.posted
                  then Written(more, Turn("assistant", fx.reply.value, 0), fx.assistantTurn) else more)
  {
    hide StripIrisPrefix;
    var turns := Turns(d.rows, KeyOf(ev.msg));
    if i :| 0 <= i < |turns| && turns[i].msgSeq == ev.seqNo {
      assert Recorded(d.rows, KeyOf(ev.msg), ev.seqNo);
    }
  }

  class Handler {
    const conversations: ConversationStore
    var started: seq<nat>
    ghost var recorded: set<nat>

    constructor (conversations: ConversationStore)
      ensures this.conversations == conversations && started == [] && recorded == {}
    {
      this.conversations := conversations;
      started, recorded := [], {};
    }

    ghost function View(): Desk
      reads this, conversations
    {
      Desk(conversations.rows, started, recorded)
    }

    method Handle(ev: PullEvent, fx: Effects) returns (ok: bool)
      modifies this, conversations
      ensures View() == Handled(old(View()), ev, fx)
    {
      var msg := ev.msg;
      if msg.surface == "" || msg.threadRef == "" || msg.user == "" {
        return false;
      }
      if !fx.lookupOk {
        return false;
      }
      var already := conversations.AlreadyHandled(KeyOf(msg), ev.seqNo);
      if already {
        return true;
      }
      var user := StripIrisPrefix(msg.content);
      if user == "" {
        if !fx.greeted {
          return false;
        }
        ok := conversations.AppendTurn(KeyOf(msg), Turn("user", msg.content, ev.seqNo), fx.userTurn);
        recorded := if fx.userTurn == Refused then recorded else recorded + {ev.seqNo};
        return;
      }
      ok := conversations.AppendTurn(KeyOf(msg), Turn("user", user, ev.seqNo), fx.userTurn);
      recorded := if fx.userTurn == Refused then recorded else recorded + {ev.seqNo};
      if !ok {
        return;
      }
      started := started + [ev.seqNo];
      if fx.reply == None || !fx.posted {
        return false;
      }
      ok := conversations.AppendTurn(KeyOf(msg), Turn("assistant", fx.reply.value, 0), fx.assistantTurn);
    }
  }

  // ---- One broker instance, any number of Iris pods one after the other ----

  datatype System = System(log: seq<Message>, capacity: int, cursor: nat, desk: Desk)

  /** Reads handle one event for each entry of `effects`; with fewer entries than events the pod dies on the way. */
  datatype Turnover = Arrive(msg: Message) | Read(max: int, effects: seq<Effects>) | PodRestart

  function HandledAll(d: Desk, events: seq<PullEvent>, effects: seq<Effects>): Desk
    decreases |events|
  {
    if events == [] || effects == [] then d
        else HandledAll(Handled(d, events[0], effects[0]), events[1..], effects[1..])
  }

  function Next(s: System, step: Turnover): System {
    match step
    case Arrive(msg) => s.(log := s.log + [msg])
    case Read(max, effects) =>
      var got := Collect(s.log, s.capacity, s.cursor, max);
      s.(desk := HandledAll(s.desk, got, effects), cursor := if |effects| < |got| then 0 else Advance(s.cursor, got))
    case PodRestart => s.(cursor := 0)
  }

  function NextAll(s: System, steps: seq<Turnover>): System {
    if steps == [] then s else Next(NextAll(s, steps[..|steps| - 1]), steps[|steps| - 1])
  }

  /** A broker instance starts: its log is empty, while the conversations are whatever earlier instances left. */
  predicate StartsUp(s: System) {
    s.log == [] && s.cursor == 0 && s.desk.started == [] && s.desk.recorded == {}
  }

  predicate InLog(log: seq<Message>, number: nat) {
    1 <= number <= |log|
  }

  /** The number is recorded in this instance, for the conversation of the logged message of that number. */
  predicate RecordedNow(log: seq<Message>, recorded: set<nat>, key: Key, n: nat) {
    n in recorded && InLog(log, n) && key == KeyOf(log[n - 1])
  }

  /** Beside what it had at the start, the table has a turn with a number exactly where this instance recorded one. */
  ghost predicate Consistent(initial: Rows, log: seq<Message>, rows: Rows, recorded: set<nat>) {
    forall key, n: nat :: n >= 1 ==>
      (Recorded(rows, key, n) <==> Recorded(initial, key, n) || RecordedNow(log, recorded, key, n))
  }

  /** The table and the log agree on which messages were taken up, and the loop ran once for each that started it. */
  ghost predicate DeskOk(initial: Rows, log: seq<Message>, d: Desk) {
    && (forall n :: n in d.recorded ==> InLog(log, n))
    && Consistent(initial, log, d.rows, d.recorded)
    && (forall i, j :: 0 <= i < j < |d.started| ==> d.started[i] != d.started[j])
    && (forall n :: n in d.started ==> n in d.recorded && !Empty(log[n - 1]))
  }

  lemma RecordedAppended(rows: Rows, key: Key, turn: Turn, w: Write, other: Key, n: nat)
    ensures Recorded(Appended(rows, key, turn, w), other, n) <==>
            Recorded(rows, other, n) || (w != Refused && other == key && turn.msgSeq == n)
  {
    var less, more := Turns(rows, other), Turns(Appended(rows, key, turn, w), other);
    if w != Refused && other == key {
      assert more == less + [turn] && more[|less|] == turn;
      assert forall i :: 0 <= i < |less| ==> more[i] == less[i];
    } else {
      assert more == less;
    }
  }

  /** The message's turn is written now. */
  predicate Takes(d: Desk, ev: PullEvent, fx: Effects) {
    && Complete(ev.msg) && fx.lookupOk && !Recorded(d.rows, KeyOf(ev.msg), ev.seqNo)
    && (Empty(ev.msg) ==> fx.greeted) && fx.userTurn != Refused
  }

  predicate Starts(d: Desk, ev: PullEvent, fx: Effects) {
    Takes(d, ev, fx) && !Empty(ev.msg) && fx.userTurn == Landed
  }

  /** Handling a message adds at most its own number, under its own conversation, to what is recorded. */
  lemma HandledParts(d: Desk, ev: PullEvent, fx: Effects)
    ensures var e := Handled(d, ev, fx);
            && e.recorded == (if Takes(d, ev, fx) then d.recorded + {ev.seqNo} else d.recorded)
            && e.started == (if Starts(d, ev, fx) then d.started + [ev.seqNo] else d.started)
  {
  }

  lemma HandledRecords(d: Desk, ev: PullEvent, fx: Effects, key: Key, n: nat)
    requires n >= 1
    ensures Recorded(Handled(d, ev, fx).rows, key, n) <==>
            Recorded(d.rows, key, n) || (Takes(d, ev, fx) && key == KeyOf(ev.msg) && n == ev.seqNo)
  {
    if Takes(d, ev, fx) {
      var content := if Empty(ev.msg) then ev.msg.content else StripIrisPrefix(ev.msg.content);
      var turn := Turn("user", content, ev.seqNo);
      RecordedAppended(d.rows, KeyOf(ev.msg), turn, fx.userTurn, key, n);
      if Starts(d, ev, fx) && fx.reply.Some? {
        var rows := Appended(d.rows, KeyOf(ev.msg), turn, fx.userTurn);
        RecordedAppended(rows, KeyOf(ev.msg), Turn("assistant", fx.reply.value, 0), fx.assistantTurn, key, n);
      }
    }
  }

  lemma HandledConsistent(initial: Rows, log: seq<Message>, d: Desk, ev: PullEvent, fx: Effects)
    requires (forall n :: n in d.recorded ==> InLog(log, n)) && Consistent(initial, log, d.rows, d.recorded)
             && FromLog(log, ev)
    ensures var e := Handled(d, ev, fx);
            (forall n :: n in e.recorded ==> InLog(log, n)) && Consistent(initial, log, e.rows, e.recorded)
  {
    var e := Handled(d, ev, fx);
    HandledParts(d, ev, fx);
    assert forall n :: n in e.recorded ==> InLog(log, n);
    forall key, n: nat | n >= 1
        ensures Recorded(e.rows, key, n) <==> Recorded(initial, key, n) || RecordedNow(log, e.recorded, key, n) {
      HandledRecords(d, ev, fx, key, n);
    }
  }

  lemma HandledOk(initial: Rows, log: seq<Message>, d: Desk, ev: PullEvent, fx: Effects)
    requires DeskOk(initial, log, d) && FromLog(log, ev)
    ensures DeskOk(initial, log, Handled(d, ev, fx))
  {
    hide Handled, Recorded, Empty;
    HandledParts(d, ev, fx);
    HandledConsistent(initial, log, d, ev, fx);
    if Starts(d, ev, fx) {
      assert ev.seqNo !in d.recorded;
    }
  }

  lemma {:induction false} HandledAllOk(initial: Rows, log: seq<Message>, d: Desk, events: seq<PullEvent>,
          effects: seq<Effects>)
    requires DeskOk(initial, log, d) && forall ev :: ev in events ==> FromLog(log, ev)
    ensures DeskOk(initial, log, HandledAll(d, events, effects))
    decreases |events|
  {
    if events != [] && effects != [] {
      HandledOk(initial, log, d, events[0], effects[0]);
      HandledAllOk(initial, log, Handled(d, events[0], effects[0]), events[1..], effects[1..]);
    }
  }

  lemma ArrivalOk(initial: Rows, log: seq<Message>, d: Desk, msg: Message)
    requires DeskOk(initial, log, d)
    ensures DeskOk(initial, log + [msg], d)
  {
    var more := log + [msg];
    forall key, n: nat | n >= 1
        ensures Recorded(d.rows, key, n) <==> Recorded(initial, key, n) || RecordedNow(more, d.recorded, key, n) {
      assert n in d.recorded ==> more[n - 1] == log[n - 1];
    }
    forall n | n in d.started ensures !Empty(more[n - 1]) {
      assert more[n - 1] == log[n - 1];
    }
  }

  /**
   Within one broker instance, from any conversations earlier ones left, over any number of pods that each start reading
   from 0 and may die part way through a batch, the tool loop is started at most once for each message, and only for
   messages with something to say.
   */
  lemma {:induction false} LoopStartsOncePerMessage(s: System, steps: seq<Turnover>)
    requires StartsUp(s)
    ensures var t := NextAll(s, steps);
            && DeskOk(s.desk.rows, t.log, t.desk) && t.cursor <= |t.log|
            && (forall i, j :: 0 <= i < j < |t.desk.started| ==> t.desk.started[i] != t.desk.started[j])
            && (forall n :: n in t.desk.started ==> InLog(t.log, n) && !Empty(t.log[n - 1]))
    decreases |steps|
  {
    if steps != [] {
      var u := NextAll(s, steps[..|steps| - 1]);
      LoopStartsOncePerMessage(s, steps[..|steps| - 1]);
      match steps[|steps| - 1]
      case Arrive(msg) => ArrivalOk(s.desk.rows, u.log, u.desk, msg);
      case Read(max, effects) =>
        PollStretch(Feed(u.log, u.capacity, u.cursor, [], {}), max);
        var got := Collect(u.log, u.capacity, u.cursor, max);
        StretchNumbers(u.log, Start(|u.log|, u.capacity, u.cursor),
            Min(|u.log|, Start(|u.log|, u.capacity, u.cursor) + Limit(max)));
        HandledAllOk(s.desk.rows, u.log, u.desk, got, effects);
      case PodRestart =>
    }
  }

  /**
   A message is passed over as a duplicate exactly when its own turn was written by an earlier pod or read, or its
   number was in its conversation before this broker instance started.
   */
  lemma SkippedIffTakenUpBefore(s: System, steps: seq<Turnover>, ev: PullEvent)
    requires StartsUp(s)
    requires var t := NextAll(s, steps); FromLog(t.log, ev)
    ensures var t := NextAll(s, steps);
            Recorded(t.desk.rows, KeyOf(ev.msg), ev.seqNo) <==>
            ev.seqNo in t.desk.recorded || Recorded(s.desk.rows, KeyOf(ev.msg), ev.seqNo)
  {
    LoopStartsOncePerMessage(s, steps);
  }

  /**
   A complete message is dropped without a trace, however the outside world behaves, exactly when its conversation has a
   turn with its number. Across broker instances, which number from 1 again, that turn may be another message's.
   */
  lemma DroppedIffNumberRecorded(d: Desk, ev: PullEvent)
    requires Complete(ev.msg)
    ensures (forall fx :: Handled(d, ev, fx) == d) <==> Recorded(d.rows, KeyOf(ev.msg), ev.seqNo)
  {
    if !Recorded(d.rows, KeyOf(ev.msg), ev.seqNo) {
      var fx := Effects(true, true, Landed, None, false, Refused);
      var content := if Empty(ev.msg) then ev.msg.content else StripIrisPrefix(ev.msg.content);
      RecordedAppended(d.rows, KeyOf(ev.msg), Turn("user", content, ev.seqNo), Landed, KeyOf(ev.msg), ev.seqNo);
      assert Handled(d, ev, fx) != d;
    }
  }
}
