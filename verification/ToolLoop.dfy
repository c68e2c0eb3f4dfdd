/**
 The tool-use exchange of agents/iris/internal/iris/handler.go (runLoop): bounded rounds, and every tool request
 answered before the model is asked again. The model and the tools are oracles: what they answer is given by the round,
 and by the position of the request in it.
 */
module ToolLoop {
  import opened Text
  import opened Iris

  datatype Block =
    | ToolUse(id: string, name: string)
    | ToolResult(toolUseId: string, content: string, isError: bool)
    | TextBlock(text: string)
    | OtherBlock

  datatype ChatMessage = Plain(role: string, content: string) | Blocks(role: string, blocks: seq<Block>)

  datatype Completion = CallFailed | Completion(stopReason: string, blocks: seq<Block>)

  datatype ToolOutcome = Output(text: string) | ToolError(text: string) | Broken

  type Model = nat -> Completion
  type Tools = (nat, nat) -> ToolOutcome

  datatype Reply = Replied(text: string) | ModelUnreachable | ToolBroken | RoundsExceeded

  const NO_REPLY := "(no reply)"

  function Rounds(maxToolRounds: int): nat {
    if maxToolRounds <= 0 then 6 else maxToolRounds
  }

  function Uses(blocks: seq<Block>): (uses: seq<Block>)
    ensures forall b :: b in uses ==> b.ToolUse?
  {
    if blocks == [] then []
    else Uses(blocks[..|blocks| - 1]) + (if blocks[|blocks| - 1].ToolUse? then [blocks[|blocks| - 1]] else [])
  }

  /**
   The requests of a message are all its tool requests, in order: a message read in two parts makes the requests of the
   first and then those of the second, and a single block makes itself if it is one.
   */
  lemma {:induction false} UsesInOrder(first: seq<Block>, second: seq<Block>, block: Block)
    ensures Uses(first + second) == Uses(first) + Uses(second)
    ensures Uses([block]) == if block.ToolUse? then [block] else []
    decreases |second|
  {
    assert [block][..0] == [] && Uses([]) == [];
    if second == [] {
      assert first + second == first;
    } else {
      var less := second[..|second| - 1];
      assert (first + second)[..|first + second| - 1] == first + less;
      UsesInOrder(first, less, block);
    }
  }

  /** The text of a message is that of its text blocks, one after the other. */
  lemma {:induction false} TextInOrder(first: seq<Block>, second: seq<Block>, block: Block)
    ensures TextOf(first + second) == TextOf(first) + TextOf(second)
    ensures TextOf([block]) == if block.TextBlock? then block.text else ""
    decreases |second|
  {
    assert [block][..0] == [] && TextOf([]) == "";
    if second == [] {
      assert first + second == first;
    } else {
      var less := second[..|second| - 1];
      assert (first + second)[..|first + second| - 1] == first + less;
      TextInOrder(first, less, block);
    }
  }

  /** Where a tool request of the message stands among the requests. */
  lemma UseAt(blocks: seq<Block>, i: nat)
    requires i < |blocks| && blocks[i].ToolUse?
    ensures |Uses(blocks[..i])| < |Uses(blocks)| && Uses(blocks)[|Uses(blocks[..i])|] == blocks[i]
  {
    hide Uses;
    var before, one, behind := blocks[..i], [blocks[i]], blocks[i + 1..];
    assert blocks == before + (one + behind);
    UsesInOrder(before, one + behind, blocks[i]);
    UsesInOrder(one, behind, blocks[i]);
    assert Uses(blocks) == Uses(before) + ([blocks[i]] + Uses(behind));
  }

  function TextOf(blocks: seq<Block>): string {
    if blocks == [] then ""
    else TextOf(blocks[..|blocks| - 1]) +
         (if blocks[|blocks| - 1].TextBlock? then blocks[|blocks| - 1].text else "")
  }

  function FinalText(blocks: seq<Block>): string {
    var text := TrimSpace(TextOf(blocks));
    if text == "" then NO_REPLY else text
  }

  /** The operator never gets silence for an answer. */
  lemma ReplyIsNeverSilence(blocks: seq<Block>)
    ensures FinalText(blocks) != "" && Trimmed(FinalText(blocks))
  {
    hide TextOf;
    assert NO_REPLY[0] == '(' && NO_REPLY[|NO_REPLY| - 1] == ')';
  }

  /** The model wants tools run. */
  predicate Asks(c: Completion) {
    c.Completion? && c.stopReason == "tool_use" && Uses(c.blocks) != []
  }

  predicate AllRun(tools: Tools, round: nat, n: nat) {
    forall j :: 0 <= j < n ==> !tools(round, j).Broken?
  }

  function Answer(use: Block, outcome: ToolOutcome): Block
    requires use.ToolUse?
  {
    match outcome
    case Output(text) => ToolResult(use.id, text, false)
    case ToolError(text) => ToolResult(use.id, text, true)
    case Broken => ToolResult(use.id, "", true)
  }

  function Answers(tools: Tools, round: nat, uses: seq<Block>): (results: seq<Block>)
    requires forall b :: b in uses ==> b.ToolUse?
    ensures |results| == |uses|
    ensures forall j :: 0 <= j < |uses| ==> results[j] == Answer(uses[j], tools(round, j))
  {
    seq(|uses|, j requires 0 <= j < |uses| => Answer(uses[j], tools(round, j)))
  }

  /** A round that went well: the model asked, and every tool ran. */
  predicate Exchanged(model: Model, tools: Tools, round: nat) {
    Asks(model(round)) && AllRun(tools, round, |Uses(BlocksOf(model(round)))|)
  }

  function BlocksOf(c: Completion): seq<Block> {
    match c
    case CallFailed => []
    case Completion(_, blocks) => blocks
  }

  /** The model's request, verbatim, and the answers to it. */
  function Request(model: Model, round: nat): ChatMessage {
    Blocks("assistant", BlocksOf(model(round)))
  }

  function Response(model: Model, tools: Tools, round: nat): ChatMessage {
    Blocks("user", Answers(tools, round, Uses(BlocksOf(model(round)))))
  }

  function Exchange(model: Model, tools: Tools, rounds: nat): (messages: seq<ChatMessage>)
    ensures |messages| == 2 * rounds
  {
    if rounds == 0 then []
    else Exchange(model, tools, rounds - 1) + [Request(model, rounds - 1), Response(model, tools, rounds - 1)]
  }

  function History(turns: seq<Turn>): seq<ChatMessage> {
    seq(|turns|, i requires 0 <= i < |turns| => Plain(turns[i].role, turns[i].content))
  }

  method SplitContent(blocks: seq<Block>) returns (uses: seq<Block>, text: string)
    ensures uses == Uses(blocks) && text == TextOf(blocks)
  {
    uses, text := [], "";
    var i := 0;
    while i < |blocks|
      invariant 0 <= i <= |blocks|
      invariant uses == Uses(blocks[..i]) && text == TextOf(blocks[..i])
    {
      assert blocks[..i + 1][..i] == blocks[..i];
      match blocks[i] {
        case ToolUse(_, _) => uses := uses + [blocks[i]];
        case TextBlock(t) => text := text + t;
        case _ =>
      }
      i := i + 1;
    }
    assert blocks[..i] == blocks;
  }

  /** The first round that is no exchange, or the bound if there is none below it. */
  ghost predicate StopsAt(model: Model, tools: Tools, bound: nat, rounds: nat) {
    && rounds <= bound && (forall i :: 0 <= i < rounds ==> Exchanged(model, tools, i))
    && (rounds < bound ==> !Exchanged(model, tools, rounds))
  }

  /** What stopping in a round means for the operator. */
  function ReplyAt(model: Model, bound: nat, rounds: nat): Reply {
    if rounds >= bound then RoundsExceeded
    else match model(rounds)
         case CallFailed => ModelUnreachable
         case Completion(_, blocks) => if Asks(model(rounds)) then ToolBroken else Replied(FinalText(blocks))
  }

  /** The loop ends within its bound, at the first round that is no exchange; `messages` is what the model saw last. */
  method RunLoop(turns: seq<Turn>, maxToolRounds: int, model: Model, tools: Tools)
    returns (reply: Reply, messages: seq<ChatMessage>, rounds: nat)
    ensures StopsAt(model, tools, Rounds(maxToolRounds), rounds)
    ensures messages == History(turns) + Exchange(model, tools, rounds)
    ensures reply == ReplyAt(model, Rounds(maxToolRounds), rounds)
  {
    hide TextOf, Uses;
    messages := History(turns);
    rounds := 0;
    while rounds < Rounds(maxToolRounds)
      invariant 0 <= rounds <= Rounds(maxToolRounds)
      invariant forall i :: 0 <= i < rounds ==> Exchanged(model, tools, i)
      invariant messages == History(turns) + Exchange(model, tools, rounds)
    {
      var resp := model(rounds);
      if resp == CallFailed {
        return ModelUnreachable, messages, rounds;
      }
      var uses, text := SplitContent(resp.blocks);
      if resp.stopReason != "tool_use" || |uses| == 0 {
        return Replied(if TrimSpace(text) == "" then NO_REPLY else TrimSpace(text)), messages, rounds;
      }
      var results: seq<Block> := [];
      var j := 0;
      while j < |uses|
        invariant 0 <= j <= |uses| && AllRun(tools, rounds, j)
        invariant results == Answers(tools, rounds, uses)[..j]
      {
        match tools(rounds, j) {
          case Output(out) => results := results + [ToolResult(uses[j].id, out, false)];
          case ToolError(err) => results := results + [ToolResult(uses[j].id, err, true)];
          case Broken => return ToolBroken, messages, rounds;
        }
        j := j + 1;
      }
      assert results == Answers(tools, rounds, uses);
      messages := messages + [Blocks("assistant", resp.blocks), Blocks("user", results)];
      rounds := rounds + 1;
    }
    reply := RoundsExceeded;
  }

  lemma {:induction false} ExchangeAt(model: Model, tools: Tools, rounds: nat, i: nat)
    requires i < rounds
    ensures Exchange(model, tools, rounds)[2 * i] == Request(model, i)
    ensures Exchange(model, tools, rounds)[2 * i + 1] == Response(model, tools, i)
    decreases rounds
  {
    if i < rounds - 1 {
      ExchangeAt(model, tools, rounds - 1, i);
    }
  }

  predicate Answered(request: ChatMessage, response: ChatMessage) {
    && request.Blocks? && response.Blocks? && request.role == "assistant" && response.role == "user"
    && |response.blocks| == |Uses(request.blocks)| > 0
    && forall j :: 0 <= j < |response.blocks| ==>
         response.blocks[j].ToolResult? && response.blocks[j].toolUseId == Uses(request.blocks)[j].id
  }

  /** How many tool requests a message makes. */
  function Count(blocks: seq<Block>): nat {
    if blocks == [] then 0 else (if blocks[0].ToolUse? then 1 else 0) + Count(blocks[1..])
  }

  lemma {:induction false} CountIsUses(blocks: seq<Block>)
    ensures |Uses(blocks)| == Count(blocks)
    decreases |blocks|
  {
    if blocks != [] {
      CountIsUses(blocks[1..]);
      UsesInOrder([blocks[0]], blocks[1..], blocks[0]);
      assert blocks == [blocks[0]] + blocks[1..];
    }
  }

  /**
   What stopping in a round means: out of rounds, of which there are six unless configured; the model failed; it asked
   and a tool broke; or it asked for nothing, and its text, or a word for none, is the reply.
   */
  lemma ReplyRules(model: Model, maxToolRounds: int, rounds: nat)
    ensures Rounds(maxToolRounds) == if maxToolRounds > 0 then maxToolRounds else 6
    ensures var r := ReplyAt(model, Rounds(maxToolRounds), rounds);
            if rounds >= Rounds(maxToolRounds) then r == RoundsExceeded
            else if model(rounds) == CallFailed then r == ModelUnreachable
            else
              var blocks := model(rounds).blocks;
              if model(rounds).stopReason == "tool_use" && Count(blocks) > 0 then r == ToolBroken
              else
                && r.Replied?
                && (HasText(TextOf(blocks)) ==> r.text == TrimSpace(TextOf(blocks)))
                && (!HasText(TextOf(blocks)) ==> r.text == "(no reply)")
  {
    hide TextOf, HasText, TrimSpace;
    if model(rounds).Completion? {
      CountIsUses(model(rounds).blocks);
      TrimmedAway(TextOf(model(rounds).blocks));
    }
  }

  /**
   Block by block: in each round, whatever the model asked for at a place of its message is answered, by id, at the
   place it has among the requests of that message, and there are no other answers.
   */
  lemma EveryBlockIsAnswered(model: Model, tools: Tools, rounds: nat, round: nat, i: nat)
    requires round < rounds && forall k :: 0 <= k < rounds ==> Exchanged(model, tools, k)
    requires model(round).Completion? && i < |model(round).blocks| && model(round).blocks[i].ToolUse?
    ensures var messages := Exchange(model, tools, rounds);
            var blocks := model(round).blocks;
            && messages[2 * round] == Blocks("assistant", blocks)
            && messages[2 * round + 1].Blocks? && |messages[2 * round + 1].blocks| == Count(blocks)
            && Count(blocks[..i]) < Count(blocks)
            && messages[2 * round + 1].blocks[Count(blocks[..i])] ==
               match tools(round, Count(blocks[..i]))
               case Output(text) => ToolResult(blocks[i].id, text, false)
               case ToolError(text) => ToolResult(blocks[i].id, text, true)
               case Broken => ToolResult(blocks[i].id, "", true)
  {
    var blocks := model(round).blocks;
    ExchangeAt(model, tools, rounds, round);
    UseAt(blocks, i);
    CountIsUses(blocks);
    CountIsUses(blocks[..i]);
  }

  /** Every request the model made in a round is answered in the next message: one result each, same ids, same order. */
  lemma EveryToolUseIsAnswered(model: Model, tools: Tools, rounds: nat, i: nat)
    requires i < rounds && forall k :: 0 <= k < rounds ==> Exchanged(model, tools, k)
    ensures var messages := Exchange(model, tools, rounds); Answered(messages[2 * i], messages[2 * i + 1])
  {
    ExchangeAt(model, tools, rounds, i);
    assert Exchanged(model, tools, i);
  }
}
