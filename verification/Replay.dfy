/** Stored rows, their replay as chat messages, and the block format one provider wants instead. */
module Replay {
  import opened Wrappers
  import opened Conversation

  /** What the tool_calls column of a row holds. */
  datatype StoredCalls = NoCalls | Announces(calls: seq<ToolCall>) | Answers(id: Option<string>)

  datatype RowRole = UserRow | AssistantRow | ToolRow

  datatype Row = Row(role: RowRole, content: string, stored: StoredCalls)

  function ReplayRow(row: Row): Message {
    match row.role
    case ToolRow => Message(Tool, row.content, if row.stored.Answers? then row.stored.id else None, [])
    case AssistantRow => Message(Assistant, row.content, None, if row.stored.Announces? then row.stored.calls else [])
    case UserRow => Message(User, row.content, None, [])
  }

  function ReplayAll(rows: seq<Row>): (ms: seq<Message>)
    ensures |ms| == |rows|
    ensures forall i :: 0 <= i < |rows| ==> ms[i] == ReplayRow(rows[i])
  {
    seq(|rows|, i requires 0 <= i < |rows| => ReplayRow(rows[i]))
  }

  function SystemMessage(content: string): Message {
    Message(System, content, None, [])
  }

  /** A summary rides as a system message of its own behind the instructions. */
  function Preamble(instructions: string, folded: string, summary: string): seq<Message> {
    [SystemMessage(instructions)] + if summary == "" then [] else [SystemMessage(folded + summary)]
  }

  function BuildHistory(instructions: string, folded: string, summary: string, rows: seq<Row>,
                        count: nat): seq<Message> {
    Preamble(instructions, folded, summary) + ReplayAll(if count <= |rows| then rows[count..] else [])
  }

  // ---- The block format ----

  datatype Block = Text(text: string) | ToolUse(id: string, name: string, input: string)

  datatype ToolResult = ToolResult(toolUseId: string, content: string)

  datatype Turn = UserText(text: string) | UserResults(results: seq<ToolResult>) | AssistantTurn(blocks: seq<Block>)

  function SystemParts(ms: seq<Message>): seq<string> {
    if ms == [] then []
    else (if ms[0].role == System then [ms[0].content] else []) + SystemParts(ms[1..])
  }

  function NonSystem(ms: seq<Message>): seq<Message> {
    if ms == [] then []
    else (if ms[0].role == System then [] else [ms[0]]) + NonSystem(ms[1..])
  }

  /** The id a tool message answers; a missing one becomes the empty string. */
  function AnsweredId(m: Message): string {
    if m.toolCallId.Some? then m.toolCallId.value else ""
  }

  function ResultOf(m: Message): ToolResult {
    ToolResult(AnsweredId(m), m.content)
  }

  function UseBlocks(calls: seq<ToolCall>): seq<Block> {
    if calls == [] then [] else [ToolUse(calls[0].id, calls[0].name, calls[0].arguments)] + UseBlocks(calls[1..])
  }

  function BlocksOf(m: Message): seq<Block> {
    (if m.content == "" then [] else [Text(m.content)]) + UseBlocks(m.toolCalls)
  }

  /** An assistant message with neither text nor calls is no turn at all. */
  function TurnOf(m: Message): seq<Turn> {
    if m.role == Assistant then (if BlocksOf(m) == [] then [] else [AssistantTurn(BlocksOf(m))])
    else [UserText(m.content)]
  }

  function Flushed(pending: seq<ToolResult>): seq<Turn> {
    if pending == [] then [] else [UserResults(pending)]
  }

  function ConvertFrom(ms: seq<Message>, pending: seq<ToolResult>): seq<Turn> {
    if ms == [] then Flushed(pending)
    else if ms[0].role == Tool then ConvertFrom(ms[1..], pending + [ResultOf(ms[0])])
    else Flushed(pending) + TurnOf(ms[0]) + ConvertFrom(ms[1..], [])
  }

  function Convert(ms: seq<Message>): seq<Turn> {
    ConvertFrom(ms, [])
  }

  // ---- What the turns say ----

  /** One thing said in a conversation: by the user, by a tool answering a call, or by the assistant, with the calls it
      makes as id, name and input. */
  datatype Item =
    | FromUser(text: string)
    | FromTool(callId: string, content: string)
    | FromAssistant(text: string, uses: seq<(string, string, string)>)

  function ResultItems(results: seq<ToolResult>): seq<Item> {
    if results == [] then [] else [FromTool(results[0].toolUseId, results[0].content)] + ResultItems(results[1..])
  }

  function BlockText(blocks: seq<Block>): string {
    if blocks == [] then "" else (if blocks[0].Text? then blocks[0].text else "") + BlockText(blocks[1..])
  }

  function BlockUses(blocks: seq<Block>): seq<(string, string, string)> {
    if blocks == [] then []
    else (if blocks[0].ToolUse? then [(blocks[0].id, blocks[0].name, blocks[0].input)] else []) + BlockUses(blocks[1..])
  }

  function ItemsOfTurn(t: Turn): seq<Item> {
    match t
    case UserText(text) => [FromUser(text)]
    case UserResults(results) => ResultItems(results)
    case AssistantTurn(blocks) => [FromAssistant(BlockText(blocks), BlockUses(blocks))]
  }

  function Items(ts: seq<Turn>): seq<Item> {
    if ts == [] then [] else ItemsOfTurn(ts[0]) + Items(ts[1..])
  }

  function CallUses(calls: seq<ToolCall>): seq<(string, string, string)> {
    seq(|calls|, i requires 0 <= i < |calls| => (calls[i].id, calls[i].name, calls[i].arguments))
  }

  /** What a message says; an assistant message with neither text nor calls says nothing. */
  function Said(m: Message): seq<Item> {
    match m.role
    case Tool => [FromTool(match m.toolCallId case Some(id) => id case None => "", m.content)]
    case Assistant =>
      if m.content == "" && m.toolCalls == [] then [] else [FromAssistant(m.content, CallUses(m.toolCalls))]
    case _ => [FromUser(m.content)]
  }

  function AllSaid(ms: seq<Message>): seq<Item> {
    if ms == [] then [] else Said(ms[0]) + AllSaid(ms[1..])
  }

  /** No turn is empty. Text, if any, comes first in a turn and once, and is not empty. */
  predicate WellBuilt(ts: seq<Turn>) {
    forall i :: 0 <= i < |ts| ==>
      && (ts[i].UserResults? ==> ts[i].results != [])
      && (ts[i].AssistantTurn? ==>
            && ts[i].blocks != []
            && forall k :: 0 <= k < |ts[i].blocks| && ts[i].blocks[k].Text? ==> k == 0 && ts[i].blocks[k].text != "")
  }

  lemma {:induction false} ItemsAppend(a: seq<Turn>, b: seq<Turn>)
    ensures Items(a + b) == Items(a) + Items(b)
  {
    if a == [] {
      assert a + b == b;
    } else {
      assert (a + b)[1..] == a[1..] + b;
      ItemsAppend(a[1..], b);
    }
  }

  lemma {:induction false} ResultItemsAppend(a: seq<ToolResult>, b: seq<ToolResult>)
    ensures ResultItems(a + b) == ResultItems(a) + ResultItems(b)
  {
    if a == [] {
      assert a + b == b;
    } else {
      assert (a + b)[1..] == a[1..] + b;
      ResultItemsAppend(a[1..], b);
    }
  }

  lemma {:induction false} UsesSay(calls: seq<ToolCall>)
    ensures BlockText(UseBlocks(calls)) == "" && BlockUses(UseBlocks(calls)) == CallUses(calls)
    ensures |UseBlocks(calls)| == |calls| && forall k :: 0 <= k < |calls| ==> UseBlocks(calls)[k].ToolUse?
  {
    if calls != [] {
      UsesSay(calls[1..]);
      UsesStep(calls);
      CallUsesStep(calls);
      hide UseBlocks, CallUses;
      var first := ToolUse(calls[0].id, calls[0].name, calls[0].arguments);
      assert ([first] + UseBlocks(calls[1..]))[1..] == UseBlocks(calls[1..]);
    }
  }

  lemma {:induction false} UsesStep(calls: seq<ToolCall>)
    requires calls != []
    ensures UseBlocks(calls) == [ToolUse(calls[0].id, calls[0].name, calls[0].arguments)] + UseBlocks(calls[1..])
  {
  }

  lemma {:induction false} CallUsesStep(calls: seq<ToolCall>)
    requires calls != []
    ensures CallUses(calls) == [(calls[0].id, calls[0].name, calls[0].arguments)] + CallUses(calls[1..])
  {
  }

  lemma {:induction false} BlocksSay(m: Message)
    ensures BlockText(BlocksOf(m)) == m.content && BlockUses(BlocksOf(m)) == CallUses(m.toolCalls)
    ensures BlocksOf(m) == [] <==> m.content == "" && m.toolCalls == []
    ensures forall k :: 0 <= k < |BlocksOf(m)| && BlocksOf(m)[k].Text? ==> k == 0 && BlocksOf(m)[k].text != ""
  {
    hide CallUses, UseBlocks;
    UsesSay(m.toolCalls);
    if m.content != "" {
      assert BlocksOf(m)[1..] == UseBlocks(m.toolCalls);
      assert m.content + "" == m.content;
      assert [] + CallUses(m.toolCalls) == CallUses(m.toolCalls);
    } else {
      assert BlocksOf(m) == UseBlocks(m.toolCalls);
    }
  }

  lemma {:induction false} TurnSays(m: Message)
    requires m.role != Tool
    ensures Items(TurnOf(m)) == Said(m) && WellBuilt(TurnOf(m))
  {
    hide BlocksOf, BlockText, BlockUses, CallUses, Items;
    BlocksSay(m);
    ItemsOfOne(TurnOf(m));
  }

  lemma {:induction false} WellBuiltAppend(a: seq<Turn>, b: seq<Turn>)
    requires WellBuilt(a) && WellBuilt(b)
    ensures WellBuilt(a + b)
  {
  }

  lemma {:induction false} ItemsOfOne(ts: seq<Turn>)
    requires |ts| <= 1
    ensures Items(ts) == if ts == [] then [] else ItemsOfTurn(ts[0])
  {
    if ts != [] {
      assert ts[1..] == [];
    }
  }

  /** In order, the turns say what the messages say, and nothing else. */
  lemma {:induction false} ConversionSays(ms: seq<Message>, pending: seq<ToolResult>)
    ensures Items(ConvertFrom(ms, pending)) == ResultItems(pending) + AllSaid(ms)
    ensures WellBuilt(ConvertFrom(ms, pending))
    decreases |ms|
  {
    hide TurnOf, Items, ResultItems, WellBuilt, Said, ResultOf, Flushed, AllSaid, ConvertFrom;
    FlushSays(pending);
    if ms == [] {
      NothingConverted(pending);
      assert ResultItems(pending) + [] == ResultItems(pending);
    } else if ms[0].role == Tool {
      var result := ResultOf(ms[0]);
      ConvertedStep(ms, pending);
      ConversionSays(ms[1..], pending + [result]);
      ResultItemsAppend(pending, [result]);
      OneResult(ms[0]);
    } else {
      ConvertedStep(ms, pending);
      TurnSays(ms[0]);
      ConversionSays(ms[1..], []);
      var rest := ConvertFrom(ms[1..], []);
      ItemsAppend(Flushed(pending) + TurnOf(ms[0]), rest);
      ItemsAppend(Flushed(pending), TurnOf(ms[0]));
      WellBuiltAppend(Flushed(pending), TurnOf(ms[0]));
      WellBuiltAppend(Flushed(pending) + TurnOf(ms[0]), rest);
      NothingSaid(AllSaid(ms[1..]));
    }
  }

  lemma {:induction false} NothingConverted(pending: seq<ToolResult>)
    ensures ConvertFrom([], pending) == Flushed(pending) && AllSaid([]) == []
  {
  }

  lemma {:induction false} ConvertedStep(ms: seq<Message>, pending: seq<ToolResult>)
    requires ms != []
    ensures AllSaid(ms) == Said(ms[0]) + AllSaid(ms[1..])
    ensures ConvertFrom(ms, pending)
         == if ms[0].role == Tool then ConvertFrom(ms[1..], pending + [ResultOf(ms[0])])
            else Flushed(pending) + TurnOf(ms[0]) + ConvertFrom(ms[1..], [])
  {
    hide Said, ResultOf, TurnOf;
  }

  lemma {:induction false} NothingSaid(items: seq<Item>)
    ensures ResultItems([]) + items == items
  {
  }

  lemma {:induction false} OneResult(m: Message)
    requires m.role == Tool
    ensures ResultItems([ResultOf(m)]) == Said(m)
  {
    assert [ResultOf(m)][1..] == [];
  }

  lemma {:induction false} FlushSays(pending: seq<ToolResult>)
    ensures Items(Flushed(pending)) == ResultItems(pending) && WellBuilt(Flushed(pending))
  {
    ItemsOfOne(Flushed(pending));
  }

  // ---- The loop that computes it ----

  method BuildBlocks(m: Message) returns (blocks: seq<Block>)
    ensures blocks == BlocksOf(m)
  {
    blocks := [];
    if m.content != "" {
      blocks := blocks + [Text(m.content)];
    }
    for k := 0 to |m.toolCalls|
      invariant blocks + UseBlocks(m.toolCalls[k..]) == BlocksOf(m)
    {
      var call := m.toolCalls[k];
      UseBlocksStep(blocks, m.toolCalls, k);
      blocks := blocks + [ToolUse(call.id, call.name, call.arguments)];
    }
  }

  lemma UseBlocksStep(blocks: seq<Block>, calls: seq<ToolCall>, k: nat)
    requires k < |calls|
    ensures blocks + UseBlocks(calls[k..])
         == blocks + [ToolUse(calls[k].id, calls[k].name, calls[k].arguments)] + UseBlocks(calls[k + 1..])
  {
    assert calls[k..][1..] == calls[k + 1..];
  }

  method ToAnthropicMessages(ms: seq<Message>) returns (converted: seq<Turn>)
    ensures converted == Convert(ms)
    ensures Items(converted) == AllSaid(ms) && WellBuilt(converted)
  {
    hide ConvertFrom, BlocksOf, Items, AllSaid, WellBuilt;
    var pending: seq<ToolResult> := [];
    converted := [];
    for k := 0 to |ms|
      invariant converted + ConvertFrom(ms[k..], pending) == Convert(ms)
    {
      ConvertStep(converted, ms, k, pending);
      if ms[k].role == Tool {
        pending := pending + [ResultOf(ms[k])];
        continue;
      }
      if pending != [] {
        converted, pending := converted + [UserResults(pending)], [];
      }
      if ms[k].role == Assistant {
        var blocks := BuildBlocks(ms[k]);
        if blocks != [] {
          converted := converted + [AssistantTurn(blocks)];
        }
        continue;
      }
      converted := converted + [UserText(ms[k].content)];
    }
    ConvertEnd(converted, ms, pending);
    if pending != [] {
      converted := converted + [UserResults(pending)];
    }
    ConversionSays(ms, []);
    NothingSaid(AllSaid(ms));
  }

  lemma {:induction false} ConvertStep(converted: seq<Turn>, ms: seq<Message>, k: nat, pending: seq<ToolResult>)
    requires k < |ms|
    ensures converted + ConvertFrom(ms[k..], pending)
         == if ms[k].role == Tool then converted + ConvertFrom(ms[k + 1..], pending + [ResultOf(ms[k])])
            else converted + Flushed(pending) + TurnOf(ms[k]) + ConvertFrom(ms[k + 1..], [])
  {
    assert ms[k..][1..] == ms[k + 1..];
  }

  lemma {:induction false} ConvertEnd(converted: seq<Turn>, ms: seq<Message>, pending: seq<ToolResult>)
    ensures converted + ConvertFrom(ms[|ms|..], pending) == converted + Flushed(pending)
  {
  }

  /** Of the first n messages, these are the positions, in order, of those that are system messages, or of those that are
      not. */
  predicate Picks(idx: seq<nat>, ms: seq<Message>, n: nat, system: bool)
    requires n <= |ms|
  {
    && (forall k :: 0 <= k < |idx| ==> idx[k] < n && ((ms[idx[k]].role == System) <==> system))
    && (forall j, k :: 0 <= j < k < |idx| ==> idx[j] < idx[k])
    && forall i :: 0 <= i < n && ((ms[i].role == System) <==> system) ==> i in idx
  }

  lemma {:induction false} PicksNext(idx: seq<nat>, ms: seq<Message>, n: nat, system: bool)
    requires n < |ms| && Picks(idx, ms, n, system)
    ensures Picks(if (ms[n].role == System) == system then idx + [n] else idx, ms, n + 1, system)
  {
    var next := if (ms[n].role == System) == system then idx + [n] else idx;
    forall i | 0 <= i < n + 1 && ((ms[i].role == System) <==> system) ensures i in next {
      if i == n {
        assert next[|idx|] == n;
      }
    }
  }

  /** The system prompt is lifted out of the list; everything else keeps its order. */
  method SplitSystem(ms: seq<Message>) returns (system: seq<string>, rest: seq<Message>)
    ensures system == SystemParts(ms) && rest == NonSystem(ms)
    ensures exists lifted :: Picks(lifted, ms, |ms|, true) && |system| == |lifted|
                             && forall k :: 0 <= k < |lifted| ==> system[k] == ms[lifted[k]].content
    ensures exists kept :: Picks(kept, ms, |ms|, false) && |rest| == |kept|
                           && forall k :: 0 <= k < |kept| ==> rest[k] == ms[kept[k]]
  {
    hide SystemParts, NonSystem, Picks;
    system, rest := [], [];
    ghost var lifted: seq<nat>, kept: seq<nat> := [], [];
    SplitStart(ms);
    for k := 0 to |ms|
      invariant system + SystemParts(ms[k..]) == SystemParts(ms)
      invariant rest + NonSystem(ms[k..]) == NonSystem(ms)
      invariant Picks(lifted, ms, k, true) && |system| == |lifted|
      invariant Picks(kept, ms, k, false) && |rest| == |kept|
      invariant forall i :: 0 <= i < |lifted| ==> lifted[i] < |ms| && system[i] == ms[lifted[i]].content
      invariant forall i :: 0 <= i < |kept| ==> kept[i] < |ms| && rest[i] == ms[kept[i]]
    {
      PicksNext(lifted, ms, k, true);
      PicksNext(kept, ms, k, false);
      SplitStep(ms, k, system, rest);
      if ms[k].role == System {
        system, lifted := system + [ms[k].content], lifted + [k];
      } else {
        rest, kept := rest + [ms[k]], kept + [k];
      }
    }
    SplitEnd(ms);
  }

  lemma {:induction false} SplitStart(ms: seq<Message>)
    ensures Picks([], ms, 0, true) && Picks([], ms, 0, false)
    ensures [] + SystemParts(ms[0..]) == SystemParts(ms) && [] + NonSystem(ms[0..]) == NonSystem(ms)
  {
    assert ms[0..] == ms;
  }

  lemma {:induction false} SplitStep(ms: seq<Message>, k: nat, system: seq<string>, rest: seq<Message>)
    requires k < |ms|
    ensures system + SystemParts(ms[k..])
         == (if ms[k].role == System then system + [ms[k].content] else system) + SystemParts(ms[k + 1..])
    ensures rest + NonSystem(ms[k..])
         == (if ms[k].role == System then rest else rest + [ms[k]]) + NonSystem(ms[k + 1..])
  {
    assert ms[k..][1..] == ms[k + 1..];
  }

  lemma {:induction false} SplitEnd(ms: seq<Message>)
    ensures SystemParts(ms[|ms|..]) == [] && NonSystem(ms[|ms|..]) == []
  {
  }
}
