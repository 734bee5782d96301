/** One user turn of the assistant, as data: what the provider streamed, what the tools answered, the rows
    and events that come of it, and the laws of those rows. */
module Chat {
  import opened Wrappers
  import opened Conversation
  import opened Replay
  import opened ReplayLaws
  import opened TrimLaws
  import opened Pairing

  const MAX_TOOL_ROUNDS_PER_TURN: nat := 12
  const MAX_TOOL_CALLS_PER_TURN: nat := 40
  const KEEP_VERBATIM_MESSAGES: nat := 6

  /** What a provider streams. An end marker carries nothing. */
  datatype Chunk = Token(text: string) | Call(call: ToolCall) | End

  /** A stream, and whether it breaks off with an error after these chunks. */
  datatype Reply = Reply(chunks: seq<Chunk>, fails: bool)

  /** What dispatching a call gives: a payload, possibly a proposed change plan, or an error that escapes. */
  datatype Outcome = Payload(text: string, proposed: bool) | Escapes

  datatype Event =
    | TokenEvent(text: string)
    | ToolCallEvent(name: string, arguments: string)
    | ToolResultEvent(name: string, payload: string)
    | ChangePlanProposed(name: string, payload: string)
    | Compacted(summary: string, folded: nat)
    | Done

  /** The texts the service sends of its own. */
  datatype Prompts = Prompts(instructions: string, folded: string, compaction: string, previous: string,
                             ask: string, spent: string)

  /** A request to the provider, and whether tools were offered with it. */
  datatype Request = Request(messages: seq<Message>, tools: bool)

  /** One answered request: the stream, and the payloads of the calls that were dispatched. */
  datatype Round = Round(chunks: seq<Chunk>, results: seq<Outcome>)

  function ReplyText(chunks: seq<Chunk>): string {
    if chunks == [] then ""
    else
      var last := chunks[|chunks| - 1];
      ReplyText(chunks[..|chunks| - 1]) + if last.Token? then last.text else ""
  }

  function ReplyCalls(chunks: seq<Chunk>): seq<ToolCall> {
    if chunks == [] then []
    else
      var last := chunks[|chunks| - 1];
      ReplyCalls(chunks[..|chunks| - 1]) + if last.Call? then [last.call] else []
  }

  function TokenEvents(chunks: seq<Chunk>): seq<Event> {
    if chunks == [] then []
    else
      var last := chunks[|chunks| - 1];
      TokenEvents(chunks[..|chunks| - 1]) + if last.Token? && last.text != "" then [TokenEvent(last.text)] else []
  }

  /** A reply that neither says nor announces anything is not stored. */
  function AssistantRows(text: string, calls: seq<ToolCall>): seq<Row> {
    if text == "" && calls == [] then []
    else [Row(AssistantRow, text, if calls == [] then NoCalls else Announces(calls))]
  }

  function ToolRows(calls: seq<ToolCall>, results: seq<Outcome>): (rows: seq<Row>)
    requires |results| <= |calls|
  {
    seq(|results|, i requires 0 <= i < |results| =>
        Row(ToolRow, if results[i].Payload? then results[i].text else "", Answers(Some(calls[i].id))))
  }

  function ToolEvents(calls: seq<ToolCall>, results: seq<Outcome>): seq<Event>
    requires |results| <= |calls|
  {
    if results == [] then []
    else
      var n := |results| - 1;
      ToolEvents(calls, results[..n]) + [ToolCallEvent(calls[n].name, calls[n].arguments), ResultEvent(calls[n], results[n])]
  }

  function ResultEvent(call: ToolCall, outcome: Outcome): Event {
    match outcome
    case Payload(text, true) => ChangePlanProposed(call.name, text)
    case Payload(text, false) => ToolResultEvent(call.name, text)
    case Escapes => ToolResultEvent(call.name, "")
  }

  predicate RoundOk(r: Round) {
    |r.results| <= |ReplyCalls(r.chunks)|
  }

  /** Every call the round announced was dispatched. */
  predicate AllDispatched(r: Round) {
    |r.results| == |ReplyCalls(r.chunks)|
  }

  function RoundRows(r: Round): seq<Row>
    requires RoundOk(r)
  {
    AssistantRows(ReplyText(r.chunks), ReplyCalls(r.chunks)) + ToolRows(ReplyCalls(r.chunks), r.results)
  }

  function RoundEvents(r: Round): seq<Event>
    requires RoundOk(r)
  {
    TokenEvents(r.chunks) + ToolEvents(ReplyCalls(r.chunks), r.results)
  }

  predicate RoundsOk(rounds: seq<Round>) {
    forall i :: 0 <= i < |rounds| ==> RoundOk(rounds[i])
  }

  function RowsOf(rounds: seq<Round>): seq<Row>
    requires RoundsOk(rounds)
  {
    if rounds == [] then [] else RowsOf(rounds[..|rounds| - 1]) + RoundRows(rounds[|rounds| - 1])
  }

  function EventsOf(rounds: seq<Round>): seq<Event>
    requires RoundsOk(rounds)
  {
    if rounds == [] then [] else EventsOf(rounds[..|rounds| - 1]) + RoundEvents(rounds[|rounds| - 1])
  }

  function CallsMade(rounds: seq<Round>): nat {
    if rounds == [] then 0 else CallsMade(rounds[..|rounds| - 1]) + |rounds[|rounds| - 1].results|
  }

  // ---- What a round stores and shows, position by position ----

  /** The tokens of a stream, read from the front. */
  function Spoken(chunks: seq<Chunk>): seq<string> {
    if chunks == [] then []
    else (if chunks[0].Token? && chunks[0].text != "" then [chunks[0].text] else []) + Spoken(chunks[1..])
  }

  function Called(chunks: seq<Chunk>): seq<ToolCall> {
    if chunks == [] then [] else (if chunks[0].Call? then [chunks[0].call] else []) + Called(chunks[1..])
  }

  function Together(texts: seq<string>): string {
    if texts == [] then "" else texts[0] + Together(texts[1..])
  }

  lemma {:induction false} ReplyStep(chunks: seq<Chunk>)
    requires chunks != []
    ensures var front, last := chunks[..|chunks| - 1], chunks[|chunks| - 1];
            && ReplyText(chunks) == ReplyText(front) + (if last.Token? then last.text else "")
            && ReplyCalls(chunks) == ReplyCalls(front) + (if last.Call? then [last.call] else [])
            && TokenEvents(chunks)
               == TokenEvents(front) + (if last.Token? && last.text != "" then [TokenEvent(last.text)] else [])
  {
  }

  lemma {:induction false} ReplyAppend(a: seq<Chunk>, b: seq<Chunk>)
    ensures ReplyText(a + b) == ReplyText(a) + ReplyText(b) && ReplyCalls(a + b) == ReplyCalls(a) + ReplyCalls(b)
    ensures TokenEvents(a + b) == TokenEvents(a) + TokenEvents(b)
    decreases |b|
  {
    hide ReplyText, ReplyCalls, TokenEvents;
    if b == [] {
      assert a + b == a;
      ReplyOfNone();
    } else {
      var front := b[..|b| - 1];
      ReplyAppend(a, front);
      assert (a + b)[..|a + b| - 1] == a + front;
      ReplyStep(a + b);
      ReplyStep(b);
    }
  }

  lemma {:induction false} ReplyOfNone()
    ensures ReplyText([]) == "" && ReplyCalls([]) == [] && TokenEvents([]) == []
  {
  }

  lemma {:induction false} ReplyIs(chunks: seq<Chunk>)
    ensures ReplyText(chunks) == Together(Spoken(chunks)) && ReplyCalls(chunks) == Called(chunks)
    ensures |TokenEvents(chunks)| == |Spoken(chunks)|
    ensures forall i :: 0 <= i < |Spoken(chunks)| ==> TokenEvents(chunks)[i] == TokenEvent(Spoken(chunks)[i])
  {
    hide ReplyText, ReplyCalls, TokenEvents, Together, Spoken, Called;
    if chunks == [] {
      ReplyOfNone();
      NothingSpoken();
    } else {
      var c, rest := chunks[0], chunks[1..];
      ReplyIs(rest);
      ReplyAppend([c], rest);
      assert chunks == [c] + rest;
      ReplyOfOne(c);
      SpokenStep(chunks);
      TogetherStep(c, Spoken(rest));
    }
  }

  lemma {:induction false} NothingSpoken()
    ensures Spoken([]) == [] && Called([]) == [] && Together([]) == ""
  {
  }

  lemma {:induction false} SpokenStep(chunks: seq<Chunk>)
    requires chunks != []
    ensures var c := chunks[0];
            && Spoken(chunks) == (if c.Token? && c.text != "" then [c.text] else []) + Spoken(chunks[1..])
            && Called(chunks) == (if c.Call? then [c.call] else []) + Called(chunks[1..])
  {
  }

  lemma {:induction false} ReplyOfOne(c: Chunk)
    ensures ReplyText([c]) == if c.Token? then c.text else ""
    ensures ReplyCalls([c]) == if c.Call? then [c.call] else []
    ensures TokenEvents([c]) == if c.Token? && c.text != "" then [TokenEvent(c.text)] else []
  {
    assert [c][..0] == [];
  }

  lemma {:induction false} TogetherStep(c: Chunk, texts: seq<string>)
    ensures Together((if c.Token? && c.text != "" then [c.text] else []) + texts)
         == (if c.Token? then c.text else "") + Together(texts)
  {
    if c.Token? && c.text != "" {
      assert ([c.text] + texts)[1..] == texts;
    } else {
      assert [] + texts == texts;
    }
  }

  /** A round stores its text with the calls it announces, unless it says nothing, and behind it the payload of each call
      that was dispatched, under the id of the call. */
  lemma {:induction false} RoundIsStored(r: Round)
    requires RoundOk(r)
    ensures var rows, text, calls := RoundRows(r), Together(Spoken(r.chunks)), Called(r.chunks);
            if text == "" && calls == [] then rows == []
            else
              && |rows| == 1 + |r.results| && |r.results| <= |calls|
              && rows[0] == Row(AssistantRow, text, if calls == [] then NoCalls else Announces(calls))
              && forall i :: 0 <= i < |r.results| && r.results[i].Payload? ==>
                   rows[1 + i] == Row(ToolRow, r.results[i].text, Answers(Some(calls[i].id)))
  {
    hide Spoken, Called, ReplyText, ReplyCalls, Together;
    ReplyIs(r.chunks);
  }

  /** A round shows its tokens, and behind them each dispatched call and its payload, as a proposal if it is one. */
  lemma {:induction false} RoundIsShown(r: Round)
    requires RoundOk(r)
    ensures var events, tokens, calls := RoundEvents(r), Spoken(r.chunks), Called(r.chunks);
            && |events| == |tokens| + 2 * |r.results| && |r.results| <= |calls|
            && (forall i :: 0 <= i < |tokens| ==> events[i] == TokenEvent(tokens[i]))
            && forall i :: 0 <= i < |r.results| ==>
                 && events[|tokens| + 2 * i] == ToolCallEvent(calls[i].name, calls[i].arguments)
                 && match r.results[i]
                    case Payload(text, proposed) =>
                      events[|tokens| + 2 * i + 1] == if proposed then ChangePlanProposed(calls[i].name, text)
                                                      else ToolResultEvent(calls[i].name, text)
                    case Escapes => true
  {
    hide Spoken, Called, ReplyText, ReplyCalls, TokenEvents, ToolEvents;
    ReplyIs(r.chunks);
    ToolEventsAre(ReplyCalls(r.chunks), r.results);
  }

  lemma {:induction false} ToolEventsAre(calls: seq<ToolCall>, results: seq<Outcome>)
    requires |results| <= |calls|
    ensures var events := ToolEvents(calls, results);
            && |events| == 2 * |results|
            && forall i :: 0 <= i < |results| ==>
                 && events[2 * i] == ToolCallEvent(calls[i].name, calls[i].arguments)
                 && events[2 * i + 1] == ResultEvent(calls[i], results[i])
    decreases |results|
  {
    hide ResultEvent;
    if results != [] {
      ToolEventsAre(calls, results[..|results| - 1]);
    }
  }

  // ---- Every tool row has its announcement ----

  /** The nearest earlier row that is not a tool row, or -1. */
  function Announcer(rows: seq<Row>, i: int): (k: int)
    requires -1 <= i < |rows|
    ensures -1 <= k <= i
    ensures k >= 0 ==> rows[k].role != ToolRow
    ensures forall j :: k < j <= i ==> rows[j].role == ToolRow
    decreases i + 1
  {
    if i < 0 || rows[i].role != ToolRow then i else Announcer(rows, i - 1)
  }

  /** A tool row names a call that its announcing assistant row announced. */
  predicate Grounded(rows: seq<Row>) {
    forall i :: 0 <= i < |rows| && rows[i].role == ToolRow ==> GroundedAt(rows, i)
  }

  predicate GroundedAt(rows: seq<Row>, i: nat)
    requires i < |rows|
  {
    var k := Announcer(rows, i);
    && k >= 0 && rows[k].role == AssistantRow && rows[k].stored.Announces?
    && rows[i].stored.Answers? && rows[i].stored.id.Some?
    && exists c :: 0 <= c < |rows[k].stored.calls| && rows[k].stored.calls[c].id == rows[i].stored.id.value
  }

  lemma {:induction false} AnnouncerIs(rows: seq<Row>, i: nat, k: nat)
    requires k <= i < |rows| && rows[k].role != ToolRow
    requires forall j :: k < j <= i ==> rows[j].role == ToolRow
    ensures Announcer(rows, i) == k
    decreases i
  {
    if k < i {
      AnnouncerIs(rows, i - 1, k);
    }
  }

  lemma {:induction false} AnnouncerOfPrefix(rows: seq<Row>, more: seq<Row>, i: nat)
    requires i < |rows|
    ensures Announcer(rows + more, i) == Announcer(rows, i)
    decreases i
  {
    if rows[i].role == ToolRow && i > 0 {
      AnnouncerOfPrefix(rows, more, i - 1);
    }
  }

  lemma GroundedPrefix(rows: seq<Row>, more: seq<Row>, i: nat)
    requires i < |rows|
    ensures GroundedAt(rows + more, i) <==> GroundedAt(rows, i)
  {
    AnnouncerOfPrefix(rows, more, i);
  }

  lemma GroundedPlain(rows: seq<Row>, row: Row)
    requires Grounded(rows) && row.role != ToolRow
    ensures Grounded(rows + [row])
  {
    forall i | 0 <= i < |rows + [row]| && (rows + [row])[i].role == ToolRow ensures GroundedAt(rows + [row], i) {
      GroundedPrefix(rows, [row], i);
    }
  }

  /** An announcement and any number of its answers. */
  lemma GroundedExchange(rows: seq<Row>, text: string, calls: seq<ToolCall>, results: seq<Outcome>)
    requires Grounded(rows) && |results| <= |calls| && calls != []
    ensures Grounded(rows + [Row(AssistantRow, text, Announces(calls))] + ToolRows(calls, results))
  {
    var head := Row(AssistantRow, text, Announces(calls));
    var tools := ToolRows(calls, results);
    var all := rows + [head] + tools;
    forall i | 0 <= i < |all| && all[i].role == ToolRow ensures GroundedAt(all, i) {
      if i < |rows| {
        assert all == rows + ([head] + tools);
        GroundedPrefix(rows, [head] + tools, i);
      } else {
        var c := i - |rows| - 1;
        AnnouncerIs(all, i, |rows|);
        assert all[|rows|] == head && all[i] == tools[c] && calls[c].id == all[i].stored.id.value;
      }
    }
  }

  lemma GroundedRound(rows: seq<Row>, r: Round)
    requires Grounded(rows) && RoundOk(r)
    ensures Grounded(rows + RoundRows(r))
  {
    var text, calls := ReplyText(r.chunks), ReplyCalls(r.chunks);
    if calls != [] {
      GroundedExchange(rows, text, calls, r.results);
      assert rows + RoundRows(r) == rows + [Row(AssistantRow, text, Announces(calls))] + ToolRows(calls, r.results);
    } else if text != "" {
      GroundedPlain(rows, Row(AssistantRow, text, NoCalls));
      assert rows + RoundRows(r) == rows + [Row(AssistantRow, text, NoCalls)];
    } else {
      assert rows + RoundRows(r) == rows;
    }
  }

  lemma {:induction false} GroundedRounds(rows: seq<Row>, rounds: seq<Round>)
    requires Grounded(rows) && RoundsOk(rounds)
    ensures Grounded(rows + RowsOf(rounds))
    decreases |rounds|
  {
    hide Grounded, RoundRows;
    if rounds == [] {
      assert rows + RowsOf(rounds) == rows;
    } else {
      var front, last := rounds[..|rounds| - 1], rounds[|rounds| - 1];
      GroundedRounds(rows, front);
      GroundedRound(rows + RowsOf(front), last);
      assert rows + RowsOf(rounds) == rows + RowsOf(front) + RoundRows(last);
    }
  }

  // ---- Whole logs stay whole exactly when every call is answered ----

  lemma WholeUser(rows: seq<Row>, row: Row)
    requires WholeLog(rows) && row.role == UserRow
    ensures WholeLog(rows + [row])
  {
    ReplayAppend(rows, [row]);
    var m := ReplayRow(row);
    assert ReplayAll([row]) == [m];
    AnsweredWithRequest(ReplayAll(rows), m);
    SubstantialAppend(ReplayAll(rows), [m]);
  }

  lemma RoundIsSubstantial(r: Round)
    requires RoundOk(r)
    ensures Substantial(ReplayAll(RoundRows(r)))
  {
  }

  lemma RoundIsAnswered(r: Round)
    requires RoundOk(r)
    ensures Answered(ReplayAll(RoundRows(r))) <==> AllDispatched(r)
  {
    hide ReplyText, ReplyCalls, Answered;
    var text, calls := ReplyText(r.chunks), ReplyCalls(r.chunks);
    var ms := ReplayAll(RoundRows(r));
    if text == "" && calls == [] {
      NothingIsAnswered(ms);
    } else {
      ByExchange(ms);
      assert ms[0] == Message(Assistant, text, None, calls);
      if |r.results| == |calls| {
        NothingIsAnswered(ms[Width(ms)..]);
      }
    }
  }

  lemma WholeRound(rows: seq<Row>, r: Round)
    requires WholeLog(rows) && RoundOk(r)
    ensures WholeLog(rows + RoundRows(r)) <==> AllDispatched(r)
  {
    hide RoundRows, AllDispatched, Answered, Substantial;
    ReplayAppend(rows, RoundRows(r));
    RoundIsSubstantial(r);
    RoundIsAnswered(r);
    AnsweredAppend(ReplayAll(rows), ReplayAll(RoundRows(r)));
    SubstantialAppend(ReplayAll(rows), ReplayAll(RoundRows(r)));
  }

  lemma {:induction false} WholeRounds(rows: seq<Row>, rounds: seq<Round>)
    requires WholeLog(rows) && RoundsOk(rounds) && forall i :: 0 <= i < |rounds| ==> AllDispatched(rounds[i])
    ensures WholeLog(rows + RowsOf(rounds))
    decreases |rounds|
  {
    hide WholeLog, RoundRows;
    if rounds == [] {
      assert rows + RowsOf(rounds) == rows;
    } else {
      var front, last := rounds[..|rounds| - 1], rounds[|rounds| - 1];
      WholeRounds(rows, front);
      WholeRound(rows + RowsOf(front), last);
      assert rows + RowsOf(rounds) == rows + RowsOf(front) + RoundRows(last);
    }
  }

  /** Only the last round of a turn can leave calls undispatched; the log is whole afterwards exactly when it
      did not. */
  lemma {:induction false} WholeExactlyWhenDispatched(rows: seq<Row>, rounds: seq<Round>)
    requires WholeLog(rows) && RoundsOk(rounds)
    requires forall i :: 0 <= i < |rounds| - 1 ==> AllDispatched(rounds[i])
    ensures WholeLog(rows + RowsOf(rounds)) <==> forall i :: 0 <= i < |rounds| ==> AllDispatched(rounds[i])
  {
    hide WholeLog, RoundRows;
    if rounds == [] {
      assert rows + RowsOf(rounds) == rows;
    } else {
      var front, last := rounds[..|rounds| - 1], rounds[|rounds| - 1];
      WholeRounds(rows, front);
      WholeRound(rows + RowsOf(front), last);
      assert rows + RowsOf(rounds) == rows + RowsOf(front) + RoundRows(last);
    }
  }

  // ---- What a round adds to the running history ----

  lemma RoundLacksUser(r: Round)
    requires RoundOk(r)
    ensures !HasRole(ReplayAll(RoundRows(r)), User)
  {
  }

  lemma {:induction false} NoDone(rounds: seq<Round>)
    requires RoundsOk(rounds)
    ensures Done !in EventsOf(rounds)
    decreases |rounds|
  {
    if rounds != [] {
      var last := rounds[|rounds| - 1];
      NoDone(rounds[..|rounds| - 1]);
      NoDoneInTokens(last.chunks);
      NoDoneInTools(ReplyCalls(last.chunks), last.results);
    }
  }

  lemma {:induction false} NoDoneInTokens(chunks: seq<Chunk>)
    ensures Done !in TokenEvents(chunks)
  {
    if chunks != [] {
      NoDoneInTokens(chunks[..|chunks| - 1]);
    }
  }

  lemma {:induction false} NoDoneInTools(calls: seq<ToolCall>, results: seq<Outcome>)
    requires |results| <= |calls|
    ensures Done !in ToolEvents(calls, results)
    decreases |results|
  {
    if results != [] {
      NoDoneInTools(calls, results[..|results| - 1]);
    }
  }
}
