/** The assistant service itself: it stores what is said, keeps the running history within the budget,
    dispatches the calls the model announces, and folds old turns into a summary. */
module ChatService {
  import opened Wrappers
  import opened Conversation
  import opened Replay
  import opened ReplayLaws
  import opened TrimLaws
  import opened Pairing
  import opened Chat
  import opened Requests
  import Text

  function UserMessage(content: string): Row {
    Row(UserRow, content, NoCalls)
  }

  /** All that a request depends on besides the stored rows. */
  datatype Setting = Setting(prompts: Prompts, summary: string, summarised: nat, limit: int, tools: bool)

  function FullHistory(s: Setting, rows: seq<Row>): seq<Message> {
    BuildHistory(s.prompts.instructions, s.prompts.folded, s.summary, rows, s.summarised)
  }

  /** The last round withdraws the tools and says so. */
  function Note(s: Setting, round: nat): seq<Message> {
    if round == MAX_TOOL_ROUNDS_PER_TURN then [SystemMessage(s.prompts.spent)] else []
  }

  /** The request of a round, from the rows stored by then: one trim of the whole conversation. */
  function RequestFor(s: Setting, rows: seq<Row>, round: nat): Request {
    Request(Trim(FullHistory(s, rows) + Note(s, round), Some(s.limit)), s.tools && round != MAX_TOOL_ROUNDS_PER_TURN)
  }

  /** What the provider is asked to accept. */
  predicate LegalRequest(messages: seq<Message>) {
    Legal(Convert(NonSystem(messages)))
  }

  /** Some user message is left after the summary. */
  predicate Asked(s: Setting, rows: seq<Row>) {
    s.summarised <= |rows| && HasRole(ReplayAll(rows[s.summarised..]), User)
  }

  // ---- The running history is always one trim away from the whole conversation ----

  predicate HistoryOk(history: seq<Message>, full: seq<Message>, whole: seq<Message>, growth: seq<Message>,
                      limit: int) {
    && history == Trim(whole, Some(limit)) + growth
    && full == whole + growth
    && Conversational(whole) && !HasRole(growth, User)
  }

  lemma HistoryStarts(s: Setting, rows: seq<Row>)
    requires Asked(s, rows)
    ensures var full := FullHistory(s, rows); HistoryOk(Trim(full, Some(s.limit)), full, full, [], s.limit)
  {
    hide Trim, Conversational;
    var full := FullHistory(s, rows);
    assert full + [] == full && Trim(full, Some(s.limit)) + [] == Trim(full, Some(s.limit));
    FullIsConversational(s, rows);
  }

  lemma FullIsConversational(s: Setting, rows: seq<Row>)
    requires Asked(s, rows)
    ensures Conversational(FullHistory(s, rows))
  {
    hide Conversational, LeadingSystem, RequestAt;
    var pinned, rest := Preamble(s.prompts.instructions, s.prompts.folded, s.summary), ReplayAll(rows[s.summarised..]);
    var earlier, request, turn := SplitAtRequest(rest);
    ReplayLacksSystem(rows[s.summarised..]);
    AppendLacksRole(earlier + [request], turn, System);
    AppendLacksRole(earlier, [request], System);
    assert FullHistory(s, rows) == Assemble(pinned, earlier, request, turn);
    ShapedIsConversational(pinned, earlier, request, turn);
  }

  lemma HistoryTrims(history: seq<Message>, full: seq<Message>, whole: seq<Message>, growth: seq<Message>,
                     note: seq<Message>, limit: int)
    requires HistoryOk(history, full, whole, growth, limit) && !HasRole(note, User)
    ensures Trim(history + note, Some(limit)) == Trim(full + note, Some(limit))
  {
    hide Trim, Conversational, HasRole;
    AppendLacksRole(growth, note, User);
    TrimmingAgainIsTrimmingOnce(whole, growth + note, Some(limit));
    Regroup(Trim(whole, Some(limit)), growth, note);
    Regroup(whole, growth, note);
  }

  lemma HistoryGrows(history: seq<Message>, full: seq<Message>, whole: seq<Message>, growth: seq<Message>,
                     more: seq<Message>, limit: int)
    requires HistoryOk(history, full, whole, growth, limit) && !HasRole(more, User)
    ensures HistoryOk(Trim(full, Some(limit)) + more, full + more, full, more, limit)
  {
    hide Trim, Conversational, HasRole;
    GrowthStaysConversational(whole, growth, Some(limit));
  }

  lemma FullGrows(s: Setting, rows: seq<Row>, more: seq<Row>)
    requires s.summarised <= |rows|
    ensures FullHistory(s, rows + more) == FullHistory(s, rows) + ReplayAll(more)
  {
    assert (rows + more)[s.summarised..] == rows[s.summarised..] + more;
    ReplayAppend(rows[s.summarised..], more);
  }

  lemma AskedGrows(s: Setting, rows: seq<Row>, more: seq<Row>)
    requires Asked(s, rows)
    ensures Asked(s, rows + more)
  {
    assert (rows + more)[s.summarised..] == rows[s.summarised..] + more;
    ReplayAppend(rows[s.summarised..], more);
    AppendLacksRole(ReplayAll(rows[s.summarised..]), ReplayAll(more), User);
  }

  lemma RequestIsLegal(s: Setting, rows: seq<Row>, round: nat)
    requires WholeLog(rows) && Asked(s, rows)
    ensures LegalRequest(RequestFor(s, rows, round).messages)
  {
    hide Legal, Convert, NonSystem, Trim, WholeLog;
    ReplayIsLegal(s.prompts.instructions, s.prompts.folded, s.summary, rows, s.summarised, Note(s, round), s.limit);
  }

  /** When everything fits, only the front heals: the next request is legal exactly when the log from the summary on,
      leading tool results aside, answers all its calls. A turn cut short by the call cap leaves a log that does
      not. */
  lemma {:induction false} RoomyRequestLegality(s: Setting, rows: seq<Row>, content: string)
    requires s.summarised <= |rows| && Substantial(ReplayAll(rows))
    requires Cost(FullHistory(s, rows + [UserMessage(content)])) <= s.limit * CHARS_PER_TOKEN
    ensures LegalRequest(RequestFor(s, rows + [UserMessage(content)], 0).messages)
       <==> Answered(DropOrphans(ReplayAll(rows[s.summarised..])))
  {
    hide LegalRequest, RequestFor, Answered, Cost, Substantial, DropOrphans, FullHistory, ReplayAll, HasRole;
    var pinned := Preamble(s.prompts.instructions, s.prompts.folded, s.summary);
    var log, request := ReplayAll(rows[s.summarised..]), Message(User, content, None, []);
    ReplayLacksSystem(rows[s.summarised..]);
    PreambleIsSystem(s.prompts.instructions, s.prompts.folded, s.summary);
    ReplaySplit(rows, s.summarised);
    SubstantialAppend(ReplayAll(rows[..s.summarised]), log);
    NextRequest(s, rows, content);
    RoomForAll(pinned, log, request, s.limit * CHARS_PER_TOKEN);
    TrimOfSplit(pinned, log, request, [], s.limit);
    HealedIsLegal(pinned, log, request);
  }

  lemma {:induction false} NextRequest(s: Setting, rows: seq<Row>, content: string)
    requires s.summarised <= |rows|
    ensures var pinned := Preamble(s.prompts.instructions, s.prompts.folded, s.summary);
            var log, request := ReplayAll(rows[s.summarised..]), Message(User, content, None, []);
            && FullHistory(s, rows + [UserMessage(content)]) == Assemble(pinned, log, request, [])
            && RequestFor(s, rows + [UserMessage(content)], 0).messages
               == Trim(Assemble(pinned, log, request, []), Some(s.limit))
            && Splits(pinned, log, request, [])
  {
    hide Trim, Preamble;
    var full := FullHistory(s, rows + [UserMessage(content)]);
    assert (rows + [UserMessage(content)])[s.summarised..] == rows[s.summarised..] + [UserMessage(content)];
    ReplayAppend(rows[s.summarised..], [UserMessage(content)]);
    assert full + Note(s, 0) == full;
    PreambleIsSystem(s.prompts.instructions, s.prompts.folded, s.summary);
    ReplayLacksSystem(rows[s.summarised..]);
  }

  lemma {:induction false} HealedIsLegal(pinned: seq<Message>, log: seq<Message>, request: Message)
    requires (forall i :: 0 <= i < |pinned| ==> pinned[i].role == System) && !HasRole(log, System)
    requires Substantial(log) && request.role == User
    ensures LegalRequest(Assemble(pinned, DropOrphans(log), request, [])) <==> Answered(DropOrphans(log))
  {
    hide Legal, Convert, NonSystem, Answered, Substantial, DropOrphans;
    var kept := DropOrphans(log);
    DropOrphansIsSuffix(log);
    SuffixLacksRole(log, |log| - |kept|, System);
    NonSystemAppend(pinned, kept + [request]);
    NonSystemOfSystems(pinned);
    AppendLacksRole(kept, [request], System);
    NonSystemKeepsAll(kept + [request]);
    assert [] + (kept + [request]) == kept + [request];
    assert pinned + kept + [request] + [] == pinned + (kept + [request]);
    LoneRequestIsSubstantial(request);
    SubstantialTail(log, |log| - |kept|);
    SubstantialAppend(kept, [request]);
    LegalExactlyWhenAnswered(kept + [request]);
    AnsweredWithRequest(kept, request);
  }

  lemma LoneRequestIsSubstantial(request: Message)
    requires request.role == User
    ensures Substantial([request])
  {
  }

  lemma {:induction false} RoomForAll(pinned: seq<Message>, earlier: seq<Message>, request: Message, budget: int)
    requires Cost(Assemble(pinned, earlier, request, [])) <= budget
    ensures Window(pinned, earlier, request, [], budget) == Assemble(pinned, DropOrphans(earlier), request, [])
  {
    hide Cost, Assemble, DropOrphans, Fit;
    var base := Cost(pinned) + |request.content|;
    WindowCost(pinned, earlier, request, []);
    CostOfNone();
    FitNothing(base, budget);
    assert earlier[0..] == earlier;
    FitUnique(earlier, base, budget, 0);
    WindowByParts(pinned, earlier, request, [], budget);
    NoOrphans([]);
  }

  // ---- The trace of a turn ----

  /** Rounds, and the requests that led to them, in step with the provider and the tools. */
  predicate Traced(s: Setting, rows: seq<Row>, rounds: seq<Round>, requests: seq<Request>,
                   provider: (nat, Request) -> Reply, dispatch: (nat, ToolCall) -> Outcome)
  {
    && RoundsOk(rounds)
    && |rounds| <= |requests| <= |rounds| + 1
    && (forall i :: 0 <= i < |requests| ==> requests[i] == RequestFor(s, rows + RowsOf(rounds[..i]), i))
    && (forall i :: 0 <= i < |rounds| ==> Follows(rounds, i, provider(i, requests[i]), dispatch))
  }

  /** Round i is what was streamed, and its results are what the tools gave, call by call. */
  predicate Follows(rounds: seq<Round>, i: nat, reply: Reply, dispatch: (nat, ToolCall) -> Outcome)
    requires i < |rounds|
  {
    && rounds[i].chunks == reply.chunks && !reply.fails && RoundOk(rounds[i])
    && Dispatched(ReplyCalls(reply.chunks), rounds[i].results, CallsMade(rounds[..i]), dispatch)
  }

  predicate Dispatched(calls: seq<ToolCall>, results: seq<Outcome>, made: nat, dispatch: (nat, ToolCall) -> Outcome) {
    && |results| <= |calls|
    && forall j :: 0 <= j < |results| ==> results[j].Payload? && results[j] == dispatch(made + j, calls[j])
  }

  /** A round the turn goes on after: it announced calls and all of them were dispatched. */
  predicate GoesOn(r: Round) {
    AllDispatched(r) && ReplyCalls(r.chunks) != []
  }

  predicate AllGoOn(rounds: seq<Round>) {
    forall i :: 0 <= i < |rounds| ==> GoesOn(rounds[i])
  }

  /** How a turn that does not raise ends: an answer without calls, the last round, or the call cap. */
  predicate Ends(rounds: seq<Round>) {
    && rounds != [] && AllGoOn(rounds[..|rounds| - 1])
    && var last := rounds[|rounds| - 1];
       || (AllDispatched(last) && (ReplyCalls(last.chunks) == [] || |rounds| == MAX_TOOL_ROUNDS_PER_TURN + 1))
       || (!AllDispatched(last) && CallsMade(rounds) == MAX_TOOL_CALLS_PER_TURN)
  }

  lemma {:induction false} TraceStep(s: Setting, rows: seq<Row>, rounds: seq<Round>, requests: seq<Request>, r: Round,
                                     request: Request,
                  provider: (nat, Request) -> Reply, dispatch: (nat, ToolCall) -> Outcome)
    requires Traced(s, rows, rounds, requests, provider, dispatch) && |requests| == |rounds|
    requires request == RequestFor(s, rows + RowsOf(rounds), |rounds|)
    requires r.chunks == provider(|rounds|, request).chunks && !provider(|rounds|, request).fails
    requires Dispatched(ReplyCalls(r.chunks), r.results, CallsMade(rounds), dispatch)
    ensures Traced(s, rows, rounds + [r], requests + [request], provider, dispatch) && RoundsOk(rounds + [r])
    ensures RowsOf(rounds + [r]) == RowsOf(rounds) + RoundRows(r)
    ensures EventsOf(rounds + [r]) == EventsOf(rounds) + RoundEvents(r)
    ensures CallsMade(rounds + [r]) == CallsMade(rounds) + |r.results|
  {
    hide RequestFor, RoundRows, RoundEvents, ReplyCalls;
    var more, sent := rounds + [r], requests + [request];
    assert more[..|rounds|] == rounds;
    assert RoundOk(r);
    forall i | 0 <= i < |sent| ensures sent[i] == RequestFor(s, rows + RowsOf(more[..i]), i) {
      assert more[..i] == rounds[..i];
      assert rounds[..|rounds|] == rounds;
    }
    forall i | 0 <= i < |more| ensures Follows(more, i, provider(i, sent[i]), dispatch) {
      assert more[..i] == rounds[..i];
      assert rounds[..|rounds|] == rounds;
      if i < |rounds| {
        assert Follows(rounds, i, provider(i, requests[i]), dispatch);
      }
    }
  }

  /** A request that the provider broke off. */
  lemma {:induction false} TraceFault(s: Setting, rows: seq<Row>, rounds: seq<Round>, requests: seq<Request>,
                                      request: Request,
                   provider: (nat, Request) -> Reply, dispatch: (nat, ToolCall) -> Outcome)
    requires Traced(s, rows, rounds, requests, provider, dispatch) && |requests| == |rounds|
    requires request == RequestFor(s, rows + RowsOf(rounds), |rounds|)
    ensures Traced(s, rows, rounds, requests + [request], provider, dispatch)
  {
    assert rounds[..|rounds|] == rounds;
    forall i | 0 <= i < |rounds| ensures Follows(rounds, i, provider(i, (requests + [request])[i]), dispatch) {
      assert Follows(rounds, i, provider(i, requests[i]), dispatch);
    }
  }

  lemma RoundsPrefix(rounds: seq<Round>, i: nat)
    requires RoundsOk(rounds) && i <= |rounds|
    ensures RoundsOk(rounds[..i])
  {
  }

  lemma {:induction false} RoundsLackUserRows(rounds: seq<Round>)
    requires RoundsOk(rounds)
    ensures forall j :: 0 <= j < |RowsOf(rounds)| ==> RowsOf(rounds)[j].role != UserRow
    decreases |rounds|
  {
    if rounds != [] {
      RoundsLackUserRows(rounds[..|rounds| - 1]);
      RoundIsStored(rounds[|rounds| - 1]);
      hide RowsOf, ReplyText, ReplyCalls;
      assert forall row :: row in RoundRows(rounds[|rounds| - 1]) ==> row.role != UserRow;
    }
  }

  /** Every request of a turn shows the rows stored by then. The thirteenth comes without tools and with a note. */
  ghost predicate AllShow(prompts: Prompts, summary: string, summarised: nat, tools: bool, budget: int, rows: seq<Row>,
                          content: string, rounds: seq<Round>, requests: seq<Request>)
  {
    && RoundsOk(rounds) && |requests| <= |rounds| + 1
    && forall i :: 0 <= i < |requests| ==>
         && (requests[i].tools <==> tools && i < 12)
         && Shows(requests[i].messages, prompts.instructions, prompts.folded, summary,
                  rows + [Row(UserRow, content, NoCalls)] + RowsOf(rounds[..i]), summarised, |rows|,
                  if i == 12 then [Message(System, prompts.spent, None, [])] else [], budget)
  }

  /** What a turn asks to be folded away: all but the newest six of the rows, the user's message being one of these. */
  ghost predicate FoldingShows(prompts: Prompts, summary: string, budget: int, rows: seq<Row>, sent: seq<Message>) {
    && |rows| > 5
    && Shows(sent, prompts.compaction, prompts.previous, summary,
             rows[..|rows| - 5] + [Row(UserRow, prompts.ask, NoCalls)], 0, |rows| - 5, [], budget)
  }

  lemma {:induction false} RequestsShow(s: Setting, rows: seq<Row>, content: string, rounds: seq<Round>,
                                        requests: seq<Request>, provider: (nat, Request) -> Reply,
                                        dispatch: (nat, ToolCall) -> Outcome)
    requires Traced(s, rows + [UserMessage(content)], rounds, requests, provider, dispatch)
    requires s.summarised <= |rows| && |requests| <= MAX_TOOL_ROUNDS_PER_TURN + 1
    ensures AllShow(s.prompts, s.summary, s.summarised, s.tools, 4 * s.limit, rows, content, rounds, requests)
  {
    hide Shows, Trim, BuildHistory, RowsOf;
    forall i | 0 <= i < |requests|
      ensures requests[i].tools <==> s.tools && i < 12
      ensures Shows(requests[i].messages, s.prompts.instructions, s.prompts.folded, s.summary,
                    rows + [Row(UserRow, content, NoCalls)] + RowsOf(rounds[..i]), s.summarised, |rows|,
                    if i == 12 then [Message(System, s.prompts.spent, None, [])] else [], 4 * s.limit)
    {
      RoundsPrefix(rounds, i);
      RoundsLackUserRows(rounds[..i]);
      var all := rows + [UserMessage(content)] + RowsOf(rounds[..i]);
      forall j | |rows| < j < |all| ensures all[j].role != UserRow {
        assert all[j] == RowsOf(rounds[..i])[j - |rows| - 1];
      }
      TrimmedShows(s.prompts.instructions, s.prompts.folded, s.summary, all, s.summarised, |rows|, Note(s, i), s.limit);
    }
  }

  lemma {:induction false} NothingSent(s: Setting, rows: seq<Row>, content: string)
    ensures AllShow(s.prompts, s.summary, s.summarised, s.tools, 4 * s.limit, rows, content, [], [])
  {
  }

  /** The request of a compaction shows the rows it folds. */
  lemma {:induction false} TranscriptShows(prompts: Prompts, summary: string, rows: seq<Row>, limit: int)
    ensures Shows(Trim(Transcript(prompts.compaction, prompts.previous, summary, rows, prompts.ask), Some(limit)),
                  prompts.compaction, prompts.previous, summary, rows + [Row(UserRow, prompts.ask, NoCalls)], 0, |rows|, [],
                  4 * limit)
  {
    hide Shows, Trim, Preamble;
    var all := rows + [UserMessage(prompts.ask)];
    TrimmedShows(prompts.compaction, prompts.previous, summary, all, 0, |rows|, [], limit);
    ReplayAppend(rows, [UserMessage(prompts.ask)]);
    assert ReplayAll([UserMessage(prompts.ask)]) == [Message(User, prompts.ask, None, [])];
    assert all[0..] == all;
    var h := BuildHistory(prompts.compaction, prompts.previous, summary, all, 0);
    assert h + [] == h == Transcript(prompts.compaction, prompts.previous, summary, rows, prompts.ask);
  }

  /** Every request of a turn on a whole log is legal. */
  lemma TraceIsLegal(s: Setting, rows: seq<Row>, rounds: seq<Round>, requests: seq<Request>,
                     provider: (nat, Request) -> Reply, dispatch: (nat, ToolCall) -> Outcome)
    requires Traced(s, rows, rounds, requests, provider, dispatch)
    requires WholeLog(rows) && Asked(s, rows)
    requires forall i :: 0 <= i < |requests| - 1 ==> AllDispatched(rounds[i])
    ensures forall i :: 0 <= i < |requests| ==> LegalRequest(requests[i].messages)
  {
    hide WholeLog, Asked, LegalRequest, RequestFor, AllDispatched;
    forall i | 0 <= i < |requests| ensures LegalRequest(requests[i].messages) {
      RoundsPrefix(rounds, i);
      WholeRounds(rows, rounds[..i]);
      AskedGrows(s, rows, RowsOf(rounds[..i]));
      RequestIsLegal(s, rows + RowsOf(rounds[..i]), i);
    }
  }

  lemma TraceStarts(s: Setting, rows: seq<Row>,
                    provider: (nat, Request) -> Reply, dispatch: (nat, ToolCall) -> Outcome)
    ensures Traced(s, rows, [], [], provider, dispatch)
    ensures rows + RowsOf([]) == rows && EventsOf([]) == [] && CallsMade([]) == 0
  {
  }

  lemma NoteLacksUser(s: Setting, round: nat)
    ensures !HasRole(Note(s, round), User)
    ensures round != MAX_TOOL_ROUNDS_PER_TURN ==> Note(s, round) == []
  {
  }

  lemma RequestIs(s: Setting, rows: seq<Row>, round: nat)
    ensures RequestFor(s, rows, round)
         == Request(Trim(FullHistory(s, rows) + Note(s, round), Some(s.limit)), s.tools && round != MAX_TOOL_ROUNDS_PER_TURN)
  {
  }

  /** After a round that goes on, the running history is the whole of it up to the last request, trimmed, and
      what the round added. */
  lemma RoundGrows(s: Setting, rows: seq<Row>, r: Round, history: seq<Message>, whole: seq<Message>,
                   growth: seq<Message>)
    requires Asked(s, rows) && RoundOk(r) && HistoryOk(history, FullHistory(s, rows), whole, growth, s.limit)
    ensures var full, added := FullHistory(s, rows), ReplayAll(RoundRows(r));
            && HistoryOk(Trim(full, Some(s.limit)) + added, FullHistory(s, rows + RoundRows(r)), full, added, s.limit)
            && full + [] == full && Asked(s, rows + RoundRows(r))
  {
    hide HistoryOk, RoundRows, FullHistory, Trim;
    AskedGrows(s, rows, RoundRows(r));
    FullGrows(s, rows, RoundRows(r));
    RoundLacksUser(r);
    HistoryGrows(history, FullHistory(s, rows), whole, growth, ReplayAll(RoundRows(r)), s.limit);
  }

  lemma {:induction false} TurnEnds(rounds: seq<Round>, r: Round)
    requires forall i :: 0 <= i < |rounds| ==> GoesOn(rounds[i])
    ensures !GoesOn(r) && (!AllDispatched(r) ==> CallsMade(rounds) + |r.results| == MAX_TOOL_CALLS_PER_TURN)
            ==> Ends(rounds + [r])
  {
    assert (rounds + [r])[..|rounds|] == rounds;
  }

  /** Calls are left undispatched only at the fortieth; otherwise the last round announces none or is the thirteenth. */
  predicate EndsByCapOrAnswer(rounds: seq<Round>) {
    if forall i :: 0 <= i < |rounds| ==> AllDispatched(rounds[i])
    then rounds != [] && (Called(rounds[|rounds| - 1].chunks) == [] || |rounds| == 13)
    else CallsMade(rounds) == 40
  }

  lemma {:induction false} EndsAre(rounds: seq<Round>)
    requires Ends(rounds)
    ensures EndsByCapOrAnswer(rounds)
  {
    hide CallsMade, ReplyCalls;
    ReplyIs(rounds[|rounds| - 1].chunks);
    forall i | 0 <= i < |rounds| - 1 ensures AllDispatched(rounds[i]) {
      assert GoesOn(rounds[..|rounds| - 1][i]);
    }
  }

  lemma TurnEndsAtLast(rounds: seq<Round>)
    requires |rounds| == MAX_TOOL_ROUNDS_PER_TURN + 1 && forall i :: 0 <= i < |rounds| ==> GoesOn(rounds[i])
    ensures Ends(rounds)
  {
  }

  lemma TurnStarts(rows: seq<Row>, content: string, s: Setting,
                   provider: (nat, Request) -> Reply, dispatch: (nat, ToolCall) -> Outcome)
    ensures var all := rows + [UserMessage(content)];
            && Traced(s, all, [], [], provider, dispatch) && all + RowsOf([]) == all && CallsMade([]) == 0
            && (Grounded(rows) ==> Grounded(all)) && (WholeLog(rows) ==> WholeLog(all))
  {
    hide Grounded, WholeLog;
    TraceStarts(s, rows + [UserMessage(content)], provider, dispatch);
    if Grounded(rows) {
      GroundedPlain(rows, UserMessage(content));
    }
    if WholeLog(rows) {
      WholeUser(rows, UserMessage(content));
    }
  }

  lemma StillAsked(s: Setting, rows: seq<Row>, content: string)
    requires s.summarised <= |rows|
    ensures Asked(s, rows + [UserMessage(content)])
  {
    var all := rows + [UserMessage(content)];
    assert ReplayAll(all[s.summarised..])[|rows| - s.summarised].role == User;
  }

  lemma {:induction false} FoldIsOld(rows: seq<Row>, content: string, prompts: Prompts, summary: string, limit: int)
    ensures var all := rows + [UserMessage(content)];
            var fold := |all| - KEEP_VERBATIM_MESSAGES;
            0 <= fold ==>
              && fold < |rows| && all[..fold] == rows[..fold] && all[fold] == rows[fold]
              && (RoomForFolded(prompts.compaction, prompts.previous, summary, all, fold, prompts.ask, limit)
                  <==> RoomForFolded(prompts.compaction, prompts.previous, summary, rows, fold, prompts.ask, limit))
  {
    hide Cost, Preamble, ReplayAll;
    var all := rows + [UserMessage(content)];
    var fold := |all| - KEEP_VERBATIM_MESSAGES;
    if 0 <= fold {
      forall k | 0 <= k < fold ensures all[k..fold] == rows[k..fold] && all[k] == rows[k] {
      }
    }
  }

  lemma {:induction false} TurnLaws(s: Setting, rows: seq<Row>, content: string, rounds: seq<Round>,
                                    requests: seq<Request>,
                 provider: (nat, Request) -> Reply, dispatch: (nat, ToolCall) -> Outcome)
    requires Traced(s, rows + [UserMessage(content)], rounds, requests, provider, dispatch)
    requires Asked(s, rows + [UserMessage(content)])
    requires forall i :: 0 <= i < |requests| - 1 ==> GoesOn(rounds[i])
    ensures RoundsOk(rounds)
    ensures Grounded(rows) ==> Grounded(rows + [UserMessage(content)] + RowsOf(rounds))
    ensures WholeLog(rows) ==> forall i :: 0 <= i < |requests| ==> LegalRequest(requests[i].messages)
    ensures WholeLog(rows) ==> (WholeLog(rows + [UserMessage(content)] + RowsOf(rounds))
                                <==> forall i :: 0 <= i < |rounds| ==> AllDispatched(rounds[i]))
  {
    hide Grounded, WholeLog, Asked, LegalRequest, AllDispatched, RequestFor, RowsOf, Follows;
    var all := rows + [UserMessage(content)];
    TurnStarts(rows, content, s, provider, dispatch);
    if Grounded(rows) {
      GroundedRounds(all, rounds);
    }
    if WholeLog(rows) {
      TraceIsLegal(s, all, rounds, requests, provider, dispatch);
      WholeExactlyWhenDispatched(all, rounds);
    }
  }

  /** What was streamed and done, after at most a notice of compaction, and one end event, last. */
  predicate EndsOnce(events: seq<Event>, rounds: seq<Round>)
    requires RoundsOk(rounds)
  {
    var tail := EventsOf(rounds) + [Done];
    && |tail| <= |events| <= |tail| + 1
    && events[|events| - |tail|..] == tail
    && Done !in events[..|events| - 1]
  }

  lemma {:induction false} EndOnce(opening: seq<Event>, rounds: seq<Round>)
    requires RoundsOk(rounds) && |opening| <= 1 && Done !in opening
    ensures EndsOnce(opening + (EventsOf(rounds) + [Done]), rounds)
  {
    hide EventsOf, RoundsOk;
    NoDone(rounds);
    var tail := EventsOf(rounds) + [Done];
    assert (opening + tail)[..|opening + tail| - 1] == opening + EventsOf(rounds);
  }

  // ---- The service ----

  class AssistantChatService {
    const prompts: Prompts
    const contextLimitTokens: int
    const limitOverride: Option<int>
    const supportsTools: bool
    /** The rows of the session, in sequence order. */
    var log: seq<Row>
    /** The summary of the rows folded away; empty when there is none. */
    var summary: string
    var summarised: nat

    constructor (prompts: Prompts, contextLimitTokens: int, limitOverride: Option<int>, supportsTools: bool)
      ensures Valid() && log == [] && summary == "" && summarised == 0
    {
      this.prompts := prompts;
      this.contextLimitTokens := contextLimitTokens;
      this.limitOverride := limitOverride;
      this.supportsTools := supportsTools;
      log, summary, summarised := [], "", 0;
    }

    /** The newest six rows are never folded away. */
    ghost predicate Valid()
      reads this
    {
      summarised == 0 || summarised + KEEP_VERBATIM_MESSAGES <= |log|
    }

    /** An override of zero counts as none. */
    function Budget(): (tokens: int)
      ensures (limitOverride == None || limitOverride == Some(0)) ==> tokens == contextLimitTokens
      ensures forall n :: limitOverride == Some(n) && n != 0 ==> tokens == n
    {
      if limitOverride.Some? && limitOverride.value != 0 then limitOverride.value else contextLimitTokens
    }

    function Here(): Setting
      reads this
    {
      Setting(prompts, summary, summarised, Budget(), supportsTools)
    }

    /** More than four fifths of the budget is in use. */
    method NeedsCompaction() returns (needed: bool)
      ensures needed <==> Cost(FullHistory(Here(), log)) * 5 > Budget() * CHARS_PER_TOKEN * 4
    {
      var used := TotalLength(FullHistory(Here(), log));
      needed := used * 5 > Budget() * CHARS_PER_TOKEN * 4;
    }

    static method ReadStream(chunks: seq<Chunk>) returns (text: string, calls: seq<ToolCall>, events: seq<Event>)
      ensures text == ReplyText(chunks) && calls == ReplyCalls(chunks) && events == TokenEvents(chunks)
    {
      text, calls, events := "", [], [];
      for k := 0 to |chunks|
        invariant text == ReplyText(chunks[..k]) && calls == ReplyCalls(chunks[..k]) && events == TokenEvents(chunks[..k])
      {
        var chunk := chunks[k];
        assert chunks[..k + 1][..k] == chunks[..k];
        if chunk.Token? && chunk.text != "" {
          text := text + chunk.text;
          events := events + [TokenEvent(chunk.text)];
        } else if chunk.Call? {
          calls := calls + [chunk.call];
        }
      }
      assert chunks[..|chunks|] == chunks;
    }

    /** Folds everything but the newest rows into a summary. Nothing changes unless there is something new to
        fold and the provider returns some text; then the count grows to exactly what was folded. */
    method Compact(summariser: seq<Message> -> Reply)
      returns (outcome: Option<string>, sent: Option<seq<Message>>, raised: bool)
      requires Valid()
      modifies this`summary, this`summarised
      ensures Valid()
      ensures outcome.Some? ==> && summary == outcome.value && summary != ""
                                && summarised == |log| - KEEP_VERBATIM_MESSAGES > old(summarised)
      ensures outcome.None? ==> summary == old(summary) && summarised == old(summarised)
      ensures sent.Some? <==> |log| - KEEP_VERBATIM_MESSAGES > old(summarised)
      ensures sent.Some? ==>
                && var fold := |log| - KEEP_VERBATIM_MESSAGES;
                   var reply := summariser(sent.value);
                   && sent.value == Trim(Transcript(prompts.compaction, prompts.previous, old(summary), log[..fold],
                                                    prompts.ask), Some(Budget()))
                   && raised == reply.fails
                   && (outcome.Some? <==> !reply.fails && Text.Strip(ReplyText(reply.chunks)) != "")
                   && (outcome.Some? ==> outcome.value == Text.Strip(ReplyText(reply.chunks)))
                   && (WholeLog(log) ==>
                         (LegalRequest(sent.value) <==>
                            || log[fold].role != ToolRow
                            || !RoomForFolded(prompts.compaction, prompts.previous, old(summary), log, fold, prompts.ask,
                                              Budget())))
      ensures sent.None? ==> !raised && outcome.None?
      // what is sent, in terms of the rows
      ensures sent.Some? ==>
                && |log| > 6
                && Shows(sent.value, prompts.compaction, prompts.previous, old(summary),
                         log[..|log| - 6] + [Row(UserRow, prompts.ask, NoCalls)], 0, |log| - 6, [], 4 * Budget())
    {
      hide Trim, WholeLog, Legal, RoomForFolded, Shows;
      outcome, sent, raised := None, None, false;
      var fold := |log| - KEEP_VERBATIM_MESSAGES;
      if fold <= summarised {
        return;
      }
      var transcript := Transcript(prompts.compaction, prompts.previous, summary, log[..fold], prompts.ask);
      var request := TrimToContextLimit(transcript, Some(Budget()));
      sent := Some(request);
      TranscriptShows(prompts, summary, log[..fold], Budget());
      if WholeLog(log) {
        CompactionLegality(prompts.compaction, prompts.previous, summary, log, fold, prompts.ask, Budget());
      }
      var reply := summariser(request);
      if reply.fails {
        raised := true;
        return;
      }
      var text, _, _ := ReadStream(reply.chunks);
      text := Text.Strip(text);
      if text == "" {
        return;
      }
      summary, summarised := text, fold;
      outcome := Some(text);
    }

    /** Dispatches announced calls in order, storing each result, up to the cap of the turn. */
    method DispatchCalls(calls: seq<ToolCall>, made: nat, dispatch: (nat, ToolCall) -> Outcome)
      returns (results: seq<Outcome>, events: seq<Event>, capped: bool, raised: bool)
      requires made <= MAX_TOOL_CALLS_PER_TURN
      modifies this`log
      ensures Dispatched(calls, results, made, dispatch)
      ensures made + |results| <= MAX_TOOL_CALLS_PER_TURN
      ensures log == old(log) + ToolRows(calls, results)
      ensures capped ==> !raised && |results| < |calls| && made + |results| == MAX_TOOL_CALLS_PER_TURN
      ensures raised ==> |results| < |calls| && dispatch(made + |results|, calls[|results|]).Escapes?
      ensures !capped && !raised ==> |results| == |calls|
      ensures !raised ==> events == ToolEvents(calls, results)
      ensures Done !in events
    {
      hide ToolEvents, ToolRows;
      results, events, capped, raised := [], [], false, false;
      NoToolsYet(calls);
      for k := 0 to |calls|
        invariant |results| == k && made + k <= MAX_TOOL_CALLS_PER_TURN
        invariant Dispatched(calls, results, made, dispatch)
        invariant log == old(log) + ToolRows(calls, results)
        invariant events == ToolEvents(calls, results) && Done !in events
      {
        if made + k + 1 > MAX_TOOL_CALLS_PER_TURN {
          capped := true;
          return;
        }
        var call := calls[k];
        events := events + [ToolCallEvent(call.name, call.arguments)];
        var outcome := dispatch(made + k, call);
        if outcome.Escapes? {
          raised := true;
          return;
        }
        ToolStep(calls, results, outcome);
        events := events + [ResultEvent(call, outcome)];
        results := results + [outcome];
        log := log + [Row(ToolRow, outcome.text, Answers(Some(call.id)))];
      }
    }

    static lemma NoToolsYet(calls: seq<ToolCall>)
      ensures ToolRows(calls, []) == [] && ToolEvents(calls, []) == []
    {
    }

    static lemma {:induction false} ToolStep(calls: seq<ToolCall>, results: seq<Outcome>, outcome: Outcome)
      requires |results| < |calls| && outcome.Payload?
      ensures var more := results + [outcome];
              var call := calls[|results|];
              && ToolRows(calls, more)
                 == ToolRows(calls, results) + [Row(ToolRow, outcome.text, Answers(Some(call.id)))]
              && ToolEvents(calls, more)
                 == ToolEvents(calls, results) + [ToolCallEvent(call.name, call.arguments)] + [ResultEvent(call, outcome)]
    {
      assert (results + [outcome])[..|results|] == results;
    }

    static lemma PlayedRound(r: Round)
      requires RoundOk(r)
      ensures var text, calls := ReplyText(r.chunks), ReplyCalls(r.chunks);
              && RoundRows(r) == AssistantRows(text, calls) + ToolRows(calls, r.results)
              && RoundEvents(r) == TokenEvents(r.chunks) + ToolEvents(calls, r.results)
    {
    }

    /** Streams one round, stores the reply and dispatches what it announced. */
    method PlayRound(reply: Reply, made: nat, dispatch: (nat, ToolCall) -> Outcome)
      returns (round: Round, added: seq<Message>, events: seq<Event>, stop: bool, raised: bool)
      requires made <= MAX_TOOL_CALLS_PER_TURN && !reply.fails
      modifies this`log
      ensures round.chunks == reply.chunks
      ensures Dispatched(ReplyCalls(reply.chunks), round.results, made, dispatch)
      ensures made + |round.results| <= MAX_TOOL_CALLS_PER_TURN
      ensures log == old(log) + RoundRows(round) && added == ReplayAll(RoundRows(round))
      ensures !raised ==> events == RoundEvents(round)
      ensures Done !in events
      ensures raised ==> !AllDispatched(round)
                         && dispatch(made + |round.results|, ReplyCalls(reply.chunks)[|round.results|]).Escapes?
      ensures !raised ==> (stop <==> !GoesOn(round))
      ensures !raised && !AllDispatched(round) ==> made + |round.results| == MAX_TOOL_CALLS_PER_TURN
    {
      hide ReplyCalls, ReplyText, TokenEvents, ToolEvents, ToolRows, AssistantRows, RoundRows, RoundEvents;
      var text, calls, tokens := ReadStream(reply.chunks);
      NoDoneInTokens(reply.chunks);
      log := log + AssistantRows(text, calls);
      var results, toolEvents, capped, escaped := DispatchCalls(calls, made, dispatch);
      round := Round(reply.chunks, results);
      PlayedRound(round);
      assert old(log) + AssistantRows(text, calls) + ToolRows(calls, results)
          == old(log) + (AssistantRows(text, calls) + ToolRows(calls, results));
      added := ReplayAll(AssistantRows(text, calls) + ToolRows(calls, results));
      events, stop, raised := tokens + toolEvents, calls == [] || capped, escaped;
    }

    /** The rounds of a turn. */
    method AnswerRounds(provider: (nat, Request) -> Reply, dispatch: (nat, ToolCall) -> Outcome)
      returns (events: seq<Event>, requests: seq<Request>, raised: bool, rounds: seq<Round>)
      requires Asked(Here(), log)
      modifies this`log
      ensures Traced(Here(), old(log), rounds, requests, provider, dispatch)
      ensures log == old(log) + RowsOf(rounds)
      ensures |requests| <= MAX_TOOL_ROUNDS_PER_TURN + 1 && CallsMade(rounds) <= MAX_TOOL_CALLS_PER_TURN
      ensures forall i :: 0 <= i < |requests| - 1 ==> GoesOn(rounds[i])
      ensures !raised ==> |requests| == |rounds| && Ends(rounds) && events == EventsOf(rounds) + [Done]
      ensures raised ==> Done !in events
      ensures raised && |requests| == |rounds| ==> rounds != [] && !AllDispatched(rounds[|rounds| - 1])
      ensures raised && |requests| > |rounds| ==> provider(|rounds|, requests[|rounds|]).fails
    {
      hide Asked, FullHistory, HistoryOk, Traced, RowsOf, EventsOf, RoundRows, RoundEvents, CallsMade, GoesOn, Trim;
      hide ReplyCalls, AllDispatched, RequestFor, HasRole, Ends, RoundsOk;
      ghost var s := Here();
      events, requests, raised, rounds := [], [], false, [];
      TraceStarts(s, log, provider, dispatch);
      HistoryStarts(s, log);
      ghost var whole, growth: seq<Message> := FullHistory(s, log), [];
      var history := TrimToContextLimit(FullHistory(Here(), log), Some(Budget()));
      var made := 0;
      for round := 0 to MAX_TOOL_ROUNDS_PER_TURN + 1
        invariant |rounds| == |requests| == round && made == CallsMade(rounds) <= MAX_TOOL_CALLS_PER_TURN
        invariant Traced(s, old(log), rounds, requests, provider, dispatch) && RoundsOk(rounds)
        invariant log == old(log) + RowsOf(rounds)
        invariant events == EventsOf(rounds) && Done !in events
        invariant forall i :: 0 <= i < |rounds| ==> GoesOn(rounds[i])
        invariant s == Here() && Asked(s, log)
        invariant round <= MAX_TOOL_ROUNDS_PER_TURN ==> HistoryOk(history, FullHistory(s, log), whole, growth, s.limit)
      {
        ghost var rows, full := log, FullHistory(s, log);
        var note := if round == MAX_TOOL_ROUNDS_PER_TURN then [SystemMessage(prompts.spent)] else [];
        NoteLacksUser(s, round);
        HistoryTrims(history, full, whole, growth, note, s.limit);
        ghost var before := history;
        history := TrimToContextLimit(history + note, Some(Budget()));
        var request := Request(history, supportsTools && round != MAX_TOOL_ROUNDS_PER_TURN);
        RequestIs(s, rows, round);
        var reply := provider(round, request);
        if reply.fails {
          var _, _, tokens := ReadStream(reply.chunks);
          NoDoneInTokens(reply.chunks);
          TraceFault(s, old(log), rounds, requests, request, provider, dispatch);
          events, requests, raised := events + tokens, requests + [request], true;
          return;
        }
        var r, added, more, stop, escaped := PlayRound(reply, made, dispatch);
        TraceStep(s, old(log), rounds, requests, r, request, provider, dispatch);
        TurnEnds(rounds, r);
        rounds, requests, events := rounds + [r], requests + [request], events + more;
        if escaped {
          raised := true;
          return;
        }
        if stop {
          events := events + [Done];
          return;
        }
        made := made + |r.results|;
        RoundGrows(s, rows, r, before, whole, growth);
        whole, growth, history := full, added, history + added;
      }
      TurnEndsAtLast(rounds);
      events := events + [Done];
    }

    /** One user turn, for every provider and every tool, whatever they do. */
    method HandleUserMessage(content: string, summariser: seq<Message> -> Reply,
                             provider: (nat, Request) -> Reply, dispatch: (nat, ToolCall) -> Outcome)
      returns (events: seq<Event>, requests: seq<Request>, raised: bool, rounds: seq<Round>, folding: Option<seq<Message>>)
      requires Valid()
      modifies this
      ensures Valid()
      // what is stored, and what was asked
      ensures Traced(Here(), old(log) + [UserMessage(content)], rounds, requests, provider, dispatch)
      ensures log == old(log) + [Row(UserRow, content, NoCalls)] + RowsOf(rounds)
      // bounds
      ensures |requests| <= 13 && CallsMade(rounds) <= 40
      // what every request holds: the last one a note, and no tools
      ensures AllShow(prompts, summary, summarised, supportsTools, 4 * Budget(), old(log), content, rounds, requests)
      ensures folding.Some? ==> FoldingShows(prompts, old(summary), 4 * Budget(), old(log), folding.value)
      // how it ends: without an error there is exactly one end event and it comes last
      ensures forall i :: 0 <= i < |requests| - 1 ==> GoesOn(rounds[i])
      ensures !raised ==> |requests| == |rounds| && Ends(rounds)
      ensures !raised ==> EndsByCapOrAnswer(rounds)
      ensures !raised ==> EndsOnce(events, rounds)
      ensures raised ==> Done !in events
      // pairing of calls and results
      ensures Grounded(old(log)) ==> Grounded(log)
      ensures WholeLog(old(log)) ==> forall i :: 0 <= i < |requests| ==> LegalRequest(requests[i].messages)
      ensures WholeLog(old(log)) ==> (WholeLog(log) <==> forall i :: 0 <= i < |rounds| ==> AllDispatched(rounds[i]))
      // folding
      ensures summarised != old(summarised)
              ==> summarised == |old(log)| + 1 - KEEP_VERBATIM_MESSAGES > old(summarised) && summary != ""
      ensures summarised == old(summarised) ==> summary == old(summary)
      ensures folding.Some? <==>
              && |old(log)| + 1 - KEEP_VERBATIM_MESSAGES > old(summarised)
              && Cost(FullHistory(old(Here()), old(log) + [UserMessage(content)])) * 5 > Budget() * CHARS_PER_TOKEN * 4
      ensures folding.Some? && WholeLog(old(log)) ==>
                && var fold := |old(log)| + 1 - KEEP_VERBATIM_MESSAGES;
                   && fold < |old(log)|
                   && (LegalRequest(folding.value) <==>
                         || old(log)[fold].role != ToolRow
                         || !RoomForFolded(prompts.compaction, prompts.previous, old(summary), old(log), fold,
                                           prompts.ask, Budget()))
    {
      hide Traced, RowsOf, EventsOf, CallsMade, GoesOn, Ends, Grounded, WholeLog, LegalRequest, AllDispatched, Asked;
      hide RoomForFolded, Cost, FullHistory, Trim, Transcript, EndsOnce, RoundsOk, Shows, ReplyCalls, ReplayAll;
      hide AllShow, EndsByCapOrAnswer;
      events, requests, raised, rounds, folding := [], [], false, [], None;
      ghost var before := log;
      log := log + [UserMessage(content)];
      ghost var asked := log;
      TurnStarts(before, content, Here(), provider, dispatch);
      var needed := NeedsCompaction();
      if needed {
        var outcome;
        outcome, folding, raised := Compact(summariser);
        FoldIsOld(before, content, prompts, old(summary), Budget());
        if raised {
          TurnStarts(before, content, Here(), provider, dispatch);
          NothingSent(Here(), before, content);
          return;
        }
        if outcome.Some? {
          events := [Compacted(outcome.value, summarised)];
        }
      }
      ghost var opening := events;
      StillAsked(Here(), before, content);
      var more;
      more, requests, raised, rounds := AnswerRounds(provider, dispatch);
      events := events + more;
      TurnLaws(Here(), before, content, rounds, requests, provider, dispatch);
      RequestsShow(Here(), before, content, rounds, requests, provider, dispatch);
      if !raised {
        EndOnce(opening, rounds);
        EndsAre(rounds);
      }
    }
  }
}
