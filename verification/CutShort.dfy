/** After a turn cut short by the call cap: when the requests of the next turns are legal, whatever the budget. */
module CutShort {
  import opened Wrappers
  import opened Conversation
  import opened Replay
  import opened ReplayLaws
  import opened TrimLaws
  import opened Pairing
  import opened Chat
  import opened ChatService

  /** An announcement and some of its answers, but not all. */
  predicate IsBroken(ms: seq<Message>) {
    && ms != [] && ms[0].role == Assistant && |ms| - 1 < |ms[0].toolCalls|
    && AllTools(ms[1..])
  }

  predicate AllTools(ms: seq<Message>) {
    forall i :: 0 <= i < |ms| ==> ms[i].role == Tool
  }

  // ---- Cuts around the break ----

  lemma {:induction false} DropInFront(ms: seq<Message>, rest: seq<Message>)
    requires rest != [] && rest[0].role != Tool
    ensures DropOrphans(ms + rest) == DropOrphans(ms) + rest
  {
    if ms == [] {
      assert ms + rest == rest;
    } else if ms[0].role == Tool {
      assert (ms + rest)[1..] == ms[1..] + rest;
      DropInFront(ms[1..], rest);
    }
  }

  /** A cut behind the announcement heals: the answers that lead are dropped. */
  lemma {:induction false} CutBehindBreak(tools: seq<Message>, back: seq<Message>, k: nat)
    requires AllTools(tools) && Answered(back) && k <= |tools| + |back|
    ensures Answered(DropOrphans((tools + back)[k..]))
  {
    hide Answered, DropOrphans;
    if k >= |tools| {
      CutIsHealed(back, k - |tools|);
      assert (tools + back)[k..] == back[k - |tools|..];
    } else {
      assert (tools + back)[k..] == tools[k..] + back;
      DropAfterTools(tools[k..], back);
      CutIsHealed(back, 0);
      assert back[0..] == back;
    }
  }

  lemma {:induction false} BrokenIsNotAnswered(broken: seq<Message>, back: seq<Message>)
    requires IsBroken(broken) && Answered(back)
    ensures !Answered(broken + back)
  {
    hide Answered;
    var ms := broken + back;
    ByExchange(ms);
    if OpensWell(ms) {
      ExchangeIsTools(ms, |broken|);
      AnsweredOpens(back);
    }
  }

  /** A cut in front of it keeps the break. */
  lemma {:induction false} CutBeforeBreak(front: seq<Message>, broken: seq<Message>, back: seq<Message>, k: nat)
    requires Answered(front) && IsBroken(broken) && Answered(back) && k <= |front|
    ensures !Answered(DropOrphans((front + broken + back)[k..]))
  {
    hide Answered, DropOrphans;
    var rest := broken + back;
    assert (front + broken + back)[k..] == front[k..] + rest;
    DropInFront(front[k..], rest);
    CutIsHealed(front, k);
    AnsweredAppend(DropOrphans(front[k..]), rest);
    BrokenIsNotAnswered(broken, back);
  }

  // ---- What is kept ----

  lemma {:induction false} TurnIsWhole(turn: seq<Message>, base: int, budget: int)
    requires Answered(turn)
    ensures |KeptTurn(base, turn, budget)| == |turn| <==> Carries(turn, 0, base, budget)
    ensures |KeptTurn(base, turn, budget)| == |turn| ==> KeptTurn(base, turn, budget) == turn
  {
    hide Fit, DropOrphans, Answered, Cost;
    FitIsLongest(turn, base, budget);
    DropOrphansIsSuffix(Fit(turn, base, budget));
    NothingToDrop(turn);
    assert turn[0..] == turn;
    var k := |turn| - |Fit(turn, base, budget)|;
    if Carries(turn, 0, base, budget) {
      assert k == 0;
    }
  }

  /** What is kept of the earlier messages answers its calls exactly when the break and everything behind it do not
      fit. A summary may have folded what is before `front`. */
  lemma {:induction false} KeptExactlyWhenBroken(before: seq<Message>, front: seq<Message>, broken: seq<Message>,
                                                 back: seq<Message>, turn: seq<Message>, base: int, budget: int)
    requires Answered(before + front) && IsBroken(broken) && Answered(back) && Answered(turn)
    ensures Answered(KeptEarlier(base, front + broken + back, turn, budget))
       <==> base + Cost(turn) + Cost(broken + back) > budget
  {
    hide Fit, DropOrphans, Answered, Cost, KeptTurn, IsBroken;
    var log := front + broken + back;
    var kept := KeptTurn(base, turn, budget);
    NotNothing(broken);
    assert turn[0..] == turn && log[|front|..] == broken + back;
    TurnIsWhole(turn, base, budget);
    NothingCosts();
    if |kept| == |turn| {
      var used := base + Cost(turn);
      var k := |log| - |Fit(log, used, budget)|;
      FitIsLongest(log, used, budget);
      if k <= |front| {
        LaterCarries(log, k, |front|, used, budget);
        CutBeforeBreak(before + front, broken, back, |before| + k);
        assert (before + front + broken + back)[|before| + k..] == log[k..];
      } else {
        assert !Carries(log, |front|, used, budget);
        BehindAnnouncement(front, broken, back, k);
      }
    } else {
      NothingIsAnswered([]);
    }
  }

  lemma {:induction false} NotNothing(broken: seq<Message>)
    requires IsBroken(broken)
    ensures broken != []
  {
  }

  lemma {:induction false} BehindAnnouncement(front: seq<Message>, broken: seq<Message>, back: seq<Message>, k: nat)
    requires IsBroken(broken) && Answered(back) && |front| < k <= |front| + |broken| + |back|
    ensures Answered(DropOrphans((front + broken + back)[k..]))
  {
    hide Answered, DropOrphans;
    var tools := broken[1..];
    assert (front + broken + back)[k..] == (tools + back)[k - |front| - 1..];
    CutBehindBreak(tools, back, k - |front| - 1);
  }

  /** The same where the summary has already folded the announcement: only answers and what is behind them are left. */
  lemma {:induction false} KeptBehindBreak(tools: seq<Message>, back: seq<Message>, turn: seq<Message>, base: int,
                                           budget: int)
    requires AllTools(tools) && Answered(back)
    ensures Answered(KeptEarlier(base, tools + back, turn, budget))
  {
    hide Fit, DropOrphans, Answered, KeptTurn;
    var log, used := tools + back, base + Cost(KeptTurn(base, turn, budget));
    FitIsSuffix(log, used, budget);
    CutBehindBreak(tools, back, |log| - |Fit(log, used, budget)|);
    NothingIsAnswered([]);
  }

  // ---- The request ----

  /** A request is legal exactly when what it keeps of the earlier messages answers its calls. */
  lemma {:induction false} LegalExactlyWhenKept(pinned: seq<Message>, earlier: seq<Message>, request: Message,
                                                turn: seq<Message>, limit: int)
    requires Splits(pinned, earlier, request, turn) && !HasRole(earlier, System)
    requires Answered(turn) && Substantial(earlier) && Substantial(turn)
    ensures LegalRequest(Trim(Assemble(pinned, earlier, request, turn), Some(limit)))
       <==> Answered(KeptEarlier(Cost(pinned) + |request.content|, earlier, turn, limit * CHARS_PER_TOKEN))
  {
    hide Trim, KeptEarlier, KeptTurn, Convert, Legal, Answered, NonSystem, Substantial, HasRole;
    var base, budget := Cost(pinned) + |request.content|, limit * CHARS_PER_TOKEN;
    var e, t := KeptEarlier(base, earlier, turn, budget), KeptTurn(base, turn, budget);
    TrimOfSplit(pinned, earlier, request, turn, limit);
    WindowIs(pinned, earlier, request, turn, budget);
    assert Trim(Assemble(pinned, earlier, request, turn), Some(limit)) == pinned + (e + [request] + t);
    KeptIsSubstantial(earlier, request, turn, base, budget);
    NonSystemIsSubstantial(e + [request] + t);
    KeptEarlierIsSuffix(base, earlier, turn, budget);
    SuffixLacksRole(earlier, |earlier| - |e|, System);
    NonSystemAppend(pinned, e + [request] + t);
    NonSystemOfSystems(pinned);
    NonSystemAppend(e + [request], t);
    NonSystemAppend(e, [request]);
    NonSystemKeepsAll(e);
    assert NonSystem([request]) == [request] by { RequestStays(request); }
    KeptTurnIsAnswered(base, turn, budget);
    NonSystemIsAnswered(t);
    AroundRequest(e, request, NonSystem(t));
    assert [] + NonSystem(e + [request] + t) == NonSystem(e + [request] + t);
    LegalExactlyWhenAnswered(NonSystem(e + [request] + t));
  }

  lemma {:induction false} RequestStays(request: Message)
    requires request.role == User
    ensures NonSystem([request]) == [request]
  {
  }

  lemma {:induction false} AroundRequest(e: seq<Message>, request: Message, t: seq<Message>)
    requires request.role == User && Answered(t)
    ensures Answered(e + [request] + t) <==> Answered(e)
  {
    hide Answered;
    if Answered(e) {
      AnsweredBehindUser(request, t);
      AnsweredAppend(e, [request] + t);
      assert e + [request] + t == e + ([request] + t);
    }
    if Answered(e + [request] + t) {
      AnsweredAroundUser(e, request, t);
    }
  }

  // ---- From stored rows ----

  lemma {:induction false} CutRoundIsBroken(r: Round)
    requires RoundOk(r) && !AllDispatched(r)
    ensures IsBroken(ReplayAll(RoundRows(r)))
  {
    hide ReplyText, ReplyCalls;
    var ms := ReplayAll(RoundRows(r));
    assert ms[0] == Message(Assistant, ReplyText(r.chunks), None, ReplyCalls(r.chunks));
  }

  /** The rows of the turn now going on: the request, and the rounds so far. */
  function TurnRows(content: string, rounds: seq<Round>): seq<Row>
    requires RoundsOk(rounds)
  {
    [UserMessage(content)] + RowsOf(rounds)
  }

  /** The cut-short round and everything behind it, with the pinned messages and the note of the round. */
  function FromTheBreak(s: Setting, rows: seq<Row>, round: nat): seq<Message> {
    Preamble(s.prompts.instructions, s.prompts.folded, s.summary) + ReplayAll(rows) + Note(s, round)
  }

  lemma {:induction false} RoundsLackUser(rounds: seq<Round>)
    requires RoundsOk(rounds)
    ensures !HasRole(ReplayAll(RowsOf(rounds)), User)
    decreases |rounds|
  {
    hide HasRole, RoundRows;
    if rounds == [] {
      NoRows();
    } else {
      var front, last := rounds[..|rounds| - 1], rounds[|rounds| - 1];
      RoundsLackUser(front);
      RoundLacksUser(last);
      ReplayAppend(RowsOf(front), RoundRows(last));
      AppendLacksRole(ReplayAll(RowsOf(front)), ReplayAll(RoundRows(last)), User);
    }
  }

  lemma {:induction false} NoRows()
    ensures ReplayAll([]) == [] && !HasRole([], User) && WholeLog([])
  {
  }

  /** The parts of a later request: what was said before it, the request, and its rounds with the note. */
  lemma {:induction false} LaterParts(s: Setting, rows: seq<Row>, content: string, rounds: seq<Round>, round: nat)
    requires RoundsOk(rounds) && s.summarised <= |rows| && forall i :: 0 <= i < |rounds| ==> AllDispatched(rounds[i])
    ensures var pinned := Preamble(s.prompts.instructions, s.prompts.folded, s.summary);
            var earlier, request := ReplayAll(rows[s.summarised..]), Message(User, content, None, []);
            var turn := ReplayAll(RowsOf(rounds)) + Note(s, round);
            && FullHistory(s, rows + TurnRows(content, rounds)) + Note(s, round)
               == Assemble(pinned, earlier, request, turn)
            && Splits(pinned, earlier, request, turn) && !HasRole(earlier, System)
            && Answered(turn) && Substantial(turn)
  {
    hide Answered, Substantial, HasRole, Preamble, RowsOf, ReplayAll, Note, FullHistory, AllDispatched;
    LaterHistory(s, rows, content, rounds);
    TurnIsAnswered(s, rounds, round);
    ReplayLacksSystem(rows[s.summarised..]);
    PreambleIsSystem(s.prompts.instructions, s.prompts.folded, s.summary);
    FirstIsNoSystem(ReplayAll(rows[s.summarised..]));
  }

  lemma {:induction false} LaterHistory(s: Setting, rows: seq<Row>, content: string, rounds: seq<Round>)
    requires RoundsOk(rounds) && s.summarised <= |rows|
    ensures var pinned := Preamble(s.prompts.instructions, s.prompts.folded, s.summary);
            var earlier, request := ReplayAll(rows[s.summarised..]), Message(User, content, None, []);
            FullHistory(s, rows + TurnRows(content, rounds))
            == Assemble(pinned, earlier, request, ReplayAll(RowsOf(rounds)))
  {
    hide Preamble, RowsOf;
    var kept, more := rows[s.summarised..], TurnRows(content, rounds);
    assert (rows + more)[s.summarised..] == kept + more;
    ReplayAppend(kept, more);
    ReplayAppend([UserMessage(content)], RowsOf(rounds));
    ReplayOfUser(content);
    hide ReplayAll;
    var m := [Message(User, content, None, [])];
    assert ReplayAll(kept) + (m + ReplayAll(RowsOf(rounds))) == ReplayAll(kept) + m + ReplayAll(RowsOf(rounds));
  }

  lemma {:induction false} ReplayOfUser(content: string)
    ensures ReplayAll([UserMessage(content)]) == [Message(User, content, None, [])]
  {
  }

  lemma {:induction false} TurnIsAnswered(s: Setting, rounds: seq<Round>, round: nat)
    requires RoundsOk(rounds) && forall i :: 0 <= i < |rounds| ==> AllDispatched(rounds[i])
    ensures var turn := ReplayAll(RowsOf(rounds)) + Note(s, round);
            Answered(turn) && Substantial(turn) && !HasRole(turn, User)
  {
    hide Answered, Substantial, HasRole, RowsOf, ReplayAll, AllDispatched;
    var turn := ReplayAll(RowsOf(rounds));
    RoundsAreWhole(rounds);
    RoundsLackUser(rounds);
    NotesAreAnswered(turn, Note(s, round));
    NotesAreSubstantial(turn, Note(s, round));
    NoteLacksUser(s, round);
    AppendLacksRole(turn, Note(s, round), User);
  }

  lemma {:induction false} FirstIsNoSystem(ms: seq<Message>)
    requires !HasRole(ms, System)
    ensures ms != [] ==> ms[0].role != System
  {
  }

  lemma {:induction false} RoundsAreWhole(rounds: seq<Round>)
    requires RoundsOk(rounds) && forall i :: 0 <= i < |rounds| ==> AllDispatched(rounds[i])
    ensures Answered(ReplayAll(RowsOf(rounds))) && Substantial(ReplayAll(RowsOf(rounds)))
  {
    hide RowsOf, Answered, Substantial, ReplayAll;
    NoRows();
    WholeRounds([], rounds);
    assert [] + RowsOf(rounds) == RowsOf(rounds);
  }

  /** A round was cut short by the call cap, and any whole turns came after it. Then a request of a later turn, in
      whichever round, is legal exactly when the summary has folded the announcement, or the budget has no room for the
      cut-short round and everything behind it. */
  lemma {:induction false} CutShortLegality(s: Setting, front: seq<Row>, r: Round, back: seq<Row>, content: string,
                                            rounds: seq<Round>, round: nat)
    requires WholeLog(front) && RoundOk(r) && !AllDispatched(r) && WholeLog(back)
    requires RoundsOk(rounds) && forall i :: 0 <= i < |rounds| ==> AllDispatched(rounds[i])
    requires s.summarised <= |front| + |RoundRows(r)| + |back|
    ensures LegalRequest(RequestFor(s, front + RoundRows(r) + back + TurnRows(content, rounds), round).messages)
       <==> || s.summarised > |front|
            || Cost(FromTheBreak(s, RoundRows(r) + back + TurnRows(content, rounds), round)) > s.limit * CHARS_PER_TOKEN
  {
    hide LegalRequest, RequestFor, Answered, Cost, Substantial, KeptEarlier, HasRole, Preamble, RoundRows, RowsOf;
    hide Trim, WholeLog, IsBroken, FullHistory, ReplayAll;
    var log := front + RoundRows(r) + back;
    var pinned := Preamble(s.prompts.instructions, s.prompts.folded, s.summary);
    var earlier, request := ReplayAll(log[s.summarised..]), Message(User, content, None, []);
    var turn := ReplayAll(RowsOf(rounds)) + Note(s, round);
    LaterParts(s, log, content, rounds, round);
    LogIsSubstantial(front, r, back, s.summarised);
    LegalExactlyWhenKept(pinned, earlier, request, turn, s.limit);
    RequestIs(s, log + TurnRows(content, rounds), round);
    var base, budget := Cost(pinned) + |content|, s.limit * CHARS_PER_TOKEN;
    CutRoundIsBroken(r);
    if s.summarised > |front| {
      EarlierBehindBreak(front, r, back, s.summarised, turn, base, budget);
    } else {
      EarlierWithBreak(front, r, back, s.summarised, turn, base, budget);
      CostFromTheBreak(s, RoundRows(r) + back, content, rounds, round);
      ReplayAppend(RoundRows(r), back);
    }
  }

  lemma {:induction false} LogIsSubstantial(front: seq<Row>, r: Round, back: seq<Row>, k: nat)
    requires WholeLog(front) && RoundOk(r) && WholeLog(back) && k <= |front| + |RoundRows(r)| + |back|
    ensures Substantial(ReplayAll((front + RoundRows(r) + back)[k..]))
  {
    hide Substantial, Answered, RoundRows, ReplayAll;
    var log := front + RoundRows(r) + back;
    RoundIsSubstantial(r);
    ReplayAppend(front, RoundRows(r));
    ReplayAppend(front + RoundRows(r), back);
    SubstantialAppend(ReplayAll(front), ReplayAll(RoundRows(r)));
    SubstantialAppend(ReplayAll(front) + ReplayAll(RoundRows(r)), ReplayAll(back));
    ReplaySplit(log, k);
    SubstantialAppend(ReplayAll(log[..k]), ReplayAll(log[k..]));
  }

  lemma {:induction false} EarlierBehindBreak(front: seq<Row>, r: Round, back: seq<Row>, k: nat, turn: seq<Message>,
                                              base: int, budget: int)
    requires RoundOk(r) && IsBroken(ReplayAll(RoundRows(r))) && WholeLog(back)
    requires |front| < k <= |front| + |RoundRows(r)| + |back|
    ensures Answered(KeptEarlier(base, ReplayAll((front + RoundRows(r) + back)[k..]), turn, budget))
  {
    hide Answered, KeptEarlier, RoundRows;
    var log := front + RoundRows(r) + back;
    var tools := ReplayAll(RoundRows(r))[1..];
    var j := k - |front| - 1;
    if j <= |tools| {
      assert ReplayAll(log[k..]) == tools[j..] + ReplayAll(back);
      KeptBehindBreak(tools[j..], ReplayAll(back), turn, base, budget);
    } else {
      assert ReplayAll(log[k..]) == ReplayAll(back)[j - |tools|..];
      KeptOfCut(ReplayAll(back), j - |tools|, turn, base, budget);
    }
  }

  lemma {:induction false} KeptOfCut(back: seq<Message>, k: nat, turn: seq<Message>, base: int, budget: int)
    requires Answered(back) && k <= |back|
    ensures Answered(KeptEarlier(base, back[k..], turn, budget))
  {
    hide Answered, KeptEarlier;
    assert back == back[..k] + back[k..];
    KeptEarlierIsAnswered(back[..k], base, back[k..], turn, budget);
  }

  lemma {:induction false} CostFromTheBreak(s: Setting, rows: seq<Row>, content: string, rounds: seq<Round>, round: nat)
    requires RoundsOk(rounds)
    ensures Cost(FromTheBreak(s, rows + TurnRows(content, rounds), round))
         == Cost(Preamble(s.prompts.instructions, s.prompts.folded, s.summary)) + |content|
            + Cost(ReplayAll(RowsOf(rounds)) + Note(s, round)) + Cost(ReplayAll(rows))
  {
    hide Cost, Preamble, RowsOf, Note, ReplayAll;
    var pinned, turn := Preamble(s.prompts.instructions, s.prompts.folded, s.summary), ReplayAll(RowsOf(rounds));
    ReplayAppend(rows, TurnRows(content, rounds));
    ReplayAppend([UserMessage(content)], RowsOf(rounds));
    CostAppend(pinned, ReplayAll(rows + TurnRows(content, rounds)));
    CostAppend(pinned + ReplayAll(rows + TurnRows(content, rounds)), Note(s, round));
    CostAppend(ReplayAll(rows), ReplayAll(TurnRows(content, rounds)));
    CostAppend(ReplayAll([UserMessage(content)]), turn);
    CostAppend(turn, Note(s, round));
    CostOfRequest(content);
  }

  lemma {:induction false} CostOfRequest(content: string)
    ensures Cost(ReplayAll([UserMessage(content)])) == |content|
  {
    ReplayOfUser(content);
    CostOfOne(Message(User, content, None, []));
  }

  lemma {:induction false} EarlierWithBreak(front: seq<Row>, r: Round, back: seq<Row>, k: nat, turn: seq<Message>,
                                            base: int, budget: int)
    requires WholeLog(front) && RoundOk(r) && IsBroken(ReplayAll(RoundRows(r))) && WholeLog(back) && Answered(turn)
    requires k <= |front|
    ensures Answered(KeptEarlier(base, ReplayAll((front + RoundRows(r) + back)[k..]), turn, budget))
       <==> base + Cost(turn) + Cost(ReplayAll(RoundRows(r)) + ReplayAll(back)) > budget
  {
    hide Answered, KeptEarlier, RoundRows, Cost, Substantial, IsBroken;
    var a, b, c := ReplayAll(front), ReplayAll(RoundRows(r)), ReplayAll(back);
    assert ReplayAll((front + RoundRows(r) + back)[k..]) == a[k..] + b + c;
    assert a == a[..k] + a[k..];
    KeptExactlyWhenBroken(a[..k], a[k..], b, c, turn, base, budget);
  }
}
