/** Tool-call pairing end to end: a log that answers its calls is still legal after it has been sliced
    at the summary, trimmed to any budget, split from its system text and converted. */
module Pairing {
  import opened Wrappers
  import opened Conversation
  import opened Replay
  import opened ReplayLaws
  import opened TrimLaws

  // ---- Answered lists, put together and taken apart ----

  /** How many messages the first exchange takes: an announcement and its answers, or one other message. */
  function Width(ms: seq<Message>): (n: nat)
    requires ms != []
    ensures n >= 1
  {
    if ms[0].role == Assistant then 1 + |ms[0].toolCalls| else 1
  }

  predicate OpensWell(ms: seq<Message>)
    requires ms != []
  {
    && ms[0].role != Tool
    && Width(ms) <= |ms|
    && (ms[0].role == Assistant ==> AnswersTo(ms[1..Width(ms)], ms[0].toolCalls))
  }

  lemma {:induction false} ByExchange(ms: seq<Message>)
    requires ms != []
    ensures Answered(ms) <==> OpensWell(ms) && Answered(ms[Width(ms)..])
  {
    if ms[0].role == Assistant {
      AnswersToCut(ms[1..], ms[0].toolCalls);
      if Width(ms) <= |ms| {
        assert ms[1..][..|ms[0].toolCalls|] == ms[1..Width(ms)];
      }
    }
  }

  lemma AnswersToCut(ms: seq<Message>, calls: seq<ToolCall>)
    ensures AnswersTo(ms, calls) <==> |calls| <= |ms| && AnswersTo(ms[..|calls|], calls)
  {
  }

  lemma OpensWellPrefix(a: seq<Message>, all: seq<Message>)
    requires a != [] && a <= all && Width(a) <= |a|
    ensures OpensWell(a) <==> OpensWell(all)
  {
    assert a[1..Width(a)] == all[1..Width(a)];
  }

  lemma ExchangeIsTools(ms: seq<Message>, i: nat)
    requires ms != [] && OpensWell(ms) && 1 <= i < Width(ms)
    ensures ms[i].role == Tool
  {
    assert ms[i] == ms[1..Width(ms)][i - 1];
  }

  lemma {:induction false} AnsweredAppend(a: seq<Message>, b: seq<Message>)
    requires Answered(a)
    ensures Answered(a + b) <==> Answered(b)
    decreases |a|
  {
    hide Answered, OpensWell;
    if a == [] {
      assert a + b == b;
    } else {
      AnsweredFits(a);
      AnsweredAppend(a[Width(a)..], b);
      ByExchange(a);
      ByExchange(a + b);
      OpensWellPrefix(a, a + b);
      assert (a + b)[Width(a)..] == a[Width(a)..] + b;
    }
  }

  lemma {:induction false} AnsweredFits(ms: seq<Message>)
    requires ms != [] && Answered(ms)
    ensures OpensWell(ms) && Width(ms) <= |ms| && Answered(ms[Width(ms)..])
  {
    ByExchange(ms);
  }

  /** A user message never stands inside an exchange, so both sides of it are answered. */
  lemma {:induction false} AnsweredAroundUser(a: seq<Message>, u: Message, b: seq<Message>)
    requires u.role == User && Answered(a + [u] + b)
    ensures Answered(a) && Answered(b)
    decreases |a|
  {
    hide Answered, OpensWell;
    var all := a + [u] + b;
    AnsweredFits(all);
    UserSplit(a, u, b);
    if a == [] {
      NothingIsAnswered(a);
    } else {
      var n := Width(a);
      if |a| < n {
        ExchangeIsTools(all, |a|);
      }
      assert all[n..] == a[n..] + [u] + b;
      AnsweredAroundUser(a[n..], u, b);
      OpensWellPrefix(a, all);
      ByExchange(a);
    }
  }

  lemma UserSplit(a: seq<Message>, u: Message, b: seq<Message>)
    requires u.role == User
    ensures var all := a + [u] + b;
            && all[|a|] == u && a <= all
            && (a == [] ==> Width(all) == 1 && all[1..] == b) && (a != [] ==> Width(all) == Width(a))
  {
  }

  /** Cutting anywhere and dropping the orphans that then lead heals the list. */
  lemma {:induction false} CutIsHealed(ms: seq<Message>, k: nat)
    requires Answered(ms) && k <= |ms|
    ensures Answered(DropOrphans(ms[k..]))
    decreases |ms|
  {
    hide Answered, OpensWell, DropOrphans;
    if k == 0 {
      assert ms[k..] == ms;
      NothingToDrop(ms);
    } else {
      AnsweredFits(ms);
      var n := Width(ms);
      var rest := ms[n..];
      if k <= n {
        CutInside(ms, k);
        NothingToDrop(rest);
      } else {
        CutIsHealed(rest, k - n);
        assert rest[k - n..] == ms[k..];
      }
    }
  }

  lemma {:induction false} NothingToDrop(ms: seq<Message>)
    requires Answered(ms)
    ensures DropOrphans(ms) == ms
  {
  }

  lemma CutInside(ms: seq<Message>, k: nat)
    requires ms != [] && OpensWell(ms) && 0 < k <= Width(ms)
    ensures DropOrphans(ms[k..]) == DropOrphans(ms[Width(ms)..])
  {
    hide DropOrphans;
    var tools, rest := ms[k..Width(ms)], ms[Width(ms)..];
    assert ms[k..] == tools + rest;
    forall i | 0 <= i < |tools| ensures tools[i].role == Tool {
      ExchangeIsTools(ms, k + i);
      assert tools[i] == ms[k + i];
    }
    DropAfterTools(tools, rest);
  }

  /** Cutting the end off leaves an answered list exactly when no tool message was next. */
  lemma {:induction false} PrefixIsAnswered(ms: seq<Message>, k: nat)
    requires Answered(ms) && k < |ms|
    ensures Answered(ms[..k]) <==> ms[k].role != Tool
    decreases |ms|
  {
    hide Answered, OpensWell;
    if k == 0 {
      AnsweredOpens(ms);
    } else {
      AnsweredFits(ms);
      var n := Width(ms);
      ByExchange(ms[..k]);
      if k < n {
        OpensWellFits(ms[..k]);
        ExchangeIsTools(ms, k);
      } else if k == n {
        AnsweredOpens(ms[n..]);
        WholePrefix(ms, k);
      } else {
        PrefixIsAnswered(ms[n..], k - n);
        WholePrefix(ms, k);
      }
    }
  }

  lemma {:induction false} AnsweredOpens(ms: seq<Message>)
    requires ms != [] && Answered(ms)
    ensures ms[0].role != Tool && Answered([]) && ms[..0] == []
  {
  }

  lemma OpensWellFits(ms: seq<Message>)
    requires ms != []
    ensures OpensWell(ms) ==> Width(ms) <= |ms|
  {
  }

  lemma WholePrefix(ms: seq<Message>, k: nat)
    requires ms != [] && Width(ms) <= k < |ms|
    ensures OpensWell(ms[..k]) <==> OpensWell(ms)
    ensures ms[..k][Width(ms)..] == ms[Width(ms)..][..k - Width(ms)] && ms[Width(ms)..][k - Width(ms)] == ms[k]
  {
    hide OpensWell;
    OpensWellPrefix(ms[..k], ms);
  }

  lemma {:induction false} NonSystemAppend(a: seq<Message>, b: seq<Message>)
    ensures NonSystem(a + b) == NonSystem(a) + NonSystem(b)
  {
    if a == [] {
      assert a + b == b;
    } else {
      assert (a + b)[1..] == a[1..] + b;
      NonSystemAppend(a[1..], b);
    }
  }

  lemma {:induction false} NonSystemOfSystems(ms: seq<Message>)
    requires forall i :: 0 <= i < |ms| ==> ms[i].role == System
    ensures NonSystem(ms) == []
  {
    if ms != [] {
      NonSystemOfSystems(ms[1..]);
    }
  }

  lemma {:induction false} NonSystemKeepsAll(ms: seq<Message>)
    requires !HasRole(ms, System)
    ensures NonSystem(ms) == ms
  {
    if ms != [] {
      assert ms[0].role != System;
      SuffixLacksRole(ms, 1, System);
      NonSystemKeepsAll(ms[1..]);
    }
  }

  lemma {:induction false} NonSystemIsAnswered(ms: seq<Message>)
    requires Answered(ms)
    ensures Answered(NonSystem(ms))
    decreases |ms|
  {
    hide Answered, OpensWell, NonSystem;
    if ms == [] {
      assert NonSystem(ms) == ms by { NonSystemOfSystems(ms); }
    } else {
      AnsweredFits(ms);
      var head, rest := ms[..Width(ms)], ms[Width(ms)..];
      NonSystemIsAnswered(rest);
      assert ms == head + rest;
      NonSystemAppend(head, rest);
      if ms[0].role == System {
        NonSystemOfSystems(head);
        assert [] + NonSystem(rest) == NonSystem(rest);
      } else {
        ExchangeLacksSystem(ms);
        NonSystemKeepsAll(head);
        ByExchange(head);
        OpensWellPrefix(head, ms);
        NothingIsAnswered(head[Width(head)..]);
        AnsweredAppend(head, NonSystem(rest));
      }
    }
  }

  lemma {:induction false} NothingIsAnswered(ms: seq<Message>)
    requires ms == []
    ensures Answered(ms)
  {
  }

  lemma ExchangeLacksSystem(ms: seq<Message>)
    requires ms != [] && OpensWell(ms) && ms[0].role != System
    ensures !HasRole(ms[..Width(ms)], System)
  {
    forall i | 0 <= i < Width(ms) ensures ms[..Width(ms)][i].role != System {
      if i > 0 {
        ExchangeIsTools(ms, i);
      }
    }
  }

  // ---- Substantial lists ----

  lemma SubstantialAppend(a: seq<Message>, b: seq<Message>)
    ensures Substantial(a + b) <==> Substantial(a) && Substantial(b)
  {
    if Substantial(a + b) {
      forall i | 0 <= i < |a| && a[i].role == Assistant ensures a[i].content != "" || a[i].toolCalls != [] {
        assert (a + b)[i] == a[i];
      }
      forall i | 0 <= i < |b| && b[i].role == Assistant ensures b[i].content != "" || b[i].toolCalls != [] {
        assert (a + b)[|a| + i] == b[i];
      }
    }
  }

  lemma {:induction false} NonSystemIsSubstantial(ms: seq<Message>)
    requires Substantial(ms)
    ensures Substantial(NonSystem(ms))
  {
    if ms != [] {
      SubstantialTail(ms, 1);
      NonSystemIsSubstantial(ms[1..]);
      SubstantialAppend(if ms[0].role == System then [] else [ms[0]], NonSystem(ms[1..]));
    }
  }

  // ---- What trimming leaves ----

  /** The request of this turn and what was kept around it: the kept parts are answered when the whole log
      was, even the part of it that an earlier summary folded away (`before`). */
  lemma {:induction false} KeptIsAnswered(before: seq<Message>, earlier: seq<Message>, request: Message,
                                          turn: seq<Message>,
                       base: int, budget: int)
    requires request.role == User && Answered(before + earlier + [request] + turn)
    ensures Answered(KeptEarlier(base, earlier, turn, budget) + [request] + KeptTurn(base, turn, budget))
  {
    hide KeptEarlier, KeptTurn, Answered;
    var e, t := KeptEarlier(base, earlier, turn, budget), KeptTurn(base, turn, budget);
    AnsweredAroundUser(before + earlier, request, turn);
    KeptTurnIsAnswered(base, turn, budget);
    KeptEarlierIsAnswered(before, base, earlier, turn, budget);
    AnsweredBehindUser(request, t);
    AnsweredAppend(e, [request] + t);
    assert e + [request] + t == e + ([request] + t);
  }

  lemma {:induction false} AnsweredBehindUser(u: Message, ms: seq<Message>)
    requires u.role == User
    ensures Answered([u] + ms) <==> Answered(ms)
  {
    assert ([u] + ms)[1..] == ms;
  }

  lemma {:induction false} KeptTurnIsAnswered(base: int, turn: seq<Message>, budget: int)
    requires Answered(turn)
    ensures Answered(KeptTurn(base, turn, budget))
  {
    FitIsSuffix(turn, base, budget);
    CutIsHealed(turn, |turn| - |Fit(turn, base, budget)|);
  }

  lemma {:induction false} KeptEarlierIsAnswered(before: seq<Message>, base: int, earlier: seq<Message>,
                                                 turn: seq<Message>, budget: int)
    requires Answered(before + earlier)
    ensures Answered(KeptEarlier(base, earlier, turn, budget))
  {
    hide KeptTurn, Fit, DropOrphans, Answered, Cost;
    NothingIsAnswered([]);
    var used := base + Cost(KeptTurn(base, turn, budget));
    FitIsSuffix(earlier, used, budget);
    var k := |earlier| - |Fit(earlier, used, budget)|;
    CutIsHealed(before + earlier, |before| + k);
    assert (before + earlier)[|before| + k..] == earlier[k..];
  }

  lemma KeptIsSubstantial(earlier: seq<Message>, request: Message, turn: seq<Message>, base: int, budget: int)
    requires request.role == User && Substantial(earlier) && Substantial(turn)
    ensures Substantial(KeptEarlier(base, earlier, turn, budget) + [request] + KeptTurn(base, turn, budget))
  {
    hide KeptEarlier, KeptTurn;
    var e, t := KeptEarlier(base, earlier, turn, budget), KeptTurn(base, turn, budget);
    KeptEarlierIsSuffix(base, earlier, turn, budget);
    KeptTurnIsSuffix(base, turn, budget);
    SubstantialTail(earlier, |earlier| - |e|);
    SubstantialTail(turn, |turn| - |t|);
    SubstantialAppend(e, [request]);
    SubstantialAppend(e + [request], t);
  }

  /** What a provider is sent for a history. */
  function Sent(history: seq<Message>, limit: int): seq<Turn> {
    Convert(NonSystem(Trim(history, Some(limit))))
  }

  /** Whatever the budget: the conversation sent is legal if the log it was cut from answers its calls. */
  lemma {:induction false} WindowIsLegal(pinned: seq<Message>, before: seq<Message>, earlier: seq<Message>,
                                         request: Message,
                      turn: seq<Message>, limit: int)
    requires Splits(pinned, earlier, request, turn)
    requires Answered(before + earlier + [request] + turn) && Substantial(earlier) && Substantial(turn)
    ensures Legal(Sent(Assemble(pinned, earlier, request, turn), limit))
  {
    hide Trim, KeptEarlier, KeptTurn, Convert, Legal, Answered, NonSystem;
    var base, budget := Cost(pinned) + |request.content|, limit * CHARS_PER_TOKEN;
    TrimOfSplit(pinned, earlier, request, turn, limit);
    WindowIs(pinned, earlier, request, turn, budget);
    var kept := KeptEarlier(base, earlier, turn, budget) + [request] + KeptTurn(base, turn, budget);
    KeptIsAnswered(before, earlier, request, turn, base, budget);
    KeptIsSubstantial(earlier, request, turn, base, budget);
    NonSystemIsAnswered(kept);
    NonSystemIsSubstantial(kept);
    assert Trim(Assemble(pinned, earlier, request, turn), Some(limit)) == pinned + kept;
    NonSystemAppend(pinned, kept);
    NonSystemOfSystems(pinned);
    assert [] + NonSystem(kept) == NonSystem(kept);
    LegalExactlyWhenAnswered(NonSystem(kept));
  }

  // ---- From stored rows ----

  /** A log as the service leaves it: every announced call answered in place, no assistant row empty. */
  predicate WholeLog(rows: seq<Row>) {
    Answered(ReplayAll(rows)) && Substantial(ReplayAll(rows))
  }

  lemma ReplayAppend(a: seq<Row>, b: seq<Row>)
    ensures ReplayAll(a + b) == ReplayAll(a) + ReplayAll(b)
  {
  }

  lemma ReplaySplit(rows: seq<Row>, k: nat)
    requires k <= |rows|
    ensures ReplayAll(rows) == ReplayAll(rows[..k]) + ReplayAll(rows[k..])
  {
    assert rows == rows[..k] + rows[k..];
    ReplayAppend(rows[..k], rows[k..]);
  }

  lemma ReplayLacksSystem(rows: seq<Row>)
    ensures !HasRole(ReplayAll(rows), System)
  {
  }

  /** A list with a user message, split at the newest one. */
  lemma SplitAtRequest(rest: seq<Message>) returns (earlier: seq<Message>, request: Message, turn: seq<Message>)
    requires HasRole(rest, User)
    ensures rest == earlier + [request] + turn && request.role == User && !HasRole(turn, User)
    ensures earlier != [] ==> earlier[0] == rest[0]
  {
    var at := RequestAt(rest);
    earlier, request, turn := rest[..at], rest[at], rest[at + 1..];
  }

  /** Replay legality, end to end: whatever the slice count, as long as a user message is left, whatever the
      budget, and whatever system notes were added at the end. */
  lemma ReplayIsLegal(instructions: string, folded: string, summary: string, rows: seq<Row>, count: nat,
                      notes: seq<Message>, limit: int)
    requires WholeLog(rows) && count <= |rows| && HasRole(ReplayAll(rows[count..]), User)
    requires forall i :: 0 <= i < |notes| ==> notes[i].role == System
    ensures Legal(Sent(BuildHistory(instructions, folded, summary, rows, count) + notes, limit))
  {
    hide Legal, Sent, Answered, Substantial, HasRole, Preamble, Assemble, Splits, ReplayAll;
    var before, rest := ReplayAll(rows[..count]), ReplayAll(rows[count..]);
    ReplaySplit(rows, count);
    SubstantialAppend(before, rest);
    var earlier, request, turn := SplitAtRequest(rest);
    PreambleSplits(instructions, folded, summary, rows[count..], earlier, request, turn, notes);
    NotesAreAnswered(before + rest, notes);
    PartsAreSubstantial(earlier, request, turn, notes);
    Regrouped(before, earlier, request, turn, notes);
    Reassembled(instructions, folded, summary, rows, count, earlier, request, turn, notes);
    WindowIsLegal(Preamble(instructions, folded, summary), before, earlier, request, turn + notes, limit);
  }

  lemma Regrouped(before: seq<Message>, earlier: seq<Message>, request: Message, turn: seq<Message>,
                  notes: seq<Message>)
    ensures before + (earlier + [request] + turn) + notes == before + earlier + [request] + (turn + notes)
  {
  }

  lemma Reassembled(instructions: string, folded: string, summary: string, rows: seq<Row>, count: nat,
                    earlier: seq<Message>, request: Message, turn: seq<Message>, notes: seq<Message>)
    requires count <= |rows| && ReplayAll(rows[count..]) == earlier + [request] + turn
    ensures BuildHistory(instructions, folded, summary, rows, count) + notes
         == Assemble(Preamble(instructions, folded, summary), earlier, request, turn + notes)
  {
  }

  lemma PreambleSplits(instructions: string, folded: string, summary: string, rows: seq<Row>, earlier: seq<Message>,
                       request: Message, turn: seq<Message>, notes: seq<Message>)
    requires ReplayAll(rows) == earlier + [request] + turn && request.role == User && !HasRole(turn, User)
    requires forall i :: 0 <= i < |notes| ==> notes[i].role == System
    ensures Splits(Preamble(instructions, folded, summary), earlier, request, turn + notes)
  {
    ReplayLacksSystem(rows);
    AppendLacksRole(turn, notes, User);
    if earlier != [] {
      assert earlier[0] == ReplayAll(rows)[0];
    }
  }

  lemma PartsAreSubstantial(earlier: seq<Message>, request: Message, turn: seq<Message>, notes: seq<Message>)
    requires Substantial(earlier + [request] + turn)
    requires forall i :: 0 <= i < |notes| ==> notes[i].role == System
    ensures Substantial(earlier) && Substantial(turn + notes)
  {
    SubstantialAppend(earlier + [request], turn);
    SubstantialAppend(earlier, [request]);
    NotesAreSubstantial(turn, notes);
  }

  lemma {:induction false} SystemsAreAnswered(notes: seq<Message>)
    requires forall i :: 0 <= i < |notes| ==> notes[i].role == System
    ensures Answered(notes)
  {
    if notes != [] {
      SystemsAreAnswered(notes[1..]);
    }
  }

  lemma {:induction false} NotesAreAnswered(ms: seq<Message>, notes: seq<Message>)
    requires Answered(ms) && forall i :: 0 <= i < |notes| ==> notes[i].role == System
    ensures Answered(ms + notes)
  {
    SystemsAreAnswered(notes);
    AnsweredAppend(ms, notes);
  }

  lemma NotesAreSubstantial(ms: seq<Message>, notes: seq<Message>)
    requires Substantial(ms) && forall i :: 0 <= i < |notes| ==> notes[i].role == System
    ensures Substantial(ms + notes)
  {
    SubstantialAppend(ms, notes);
  }

  /** With no user message left the last message is pinned instead: a slice that opens inside an exchange and
      holds only its results is illegal under every budget. */
  lemma SliceOfResultsIsIllegal(instructions: string, folded: string, summary: string, rows: seq<Row>, count: nat,
                                limit: int)
    requires count < |rows| && forall i :: count <= i < |rows| ==> rows[i].role == ToolRow
    ensures !Legal(Sent(BuildHistory(instructions, folded, summary, rows, count), limit))
  {
    hide Legal, Trim, LeadingSystem, RequestAt, Cost, KeptEarlier, KeptTurn, Preamble, NonSystem, Convert;
    var h := BuildHistory(instructions, folded, summary, rows, count);
    var pinned, rest := Preamble(instructions, folded, summary), ReplayAll(rows[count..]);
    PreambleIsSystem(instructions, folded, summary);
    forall i | 0 <= i < |rest| ensures rest[i].role == Tool {
      assert rest[i] == ReplayRow(rows[count + i]);
    }
    assert h == pinned + rest;
    TrimOfResults(pinned, rest, limit);
    OrphanAloneIsIllegal(pinned, rest[|rest| - 1]);
  }

  lemma PreambleIsSystem(instructions: string, folded: string, summary: string)
    ensures var ms := Preamble(instructions, folded, summary); forall i :: 0 <= i < |ms| ==> ms[i].role == System
  {
  }

  lemma TrimOfResults(pinned: seq<Message>, rest: seq<Message>, limit: int)
    requires rest != [] && forall i :: 0 <= i < |rest| ==> rest[i].role == Tool
    requires forall i :: 0 <= i < |pinned| ==> pinned[i].role == System
    ensures Trim(pinned + rest, Some(limit)) == pinned + [rest[|rest| - 1]]
  {
    hide Trim, LeadingSystem, RequestAt, Cost, KeptEarlier, KeptTurn;
    var h, at := pinned + rest, |rest| - 1;
    LeadingSystemIs(pinned, rest);
    RequestIsLast(rest, at);
    assert h[..|pinned|] == pinned && h[|pinned|..] == rest;
    TrimByParts(h, Some(limit));
    var base, budget := Cost(pinned) + |rest[at].content|, limit * CHARS_PER_TOKEN;
    assert rest[at + 1..] == [];
    WindowIs(pinned, rest[..at], rest[at], [], budget);
    OnlyOrphans(base, rest[..at], budget);
  }

  lemma OnlyOrphans(base: int, earlier: seq<Message>, budget: int)
    requires forall i :: 0 <= i < |earlier| ==> earlier[i].role == Tool
    ensures KeptEarlier(base, earlier, [], budget) == [] && KeptTurn(base, [], budget) == []
  {
    var used := base + Cost(KeptTurn(base, [], budget));
    FitIsSuffix(earlier, used, budget);
    DropOrphansIsSuffix(Fit(earlier, used, budget));
  }

  lemma {:induction false} OrphanAloneIsIllegal(pinned: seq<Message>, m: Message)
    requires (forall i :: 0 <= i < |pinned| ==> pinned[i].role == System) && m.role == Tool
    ensures !Legal(Convert(NonSystem(pinned + [m])))
  {
    NonSystemAppend(pinned, [m]);
    NonSystemOfSystems(pinned);
    assert NonSystem([m]) == [m];
    assert [] + [m] == [m];
    LegalOfOrphan([m]);
  }

  // ---- Compaction ----

  /** The transcript a compaction sends: its own instructions, any older summary, the rows to fold, and a
      request to summarise. */
  function Transcript(instructions: string, previous: string, summary: string, rows: seq<Row>,
                      ask: string): seq<Message> {
    Preamble(instructions, previous, summary) + ReplayAll(rows) + [Message(User, ask, None, [])]
  }

  /** What of the folded rows the compaction request carries under this budget. */
  function FoldedKept(instructions: string, previous: string, summary: string, rows: seq<Row>, ask: string, limit: int)
    : seq<Message>
  {
    var base := Cost(Preamble(instructions, previous, summary)) + |ask|;
    KeptEarlier(base, ReplayAll(rows), [], limit * CHARS_PER_TOKEN)
  }

  /** There is room for some folded row that is no tool result and for all folded rows behind it, beside the rest of
      the request. */
  predicate RoomForFolded(instructions: string, previous: string, summary: string, rows: seq<Row>, fold: nat,
                          ask: string, limit: int)
    requires fold <= |rows|
  {
    exists k :: 0 <= k < fold && rows[k].role != ToolRow &&
      Cost(Preamble(instructions, previous, summary)) + |ask| + Cost(ReplayAll(rows[k..fold])) <= limit * CHARS_PER_TOKEN
  }

  /** A compaction folds a fixed number of rows, wherever that falls. Its request is legal exactly when the
      first row left out is not a tool row, or there is no room for any exchange of the folded rows. */
  lemma {:induction false} CompactionLegality(instructions: string, previous: string, summary: string, rows: seq<Row>,
                                              fold: nat, ask: string, limit: int)
    requires WholeLog(rows) && fold < |rows|
    ensures Legal(Sent(Transcript(instructions, previous, summary, rows[..fold], ask), limit))
       <==> rows[fold].role != ToolRow || !RoomForFolded(instructions, previous, summary, rows, fold, ask, limit)
  {
    hide Legal, Answered, KeptEarlier, Convert, Trim, NonSystem, Preamble, Cost, RoomForFolded;
    var log, earlier, request := ReplayAll(rows), ReplayAll(rows[..fold]), Message(User, ask, None, []);
    var kept := FoldedKept(instructions, previous, summary, rows[..fold], ask, limit);
    assert earlier == log[..fold];
    FoldedWindow(instructions, previous, summary, rows[..fold], ask, limit);
    SubstantialTail(log, 0);
    ReplaySplit(rows, fold);
    SubstantialAppend(earlier, ReplayAll(rows[fold..]));
    FoldedIsSubstantial(earlier, kept, request);
    LegalExactlyWhenAnswered(kept + [request]);
    var base := Cost(Preamble(instructions, previous, summary)) + |ask|;
    FoldedIsAnswered(log, fold, base, limit * CHARS_PER_TOKEN, request);
    KeptExactlyWithRoom(instructions, previous, summary, rows, fold, ask, limit);
  }

  lemma {:induction false} KeptExactlyWithRoom(instructions: string, previous: string, summary: string, rows: seq<Row>,
                                               fold: nat, ask: string, limit: int)
    requires fold <= |rows|
    ensures FoldedKept(instructions, previous, summary, rows[..fold], ask, limit) != []
       <==> RoomForFolded(instructions, previous, summary, rows, fold, ask, limit)
  {
    hide Preamble, Cost, Fit, DropOrphans;
    var base, budget := Cost(Preamble(instructions, previous, summary)) + |ask|, limit * CHARS_PER_TOKEN;
    var ms := ReplayAll(rows[..fold]);
    NothingCosts();
    FitNothing(base, budget);
    NothingDrops();
    KeptOpensFirst(ms, base, budget);
    forall k | 0 <= k < fold
      ensures MayOpen(ms, k, base, budget)
         <==> rows[k].role != ToolRow && base + Cost(ReplayAll(rows[k..fold])) <= budget
    {
      assert ms[k..] == ReplayAll(rows[k..fold]);
      assert ms[k] == ReplayRow(rows[k]);
    }
  }

  lemma {:induction false} NothingDrops()
    ensures DropOrphans([]) == []
  {
  }

  lemma {:induction false} NothingCosts()
    ensures Cost([]) == 0
  {
  }

  lemma FoldedWindow(instructions: string, previous: string, summary: string, rows: seq<Row>, ask: string, limit: int)
    ensures var kept := FoldedKept(instructions, previous, summary, rows, ask, limit);
            && Trim(Transcript(instructions, previous, summary, rows, ask), Some(limit))
               == Preamble(instructions, previous, summary) + (kept + [Message(User, ask, None, [])])
            && |kept| <= |rows| && kept == ReplayAll(rows)[|rows| - |kept|..]
            && NonSystem(Preamble(instructions, previous, summary)
                         + (kept + [Message(User, ask, None, [])])) == kept + [Message(User, ask, None, [])]
  {
    hide Trim, KeptEarlier, KeptTurn, NonSystem, Cost;
    var pinned, earlier := Preamble(instructions, previous, summary), ReplayAll(rows);
    var request, budget := Message(User, ask, None, []), limit * CHARS_PER_TOKEN;
    var base := Cost(pinned) + |ask|;
    ReplayLacksSystem(rows);
    assert Assemble(pinned, earlier, request, []) == Transcript(instructions, previous, summary, rows, ask);
    TrimOfSplit(pinned, earlier, request, [], limit);
    WindowIs(pinned, earlier, request, [], budget);
    KeptTurnIsSuffix(base, [], budget);
    KeptEarlierIsSuffix(base, earlier, [], budget);
    var kept := KeptEarlier(base, earlier, [], budget);
    SuffixLacksRole(earlier, |earlier| - |kept|, System);
    AppendLacksRole(kept, [request], System);
    NonSystemAppend(pinned, kept + [request]);
    NonSystemOfSystems(pinned);
    NonSystemKeepsAll(kept + [request]);
    assert [] + (kept + [request]) == kept + [request];
  }

  lemma FoldedIsSubstantial(earlier: seq<Message>, kept: seq<Message>, request: Message)
    requires Substantial(earlier) && |kept| <= |earlier| && kept == earlier[|earlier| - |kept|..] && request.role == User
    ensures Substantial(kept + [request])
  {
    SubstantialTail(earlier, |earlier| - |kept|);
    SubstantialAppend(kept, [request]);
  }

  /** Cut at `fold`, trimmed and healed in front: answered unless the cut fell inside an exchange that is
      still carried. */
  lemma {:induction false} FoldedIsAnswered(log: seq<Message>, fold: nat, base: int, budget: int, request: Message)
    requires Answered(log) && fold < |log| && request.role == User
    ensures var kept := KeptEarlier(base, log[..fold], [], budget);
            Answered(kept + [request]) <==> log[fold].role != Tool || kept == []
  {
    hide Answered, KeptEarlier, KeptTurn;
    var kept := KeptEarlier(base, log[..fold], [], budget);
    KeptTurnIsSuffix(base, [], budget);
    KeptEarlierIsSuffix(base, log[..fold], [], budget);
    KeptOpensWell(base, log[..fold], [], budget);
    AnsweredWithRequest(kept, request);
    if kept == [] {
      NothingIsAnswered(kept);
    } else {
      var k := fold - |kept|;
      CutIsHealed(log, k);
      NoOrphans(log[k..]);
      PrefixIsAnswered(log[k..], |kept|);
      assert log[k..][..|kept|] == log[..fold][k..];
    }
  }

  lemma {:induction false} NoOrphans(ms: seq<Message>)
    requires ms != [] ==> ms[0].role != Tool
    ensures DropOrphans(ms) == ms
  {
  }

  lemma {:induction false} AnsweredWithRequest(ms: seq<Message>, request: Message)
    requires request.role == User
    ensures Answered(ms + [request]) <==> Answered(ms)
  {
    AnsweredBehindUser(request, []);
    NothingIsAnswered([]);
    if Answered(ms) {
      AnsweredAppend(ms, [request]);
    }
    if Answered(ms + [request]) {
      assert ms + [request] == ms + [request] + [];
      AnsweredAroundUser(ms, request, []);
    }
  }
}
