/** What a request to the provider holds, said of the stored rows alone: which of them, in which order, with what around
    them, and where the budget cuts. */
module Requests {
  import opened Wrappers
  import opened Conversation
  import opened Replay
  import opened ReplayLaws
  import opened TrimLaws
  import opened Pairing

  /** A message that says what a row holds. */
  predicate Says(m: Message, row: Row) {
    && m.content == row.content
    && match row.role
       case UserRow => m.role == User && m.toolCallId == None && m.toolCalls == []
       case AssistantRow =>
         && m.role == Assistant && m.toolCallId == None
         && m.toolCalls == if row.stored.Announces? then row.stored.calls else []
       case ToolRow =>
         && m.role == Tool && m.toolCalls == []
         && m.toolCallId == if row.stored.Answers? then row.stored.id else None
  }

  predicate AllSay(ms: seq<Message>, rows: seq<Row>) {
    |ms| == |rows| && forall i :: 0 <= i < |ms| ==> Says(ms[i], rows[i])
  }

  function RowsCost(rows: seq<Row>): nat {
    if rows == [] then 0 else |rows[0].content| + RowsCost(rows[1..])
  }

  /** The instructions, and the summary behind its lead, if there is one. */
  predicate Opens(head: seq<Message>, instructions: string, lead: string, summary: string) {
    head == [Message(System, instructions, None, [])]
            + if summary == "" then [] else [Message(System, lead + summary, None, [])]
  }

  function HeadCost(instructions: string, lead: string, summary: string): nat {
    |instructions| + if summary == "" then 0 else |lead| + |summary|
  }

  /** A stretch of rows fits and does not open on a tool result, or is empty. */
  predicate MayCarry(rows: seq<Row>, used: int, budget: int) {
    rows == [] || (used + RowsCost(rows) <= budget && rows[0].role != ToolRow)
  }

  /** Of the rows from `from` up to `to`, those from `i` on are carried: the most that may be. */
  predicate CarriesMost(rows: seq<Row>, from: nat, i: nat, to: nat, used: int, budget: int)
    requires to <= |rows|
  {
    && from <= i <= to && MayCarry(rows[i..to], used, budget)
    && forall k :: from <= k < i ==> !MayCarry(rows[k..to], used, budget)
  }

  /** What a request carries of the rows from `from` on: some rows before the newest user row at `at`, that row, and some
      rows behind it. The note, if there is one, and the rows behind it come first in the use of the budget; only if none
      of them is left out are any before it carried. */
  predicate CarriesRows(carried: seq<Message>, rows: seq<Row>, from: nat, i: nat, at: nat, k: nat, used: int,
                        note: seq<Message>, budget: int)
  {
    && from <= i <= at < k <= |rows| && AllSay(carried, rows[i..at + 1] + rows[k..])
    && var base := used + |rows[at].content| + Cost(note);
       var full := note != [] && base > budget;
       && (if full then k == |rows| else CarriesMost(rows, at + 1, k, |rows|, base, budget))
       && (if full || k > at + 1 then i == at
           else CarriesMost(rows, from, i, at, base + RowsCost(rows[k..]), budget))
  }

  /** The request of a turn whose user row is at `at`: the head, what is carried, and the note if it fits. */
  ghost predicate Shows(messages: seq<Message>, instructions: string, lead: string, summary: string, rows: seq<Row>,
                        from: nat, at: nat, note: seq<Message>, budget: int)
    requires at < |rows|
  {
    var used := HeadCost(instructions, lead, summary);
    var noted := used + |rows[at].content| + Cost(note) <= budget;
    exists head, carried, i: nat, k: nat ::
      && Opens(head, instructions, lead, summary)
      && CarriesRows(carried, rows, from, i, at, k, used, note, budget)
      && messages == head + carried + if noted then note else []
  }

  // ---- Why it holds ----

  lemma {:induction false} ReplaySays(rows: seq<Row>)
    ensures AllSay(ReplayAll(rows), rows) && Cost(ReplayAll(rows)) == RowsCost(rows)
  {
    if rows != [] {
      ReplaySays(rows[1..]);
      assert ReplayAll(rows)[1..] == ReplayAll(rows[1..]);
    }
  }

  lemma {:induction false} PreambleOpens(instructions: string, lead: string, summary: string)
    ensures var head := Preamble(instructions, lead, summary);
            && Opens(head, instructions, lead, summary) && Cost(head) == HeadCost(instructions, lead, summary)
            && forall i :: 0 <= i < |head| ==> head[i].role == System
  {
    CostOfOne(SystemMessage(instructions));
    CostOfOne(SystemMessage(lead + summary));
    CostAppend([SystemMessage(instructions)], [SystemMessage(lead + summary)]);
  }

  /** Messages of the turn may open where its rows may. */
  lemma {:induction false} TurnMayOpen(rows: seq<Row>, note: seq<Message>, i: nat, base: int, budget: int)
    requires i <= |rows| && |note| <= 1 && forall j :: 0 <= j < |note| ==> note[j].role == System
    ensures var turn := ReplayAll(rows) + note;
            MayOpen(turn, i, base, budget)
            <==> if note != [] && base + Cost(note) > budget then false
                 else MayCarry(rows[i..], base + Cost(note), budget)
  {
    hide Cost, ReplayAll, RowsCost;
    var turn := ReplayAll(rows) + note;
    ReplaySays(rows[i..]);
    assert turn[i..] == ReplayAll(rows[i..]) + note by {
      assert ReplayAll(rows)[i..] == ReplayAll(rows[i..]);
    }
    CostAppend(ReplayAll(rows[i..]), note);
    CostShrinks(note, 0, |note|);
    NoRowsCost();
    if i < |rows| {
      assert turn[i] == ReplayRow(rows[i]);
    }
  }

  lemma {:induction false} NoRowsCost()
    ensures RowsCost([]) == 0 && Cost([]) == 0
  {
  }

  lemma {:induction false} TurnCarries(rows: seq<Row>, at: nat, note: seq<Message>, k: nat, base: int, budget: int)
    requires at < |rows| && |note| <= 1 && forall j :: 0 <= j < |note| ==> note[j].role == System
    requires OpensFirst(ReplayAll(rows[at + 1..]) + note, k, base, budget)
    ensures var full := note != [] && base + Cost(note) > budget;
            if full then k == |rows| - at
            else k < |rows| - at && CarriesMost(rows, at + 1, at + 1 + k, |rows|, base + Cost(note), budget)
  {
    hide Cost, ReplayAll, RowsCost, MayOpen, MayCarry;
    var turn, n := rows[at + 1..], |rows| - at - 1;
    forall i: nat | i <= n
      ensures MayOpen(ReplayAll(turn) + note, i, base, budget)
         <==> if note != [] && base + Cost(note) > budget then false
              else MayCarry(rows[at + 1 + i..], base + Cost(note), budget)
    {
      TurnMayOpen(turn, note, i, base, budget);
      assert turn[i..] == rows[at + 1 + i..];
    }
    NothingToCarry(rows[at + 1 + n..], base + Cost(note), budget);
    if note == [] || base + Cost(note) <= budget {
      assert MayOpen(ReplayAll(turn) + note, n, base, budget);
      forall i | at + 1 <= i < at + 1 + k ensures !MayCarry(rows[i..|rows|], base + Cost(note), budget) {
        assert !MayOpen(ReplayAll(turn) + note, i - at - 1, base, budget);
        assert rows[i..|rows|] == rows[at + 1 + (i - at - 1)..];
      }
      assert rows[at + 1 + k..|rows|] == rows[at + 1 + k..];
    } else {
      assert k > n;
    }
  }

  lemma {:induction false} NothingToCarry(rows: seq<Row>, used: int, budget: int)
    requires rows == []
    ensures MayCarry(rows, used, budget)
  {
  }

  lemma {:induction false} EarlierCarries(rows: seq<Row>, from: nat, at: nat, j: nat, used: int, budget: int)
    requires from <= at <= |rows| && OpensFirst(ReplayAll(rows[from..at]), j, used, budget)
    ensures CarriesMost(rows, from, from + j, at, used, budget)
  {
    hide Cost, ReplayAll, RowsCost, MayOpen, MayCarry;
    var earlier := rows[from..at];
    NoNote(earlier);
    forall i: nat | i <= |earlier|
      ensures MayOpen(ReplayAll(earlier), i, used, budget) <==> MayCarry(rows[from + i..at], used, budget)
    {
      TurnMayOpen(earlier, [], i, used, budget);
      NoRowsCost();
      assert earlier[i..] == rows[from + i..at];
    }
    forall k | from <= k < from + j ensures !MayCarry(rows[k..at], used, budget) {
      assert !MayOpen(ReplayAll(earlier), k - from, used, budget);
      assert rows[k..at] == rows[from + (k - from)..at];
    }
  }

  lemma {:induction false} NoNote(rows: seq<Row>)
    ensures ReplayAll(rows) + [] == ReplayAll(rows)
  {
  }

  lemma {:induction false} HistoryParts(instructions: string, lead: string, summary: string, rows: seq<Row>, from: nat,
                                        at: nat, note: seq<Message>)
    requires from <= at < |rows| && rows[at].role == UserRow
    requires forall j :: at < j < |rows| ==> rows[j].role != UserRow
    requires forall j :: 0 <= j < |note| ==> note[j].role == System
    ensures var head, request := Preamble(instructions, lead, summary), ReplayRow(rows[at]);
            var earlier, turn := ReplayAll(rows[from..at]), ReplayAll(rows[at + 1..]) + note;
            && BuildHistory(instructions, lead, summary, rows, from) + note == Assemble(head, earlier, request, turn)
            && Splits(head, earlier, request, turn)
  {
    hide Preamble, ReplayAll;
    var request, turn := ReplayRow(rows[at]), ReplayAll(rows[at + 1..]);
    PreambleOpens(instructions, lead, summary);
    assert rows[from..] == rows[from..at] + ([rows[at]] + rows[at + 1..]);
    ReplayAppend(rows[from..at], [rows[at]] + rows[at + 1..]);
    ReplayAppend([rows[at]], rows[at + 1..]);
    assert ReplayAll([rows[at]]) == [request];
    assert !HasRole(turn, User);
    AppendLacksRole(turn, note, User);
  }

  /** The carried messages say the carried rows. */
  lemma {:induction false} PartsSay(rows: seq<Row>, from: nat, at: nat, j: nat, k: nat)
    requires from <= from + j <= at < |rows| && k <= |rows| - at - 1
    ensures AllSay(ReplayAll(rows[from..at])[j..] + [ReplayRow(rows[at])] + ReplayAll(rows[at + 1..])[k..],
                   rows[from + j..at + 1] + rows[at + 1 + k..])
  {
  }

  /** How much of the turn is carried, when `k` of its messages are left out: the note is the last of them. */
  function LeftOut(rows: seq<Row>, at: nat, k: nat): nat
    requires at < |rows|
  {
    if k <= |rows| - at - 1 then k else |rows| - at - 1
  }

  function Carried(rows: seq<Row>, from: nat, at: nat, j: nat, k: nat): seq<Message>
    requires from + j <= at < |rows|
  {
    ReplayAll(rows[from..at])[j..] + [ReplayRow(rows[at])] + ReplayAll(rows[at + 1..])[LeftOut(rows, at, k)..]
  }

  lemma {:induction false} WindowCarries(rows: seq<Row>, from: nat, at: nat, note: seq<Message>, j: nat, k: nat, used: int,
                                         budget: int)
    requires from <= from + j <= at < |rows| && |note| <= 1 && forall i :: 0 <= i < |note| ==> note[i].role == System
    requires var base, turn := used + |rows[at].content|, ReplayAll(rows[at + 1..]) + note;
             && OpensFirst(turn, k, base, budget)
             && if k == 0 then OpensFirst(ReplayAll(rows[from..at]), j, base + Cost(turn), budget) else j == at - from
    ensures CarriesRows(Carried(rows, from, at, j, k), rows, from, from + j, at, at + 1 + LeftOut(rows, at, k), used, note,
                        budget)
    ensures k <= |rows| - at - 1 <==> note == [] || used + |rows[at].content| + Cost(note) <= budget
  {
    hide Cost, ReplayAll, RowsCost, OpensFirst, CarriesMost, AllSay;
    var base := used + |rows[at].content|;
    NoRowsCost();
    TurnCarries(rows, at, note, k, base, budget);
    PartsSay(rows, from, at, j, LeftOut(rows, at, k));
    if k == 0 {
      ReplaySays(rows[at + 1..]);
      CostAppend(ReplayAll(rows[at + 1..]), note);
      EarlierCarries(rows, from, at, j, base + Cost(ReplayAll(rows[at + 1..]) + note), budget);
    }
  }

  /** For every budget: the trimmed history shows the rows. */
  lemma {:induction false} TrimmedShows(instructions: string, lead: string, summary: string, rows: seq<Row>, from: nat,
                                        at: nat, note: seq<Message>, limit: int)
    requires from <= at < |rows| && rows[at].role == UserRow
    requires forall j :: at < j < |rows| ==> rows[j].role != UserRow
    requires |note| <= 1 && forall j :: 0 <= j < |note| ==> note[j].role == System
    ensures Shows(Trim(BuildHistory(instructions, lead, summary, rows, from) + note, Some(limit)), instructions, lead,
                  summary, rows, from, at, note, limit * CHARS_PER_TOKEN)
  {
    hide Trim, Window, Preamble, Cost, ReplayAll, RowsCost, OpensFirst, Opens, Splits, BuildHistory, CarriesRows;
    var head, request := Preamble(instructions, lead, summary), ReplayRow(rows[at]);
    var earlier, behind := ReplayAll(rows[from..at]), ReplayAll(rows[at + 1..]);
    var turn, budget, used := behind + note, limit * CHARS_PER_TOKEN, HeadCost(instructions, lead, summary);
    PreambleOpens(instructions, lead, summary);
    HistoryParts(instructions, lead, summary, rows, from, at, note);
    TrimOfSplit(head, earlier, request, turn, limit);
    var j, k := WindowShape(head, earlier, request, turn, budget);
    WindowCarries(rows, from, at, note, j, k, used, budget);
    WindowText(head, earlier[j..], request, behind, note, k);
    var carried := Carried(rows, from, at, j, k);
    ShownBy(Window(head, earlier, request, turn, budget), instructions, lead, summary, rows, from, at, note, budget, head,
            carried, from + j, at + 1 + LeftOut(rows, at, k));
  }

  lemma {:induction false} ShownBy(messages: seq<Message>, instructions: string, lead: string, summary: string,
                                   rows: seq<Row>, from: nat, at: nat, note: seq<Message>, budget: int,
                                   head: seq<Message>, carried: seq<Message>, i: nat, k: nat)
    requires at < |rows| && Opens(head, instructions, lead, summary)
    requires CarriesRows(carried, rows, from, i, at, k, HeadCost(instructions, lead, summary), note, budget)
    requires var noted := HeadCost(instructions, lead, summary) + |rows[at].content| + Cost(note) <= budget;
             messages == if noted || note == [] then head + carried + note else head + carried
    ensures Shows(messages, instructions, lead, summary, rows, from, at, note, budget)
  {
    hide Opens, CarriesRows, Cost;
    assert head + carried == head + carried + [];
  }

  lemma {:induction false} WindowText(head: seq<Message>, e: seq<Message>, request: Message, behind: seq<Message>,
                                      note: seq<Message>, k: nat)
    requires k <= |behind| + |note| && |note| <= 1
    ensures head + e + [request] + (behind + note)[k..]
         == if k <= |behind| then head + (e + [request] + behind[k..]) + note
            else head + (e + [request] + behind[|behind|..])
  {
    assert k <= |behind| ==> (behind + note)[k..] == behind[k..] + note;
    assert k > |behind| ==> (behind + note)[k..] == [] && behind[|behind|..] == [];
  }
}
