/** Tool-call pairing through the whole pipeline: what a stored log must look like, what slicing and
    trimming leave of it, and when the provider accepts the result. */
module ReplayLaws {
  import opened Wrappers
  import opened Conversation
  import opened Replay
  import opened TrimLaws

  // ---- The rule a provider enforces ----

  function UseIds(blocks: seq<Block>): seq<string> {
    if blocks == [] then []
    else (if blocks[0].ToolUse? then [blocks[0].id] else []) + UseIds(blocks[1..])
  }

  function ResultIds(results: seq<ToolResult>): seq<string> {
    if results == [] then [] else [results[0].toolUseId] + ResultIds(results[1..])
  }

  /** Results come directly behind the assistant turn that asked for exactly them, and a turn that asks is
      answered. */
  predicate LegalAt(ts: seq<Turn>, i: nat)
    requires i < |ts|
  {
    match ts[i]
    case UserText(_) => true
    case UserResults(results) =>
      && results != [] && i > 0 && ts[i - 1].AssistantTurn?
      && ResultIds(results) == UseIds(ts[i - 1].blocks)
    case AssistantTurn(blocks) =>
      && blocks != []
      && (UseIds(blocks) != [] ==> i + 1 < |ts| && ts[i + 1].UserResults?)
  }

  predicate Legal(ts: seq<Turn>) {
    forall i :: 0 <= i < |ts| ==> LegalAt(ts, i)
  }

  // ---- The rule on logs ----

  /** The messages open with one tool message for each call, in order. */
  predicate AnswersTo(ms: seq<Message>, calls: seq<ToolCall>) {
    && |calls| <= |ms|
    && forall i :: 0 <= i < |calls| ==> ms[i].role == Tool && AnsweredId(ms[i]) == calls[i].id
  }

  /** Every call is answered directly behind the message announcing it, and nothing else is a tool message. */
  predicate Answered(ms: seq<Message>)
    decreases |ms|
  {
    ms == [] ||
    match ms[0].role
    case Tool => false
    case Assistant =>
      var calls := ms[0].toolCalls;
      AnswersTo(ms[1..], calls) && Answered(ms[1 + |calls|..])
    case _ => Answered(ms[1..])
  }

  /** Assistant messages say something or announce something; the service stores no others. */
  predicate Substantial(ms: seq<Message>) {
    forall i :: 0 <= i < |ms| && ms[i].role == Assistant ==> ms[i].content != "" || ms[i].toolCalls != []
  }

  // ---- Legality of turns, one exchange at a time ----

  lemma LegalCons(t: Turn, ts: seq<Turn>)
    requires t.UserText? || (t.AssistantTurn? && t.blocks != [] && UseIds(t.blocks) == [])
    ensures Legal([t] + ts) <==> Legal(ts)
  {
    var all := [t] + ts;
    if Legal(all) {
      forall i | 0 <= i < |ts| ensures LegalAt(ts, i) {
        assert LegalAt(all, i + 1);
        assert all[i + 1] == ts[i] && (i > 0 ==> all[i] == ts[i - 1]);
        NothingAsked(t, ts, i);
      }
    }
    if Legal(ts) {
      forall i | 0 <= i < |all| ensures LegalAt(all, i) {
        if i > 0 {
          assert LegalAt(ts, i - 1);
        }
      }
    }
  }

  lemma {:induction false} ResultIdsExist(results: seq<ToolResult>)
    ensures ResultIds(results) == [] <==> results == []
  {
  }

  lemma NothingAsked(t: Turn, ts: seq<Turn>, i: nat)
    requires t.UserText? || (t.AssistantTurn? && UseIds(t.blocks) == [])
    requires i < |ts| && LegalAt([t] + ts, i + 1)
    ensures i == 0 ==> !ts[i].UserResults?
  {
    var next := ([t] + ts)[i + 1];
    if next.UserResults? {
      ResultIdsExist(next.results);
    }
  }

  lemma {:induction false} LegalPair(asking: Turn, results: seq<ToolResult>, ts: seq<Turn>)
    requires asking.AssistantTurn? && results != []
    ensures Legal([asking, UserResults(results)] + ts)
       <==> (ResultIds(results) == UseIds(asking.blocks) && Legal(ts))
  {
    hide ResultIds, UseIds;
    var all := [asking, UserResults(results)] + ts;
    if Legal(all) {
      assert LegalAt(all, 1);
      forall i | 0 <= i < |ts| ensures LegalAt(ts, i) {
        assert LegalAt(all, i + 2);
        LegalBehindPair(asking, results, ts, i);
      }
    }
    if ResultIds(results) == UseIds(asking.blocks) && Legal(ts) {
      PairOpensLegally(asking, results, ts);
      forall i | 0 <= i < |all| ensures LegalAt(all, i) {
        if i > 1 {
          assert LegalAt(ts, i - 2);
          LegalBehindPair(asking, results, ts, i - 2);
        }
      }
    }
  }

  lemma {:induction false} PairOpensLegally(asking: Turn, results: seq<ToolResult>, ts: seq<Turn>)
    requires asking.AssistantTurn? && results != [] && ResultIds(results) == UseIds(asking.blocks)
    ensures LegalAt([asking, UserResults(results)] + ts, 0) && LegalAt([asking, UserResults(results)] + ts, 1)
  {
    ResultIdsExist(results);
    assert asking.blocks != [];
  }

  lemma LegalBehindPair(asking: Turn, results: seq<ToolResult>, ts: seq<Turn>, i: nat)
    requires asking.AssistantTurn? && results != [] && i < |ts|
    ensures LegalAt([asking, UserResults(results)] + ts, i + 2) <==> LegalAt(ts, i)
  {
    hide ResultIds, UseIds;
    var all := [asking, UserResults(results)] + ts;
    assert all[i + 2] == ts[i] && (i > 0 ==> all[i + 1] == ts[i - 1]) && (i + 1 < |ts| ==> all[i + 3] == ts[i + 1]);
    assert i == 0 ==> all[i + 1] == UserResults(results);
  }

  /** A question left open is illegal whatever follows, unless results follow. */
  lemma LegalOpen(asking: Turn, ts: seq<Turn>)
    requires asking.AssistantTurn? && UseIds(asking.blocks) != []
    requires ts != [] ==> !ts[0].UserResults?
    ensures !Legal([asking] + ts)
  {
    assert !LegalAt([asking] + ts, 0);
  }

  lemma LegalOrphan(results: seq<ToolResult>, ts: seq<Turn>)
    ensures !Legal([UserResults(results)] + ts)
  {
    assert !LegalAt([UserResults(results)] + ts, 0);
  }

  lemma LegalText(text: string, results: seq<ToolResult>, ts: seq<Turn>)
    ensures !Legal([UserText(text), UserResults(results)] + ts)
  {
    assert !LegalAt([UserText(text), UserResults(results)] + ts, 1);
  }

  // ---- Runs of tool messages ----

  function Run(ms: seq<Message>): (n: nat)
    ensures n <= |ms|
    ensures forall i :: 0 <= i < n ==> ms[i].role == Tool
    ensures n < |ms| ==> ms[n].role != Tool
  {
    if ms == [] || ms[0].role != Tool then 0 else 1 + Run(ms[1..])
  }

  function Results(ms: seq<Message>): seq<ToolResult> {
    if ms == [] then [] else [ResultOf(ms[0])] + Results(ms[1..])
  }

  lemma {:induction false} ConvertRun(ms: seq<Message>, pending: seq<ToolResult>)
    ensures ConvertFrom(ms, pending) == Flushed(pending + Results(ms[..Run(ms)])) + Convert(ms[Run(ms)..])
  {
    hide Results, TurnOf, Flushed;
    if ms == [] {
      NoResults(pending);
    } else if ms[0].role == Tool {
      ConvertRun(ms[1..], pending + [ResultOf(ms[0])]);
      RunStep(ms, pending);
    } else {
      RunOfNone(ms, pending);
    }
  }

  lemma NoResults(pending: seq<ToolResult>)
    ensures pending + Results([]) == pending && Flushed(pending) + [] == Flushed(pending) && Convert([]) == []
  {
  }

  lemma {:induction false} RunStep(ms: seq<Message>, pending: seq<ToolResult>)
    requires ms != [] && ms[0].role == Tool
    ensures var n := Run(ms[1..]);
            && Run(ms) == 1 + n && ms[1..][n..] == ms[1 + n..]
            && (pending + [ResultOf(ms[0])]) + Results(ms[1..][..n]) == pending + Results(ms[..1 + n])
  {
    var n := Run(ms[1..]);
    var run, tail := ms[..1 + n], ms[1..][..n];
    assert run[0] == ms[0] && run[1..] == tail;
    ResultsStep(run);
    Associates(pending, ResultOf(ms[0]), Results(tail));
  }

  lemma {:induction false} ResultsStep(ms: seq<Message>)
    requires ms != []
    ensures Results(ms) == [ResultOf(ms[0])] + Results(ms[1..])
  {
  }

  lemma Associates(a: seq<ToolResult>, x: ToolResult, b: seq<ToolResult>)
    ensures (a + [x]) + b == a + ([x] + b)
  {
  }

  lemma {:induction false} RunOfNone(ms: seq<Message>, pending: seq<ToolResult>)
    requires ms != [] && ms[0].role != Tool
    ensures ConvertFrom(ms, pending) == Flushed(pending + Results(ms[..0])) + Convert(ms[0..])
  {
    assert pending + Results(ms[..0]) == pending;
    assert ms[0..] == ms;
    assert ConvertFrom(ms, []) == TurnOf(ms[0]) + ConvertFrom(ms[1..], []);
  }

  lemma {:induction false} IdsOfResults(ms: seq<Message>, calls: seq<ToolCall>)
    requires forall i :: 0 <= i < |ms| ==> ms[i].role == Tool
    ensures ResultIds(Results(ms)) == UseIds(UseBlocks(calls)) <==> |ms| == |calls| && AnswersTo(ms, calls)
    decreases |calls|
  {
    if calls != [] && ms != [] {
      var us := UseBlocks(calls);
      assert us[1..] == UseBlocks(calls[1..]);
      assert UseIds(us) == [calls[0].id] + UseIds(us[1..]);
      var rs := Results(ms);
      assert rs[1..] == Results(ms[1..]);
      IdsOfResults(ms[1..], calls[1..]);
      assert ResultIds(rs) == [AnsweredId(ms[0])] + ResultIds(rs[1..]);
      HeadTail(AnsweredId(ms[0]), ResultIds(rs[1..]), calls[0].id, UseIds(us[1..]));
      AnswersToTail(ms, calls);
    } else if calls != [] {
      assert UseBlocks(calls)[0].ToolUse?;
    }
  }

  lemma HeadTail(a: string, s: seq<string>, b: string, t: seq<string>)
    ensures [a] + s == [b] + t <==> a == b && s == t
  {
    if [a] + s == [b] + t {
      assert ([a] + s)[0] == a && ([b] + t)[0] == b;
      assert ([a] + s)[1..] == s && ([b] + t)[1..] == t;
    }
  }

  lemma AnswersToTail(ms: seq<Message>, calls: seq<ToolCall>)
    requires ms != [] && calls != []
    ensures AnswersTo(ms, calls)
       <==> ms[0].role == Tool && AnsweredId(ms[0]) == calls[0].id && AnswersTo(ms[1..], calls[1..])
  {
    if ms[0].role == Tool && AnsweredId(ms[0]) == calls[0].id && AnswersTo(ms[1..], calls[1..]) {
      forall i | 0 <= i < |calls| ensures ms[i].role == Tool && AnsweredId(ms[i]) == calls[i].id {
        if i > 0 {
          assert ms[i] == ms[1..][i - 1] && calls[i] == calls[1..][i - 1];
        }
      }
    }
  }

  lemma UsesOfBlocks(m: Message)
    ensures UseIds(BlocksOf(m)) == UseIds(UseBlocks(m.toolCalls))
  {
    var uses := UseBlocks(m.toolCalls);
    if m.content != "" {
      assert ([Text(m.content)] + uses)[1..] == uses;
    } else {
      assert [] + uses == uses;
    }
  }

  lemma {:induction false} UsesExist(calls: seq<ToolCall>)
    ensures UseIds(UseBlocks(calls)) == [] <==> calls == []
  {
    if calls != [] {
      assert UseBlocks(calls)[0].ToolUse?;
    }
  }

  // ---- The two rules agree ----

  lemma {:induction false} AnswersAreRun(ms: seq<Message>, calls: seq<ToolCall>)
    requires AnswersTo(ms, calls)
    ensures |calls| <= Run(ms)
    decreases |calls|
  {
    if calls != [] {
      AnswersToTail(ms, calls);
      AnswersAreRun(ms[1..], calls[1..]);
    }
  }

  /** Answered(ms), read off the maximal run of tool messages behind the first message. */
  lemma {:induction false} AnsweredByRun(ms: seq<Message>)
    requires ms != [] && ms[0].role != Tool
    ensures var n := Run(ms[1..]);
            Answered(ms) <==>
            (if ms[0].role == Assistant then n == |ms[0].toolCalls| && AnswersTo(ms[1..][..n], ms[0].toolCalls) else n == 0)
            && Answered(ms[1 + n..])
  {
    hide Run, AnswersTo;
    var n, rest := Run(ms[1..]), ms[1..];
    if ms[0].role == Assistant {
      var calls := ms[0].toolCalls;
      AnswersWithinRun(rest, calls);
      if |calls| < n {
        assert ms[1 + |calls|..][0] == rest[|calls|];
      }
    } else if n > 0 {
      assert rest[0].role == Tool;
    }
  }

  lemma {:induction false} AnswersWithinRun(ms: seq<Message>, calls: seq<ToolCall>)
    ensures AnswersTo(ms, calls) ==> |calls| <= Run(ms)
    ensures |calls| == Run(ms) ==> (AnswersTo(ms, calls) <==> AnswersTo(ms[..Run(ms)], calls))
  {
    if AnswersTo(ms, calls) {
      AnswersAreRun(ms, calls);
    }
  }

  /** What the provider receives is legal exactly when every announced call is answered in place. */
  lemma {:induction false} LegalExactlyWhenAnswered(ms: seq<Message>)
    requires Substantial(ms)
    ensures Legal(Convert(ms)) <==> Answered(ms)
    decreases |ms|
  {
    hide Legal, LegalAt, Answered, AnswersTo;
    if ms == [] {
      EmptyIsLegal();
    } else if ms[0].role == Tool {
      LegalOfOrphan(ms);
    } else {
      var n := Run(ms[1..]);
      var rest := ms[1 + n..];
      SubstantialTail(ms, 1 + n);
      LegalExactlyWhenAnswered(rest);
      AnsweredByRun(ms);
      ConvertHead(ms);
      TailOpensWell(rest);
      if ms[0].role == Assistant {
        LegalOfAnswer(ms);
      } else {
        LegalOfText(ms);
      }
    }
  }

  lemma EmptyIsLegal()
    ensures Legal(Convert([])) && Answered([])
  {
  }

  lemma SubstantialTail(ms: seq<Message>, k: nat)
    requires k <= |ms| && Substantial(ms)
    ensures Substantial(ms[k..])
  {
  }

  lemma {:induction false} LegalOfOrphan(ms: seq<Message>)
    requires ms != [] && ms[0].role == Tool
    ensures !Legal(Convert(ms)) && !Answered(ms)
  {
    var n := Run(ms);
    ConvertRun(ms, []);
    assert Results(ms[..n]) != [];
    assert [] + Results(ms[..n]) == Results(ms[..n]);
    LegalOrphan(Results(ms[..n]), Convert(ms[n..]));
  }

  lemma ConvertHead(ms: seq<Message>)
    requires ms != [] && ms[0].role != Tool
    ensures var n := Run(ms[1..]);
            Convert(ms) == TurnOf(ms[0]) + (Flushed(Results(ms[1..][..n])) + Convert(ms[1 + n..]))
  {
    hide Results, TurnOf, Run, Convert;
    var n := Run(ms[1..]);
    ConvertRun(ms[1..], []);
    assert [] + Results(ms[1..][..n]) == Results(ms[1..][..n]);
    assert ms[1..][n..] == ms[1 + n..];
    ConvertFirst(ms);
  }

  lemma ConvertFirst(ms: seq<Message>)
    requires ms != [] && ms[0].role != Tool
    ensures Convert(ms) == TurnOf(ms[0]) + ConvertFrom(ms[1..], [])
  {
  }

  lemma TailOpensWell(ms: seq<Message>)
    requires Substantial(ms) && (ms != [] ==> ms[0].role != Tool)
    ensures Convert(ms) != [] ==> !Convert(ms)[0].UserResults?
  {
    if ms != [] {
      ConvertHead(ms);
      if ms[0].role == Assistant {
        BlocksNonEmpty(ms[0]);
      }
      assert TurnOf(ms[0]) != [];
      assert Convert(ms)[0] == TurnOf(ms[0])[0];
    }
  }

  lemma BlocksNonEmpty(m: Message)
    requires m.content != "" || m.toolCalls != []
    ensures BlocksOf(m) != []
  {
  }

  lemma {:induction false} ResultsEmpty(ms: seq<Message>)
    ensures Results(ms) == [] <==> ms == []
  {
  }

  lemma LegalOfText(ms: seq<Message>)
    requires ms != [] && ms[0].role != Tool && ms[0].role != Assistant
    requires var n := Run(ms[1..]);
             Convert(ms) == TurnOf(ms[0]) + (Flushed(Results(ms[1..][..n])) + Convert(ms[1 + n..]))
    ensures var n := Run(ms[1..]); Legal(Convert(ms)) <==> n == 0 && Legal(Convert(ms[1 + n..]))
  {
    hide Convert, Legal, Results;
    var n := Run(ms[1..]);
    var t, results, later := UserText(ms[0].content), Results(ms[1..][..n]), Convert(ms[1 + n..]);
    ResultsEmpty(ms[1..][..n]);
    if n == 0 {
      LegalCons(t, later);
      assert Flushed(results) + later == later;
    } else {
      LegalText(ms[0].content, results, later);
      assert [t] + ([UserResults(results)] + later) == [t, UserResults(results)] + later;
    }
  }

  lemma LegalOfAnswer(ms: seq<Message>)
    requires ms != [] && ms[0].role == Assistant && Substantial(ms)
    requires var n := Run(ms[1..]);
             && Convert(ms) == TurnOf(ms[0]) + (Flushed(Results(ms[1..][..n])) + Convert(ms[1 + n..]))
             && (Convert(ms[1 + n..]) != [] ==> !Convert(ms[1 + n..])[0].UserResults?)
    ensures var n := Run(ms[1..]);
            Legal(Convert(ms)) <==>
            n == |ms[0].toolCalls| && AnswersTo(ms[1..][..n], ms[0].toolCalls) && Legal(Convert(ms[1 + n..]))
  {
    hide Convert, Legal, Results, UseIds, ResultIds, BlocksOf, UseBlocks;
    var n := Run(ms[1..]);
    var run, calls := ms[1..][..n], ms[0].toolCalls;
    var t, results, later := AssistantTurn(BlocksOf(ms[0])), Results(run), Convert(ms[1 + n..]);
    BlocksNonEmpty(ms[0]);
    UsesOfBlocks(ms[0]);
    UsesExist(calls);
    ResultsEmpty(run);
    IdsOfResults(run, calls);
    if n > 0 {
      LegalPair(t, results, later);
      assert [t] + ([UserResults(results)] + later) == [t, UserResults(results)] + later;
    } else {
      assert Flushed(results) + later == later;
      if calls == [] {
        LegalCons(t, later);
      } else {
        LegalOpen(t, later);
      }
    }
  }
}
