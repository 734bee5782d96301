/** The assistant's conversation window: chat messages and the trim that fits them to a budget. */
module Conversation {
  import opened Wrappers

  datatype Role = System | User | Assistant | Tool

  /** Arguments are carried as the decoded value; encoding them to JSON and back is the identity here. */
  datatype ToolCall = ToolCall(id: string, name: string, arguments: string)

  datatype Message = Message(role: Role, content: string, toolCallId: Option<string>, toolCalls: seq<ToolCall>)

  const CHARS_PER_TOKEN: int := 4

  function Cost(ms: seq<Message>): nat {
    if ms == [] then 0 else |ms[0].content| + Cost(ms[1..])
  }

  predicate HasRole(ms: seq<Message>, role: Role) {
    exists i :: 0 <= i < |ms| && ms[i].role == role
  }

  function LeadingSystem(ms: seq<Message>): (n: nat)
    ensures n <= |ms|
    ensures forall i :: 0 <= i < n ==> ms[i].role == System
    ensures n < |ms| ==> ms[n].role != System
  {
    if ms == [] || ms[0].role != System then 0 else 1 + LeadingSystem(ms[1..])
  }

  /** The position of the request being answered: the newest user message, or failing that the last message. */
  function RequestAt(ms: seq<Message>): (r: nat)
    requires ms != []
    ensures r < |ms|
    ensures HasRole(ms, User) ==> ms[r].role == User && !HasRole(ms[r + 1..], User)
    ensures !HasRole(ms, User) ==> r == |ms| - 1
  {
    if HasRole(ms[1..], User) then
      assert ms[1..] != [];
      assert ms[1..][RequestAt(ms[1..]) + 1..] == ms[RequestAt(ms[1..]) + 2..];
      1 + RequestAt(ms[1..])
    else if ms[0].role == User then 0
    else |ms| - 1
  }

  /** The newest messages that fit, taken one by one from the end until one does not. */
  function Fit(ms: seq<Message>, used: int, budget: int): seq<Message> {
    if ms == [] then []
    else
      var last := ms[|ms| - 1];
      var cost := |last.content|;
      if used + cost > budget then []
      else Fit(ms[..|ms| - 1], used + cost, budget) + [last]
  }

  /** Takes off the tool results a window would begin with: the calls they answer are no longer in it. */
  function DropOrphans(ms: seq<Message>): seq<Message> {
    if ms != [] && ms[0].role == Tool then DropOrphans(ms[1..]) else ms
  }

  function KeptTurn(base: int, turn: seq<Message>, budget: int): seq<Message> {
    DropOrphans(Fit(turn, base, budget))
  }

  /** Earlier messages are carried only when the current turn is carried whole. */
  function KeptEarlier(base: int, earlier: seq<Message>, turn: seq<Message>, budget: int): seq<Message> {
    var kept := KeptTurn(base, turn, budget);
    if |kept| == |turn| then DropOrphans(Fit(earlier, base + Cost(kept), budget)) else []
  }

  function Window(pinned: seq<Message>, earlier: seq<Message>, request: Message, turn: seq<Message>,
                  budget: int): seq<Message> {
    var base := Cost(pinned) + |request.content|;
    Assemble(pinned, KeptEarlier(base, earlier, turn, budget), request, KeptTurn(base, turn, budget))
  }

  function Assemble(pinned: seq<Message>, earlier: seq<Message>, request: Message, turn: seq<Message>): seq<Message> {
    pinned + earlier + [request] + turn
  }

  /** The conversation as it is sent: all of it when no limit is set or there is nothing to drop. */
  function Trim(history: seq<Message>, limit: Option<int>): seq<Message> {
    var pinned := LeadingSystem(history);
    if limit.None? || pinned == |history| then history
    else
      var rest := history[pinned..];
      var at := RequestAt(rest);
      Window(history[..pinned], rest[..at], rest[at], rest[at + 1..], limit.value * CHARS_PER_TOKEN)
  }

  // ---- Both cuts keep a suffix ----

  lemma {:induction false} FitIsSuffix(ms: seq<Message>, used: int, budget: int)
    ensures |Fit(ms, used, budget)| <= |ms|
    ensures Fit(ms, used, budget) == ms[|ms| - |Fit(ms, used, budget)|..]
  {
    if ms != [] {
      FitIsSuffix(ms[..|ms| - 1], used + |ms[|ms| - 1].content|, budget);
    }
  }

  lemma {:induction false} DropOrphansIsSuffix(ms: seq<Message>)
    ensures var r := DropOrphans(ms);
            && |r| <= |ms| && r == ms[|ms| - |r|..]
            && (r != [] ==> r[0].role != Tool)
            && (forall i :: 0 <= i < |ms| - |r| ==> ms[i].role == Tool)
  {
    if ms != [] && ms[0].role == Tool {
      var tail := ms[1..];
      DropOrphansIsSuffix(tail);
      var r := DropOrphans(tail);
      hide DropOrphans;
      assert tail[|tail| - |r|..] == ms[|ms| - |r|..];
      forall i | 0 <= i < |ms| - |r| ensures ms[i].role == Tool {
        if i > 0 {
          assert tail[i - 1] == ms[i];
        }
      }
    }
  }

  // ---- The loops that compute it ----

  method DropLeadingOrphan(messages: seq<Message>) returns (kept: seq<Message>)
    ensures kept == DropOrphans(messages)
  {
    kept := messages;
    while kept != [] && kept[0].role == Tool
      invariant DropOrphans(kept) == DropOrphans(messages)
    {
      kept := kept[1..];
    }
  }

  lemma {:induction false} FitStep(messages: seq<Message>, i: nat, used: int, budget: int, kept: seq<Message>)
    requires 0 < i <= |messages| && used + |messages[i - 1].content| <= budget
    ensures Fit(messages[..i], used, budget) + kept
         == Fit(messages[..i - 1], used + |messages[i - 1].content|, budget) + ([messages[i - 1]] + kept)
    ensures Cost([messages[i - 1]] + kept) == |messages[i - 1].content| + Cost(kept)
  {
    assert messages[..i][..i - 1] == messages[..i - 1];
    assert ([messages[i - 1]] + kept)[1..] == kept;
  }

  lemma {:induction false} FitStops(messages: seq<Message>, i: nat, used: int, budget: int, kept: seq<Message>)
    requires i <= |messages| && (i > 0 ==> used + |messages[i - 1].content| > budget)
    ensures Fit(messages[..i], used, budget) + kept == kept
  {
  }

  lemma {:induction false} FitStart(messages: seq<Message>, used: int, budget: int)
    ensures Fit(messages, used, budget) == Fit(messages[..|messages|], used, budget) + []
  {
    assert messages[..|messages|] == messages;
  }

  /** Walks the messages backwards, adding up what is used. */
  method TakeNewest(messages: seq<Message>, start: int, budget: int) returns (kept: seq<Message>, used: int)
    ensures kept == Fit(messages, start, budget) && used == start + Cost(kept)
  {
    hide Fit, Cost;
    used, kept := start, [];
    CostOfNone();
    FitStart(messages, start, budget);
    var i := |messages|;
    while i > 0
      invariant 0 <= i <= |messages| && used == start + Cost(kept)
      invariant Fit(messages, start, budget) == Fit(messages[..i], used, budget) + kept
    {
      var cost := |messages[i - 1].content|;
      if used + cost > budget {
        break;
      }
      FitStep(messages, i, used, budget, kept);
      used, kept, i := used + cost, [messages[i - 1]] + kept, i - 1;
    }
    FitStops(messages, i, used, budget, kept);
  }

  lemma CostOfNone()
    ensures Cost([]) == 0
  {
  }

  method CountPinned(history: seq<Message>) returns (count: nat)
    ensures count == LeadingSystem(history)
  {
    count := 0;
    while count < |history| && history[count].role == System
      invariant 0 <= count <= |history|
      invariant LeadingSystem(history) == count + LeadingSystem(history[count..])
    {
      count := count + 1;
    }
  }

  method FindRequest(rest: seq<Message>) returns (at: nat)
    requires rest != []
    ensures at == RequestAt(rest)
  {
    at := |rest| - 1;
    var i := |rest| - 1;
    while i >= 0 && rest[i].role != User
      invariant -1 <= i < |rest|
      invariant forall k :: i < k < |rest| ==> rest[k].role != User
    {
      i := i - 1;
    }
    if i >= 0 {
      at := i;
    }
    RequestIsLast(rest, at);
  }

  method TotalLength(messages: seq<Message>) returns (total: nat)
    ensures total == Cost(messages)
  {
    total := 0;
    for k := 0 to |messages|
      invariant total + Cost(messages[k..]) == Cost(messages)
    {
      total := total + |messages[k].content|;
    }
  }

  method TrimToContextLimit(history: seq<Message>, limit: Option<int>) returns (window: seq<Message>)
    ensures window == Trim(history, limit)
  {
    hide Fit, Cost, DropOrphans, LeadingSystem, RequestAt, Trim, Window, KeptTurn, KeptEarlier, Assemble;
    var pinnedCount := CountPinned(history);
    TrimByParts(history, limit);
    if limit.None? || pinnedCount == |history| {
      return history;
    }
    var budget := limit.value * CHARS_PER_TOKEN;
    var pinned, rest := history[..pinnedCount], history[pinnedCount..];
    var requestAt := FindRequest(rest);
    var request := rest[requestAt];
    var turn, earlier := rest[requestAt + 1..], rest[..requestAt];
    var base := TotalLength(pinned);
    base := base + |request.content|;
    WindowByParts(pinned, earlier, request, turn, budget);
    var fitting, used := TakeNewest(turn, base, budget);
    var keptTurn := DropLeadingOrphan(fitting);
    if |keptTurn| == |turn| {
      var fittingEarlier, _ := TakeNewest(earlier, used, budget);
      var keptEarlier := DropLeadingOrphan(fittingEarlier);
      return Assemble(pinned, keptEarlier, request, keptTurn);
    }
    return Assemble(pinned, [], request, keptTurn);
  }

  lemma {:induction false} TrimByParts(history: seq<Message>, limit: Option<int>)
    ensures var n := LeadingSystem(history);
            if limit.None? || n == |history| then Trim(history, limit) == history
            else var rest := history[n..];
                 var at := RequestAt(rest);
                 Trim(history, limit)
                 == Window(history[..n], rest[..at], rest[at], rest[at + 1..], limit.value * CHARS_PER_TOKEN)
  {
  }

  lemma {:induction false} WindowByParts(pinned: seq<Message>, earlier: seq<Message>, request: Message,
                                         turn: seq<Message>, budget: int)
    ensures var base := Cost(pinned) + |request.content|;
            var fitting := Fit(turn, base, budget);
            var kept := DropOrphans(fitting);
            Window(pinned, earlier, request, turn, budget)
            == if |kept| == |turn|
               then Assemble(pinned, DropOrphans(Fit(earlier, base + Cost(fitting), budget)), request, kept)
               else Assemble(pinned, [], request, kept)
  {
    hide Fit, DropOrphans, Assemble, Cost;
    var base := Cost(pinned) + |request.content|;
    var fitting := Fit(turn, base, budget);
    FitIsSuffix(turn, base, budget);
    DropOrphansIsSuffix(fitting);
  }

  lemma {:induction false} RequestIsLast(ms: seq<Message>, at: nat)
    requires at < |ms| && forall k :: at < k < |ms| ==> ms[k].role != User
    requires ms[at].role == User || (at == |ms| - 1 && !HasRole(ms, User))
    ensures RequestAt(ms) == at
  {
    var r := RequestAt(ms);
    assert ms[at].role == User ==> HasRole(ms, User);
  }
}
