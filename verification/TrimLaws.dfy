/** Laws of the context trim: its shape, its budget, and that trimming again after every round
    gives what one trim of the whole conversation would. */
module TrimLaws {
  import opened Wrappers
  import opened Conversation

  // ---- What fits ----

  /** The suffix from `k` on can be carried. The empty suffix always can. */
  predicate Carries(ms: seq<Message>, k: nat, used: int, budget: int)
    requires k <= |ms|
  {
    k == |ms| || used + Cost(ms[k..]) <= budget
  }

  lemma {:induction false} CostAppend(a: seq<Message>, b: seq<Message>)
    ensures Cost(a + b) == Cost(a) + Cost(b)
  {
    if a == [] {
      assert a + b == b;
    } else {
      assert (a + b)[1..] == a[1..] + b;
      CostAppend(a[1..], b);
    }
  }

  lemma {:induction false} CostOfSuffix(ms: seq<Message>, k: nat)
    requires k <= |ms|
    ensures Cost(ms) == Cost(ms[..k]) + Cost(ms[k..])
  {
    assert ms == ms[..k] + ms[k..];
    CostAppend(ms[..k], ms[k..]);
  }

  lemma CostShrinks(ms: seq<Message>, j: nat, k: nat)
    requires j <= k <= |ms|
    ensures Cost(ms[k..]) <= Cost(ms[j..])
  {
    CostOfSuffix(ms[j..], k - j);
    assert ms[j..][k - j..] == ms[k..];
  }

  /** What is kept is the longest suffix that can be carried. */
  lemma {:induction false} FitIsLongest(ms: seq<Message>, used: int, budget: int)
    ensures var n := |Fit(ms, used, budget)|;
            && n <= |ms| && Fit(ms, used, budget) == ms[|ms| - n..]
            && Carries(ms, |ms| - n, used, budget)
            && (forall j :: 0 <= j < |ms| - n ==> !Carries(ms, j, used, budget))
  {
    FitIsSuffix(ms, used, budget);
    var k := |ms| - |Fit(ms, used, budget)|;
    FitBoundary(ms, used, budget);
    forall j | 0 <= j < k ensures !Carries(ms, j, used, budget) {
      CostShrinks(ms, j, k - 1);
    }
  }

  lemma {:induction false} FitBoundary(ms: seq<Message>, used: int, budget: int)
    ensures var n := |Fit(ms, used, budget)|;
            && n <= |ms| && Carries(ms, |ms| - n, used, budget)
            && (n < |ms| ==> !Carries(ms, |ms| - n - 1, used, budget))
  {
    hide Carries, Cost;
    NothingCarries(ms, used, budget);
    if ms != [] {
      var front, last := ms[..|ms| - 1], ms[|ms| - 1];
      CostOfOne(last);
      assert ms == front + [last];
      if used + |last.content| > budget {
        LastDoesNotCarry(front, last, used, budget);
      } else {
        var more := used + |last.content|;
        FitBoundary(front, more, budget);
        var k := |front| - |Fit(front, more, budget)|;
        CarriesBeforeMore(front, [last], k, used, budget);
        if k > 0 {
          CarriesBeforeMore(front, [last], k - 1, used, budget);
        }
      }
    }
  }

  lemma NothingCarries(ms: seq<Message>, used: int, budget: int)
    ensures Carries(ms, |ms|, used, budget)
  {
  }

  lemma LastDoesNotCarry(front: seq<Message>, last: Message, used: int, budget: int)
    requires used + |last.content| > budget
    ensures !Carries(front + [last], |front|, used, budget)
  {
    assert (front + [last])[|front|..] == [last];
    CostOfOne(last);
  }

  lemma {:induction false} FitUnique(ms: seq<Message>, used: int, budget: int, k: nat)
    requires k <= |ms| && Carries(ms, k, used, budget) && (k > 0 ==> !Carries(ms, k - 1, used, budget))
    ensures Fit(ms, used, budget) == ms[k..]
  {
    FitIsLongest(ms, used, budget);
    var f := |ms| - |Fit(ms, used, budget)|;
    if f < k {
      CostShrinks(ms, f, k - 1);
    }
  }

  /** Less room keeps a suffix of what more room kept. */
  lemma {:induction false} FitTighter(ms: seq<Message>, used: int, more: int, budget: int)
    requires used <= more
    ensures |Fit(ms, more, budget)| <= |Fit(ms, used, budget)|
  {
    FitIsLongest(ms, used, budget);
    FitIsLongest(ms, more, budget);
    assert Carries(ms, |ms| - |Fit(ms, more, budget)|, used, budget);
  }

  lemma CarriesOfSuffix(ms: seq<Message>, j: nat, i: nat, used: int, budget: int)
    requires j + i <= |ms|
    ensures Carries(ms[j..], i, used, budget) <==> Carries(ms, j + i, used, budget)
  {
    assert ms[j..][i..] == ms[j + i..];
  }

  /** Cutting a list first and then fitting the rest of it: whichever cut is further right decides. */
  lemma {:induction false} FitOfSuffix(ms: seq<Message>, j: nat, used: int, budget: int)
    requires j <= |ms|
    ensures var k := |ms| - |Fit(ms, used, budget)|;
            0 <= k <= |ms| && Fit(ms[j..], used, budget) == ms[if j <= k then k else j..]
  {
    FitIsLongest(ms, used, budget);
    hide Fit, Carries, Cost;
    var k := |ms| - |Fit(ms, used, budget)|;
    var at := if j <= k then k - j else 0;
    assert ms[j..][at..] == ms[j + at..];
    if j > k {
      LaterCarries(ms, k, j, used, budget);
    }
    CarriesOfSuffix(ms, j, at, used, budget);
    if at > 0 {
      CarriesOfSuffix(ms, j, at - 1, used, budget);
    }
    FitUnique(ms[j..], used, budget, at);
  }

  lemma LaterCarries(ms: seq<Message>, k: nat, j: nat, used: int, budget: int)
    requires k <= j <= |ms| && Carries(ms, k, used, budget)
    ensures Carries(ms, j, used, budget)
  {
    CostShrinks(ms, k, j);
  }

  /** Messages in front of `d` are carried exactly when they fit in the room `d` leaves. */
  lemma {:induction false} CarriesBeforeMore(a: seq<Message>, d: seq<Message>, k: nat, used: int, budget: int)
    requires k <= |a| && d != [] && used + Cost(d) <= budget
    ensures Carries(a + d, k, used, budget) <==> Carries(a, k, used + Cost(d), budget)
  {
    assert (a + d)[k..] == a[k..] + d;
    CostAppend(a[k..], d);
    if k == |a| {
      assert a[k..] == [];
    }
  }

  lemma {:induction false} FitAppendRoom(a: seq<Message>, d: seq<Message>, used: int, budget: int)
    requires d != [] && used + Cost(d) <= budget
    ensures Fit(a + d, used, budget) == Fit(a, used + Cost(d), budget) + d
  {
    hide Fit, Carries;
    var more := used + Cost(d);
    FitIsLongest(a, more, budget);
    var k := |a| - |Fit(a, more, budget)|;
    assert (a + d)[k..] == a[k..] + d;
    CarriesBeforeMore(a, d, k, used, budget);
    if k > 0 {
      CarriesBeforeMore(a, d, k - 1, used, budget);
    }
    FitUnique(a + d, used, budget, k);
  }

  lemma {:induction false} AllDoesNotCarry(d: seq<Message>, used: int, budget: int)
    requires d != [] && used + Cost(d) > budget
    ensures !Carries(d, 0, used, budget)
  {
    assert d[0..] == d;
  }

  lemma {:induction false} FitAppendNoRoom(a: seq<Message>, d: seq<Message>, used: int, budget: int)
    requires d != [] && used + Cost(d) > budget
    ensures Fit(a + d, used, budget) == Fit(d, used, budget)
  {
    hide Fit, Cost, Carries;
    FitIsLongest(d, used, budget);
    var k := |d| - |Fit(d, used, budget)|;
    assert k > 0 by { AllDoesNotCarry(d, used, budget); }
    assert (a + d)[|a|..] == d;
    CarriesOfSuffix(a + d, |a|, k, used, budget);
    CarriesOfSuffix(a + d, |a|, k - 1, used, budget);
    assert (a + d)[|a| + k..] == d[k..];
    FitUnique(a + d, used, budget, |a| + k);
  }

  /** New messages at the end are fitted first; older ones get what room is left. */
  lemma {:induction false} FitAppend(a: seq<Message>, d: seq<Message>, used: int, budget: int)
    ensures Fit(a + d, used, budget)
         == if Carries(d, 0, used, budget) then Fit(a, used + Cost(d), budget) + d else Fit(d, used, budget)
  {
    assert d[0..] == d;
    if d == [] {
      assert a + d == a;
    } else if used + Cost(d) <= budget {
      FitAppendRoom(a, d, used, budget);
    } else {
      FitAppendNoRoom(a, d, used, budget);
    }
  }

  // ---- Leading tool results ----

  lemma {:induction false} DropAfterTools(tools: seq<Message>, rest: seq<Message>)
    requires forall i :: 0 <= i < |tools| ==> tools[i].role == Tool
    ensures DropOrphans(tools + rest) == DropOrphans(rest)
  {
    if tools == [] {
      assert tools + rest == rest;
    } else {
      assert (tools + rest)[1..] == tools[1..] + rest;
      DropAfterTools(tools[1..], rest);
    }
  }

  /** Dropping leading tool results before or after more is cut from the front makes no difference. */
  lemma {:induction false} DropCommutes(ms: seq<Message>, j: nat, k: nat, k': nat, d: seq<Message>)
    requires k <= j <= |ms| && k <= k' <= |ms|
    requires forall i :: k <= i < j ==> ms[i].role == Tool
    ensures DropOrphans(ms[if j <= k' then k' else j..] + d) == DropOrphans(ms[k'..] + d)
  {
    if k' < j {
      assert ms[k'..] + d == ms[k'..j] + (ms[j..] + d);
      DropAfterTools(ms[k'..j], ms[j..] + d);
    }
  }

  // ---- Trimming twice ----

  /** The turn part: what is kept of a turn trimmed earlier and then grown is what is kept of it whole. */
  lemma KeptTurnGrows(base: int, turn: seq<Message>, d: seq<Message>, budget: int)
    ensures KeptTurn(base, KeptTurn(base, turn, budget) + d, budget) == KeptTurn(base, turn + d, budget)
  {
    hide Fit, Cost, DropOrphans, Carries;
    var kept := KeptTurn(base, turn, budget);
    FitAppend(turn, d, base, budget);
    FitAppend(kept, d, base, budget);
    if Carries(d, 0, base, budget) {
      RefitAnd(turn, base, base + Cost(d), budget, d);
    }
  }

  /** Fitting again, with less room, what an earlier cut kept, in front of the same new messages. */
  lemma {:induction false} RefitAnd(ms: seq<Message>, used: int, more: int, budget: int, d: seq<Message>)
    requires used <= more
    ensures DropOrphans(Fit(DropOrphans(Fit(ms, used, budget)), more, budget) + d)
         == DropOrphans(Fit(ms, more, budget) + d)
  {
    hide Fit, DropOrphans;
    var fitting := Fit(ms, used, budget);
    var kept := DropOrphans(fitting);
    FitIsSuffix(ms, used, budget);
    DropOrphansIsSuffix(fitting);
    FitTighter(ms, used, more, budget);
    FitIsSuffix(ms, more, budget);
    var k, j := |ms| - |fitting|, |ms| - |kept|;
    var k' := |ms| - |Fit(ms, more, budget)|;
    assert kept == ms[j..];
    FitOfSuffix(ms, j, more, budget);
    forall i | k <= i < j ensures ms[i].role == Tool {
      assert fitting[i - k] == ms[i];
    }
    DropCommutes(ms, j, k, k', d);
  }

  lemma KeptTurnIsSuffix(base: int, turn: seq<Message>, budget: int)
    ensures var kept := KeptTurn(base, turn, budget); |kept| <= |turn| && kept == turn[|turn| - |kept|..]
  {
    FitIsSuffix(turn, base, budget);
    DropOrphansIsSuffix(Fit(turn, base, budget));
  }

  /** Fitting again, with less room, what an earlier trim kept of the earlier messages. */
  lemma {:induction false} RefitEarlier(earlier: seq<Message>, used: int, more: int, budget: int)
    requires used <= more
    ensures DropOrphans(Fit(DropOrphans(Fit(earlier, used, budget)), more, budget))
         == DropOrphans(Fit(earlier, more, budget))
  {
    RefitAnd(earlier, used, more, budget, []);
    assert Fit(DropOrphans(Fit(earlier, used, budget)), more, budget) + []
        == Fit(DropOrphans(Fit(earlier, used, budget)), more, budget);
    assert Fit(earlier, more, budget) + [] == Fit(earlier, more, budget);
  }

  lemma KeptEarlierGrows(base: int, earlier: seq<Message>, turn: seq<Message>, d: seq<Message>, budget: int)
    ensures KeptEarlier(base, KeptEarlier(base, earlier, turn, budget), KeptTurn(base, turn, budget) + d, budget)
         == KeptEarlier(base, earlier, turn + d, budget)
  {
    var kept := KeptTurn(base, turn, budget);
    var final := KeptTurn(base, turn + d, budget);
    KeptTurnGrows(base, turn, d, budget);
    KeptTurnIsSuffix(base, turn, budget);
    KeptTurnIsSuffix(base, kept + d, budget);
    if |kept| == |turn| {
      assert kept == turn;
      if |final| == |turn + d| {
        assert final == turn + d;
        CostAppend(turn, d);
        RefitEarlier(earlier, base + Cost(turn), base + Cost(final), budget);
      }
    }
  }

  /** Trimming a window that has grown by `d` gives the window of everything. */
  lemma {:induction false} WindowGrows(pinned: seq<Message>, earlier: seq<Message>, request: Message,
                                       turn: seq<Message>,
                    d: seq<Message>, budget: int)
    ensures var base := Cost(pinned) + |request.content|;
            Window(pinned, KeptEarlier(base, earlier, turn, budget), request, KeptTurn(base, turn, budget) + d, budget)
            == Window(pinned, earlier, request, turn + d, budget)
  {
    hide KeptEarlier, KeptTurn;
    var base := Cost(pinned) + |request.content|;
    KeptTurnGrows(base, turn, d, budget);
    KeptEarlierGrows(base, earlier, turn, d, budget);
  }

  /** A history as the service builds one: system messages first, then a conversation in which nothing
      before the newest user message is a system message. */
  predicate Shaped(pinned: seq<Message>, earlier: seq<Message>, request: Message, turn: seq<Message>) {
    && (forall i :: 0 <= i < |pinned| ==> pinned[i].role == System)
    && !HasRole(earlier, System)
    && request.role == User
    && !HasRole(turn, User)
  }

  lemma {:induction false} LeadingSystemIs(pinned: seq<Message>, rest: seq<Message>)
    requires forall i :: 0 <= i < |pinned| ==> pinned[i].role == System
    requires rest != [] ==> rest[0].role != System
    ensures LeadingSystem(pinned + rest) == |pinned|
  {
    if pinned == [] {
      assert pinned + rest == rest;
    } else {
      assert (pinned + rest)[1..] == pinned[1..] + rest;
      LeadingSystemIs(pinned[1..], rest);
    }
  }

  /** The parts the trim itself would find. */
  predicate Splits(pinned: seq<Message>, earlier: seq<Message>, request: Message, turn: seq<Message>) {
    && (forall i :: 0 <= i < |pinned| ==> pinned[i].role == System)
    && (earlier != [] ==> earlier[0].role != System)
    && request.role == User
    && !HasRole(turn, User)
  }

  lemma TrimOfSplit(pinned: seq<Message>, earlier: seq<Message>, request: Message, turn: seq<Message>, limit: int)
    requires Splits(pinned, earlier, request, turn)
    ensures Trim(Assemble(pinned, earlier, request, turn), Some(limit))
         == Window(pinned, earlier, request, turn, limit * CHARS_PER_TOKEN)
  {
    hide Window, LeadingSystem, RequestAt;
    var rest := earlier + [request] + turn;
    var history := Assemble(pinned, earlier, request, turn);
    assert history == pinned + rest && history[|pinned|..] == rest && history[..|pinned|] == pinned;
    SplitHead(pinned, earlier, request, turn);
    LeadingSystemIs(pinned, rest);
    SplitRequest(pinned, earlier, request, turn);
    assert rest[..|earlier|] == earlier && rest[|earlier|] == request && rest[|earlier| + 1..] == turn;
  }

  lemma SplitHead(pinned: seq<Message>, earlier: seq<Message>, request: Message, turn: seq<Message>)
    requires Splits(pinned, earlier, request, turn)
    ensures (earlier + [request] + turn)[0].role != System
  {
    if earlier != [] {
      assert (earlier + [request] + turn)[0] == earlier[0];
    }
  }

  lemma {:induction false} SplitRequest(pinned: seq<Message>, earlier: seq<Message>, request: Message,
                                        turn: seq<Message>)
    requires Splits(pinned, earlier, request, turn)
    ensures RequestAt(earlier + [request] + turn) == |earlier|
  {
    var rest, at := earlier + [request] + turn, |earlier|;
    forall k | at < k < |rest| ensures rest[k].role != User {
      assert rest[k] == turn[k - at - 1];
    }
    assert rest[at].role == User;
    RequestIsLast(rest, at);
  }

  /** On a shaped history the trim finds exactly its parts. */
  lemma TrimOfShaped(pinned: seq<Message>, earlier: seq<Message>, request: Message, turn: seq<Message>, limit: int)
    requires Shaped(pinned, earlier, request, turn)
    ensures Trim(Assemble(pinned, earlier, request, turn), Some(limit))
         == Window(pinned, earlier, request, turn, limit * CHARS_PER_TOKEN)
  {
    TrimOfSplit(pinned, earlier, request, turn, limit);
  }

  lemma {:induction false} SuffixLacksRole(ms: seq<Message>, k: nat, role: Role)
    requires k <= |ms| && !HasRole(ms, role)
    ensures !HasRole(ms[k..], role)
  {
    forall i | 0 <= i < |ms[k..]| ensures ms[k..][i].role != role {
      assert ms[k..][i] == ms[k + i];
    }
  }

  lemma KeptEarlierIsSuffix(base: int, earlier: seq<Message>, turn: seq<Message>, budget: int)
    ensures var kept := KeptEarlier(base, earlier, turn, budget);
            |kept| <= |earlier| && kept == earlier[|earlier| - |kept|..]
  {
    var used := base + Cost(KeptTurn(base, turn, budget));
    FitIsSuffix(earlier, used, budget);
    DropOrphansIsSuffix(Fit(earlier, used, budget));
  }

  /** What a shaped history is trimmed to is shaped again, and stays so as the turn goes on. */
  lemma KeptIsShaped(pinned: seq<Message>, earlier: seq<Message>, request: Message, turn: seq<Message>,
                     d: seq<Message>, base: int, budget: int)
    requires Shaped(pinned, earlier, request, turn) && !HasRole(d, User)
    ensures Shaped(pinned, earlier, request, turn + d)
    ensures Shaped(pinned, KeptEarlier(base, earlier, turn, budget), request, KeptTurn(base, turn, budget) + d)
  {
    hide KeptEarlier, KeptTurn;
    var e, t := KeptEarlier(base, earlier, turn, budget), KeptTurn(base, turn, budget);
    KeptEarlierIsSuffix(base, earlier, turn, budget);
    KeptTurnIsSuffix(base, turn, budget);
    SuffixLacksRole(earlier, |earlier| - |e|, System);
    SuffixLacksRole(turn, |turn| - |t|, User);
    AppendLacksRole(t, d, User);
    AppendLacksRole(turn, d, User);
  }

  lemma AppendLacksRole(a: seq<Message>, b: seq<Message>, role: Role)
    ensures HasRole(a + b, role) <==> HasRole(a, role) || HasRole(b, role)
  {
    if i :| 0 <= i < |a| && a[i].role == role { assert (a + b)[i].role == role; }
    if i :| 0 <= i < |b| && b[i].role == role { assert (a + b)[|a| + i].role == role; }
  }

  /** Incremental trimming: trimming, letting the turn grow by anything but a user message, and trimming
      again is trimming once at the end. With nothing added it says that trimming is idempotent. */
  lemma TrimIsIncremental(pinned: seq<Message>, earlier: seq<Message>, request: Message, turn: seq<Message>,
                          d: seq<Message>, limit: Option<int>)
    requires Shaped(pinned, earlier, request, turn) && !HasRole(d, User)
    ensures var h := Assemble(pinned, earlier, request, turn);
            Trim(Trim(h, limit) + d, limit) == Trim(h + d, limit)
  {
    hide KeptEarlier, KeptTurn, Trim, Shaped, Cost, Assemble;
    var h := Assemble(pinned, earlier, request, turn);
    match limit
    case None =>
      NoLimitKeepsAll(h);
      NoLimitKeepsAll(h + d);
    case Some(tokens) =>
      var budget, base := tokens * CHARS_PER_TOKEN, Cost(pinned) + |request.content|;
      var e, t := KeptEarlier(base, earlier, turn, budget), KeptTurn(base, turn, budget);
      WindowIs(pinned, earlier, request, turn, budget);
      KeptIsShaped(pinned, earlier, request, turn, d, base, budget);
      TrimOfShaped(pinned, earlier, request, turn, tokens);
      AssembleAppend(pinned, e, request, t, d);
      AssembleAppend(pinned, earlier, request, turn, d);
      TrimOfShaped(pinned, e, request, t + d, tokens);
      TrimOfShaped(pinned, earlier, request, turn + d, tokens);
      WindowGrows(pinned, earlier, request, turn, d, budget);
  }

  lemma {:induction false} WindowIs(pinned: seq<Message>, earlier: seq<Message>, request: Message, turn: seq<Message>,
                                    budget: int)
    ensures var base := Cost(pinned) + |request.content|;
            Window(pinned, earlier, request, turn, budget)
            == Assemble(pinned, KeptEarlier(base, earlier, turn, budget), request, KeptTurn(base, turn, budget))
  {
  }

  lemma AssembleAppend(pinned: seq<Message>, earlier: seq<Message>, request: Message, turn: seq<Message>,
                       d: seq<Message>)
    ensures Assemble(pinned, earlier, request, turn) + d == Assemble(pinned, earlier, request, turn + d)
  {
  }

  /** The histories the service trims: a user message after the leading system messages, and no system
      message between those and the newest user message. */
  predicate Conversational(h: seq<Message>) {
    var rest := h[LeadingSystem(h)..];
    HasRole(rest, User) && !HasRole(rest[..RequestAt(rest)], System)
  }

  lemma {:induction false} ConversationalIsShaped(h: seq<Message>)
    requires Conversational(h)
    ensures var n := LeadingSystem(h);
            var rest := h[n..];
            var at := RequestAt(rest);
            && Shaped(h[..n], rest[..at], rest[at], rest[at + 1..])
            && h == Assemble(h[..n], rest[..at], rest[at], rest[at + 1..])
  {
    hide LeadingSystem, RequestAt, Assemble;
    PartsMakeWhole(h, LeadingSystem(h), RequestAt(h[LeadingSystem(h)..]));
  }

  lemma PartsMakeWhole(h: seq<Message>, n: nat, at: nat)
    requires n <= |h| && at < |h[n..]|
    ensures var rest := h[n..]; h == Assemble(h[..n], rest[..at], rest[at], rest[at + 1..])
  {
    assert h[n..] == h[n..][..at] + [h[n..][at]] + h[n..][at + 1..];
  }

  /** Re-trimming every round gives what one trim of the whole conversation gives. */
  lemma TrimmingAgainIsTrimmingOnce(h: seq<Message>, d: seq<Message>, limit: Option<int>)
    requires Conversational(h) && !HasRole(d, User)
    ensures Trim(Trim(h, limit) + d, limit) == Trim(h + d, limit)
  {
    ConversationalIsShaped(h);
    hide Trim, LeadingSystem, RequestAt, Conversational, Shaped;
    var rest := h[LeadingSystem(h)..];
    var at := RequestAt(rest);
    TrimIsIncremental(h[..LeadingSystem(h)], rest[..at], rest[at], rest[at + 1..], d, limit);
  }

  lemma TrimIsIdempotent(h: seq<Message>, limit: Option<int>)
    requires Conversational(h)
    ensures Trim(Trim(h, limit), limit) == Trim(h, limit)
  {
    TrimmingAgainIsTrimmingOnce(h, [], limit);
    assert Trim(h, limit) + [] == Trim(h, limit) && h + [] == h;
  }

  /** The rounds of one turn: trim, let the turn grow, trim, and so on. */
  function TrimEachRound(h: seq<Message>, rounds: seq<seq<Message>>, limit: Option<int>): seq<Message>
    decreases |rounds|
  {
    if rounds == [] then Trim(h, limit)
    else TrimEachRound(Trim(h, limit) + rounds[0], rounds[1..], limit)
  }

  function Flatten(rounds: seq<seq<Message>>): seq<Message> {
    if rounds == [] then [] else rounds[0] + Flatten(rounds[1..])
  }

  lemma GrowthStaysConversational(h: seq<Message>, d: seq<Message>, limit: Option<int>)
    requires Conversational(h) && !HasRole(d, User)
    ensures Conversational(h + d) && Conversational(Trim(h, limit) + d)
  {
    ConversationalIsShaped(h);
    var n := LeadingSystem(h);
    var rest := h[n..];
    var at := RequestAt(rest);
    var pinned, earlier, request, turn := h[..n], rest[..at], rest[at], rest[at + 1..];
    GrowthFromParts(pinned, earlier, request, turn, d, limit);
  }

  lemma GrowthFromParts(pinned: seq<Message>, earlier: seq<Message>, request: Message, turn: seq<Message>,
                        d: seq<Message>, limit: Option<int>)
    requires Shaped(pinned, earlier, request, turn) && !HasRole(d, User)
    ensures var h := Assemble(pinned, earlier, request, turn);
            Conversational(h + d) && Conversational(Trim(h, limit) + d)
  {
    hide Trim, Shaped, KeptEarlier, KeptTurn, Conversational;
    var h := Assemble(pinned, earlier, request, turn);
    var base := Cost(pinned) + |request.content|;
    var budget := if limit.Some? then limit.value * CHARS_PER_TOKEN else 0;
    KeptIsShaped(pinned, earlier, request, turn, d, base, budget);
    AssembleAppend(pinned, earlier, request, turn, d);
    ShapedIsConversational(pinned, earlier, request, turn + d);
    if limit.Some? {
      TrimOfShaped(pinned, earlier, request, turn, limit.value);
      var e, t := KeptEarlier(base, earlier, turn, budget), KeptTurn(base, turn, budget);
      AssembleAppend(pinned, e, request, t, d);
      ShapedIsConversational(pinned, e, request, t + d);
    } else {
      NoLimitKeepsAll(h);
    }
  }

  lemma NoLimitKeepsAll(h: seq<Message>)
    ensures Trim(h, None) == h
  {
  }

  lemma ShapedIsConversational(pinned: seq<Message>, earlier: seq<Message>, request: Message, turn: seq<Message>)
    requires Shaped(pinned, earlier, request, turn)
    ensures Conversational(Assemble(pinned, earlier, request, turn))
  {
    hide LeadingSystem, RequestAt;
    var rest := earlier + [request] + turn;
    var h := Assemble(pinned, earlier, request, turn);
    assert h == pinned + rest && h[|pinned|..] == rest;
    assert Splits(pinned, earlier, request, turn);
    SplitHead(pinned, earlier, request, turn);
    LeadingSystemIs(pinned, rest);
    SplitRequest(pinned, earlier, request, turn);
    assert rest[|earlier|].role == User;
    assert rest[..|earlier|] == earlier;
  }

  lemma Regroup(a: seq<Message>, b: seq<Message>, c: seq<Message>)
    ensures (a + b) + c == a + (b + c)
  {
  }

  /** Any number of rounds: what the last request carries is one trim of everything said. */
  lemma {:induction false} RoundsAreOneTrim(h: seq<Message>, rounds: seq<seq<Message>>, limit: Option<int>)
    requires Conversational(h) && !HasRole(Flatten(rounds), User)
    ensures TrimEachRound(h, rounds, limit) == Trim(h + Flatten(rounds), limit)
    decreases |rounds|
  {
    hide Trim, Conversational, HasRole;
    if rounds == [] {
      assert h + Flatten(rounds) == h;
    } else {
      var d, later := rounds[0], Flatten(rounds[1..]);
      AppendLacksRole(d, later, User);
      GrowthStaysConversational(h, d, limit);
      RoundsAreOneTrim(Trim(h, limit) + d, rounds[1..], limit);
      Regroup(Trim(h, limit), d, later);
      TrimmingAgainIsTrimmingOnce(h, d + later, limit);
    }
  }

  /** Without the condition on system messages the law fails: a system message that comes to lead the
      window is pinned from then on, at the cost of the turn. */
  lemma SystemInTheMiddleBreaksIt()
    ensures var h := [Message(User, "xxxx", None, []), Message(System, "ss", None, []), Message(User, "u", None, [])];
            var d := [Message(Assistant, "aa", None, [])];
            Trim(Trim(h, Some(1)) + d, Some(1)) != Trim(h + d, Some(1))
  {
    hide Trim;
    var u1, s, u2 := Message(User, "xxxx", None, []), Message(System, "ss", None, []), Message(User, "u", None, []);
    var a := Message(Assistant, "aa", None, []);
    assert [u1, s, u2] + [a] == [u1, s, u2, a];
    assert [s, u2] + [a] == [s, u2, a];
    TrimAtOnce(u1, s, u2, a);
    TrimFirst(u1, s, u2);
    TrimSecond(s, u2, a);
    assert [s, u2][0] != [u2, a][0];
  }

  /** In one trim the answer fits and the system message no longer does. */
  lemma TrimAtOnce(u1: Message, s: Message, u2: Message, a: Message)
    requires u1.role == User && u2.role == User && s.role == System && a.role == Assistant
    requires |u1.content| == 4 && |s.content| == 2 && |u2.content| == 1 && |a.content| == 2
    ensures Trim([u1, s, u2, a], Some(1)) == [u2, a]
  {
    hide Trim, Window, Fit, Cost, KeptTurn, KeptEarlier;
    assert Assemble([], [u1, s], u2, [a]) == [u1, s, u2, a];
    TrimOfSplit([], [u1, s], u2, [a], 1);
    CostOfNone();
    CostOfOne(a);
    FitOne(a, 1, 4);
    FitSecondOnly(u1, s, 3, 4);
    WindowByParts([], [u1, s], u2, [a], 4);
    assert Assemble([], [], u2, [a]) == [u2, a];
  }

  /** Trimming before the answer keeps the system message in front ... */
  lemma TrimFirst(u1: Message, s: Message, u2: Message)
    requires u1.role == User && u2.role == User && s.role == System
    requires |u1.content| == 4 && |s.content| == 2 && |u2.content| == 1
    ensures Trim([u1, s, u2], Some(1)) == [s, u2]
  {
    hide Trim, Window, Fit, Cost, KeptTurn, KeptEarlier;
    assert Assemble([], [u1, s], u2, []) == [u1, s, u2];
    TrimOfSplit([], [u1, s], u2, [], 1);
    CostOfNone();
    FitNothing(1, 4);
    FitSecondOnly(u1, s, 1, 4);
    WindowByParts([], [u1, s], u2, [], 4);
    assert Assemble([], [s], u2, []) == [s, u2];
  }

  /** ... where the next trim pins it and has no room for the answer. */
  lemma TrimSecond(s: Message, u2: Message, a: Message)
    requires u2.role == User && s.role == System && a.role == Assistant
    requires |s.content| == 2 && |u2.content| == 1 && |a.content| == 2
    ensures Trim([s, u2, a], Some(1)) == [s, u2]
  {
    hide Trim, Window, Fit, Cost, KeptTurn, KeptEarlier;
    assert Assemble([s], [], u2, [a]) == [s, u2, a];
    TrimOfSplit([s], [], u2, [a], 1);
    CostOfNone();
    CostOfOne(s);
    FitTooLong([], a, 3, 4);
    assert [] + [a] == [a];
    WindowByParts([s], [], u2, [a], 4);
    assert Assemble([s], [], u2, []) == [s, u2];
  }

  lemma {:induction false} FitTooLong(front: seq<Message>, m: Message, used: int, budget: int)
    requires used + |m.content| > budget
    ensures Fit(front + [m], used, budget) == []
  {
  }

  lemma {:induction false} FitSecondOnly(u: Message, s: Message, used: int, budget: int)
    requires used + |s.content| + |u.content| > budget
    ensures Fit([u, s], used, budget) == if used + |s.content| > budget then [] else [s]
  {
    assert [u, s][..1] == [u];
  }

  lemma {:induction false} FitNothing(used: int, budget: int)
    ensures Fit([], used, budget) == []
  {
  }

  lemma {:induction false} FitOne(m: Message, used: int, budget: int)
    requires used + |m.content| <= budget
    ensures Fit([m], used, budget) == [m]
  {
    assert [m][..0] == [];
  }

  // ---- The shape of a window ----

  /** The messages from here on fit, and do not open on a tool result. */
  predicate MayOpen(ms: seq<Message>, i: nat, used: int, budget: int)
    requires i <= |ms|
  {
    i == |ms| || (used + Cost(ms[i..]) <= budget && ms[i].role != Tool)
  }

  /** The longest such suffix. */
  predicate OpensFirst(ms: seq<Message>, k: nat, used: int, budget: int) {
    k <= |ms| && MayOpen(ms, k, used, budget) && forall i :: 0 <= i < k ==> !MayOpen(ms, i, used, budget)
  }

  lemma {:induction false} KeptOpensFirst(ms: seq<Message>, used: int, budget: int)
    ensures var kept := DropOrphans(Fit(ms, used, budget));
            |kept| <= |ms| && kept == ms[|ms| - |kept|..] && OpensFirst(ms, |ms| - |kept|, used, budget)
  {
    hide Cost, Fit, DropOrphans;
    var fitting := Fit(ms, used, budget);
    var kept := DropOrphans(fitting);
    FitIsLongest(ms, used, budget);
    DropOrphansIsSuffix(fitting);
    var f, k := |ms| - |fitting|, |ms| - |kept|;
    assert kept == ms[k..];
    if k < |ms| {
      CostShrinks(ms, f, k);
    }
    forall i | 0 <= i < k ensures !MayOpen(ms, i, used, budget) {
      if i < f {
        assert !Carries(ms, i, used, budget);
      } else {
        assert fitting[i - f] == ms[i];
      }
    }
  }

  /** Shape and budget: what is sent is the leading system messages, the longest suffix of the earlier messages that
      fits, the request and the longest suffix of its turn that fits, neither opening on a tool result; earlier
      messages only beside a whole turn; and no more characters than the budget, unless the pinned parts alone exceed
      it. */
  lemma {:induction false} TrimShape(h: seq<Message>, limit: int) returns (j: nat, k: nat)
    requires LeadingSystem(h) < |h|
    ensures var n, budget := LeadingSystem(h), limit * CHARS_PER_TOKEN;
            var rest := h[n..];
            var at := RequestAt(rest);
            var pinnedCost := Cost(h[..n]) + |rest[at].content|;
            && j <= at && at < k <= |rest|
            && Trim(h, Some(limit)) == h[..n] + rest[j..at] + [rest[at]] + rest[k..]
            && OpensFirst(rest[at + 1..], k - at - 1, pinnedCost, budget)
            && (if k == at + 1 then OpensFirst(rest[..at], j, pinnedCost + Cost(rest[k..]), budget) else j == at)
            && Cost(Trim(h, Some(limit))) <= if pinnedCost > budget then pinnedCost else budget
  {
    hide Trim, LeadingSystem, RequestAt, Cost, Window, HasRole, OpensFirst;
    var n := LeadingSystem(h);
    var rest := h[n..];
    var at := RequestAt(rest);
    TrimByParts(h, Some(limit));
    var fromTurn;
    j, fromTurn := WindowShape(h[..n], rest[..at], rest[at], rest[at + 1..], limit * CHARS_PER_TOKEN);
    k := at + 1 + fromTurn;
    SlicesOfSlices(rest, at, j, fromTurn);
  }

  lemma SlicesOfSlices(ms: seq<Message>, at: nat, j: nat, k: nat)
    requires j <= at < |ms| && at + 1 + k <= |ms|
    ensures ms[..at][j..] == ms[j..at] && ms[at + 1..][k..] == ms[at + 1 + k..]
  {
  }

  lemma {:induction false} WindowShape(pinned: seq<Message>, earlier: seq<Message>, request: Message,
                                       turn: seq<Message>, budget: int)
    returns (j: nat, k: nat)
    ensures j <= |earlier| && k <= |turn|
    ensures Window(pinned, earlier, request, turn, budget) == pinned + earlier[j..] + [request] + turn[k..]
    ensures var pinnedCost := Cost(pinned) + |request.content|;
            && OpensFirst(turn, k, pinnedCost, budget)
            && (if k == 0 then OpensFirst(earlier, j, pinnedCost + Cost(turn), budget) else j == |earlier|)
            && Cost(Window(pinned, earlier, request, turn, budget)) <= if pinnedCost > budget then pinnedCost else budget
  {
    hide Cost, Fit, DropOrphans, OpensFirst;
    var base := Cost(pinned) + |request.content|;
    var e, t := KeptEarlier(base, earlier, turn, budget), KeptTurn(base, turn, budget);
    KeptOpensFirst(turn, base, budget);
    KeptEarlierIsSuffix(base, earlier, turn, budget);
    j, k := |earlier| - |e|, |turn| - |t|;
    if k == 0 {
      KeptOpensFirst(earlier, base + Cost(turn), budget);
    }
    WindowCost(pinned, e, request, t);
    KeptCost(base, earlier, turn, budget);
  }

  lemma KeptOpensWell(base: int, earlier: seq<Message>, turn: seq<Message>, budget: int)
    ensures var e, t := KeptEarlier(base, earlier, turn, budget), KeptTurn(base, turn, budget);
            && (e != [] ==> e[0].role != Tool) && (t != [] ==> t[0].role != Tool)
            && (|t| < |turn| ==> e == [])
  {
    hide Fit, DropOrphans;
    KeptTurnIsSuffix(base, turn, budget);
    DropOrphansIsSuffix(Fit(turn, base, budget));
    DropOrphansIsSuffix(Fit(earlier, base + Cost(KeptTurn(base, turn, budget)), budget));
  }

  lemma {:induction false} WindowCost(pinned: seq<Message>, e: seq<Message>, request: Message, t: seq<Message>)
    ensures Cost(Assemble(pinned, e, request, t)) == Cost(pinned) + |request.content| + Cost(e) + Cost(t)
  {
    hide Cost;
    CostOfOne(request);
    CostAppend(pinned + e + [request], t);
    CostAppend(pinned + e, [request]);
    CostAppend(pinned, e);
  }

  lemma KeptCost(base: int, earlier: seq<Message>, turn: seq<Message>, budget: int)
    ensures base + Cost(KeptEarlier(base, earlier, turn, budget)) + Cost(KeptTurn(base, turn, budget))
         <= if base > budget then base else budget
  {
    hide Fit, DropOrphans, Cost;
    var t := KeptTurn(base, turn, budget);
    CostOfNone();
    KeptWithinBudget(turn, base, budget);
    KeptWithinBudget(earlier, base + Cost(t), budget);
  }

  lemma CostOfOne(m: Message)
    ensures Cost([m]) == |m.content|
  {
    assert [m][1..] == [];
  }

  lemma {:induction false} KeptWithinBudget(ms: seq<Message>, used: int, budget: int)
    ensures var kept := DropOrphans(Fit(ms, used, budget)); kept == [] || used + Cost(kept) <= budget
  {
    FitIsLongest(ms, used, budget);
    DropOrphansIsSuffix(Fit(ms, used, budget));
    var fitting := Fit(ms, used, budget);
    CostShrinks(fitting, 0, |fitting| - |DropOrphans(fitting)|);
    assert fitting[0..] == fitting;
  }
}
