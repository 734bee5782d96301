/** What the Telnet parser promises: reads may be cut anywhere, encoded elements come back exactly,
    and a negotiation exchange dies out. */
module TelnetStream {
  import opened Wrappers
  import opened Telnet

  // ---- Where the stream is cut does not matter ----

  lemma {:induction false} FindEndGrows(a: seq<Byte>, b: seq<Byte>, from: nat)
    requires FindEnd(a, from).Some?
    ensures FindEnd(a + b, from) == FindEnd(a, from)
    decreases |a| - from
  {
    if !EndsAt(a, from) {
      assert !EndsAt(a + b, from);
      FindEndGrows(a, b, from + 1);
    }
  }

  /** An element that is complete stays the same element whatever arrives after it. */
  lemma FirstGrows(a: seq<Byte>, b: seq<Byte>)
    requires a != [] && First(a).Some?
    ensures First(a + b) == First(a)
  {
    if |a| > 1 && a[0] == IAC && a[1] == SB {
      FindEndGrows(a, b, 2);
    }
  }

  /** Cutting a stream in two: the first part leaves a fragment, and the fragment goes in front of the second. */
  lemma {:induction false} ConsumeSplits(a: seq<Byte>, b: seq<Byte>)
    ensures Consume(a + b) == Join(Consume(a), Consume(Consume(a).pending + b))
    decreases |a|
  {
    if a == [] {
      assert a + b == b;
    } else {
      match First(a)
      case None =>
      case Some(e) =>
        FirstGrows(a, b);
        assert (a + b)[e.size..] == a[e.size..] + b;
        ConsumeSplits(a[e.size..], b);
        var rest := Consume(a[e.size..]);
        JoinAssociates(Parsed(e.payload, e.replies, []), rest, Consume(rest.pending + b));
    }
  }

  lemma {:induction false} FeedIsConsume(pending: seq<Byte>, chunks: seq<seq<Byte>>)
    requires Consume(pending) == Parsed([], [], pending)
    ensures Feed(pending, chunks) == Consume(pending + Concat(chunks))
    decreases |chunks|
  {
    if chunks == [] {
      assert pending + Concat(chunks) == pending;
    } else {
      var head, tail := chunks[0], Concat(chunks[1..]);
      assert pending + Concat(chunks) == (pending + head) + tail;
      ConsumeSplits(pending + head, tail);
      PendingIsStable(pending + head);
      FeedIsConsume(Consume(pending + head).pending, chunks[1..]);
    }
  }

  lemma {:induction false} PendingIsStable(data: seq<Byte>)
    ensures Consume(Consume(data).pending) == Parsed([], [], Consume(data).pending)
    decreases |data|
  {
    if data != [] && First(data).Some? {
      PendingIsStable(data[First(data).value.size..]);
    }
  }

  /** Chunk invariance: however the bytes are cut into reads, the output, the replies and the carried
      fragment are those of one read of everything. */
  lemma {:induction false} ChunksDoNotMatter(chunks: seq<seq<Byte>>)
    ensures Feed([], chunks) == Consume(Concat(chunks))
  {
    FeedIsConsume([], chunks);
    assert [] + Concat(chunks) == Concat(chunks);
  }

  // ---- Encoding and parsing ----

  datatype Token =
    | Data(run: seq<Byte>)
    | Ignored(command: Byte)
    | Negotiation(command: Byte, option: Byte)
    | Subnegotiation(body: seq<Byte>)

  // From here to the round trip the byte values are those of RFC 854 (IAC 255, DONT 254, DO 253, WONT 252, WILL 251,
  // SB 250, SE 240), RFC 857 (echo 1) and RFC 858 (suppress go-ahead 3), written out.

  predicate Encodable(token: Token) {
    match token
    case Data(_) => true
    case Ignored(c) => c < 250
    case Negotiation(c, _) => 251 <= c <= 254
    case Subnegotiation(body) => forall i :: 0 <= i < |body| - 1 ==> !(body[i] == 255 && body[i + 1] == 240)
  }

  function Doubled(run: seq<Byte>): seq<Byte> {
    if run == [] then [] else (if run[0] == 255 then [255, 255] else [run[0]]) + Doubled(run[1..])
  }

  function Encode(token: Token): seq<Byte> {
    match token
    case Data(run) => Doubled(run)
    case Ignored(c) => [255, c]
    case Negotiation(c, option) => [255, c, option]
    case Subnegotiation(body) => [255, 250] + body + [255, 240]
  }

  /** A peer that WILL echo or suppress go-ahead is told to DO so, any other WILL is answered DONT, every DO is answered
      WONT, and nothing else is answered. */
  function DueReply(token: Token): seq<Byte> {
    match token
    case Negotiation(251, option) => [255, if option == 1 || option == 3 then 253 else 254, option]
    case Negotiation(253, option) => [255, 252, option]
    case _ => []
  }

  function EncodeAll(tokens: seq<Token>): seq<Byte> {
    if tokens == [] then [] else Encode(tokens[0]) + EncodeAll(tokens[1..])
  }

  function OutputOf(tokens: seq<Token>): seq<Byte> {
    if tokens == [] then []
    else (if tokens[0].Data? then tokens[0].run else []) + OutputOf(tokens[1..])
  }

  function RepliesTo(tokens: seq<Token>): seq<Byte> {
    if tokens == [] then [] else DueReply(tokens[0]) + RepliesTo(tokens[1..])
  }

  lemma {:induction false} ConsumeRun(run: seq<Byte>, rest: seq<Byte>)
    ensures Consume(Doubled(run) + rest) == Join(Parsed(run, [], []), Consume(rest))
    decreases |run|
  {
    if run == [] {
      assert Doubled(run) + rest == rest;
    } else {
      var head := if run[0] == 255 then [255, 255] else [run[0]];
      var tail := Doubled(run[1..]) + rest;
      var data := Doubled(run) + rest;
      assert data == head + tail;
      assert data[|head|..] == tail;
      assert First(data) == Some(Element(|head|, [run[0]], []));
      ConsumeRun(run[1..], rest);
      JoinAssociates(Parsed([run[0]], [], []), Parsed(run[1..], [], []), Consume(rest));
      assert [run[0]] + run[1..] == run;
    }
  }

  /** A subnegotiation reaches to the first IAC SE after its start, whatever its body holds. */
  lemma {:induction false} SubnegotiationEnds(body: seq<Byte>, rest: seq<Byte>)
    requires forall i :: 0 <= i < |body| ==> !EndsAt(body, i)
    ensures Consume([IAC, SB] + body + [IAC, SE] + rest) == Consume(rest)
  {
    var data := [IAC, SB] + body + [IAC, SE] + rest;
    var end := |body| + 2;
    assert EndsAt(data, end);
    forall i | 2 <= i < end ensures !EndsAt(data, i) {
      if i + 1 < end { assert !EndsAt(body, i - 2); }
    }
    assert FindEnd(data, 2) == Some(end);
    assert data[end + 2..] == rest;
    assert First(data) == Some(Element(end + 2, [], []));
  }

  lemma {:induction false} ConsumeToken(token: Token, rest: seq<Byte>)
    requires Encodable(token)
    ensures Consume(Encode(token) + rest) == Join(Parsed(OutputOf([token]), RepliesTo([token]), []), Consume(rest))
  {
    var data := Encode(token) + rest;
    assert [token][1..] == [];
    match token
    case Data(run) => ConsumeRun(run, rest); assert OutputOf([token]) == run;
    case Ignored(_) => assert data[2..] == rest;
    case Negotiation(c, option) =>
      assert data[3..] == rest;
      assert RepliesTo([token]) == DueReply(token);
      NegotiateIsDue(c, option);
    case Subnegotiation(body) => SubnegotiationEnds(body, rest);
  }

  lemma {:induction false} NegotiateIsDue(command: Byte, option: Byte)
    requires 251 <= command <= 254
    ensures Negotiates(command) && Negotiate(command, option) == DueReply(Negotiation(command, option))
  {
  }

  /** Every input is the encoding of some elements, and the beginning of one that is still to come. */
  lemma {:induction false} InputIsTokens(data: seq<Byte>) returns (tokens: seq<Token>)
    ensures forall i :: 0 <= i < |tokens| ==> Encodable(tokens[i])
    ensures data == EncodeAll(tokens) + Consume(data).pending
    decreases |data|
  {
    hide Encode, Encodable, First;
    tokens := [];
    if data != [] && First(data).Some? {
      var size := First(data).value.size;
      var token := FirstToken(data);
      var rest := InputIsTokens(data[size..]);
      tokens := [token] + rest;
      assert tokens[1..] == rest;
      assert data == data[..size] + data[size..];
    }
  }

  lemma {:induction false} FirstToken(data: seq<Byte>) returns (token: Token)
    requires data != [] && First(data).Some?
    ensures Encodable(token) && Encode(token) == data[..First(data).value.size]
  {
    if data[0] != 255 {
      token := Data([data[0]]);
      DoubledOne(data[0]);
    } else if data[1] == 255 {
      token := Data([data[0]]);
      DoubledOne(data[0]);
    } else if data[1] == 250 {
      var end := FindEnd(data, 2).value;
      token := Subnegotiation(data[2..end]);
      forall i | 0 <= i < |token.body| - 1 ensures !(token.body[i] == 255 && token.body[i + 1] == 240) {
        assert !EndsAt(data, i + 2);
      }
    } else if 251 <= data[1] <= 254 {
      token := Negotiation(data[1], data[2]);
    } else {
      token := Ignored(data[1]);
    }
  }

  lemma {:induction false} DoubledOne(b: Byte)
    ensures Doubled([b]) == if b == 255 then [255, 255] else [b]
  {
    assert [b][1..] == [];
  }

  /** Round trip: parsing the encoding of any elements yields exactly their data and exactly the
      answers to their negotiations, and leaves nothing pending. */
  lemma {:induction false} RoundTrip(tokens: seq<Token>)
    requires forall i :: 0 <= i < |tokens| ==> Encodable(tokens[i])
    ensures Consume(EncodeAll(tokens)) == Parsed(OutputOf(tokens), RepliesTo(tokens), [])
  {
    hide Encode, Encodable, DueReply, First;
    if tokens != [] {
      RoundTrip(tokens[1..]);
      ConsumeToken(tokens[0], EncodeAll(tokens[1..]));
      assert [tokens[0]][1..] == [];
      assert OutputOf([tokens[0]]) + OutputOf(tokens[1..]) == OutputOf(tokens);
      assert RepliesTo([tokens[0]]) + RepliesTo(tokens[1..]) == RepliesTo(tokens);
    }
  }

  // ---- The exchange with a peer dies out ----

  /** What is answered to any input at all: exactly what is due to the elements it is made of. */
  lemma {:induction false} RepliesAreDue(data: seq<Byte>) returns (tokens: seq<Token>)
    ensures forall i :: 0 <= i < |tokens| ==> Encodable(tokens[i])
    ensures data == EncodeAll(tokens) + Consume(data).pending
    ensures Consume(data) == Parsed(OutputOf(tokens), RepliesTo(tokens), Consume(data).pending)
  {
    hide Consume, EncodeAll, OutputOf, RepliesTo, Encodable;
    tokens := InputIsTokens(data);
    RoundTrip(tokens);
    ConsumeSplits(EncodeAll(tokens), Consume(data).pending);
    PendingIsStable(data);
    assert [] + Consume(data).pending == Consume(data).pending;
    assert OutputOf(tokens) + [] == OutputOf(tokens) && RepliesTo(tokens) + [] == RepliesTo(tokens);
  }

  /** A sequence of three-byte answers, DO being said only of echo and suppress-go-ahead. */
  predicate Answers(r: seq<Byte>) {
    r == [] ||
    (&& |r| >= 3 && r[0] == IAC && (r[1] == DO || r[1] == DONT || r[1] == WONT)
     && (r[1] == DO ==> r[2] == ECHO || r[2] == SUPPRESS_GO_AHEAD)
     && Answers(r[3..]))
  }

  predicate OnlyRefusals(r: seq<Byte>) {
    r == [] || (|r| >= 3 && r[0] == IAC && r[1] == WONT && OnlyRefusals(r[3..]))
  }

  lemma {:induction false} AnswersAppend(a: seq<Byte>, b: seq<Byte>)
    requires Answers(a) && Answers(b)
    ensures Answers(a + b)
    decreases |a|
  {
    if a == [] {
      assert a + b == b;
    } else {
      assert (a + b)[3..] == a[3..] + b;
      AnswersAppend(a[3..], b);
    }
  }

  lemma NegotiateAnswers(command: Byte, option: Byte)
    ensures Answers(Negotiate(command, option))
  {
    if command == WILL || command == DO {
      assert Negotiate(command, option)[3..] == [];
    }
  }

  lemma {:induction false} RepliesAreAnswers(data: seq<Byte>)
    ensures Answers(Consume(data).replies)
    ensures exists tokens ::
              data == EncodeAll(tokens) + Consume(data).pending && Consume(data).replies == RepliesTo(tokens)
  {
    AllAnswers(data);
    var tokens := RepliesAreDue(data);
    assert Consume(data).replies == RepliesTo(tokens);
  }

  lemma {:induction false} AllAnswers(data: seq<Byte>)
    ensures Answers(Consume(data).replies)
    decreases |data|
  {
    if data != [] && First(data).Some? {
      var e := First(data).value;
      AllAnswers(data[e.size..]);
      if e.replies != [] { NegotiateAnswers(data[1], data[2]); }
      AnswersAppend(e.replies, Consume(data[e.size..]).replies);
    }
  }

  lemma {:induction false} AnswersAreAnswered(r: seq<Byte>)
    requires Answers(r)
    ensures Consume(r).payload == [] && Consume(r).pending == [] && OnlyRefusals(Consume(r).replies)
    decreases |r|
  {
    if r != [] {
      AnswersAreAnswered(r[3..]);
      var first, later := Negotiate(r[1], r[2]), Consume(r[3..]).replies;
      assert First(r) == Some(Element(3, [], first));
      assert Consume(r).replies == first + later;
      if r[1] == DO {
        assert (first + later)[3..] == later;
      } else {
        assert first + later == later;
      }
    }
  }

  lemma {:induction false} RefusalsAreFinal(r: seq<Byte>)
    requires OnlyRefusals(r)
    ensures Consume(r) == Parsed([], [], [])
    decreases |r|
  {
    if r != [] {
      RefusalsAreFinal(r[3..]);
      assert First(r) == Some(Element(3, [], []));
    }
  }

  /** Whatever bytes start it, an exchange between two such sessions ends: the answers draw only
      refusals and no output from the second, and its refusals draw nothing at all from the first. */
  lemma {:induction false} ExchangeIsFinite(data: seq<Byte>)
    ensures var first := Consume(data).replies;
            var second := Consume(first);
            && Answers(first)
            && second.payload == [] && second.pending == [] && OnlyRefusals(second.replies)
            && Consume(second.replies) == Parsed([], [], [])
  {
    RepliesAreAnswers(data);
    AnswersAreAnswered(Consume(data).replies);
    RefusalsAreFinal(Consume(Consume(data).replies).replies);
  }
}
