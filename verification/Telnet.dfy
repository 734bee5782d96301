/** The Telnet console's byte stream: an incremental parser that keeps an unfinished command between
    reads and answers option negotiation (RFC 854, RFC 855, RFC 857, RFC 858). */
module Telnet {
  import opened Wrappers

  newtype Byte = b: int | 0 <= b < 256

  const IAC: Byte := 255
  const DONT: Byte := 254
  const DO: Byte := 253
  const WONT: Byte := 252
  const WILL: Byte := 251
  const SB: Byte := 250
  const SE: Byte := 240
  const ECHO: Byte := 1
  const SUPPRESS_GO_AHEAD: Byte := 3

  /** What a stretch of the stream amounts to: terminal output, negotiation replies, and the
      unfinished command it ends on. */
  datatype Parsed = Parsed(payload: seq<Byte>, replies: seq<Byte>, pending: seq<Byte>)

  /** One complete element at the front of the stream, and how many bytes it takes. */
  datatype Element = Element(size: nat, payload: seq<Byte>, replies: seq<Byte>)

  predicate Negotiates(command: Byte) {
    command == WILL || command == WONT || command == DO || command == DONT
  }

  function Negotiate(command: Byte, option: Byte): seq<Byte> {
    if command == WILL then [IAC, if option == ECHO || option == SUPPRESS_GO_AHEAD then DO else DONT, option]
    else if command == DO then [IAC, WONT, option]
    else []
  }

  predicate EndsAt(data: seq<Byte>, i: nat) {
    i + 1 < |data| && data[i] == IAC && data[i + 1] == SE
  }

  /** The first place at or after `from` where a subnegotiation ends. */
  function FindEnd(data: seq<Byte>, from: nat): (r: Option<nat>)
    ensures r.Some? ==> from <= r.value && EndsAt(data, r.value)
    ensures forall i :: from <= i < (if r.Some? then r.value else |data|) ==> !EndsAt(data, i)
    decreases |data| - from
  {
    if from + 1 >= |data| then None
    else if EndsAt(data, from) then Some(from)
    else FindEnd(data, from + 1)
  }

  /** The first complete element, or None when the data is the beginning of an unfinished command. */
  function First(data: seq<Byte>): (r: Option<Element>)
    requires data != []
    ensures r.Some? ==> 0 < r.value.size <= |data|
  {
    if data[0] != IAC then Some(Element(1, [data[0]], []))
    else if |data| == 1 then None
    else if data[1] == IAC then Some(Element(2, [IAC], []))
    else if data[1] == SB then
      match FindEnd(data, 2)
      case Some(end) => Some(Element(end + 2, [], []))
      case None => None
    else if Negotiates(data[1]) then
      if |data| == 2 then None else Some(Element(3, [], Negotiate(data[1], data[2])))
    else Some(Element(2, [], []))
  }

  function Join(a: Parsed, b: Parsed): Parsed {
    Parsed(a.payload + b.payload, a.replies + b.replies, b.pending)
  }

  function Consume(data: seq<Byte>): Parsed
    decreases |data|
  {
    if data == [] then Parsed([], [], [])
    else
      match First(data)
      case None => Parsed([], [], data)
      case Some(e) => Join(Parsed(e.payload, e.replies, []), Consume(data[e.size..]))
  }

  /** What successive reads amount to, each consuming the pending bytes of the one before. */
  function Feed(pending: seq<Byte>, chunks: seq<seq<Byte>>): Parsed
    decreases |chunks|
  {
    if chunks == [] then Parsed([], [], pending)
    else
      var p := Consume(pending + chunks[0]);
      Join(p, Feed(p.pending, chunks[1..]))
  }

  function Concat(chunks: seq<seq<Byte>>): seq<Byte> {
    if chunks == [] then [] else chunks[0] + Concat(chunks[1..])
  }

  /** The session object: the bytes still to arrive, the bytes written back, and the carried fragment. */
  class TelnetTerminalSession {
    var incoming: seq<seq<Byte>>
    var written: seq<Byte>
    var pending: seq<Byte>

    constructor (incoming: seq<seq<Byte>>)
      ensures this.incoming == incoming && written == [] && pending == []
    {
      this.incoming, written, pending := incoming, [], [];
    }

    /** Where IAC SE first occurs at or after `from`, or None. */
    static method FindPair(data: seq<Byte>, from: nat) returns (end: Option<nat>)
      ensures end == FindEnd(data, from)
    {
      var i := from;
      while i + 1 < |data|
        invariant from <= i
        invariant FindEnd(data, from) == FindEnd(data, i)
        decreases |data| - i
      {
        if data[i] == IAC && data[i + 1] == SE {
          return Some(i);
        }
        i := i + 1;
      }
      return None;
    }

    /** Splits raw bytes into output and replies, and keeps what is unfinished. */
    method ConsumeBytes(data: seq<Byte>) returns (payload: seq<Byte>, replies: seq<Byte>)
      requires pending == []
      modifies this`pending
      ensures Parsed(payload, replies, pending) == Consume(data)
    {
      hide Consume, Join, FindEnd, First, Negotiate;
      payload, replies := [], [];
      var index := 0;
      StartOfData(data);
      while index < |data|
        invariant 0 <= index <= |data| && pending == []
        invariant Consume(data) == Join(Parsed(payload, replies, []), Consume(data[index..]))
      {
        var byte := data[index];
        if byte != IAC {
          TakeData(data, index, payload, replies);
          payload, index := payload + [byte], index + 1;
          continue;
        }
        if index + 1 >= |data| {
          Unfinished(data, index, payload, replies);
          pending := data[index..];
          break;
        }
        var command := data[index + 1];
        if command == IAC {
          TakeEscaped(data, index, payload, replies);
          payload, index := payload + [IAC], index + 2;
          continue;
        }
        if command == SB {
          var end := FindPair(data, index + 2);
          if end.None? {
            Unfinished(data, index, payload, replies);
            pending := data[index..];
            break;
          }
          TakeSubnegotiation(data, index, payload, replies);
          index := end.value + 2;
          continue;
        }
        if Negotiates(command) {
          if index + 2 >= |data| {
            Unfinished(data, index, payload, replies);
            pending := data[index..];
            break;
          }
          TakeNegotiation(data, index, payload, replies);
          replies, index := replies + Negotiate(command, data[index + 2]), index + 3;
          continue;
        }
        TakeIgnored(data, index, payload, replies);
        index := index + 2;
      }
      if index == |data| {
        EndOfData(data, payload, replies);
      }
    }

    /** Reads until there is output to return; an empty result means the stream has ended. */
    method Read() returns (payload: seq<Byte>)
      modifies this
      ensures |incoming| <= |old(incoming)| && incoming == old(incoming)[|old(incoming)| - |incoming|..]
      ensures var used := old(incoming)[..|old(incoming)| - |incoming|];
              var p := Feed(old(pending), used);
              && payload == p.payload && pending == p.pending && written == old(written) + p.replies
      ensures payload == [] ==> incoming == []
    {
      hide Consume, Feed, Join;
      ghost var start, before := pending, written;
      ghost var used: seq<seq<Byte>> := [];
      payload := [];
      FeedNothing(start);
      while incoming != []
        invariant used + incoming == old(incoming) && payload == []
        invariant var p := Feed(start, used);
                  p.payload == [] && pending == p.pending && written == before + p.replies
        decreases |incoming|
      {
        var chunk := incoming[0];
        incoming := incoming[1..];
        var carried := pending;
        pending := [];
        var output, replies := ConsumeBytes(carried + chunk);
        FeedOneMore(start, used, chunk);
        used := used + [chunk];
        written := written + replies;
        if output != [] {
          assert used == old(incoming)[..|old(incoming)| - |incoming|];
          return output;
        }
      }
      assert used == old(incoming)[..|old(incoming)| - |incoming|];
    }
  }

  lemma JoinAssociates(a: Parsed, b: Parsed, c: Parsed)
    ensures Join(Join(a, b), c) == Join(a, Join(b, c))
  {
    assert a.payload + b.payload + c.payload == a.payload + (b.payload + c.payload);
    assert a.replies + b.replies + c.replies == a.replies + (b.replies + c.replies);
  }

  /** Taking the element at `at` moves its output and replies over to what has been collected. */
  lemma ConsumeStep(data: seq<Byte>, at: nat, payload: seq<Byte>, replies: seq<Byte>, e: Element)
    requires at < |data| && First(data[at..]) == Some(e)
    ensures at + e.size <= |data|
    ensures Join(Parsed(payload, replies, []), Consume(data[at..]))
         == Join(Parsed(payload + e.payload, replies + e.replies, []), Consume(data[at + e.size..]))
    ensures payload + [] == payload && replies + [] == replies
  {
    var rest := data[at..];
    assert rest[e.size..] == data[at + e.size..];
    JoinAssociates(Parsed(payload, replies, []), Parsed(e.payload, e.replies, []), Consume(rest[e.size..]));
  }

  /** The first element of the rest of the stream, by absolute position. */
  lemma FirstAt(data: seq<Byte>, index: nat)
    requires index < |data|
    ensures First(data[index..])
         == if data[index] != IAC then Some(Element(1, [data[index]], []))
            else if index + 1 >= |data| then None
            else if data[index + 1] == IAC then Some(Element(2, [IAC], []))
            else if data[index + 1] == SB then
              var end := FindEnd(data, index + 2);
              if end.Some? then Some(Element(end.value + 2 - index, [], [])) else None
            else if Negotiates(data[index + 1]) then
              if index + 2 >= |data| then None
              else Some(Element(3, [], Negotiate(data[index + 1], data[index + 2])))
            else Some(Element(2, [], []))
  {
    if index + 2 <= |data| {
      FindEndShift(data, index, 2);
    }
  }

  // What each branch of the loop does to what has been collected so far.

  lemma TakeData(data: seq<Byte>, at: nat, payload: seq<Byte>, replies: seq<Byte>)
    requires at < |data| && data[at] != IAC
    ensures Join(Parsed(payload, replies, []), Consume(data[at..]))
         == Join(Parsed(payload + [data[at]], replies, []), Consume(data[at + 1..]))
  {
    FirstAt(data, at);
    ConsumeStep(data, at, payload, replies, Element(1, [data[at]], []));
  }

  lemma TakeEscaped(data: seq<Byte>, at: nat, payload: seq<Byte>, replies: seq<Byte>)
    requires at + 1 < |data| && data[at] == data[at + 1] == IAC
    ensures Join(Parsed(payload, replies, []), Consume(data[at..]))
         == Join(Parsed(payload + [IAC], replies, []), Consume(data[at + 2..]))
  {
    FirstAt(data, at);
    ConsumeStep(data, at, payload, replies, Element(2, [IAC], []));
  }

  lemma TakeSubnegotiation(data: seq<Byte>, at: nat, payload: seq<Byte>, replies: seq<Byte>)
    requires at + 1 < |data| && data[at] == IAC && data[at + 1] == SB && FindEnd(data, at + 2).Some?
    ensures Join(Parsed(payload, replies, []), Consume(data[at..]))
         == Join(Parsed(payload, replies, []), Consume(data[FindEnd(data, at + 2).value + 2..]))
  {
    FirstAt(data, at);
    ConsumeStep(data, at, payload, replies, Element(FindEnd(data, at + 2).value + 2 - at, [], []));
  }

  lemma TakeNegotiation(data: seq<Byte>, at: nat, payload: seq<Byte>, replies: seq<Byte>)
    requires at + 2 < |data| && data[at] == IAC && Negotiates(data[at + 1])
    ensures Join(Parsed(payload, replies, []), Consume(data[at..]))
         == Join(Parsed(payload, replies + Negotiate(data[at + 1], data[at + 2]), []), Consume(data[at + 3..]))
  {
    FirstAt(data, at);
    ConsumeStep(data, at, payload, replies, Element(3, [], Negotiate(data[at + 1], data[at + 2])));
  }

  lemma TakeIgnored(data: seq<Byte>, at: nat, payload: seq<Byte>, replies: seq<Byte>)
    requires at + 1 < |data| && data[at] == IAC
    requires data[at + 1] != IAC && data[at + 1] != SB && !Negotiates(data[at + 1])
    ensures Join(Parsed(payload, replies, []), Consume(data[at..]))
         == Join(Parsed(payload, replies, []), Consume(data[at + 2..]))
  {
    FirstAt(data, at);
    ConsumeStep(data, at, payload, replies, Element(2, [], []));
  }

  lemma Unfinished(data: seq<Byte>, at: nat, payload: seq<Byte>, replies: seq<Byte>)
    requires at < |data| && data[at] == IAC
    requires at + 1 < |data| ==>
               || (data[at + 1] == SB && FindEnd(data, at + 2).None?)
               || (Negotiates(data[at + 1]) && at + 2 >= |data|)
    ensures Join(Parsed(payload, replies, []), Consume(data[at..])) == Parsed(payload, replies, data[at..])
  {
    FirstAt(data, at);
    assert payload + [] == payload && replies + [] == replies;
  }

  lemma {:induction false} StartOfData(data: seq<Byte>)
    ensures Consume(data) == Join(Parsed([], [], []), Consume(data[0..]))
  {
    assert data[0..] == data;
  }

  lemma EndOfData(data: seq<Byte>, payload: seq<Byte>, replies: seq<Byte>)
    ensures Join(Parsed(payload, replies, []), Consume(data[|data|..])) == Parsed(payload, replies, [])
  {
    assert payload + [] == payload && replies + [] == replies;
  }

  lemma {:induction false} FindEndShift(data: seq<Byte>, index: nat, from: nat)
    requires index + from <= |data|
    ensures FindEnd(data, index + from)
         == match FindEnd(data[index..], from) case Some(i) => Some(index + i) case None => None
    decreases |data| - from
  {
    if index + from + 1 < |data| && !EndsAt(data, index + from) {
      FindEndShift(data, index, from + 1);
    }
  }

  lemma {:induction false} FeedNothing(pending: seq<Byte>)
    ensures Feed(pending, []) == Parsed([], [], pending)
  {
  }

  lemma {:induction false} FeedOneMore(pending: seq<Byte>, chunks: seq<seq<Byte>>, chunk: seq<Byte>)
    requires Feed(pending, chunks).payload == []
    ensures var p := Feed(pending, chunks);
            var c := Consume(p.pending + chunk);
            Feed(pending, chunks + [chunk]) == Parsed(c.payload, p.replies + c.replies, c.pending)
  {
    FeedSnoc(pending, chunks, chunk);
  }

  lemma {:induction false} FeedSnoc(pending: seq<Byte>, chunks: seq<seq<Byte>>, chunk: seq<Byte>)
    ensures var p := Feed(pending, chunks);
            Feed(pending, chunks + [chunk]) == Join(p, Consume(p.pending + chunk))
    decreases |chunks|
  {
    if chunks == [] {
      assert chunks + [chunk] == [chunk];
      assert [chunk][1..] == [];
    } else {
      assert (chunks + [chunk])[1..] == chunks[1..] + [chunk];
      var first := Consume(pending + chunks[0]);
      FeedSnoc(first.pending, chunks[1..], chunk);
      var rest := Feed(first.pending, chunks[1..]);
      JoinAssociates(first, rest, Consume(rest.pending + chunk));
    }
  }
}
