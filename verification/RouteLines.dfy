/** The lines of a static route. Its next hop is checked without the white space around it but sent with it, so
    that white space decides how many lines there are and what the device makes of them. */
module RouteLines {
  import opened Wrappers
  import opened Text
  import opened Lines
  import opened VlanList
  import opened Facts
  import opened Device
  import opened CommandLine
  import opened CiscoDriver
  import opened StoredText

  /** No white space, the separator aside. */
  lemma {:induction false} SolidParts(s: string, c: char)
    requires !IsSpace(c)
    requires forall i, k :: 0 <= i < |SplitOn(s, c)| && 0 <= k < |SplitOn(s, c)[i]| ==> !IsSpace(SplitOn(s, c)[i][k])
    ensures forall i :: 0 <= i < |s| ==> !IsSpace(s[i])
    decreases |s|
  {
    hide IsSpace;
    var parts, n := SplitOn(s, c), IndexOf(s, c);
    forall i | 0 <= i < n ensures !IsSpace(s[i]) {
      assert s[i] == parts[0][i];
    }
    if n < |s| {
      var rest := s[n + 1..];
      assert parts == [s[..n]] + SplitOn(rest, c);
      forall i, k | 0 <= i < |SplitOn(rest, c)| && 0 <= k < |SplitOn(rest, c)[i]|
        ensures !IsSpace(SplitOn(rest, c)[i][k])
      {
        assert SplitOn(rest, c)[i] == parts[i + 1];
      }
      SolidParts(rest, c);
      forall i | n < i < |s| ensures !IsSpace(s[i]) {
        assert s[i] == rest[i - n - 1];
      }
    }
  }

  lemma {:induction false} QuadIsWord(s: string)
    requires IsQuad(s) || IsAddress(s)
    ensures IsWord(s)
  {
    hide NatValue;
    var parts := SplitOn(s, '.');
    forall i, k | 0 <= i < |parts| && 0 <= k < |parts[i]| ensures !IsSpace(parts[i][k]) {
      assert IsOctet(parts[i]);
      assert IsDigit(parts[i][k]);
    }
    SolidParts(s, '.');
  }

  lemma {:induction false} NextHopIsWord(s: string)
    requires IsNextHop(s)
    ensures IsWord(s)
  {
    if IsAddress(s) {
      QuadIsWord(s);
    } else {
      forall i | 0 <= i < |s| ensures !IsSpace(s[i]) {
        assert IsLetter(s[i]) || IsDigit(s[i]) || s[i] in "./:_-";
      }
    }
  }

  // ---- The text of a route ----

  /** What stands in front of the next hop. */
  function Head(add: bool, destination: string, mask: string): seq<string> {
    (if add then [] else ["no"]) + ["ip", "route", destination, mask]
  }

  function RouteCommand(add: bool, line: string): Command {
    if add then IpRoute(line) else NoIpRoute(line)
  }

  lemma {:induction false} HeadIsWords(add: bool, destination: string, mask: string)
    requires IsQuad(destination) && IsQuad(mask)
    ensures AllWords(Head(add, destination, mask))
  {
    hide IsQuad;
    QuadIsWord(destination);
    QuadIsWord(mask);
    GraphicIsWord("no");
    GraphicIsWord("ip");
    GraphicIsWord("route");
    hide IsWord;
  }

  lemma {:induction false} JoinCons(w: string, ws: seq<string>)
    requires ws != []
    ensures Join([w] + ws) == w + " " + Join(ws)
  {
    assert ([w] + ws)[1..] == ws;
  }

  lemma {:induction false} RouteText(add: bool, destination: string, mask: string, nextHop: string)
    ensures CommandText(RouteCommand(add, AddedRoute(destination, mask, nextHop)))
         == Join(Head(add, destination, mask)) + " " + nextHop
  {
    hide Join;
    var d, m := destination, mask;
    JoinCons("no", ["ip", "route", d, m]);
    JoinCons("ip", ["route", d, m]);
    JoinCons("route", [d, m]);
    JoinCons(d, [m]);
    JoinOne("no");
    JoinOne(m);
    assert ["no"] + ["ip", "route", d, m] == Head(false, d, m);
    assert Head(true, d, m) == ["ip", "route", d, m] == ["ip"] + ["route", d, m];
    assert ["route"] + [d, m] == ["route", d, m] && [d] + [m] == [d, m];
    assert Join(Head(true, d, m)) == "ip route " + d + " " + m;
    var line := AddedRoute(d, m, nextHop);
    assert Join(Head(true, d, m)) + " " + nextHop == line;
    assert "no" + " " == "no ";
    assert Join(Head(false, d, m)) == "no " + Join(Head(true, d, m));
    assert Join(Head(false, d, m)) + " " + nextHop == "no " + line;
    assert CommandText(IpRoute(line)) == line && CommandText(NoIpRoute(line)) == Join(["no"]) + " " + line;
  }

  lemma {:induction false} JoinOne(w: string)
    ensures Join([w]) == w
  {
  }

  lemma {:induction false} HopWords(nextHop: string)
    requires IsNextHop(Strip(nextHop))
    ensures Words(nextHop) == [Strip(nextHop)] && StripRight(nextHop) != ""
  {
    hide IsNextHop, IsWord;
    NextHopIsWord(Strip(nextHop));
    WordsOfStrip(nextHop);
    WordsOfWord(Strip(nextHop));
    WordsOfStripRight(nextHop);
  }

  lemma {:induction false} HeadAndMore(add: bool, destination: string, mask: string, more: string)
    requires IsQuad(destination) && IsQuad(mask)
    ensures var head := Head(add, destination, mask); Words(Join(head) + " " + more) == head + Words(more)
  {
    hide IsQuad, Head, IsSpace, AllWords;
    var head := Head(add, destination, mask);
    HeadIsWords(add, destination, mask);
    WordsOfJoin(head);
    BlankIsSpace();
    WordsSplit(Join(head), ' ', more);
    assert Join(head) + " " + more == Join(head) + [' '] + more;
  }

  /** The words of the added line: the next hop counts without the white space around it. */
  lemma {:induction false} AddedRouteWords(destination: string, mask: string, nextHop: string)
    requires IsQuad(destination) && IsQuad(mask) && IsNextHop(Strip(nextHop))
    ensures Words(AddedRoute(destination, mask, nextHop)) == ["ip", "route", destination, mask, Strip(nextHop)]
  {
    hide Words, IsQuad, IsNextHop, Strip, AddedRoute, Join;
    RouteText(true, destination, mask, nextHop);
    HeadAndMore(true, destination, mask, nextHop);
    HopWords(nextHop);
  }

  // ---- Clean next hops ----

  lemma {:induction false} CleanBehind(p: string, s: string)
    requires Typable(p) && StripRight(s) != ""
    ensures StripRight(p + s) == p + StripRight(s)
    ensures Clean(p + s) <==> Clean(s)
  {
    hide Typable, StripRight, IsTrail;
    StripRightSeam(p, s);
    TypableAppend(p, StripRight(s));
    assert (p + s)[|p + StripRight(s)|..] == s[|StripRight(s)|..];
  }

  /** What the device is sent for a route is the command exactly if the next hop was typed without white space but
      blanks, line breaks behind it aside. */
  lemma {:induction false} RouteIsClean(add: bool, destination: string, mask: string, nextHop: string)
    requires IsQuad(destination) && IsQuad(mask) && IsNextHop(Strip(nextHop))
    ensures var c := RouteCommand(add, AddedRoute(destination, mask, nextHop));
            && Sendable(c) && (Clean(CommandText(c)) <==> Clean(nextHop))
            && StripRight(CommandText(c)) == Join(Head(add, destination, mask)) + " " + StripRight(nextHop)
            && Typable(Join(Head(add, destination, mask)) + " ")
  {
    hide IsQuad, IsNextHop, Strip, StripRight, Words, Clean, Typable, AddedRoute, CommandText, Head, Join;
    var head := Join(Head(add, destination, mask)) + " ";
    RouteText(add, destination, mask, nextHop);
    AddedRouteWords(destination, mask, nextHop);
    HopWords(nextHop);
    HeadIsWords(add, destination, mask);
    JoinIsTypable(Head(add, destination, mask));
    BlankIsTypable();
    TypableAppend(Join(Head(add, destination, mask)), " ");
    CleanBehind(head, nextHop);
  }

  // ---- Next hops that are not ----

  /** The next hop ends on its first line, and that line may be sent. */
  predicate EndsOnFirstLine(hop: string) {
    |StripRight(hop)| <= LineEnd(hop) && Typable(hop[..LineEnd(hop)])
  }

  lemma {:induction false} NoWords(s: string)
    requires forall i :: 0 <= i < |s| ==> IsSpace(s[i])
    ensures Words(s) == []
  {
    hide IsSpace;
    if s != "" {
      NoWords(s[1..]);
    }
  }

  lemma {:induction false} WordsMeanSolid(s: string, k: nat)
    requires k < |s| && !IsSpace(s[k])
    ensures Words(s) != []
    decreases k
  {
    hide IsSpace;
    if IsSpace(s[0]) {
      WordsMeanSolid(s[1..], k - 1);
    }
  }

  /** A break in front of a single word has only white space before it. */
  lemma {:induction false} OnlySpaceBefore(hop: string, n: nat)
    requires |Words(hop)| == 1 && n < |StripRight(hop)| && IsSpace(hop[n])
    ensures Words(hop[..n]) == []
  {
    hide IsSpace, Words;
    var last := |StripRight(hop)| - 1;
    RightIsSolid(hop);
    assert hop == hop[..n] + [hop[n]] + hop[n + 1..];
    WordsSplit(hop[..n], hop[n], hop[n + 1..]);
    assert hop[n + 1..][last - n - 1] == hop[last];
    WordsMeanSolid(hop[n + 1..], last - n - 1);
    if exists i :: 0 <= i < n && !IsSpace(hop[i]) {
      var i :| 0 <= i < n && !IsSpace(hop[i]);
      WordsMeanSolid(hop[..n], i);
    } else {
      NoWords(hop[..n]);
    }
  }

  lemma {:induction false} RightIsSolid(s: string)
    requires StripRight(s) != ""
    ensures !IsSpace(s[|StripRight(s)| - 1])
    decreases |s|
  {
    hide IsSpace;
    if IsSpace(s[|s| - 1]) {
      RightIsSolid(s[..|s| - 1]);
    }
  }

  lemma {:induction false} FirstOfSplit(s: string)
    requires s != ""
    ensures SplitLines(s) != [] && SplitLines(s)[0] == s[..LineEnd(s)]
  {
    if LineEnd(s) == |s| {
      assert s[..|s|] == s;
    }
  }

  /** The first line of a text that goes on behind a head. */
  lemma {:induction false} FirstBehind(head: string, hop: string, tail: string)
    requires OneLine(head) && head != "" && (tail != "" ==> tail[0] == '\n')
    ensures var s := head + hop + tail;
            SplitLines(s) != [] && SplitLines(s)[0] == head + hop[..LineEnd(hop)]
  {
    hide SplitLines;
    var s, n := head + hop + tail, |head| + LineEnd(hop);
    forall i | 0 <= i < n ensures !IsBreak(s[i]) {
      assert s[i] == if i < |head| then head[i] else hop[i - |head|];
    }
    NewlineBreaks();
    LineEndIs(s, n);
    FirstOfSplit(s);
    assert s[..n] == head + hop[..LineEnd(hop)];
  }

  lemma {:induction false} NewlineBreaks()
    ensures IsBreak('\n')
  {
  }

  /** Short of a next hop, a route is no command. */
  lemma {:induction false} ShortRoute(line: string, add: bool, destination: string, mask: string)
    ensures Parse(line, Head(add, destination, mask)).None?
  {
    hide DropWords, Strip;
  }

  lemma {:induction false} RefusedAtOnce(s: State, lines: seq<string>)
    requires lines != [] && ExecLine(s, lines[0]).None?
    ensures RunLinesFrom(s, lines) == Outcome(s.config, false)
  {
    hide ExecLine;
  }

  /** The next hop is broken off before it begins: the first line is short of it. */
  lemma {:induction false} BrokenOff(s: State, add: bool, destination: string, mask: string, nextHop: string, tail: string)
    requires IsQuad(destination) && IsQuad(mask) && IsNextHop(Strip(nextHop))
    requires LineEnd(nextHop) < |StripRight(nextHop)| && (tail != "" ==> tail[0] == '\n')
    ensures RunLinesFrom(s, SplitLines(CommandText(RouteCommand(add, AddedRoute(destination, mask, nextHop))) + tail))
         == Outcome(s.config, false)
  {
    hide IsQuad, IsNextHop, Strip, StripRight, Words, Clean, Typable, AddedRoute, CommandText, Join, SplitLines;
    hide OneLine;
    hide IsSpace, IsBreak, Parse, Head, RunLinesFrom;
    var head := Join(Head(add, destination, mask)) + " ";
    var n := LineEnd(nextHop);
    RouteText(add, destination, mask, nextHop);
    RouteIsClean(add, destination, mask, nextHop);
    TypableIsOneLine(head);
    FirstBehind(head, nextHop, tail);
    var lines := SplitLines(head + nextHop + tail);
    HopWords(nextHop);
    BreaksAreOddSpace(nextHop[n]);
    OnlySpaceBefore(nextHop, n);
    HeadAndMore(add, destination, mask, nextHop[..n]);
    assert Words(lines[0]) == Head(add, destination, mask) + [] == Head(add, destination, mask);
    ShortRoute(Strip(lines[0]), add, destination, mask);
    WordsOfStrip(lines[0]);
    HeadIsThere(add, destination, mask);
    RefusedAtOnce(s, lines);
  }

  lemma {:induction false} HeadIsThere(add: bool, destination: string, mask: string)
    ensures Head(add, destination, mask) != [] && Words("") == []
  {
  }

  /** Lines of white space stop at the first one that may not be sent. */
  lemma {:induction false} SpacesRefused(s: State, lines: seq<string>, rest: seq<string>)
    requires forall i :: 0 <= i < |lines| ==> Spaces(lines[i])
    requires exists i :: 0 <= i < |lines| && !Typable(lines[i])
    ensures RunLinesFrom(s, lines + rest) == Outcome(s.config, false)
    decreases |lines|
  {
    hide Spaces, Typable, Parse;
    var all := lines + rest;
    assert all[1..] == lines[1..] + rest && all[0] == lines[0];
    SpacesStrip(lines[0]);
    if Typable(lines[0]) {
      var i :| 0 <= i < |lines| && !Typable(lines[i]);
      assert lines[1..][i - 1] == lines[i];
      SpacesRefused(s, lines[1..], rest);
    }
  }

  /** The next hop is on the first line with its head, but white space around it may not be sent: the command gets
      in exactly if its own line may be sent, and a line is refused either way. */
  lemma {:induction false} RefusedBehind(s: State, c: Command, tail: string, rest: string)
    requires Sendable(c) && OneLine(StripRight(CommandText(c))) && !Clean(CommandText(c)) && Exec(s, c).Some?
    requires (tail == "" && rest == "") || tail == "\n" + rest
    ensures var lines := SplitLines(CommandText(c) + tail);
            && lines != []
            && RunLinesFrom(s, lines) == Outcome(if Typable(lines[0]) then Exec(s, c).value.config else s.config, false)
  {
    hide SplitLines, Sendable, CommandText, StripRight, Clean, OneLine, Typable, Strip, Exec, Parse;
    var own := SplitCommand(c, tail, rest);
    var lines := own + SplitLines(rest);
    if Typable(own[0]) {
      LineOfDoes(s, c, own[0]);
      assert lines[1..] == own[1..] + SplitLines(rest);
      SpacesRefused(Exec(s, c).value, own[1..], SplitLines(rest));
    } else {
      RefusedAtOnce(s, lines);
    }
  }

  lemma {:induction false} RouteStops(s: State, add: bool, destination: string, mask: string, nextHop: string,
                                      tail: string, rest: string)
    requires IsQuad(destination) && IsQuad(mask) && IsNextHop(Strip(nextHop)) && !Clean(nextHop)
    requires (tail == "" && rest == "") || tail == "\n" + rest
    ensures var c := RouteCommand(add, AddedRoute(destination, mask, nextHop));
            && Exec(s, c).Some?
            && RunLinesFrom(s, SplitLines(CommandText(c) + tail))
               == Outcome(if EndsOnFirstLine(nextHop) then Exec(s, c).value.config else s.config, false)
  {
    hide IsQuad, IsNextHop, Strip, StripRight, Words, Clean, Typable, AddedRoute, CommandText, Join, SplitLines;
    hide IsSpace, IsBreak, Head, RunLinesFrom;
    var c := RouteCommand(add, AddedRoute(destination, mask, nextHop));
    RouteIsClean(add, destination, mask, nextHop);
    if LineEnd(nextHop) < |StripRight(nextHop)| {
      BrokenOff(s, add, destination, mask, nextHop, tail);
    } else {
      var head := Join(Head(add, destination, mask)) + " ";
      RouteText(add, destination, mask, nextHop);
      TypableIsOneLine(head);
      assert OneLine(StripRight(nextHop));
      OneLineAppend(head, StripRight(nextHop));
      RefusedBehind(s, c, tail, rest);
      FirstBehind(head, nextHop, tail);
      TypableAppend(head, nextHop[..LineEnd(nextHop)]);
    }
  }
}
