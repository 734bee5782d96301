/** A static route whose next hop was typed with white space that cannot be sent: validated without it, stored with
    it, and refused by the device, going in and coming back. */
module BrokenRoute {
  import opened Wrappers
  import opened Text
  import opened Lines
  import opened VlanList
  import opened Facts
  import opened Device
  import opened CommandLine
  import opened CiscoDriver
  import opened StoredText
  import opened RouteLines
  import opened ChangeLines

  /** The routes once push and rollback have both been refused: the replaced route is gone, and so is the added
      one if its own line got in. */
  function RoutesLeft(c: Config, destination: string, mask: string, nextHop: string, context: ChangeContext): set<Line> {
    var existing := StaticRouteOf(context.staticRoutes, destination, mask);
    var without := if existing.Some? then c.routes - {Words(existing.value.AsCommand())} else c.routes;
    if EndsOnFirstLine(nextHop) then without - {Words(AddedRoute(destination, mask, nextHop))} else without
  }

  /** A route that is configured already, sent in front of other lines. */
  lemma {:induction false} ListedGoesFirst(s: State, add: bool, raw: string, rest: string)
    requires Plain(RouteCommand(add, raw))
    ensures SplitLines(CommandText(RouteCommand(add, raw)) + "\n" + rest)
         == [CommandText(RouteCommand(add, raw))] + SplitLines(rest)
    ensures ExecLine(s, CommandText(RouteCommand(add, raw))) == Exec(s, RouteCommand(add, raw))
  {
    hide Sendable, Typable, OneLine, SplitLines, CommandText, Exec, Clean, ExecLine;
    var c := RouteCommand(add, raw);
    PlainIsClean(c);
    SplitAtBreak(CommandText(c), '\n', rest);
    TextIsTypable(c);
    LineDoes(s, c, CommandText(c));
  }

  lemma {:induction false} RunFirst(s: State, line: string, lines: seq<string>)
    requires ExecLine(s, line).Some?
    ensures RunLinesFrom(s, [line] + lines) == RunLinesFrom(ExecLine(s, line).value, lines)
  {
    hide ExecLine;
    assert ([line] + lines)[1..] == lines;
  }

  lemma {:induction false} StoredPair(a: Command, b: Command)
    ensures Stored([a]) == CommandText(a) + "" && Stored([a, b]) == CommandText(a) + "\n" + CommandText(b)
  {
    hide CommandText;
    StoredStep([a]);
    StoredStep([b]);
    StoredStep([a, b]);
    assert [a, b][1..] == [b] && [a][1..] == [] && [b][1..] == [];
  }

  /** Executing one route command. */
  function AfterRoute(c: Config, add: bool, line: string): Config {
    c.(routes := if add then c.routes + {Words(line)} else c.routes - {Words(line)})
  }

  lemma {:induction false} RouteExec(c: Config, add: bool, line: string)
    ensures Exec(State(c, Global), RouteCommand(add, line)) == Some(State(AfterRoute(c, add, line), Global))
  {
    hide Words;
  }

  /** The added line alone, or in front of the route it replaces. */
  lemma {:induction false} AddedStops(c: Config, add: bool, destination: string, mask: string, nextHop: string,
                                      behind: seq<Command>)
    requires IsQuad(destination) && IsQuad(mask) && IsNextHop(Strip(nextHop)) && !Clean(nextHop) && |behind| <= 1
    ensures var line := AddedRoute(destination, mask, nextHop);
            RunLines(c, Sent([RouteCommand(add, line)] + behind))
            == Outcome(if EndsOnFirstLine(nextHop) then AfterRoute(c, add, line) else c, false)
  {
    hide IsQuad, IsNextHop, Strip, Clean, AddedRoute, CommandText, SplitLines, RunLinesFrom, Exec, EndsOnFirstLine;
    hide Words;
    var cmd := RouteCommand(add, AddedRoute(destination, mask, nextHop));
    RouteExec(c, add, AddedRoute(destination, mask, nextHop));
    if behind == [] {
      StoredPair(cmd, cmd);
      assert [cmd] + behind == [cmd];
      RouteStops(State(c, Global), add, destination, mask, nextHop, "", "");
    } else {
      var b := behind[0];
      StoredPair(cmd, b);
      assert [cmd] + behind == [cmd, b];
      RouteStops(State(c, Global), add, destination, mask, nextHop, "\n" + CommandText(b), CommandText(b));
      assert CommandText(cmd) + "\n" + CommandText(b) == CommandText(cmd) + ("\n" + CommandText(b));
    }
  }

  /** The same behind the withdrawal of the route it replaces. */
  lemma {:induction false} AddedStopsBehind(c: Config, raw: string, destination: string, mask: string, nextHop: string)
    requires IsQuad(destination) && IsQuad(mask) && IsNextHop(Strip(nextHop)) && !Clean(nextHop) && Plain(NoIpRoute(raw))
    ensures var line := AddedRoute(destination, mask, nextHop);
            var between := AfterRoute(c, false, raw);
            RunLines(c, Sent([NoIpRoute(raw), IpRoute(line)]))
            == Outcome(if EndsOnFirstLine(nextHop) then AfterRoute(between, true, line) else between, false)
  {
    hide IsQuad, IsNextHop, Strip, Clean, AddedRoute, CommandText, SplitLines, RunLinesFrom, Exec, EndsOnFirstLine;
    hide Words;
    hide ExecLine, Plain;
    var cmd := IpRoute(AddedRoute(destination, mask, nextHop));
    var between := AfterRoute(c, false, raw);
    StoredPair(NoIpRoute(raw), cmd);
    StoredPair(cmd, cmd);
    RouteExec(c, false, raw);
    ListedGoesFirst(State(c, Global), false, raw, CommandText(cmd));
    RunFirst(State(c, Global), CommandText(NoIpRoute(raw)), SplitLines(CommandText(cmd)));
    AddedStops(between, true, destination, mask, nextHop, []);
    assert [cmd] + [] == [cmd] && CommandText(cmd) + "" == CommandText(cmd);
  }

  /** For every configuration: the push of such a route is refused and so is its rollback. A route that was to be
      replaced is lost; the configuration is what it was only if there was none, and the added line was not
      configured already or never got in. */
  lemma {:induction false} UncleanRouteIsRefused(c: Config, destination: string, mask: string, nextHop: string,
                                                 context: ChangeContext)
    requires Accepts(StaticRouteStep(destination, mask, nextHop), context) && ReportsRoutes(c, context.staticRoutes)
    requires !Clean(nextHop)
    ensures var r := RenderStaticRoute(destination, mask, nextHop, context);
            var pushed := RunLines(c, Sent(r.commands));
            && !pushed.completed
            && RunLines(pushed.config, Sent(r.inverse))
               == Outcome(c.(routes := RoutesLeft(c, destination, mask, nextHop, context)), false)
    ensures var existing := StaticRouteOf(context.staticRoutes, destination, mask);
            && (existing.Some? ==> Words(existing.value.AsCommand()) in c.routes)
            && (RoutesLeft(c, destination, mask, nextHop, context) == c.routes <==>
                  existing.None? && !(EndsOnFirstLine(nextHop) && Words(AddedRoute(destination, mask, nextHop)) in c.routes))
  {
    hide IsQuad, IsNextHop, Strip, Clean, AddedRoute, Sent, RunLines, EndsOnFirstLine, Words, Plain, IsListed;
    var line, existing := AddedRoute(destination, mask, nextHop), StaticRouteOf(context.staticRoutes, destination, mask);
    if existing.Some? {
      var raw := existing.value.raw;
      RouteListed(c, context.staticRoutes, existing.value);
      ListedIsPlain(raw);
      AddedStopsBehind(c, raw, destination, mask, nextHop);
      var between := RunLines(c, Sent([NoIpRoute(raw), IpRoute(line)])).config;
      AddedStops(between, false, destination, mask, nextHop, [IpRoute(raw)]);
      assert [NoIpRoute(line)] + [IpRoute(raw)] == [NoIpRoute(line), IpRoute(raw)];
      assert AfterRoute(AfterRoute(c, false, raw), true, line).routes - {Words(line)}
          == c.routes - {Words(raw)} - {Words(line)};
    } else {
      AddedStops(c, true, destination, mask, nextHop, []);
      var between := RunLines(c, Sent([IpRoute(line)])).config;
      assert [IpRoute(line)] + [] == [IpRoute(line)] && [NoIpRoute(line)] + [] == [NoIpRoute(line)];
      AddedStops(between, false, destination, mask, nextHop, []);
      assert c.routes + {Words(line)} - {Words(line)} == c.routes - {Words(line)};
    }
  }

  // ---- A line break in front ----

  lemma {:induction false} BreakInFront(hop: string)
    requires IsWord(hop)
    ensures Strip("\n" + hop) == hop && !Clean("\n" + hop)
  {
    hide IsSpace;
    var s := "\n" + hop;
    NewlineIsSpace();
    assert s[1..] == hop && s[0] == '\n';
    StripOfWord(hop);
    assert StripRight(s) == s;
  }

  lemma {:induction false} NewlineIsSpace()
    ensures IsSpace('\n') && !IsBlank('\n')
  {
  }

  /** With a line break in front of a valid next hop a route is accepted, and sent as two lines, of which the device
      refuses the first. */
  lemma {:induction false} LeadingBreakIsAccepted(destination: string, mask: string, hop: string, context: ChangeContext)
    requires IsQuad(destination) && IsQuad(mask) && IsNextHop(hop)
    ensures Accepts(StaticRouteStep(destination, mask, "\n" + hop), context) && !Clean("\n" + hop)
    ensures Sent([IpRoute(AddedRoute(destination, mask, "\n" + hop))]) == [Join(Head(true, destination, mask)) + " ", hop]
    ensures forall s: State :: ExecLine(s, Join(Head(true, destination, mask)) + " ").None?
  {
    hide IsQuad, IsNextHop, Strip, Clean, AddedRoute, CommandText, SplitLines, OneLine, Head, Join, Typable, IsWord;
    hide Words;
    var cmd, head := IpRoute(AddedRoute(destination, mask, "\n" + hop)), Join(Head(true, destination, mask)) + " ";
    NextHopIsWord(hop);
    BreakInFront(hop);
    WordIsThere(hop);
    RouteIsClean(true, destination, mask, "\n" + hop);
    RouteText(true, destination, mask, "\n" + hop);
    StoredPair(cmd, cmd);
    TypableIsOneLine(head);
    WordIsTypable(hop);
    TypableIsOneLine(hop);
    NewlineBreaks();
    SplitAtBreak(head, '\n', hop);
    LastLine(hop);
    assert CommandText(cmd) + "" == head + ['\n'] + hop;
    hide ExecLine;
    forall s: State ensures ExecLine(s, head).None? {
      HeadIsRefused(s, destination, mask);
    }
  }

  lemma {:induction false} WordIsThere(w: string)
    requires IsWord(w)
    ensures w != ""
  {
  }

  lemma {:induction false} HeadIsRefused(s: State, destination: string, mask: string)
    requires IsQuad(destination) && IsQuad(mask)
    ensures ExecLine(s, Join(Head(true, destination, mask)) + " ").None?
  {
    hide IsQuad, Strip, Head, Join, Typable, Words, Parse, Exec;
    var head := Join(Head(true, destination, mask)) + " ";
    HeadAndMore(true, destination, mask, "");
    assert head + "" == head;
    HeadIsThere(true, destination, mask);
    ShortRoute(Strip(head), true, destination, mask);
    WordsOfStrip(head);
    assert Head(true, destination, mask) + [] == Head(true, destination, mask);
  }

  // ---- One such route ----

  lemma {:induction false} JoinDotted(a: string, b: string, c: string, d: string)
    ensures JoinOn([a, b, c, d], '.') == a + "." + b + "." + c + "." + d
  {
    assert [a, b, c, d][1..] == [b, c, d] && [b, c, d][1..] == [c, d] && [c, d][1..] == [d];
    assert JoinOn([d], '.') == d;
    assert JoinOn([c, d], '.') == c + "." + d;
    assert JoinOn([b, c, d], '.') == b + "." + (c + "." + d);
  }

  lemma {:induction false} Octets()
    ensures IsOctet("0") && IsOctet("1") && IsOctet("2") && IsOctet("10") && IsOctet("192") && IsOctet("255")
  {
    assert "255"[..2] == "25" && "25"[..1] == "2" && "192"[..2] == "19" && "19"[..1] == "1" && "10"[..1] == "1";
    assert "1"[..0] == "" && "2"[..0] == "" && "0"[..0] == "";
    assert NatValue("1") == 1 && NatValue("2") == 2;
    assert NatValue("19") == 19 && NatValue("25") == 25;
  }

  lemma {:induction false} DottedOctets(a: string, b: string, c: string, d: string)
    requires IsOctet(a) && IsOctet(b) && IsOctet(c) && IsOctet(d)
    ensures var s := a + "." + b + "." + c + "." + d;
            && IsQuad(s)
            && ((forall p :: p in [a, b, c, d] && |p| > 1 ==> p[0] != '0') ==> IsAddress(s))
  {
    hide SplitOn, NatValue;
    var parts := [a, b, c, d];
    JoinDotted(a, b, c, d);
    forall i | 0 <= i < 4 ensures '.' !in parts[i] && IsOctet(parts[i]) {
    }
    SplitOfJoin(parts, '.');
    assert forall i :: 0 <= i < 4 ==> parts[i] in [a, b, c, d];
  }

  lemma {:induction false} Addresses()
    ensures IsQuad("10.0.0.0") && IsQuad("255.0.0.0") && IsAddress("192.0.2.1")
  {
    hide IsOctet, IsQuad, IsAddress;
    Octets();
    DottedOctets("10", "0", "0", "0");
    DottedOctets("255", "0", "0", "0");
    DottedOctets("192", "0", "2", "1");
    assert "10" + "." + "0" + "." + "0" + "." + "0" == "10.0.0.0";
    assert "255" + "." + "0" + "." + "0" + "." + "0" == "255.0.0.0";
    assert "192" + "." + "0" + "." + "2" + "." + "1" == "192.0.2.1";
    assert "192"[0] == '1' && forall p :: p in ["192", "0", "2", "1"] && |p| > 1 ==> p == "192";
  }

  /** 10.0.0.0/8 by way of 192.0.2.1, typed with a line break in front: accepted whatever the device reports, and
      its push and its rollback are refused on every device. */
  lemma {:induction false} OneBrokenRoute(c: Config, context: ChangeContext)
    requires ReportsRoutes(c, context.staticRoutes)
    ensures var step := StaticRouteStep("10.0.0.0", "255.0.0.0", "\n" + "192.0.2.1");
            && Accepts(step, context) && RenderChange(step, context).Some?
            && var r := RenderChange(step, context).value;
               var pushed := RunLines(c, Sent(r.commands));
               !pushed.completed && !RunLines(pushed.config, Sent(r.inverse)).completed
  {
    hide IsQuad, IsAddress, Clean, RunLines, Sent, RenderStaticRoute, RoutesLeft, ReportsRoutes;
    Addresses();
    LeadingBreakIsAccepted("10.0.0.0", "255.0.0.0", "192.0.2.1", context);
    UncleanRouteIsRefused(c, "10.0.0.0", "255.0.0.0", "\n" + "192.0.2.1", context);
  }
}
