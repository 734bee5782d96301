/** The sections of a printed configuration, read back: what the parsers make of them is a true report of it. */
module RunningConfig {
  import opened Wrappers
  import opened Text
  import opened Lines
  import opened VlanList
  import opened Facts
  import opened Device
  import opened CliParsers
  import opened CiscoDriver

  // ---- Router blocks ----

  /** A block of a configuration, its lines in the order they are printed. */
  datatype Block = Block(key: Line, lines: seq<Line>)

  ghost predicate BlocksOf(c: Config, blocks: seq<Block>) {
    && (forall i :: 0 <= i < |blocks| ==>
          blocks[i].key in c.routers && HoldsExactly(blocks[i].lines, c.routers[blocks[i].key]))
    && (forall key :: key in c.routers ==> exists i :: 0 <= i < |blocks| && blocks[i].key == key)
  }

  ghost predicate HoldsExactly(order: seq<Line>, lines: set<Line>) {
    forall l :: l in lines <==> l in order
  }

  /** A device names a BGP process by its number. */
  ghost predicate BgpIsNumbered(c: Config) {
    forall key :: key in c.routers && IsBgp(key) ==> |key| == 2 && IsNumber(key[1], 10, 9999999999)
  }

  function JoinAll(lines: seq<Line>): (r: seq<string>)
    ensures |r| == |lines|
  {
    seq(|lines|, i requires 0 <= i < |lines| => Join(lines[i]))
  }

  function BlockFacts(b: Block): RoutingProcessFacts {
    RoutingProcessFacts(Join(b.key), JoinAll(b.lines))
  }

  function AllBlockFacts(blocks: seq<Block>): (r: seq<RoutingProcessFacts>)
    ensures |r| == |blocks|
  {
    seq(|blocks|, i requires 0 <= i < |blocks| => BlockFacts(blocks[i]))
  }

  lemma {:induction false} KeyOfLine(l: Line)
    requires LineOk(l)
    ensures Key(Join(l)) == l
  {
    WordsOfJoin(l);
  }

  lemma {:induction false} LinesAreListed(order: seq<Line>, lines: set<Line>)
    requires HoldsExactly(order, lines) && forall l :: l in lines ==> LineOk(l)
    ensures Lists(JoinAll(order), lines)
  {
    hide LineOk, Key;
    forall i | 0 <= i < |order| ensures Key(JoinAll(order)[i]) == order[i] {
      assert order[i] in lines;
      KeyOfLine(order[i]);
    }
    forall l | l in lines ensures exists i :: 0 <= i < |order| && Key(JoinAll(order)[i]) == l {
      var i :| 0 <= i < |order| && order[i] == l;
      assert Key(JoinAll(order)[i]) == l;
    }
  }

  lemma {:induction false} BgpIsPlain(number: string)
    requires IsNumber(number, 10, 9999999999)
    ensures NamedPlainly(Join(["bgp", number]))
  {
    var name := "bgp " + number;
    assert Join(["bgp", number]) == "bgp" + " " + number == name;
    LowerOfPlain(name);
    assert name[..4] == "bgp " && name[4..] == number;
  }

  lemma {:induction false} BlockReport(b: Block, lines: set<Line>)
    requires LineOk(b.key) && HoldsExactly(b.lines, lines) && forall l :: l in lines ==> LineOk(l)
    requires IsBgp(b.key) ==> |b.key| == 2 && IsNumber(b.key[1], 10, 9999999999)
    ensures Key(BlockFacts(b).name) == b.key && Lists(BlockFacts(b).statements, lines)
    ensures IsBgp(b.key) ==> NamedPlainly(BlockFacts(b).name)
  {
    hide LineOk, Key, Lists, HoldsExactly, NamedPlainly, IsNumber, Join, JoinAll;
    KeyOfLine(b.key);
    LinesAreListed(b.lines, lines);
    if IsBgp(b.key) {
      assert b.key == ["bgp", b.key[1]];
      BgpIsPlain(b.key[1]);
    }
  }

  lemma {:induction false} BlocksReport(c: Config, blocks: seq<Block>)
    requires ConfigOk(c) && BgpIsNumbered(c) && BlocksOf(c, blocks)
    ensures ReportsRouters(c, AllBlockFacts(blocks))
  {
    hide ConfigOk, LineOk, IsNumber, Key, Lists, HoldsExactly, NamedPlainly, IsBgp, BlockFacts;
    forall b | b in blocks
      ensures b.key in c.routers && Key(BlockFacts(b).name) == b.key
      ensures Lists(BlockFacts(b).statements, c.routers[b.key])
      ensures IsBgp(b.key) ==> NamedPlainly(BlockFacts(b).name)
    {
      RouterIsOk(c, b.key);
      BlockReport(b, c.routers[b.key]);
    }
    var facts := AllBlockFacts(blocks);
    forall key | key in c.routers ensures exists i :: 0 <= i < |facts| && Key(facts[i].name) == key {
      var i :| 0 <= i < |blocks| && blocks[i].key == key;
      assert Key(facts[i].name) == key;
    }
  }

  /** The router section of a configuration, its blocks and their lines in any order, indented in any way, with blank
      and `!` lines anywhere and either line ending: what is parsed reports the configuration. */
  lemma {:induction false} RoutersAreReported(c: Config, blocks: seq<Block>, lines: seq<string>, ends: seq<string>)
    requires ConfigOk(c) && BgpIsNumbered(c) && BlocksOf(c, blocks)
    requires PrintsBlocks(lines, AllBlockFacts(blocks)) && EndsOk(lines, ends)
    ensures ReportsRouters(c, RouterBlocks(SplitLines(Printed(lines, ends))))
  {
    hide ConfigOk, BlocksOf, ReportsRouters, PrintsBlocks, EndsOk, SplitLines, Printed;
    BlocksReport(c, blocks);
    BlocksRoundTrip(lines, ends, AllBlockFacts(blocks));
  }

  // ---- Static routes ----

  const ROUTE := "ip route "

  /** A line of the plain global form: two dotted fields and a next hop, one blank between them. */
  function RouteOf(line: string): Option<StaticRouteFacts> {
    if !(ROUTE <= line) then None
    else
      var rest := line[|ROUTE|..];
      var destination, afterDestination := Before(rest, ' '), After(rest, ' ');
      var mask, hop := Before(afterDestination, ' '), After(afterDestination, ' ');
      if !IsDotted(destination) || !IsDotted(mask) || WordEnd(hop) == 0 then None
      else Some(StaticRouteFacts(destination, mask, hop[..WordEnd(hop)], line))
  }

  function RouteList(lines: seq<string>): seq<StaticRouteFacts> {
    if lines == [] then []
    else
      var front, route := RouteList(lines[..|lines| - 1]), RouteOf(Strip(lines[|lines| - 1]));
      if route.None? then front else front + [route.value]
  }

  method ParseStaticRoutes(output: string) returns (routes: seq<StaticRouteFacts>)
    ensures routes == RouteList(SplitLines(output))
  {
    hide RouteOf, Strip, SplitLines;
    var lines := SplitLines(output);
    routes := [];
    for k := 0 to |lines|
      invariant routes == RouteList(lines[..k])
    {
      assert lines[..k + 1][..k] == lines[..k];
      var route := RouteOf(Strip(lines[k]));
      if route.None? {
        continue;
      }
      routes := routes + [route.value];
    }
    assert lines[..|lines|] == lines;
  }

  /** What is read is exactly what some line says. */
  lemma {:induction false} RouteListHas(lines: seq<string>)
    ensures forall r :: r in RouteList(lines) <==> exists k :: 0 <= k < |lines| && RouteOf(Strip(lines[k])) == Some(r)
  {
    hide RouteOf, Strip;
    if lines != [] {
      var n := |lines| - 1;
      var front := lines[..n];
      RouteListHas(front);
      forall r ensures r in RouteList(lines) <==> exists k :: 0 <= k < |lines| && RouteOf(Strip(lines[k])) == Some(r) {
        if k :| 0 <= k < |lines| && RouteOf(Strip(lines[k])) == Some(r) {
          if k < n {
            assert front[k] == lines[k];
          }
        }
        if r in RouteList(front) {
          var k :| 0 <= k < |front| && RouteOf(Strip(front[k])) == Some(r);
          assert lines[k] == front[k];
        }
      }
    }
  }

  lemma {:induction false} WordBefore(w: string, rest: string)
    requires IsWord(w)
    ensures Before(w + (" " + rest), ' ') == w && After(w + (" " + rest), ' ') == rest
  {
    IndexOfIs(w + (" " + rest), ' ', |w|);
  }

  lemma {:induction false} WordEndsJoin(l: Line)
    requires l != [] && AllWords(l)
    ensures WordEnd(Join(l)) == |l[0]| && Join(l)[..|l[0]|] == l[0]
  {
    assert Join(l)[..|l[0]|] == l[0];
    forall i | 0 <= i < |l[0]| ensures !IsSpace(Join(l)[i]) {
      assert Join(l)[i] == l[0][i];
    }
    WordEndIs(Join(l), |l[0]|);
  }

  lemma {:induction false} JoinStep(l: Line)
    requires |l| >= 2
    ensures Join(l) == l[0] + (" " + Join(l[1..]))
  {
  }

  lemma {:induction false} RouteText(l: Line)
    requires RouteOk(l)
    ensures Join(l) == ROUTE + (l[2] + (" " + (l[3] + (" " + Join(l[4..])))))
  {
    JoinStep(l);
    JoinStep(l[1..]);
    JoinStep(l[2..]);
    JoinStep(l[3..]);
    assert l[1..][1..] == l[2..] && l[2..][1..] == l[3..] && l[3..][1..] == l[4..];
  }

  /** A route that a device holds is read field by field, if it is of the plain global form, and skipped otherwise. */
  lemma {:induction false} RouteIsRead(l: Line)
    requires RouteOk(l)
    ensures RouteOf(Join(l))
         == if IsListed(l) then Some(StaticRouteFacts(l[2], l[3], l[4], Join(l))) else None
  {
    hide IsDotted, IsWord, Join;
    var hop := Join(l[4..]);
    var afterDestination := l[3] + (" " + hop);
    var rest := l[2] + (" " + afterDestination);
    RouteText(l);
    assert Join(l)[|ROUTE|..] == rest;
    WordBefore(l[2], afterDestination);
    WordBefore(l[3], hop);
    WordEndsJoin(l[4..]);
    assert IsWord(l[4]);
    NoEmptyWord(l[4]);
  }

  lemma {:induction false} NoEmptyWord(w: string)
    requires IsWord(w)
    ensures w != ""
  {
  }

  /** The lines print these routes, each as its words; no other line looks like one. */
  ghost predicate PrintsRoutes(lines: seq<string>, routes: set<Line>) {
    && (forall k :: 0 <= k < |lines| && RouteOf(Strip(lines[k])).Some? ==>
          exists l :: l in routes && Strip(lines[k]) == Join(l))
    && (forall l :: l in routes ==> exists k :: 0 <= k < |lines| && Strip(lines[k]) == Join(l))
  }

  lemma {:induction false} PrintedIsRead(lines: seq<string>, routes: set<Line>)
    requires PrintsRoutes(lines, routes) && forall l :: l in routes ==> RouteOk(l)
    ensures forall r :: r in RouteList(lines) ==>
              var l := Words(r.raw);
              l in routes && IsListed(l) && Typable(r.raw) && r == StaticRouteFacts(l[2], l[3], l[4], Join(l))
    ensures forall l :: l in routes && IsListed(l) ==>
              Words(Join(l)) == l && StaticRouteFacts(l[2], l[3], l[4], Join(l)) in RouteList(lines)
  {
    hide RouteOf, Strip, IsDotted, Typable, Join, RouteList;
    RouteListHas(lines);
    forall r | r in RouteList(lines)
      ensures var l := Words(r.raw);
              l in routes && IsListed(l) && Typable(r.raw) && r == StaticRouteFacts(l[2], l[3], l[4], Join(l))
    {
      var k :| 0 <= k < |lines| && RouteOf(Strip(lines[k])) == Some(r);
      var l :| l in routes && Strip(lines[k]) == Join(l);
      RouteReport(l);
    }
    forall l | l in routes && IsListed(l)
      ensures Words(Join(l)) == l && StaticRouteFacts(l[2], l[3], l[4], Join(l)) in RouteList(lines)
    {
      var k :| 0 <= k < |lines| && Strip(lines[k]) == Join(l);
      RouteReport(l);
    }
  }

  /** The routes of a configuration printed in any order, with any white space around them, among any other lines: what
      is parsed reports the configuration. */
  lemma {:induction false} RoutesAreReported(c: Config, lines: seq<string>, ends: seq<string>)
    requires ConfigOk(c) && PrintsRoutes(lines, c.routes) && EndsOk(lines, ends)
    ensures ReportsRoutes(c, RouteList(SplitLines(Printed(lines, ends))))
  {
    hide RouteOf, Strip, IsDotted, Typable, EndsOk, SplitLines, Printed, Join, RouteList, PrintsRoutes, AllWords;
    PrintedSplits(lines, ends);
    RoutesAreOk(c);
    hide ConfigOk;
    PrintedIsRead(lines, c.routes);
  }

  lemma {:induction false} RouteReport(l: Line)
    requires RouteOk(l)
    ensures RouteOf(Join(l))
         == if IsListed(l) then Some(StaticRouteFacts(l[2], l[3], l[4], Join(l))) else None
    ensures Words(Join(l)) == l && Typable(Join(l))
  {
    hide IsDotted, RouteOf, Join, Typable;
    RouteIsRead(l);
    WordsOfJoin(l);
    JoinIsTypable(l);
  }
}
