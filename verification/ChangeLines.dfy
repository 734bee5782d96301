/** The lines of every validated change: each command and each inverse reaches the device as it was rendered, but
    for the white space of two values. */
module ChangeLines {
  import opened Wrappers
  import opened Text
  import opened Lines
  import opened VlanList
  import opened Facts
  import opened Device
  import opened CommandLine
  import opened CiscoDriver
  import opened StoredText
  import opened RouteLines
  import opened RouterBlocks

  /** A command that is sent as it stands. */
  predicate Plain(c: Command) {
    Sendable(c) && (Argument(c).Some? ==> Typable(Argument(c).value))
  }

  predicate AllPlain(commands: seq<Command>) {
    forall i :: 0 <= i < |commands| ==> Plain(commands[i])
  }

  ghost predicate PlainChange(r: RenderedChange) {
    r.commands != [] && r.inverse != [] && AllPlain(r.commands) && AllPlain(r.inverse)
  }

  lemma {:induction false} TextIsTypable(c: Command)
    ensures Typable(CommandText(c)) <==> Argument(c).Some? ==> Typable(Argument(c).value)
    ensures OneLine(CommandText(c)) <==> Argument(c).Some? ==> OneLine(Argument(c).value)
  {
    hide Typable, OneLine, Keywords, AllWords, Join;
    KeywordsAreWords(c);
    var words := Join(Keywords(c));
    JoinIsTypable(Keywords(c));
    TypableIsOneLine(words);
    BlankIsTypable();
    TypableIsOneLine(" ");
    if Argument(c).Some? {
      TypableAppend(words, " ");
      TypableAppend(words + " ", Argument(c).value);
      OneLineAppend(words, " ");
      OneLineAppend(words + " ", Argument(c).value);
    }
  }

  lemma {:induction false} TypableIsClean(s: string)
    requires Typable(s)
    ensures Clean(s)
  {
    hide IsSpace, IsBreak, IsBlank;
    RightTail(s);
    var n := |StripRight(s)|;
    forall i | 0 <= i < |s[n..]| ensures IsBlank(s[n..][i]) {
      assert s[n..][i] == s[n + i];
    }
  }

  lemma {:induction false} PlainIsClean(c: Command)
    requires Plain(c)
    ensures Clean(CommandText(c)) && OneLine(CommandText(c))
  {
    hide Sendable, Typable, Clean, OneLine, CommandText;
    TextIsTypable(c);
    TypableIsClean(CommandText(c));
    TypableIsOneLine(CommandText(c));
  }

  lemma {:induction false} PlainIsSentClean(r: RenderedChange)
    requires PlainChange(r)
    ensures SentClean(r) && AllOneLine(r)
  {
    hide Sendable, Typable, Clean, OneLine, CommandText;
    forall i | 0 <= i < |r.commands|
      ensures Sendable(r.commands[i]) && Clean(CommandText(r.commands[i])) && OneLine(CommandText(r.commands[i]))
    {
      PlainIsClean(r.commands[i]);
    }
    forall i | 0 <= i < |r.inverse|
      ensures Sendable(r.inverse[i]) && Clean(CommandText(r.inverse[i])) && OneLine(CommandText(r.inverse[i]))
    {
      PlainIsClean(r.inverse[i]);
    }
  }

  // ---- Values ----

  lemma {:induction false} PlainWord(w: string)
    requires IsWord(w)
    ensures Typable(w) && Words(w) == [w] && Strip(w) == w
  {
    hide IsSpace;
    WordIsTypable(w);
    WordsOfWord(w);
    StripOfWord(w);
  }

  lemma {:induction false} HasWords(s: string)
    requires Strip(s) != ""
    ensures Words(s) != []
  {
    hide Strip;
    StripEnds(s);
    WordsMeanSolid(Strip(s), 0);
    WordsOfStrip(s);
  }

  lemma {:induction false} ShortFormOfNothing(table: seq<(string, string)>)
    requires forall i :: 0 <= i < |table| ==> table[i].0 != ""
    ensures ShortForm("", table) == ""
    decreases |table|
  {
    if table != [] {
      ShortFormOfNothing(table[1..]);
    }
  }

  lemma {:induction false} PortIsPlain(c: Config, port: string)
    requires ConfigOk(c) && NormalizeInterfaceName(port) in c.ports && Typable(port)
    ensures Plain(InterfaceCmd(port))
  {
    hide Strip, Typable, Words, PortOk, RouterOk, LineOk;
    if Strip(port) == "" {
      EmptyLowers();
      ShortFormOfNothing(INTERFACE_PREFIXES);
    }
    HasWords(port);
  }

  lemma {:induction false} EmptyLowers()
    ensures Lower("") == ""
  {
  }

  lemma {:induction false} CollapseIsTypable(value: string)
    ensures Typable(Collapse(value)) && Words(Collapse(value)) == Words(value) && Typable(Normalize(value))
  {
    hide Typable;
    WordsAreWords(value);
    JoinIsTypable(Words(value));
    WordsOfCollapse(value);
    KeyIsWords(value);
    JoinIsTypable(Key(value));
  }

  /** A statement of a router block, in either form. */
  lemma {:induction false} StatementIsPlain(w: string, rest: string)
    requires OpensStatement(w) && IsWord(w) && Typable(rest) && Words(rest) != []
    ensures Plain(Statement(w + " " + rest)) && Plain(NoStatement(w + " " + rest))
  {
    hide Typable, Words, OpensStatement, IsWord, IsSpace;
    PlainWord(w);
    BlankIsTypable();
    TypableAppend(w, " ");
    TypableAppend(w + " ", rest);
    BlankIsSpace();
    WordsSplit(w, ' ', rest);
    assert w + " " + rest == w + [' '] + rest;
  }

  lemma {:induction false} ProcessIsPlain(process: string)
    requires IsProcess(process) || IsBgpProcess(process)
    ensures Typable(Strip(process)) && Typable(Lower(Strip(process)))
    ensures Words(Strip(process)) != [] && Words(Lower(Strip(process))) != []
  {
    hide NatValue, Typable, Strip;
    var s := Lower(Strip(process));
    if s == "rip" {
      LetterTyped("rip");
    } else if IsBgpProcess(process) {
      assert s == "bgp " + s[4..];
      NumberedIsTypable("bgp ", s[4..]);
    } else if "ospf " <= s && IsNumber(s[5..], 5, 65535) {
      assert s == "ospf " + s[5..];
      NumberedIsTypable("ospf ", s[5..]);
    } else {
      assert s == "eigrp " + s[6..];
      NumberedIsTypable("eigrp ", s[6..]);
    }
    LowerIsTypable(Strip(process));
    StripTwice(process);
    HasWords(Strip(process));
    WordsOfLower(Strip(process));
  }

  lemma {:induction false} LetterTyped(s: string)
    requires s in ["rip", "bgp ", "ospf ", "eigrp "]
    ensures Typable(s)
  {
  }

  lemma {:induction false} NumberedIsTypable(head: string, digits: string)
    requires head in ["bgp ", "ospf ", "eigrp "] && AllDigits(digits)
    ensures Typable(head + digits)
  {
    hide Typable;
    LetterTyped(head);
    DigitsAreTypable(digits);
    TypableAppend(head, digits);
  }

  lemma {:induction false} DigitsAreTypable(s: string)
    requires AllDigits(s)
    ensures Typable(s)
  {
    forall i | 0 <= i < |s| ensures !IsSpace(s[i]) {
      assert IsDigit(s[i]);
    }
  }

  lemma {:induction false} LowerIsTypable(s: string)
    requires Typable(Lower(s))
    ensures Typable(s)
  {
    hide IsSpace, LowerChar;
    forall i | 0 <= i < |s| && IsSpace(s[i]) ensures IsBlank(s[i]) {
      LowerKeepsSpace(s[i]);
      assert IsSpace(Lower(s)[i]);
      BlankOfLower(s[i]);
    }
  }

  lemma {:induction false} BlankOfLower(c: char)
    requires IsBlank(LowerChar(c))
    ensures IsBlank(c)
  {
  }

  lemma {:induction false} NatIsTypable(n: nat)
    ensures Typable(PrintNat(n))
  {
    PrintNatParses(n);
    DigitsAreTypable(PrintNat(n));
  }

  lemma {:induction false} IdIsPlain(c: Command)
    requires HasId(c)
    ensures Plain(c)
  {
    hide PrintNat, Typable, Words;
    NatIsTypable(c.id);
    IdWords(c);
  }

  lemma {:induction false} ModeIsPlain(mode: string)
    requires ModeCommand(mode).Some?
    ensures Plain(SwitchportMode(mode))
  {
  }

  // ---- Router blocks ----

  lemma {:induction false} NetworkIsPlain(process: string, value: string)
    requires IsNetwork(process, value)
    ensures Plain(Statement(NetworkStatement(value))) && Plain(NoStatement(NetworkStatement(value)))
  {
    hide Typable, Words, IsWord, Collapse, IsQuad, Plain;
    CollapseIsTypable(value);
    LowerWord("network");
    StatementIsPlain("network", Collapse(value));
    assert "network" + " " + Collapse(value) == NetworkStatement(value);
  }

  lemma {:induction false} BlocksArePlain(name: string)
    requires Typable(name) && Words(name) != []
    ensures Plain(RouterCmd(name)) && Plain(NoRouter(name))
  {
    hide Typable, Words;
  }

  lemma {:induction false} NetworkLines(step: ChangeStep, context: ChangeContext)
    requires (step.RouterNetworkStep? || step.RouterNetworkRemoveStep?) && Accepts(step, context)
    ensures PlainChange(RenderChange(step, context).value)
  {
    hide Plain, IsProcess, IsNetwork, Strip, NetworkStatement, Words, Typable;
    ProcessIsPlain(step.process);
    BlocksArePlain(Strip(step.process));
    NetworkIsPlain(step.process, step.value);
  }

  /** A line a process is said to have, as it is found. */
  lemma {:induction false} FoundIsTypable(p: RoutingProcessFacts, prefix: string)
    requires p.FindStatement(prefix).Some?
    ensures var text := p.FindStatement(prefix).value; Typable(text) && Words(text) == Key(text)
  {
    hide Typable, Normalize, Words, Key;
    FirstWithPrefixFinds(p.statements, Normalize(prefix));
    var i :| 0 <= i < |p.statements| && p.FindStatement(prefix).value == Normalize(p.statements[i]);
    CollapseIsTypable(p.statements[i]);
    KeyIsWords(p.statements[i]);
    KeyOfNormalize(p.statements[i]);
  }

  lemma {:induction false} RipLines(c: Config, process: string, value: string, context: ChangeContext)
    requires ConfigOk(c) && ReportsRouters(c, context.routingProcesses)
    requires Accepts(RipVersionStep(process, value), context)
    ensures PlainChange(RenderChange(RipVersionStep(process, value), context).value)
  {
    hide Plain, Strip, Words, Typable, Key, Normalize, RouterOk, LineOk, Lists;
    var v := Strip(value);
    RipIsPlain();
    VersionIsPlain(v);
    var existing := ProcessOf(context.routingProcesses, "rip");
    ProcessFound(c, context.routingProcesses, "rip");
    if existing.Some? && existing.value.FindStatement("version ").Some? {
      FindVersion(existing.value, c.routers[Key("rip")]);
      FoundIsTypable(existing.value, "version ");
      VersionHasNumber(c.routers[Key("rip")], Key(existing.value.FindStatement("version ").value));
      FoundIsPlain(existing.value.FindStatement("version ").value);
    }
  }

  lemma {:induction false} VersionHasNumber(lines: set<Line>, l: Line)
    requires RouterOk(lines) && l in lines && IsVersion(l)
    ensures |l| >= 2 && OpensStatement(l[0])
  {
  }

  lemma {:induction false} FoundIsPlain(text: string)
    requires Typable(text) && |Words(text)| >= 2 && OpensStatement(Words(text)[0])
    ensures Plain(Statement(text))
  {
    hide Typable, Words, OpensStatement;
  }

  lemma {:induction false} RipIsPlain()
    ensures Plain(RouterCmd("rip")) && Plain(NoRouter("rip"))
  {
    hide Typable, Words, IsWord;
    GraphicIsWord("rip");
    PlainWord("rip");
    BlocksArePlain("rip");
  }

  lemma {:induction false} VersionIsPlain(v: string)
    requires v == "1" || v == "2"
    ensures Plain(Statement("version " + v)) && Plain(NoStatement("version"))
  {
    hide Typable, Words, IsWord;
    LowerWord("version");
    DigitWord(v);
    PlainWord(v);
    PlainWord("version");
    StatementIsPlain("version", v);
    assert "version" + " " + v == "version " + v;
  }

  lemma {:induction false} BgpLines(c: Config, process: string, value: string, context: ChangeContext)
    requires ConfigOk(c) && ReportsRouters(c, context.routingProcesses)
    requires Accepts(BgpNeighborStep(process, value), context)
    ensures PlainChange(RenderChange(BgpNeighborStep(process, value), context).value)
  {
    hide Plain, Strip, Words, Typable, Key, Normalize, RouterOk, LineOk, Lists, IsBgpProcess, IsBgpNeighbor, Lower;
    hide NeighborStatement, PeerAddress, IsRemoteAs, IsWord;
    var name, peer := Lower(Strip(process)), PeerAddress(value);
    ProcessIsPlain(process);
    BlocksArePlain(name);
    NeighborIsPlain(value);
    var existing := ProcessOf(context.routingProcesses, name);
    ProcessFound(c, context.routingProcesses, name);
    if existing.Some? {
      FindRemoteAs(existing.value, c.routers[Key(name)], peer);
      var previous := existing.value.FindStatement("neighbor " + peer + " remote-as ");
      if previous.Some? {
        FoundIsTypable(existing.value, "neighbor " + peer + " remote-as ");
        RemoteAsIsLong(Key(previous.value), peer);
        FoundIsPlain(previous.value);
      }
    }
  }

  lemma {:induction false} RemoteAsIsLong(l: Line, peer: string)
    requires IsRemoteAs(l, peer)
    ensures |l| >= 2 && OpensStatement(l[0])
  {
  }

  lemma {:induction false} NeighborIsPlain(value: string)
    requires IsBgpNeighbor(value)
    ensures Plain(Statement(NeighborStatement(value))) && Plain(NoStatement("neighbor " + PeerAddress(value)))
    ensures IsWord(PeerAddress(value)) && Lower(PeerAddress(value)) == PeerAddress(value)
  {
    hide Typable, Words, IsWord, Collapse, Lower, IsBgpNeighbor, LowerAll, Plain, PeerAddress;
    var peer := PeerAddress(value);
    NeighborWords(value);
    var k := Key(value);
    assert LowerAll(k)[0] == Lower(k[0]) by { LowerAllAt(k, 0); }
    assert IsWord(peer);
    CollapseIsTypable(value);
    LowerWord("neighbor");
    KeyHasWords(value);
    StatementIsPlain("neighbor", Collapse(value));
    assert "neighbor" + " " + Collapse(value) == NeighborStatement(value);
    PlainWord(peer);
    StatementIsPlain("neighbor", peer);
    assert "neighbor" + " " + peer == "neighbor " + peer;
  }

  lemma {:induction false} LowerAllAt(ws: seq<string>, i: nat)
    requires i < |ws|
    ensures LowerAll(ws)[i] == Lower(ws[i])
  {
  }

  lemma {:induction false} KeyHasWords(value: string)
    requires Key(value) != []
    ensures Words(value) != []
  {
  }

  // ---- Ports, VLANs and settings ----

  lemma {:induction false} VlanNameLines(c: Config, vlan: string, name: string, context: ChangeContext)
    requires ConfigOk(c) && ReportsVlans(c, context.vlans) && IsVlanName(name)
    ensures PlainChange(RenderChange(VlanNameStep(vlan, name), context).value)
  {
    hide Plain, IntOf, IsVlanName, IsWord, RouterOk, LineOk, PortOk;
    var id := IntOf(vlan);
    IdIsPlain(VlanCmd(id));
    IdIsPlain(NoVlan(id));
    VlanNameIsWord(name);
    NameIsPlain(name);
    var existing := VlanOf(context.vlans, id);
    if existing.Some? {
      var i :| 0 <= i < |context.vlans| && context.vlans[i] == existing.value;
      NameIsPlain(existing.value.name);
    }
  }

  lemma {:induction false} VlanNameIsWord(name: string)
    requires IsVlanName(name)
    ensures IsWord(name)
  {
  }

  lemma {:induction false} NameIsPlain(name: string)
    requires IsWord(name)
    ensures Plain(VlanNameCmd(name))
  {
    hide IsWord, Typable, Words;
    PlainWord(name);
  }

  lemma {:induction false} AccessVlanLines(c: Config, port: string, vlan: string, context: ChangeContext)
    requires Plain(InterfaceCmd(port))
    ensures PlainChange(RenderAccessVlan(port, vlan, context))
  {
    hide Plain, IntOf, HoldsPort;
    var previous := AccessVlanOf(context.vlans, port);
    ModeIsPlain("static access");
    IdIsPlain(SwitchportAccessVlan(IntOf(vlan)));
    if previous.Some? {
      IdIsPlain(SwitchportAccessVlan(previous.value.vlanId));
    }
    BareIsPlain(NoSwitchportAccessVlan);
  }

  lemma {:induction false} BareIsPlain(c: Command)
    requires Argument(c).None? && !c.SwitchportMode?
    ensures Plain(c)
  {
  }

  lemma {:induction false} TrunkLines(c: Config, port: string, list: string, context: ChangeContext)
    requires Accepts(TrunkVlansStep(port, list), context) && ReportsSwitchports(c, context.switchports)
    requires Plain(InterfaceCmd(port))
    ensures var r := RenderTrunkVlans(port, list, context); r.Some? && PlainChange(r.value)
  {
    hide Plain, Strip, Accepted, SameInterface, NormalizeInterfaceName, ModeCommand, PreviousAllowed, AllPlain, Typable;
    hide SwitchportFacts.IsTrunk, ReportsAllowed;
    var facts := SwitchportOf(context.switchports, port).value;
    var i :| 0 <= i < |context.switchports| && context.switchports[i] == facts;
    var assign, undo := TrunkAllowedVlans(Strip(list)), PreviousAllowed(facts);
    ListIsPlain(list);
    PreviousIsPlain(facts);
    BareIsPlain(TrunkEncapsulationDot1q);
    ModeIsPlain(facts.mode);
    TrunkIsMode();
    ModeIsPlain("trunk");
    PlainThree(InterfaceCmd(port), undo, SwitchportMode(facts.mode));
    PlainThree(InterfaceCmd(port), assign, assign);
    PlainFour(InterfaceCmd(port), TrunkEncapsulationDot1q, SwitchportMode("trunk"), assign);
  }

  lemma {:induction false} PlainThree(a: Command, b: Command, d: Command)
    requires Plain(a) && Plain(b) && Plain(d)
    ensures AllPlain([a, b]) && AllPlain([a, b, d])
  {
    hide Plain;
  }

  lemma {:induction false} PlainFour(a: Command, b: Command, d: Command, e: Command)
    requires Plain(a) && Plain(b) && Plain(d) && Plain(e)
    ensures AllPlain([a] + [b] + [d, e]) && AllPlain([a] + [] + [d, e])
  {
    hide Plain;
  }

  lemma {:induction false} TrunkIsMode()
    ensures ModeCommand("trunk").Some?
  {
  }

  lemma {:induction false} ListIsPlain(list: string)
    requires Accepted(list)
    ensures Plain(TrunkAllowedVlans(Strip(list)))
  {
    hide PartLow, PartHigh, SplitOn, Strip, Words;
    AcceptedChars(Strip(list));
    forall i | 0 <= i < |Strip(list)| ensures !IsSpace(Strip(list)[i]) {
      assert ListChar(Strip(list)[i]);
    }
    PlainWord(Strip(list));
  }

  lemma {:induction false} PreviousIsPlain(facts: SwitchportFacts)
    requires exists allowed :: ReportsAllowed(facts.trunkAllowed, allowed)
    ensures Plain(PreviousAllowed(facts))
  {
    hide Strip, Lower, Typable, Words, Expand;
    var text := if facts.trunkAllowed.Some? then facts.trunkAllowed.value else "";
    BlankIsTypable();
    StripIsTypable(text);
    StripTwice(text);
    if Strip(text) != "" {
      HasWords(Strip(text));
    }
  }

  lemma {:induction false} StripIsTypable(s: string)
    requires Typable(s)
    ensures Typable(Strip(s))
  {
    LeftIsTypable(s);
    var l := StripLeft(s);
    assert forall i :: 0 <= i < |StripRight(l)| ==> StripRight(l)[i] == l[i];
  }

  lemma {:induction false} LeftIsTypable(s: string)
    requires Typable(s)
    ensures Typable(StripLeft(s))
  {
    hide IsSpace;
    if s != "" && IsSpace(s[0]) {
      LeftIsTypable(s[1..]);
    }
  }

  lemma {:induction false} DescriptionLines(c: Config, port: string, text: string, context: ChangeContext, carrier: bool)
    requires ConfigOk(c) && ReportsInterface(c, port, context.interface, carrier) && IsDescription(text)
    requires Plain(InterfaceCmd(port))
    ensures PlainChange(RenderChange(DescriptionStep(port, text), context).value)
  {
    hide Plain, NormalizeInterfaceName, Strip, IsDescription, RouterOk, LineOk, IsWord;
    assert PortOk(c.ports[NormalizeInterfaceName(port)]);
    BareIsPlain(NoDescription);
    DescriptionIsTypable(text);
    DescriptionIsPlain(text);
    var previous := context.interface.value.description;
    if previous.Some? {
      DescriptionIsPlain(previous.value);
    }
  }

  lemma {:induction false} DescriptionIsTypable(text: string)
    requires IsDescription(text)
    ensures Typable(text) && Strip(text) != ""
  {
    hide Strip;
    forall i | 0 <= i < |text| && IsSpace(text[i]) ensures IsBlank(text[i]) {
      assert IsPrintable(text[i]);
    }
  }

  lemma {:induction false} DescriptionIsPlain(text: string)
    requires Typable(text) && Strip(text) != ""
    ensures Plain(Description(text))
  {
    hide Strip, Typable, Words;
    HasWords(text);
  }

  lemma {:induction false} AdminStateLines(port: string, value: string, context: ChangeContext)
    requires Plain(InterfaceCmd(port)) && context.interface.Some?
    ensures PlainChange(RenderChange(AdminStateStep(port, value), context).value)
  {
    hide Plain;
    BareIsPlain(Shutdown);
    BareIsPlain(NoShutdown);
  }

  // ---- Host names and static routes ----

  lemma {:induction false} HostnameIsClean(name: string)
    requires IsHostname(name)
    ensures Clean(name) && StripRight(name) != ""
  {
    var body := if name != "" && name[|name| - 1] == '\n' then name[..|name| - 1] else name;
    forall i | 0 <= i < |body| ensures !IsSpace(body[i]) {
      assert IsLetter(body[i]) || IsDigit(body[i]) || body[i] == '-';
    }
    assert StripRight(body) == body && StripRight(name) == body;
    assert |name[|body|..]| <= 1;
  }

  lemma {:induction false} HostnameText(name: string)
    requires StripRight(name) != ""
    ensures Sendable(HostnameCmd(name)) && (Clean(CommandText(HostnameCmd(name))) <==> Clean(name))
  {
    hide StripRight, Words, Clean, Typable, AllWords;
    var c := HostnameCmd(name);
    KeywordsAreWords(c);
    JoinIsTypable(Keywords(c));
    BlankIsTypable();
    TypableAppend(Join(Keywords(c)), " ");
    CleanBehind(Join(Keywords(c)) + " ", name);
    RightIsSolid(name);
    WordsMeanSolid(name, |StripRight(name)| - 1);
  }

  lemma {:induction false} HostnameLines(c: Config, name: string)
    requires ConfigOk(c) && c.hostname != "" && IsHostname(name)
    ensures var r := RenderedChange([HostnameCmd(name)], [HostnameCmd(c.hostname)]);
            SentClean(r) && (AllOneLine(r) <==> OneLine(name))
  {
    hide Clean, Typable, OneLine, CommandText, Sendable, IsHostname, Strip, StripRight, RouterOk, LineOk, PortOk;
    hide IsWord;
    HostnameIsClean(name);
    HostnameText(name);
    TextIsTypable(HostnameCmd(name));
    HasWords(c.hostname);
    HostnamePlain(c.hostname);
    PlainIsClean(HostnameCmd(c.hostname));
    assert [HostnameCmd(name)][0] == HostnameCmd(name);
  }

  lemma {:induction false} HostnamePlain(name: string)
    requires Typable(name) && Words(name) != []
    ensures Plain(HostnameCmd(name))
  {
  }

  /** The line of a route that is configured already. */
  lemma {:induction false} ListedIsPlain(raw: string)
    requires IsListed(Words(raw)) && Typable(raw)
    ensures Plain(IpRoute(raw)) && Plain(NoIpRoute(raw))
  {
    hide Words, Typable, IsDotted;
  }

  /** A route is sent as rendered exactly if its next hop is clean. */
  lemma {:induction false} StaticRouteLines(c: Config, destination: string, mask: string, nextHop: string,
                                            context: ChangeContext)
    requires Accepts(StaticRouteStep(destination, mask, nextHop), context) && ReportsRoutes(c, context.staticRoutes)
    ensures var r := RenderStaticRoute(destination, mask, nextHop, context);
            && AllSendable(r.commands) && AllSendable(r.inverse)
            && (SentClean(r) <==> Clean(nextHop))
            && (AllOneLine(r) <==> OneLine(nextHop))
  {
    hide Clean, Typable, OneLine, CommandText, Sendable, Plain, IsQuad, IsNextHop, Strip, AddedRoute, SentClean;
    hide AllOneLine;
    hide AllSendable, ReportsRoutes;
    var added := AddedRoute(destination, mask, nextHop);
    RouteIsClean(true, destination, mask, nextHop);
    RouteIsClean(false, destination, mask, nextHop);
    RouteIsOneLine(true, destination, mask, nextHop);
    RouteIsOneLine(false, destination, mask, nextHop);
    var existing := StaticRouteOf(context.staticRoutes, destination, mask);
    if existing.Some? {
      var raw := existing.value.raw;
      RouteListed(c, context.staticRoutes, existing.value);
      ListedIsPlain(raw);
      OneAmongPlain([NoIpRoute(raw)], IpRoute(added), [], nextHop);
      OneAmongPlain([], NoIpRoute(added), [IpRoute(raw)], nextHop);
      assert [NoIpRoute(raw)] + [IpRoute(added)] + [] == [NoIpRoute(raw), IpRoute(added)];
      assert [] + [NoIpRoute(added)] + [IpRoute(raw)] == [NoIpRoute(added), IpRoute(raw)];
      SentBoth([NoIpRoute(raw), IpRoute(added)], [NoIpRoute(added), IpRoute(raw)]);
    } else {
      OneAmongPlain([], IpRoute(added), [], nextHop);
      OneAmongPlain([], NoIpRoute(added), [], nextHop);
      assert [] + [IpRoute(added)] + [] == [IpRoute(added)] && [] + [NoIpRoute(added)] + [] == [NoIpRoute(added)];
      SentBoth([IpRoute(added)], [NoIpRoute(added)]);
    }
  }

  /** One command decides for a batch of plain ones. */
  lemma {:induction false} OneAmongPlain(front: seq<Command>, c: Command, back: seq<Command>, hop: string)
    requires AllPlain(front) && AllPlain(back) && Sendable(c)
    requires (Clean(CommandText(c)) <==> Clean(hop)) && (OneLine(CommandText(c)) <==> OneLine(hop))
    ensures var all := front + [c] + back;
            && AllSendable(all) && (AllClean(all) <==> Clean(hop))
            && (OneLineTexts(all) <==> OneLine(hop))
  {
    hide Clean, OneLine, CommandText, Sendable, Plain;
    var all := front + [c] + back;
    assert all[|front|] == c;
    forall i | 0 <= i < |all| && i != |front|
      ensures Sendable(all[i]) && Clean(CommandText(all[i])) && OneLine(CommandText(all[i]))
    {
      assert all[i] == if i < |front| then front[i] else back[i - |front| - 1];
      PlainSends(all[i]);
    }
  }

  predicate OneLineTexts(commands: seq<Command>) {
    forall i :: 0 <= i < |commands| ==> OneLine(CommandText(commands[i]))
  }

  lemma {:induction false} SentBoth(commands: seq<Command>, inverse: seq<Command>)
    requires AllSendable(commands) && AllSendable(inverse)
    ensures var r := RenderedChange(commands, inverse);
            && (SentClean(r) <==> AllClean(commands) && AllClean(inverse))
            && (AllOneLine(r) <==> OneLineTexts(commands) && OneLineTexts(inverse))
  {
    hide AllSendable, AllClean, OneLineTexts;
  }

  lemma {:induction false} PlainSends(c: Command)
    requires Plain(c)
    ensures Sendable(c) && Clean(CommandText(c)) && OneLine(CommandText(c))
  {
    hide Sendable, Typable, Clean, OneLine, CommandText;
    PlainIsClean(c);
  }

  lemma {:induction false} RouteIsOneLine(add: bool, destination: string, mask: string, nextHop: string)
    requires IsQuad(destination) && IsQuad(mask) && IsNextHop(Strip(nextHop))
    ensures OneLine(CommandText(RouteCommand(add, AddedRoute(destination, mask, nextHop)))) <==> OneLine(nextHop)
  {
    hide OneLine, Clean, Typable, IsQuad, IsNextHop, Strip, Head, Join, AddedRoute, CommandText;
    RouteText(add, destination, mask, nextHop);
    RouteIsClean(add, destination, mask, nextHop);
    TypableIsOneLine(Join(Head(add, destination, mask)) + " ");
    OneLineAppend(Join(Head(add, destination, mask)) + " ", nextHop);
  }

  // ---- Every validated change ----

  ghost predicate AllOneLine(r: RenderedChange) {
    OneLineTexts(r.commands) && OneLineTexts(r.inverse)
  }

  /** Both batches are stored and split back as they were. */
  ghost predicate BothSurvive(r: RenderedChange) {
    Sent(r.commands) == Texts(r.commands) && Sent(r.inverse) == Texts(r.inverse)
  }

  /** The two values that validation lets through with a line break in them. */
  predicate TypedOnOneLine(step: ChangeStep) {
    && (step.HostnameStep? ==> OneLine(step.name))
    && (step.StaticRouteStep? ==> OneLine(step.nextHop))
  }

  /** The one value that can keep its commands from being sent as they are. */
  predicate TypedCleanly(step: ChangeStep) {
    step.StaticRouteStep? ==> Clean(step.nextHop)
  }

  lemma {:induction false} ChangeIsPlain(c: Config, step: ChangeStep, context: ChangeContext, carrier: bool)
    requires ConfigOk(c) && Reports(c, step, context, carrier) && Accepts(step, context)
    requires RenderChange(step, context).Some? && !step.HostnameStep? && !step.StaticRouteStep?
    ensures PlainChange(RenderChange(step, context).value)
  {
    hide ConfigOk, NormalizeInterfaceName, Strip, Lower, Words, Key, IsProcess, IsNetwork, Accepted, IntOf, Typable;
    hide IsVlanId, IsVlanName, IsNextHop, IsQuad, IsBgpProcess, IsBgpNeighbor, IsDescription, IsHostname, Plain;
    hide ReportsRouters, ReportsRoutes, ReportsVlans, ReportsMembership, ReportsSwitchports;
    match step
    case DomainLookupStep(value) =>
      BareIsPlain(DomainLookup);
      BareIsPlain(NoDomainLookup);
    case VlanNameStep(vlan, name) => VlanNameLines(c, vlan, name, context);
    case AccessVlanStep(port, vlan) =>
      PortIsPlain(c, port);
      AccessVlanLines(c, port, vlan, context);
    case TrunkVlansStep(port, list) =>
      PortIsPlain(c, port);
      TrunkLines(c, port, list, context);
    case RouterNetworkStep(_, _) => NetworkLines(step, context);
    case RouterNetworkRemoveStep(_, _) => NetworkLines(step, context);
    case RipVersionStep(process, value) => RipLines(c, process, value, context);
    case BgpNeighborStep(process, value) => BgpLines(c, process, value, context);
    case DescriptionStep(port, text) =>
      PortIsPlain(c, port);
      DescriptionLines(c, port, text, context, carrier);
    case AdminStateStep(port, value) =>
      PortIsPlain(c, port);
      AdminStateLines(port, value, context);
  }

  /** What is sent for a validated change is what was rendered, word for word, exactly if its next hop is clean; its
      texts come back as they were stored exactly if it was typed on one line. */
  lemma {:induction false} ChangeIsSent(c: Config, step: ChangeStep, context: ChangeContext, carrier: bool)
    requires ConfigOk(c) && Reports(c, step, context, carrier) && Accepts(step, context)
    requires RenderChange(step, context).Some?
    ensures var r := RenderChange(step, context).value;
            && r.commands != [] && r.inverse != [] && AllSendable(r.commands) && AllSendable(r.inverse)
            && (SentClean(r) <==> TypedCleanly(step))
            && (AllOneLine(r) <==> TypedOnOneLine(step))
  {
    hide ConfigOk, Accepts, Sendable, Clean, OneLine, CommandText, ReportsRoutes, Plain, RenderStaticRoute;
    var r := RenderChange(step, context).value;
    if step.StaticRouteStep? {
      StaticRouteLines(c, step.destination, step.mask, step.nextHop, context);
      RouteIsThere(step.destination, step.mask, step.nextHop, context);
    } else if step.HostnameStep? {
      AcceptedHostname(step, context);
      HostnameLines(c, step.name);
    } else {
      hide RenderChange, Reports;
      ChangeIsPlain(c, step, context, carrier);
      PlainIsSentClean(r);
    }
  }

  lemma {:induction false} AcceptedHostname(step: ChangeStep, context: ChangeContext)
    requires Accepts(step, context) && step.HostnameStep?
    ensures IsHostname(step.name)
  {
  }

  lemma {:induction false} RouteIsThere(destination: string, mask: string, nextHop: string, context: ChangeContext)
    ensures var r := RenderStaticRoute(destination, mask, nextHop, context); r.commands != [] && r.inverse != []
  {
    hide AddedRoute;
  }

  /** What was vetted is what is applied: the stored text of a validated change gives back exactly its commands,
      if and only if a host name or next hop was typed without a line break. */
  lemma {:induction false} StoredChangeSurvives(c: Config, step: ChangeStep, context: ChangeContext, carrier: bool)
    requires ConfigOk(c) && Reports(c, step, context, carrier) && Accepts(step, context)
    requires RenderChange(step, context).Some?
    ensures BothSurvive(RenderChange(step, context).value) <==> TypedOnOneLine(step)
  {
    hide ConfigOk, Accepts, Reports, RenderChange, Sent, Texts, Sendable, OneLine, SentClean, TypedOnOneLine;
    var r := RenderChange(step, context).value;
    ChangeIsSent(c, step, context, carrier);
    BatchSurvives(r.commands);
    BatchSurvives(r.inverse);
  }

  lemma {:induction false} BatchSurvives(commands: seq<Command>)
    requires commands != [] && AllSendable(commands)
    ensures Sent(commands) == Texts(commands) <==> OneLineTexts(commands)
  {
    hide OneLine, CommandText, Sendable, SplitLines, JoinOn;
    forall i | 0 <= i < |commands| ensures Texts(commands)[i] != "" {
      CommandIsThere(commands[i]);
    }
    SurvivesExactlyWhenOneLine(Texts(commands));
    assert forall i :: 0 <= i < |commands| ==> Texts(commands)[i] == CommandText(commands[i]);
  }
}
