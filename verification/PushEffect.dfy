/** What a change does to a device, said of its configuration: what is set, and that nothing else is. */
module PushEffect {
  import opened Wrappers
  import opened Text
  import opened Lines
  import opened VlanList
  import opened Facts
  import opened Device
  import opened CommandLine
  import opened CiscoDriver
  import opened StoredText
  import opened RouteLines
  import opened ChangeLines
  import opened RouterBlocks
  import opened RouterUndo
  import opened PortUndo
  import opened Rollback
  import opened PostCheck

  /** The lines of a block, or none if the process is not running. */
  function BlockOf(c: Config, key: Line): set<Line> {
    if key in c.routers then c.routers[key] else {}
  }

  /** The configuration after the change. Of the read-back before it, only the route that was listed first for the prefix
      matters. */
  ghost function Effect(c: Config, step: ChangeStep, before: ChangeContext): Config {
    match step
    case HostnameStep(name) => c.(hostname := Strip(name))
    case DomainLookupStep(value) => c.(domainLookup := value == "on")
    case VlanNameStep(vlan, name) => c.(vlans := c.vlans[IntOf(vlan) := name])
    case AccessVlanStep(port, vlan) =>
      var key := NormalizeInterfaceName(port);
      if key !in c.ports then c
      else c.(ports := c.ports[key := c.ports[key].(mode := "static access", accessVlan := IntOf(vlan))])
    case TrunkVlansStep(port, list) =>
      var key := NormalizeInterfaceName(port);
      if key !in c.ports then c
      else
        var p := c.ports[key];
        c.(ports := c.ports[key := p.(mode := "trunk", allowed := Expand(list),
                                      encapsulation := if p.mode == "trunk" then p.encapsulation else Dot1q)])
    case StaticRouteStep(destination, mask, nextHop) =>
      var listed := StaticRouteOf(before.staticRoutes, destination, mask);
      var kept := if listed.Some? then c.routes - {Words(listed.value.raw)} else c.routes;
      c.(routes := kept + {["ip", "route", destination, mask, Strip(nextHop)]})
    case RouterNetworkStep(process, value) =>
      c.(routers := c.routers[Key(process) := BlockOf(c, Key(process)) + {["network"] + Key(value)}])
    case RouterNetworkRemoveStep(process, value) =>
      c.(routers := c.routers[Key(process) := BlockOf(c, Key(process)) - {["network"] + Key(value)}])
    case RipVersionStep(_, value) =>
      var others := set l | l in BlockOf(c, ["rip"]) && !(l != [] && l[0] == "version");
      c.(routers := c.routers[["rip"] := others + {["version", Strip(value)]}])
    case BgpNeighborStep(process, value) =>
      var lines, peer := BlockOf(c, Key(process)), if Key(value) == [] then "" else Key(value)[0];
      var known := exists l :: l in lines && |l| >= 3 && l[0] == "neighbor" && l[1] == peer && l[2] == "remote-as";
      var others := if known then set l | l in lines && !(|l| >= 2 && l[0] == "neighbor" && l[1] == peer) else lines;
      c.(routers := c.routers[Key(process) := others + {["neighbor"] + Key(value)}])
    case DescriptionStep(port, text) =>
      var key := NormalizeInterfaceName(port);
      if key !in c.ports then c
      else c.(ports := c.ports[key := c.ports[key].(description := Some(Strip(text)))])
    case AdminStateStep(port, value) =>
      var key := NormalizeInterfaceName(port);
      if key !in c.ports then c else c.(ports := c.ports[key := c.ports[key].(down := value == "down")])
  }

  /** For every configuration, validated change and read-back: the lines that are sent do this and nothing else, exactly
      if the change was typed cleanly; otherwise they are not all accepted. */
  lemma {:induction false} PushDoesExactly(c: Config, step: ChangeStep, context: ChangeContext, carrier: bool)
    requires ConfigOk(c) && Reports(c, step, context, carrier) && Accepts(step, context)
    requires RenderChange(step, context).Some?
    ensures RunLines(c, Sent(RenderChange(step, context).value.commands)) == Outcome(Effect(c, step, context), true)
       <==> TypedCleanly(step)
  {
    hide ConfigOk, Reports, Accepts, RenderChange, Sent, RunLines, Run, TypedCleanly, Effect;
    PushCompletes(c, step, context, carrier);
    RenderedDoes(c, step, context, carrier);
  }

  lemma {:induction false} RenderedDoes(c: Config, step: ChangeStep, context: ChangeContext, carrier: bool)
    requires ConfigOk(c) && Reports(c, step, context, carrier) && Accepts(step, context)
    requires RenderChange(step, context).Some?
    ensures Run(c, RenderChange(step, context).value.commands) == Outcome(Effect(c, step, context), true)
  {
    hide ConfigOk, NormalizeInterfaceName, Strip, Lower, Words, Key, IsProcess, IsNetwork, Accepted, Run, IntOf;
    hide IsVlanId, IsVlanName, IsNextHop, IsQuad, IsBgpProcess, IsBgpNeighbor, IsDescription, IsHostname;
    hide ReportsRouters, ReportsRoutes, ReportsVlans, ReportsMembership, ReportsSwitchports, Expand;
    match step
    case HostnameStep(name) => RunHostname(c, name);
    case DomainLookupStep(value) => RunLookup(c, value == "on");
    case VlanNameStep(vlan, name) =>
      RunVlan(c, IntOf(vlan), name);
      NameIsSolid(name);
    case AccessVlanStep(port, vlan) => AccessVlanDoes(c, port, vlan, context, carrier);
    case TrunkVlansStep(port, list) => TrunkVlansDoes(c, port, list, context, carrier);
    case StaticRouteStep(destination, mask, nextHop) => StaticRouteDoes(c, destination, mask, nextHop, context);
    case RouterNetworkStep(process, value) => NetworkDoes(c, process, value, context);
    case RouterNetworkRemoveStep(process, value) => NetworkRemoveDoes(c, process, value, context);
    case RipVersionStep(process, value) => RipVersionDoes(c, process, value, context);
    case BgpNeighborStep(process, value) => BgpNeighborDoes(c, process, value, context);
    case DescriptionStep(port, text) =>
      assert [InterfaceCmd(port)] + [Description(text)] == [InterfaceCmd(port), Description(text)];
      RunTwo(c.ports[NormalizeInterfaceName(port)], Description(text), Description(text));
      RunPort(c, port, [Description(text)]);
    case AdminStateStep(port, value) =>
      var does := if value == "up" then NoShutdown else Shutdown;
      assert [InterfaceCmd(port)] + [does] == [InterfaceCmd(port), does];
      RunTwo(c.ports[NormalizeInterfaceName(port)], does, does);
      RunPort(c, port, [does]);
  }

  // ---- Type by type ----

  lemma {:induction false} AccessVlanDoes(c: Config, port: string, vlan: string, context: ChangeContext, carrier: bool)
    requires ReportsInterface(c, port, context.interface, carrier)
    ensures Run(c, RenderAccessVlan(port, vlan, context).commands)
         == Outcome(Effect(c, AccessVlanStep(port, vlan), context), true)
  {
    hide Run, NormalizeInterfaceName, IntOf, HoldsPort;
    var p, id := c.ports[NormalizeInterfaceName(port)], IntOf(vlan);
    var does := [SwitchportMode("static access"), SwitchportAccessVlan(id)];
    AccessCommands(p, id, NoSwitchportAccessVlan);
    assert [InterfaceCmd(port)] + does == [InterfaceCmd(port), SwitchportMode("static access"), SwitchportAccessVlan(id)];
    RunPort(c, port, does);
  }

  lemma {:induction false} TrunkVlansDoes(c: Config, port: string, list: string, context: ChangeContext, carrier: bool)
    requires ConfigOk(c) && Accepts(TrunkVlansStep(port, list), context) && ReportsSwitchports(c, context.switchports)
    requires RenderChange(TrunkVlansStep(port, list), context).Some?
    ensures Run(c, RenderChange(TrunkVlansStep(port, list), context).value.commands)
         == Outcome(Effect(c, TrunkVlansStep(port, list), context), true)
  {
    hide Run, NormalizeInterfaceName, Strip, Expand, ReportsAllowed, ExecPort, ModeCommand, RenderChange;
    hide PreviousAllowed, ReportsSwitchports, Accepted, PortRun;
    var name, facts := NormalizeInterfaceName(port), SwitchportOf(context.switchports, port).value;
    SwitchportFound(c, context.switchports, port);
    var p, assign := c.ports[name], TrunkAllowedVlans(Strip(list));
    assert PortOk(p);
    TrunkRendering(port, list, context, facts);
    TrunkCommands(p, p.mode, Strip(list));
    ExpandOfStrip(list);
    if p.mode == "trunk" {
      assert [InterfaceCmd(port)] + [assign] == [InterfaceCmd(port), assign];
      RunTwo(p, assign, assign);
      RunPort(c, port, [assign]);
    } else if p.encapsulation == Negotiate {
      TrunkCommands(p.(encapsulation := Dot1q), p.mode, Strip(list));
      TrunkCommands(p.(encapsulation := Dot1q, mode := "trunk"), p.mode, Strip(list));
      RunThree(p, TrunkEncapsulationDot1q, SwitchportMode("trunk"), assign);
      RunTwo(p.(encapsulation := Dot1q), SwitchportMode("trunk"), assign);
      RunPort(c, port, [TrunkEncapsulationDot1q, SwitchportMode("trunk"), assign]);
    } else {
      TrunkCommands(p.(mode := "trunk"), p.mode, Strip(list));
      RunTwo(p, SwitchportMode("trunk"), assign);
      RunPort(c, port, [SwitchportMode("trunk"), assign]);
    }
  }

  lemma {:induction false} StaticRouteDoes(c: Config, destination: string, mask: string, nextHop: string,
                                           context: ChangeContext)
    requires Accepts(StaticRouteStep(destination, mask, nextHop), context) && ReportsRoutes(c, context.staticRoutes)
    ensures Run(c, RenderStaticRoute(destination, mask, nextHop, context).commands)
         == Outcome(Effect(c, StaticRouteStep(destination, mask, nextHop), context), true)
  {
    hide Run, Words, AddedRoute, IsQuad, IsNextHop, Strip, ReportsRoutes;
    var added, listed := AddedRoute(destination, mask, nextHop), StaticRouteOf(context.staticRoutes, destination, mask);
    AddedRouteWords(destination, mask, nextHop);
    RunRoute(c, added);
    if listed.Some? {
      RouteListed(c, context.staticRoutes, listed.value);
      RunRouteSwap(c, listed.value.AsCommand(), added);
    }
  }

  lemma {:induction false} NetworkDoes(c: Config, process: string, value: string, context: ChangeContext)
    requires Accepts(RouterNetworkStep(process, value), context)
    ensures Run(c, [RouterCmd(Strip(process)), Statement(NetworkStatement(value))])
         == Outcome(Effect(c, RouterNetworkStep(process, value), context), true)
  {
    hide Key, Run, AddLine, Normalize, IsProcess, IsNetwork, Strip;
    var key, statement := Key(process), NetworkStatement(value);
    KeyOfNetwork(value);
    PlainProcess(c, process);
    PlainLine(LinesOf(c, key), value);
    RunAdd(c, Strip(process), statement);
  }

  lemma {:induction false} NetworkRemoveDoes(c: Config, process: string, value: string, context: ChangeContext)
    requires Accepts(RouterNetworkRemoveStep(process, value), context)
    ensures Run(c, [RouterCmd(Strip(process)), NoStatement(NetworkStatement(value))])
         == Outcome(Effect(c, RouterNetworkRemoveStep(process, value), context), true)
  {
    hide Key, Run, DropLine, Normalize, IsProcess, IsNetwork, Strip;
    var key, statement := Key(process), NetworkStatement(value);
    KeyOfNetwork(value);
    PlainProcess(c, process);
    PlainLine(LinesOf(c, key), value);
    RunDrop(c, Strip(process), statement);
  }

  lemma {:induction false} RipVersionDoes(c: Config, process: string, value: string, context: ChangeContext)
    requires ConfigOk(c) && Accepts(RipVersionStep(process, value), context)
    ensures Run(c, RenderRipVersion(value, context).commands)
         == Outcome(Effect(c, RipVersionStep(process, value), context), true)
  {
    hide Key, Run, AddLine, Normalize, Strip, LineOk, RouterOk, Join;
    var key, v := Key("rip"), Strip(value);
    ProtocolWords();
    KeyOfWord("rip");
    KeyOfVersion(v);
    VersionLine(LinesOf(c, key), ["version", v]);
    RunAdd(c, "rip", "version " + v);
    assert NonVersions(LinesOf(c, key)) == set l | l in BlockOf(c, ["rip"]) && !(l != [] && l[0] == "version");
  }

  lemma {:induction false} BgpNeighborDoes(c: Config, process: string, value: string, context: ChangeContext)
    requires ConfigOk(c) && ReportsRouters(c, context.routingProcesses)
    requires Accepts(BgpNeighborStep(process, value), context)
    ensures Run(c, RenderBgpNeighbor(process, value, context).commands)
         == Outcome(Effect(c, BgpNeighborStep(process, value), context), true)
  {
    hide Key, Run, ConfigOk, ReportsRouters, Accepts, RenderBgpNeighbor, WithPeerLine, PeerAddress;
    BgpNeighborRuns(c, process, value, context);
    NeighborKnown(value, context, process);
    WithPeerLineIs(BlockOf(c, Key(process)), ["neighbor"] + Key(value), PeerAddress(value));
  }

  lemma {:induction false} NeighborKnown(value: string, context: ChangeContext, process: string)
    requires Accepts(BgpNeighborStep(process, value), context)
    ensures Key(value) != [] && Key(value)[0] == PeerAddress(value)
  {
    hide Key;
    NeighborWords(value);
  }

  /** The lines of a block with this line for the peer. */
  ghost function WithPeerLine(lines: set<Line>, l: Line, peer: string): set<Line> {
    (if exists o :: o in lines && IsRemoteAs(o, peer) then WithoutPeer(lines, peer) else lines) + {l}
  }

  lemma {:induction false} WithPeerLineIs(lines: set<Line>, l: Line, peer: string)
    ensures var known := exists o :: o in lines && |o| >= 3
                                     && o[0] == "neighbor" && o[1] == peer && o[2] == "remote-as";
            var others := if known then set o | o in lines && !(|o| >= 2 && o[0] == "neighbor" && o[1] == peer)
                          else lines;
            WithPeerLine(lines, l, peer) == others + {l}
  {
  }

  lemma {:induction false} BgpNeighborRuns(c: Config, process: string, value: string, context: ChangeContext)
    requires ConfigOk(c) && ReportsRouters(c, context.routingProcesses)
    requires Accepts(BgpNeighborStep(process, value), context)
    ensures Run(c, RenderBgpNeighbor(process, value, context).commands)
         == Outcome(WithLines(c, Key(process),
                              WithPeerLine(LinesOf(c, Key(process)), ["neighbor"] + Key(value),
                                           PeerAddress(value))), true)
  {
    hide Key, Run, AddLine, DropLine, Normalize, Lists, IsBgpProcess, IsBgpNeighbor, LineOk, RouterOk, IsRemoteAs;
    hide Strip, Lower, Collapse, IsWord, WithoutPeer, IsBgp;
    var name, peer, statement := Lower(Strip(process)), PeerAddress(value), NeighborStatement(value);
    var key, l := Key(name), Key(statement);
    KeyOfStrip(process);
    KeyOfLower(Strip(process));
    KeyOfNeighbor(value);
    BgpMayEnter(c, process, context.routingProcesses);
    NeighborValue(value);
    ProcessFound(c, context.routingProcesses, name);
    var existing := ProcessOf(context.routingProcesses, name);
    if existing.None? {
      FirstPeerLine(l, peer);
      PeerLine({}, l, peer);
      RunAdd(c, name, statement);
      assert LinesOf(c, key) == {};
    } else {
      var previous := existing.value.FindStatement("neighbor " + peer + " remote-as ");
      FindRemoteAs(existing.value, c.routers[key], peer);
      if previous.None? {
        PeerLine(c.routers[key], l, peer);
        RunAdd(c, name, statement);
      } else {
        DropsPeer(c.routers[key], peer);
        PeerLine(WithoutPeer(c.routers[key], peer), l, peer);
        RunDropAdd(c, name, "neighbor " + peer, statement);
      }
    }
  }

  // ---- What the device refuses, and why the commands are what they are ----

  /** A port that still negotiates its encapsulation does not become a trunk unless that is settled first. */
  lemma {:induction false} EncapsulationIsNeeded(c: Config, port: string, rest: seq<Command>)
    requires NormalizeInterfaceName(port) in c.ports
    requires c.ports[NormalizeInterfaceName(port)].encapsulation == Negotiate
    ensures Run(c, [InterfaceCmd(port), SwitchportMode("trunk")] + rest) == Outcome(c, false)
  {
    hide NormalizeInterfaceName, Run, RunFrom;
    TwoSteps(c, InterfaceCmd(port), SwitchportMode("trunk"), rest);
    assert [InterfaceCmd(port), SwitchportMode("trunk")] == [InterfaceCmd(port)] + [SwitchportMode("trunk")];
  }

  /** The second command of a batch is refused. */
  lemma {:induction false} TwoSteps(c: Config, first: Command, second: Command, rest: seq<Command>)
    requires Exec(State(c, Global), first).Some? && Exec(Exec(State(c, Global), first).value, second).None?
    ensures Run(c, [first, second] + rest) == Outcome(Exec(State(c, Global), first).value.config, false)
  {
    hide Exec;
    var cmds, next := [first, second] + rest, Exec(State(c, Global), first).value;
    assert cmds[0] == first && cmds[1..] == [second] + rest && ([second] + rest)[0] == second;
    assert RunFrom(next, [second] + rest) == Outcome(next.config, false);
  }

  /** A second remote AS for a peer is refused unless the first is withdrawn. */
  lemma {:induction false} WithdrawalIsNeeded(c: Config, process: string, peer: string, text: string,
                                              rest: seq<Command>)
    requires Key(process) in c.routers && MayEnter(c, Key(process))
    requires |Key(text)| >= 3 && Key(text)[..3] == ["neighbor", peer, "remote-as"]
    requires exists l :: l in c.routers[Key(process)] && |l| >= 3 && l[..3] == Key(text)[..3] && l != Key(text)
    ensures Run(c, [RouterCmd(process), Statement(text)] + rest) == Outcome(c, false)
  {
    hide Key, MayEnter, Run, RunFrom;
    var key, l := Key(process), Key(text);
    var o :| o in c.routers[key] && |o| >= 3 && o[..3] == l[..3] && o != l;
    assert l[0] == l[..3][0] && l[1] == l[..3][1] && l[2] == l[..3][2];
    assert o[0] == o[..3][0] && o[1] == o[..3][1] && o[2] == o[..3][2];
    EntersBlock(c, process);
    assert IsRemoteAs(l, l[1]) && IsRemoteAs(o, l[1]);
    TwoSteps(c, RouterCmd(process), Statement(text), rest);
  }

  lemma {:induction false} EntersBlock(c: Config, process: string)
    requires Key(process) in c.routers && MayEnter(c, Key(process))
    ensures Exec(State(c, Global), RouterCmd(process)) == Some(State(c, InRouter(Key(process))))
  {
    hide Key;
    assert c.(routers := c.routers) == c;
  }

  /** A second BGP process is refused. */
  lemma {:induction false} OneBgpProcess(c: Config, process: string, key: Line, rest: seq<Command>)
    requires key in c.routers && key != [] && key[0] == "bgp"
    requires Key(process) != key && Key(process) != [] && Key(process)[0] == "bgp"
    ensures Run(c, [RouterCmd(process)] + rest) == Outcome(c, false)
  {
    hide Key;
    assert ([RouterCmd(process)] + rest)[0] == RouterCmd(process);
  }
}
