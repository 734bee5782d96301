/** What validation refuses, said about the device rather than about the listing it was read from. */
module Validation {
  import opened Wrappers
  import opened Text
  import opened VlanList
  import opened Facts
  import opened Device
  import opened CiscoDriver
  import opened Shapes
  import opened RouterBlocks
  import opened RouterUndo
  import opened PortUndo

  /** Well-formed, and not a change of a router block that would do nothing or that the device would refuse; an
      access VLAN the switch knows, if it lists any; a trunk on a port whose mode can be put back. */
  ghost predicate Sensible(c: Config, step: ChangeStep) {
    match step
    case HostnameStep(name) => HostnameForm(name)
    case DomainLookupStep(value) => value == "on" || value == "off"
    case VlanNameStep(vlan, name) => VlanIdForm(vlan) && VlanNameForm(name)
    case AccessVlanStep(_, vlan) => VlanIdForm(vlan) && (c.vlans == map[] || NatValue(Strip(vlan)) in c.vlans)
    case TrunkVlansStep(port, list) =>
      var name := NormalizeInterfaceName(port);
      && ListForm(list) && name in c.ports
      && c.ports[name].mode in ["trunk", "static access", "dynamic auto", "dynamic desirable"]
    case StaticRouteStep(destination, mask, nextHop) =>
      QuadForm(destination) && QuadForm(mask) && NextHopForm(Strip(nextHop))
    case RouterNetworkStep(process, value) =>
      ProcessForm(process) && NetworkForm(process, value) && NetworkLineOf(value) !in LinesOf(c, Key(process))
    case RouterNetworkRemoveStep(process, value) =>
      ProcessForm(process) && NetworkForm(process, value) && NetworkLineOf(value) in LinesOf(c, Key(process))
    case RipVersionStep(process, value) =>
      && Lower(Strip(process)) == "rip" && (Strip(value) == "1" || Strip(value) == "2")
      && ["version", Strip(value)] !in LinesOf(c, Key("rip"))
    case BgpNeighborStep(process, value) =>
      && BgpProcessForm(process) && NeighborForm(value)
      && MayEnter(c, Key(process)) && NeighborLineOf(value) !in LinesOf(c, Key(process))
    case DescriptionStep(_, text) => DescriptionForm(text)
    case AdminStateStep(_, value) => value == "up" || value == "down"
  }

  function NetworkLineOf(value: string): Line {
    ["network"] + Key(value)
  }

  function NeighborLineOf(value: string): Line {
    ["neighbor"] + Key(value)
  }

  /** Whatever way the device prints its configuration, validation passes exactly the sensible steps. */
  lemma {:induction false} AcceptsExactlySensible(c: Config, step: ChangeStep, context: ChangeContext, carrier: bool)
    requires ConfigOk(c) && Reports(c, step, context, carrier)
    ensures Accepts(step, context) <==> Sensible(c, step)
  {
    hide ConfigOk, ReportsRouters, ReportsVlans, ReportsSwitchports, ReportsMembership, ReportsInterface, Strip;
    hide Lower, Key;
    hide IsProcess, IsNetwork, IsBgpProcess, IsBgpNeighbor, IsVlanId, IntOf, Accepted, ModeCommand, LinesOf, MayEnter;
    hide IsHostname, IsVlanName, IsQuad, IsNextHop, IsDescription, NatValue;
    hide HostnameForm, VlanNameForm, VlanIdForm, ListForm, QuadForm, NextHopForm, ProcessForm, NetworkForm;
    hide BgpProcessForm, NeighborForm, DescriptionForm;
    match step
    case HostnameStep(name) => HostnamesAreHostnames(name);
    case VlanNameStep(vlan, name) =>
      VlanIdsAreVlanIds(vlan);
      VlanNamesAreVlanNames(name);
    case AccessVlanStep(_, vlan) =>
      VlanIdsAreVlanIds(vlan);
      IdIsValue(vlan);
      VlanKnown(c, context.vlans, IntOf(vlan));
      NoVlans(c, context.vlans);
    case TrunkVlansStep(port, list) =>
      ListsAreLists(list);
      KnownPort(c, context.switchports, port);
      if NormalizeInterfaceName(port) in c.ports {
        ModesWithCommands(c.ports[NormalizeInterfaceName(port)].mode);
      }
    case StaticRouteStep(destination, mask, nextHop) =>
      QuadsAreQuads(destination);
      QuadsAreQuads(mask);
      NextHopsAreNextHops(Strip(nextHop));
    case RouterNetworkStep(process, value) =>
      ProcessesAreProcesses(process);
      NetworksAreNetworks(process, value);
      NetworkKnown(c, context.routingProcesses, process, value);
    case RouterNetworkRemoveStep(process, value) =>
      ProcessesAreProcesses(process);
      NetworksAreNetworks(process, value);
      NetworkKnown(c, context.routingProcesses, process, value);
    case RipVersionStep(_, value) =>
      if Strip(value) == "1" || Strip(value) == "2" {
        VersionKnown(c, context.routingProcesses, Strip(value));
      }
    case BgpNeighborStep(process, value) =>
      ProcessesAreProcesses(process);
      NeighborsAreNeighbors(value);
      if IsBgpProcess(process) {
        NeighborKnown(c, context.routingProcesses, process, value);
      }
    case DescriptionStep(_, text) => DescriptionsAreDescriptions(text);
    case _ =>
  }

  lemma {:induction false} IdIsValue(vlan: string)
    ensures VlanIdForm(vlan) ==> IntOf(vlan) == NatValue(Strip(vlan))
  {
    hide NatValue, Strip;
  }

  lemma {:induction false} ModesWithCommands(mode: string)
    ensures ModeCommand(mode).Some? <==> mode in ["trunk", "static access", "dynamic auto", "dynamic desirable"]
  {
  }

  lemma {:induction false} NoVlans(c: Config, vlans: seq<VlanFacts>)
    requires ReportsVlans(c, vlans)
    ensures vlans == [] <==> c.vlans == map[]
  {
    if vlans != [] {
      assert vlans[0].vlanId in c.vlans;
    }
  }

  lemma {:induction false} KnownPort(c: Config, ports: seq<SwitchportFacts>, port: string)
    requires ReportsSwitchports(c, ports)
    ensures var found := SwitchportOf(ports, port);
            && (found.Some? <==> NormalizeInterfaceName(port) in c.ports)
            && (found.Some? ==> found.value.mode == c.ports[NormalizeInterfaceName(port)].mode)
  {
    hide NormalizeInterfaceName, ReportsAllowed;
    var found := SwitchportOf(ports, port);
    if found.Some? {
      SwitchportFound(c, ports, port);
    }
    if NormalizeInterfaceName(port) in c.ports {
      var i :| 0 <= i < |ports| && NormalizeInterfaceName(ports[i].name) == NormalizeInterfaceName(port);
      assert SameInterface(ports[i].name, port);
    }
  }

  lemma {:induction false} NetworkKnown(c: Config, processes: seq<RoutingProcessFacts>, process: string, value: string)
    requires ReportsRouters(c, processes)
    ensures var existing := ProcessOf(processes, Strip(process));
            (existing.Some? && existing.value.HasStatement(NetworkStatement(value)))
            <==> NetworkLineOf(value) in LinesOf(c, Key(process))
  {
    hide Key, Strip, Normalize, Lists;
    KeyOfStrip(process);
    KeyOfNetwork(value);
    ProcessFound(c, processes, Strip(process));
    var existing := ProcessOf(processes, Strip(process));
    if existing.Some? {
      HasStatementIsIn(existing.value, c.routers[Key(process)], NetworkStatement(value));
    }
  }

  lemma {:induction false} VersionKnown(c: Config, processes: seq<RoutingProcessFacts>, v: string)
    requires ConfigOk(c) && ReportsRouters(c, processes) && (v == "1" || v == "2")
    ensures var existing := ProcessOf(processes, "rip");
            (existing.Some? && existing.value.FindStatement("version ") == Some("version " + v))
            <==> ["version", v] in LinesOf(c, Key("rip"))
  {
    hide Key, Normalize, Lists, LineOk, Join;
    ProcessFound(c, processes, "rip");
    KeyOfVersion(v);
    JoinOfTwo("version", v);
    assert "version" + " " + v == "version " + v;
    var existing := ProcessOf(processes, "rip");
    if existing.Some? {
      FindVersion(existing.value, c.routers[Key("rip")]);
    }
  }

  lemma {:induction false} NeighborKnown(c: Config, processes: seq<RoutingProcessFacts>, process: string, value: string)
    requires ConfigOk(c) && ReportsRouters(c, processes) && IsBgpProcess(process)
    ensures var running := RunningBgp(processes);
            (running.Some? ==> && Lower(running.value.name) == Lower(Strip(process))
                               && !running.value.HasStatement(NeighborStatement(value)))
            <==> MayEnter(c, Key(process)) && NeighborLineOf(value) !in LinesOf(c, Key(process))
  {
    hide Key, Strip, Lower, Normalize, Lists, IsNumber, IsBgpProcess;
    var running, key := RunningBgp(processes), Key(process);
    BgpKey(process);
    KeyOfNeighbor(value);
    if running.None? {
      NoBgp(c, processes);
    } else {
      var name := running.value.name;
      RunningIsPlain(processes);
      SameBgpName(name, process);
      BgpName(name);
      RunningLists(c, processes);
      HasStatementIsIn(running.value, c.routers[Key(name)], NeighborStatement(value));
    }
  }

  lemma {:induction false} BgpKey(process: string)
    requires IsBgpProcess(process)
    ensures IsBgp(Key(process))
  {
    hide Key;
    KeyOfStrip(process);
    KeyOfLower(Strip(process));
    NumberIsPlain(Lower(Strip(process)));
    KeyOfLower(Lower(Strip(process)));
  }

  /** bgp and a number: the words say as much as the text. */
  lemma {:induction false} NumberIsPlain(s: string)
    requires "bgp " <= s && s[4..] != "" && AllDigits(s[4..])
    ensures Key(s) == ["bgp", s[4..]]
  {
    hide Key;
    ProtocolWords();
    var d := s[4..];
    assert s == "bgp" + " " + d;
    forall i | 0 <= i < |d| ensures !IsSpace(d[i]) && !('A' <= d[i] <= 'Z') {
      assert IsDigit(d[i]);
    }
    LowerOfPlain(d);
    KeyOfWord(d);
    KeyPrefixed("bgp", d);
  }

  lemma {:induction false} SameBgpName(name: string, process: string)
    requires NamedPlainly(name) && IsBgpProcess(process)
    ensures Key(name) == Key(process) <==> Lower(name) == Lower(Strip(process))
  {
    hide Key, Strip;
    var a, b := Lower(name), Lower(Strip(process));
    KeyOfLower(name);
    KeyOfStrip(process);
    KeyOfLower(Strip(process));
    NumberIsPlain(a);
    NumberIsPlain(b);
    assert a == "bgp " + a[4..] && b == "bgp " + b[4..];
    if Key(name) == Key(process) {
      assert ["bgp", a[4..]][1] == ["bgp", b[4..]][1];
    }
  }

  lemma {:induction false} RunningIsPlain(processes: seq<RoutingProcessFacts>)
    requires RunningBgp(processes).Some?
    ensures NamedPlainly(RunningBgp(processes).value.name)
  {
    if !NamedPlainly(processes[0].name) {
      RunningIsPlain(processes[1..]);
    }
  }

  lemma {:induction false} NoBgp(c: Config, processes: seq<RoutingProcessFacts>)
    requires ReportsRouters(c, processes) && RunningBgp(processes).None?
    ensures forall k :: k in c.routers ==> !IsBgp(k)
  {
    hide Key, Lists;
    forall k | k in c.routers ensures !IsBgp(k) {
      var i :| 0 <= i < |processes| && Key(processes[i].name) == k;
      if IsBgp(k) {
        RunningExists(processes, i);
      }
    }
  }

  lemma {:induction false} RunningLists(c: Config, processes: seq<RoutingProcessFacts>)
    requires ReportsRouters(c, processes) && RunningBgp(processes).Some?
    ensures var running := RunningBgp(processes).value;
            Key(running.name) in c.routers && Lists(running.statements, c.routers[Key(running.name)])
  {
    hide Key, Lists;
    var running := RunningBgp(processes).value;
    var i :| 0 <= i < |processes| && processes[i] == running;
  }

  predicate IsRouterStep(step: ChangeStep) {
    step.RouterNetworkStep? || step.RouterNetworkRemoveStep? || step.RipVersionStep? || step.BgpNeighborStep?
  }

  /** A validated change of a router block always changes the device: one that would do nothing is refused. */
  lemma {:induction false} RouterChangesAct(c: Config, step: ChangeStep, context: ChangeContext, carrier: bool)
    requires ConfigOk(c) && Reports(c, step, context, carrier) && Accepts(step, context) && IsRouterStep(step)
    ensures RenderChange(step, context).Some?
    ensures Run(c, RenderChange(step, context).value.commands).config != c
  {
    hide ConfigOk, ReportsRouters, Strip, Lower, Key, IsProcess, IsNetwork, IsBgpProcess, IsBgpNeighbor, Run, AddLine;
    AcceptsExactlySensible(c, step, context, carrier);
    match step
    case RouterNetworkStep(process, value) =>
      PlainProcess(c, process);
      KeyOfNetwork(value);
      PlainLine(LinesOf(c, Key(process)), value);
      RunAdd(c, Strip(process), NetworkStatement(value));
    case RouterNetworkRemoveStep(process, value) =>
      PlainProcess(c, process);
      KeyOfNetwork(value);
      PlainLine(LinesOf(c, Key(process)), value);
      RunDrop(c, Strip(process), NetworkStatement(value));
    case RipVersionStep(_, value) =>
      RipChangesAct(c, Strip(value), context);
    case BgpNeighborStep(process, value) => BgpChangesAct(c, process, value, context);
  }

  lemma {:induction false} RipChangesAct(c: Config, v: string, context: ChangeContext)
    requires (v == "1" || v == "2") && ["version", v] !in LinesOf(c, Key("rip"))
    ensures Run(c, [RouterCmd("rip"), Statement("version " + v)]).config != c
  {
    hide Key, Run, AddLine, NonVersions;
    ProtocolWords();
    KeyOfWord("rip");
    KeyOfVersion(v);
    VersionLine(LinesOf(c, Key("rip")), ["version", v]);
    RunAdd(c, "rip", "version " + v);
  }

  lemma {:induction false} BgpChangesAct(c: Config, process: string, value: string, context: ChangeContext)
    requires ConfigOk(c) && ReportsRouters(c, context.routingProcesses)
    requires Accepts(BgpNeighborStep(process, value), context)
    requires NeighborLineOf(value) !in LinesOf(c, Key(process))
    ensures Run(c, RenderBgpNeighbor(process, value, context).commands).config != c
  {
    hide Key, Run, AddLine, DropLine, Normalize, Lists, IsBgpProcess, IsBgpNeighbor, LineOk, RouterOk, IsRemoteAs;
    hide Strip, Lower, Collapse, IsWord, WithoutPeer, IsBgp;
    var name, peer, statement := Lower(Strip(process)), PeerAddress(value), NeighborStatement(value);
    var key, l := Key(name), Key(statement);
    KeyOfStrip(process);
    KeyOfLower(Strip(process));
    KeyOfNeighbor(value);
    BgpMayEnter(c, process, context.routingProcesses);
    NeighborValue(value);
    ProcessFound(c, context.routingProcesses, name);
    var existing := ProcessOf(context.routingProcesses, name);
    if existing.None? {
      FirstPeerLine(l, peer);
      RunAdd(c, name, statement);
    } else {
      FindRemoteAs(existing.value, c.routers[key], peer);
      if existing.value.FindStatement("neighbor " + peer + " remote-as ").None? {
        PeerLine(c.routers[key], l, peer);
        RunAdd(c, name, statement);
      } else {
        DropsPeer(c.routers[key], peer);
        PeerLine(WithoutPeer(c.routers[key], peer), l, peer);
        RunDropAdd(c, name, "neighbor " + peer, statement);
      }
    }
  }

  /** Other changes may do nothing: naming the device what it is called already is accepted and changes nothing. */
  lemma {:induction false} SameHostnameIsAccepted(c: Config, context: ChangeContext, carrier: bool)
    requires ConfigOk(c) && IsHostname(c.hostname) && Reports(c, HostnameStep(c.hostname), context, carrier)
    ensures Accepts(HostnameStep(c.hostname), context)
    ensures Run(c, [HostnameCmd(c.hostname)]) == Outcome(c, true)
  {
    hide Strip, IsHostname;
    RunHostname(c, c.hostname);
  }
}
