/** Validating a change, rendering it with the commands that undo it, and checking that it took. */
module CiscoDriver {
  import opened Wrappers
  import opened Text
  import opened Lines
  import opened VlanList
  import opened Facts
  import opened Device

  /** What the operator asked for. A route's prefix is already split into destination and mask. */
  datatype ChangeStep =
    | HostnameStep(name: string)
    | DomainLookupStep(value: string)
    | VlanNameStep(vlan: string, name: string)
    | AccessVlanStep(port: string, vlan: string)
    | TrunkVlansStep(port: string, list: string)
    | StaticRouteStep(destination: string, mask: string, nextHop: string)
    | RouterNetworkStep(process: string, value: string)
    | RouterNetworkRemoveStep(process: string, value: string)
    | RipVersionStep(process: string, value: string)
    | BgpNeighborStep(process: string, value: string)
    | DescriptionStep(port: string, text: string)
    | AdminStateStep(port: string, value: string)

  datatype RenderedChange = RenderedChange(commands: seq<Command>, inverse: seq<Command>)

  /** One space between the words of a value. */
  function Collapse(value: string): string {
    Join(Words(value))
  }

  function NetworkStatement(value: string): string {
    "network " + Collapse(value)
  }

  function NeighborStatement(value: string): string {
    "neighbor " + Collapse(value)
  }

  function PeerAddress(value: string): string {
    if Words(value) == [] then "" else Lower(Words(value)[0])
  }

  // ---- Shapes ----

  function IntOf(s: string): nat {
    match ParseInt(s)
    case Some(n) => n
    case None => 0
  }

  /** A number without leading zeros, of at most so many digits, up to a bound. */
  predicate IsNumber(s: string, digits: nat, max: nat) {
    1 <= |s| <= digits && AllDigits(s) && s[0] != '0' && NatValue(s) <= max
  }

  /** A dotted address without leading zeros. */
  predicate IsAddress(s: string) {
    var parts := SplitOn(s, '.');
    |parts| == 4 && forall i :: 0 <= i < 4 ==> IsOctet(parts[i]) && (|parts[i]| > 1 ==> parts[i][0] != '0')
  }

  predicate IsOctet(s: string) {
    1 <= |s| <= 3 && AllDigits(s) && NatValue(s) <= 255
  }

  /** Four dotted octets. */
  predicate IsQuad(s: string) {
    var parts := SplitOn(s, '.');
    |parts| == 4 && forall i :: 0 <= i < 4 ==> IsOctet(parts[i])
  }

  predicate IsLetter(c: char) {
    'a' <= c <= 'z' || 'A' <= c <= 'Z'
  }

  /** A routing process as the operator names it: rip, or ospf or eigrp with an id. */
  predicate IsProcess(spec: string) {
    var s := Lower(Strip(spec));
    || s == "rip"
    || ("ospf " <= s && IsNumber(s[5..], 5, 65535))
    || ("eigrp " <= s && IsNumber(s[6..], 5, 65535))
  }

  predicate IsBgpProcess(spec: string) {
    var s := Lower(Strip(spec));
    "bgp " <= s && IsNumber(s[4..], 10, 4294967295)
  }

  /** What each protocol takes after `network`. */
  predicate IsNetwork(process: string, value: string) {
    var s, words := Lower(Strip(process)), Words(value);
    if s == "rip" then |words| == 1 && IsQuad(words[0])
    else if "eigrp " <= s then (|words| == 1 || |words| == 2) && forall i :: 0 <= i < |words| ==> IsQuad(words[i])
    else
      && |words| == 4 && IsQuad(words[0]) && IsQuad(words[1]) && words[2] == "area"
      && (IsQuad(words[3]) || (1 <= |words[3]| <= 10 && AllDigits(words[3])))
  }

  predicate IsBgpNeighbor(value: string) {
    var words := Key(value);
    |words| == 3 && IsQuad(words[0]) && words[1] == "remote-as" && IsNumber(words[2], 10, 4294967295)
  }

  /** 1 to 4094, without the ids reserved for legacy media. */
  predicate IsVlanId(s: string) {
    match ParseInt(s)
    case None => false
    case Some(id) => VLAN_ID_MIN <= id <= VLAN_ID_MAX && !(1002 <= id <= 1005)
  }

  /** A letter, then letters, digits and hyphens. The pattern's end also lets one line break through. */
  predicate IsHostname(name: string) {
    |name| <= 63 && IsBareName(if name != "" && name[|name| - 1] == '\n' then name[..|name| - 1] else name)
  }

  predicate IsBareName(body: string) {
    && body != "" && IsLetter(body[0])
    && forall i :: 0 <= i < |body| ==> IsLetter(body[i]) || IsDigit(body[i]) || body[i] == '-'
  }

  predicate IsVlanName(name: string) {
    && 1 <= |name| <= 32
    && forall i :: 0 <= i < |name| ==> IsLetter(name[i]) || IsDigit(name[i]) || name[i] == '-' || name[i] == '_'
  }

  /** An address, or the name of an exit interface. */
  predicate IsNextHop(s: string) {
    || IsAddress(s)
    || (s != "" && IsLetter(s[0]) && forall i :: 0 <= i < |s| ==>
                                       IsLetter(s[i]) || IsDigit(s[i]) || s[i] in "./:_-")
  }

  /** No control characters, and no white space but the blank. */
  predicate IsPrintable(c: char) {
    c == ' ' || (c > ' ' && !IsSpace(c) && !('\U{7f}' <= c <= '\U{9f}'))
  }

  predicate IsDescription(text: string) {
    |text| <= 240 && (forall i :: 0 <= i < |text| ==> IsPrintable(text[i])) && Strip(text) != ""
  }

  // ---- Validation ----

  /** Validation finds nothing wrong with the step on this device. */
  predicate Accepts(step: ChangeStep, context: ChangeContext) {
    match step
    case HostnameStep(name) => IsHostname(name)
    case DomainLookupStep(value) => value == "on" || value == "off"
    case VlanNameStep(vlan, name) => IsVlanId(vlan) && IsVlanName(name)
    case AccessVlanStep(_, vlan) => IsVlanId(vlan) && (context.vlans == [] || VlanOf(context.vlans, IntOf(vlan)).Some?)
    case TrunkVlansStep(port, list) =>
      var facts := SwitchportOf(context.switchports, port);
      Accepted(list) && facts.Some? && ModeCommand(facts.value.mode).Some?
    case StaticRouteStep(destination, mask, nextHop) =>
      IsQuad(destination) && IsQuad(mask) && IsNextHop(Strip(nextHop))
    case RouterNetworkStep(process, value) =>
      && IsProcess(process) && IsNetwork(process, value)
      && var existing := ProcessOf(context.routingProcesses, Strip(process));
         existing.Some? ==> !existing.value.HasStatement(NetworkStatement(value))
    case RouterNetworkRemoveStep(process, value) =>
      && IsProcess(process) && IsNetwork(process, value)
      && var existing := ProcessOf(context.routingProcesses, Strip(process));
         existing.Some? && existing.value.HasStatement(NetworkStatement(value))
    case RipVersionStep(process, value) =>
      && Lower(Strip(process)) == "rip" && (Strip(value) == "1" || Strip(value) == "2")
      && var existing := ProcessOf(context.routingProcesses, "rip");
         existing.Some? ==> existing.value.FindStatement("version ") != Some("version " + Strip(value))
    case BgpNeighborStep(process, value) =>
      && IsBgpProcess(process) && IsBgpNeighbor(value)
      && var running := RunningBgp(context.routingProcesses);
         running.Some? ==>
           && Lower(running.value.name) == Lower(Strip(process))
           && !running.value.HasStatement(NeighborStatement(value))
    case DescriptionStep(_, text) => IsDescription(text)
    case AdminStateStep(_, value) => value == "up" || value == "down"
  }

  /** The first process named bgp and a number. */
  function RunningBgp(processes: seq<RoutingProcessFacts>): (r: Option<RoutingProcessFacts>)
    ensures r.Some? ==> r.value in processes
  {
    if processes == [] then None
    else if "bgp " <= Lower(processes[0].name) && IsNumber(Lower(processes[0].name)[4..], 10, 9999999999)
    then Some(processes[0])
    else RunningBgp(processes[1..])
  }

  // ---- Rendering ----

  /** The commands and their inverse; None where the driver cannot render the step. */
  function RenderChange(step: ChangeStep, context: ChangeContext): Option<RenderedChange> {
    match step
    case HostnameStep(name) =>
      if context.hostname.None? || context.hostname.value == "" then None
      else Some(RenderedChange([HostnameCmd(name)], [HostnameCmd(context.hostname.value)]))
    case DomainLookupStep(value) =>
      if context.domainLookup.None? then None
      else Some(RenderedChange([Lookup(value == "on")], [Lookup(context.domainLookup.value)]))
    case VlanNameStep(vlan, name) =>
      var id := IntOf(vlan);
      var existing := VlanOf(context.vlans, id);
      Some(RenderedChange([VlanCmd(id), VlanNameCmd(name)],
                          if existing.Some? then [VlanCmd(id), VlanNameCmd(existing.value.name)] else [NoVlan(id)]))
    case AccessVlanStep(port, vlan) => Some(RenderAccessVlan(port, vlan, context))
    case TrunkVlansStep(port, list) => RenderTrunkVlans(port, list, context)
    case StaticRouteStep(destination, mask, nextHop) => Some(RenderStaticRoute(destination, mask, nextHop, context))
    case RouterNetworkStep(process, value) =>
      var name, statement := Strip(process), NetworkStatement(value);
      Some(RenderedChange([RouterCmd(name), Statement(statement)],
                          if ProcessOf(context.routingProcesses, name).None? then [NoRouter(name)]
                          else [RouterCmd(name), NoStatement(statement)]))
    case RouterNetworkRemoveStep(process, value) =>
      var name, statement := Strip(process), NetworkStatement(value);
      Some(RenderedChange([RouterCmd(name), NoStatement(statement)], [RouterCmd(name), Statement(statement)]))
    case RipVersionStep(_, value) => Some(RenderRipVersion(value, context))
    case BgpNeighborStep(process, value) => Some(RenderBgpNeighbor(process, value, context))
    case DescriptionStep(port, text) =>
      if context.interface.None? then None
      else
        var previous := context.interface.value.description;
        Some(RenderedChange([InterfaceCmd(port), Description(text)],
                            [InterfaceCmd(port),
                             if previous.Some? && previous.value != "" then Description(previous.value)
                             else NoDescription]))
    case AdminStateStep(port, value) =>
      if context.interface.None? then None
      else
        var wasUp := context.interface.value.adminUp == Some(true);
        Some(RenderedChange([InterfaceCmd(port), if value == "up" then NoShutdown else Shutdown],
                            [InterfaceCmd(port), if wasUp then NoShutdown else Shutdown]))
  }

  function Lookup(on: bool): Command {
    if on then DomainLookup else NoDomainLookup
  }

  function RenderAccessVlan(port: string, vlan: string, context: ChangeContext): RenderedChange {
    var previous := AccessVlanOf(context.vlans, port);
    RenderedChange([InterfaceCmd(port), SwitchportMode("static access"), SwitchportAccessVlan(IntOf(vlan))],
                   [InterfaceCmd(port),
                    if previous.Some? then SwitchportAccessVlan(previous.value.vlanId)
                    else NoSwitchportAccessVlan])
  }

  /** The default list and the empty one have no list form; both go back to the default. */
  function PreviousAllowed(port: SwitchportFacts): Command {
    var previous := Strip(if port.trunkAllowed.Some? then port.trunkAllowed.value else "");
    if previous != "" && Lower(previous) != "all" && Lower(previous) != "none" then TrunkAllowedVlans(previous)
    else NoTrunkAllowedVlans
  }

  function RenderTrunkVlans(port: string, list: string, context: ChangeContext): Option<RenderedChange> {
    match SwitchportOf(context.switchports, port)
    case None => None
    case Some(facts) =>
      if ModeCommand(facts.mode).None? then None
      else if facts.IsTrunk() then
        Some(RenderedChange([InterfaceCmd(port), TrunkAllowedVlans(Strip(list))],
                            [InterfaceCmd(port), PreviousAllowed(facts)]))
      else
        Some(RenderedChange(
          [InterfaceCmd(port)]
          + (if facts.trunkEncapsulation == Some("negotiate") then [TrunkEncapsulationDot1q] else [])
          + [SwitchportMode("trunk"), TrunkAllowedVlans(Strip(list))],
          [InterfaceCmd(port), PreviousAllowed(facts), SwitchportMode(facts.mode)]))
  }

  function AddedRoute(destination: string, mask: string, nextHop: string): string {
    "ip route " + destination + " " + mask + " " + nextHop
  }

  /** An existing route for the prefix is withdrawn by the change and put back by the rollback. */
  function RenderStaticRoute(destination: string, mask: string, nextHop: string,
                             context: ChangeContext): RenderedChange {
    var added := AddedRoute(destination, mask, nextHop);
    match StaticRouteOf(context.staticRoutes, destination, mask)
    case None => RenderedChange([IpRoute(added)], [NoIpRoute(added)])
    case Some(existing) =>
      RenderedChange([NoIpRoute(existing.AsCommand()), IpRoute(added)],
                     [NoIpRoute(added), IpRoute(existing.AsCommand())])
  }

  function RenderRipVersion(value: string, context: ChangeContext): RenderedChange {
    var commands := [RouterCmd("rip"), Statement("version " + Strip(value))];
    match ProcessOf(context.routingProcesses, "rip")
    case None => RenderedChange(commands, [NoRouter("rip")])
    case Some(existing) =>
      var previous := existing.FindStatement("version ");
      RenderedChange(commands,
                     [RouterCmd("rip"), if previous.Some? then Statement(previous.value) else NoStatement("version")])
  }

  /** A peer that already has a remote AS is withdrawn first, both ways. */
  function RenderBgpNeighbor(process: string, value: string, context: ChangeContext): RenderedChange {
    var name, peer, statement := Lower(Strip(process)), PeerAddress(value), NeighborStatement(value);
    match ProcessOf(context.routingProcesses, name)
    case None => RenderedChange([RouterCmd(name), Statement(statement)], [NoRouter(name)])
    case Some(existing) =>
      var withdraw := NoStatement("neighbor " + peer);
      match existing.FindStatement("neighbor " + peer + " remote-as ")
      case None => RenderedChange([RouterCmd(name), Statement(statement)], [RouterCmd(name), withdraw])
      case Some(previous) =>
        RenderedChange([RouterCmd(name), withdraw, Statement(statement)],
                       [RouterCmd(name), withdraw, Statement(previous)])
  }

  // ---- The check after the change ----

  /** What was read back shows the change in place. */
  predicate PostCheckOk(step: ChangeStep, context: ChangeContext) {
    match step
    case HostnameStep(name) => context.hostname == Some(name)
    case DomainLookupStep(value) => context.domainLookup == Some(value == "on")
    case VlanNameStep(vlan, name) =>
      var facts := VlanOf(context.vlans, IntOf(vlan));
      facts.Some? && facts.value.name == name
    case AccessVlanStep(port, vlan) =>
      var facts := AccessVlanOf(context.vlans, port);
      facts.Some? && facts.value.vlanId == IntOf(vlan)
    case TrunkVlansStep(port, list) =>
      var facts := SwitchportOf(context.switchports, port);
      && facts.Some? && facts.value.IsTrunk()
      && Expand(if facts.value.trunkAllowed.Some? then facts.value.trunkAllowed.value else "") == Expand(list)
    case StaticRouteStep(destination, mask, nextHop) =>
      var route := StaticRouteOf(context.staticRoutes, destination, mask);
      route.Some? && route.value.nextHop == Strip(nextHop)
    case RouterNetworkStep(process, value) =>
      var running := ProcessOf(context.routingProcesses, process);
      running.Some? && running.value.HasStatement(NetworkStatement(value))
    case RouterNetworkRemoveStep(process, value) =>
      var running := ProcessOf(context.routingProcesses, process);
      running.None? || !running.value.HasStatement(NetworkStatement(value))
    case RipVersionStep(_, value) =>
      var rip := ProcessOf(context.routingProcesses, "rip");
      rip.Some? && rip.value.FindStatement("version ") == Some("version " + Strip(value))
    case BgpNeighborStep(process, value) =>
      var bgp := ProcessOf(context.routingProcesses, process);
      bgp.Some? && bgp.value.HasStatement("neighbor " + Lower(Collapse(value)))
    case DescriptionStep(_, text) =>
      context.interface.Some? && context.interface.value.description == Some(text)
    case AdminStateStep(_, value) =>
      context.interface.Some? && context.interface.value.adminUp == Some(value == "up")
  }

  // ---- What a read-back says about a configuration ----

  /** The statements are these lines, in any order, with any spacing. */
  ghost predicate Lists(statements: seq<string>, lines: set<Line>) {
    && (forall i :: 0 <= i < |statements| ==> Key(statements[i]) in lines)
    && (forall l :: l in lines ==> exists i :: 0 <= i < |statements| && Key(statements[i]) == l)
  }

  ghost predicate ReportsRouters(c: Config, processes: seq<RoutingProcessFacts>) {
    && (forall i :: 0 <= i < |processes| ==>
          Key(processes[i].name) in c.routers && Lists(processes[i].statements, c.routers[Key(processes[i].name)]))
    && (forall key :: key in c.routers ==> exists i :: 0 <= i < |processes| && Key(processes[i].name) == key)
    && (forall i :: 0 <= i < |processes| && IsBgp(Key(processes[i].name)) ==> NamedPlainly(processes[i].name))
  }

  /** The device prints a BGP process as bgp and its number. */
  predicate NamedPlainly(name: string) {
    "bgp " <= Lower(name) && IsNumber(Lower(name)[4..], 10, 9999999999)
  }

  /** Four dotted numbers of up to three digits. */
  predicate IsDotted(s: string) {
    var parts := SplitOn(s, '.');
    |parts| == 4 && forall i :: 0 <= i < 4 ==> 1 <= |parts[i]| <= 3 && AllDigits(parts[i])
  }

  /** The routes that are read: those of a vrf, say, are not. */
  predicate IsListed(l: Line) {
    RouteOk(l) && IsDotted(l[2]) && IsDotted(l[3])
  }

  ghost predicate ReportsRoutes(c: Config, routes: seq<StaticRouteFacts>) {
    && (forall i :: 0 <= i < |routes| ==>
          var l := Words(routes[i].raw);
          && l in c.routes && IsListed(l) && Typable(routes[i].raw)
          && routes[i].destination == l[2] && routes[i].mask == l[3] && routes[i].nextHop == l[4])
    && (forall l :: l in c.routes && IsListed(l) ==> exists i :: 0 <= i < |routes| && Words(routes[i].raw) == l)
  }

  lemma {:induction false} RouteListed(c: Config, routes: seq<StaticRouteFacts>, existing: StaticRouteFacts)
    requires ReportsRoutes(c, routes) && existing in routes
    ensures existing.AsCommand() == existing.raw && Words(existing.raw) in c.routes
    ensures IsListed(Words(existing.raw)) && Typable(existing.raw)
  {
    hide IsDotted, Typable;
    var i :| 0 <= i < |routes| && routes[i] == existing;
    assert Words(routes[i].raw) in c.routes && |Words(routes[i].raw)| >= 5;
    assert Words("") == [];
  }

  ghost predicate ReportsVlans(c: Config, vlans: seq<VlanFacts>) {
    && (forall i :: 0 <= i < |vlans| ==> vlans[i].vlanId in c.vlans && vlans[i].name == c.vlans[vlans[i].vlanId])
    && (forall id :: id in c.vlans ==> exists i :: 0 <= i < |vlans| && vlans[i].vlanId == id)
  }

  predicate IsAccessPort(c: Config, name: string) {
    NormalizeInterfaceName(name) in c.ports && c.ports[NormalizeInterfaceName(name)].mode == "static access"
  }

  /** An access port is listed under the VLAN it is in, if the switch has that VLAN, and under no other. */
  ghost predicate ReportsMembership(c: Config, vlans: seq<VlanFacts>) {
    forall name, i :: 0 <= i < |vlans| && IsAccessPort(c, name) ==>
      (HoldsPort(vlans[i], name) <==> vlans[i].vlanId == c.ports[NormalizeInterfaceName(name)].accessVlan)
  }

  /** A list that names exactly the allowed ids, in any order and any ranges; no ids at all are NONE. */
  predicate ReportsAllowed(text: Option<string>, allowed: set<int>) {
    && (text.Some? ==> Typable(text.value))
    && Expand(if text.Some? then text.value else "") == allowed
    && (allowed == {} ==> text.None? || Lower(Strip(text.value)) == "none")
  }

  ghost predicate ReportsSwitchports(c: Config, ports: seq<SwitchportFacts>) {
    && (forall i :: 0 <= i < |ports| ==>
          && NormalizeInterfaceName(ports[i].name) in c.ports
          && var p := c.ports[NormalizeInterfaceName(ports[i].name)];
             && ports[i].mode == p.mode && ReportsAllowed(ports[i].trunkAllowed, p.allowed)
             && ports[i].trunkEncapsulation == Some(if p.encapsulation == Negotiate then "negotiate" else "dot1q"))
    && (forall name :: name in c.ports ==> exists i :: 0 <= i < |ports| && NormalizeInterfaceName(ports[i].name) == name)
  }

  /** The port as it is listed. It is reported up only when it is not shut down and its line is up. */
  ghost predicate ReportsInterface(c: Config, port: string, facts: Option<InterfaceFacts>, carrier: bool) {
    && facts.Some? && facts.value.name == port && Typable(port) && NormalizeInterfaceName(port) in c.ports
    && var p := c.ports[NormalizeInterfaceName(port)];
       facts.value.description == p.description && facts.value.adminUp == Some(!p.down && carrier)
  }

  /** The context of a step: what the change of that type reads, and nothing about the rest. */
  ghost predicate Reports(c: Config, step: ChangeStep, context: ChangeContext, carrier: bool) {
    match step
    case HostnameStep(_) => context.hostname == Some(c.hostname)
    case DomainLookupStep(_) => context.domainLookup == Some(c.domainLookup)
    case VlanNameStep(_, _) => ReportsVlans(c, context.vlans)
    case AccessVlanStep(port, _) =>
      && ReportsVlans(c, context.vlans) && ReportsMembership(c, context.vlans)
      && ReportsInterface(c, port, context.interface, carrier)
    case TrunkVlansStep(port, _) =>
      ReportsSwitchports(c, context.switchports) && ReportsInterface(c, port, context.interface, carrier)
    case StaticRouteStep(_, _, _) => ReportsRoutes(c, context.staticRoutes)
    case RouterNetworkStep(_, _) => ReportsRouters(c, context.routingProcesses)
    case RouterNetworkRemoveStep(_, _) => ReportsRouters(c, context.routingProcesses)
    case RipVersionStep(_, _) => ReportsRouters(c, context.routingProcesses)
    case BgpNeighborStep(_, _) => ReportsRouters(c, context.routingProcesses)
    case DescriptionStep(port, _) => ReportsInterface(c, port, context.interface, carrier)
    case AdminStateStep(port, _) => ReportsInterface(c, port, context.interface, carrier)
  }
}
