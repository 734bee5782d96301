/** What a device reports about itself, and the look-ups a change is rendered and checked against. */
module Facts {
  import opened Wrappers
  import opened Text

  // ---- Interface names ----

  /** Long and short spellings, in the order they are tried. */
  const INTERFACE_PREFIXES: seq<(string, string)> := [
    ("twentyfivegige", "twe"), ("tengigabitethernet", "te"), ("fortygigabitethernet", "fo"), ("hundredgige", "hu"),
    ("gigabitethernet", "gi"), ("fastethernet", "fa"), ("ethernet", "et"), ("port-channel", "po")]

  function ShortForm(lowered: string, table: seq<(string, string)>): string {
    if table == [] then lowered
    else if table[0].0 <= lowered then table[0].1 + lowered[|table[0].0|..]
    else ShortForm(lowered, table[1..])
  }

  function NormalizeInterfaceName(name: string): string {
    ShortForm(Lower(Strip(name)), INTERFACE_PREFIXES)
  }

  predicate SameInterface(left: string, right: string) {
    NormalizeInterfaceName(left) == NormalizeInterfaceName(right)
  }

  // ---- Facts ----

  datatype InterfaceFacts = InterfaceFacts(name: string, description: Option<string>, adminUp: Option<bool>)

  datatype VlanFacts = VlanFacts(vlanId: nat, name: string, ports: seq<string>)

  datatype SwitchportFacts = SwitchportFacts(name: string, mode: string, trunkAllowed: Option<string>,
                                             trunkEncapsulation: Option<string>)
  {
    predicate IsTrunk() {
      mode == "trunk"
    }
  }

  datatype StaticRouteFacts = StaticRouteFacts(destination: string, mask: string, nextHop: string, raw: string)
  {
    /** The line as the device printed it, options and all. */
    function AsCommand(): string {
      if raw != "" then raw else "ip route " + destination + " " + mask + " " + nextHop
    }
  }

  datatype RoutingProcessFacts = RoutingProcessFacts(name: string, statements: seq<string>)
  {
    predicate HasStatement(statement: string) {
      exists i :: 0 <= i < |statements| && Normalize(statements[i]) == Normalize(statement)
    }

    /** The first statement with this normalised prefix, normalised. */
    function FindStatement(prefix: string): Option<string> {
      FirstWithPrefix(statements, Normalize(prefix))
    }
  }

  function FirstWithPrefix(statements: seq<string>, wanted: string): Option<string> {
    if statements == [] then None
    else if wanted <= Normalize(statements[0]) then Some(Normalize(statements[0]))
    else FirstWithPrefix(statements[1..], wanted)
  }

  datatype ChangeContext = ChangeContext(
    interface: Option<InterfaceFacts>, vlans: seq<VlanFacts>, switchports: seq<SwitchportFacts>,
    staticRoutes: seq<StaticRouteFacts>, routingProcesses: seq<RoutingProcessFacts>,
    hostname: Option<string>, domainLookup: Option<bool>)

  // ---- Look-ups: the first entry that fits ----

  predicate HoldsPort(vlan: VlanFacts, name: string) {
    exists i :: 0 <= i < |vlan.ports| && SameInterface(vlan.ports[i], name)
  }

  function AccessVlanOf(vlans: seq<VlanFacts>, name: string): (r: Option<VlanFacts>)
    ensures r.None? ==> forall i :: 0 <= i < |vlans| ==> !HoldsPort(vlans[i], name)
    ensures r.Some? ==> HoldsPort(r.value, name) && r.value in vlans
  {
    if vlans == [] then None else if HoldsPort(vlans[0], name) then Some(vlans[0]) else AccessVlanOf(vlans[1..], name)
  }

  function VlanOf(vlans: seq<VlanFacts>, id: nat): (r: Option<VlanFacts>)
    ensures r.None? ==> forall i :: 0 <= i < |vlans| ==> vlans[i].vlanId != id
    ensures r.Some? ==> r.value.vlanId == id && r.value in vlans
  {
    if vlans == [] then None else if vlans[0].vlanId == id then Some(vlans[0]) else VlanOf(vlans[1..], id)
  }

  predicate ForPrefix(route: StaticRouteFacts, destination: string, mask: string) {
    route.destination == destination && route.mask == mask
  }

  function StaticRouteOf(routes: seq<StaticRouteFacts>, destination: string,
                         mask: string): (r: Option<StaticRouteFacts>)
    ensures r.None? ==> forall i :: 0 <= i < |routes| ==> !ForPrefix(routes[i], destination, mask)
    ensures r.Some? ==> ForPrefix(r.value, destination, mask) && r.value in routes
  {
    if routes == [] then None
    else if ForPrefix(routes[0], destination, mask) then Some(routes[0])
    else StaticRouteOf(routes[1..], destination, mask)
  }

  function ProcessOf(processes: seq<RoutingProcessFacts>, name: string): (r: Option<RoutingProcessFacts>)
    ensures r.None? ==> forall i :: 0 <= i < |processes| ==> Normalize(processes[i].name) != Normalize(name)
    ensures r.Some? ==> Normalize(r.value.name) == Normalize(name) && r.value in processes
  {
    if processes == [] then None
    else if Normalize(processes[0].name) == Normalize(name) then Some(processes[0])
    else ProcessOf(processes[1..], name)
  }

  function SwitchportOf(ports: seq<SwitchportFacts>, name: string): (r: Option<SwitchportFacts>)
    ensures r.None? ==> forall i :: 0 <= i < |ports| ==> !SameInterface(ports[i].name, name)
    ensures r.Some? ==> SameInterface(r.value.name, name) && r.value in ports
  {
    if ports == [] then None
    else if SameInterface(ports[0].name, name) then Some(ports[0])
    else SwitchportOf(ports[1..], name)
  }

  lemma {:induction false} FirstWithPrefixFinds(statements: seq<string>, wanted: string)
    ensures var r := FirstWithPrefix(statements, wanted);
            && (r.None? <==> forall i :: 0 <= i < |statements| ==> !(wanted <= Normalize(statements[i])))
            && (r.Some? ==> exists i :: 0 <= i < |statements| && wanted <= r.value && r.value == Normalize(statements[i]))
  {
    if statements != [] {
      FirstWithPrefixFinds(statements[1..], wanted);
    }
  }
}
