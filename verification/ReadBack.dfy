/** The check after a change as a check: whatever was sent before, it passes exactly when the configuration that is read
    back has what was asked for. */
module ReadBack {
  import opened Wrappers
  import opened Text
  import opened Lines
  import opened VlanList
  import opened Facts
  import opened Device
  import opened CiscoDriver
  import opened RouterBlocks
  import opened RouterUndo
  import opened PortUndo
  import opened Rollback
  import opened PostCheck

  /** The listed routes for this prefix. */
  ghost function RoutesFor(c: Config, destination: string, mask: string): set<Line> {
    set l | l in c.routes && IsListed(l) && l[2] == destination && l[3] == mask
  }

  /** The configuration has what the step asks for. A port must be an access port to be in a VLAN for sure, and of several
      routes for a prefix all must lead to the next hop: for the other cases see below. */
  ghost predicate InPlace(c: Config, step: ChangeStep, carrier: bool) {
    match step
    case HostnameStep(name) => c.hostname == name
    case DomainLookupStep(value) => c.domainLookup == (value == "on")
    case VlanNameStep(vlan, name) => IntOf(vlan) in c.vlans && c.vlans[IntOf(vlan)] == name
    case AccessVlanStep(port, vlan) =>
      var key := NormalizeInterfaceName(port);
      && key in c.ports && c.ports[key].mode == "static access"
      && c.ports[key].accessVlan == IntOf(vlan) && IntOf(vlan) in c.vlans
    case TrunkVlansStep(port, list) =>
      var key := NormalizeInterfaceName(port);
      key in c.ports && c.ports[key].mode == "trunk" && c.ports[key].allowed == Expand(list)
    case StaticRouteStep(destination, mask, nextHop) =>
      && RoutesFor(c, destination, mask) != {}
      && forall l :: l in RoutesFor(c, destination, mask) ==> l[4] == Strip(nextHop)
    case RouterNetworkStep(process, value) =>
      Key(process) in c.routers && ["network"] + Key(value) in c.routers[Key(process)]
    case RouterNetworkRemoveStep(process, value) =>
      Key(process) in c.routers ==> ["network"] + Key(value) !in c.routers[Key(process)]
    case RipVersionStep(_, value) =>
      ["rip"] in c.routers && exists l :: l in c.routers[["rip"]] && l != [] && l[0] == "version"
                                          && Join(l) == "version " + Strip(value)
    case BgpNeighborStep(process, value) =>
      Key(process) in c.routers && ["neighbor"] + Key(value) in c.routers[Key(process)]
    case DescriptionStep(port, text) =>
      var key := NormalizeInterfaceName(port);
      key in c.ports && c.ports[key].description == Some(text)
    case AdminStateStep(port, value) =>
      var key := NormalizeInterfaceName(port);
      key in c.ports && (!c.ports[key].down && carrier <==> value == "up")
  }

  /** Whether what is read back decides: of a port that is no access port, and of routes that disagree about the next hop,
      the device may print more or less. */
  ghost predicate Decides(c: Config, step: ChangeStep) {
    match step
    case AccessVlanStep(port, _) => IsAccessPort(c, port)
    case StaticRouteStep(destination, mask, _) =>
      forall l, o :: l in RoutesFor(c, destination, mask) && o in RoutesFor(c, destination, mask) ==> l[4] == o[4]
    case _ => true
  }

  /** For every configuration and every read-back of it, whatever was sent before. */
  lemma {:induction false} CheckExactlyWhenInPlace(c: Config, step: ChangeStep, context: ChangeContext, carrier: bool)
    requires ConfigOk(c) && Reports(c, step, context, carrier) && Decides(c, step)
    ensures PostCheckOk(step, context) <==> InPlace(c, step, carrier)
  {
    hide ConfigOk, NormalizeInterfaceName, Strip, Lower, Words, Key, IntOf, Expand, RoutesFor, Join;
    hide ReportsRouters, ReportsRoutes, ReportsVlans, ReportsMembership, ReportsSwitchports;
    match step
    case HostnameStep(name) =>
    case DomainLookupStep(value) =>
    case VlanNameStep(vlan, name) => VlanNamed(c, vlan, name, context.vlans);
    case AccessVlanStep(port, vlan) => AccessVlanShown(c, port, vlan, context.vlans);
    case TrunkVlansStep(port, list) => TrunkShown(c, port, list, context.switchports);
    case StaticRouteStep(destination, mask, nextHop) => RouteShown(c, destination, mask, nextHop, context.staticRoutes);
    case RouterNetworkStep(process, value) => NetworkShown(c, process, value, context.routingProcesses);
    case RouterNetworkRemoveStep(process, value) => NetworkShown(c, process, value, context.routingProcesses);
    case RipVersionStep(_, value) => VersionShown(c, value, context.routingProcesses);
    case BgpNeighborStep(process, value) => NeighborShown(c, process, value, context.routingProcesses);
    case DescriptionStep(port, text) =>
    case AdminStateStep(port, value) =>
  }

  // ---- Type by type ----

  lemma {:induction false} VlanNamed(c: Config, vlan: string, name: string, vlans: seq<VlanFacts>)
    requires ReportsVlans(c, vlans)
    ensures (VlanOf(vlans, IntOf(vlan)).Some? && VlanOf(vlans, IntOf(vlan)).value.name == name)
       <==> IntOf(vlan) in c.vlans && c.vlans[IntOf(vlan)] == name
  {
    hide IntOf;
    var id, r := IntOf(vlan), VlanOf(vlans, IntOf(vlan));
    if r.Some? {
      var i :| 0 <= i < |vlans| && vlans[i] == r.value;
    }
  }

  lemma {:induction false} AccessVlanShown(c: Config, port: string, vlan: string, vlans: seq<VlanFacts>)
    requires ReportsVlans(c, vlans) && ReportsMembership(c, vlans) && IsAccessPort(c, port)
    ensures var facts, key := AccessVlanOf(vlans, port), NormalizeInterfaceName(port);
            (facts.Some? && facts.value.vlanId == IntOf(vlan))
            <==> c.ports[key].accessVlan == IntOf(vlan) && IntOf(vlan) in c.vlans
  {
    hide IntOf, NormalizeInterfaceName, HoldsPort;
    MembershipKnown(c, port, vlans);
  }

  lemma {:induction false} TrunkShown(c: Config, port: string, list: string, ports: seq<SwitchportFacts>)
    requires ReportsSwitchports(c, ports)
    ensures PostCheckOk(TrunkVlansStep(port, list), ChangeContext(None, [], ports, [], [], None, None))
       <==> var key := NormalizeInterfaceName(port);
            key in c.ports && c.ports[key].mode == "trunk" && c.ports[key].allowed == Expand(list)
  {
    hide NormalizeInterfaceName, ReportsAllowed, Expand;
    var key, facts := NormalizeInterfaceName(port), SwitchportOf(ports, port);
    if facts.Some? {
      var i :| 0 <= i < |ports| && ports[i] == facts.value;
      AllowedIs(facts.value.trunkAllowed, c.ports[key].allowed);
    } else if key in c.ports {
      SwitchportListed(c, ports, port);
    }
  }

  /** The first route listed for a prefix is one that is configured for it, if there is any. */
  lemma {:induction false} FirstRoute(c: Config, destination: string, mask: string, routes: seq<StaticRouteFacts>)
    requires ReportsRoutes(c, routes)
    ensures var r := StaticRouteOf(routes, destination, mask);
            && (r.None? ==> RoutesFor(c, destination, mask) == {})
            && (r.Some? ==> Words(r.value.raw) in RoutesFor(c, destination, mask)
                            && |Words(r.value.raw)| >= 5 && r.value.nextHop == Words(r.value.raw)[4])
  {
    hide Words, IsDotted, Typable;
    var r := StaticRouteOf(routes, destination, mask);
    if r.Some? {
      var i :| 0 <= i < |routes| && routes[i] == r.value;
    }
  }

  lemma {:induction false} RouteShown(c: Config, destination: string, mask: string, nextHop: string,
                                      routes: seq<StaticRouteFacts>)
    requires ReportsRoutes(c, routes)
    requires forall l, o :: l in RoutesFor(c, destination, mask) && o in RoutesFor(c, destination, mask) ==> l[4] == o[4]
    ensures var r := StaticRouteOf(routes, destination, mask);
            (r.Some? && r.value.nextHop == Strip(nextHop))
            <==> RoutesFor(c, destination, mask) != {}
                 && forall l :: l in RoutesFor(c, destination, mask) ==> l[4] == Strip(nextHop)
  {
    hide Words, IsListed, Strip, ReportsRoutes;
    FirstRoute(c, destination, mask, routes);
  }

  lemma {:induction false} NetworkShown(c: Config, process: string, value: string, processes: seq<RoutingProcessFacts>)
    requires ReportsRouters(c, processes)
    ensures var r := ProcessOf(processes, process);
            (r.Some? && r.value.HasStatement(NetworkStatement(value)))
            <==> Key(process) in c.routers && ["network"] + Key(value) in c.routers[Key(process)]
  {
    hide Key, Lists, NetworkStatement, ReportsRouters;
    var r := ProcessOf(processes, process);
    ProcessFound(c, processes, process);
    KeyOfNetwork(value);
    if r.Some? {
      HasStatementIsIn(r.value, c.routers[Key(process)], NetworkStatement(value));
    }
  }

  lemma {:induction false} NeighborShown(c: Config, process: string, value: string, processes: seq<RoutingProcessFacts>)
    requires ReportsRouters(c, processes)
    ensures var r := ProcessOf(processes, process);
            (r.Some? && r.value.HasStatement("neighbor " + Lower(Collapse(value))))
            <==> Key(process) in c.routers && ["neighbor"] + Key(value) in c.routers[Key(process)]
  {
    hide Key, Lists, Collapse, Lower, ReportsRouters;
    var r := ProcessOf(processes, process);
    ProcessFound(c, processes, process);
    KeyOfNeighbor(value);
    if r.Some? {
      HasStatementIsIn(r.value, c.routers[Key(process)], "neighbor " + Lower(Collapse(value)));
    }
  }

  lemma {:induction false} VersionShown(c: Config, value: string, processes: seq<RoutingProcessFacts>)
    requires ConfigOk(c) && ReportsRouters(c, processes)
    ensures var r := ProcessOf(processes, "rip");
            (r.Some? && r.value.FindStatement("version ") == Some("version " + Strip(value)))
            <==> ["rip"] in c.routers && exists l :: l in c.routers[["rip"]] && l != [] && l[0] == "version"
                                                     && Join(l) == "version " + Strip(value)
  {
    hide Key, Lists, Strip, Join, LineOk, ReportsRouters, RouteOk, PortOk;
    var r := ProcessOf(processes, "rip");
    KeyOfWord("rip");
    ProcessFound(c, processes, "rip");
    if r.Some? {
      var lines := c.routers[["rip"]];
      assert RouterOk(lines);
      hide ConfigOk;
      FindVersion(r.value, lines);
      var found := r.value.FindStatement("version ");
      if l :| l in lines && l != [] && l[0] == "version" && Join(l) == "version " + Strip(value) {
        assert IsVersion(l) && IsVersion(Key(found.value)) && Key(found.value) == l;
      }
    }
  }

  // ---- Where the device decides ----

  lemma {:induction false} ListedFirst(c: Config, destination: string, mask: string, first: Line)
    returns (context: ChangeContext)
    requires first in RoutesFor(c, destination, mask)
    ensures ReportsRoutes(c, context.staticRoutes)
    ensures StaticRouteOf(context.staticRoutes, destination, mask) == Some(FactsOf(first))
  {
    hide IsDotted, Words, Join, AllWords, ReportsRoutes;
    var rest := Enumerate(set l | l in c.routes && IsListed(l));
    var listed := [first] + rest;
    ListingReports(c, listed);
    var facts := seq(|listed|, i requires 0 <= i < |listed| => FactsOf(listed[i]));
    assert facts[0] == FactsOf(first);
    context := ChangeContext(None, [], [], facts, [], None, None);
  }

  /** Some listing of the routes passes if one of those for the prefix leads to the next hop; every listing passes if
      there are some and all of them do. */
  lemma {:induction false} RouteListings(c: Config, step: ChangeStep, carrier: bool)
    requires step.StaticRouteStep?
    ensures (exists context :: Reports(c, step, context, carrier) && PostCheckOk(step, context))
       <==> exists l :: l in RoutesFor(c, step.destination, step.mask) && l[4] == Strip(step.nextHop)
    ensures (forall context :: Reports(c, step, context, carrier) ==> PostCheckOk(step, context))
       <==> InPlace(c, step, carrier)
  {
    hide RoutesFor, ReportsRoutes, Strip, IsListed, FactsOf, Words;
    var routes := RoutesFor(c, step.destination, step.mask);
    RoutesAreLong(c, step.destination, step.mask);
    forall context | Reports(c, step, context, carrier)
      ensures PostCheckOk(step, context) ==> exists l :: l in routes && l[4] == Strip(step.nextHop)
      ensures InPlace(c, step, carrier) ==> PostCheckOk(step, context)
    {
      FirstRoute(c, step.destination, step.mask, context.staticRoutes);
      if PostCheckOk(step, context) {
        var l := Words(StaticRouteOf(context.staticRoutes, step.destination, step.mask).value.raw);
        assert l in routes && l[4] == Strip(step.nextHop);
      }
    }
    if l :| l in routes && l[4] == Strip(step.nextHop) {
      var context := ListedFirst(c, step.destination, step.mask, l);
      FactsHop(l);
      assert Reports(c, step, context, carrier) && PostCheckOk(step, context);
    }
    if !InPlace(c, step, carrier) {
      if routes == {} {
        var context := SomeListing(c);
        FirstRoute(c, step.destination, step.mask, context.staticRoutes);
        assert Reports(c, step, context, carrier) && !PostCheckOk(step, context);
      } else {
        var l :| l in routes && l[4] != Strip(step.nextHop);
        var context := ListedFirst(c, step.destination, step.mask, l);
        FactsHop(l);
        assert Reports(c, step, context, carrier) && !PostCheckOk(step, context);
      }
    }
  }

  lemma {:induction false} RoutesAreLong(c: Config, destination: string, mask: string)
    ensures forall l :: l in RoutesFor(c, destination, mask) ==> |l| >= 5
  {
    hide IsDotted;
  }

  lemma {:induction false} FactsHop(l: Line)
    requires |l| >= 5
    ensures FactsOf(l).nextHop == l[4]
  {
  }

  /** The access ports that go by some name, under one name each, in one VLAN. */
  lemma {:induction false} NamesIn(c: Config, keys: set<string>, id: nat) returns (names: seq<string>)
    requires keys <= c.ports.Keys
    ensures forall i :: 0 <= i < |names| ==>
              var key := NormalizeInterfaceName(names[i]);
              key in keys && c.ports[key].mode == "static access" && c.ports[key].accessVlan == id
    ensures forall name :: NormalizeInterfaceName(name) in keys
                           && c.ports[NormalizeInterfaceName(name)].mode == "static access"
                           && c.ports[NormalizeInterfaceName(name)].accessVlan == id ==>
              exists i :: 0 <= i < |names| && SameInterface(names[i], name)
    decreases |keys|
  {
    hide NormalizeInterfaceName;
    names := [];
    if keys != {} {
      var key :| key in keys;
      var rest := NamesIn(c, keys - {key}, id);
      names := rest;
      if name :| NormalizeInterfaceName(name) == key && c.ports[key].mode == "static access"
                 && c.ports[key].accessVlan == id
      {
        names := rest + [name];
        assert names[|rest|] == name;
      }
      forall name | NormalizeInterfaceName(name) in keys
                    && c.ports[NormalizeInterfaceName(name)].mode == "static access"
                    && c.ports[NormalizeInterfaceName(name)].accessVlan == id
        ensures exists i :: 0 <= i < |names| && SameInterface(names[i], name)
      {
        if NormalizeInterfaceName(name) == key {
          assert SameInterface(names[|rest|], name);
        } else {
          var i :| 0 <= i < |rest| && SameInterface(rest[i], name);
          assert names[i] == rest[i];
        }
      }
    }
  }

  /** A listing of these VLANs with the access ports, and a further port in one of them, if asked for. */
  ghost predicate IsListingOf(c: Config, ids: set<nat>, vlans: seq<VlanFacts>, port: string, at: Option<nat>) {
    && (forall i :: 0 <= i < |vlans| ==>
          && vlans[i].vlanId in ids && vlans[i].vlanId in c.vlans && vlans[i].name == c.vlans[vlans[i].vlanId]
          && (HoldsPort(vlans[i], port) <==> at == Some(vlans[i].vlanId)))
    && (forall id :: id in ids ==> exists i :: 0 <= i < |vlans| && vlans[i].vlanId == id)
    && ReportsMembership(c, vlans)
  }

  lemma {:induction false} VlansWith(c: Config, ids: set<nat>, port: string, at: Option<nat>)
    returns (vlans: seq<VlanFacts>)
    requires ids <= c.vlans.Keys && !IsAccessPort(c, port)
    ensures IsListingOf(c, ids, vlans, port, at)
    decreases |ids|
  {
    hide NormalizeInterfaceName, HoldsPort, IsAccessPort, ReportsMembership, IsListingOf;
    vlans := [];
    if ids == {} {
      NothingListed(c, port, at);
    } else {
      var id :| id in ids;
      var rest := VlansWith(c, ids - {id}, port, at);
      var names := NamesIn(c, c.ports.Keys, id);
      var v := VlanFacts(id, c.vlans[id], if at == Some(id) then names + [port] else names);
      PortsAreAccess(c);
      OneVlan(c, names, port, v, at);
      ListingGrows(c, ids, v, rest, port, at);
      vlans := [v] + rest;
    }
  }

  lemma {:induction false} NothingListed(c: Config, port: string, at: Option<nat>)
    ensures IsListingOf(c, {}, [], port, at)
  {
  }

  lemma {:induction false} ListingGrows(c: Config, ids: set<nat>, v: VlanFacts, rest: seq<VlanFacts>, port: string,
                                        at: Option<nat>)
    requires IsListingOf(c, ids - {v.vlanId}, rest, port, at)
    requires v.vlanId in ids && v.vlanId in c.vlans && v.name == c.vlans[v.vlanId]
    requires HoldsPort(v, port) <==> at == Some(v.vlanId)
    requires forall name :: IsAccessPort(c, name) ==>
               (HoldsPort(v, name) <==> v.vlanId == c.ports[NormalizeInterfaceName(name)].accessVlan)
    ensures IsListingOf(c, ids, [v] + rest, port, at)
  {
    hide NormalizeInterfaceName, HoldsPort, IsAccessPort, ReportsMembership;
    MembershipGrows(c, v, rest);
    AllListed(v, rest, ids);
  }

  lemma {:induction false} MembershipGrows(c: Config, v: VlanFacts, rest: seq<VlanFacts>)
    requires ReportsMembership(c, rest)
    requires forall name :: IsAccessPort(c, name) ==>
               (HoldsPort(v, name) <==> v.vlanId == c.ports[NormalizeInterfaceName(name)].accessVlan)
    ensures ReportsMembership(c, [v] + rest)
  {
    hide NormalizeInterfaceName, HoldsPort;
  }

  lemma {:induction false} AllListed(v: VlanFacts, rest: seq<VlanFacts>, ids: set<nat>)
    requires forall id :: id in ids - {v.vlanId} ==> exists i :: 0 <= i < |rest| && rest[i].vlanId == id
    ensures forall id :: id in ids ==> exists i :: 0 <= i < |[v] + rest| && ([v] + rest)[i].vlanId == id
  {
    forall id | id in ids ensures exists i :: 0 <= i < |[v] + rest| && ([v] + rest)[i].vlanId == id {
      if id == v.vlanId {
        assert ([v] + rest)[0] == v;
      } else {
        assert id in ids - {v.vlanId};
        var i :| 0 <= i < |rest| && rest[i].vlanId == id;
        assert ([v] + rest)[i + 1] == rest[i];
      }
    }
  }

  lemma {:induction false} PortsAreAccess(c: Config)
    ensures forall name :: IsAccessPort(c, name) <==>
              NormalizeInterfaceName(name) in c.ports && c.ports[NormalizeInterfaceName(name)].mode == "static access"
  {
    hide NormalizeInterfaceName;
  }

  lemma {:induction false} OneVlan(c: Config, names: seq<string>, port: string, v: VlanFacts, at: Option<nat>)
    requires !IsAccessPort(c, port) && v.ports == if at == Some(v.vlanId) then names + [port] else names
    requires forall i :: 0 <= i < |names| ==>
               var key := NormalizeInterfaceName(names[i]);
               key in c.ports && c.ports[key].mode == "static access" && c.ports[key].accessVlan == v.vlanId
    requires forall name :: NormalizeInterfaceName(name) in c.ports
                            && c.ports[NormalizeInterfaceName(name)].mode == "static access"
                            && c.ports[NormalizeInterfaceName(name)].accessVlan == v.vlanId ==>
               exists i :: 0 <= i < |names| && SameInterface(names[i], name)
    ensures HoldsPort(v, port) <==> at == Some(v.vlanId)
    ensures forall name :: IsAccessPort(c, name) ==>
              (HoldsPort(v, name) <==> v.vlanId == c.ports[NormalizeInterfaceName(name)].accessVlan)
  {
    hide NormalizeInterfaceName;
    if at == Some(v.vlanId) {
      assert v.ports[|names|] == port && SameInterface(v.ports[|names|], port);
    }
    forall name | IsAccessPort(c, name)
      ensures HoldsPort(v, name) <==> v.vlanId == c.ports[NormalizeInterfaceName(name)].accessVlan
    {
      if v.vlanId == c.ports[NormalizeInterfaceName(name)].accessVlan {
        var i :| 0 <= i < |names| && SameInterface(names[i], name);
        assert v.ports[i] == names[i];
      }
    }
  }

  /** A listing with this port in one VLAN or in none. */
  lemma {:induction false} ListedAt(c: Config, port: string, at: Option<nat>, carrier: bool)
    returns (context: ChangeContext)
    requires !IsAccessPort(c, port) && NormalizeInterfaceName(port) in c.ports && Typable(port)
    ensures ReportsVlans(c, context.vlans) && ReportsMembership(c, context.vlans)
    ensures ReportsInterface(c, port, context.interface, carrier)
    ensures IsListingOf(c, c.vlans.Keys, context.vlans, port, at)
  {
    hide NormalizeInterfaceName, HoldsPort, ReportsMembership, Typable;
    var p := c.ports[NormalizeInterfaceName(port)];
    var vlans := VlansWith(c, c.vlans.Keys, port, at);
    context := ChangeContext(Some(InterfaceFacts(port, p.description, Some(!p.down && carrier))), vlans, [], [], [],
                             None, None);
  }

  /** For a port that is no access port some listing fails, and some listing passes if the switch has the VLAN. */
  lemma {:induction false} AccessListings(c: Config, step: ChangeStep, carrier: bool)
    requires step.AccessVlanStep? && !IsAccessPort(c, step.port)
    requires NormalizeInterfaceName(step.port) in c.ports && Typable(step.port)
    ensures exists context :: Reports(c, step, context, carrier) && !PostCheckOk(step, context)
    ensures (exists context :: Reports(c, step, context, carrier) && PostCheckOk(step, context))
       <==> IntOf(step.vlan) in c.vlans
  {
    hide NormalizeInterfaceName, HoldsPort, IntOf, ReportsMembership, ReportsInterface, Typable, IsAccessPort;
    var id := IntOf(step.vlan);
    var without := ListedAt(c, step.port, None, carrier);
    assert Reports(c, step, without, carrier) && !PostCheckOk(step, without);
    if id in c.vlans {
      var with := ListedAt(c, step.port, Some(id), carrier);
      var i :| 0 <= i < |with.vlans| && with.vlans[i].vlanId == id;
      assert HoldsPort(with.vlans[i], step.port);
      assert Reports(c, step, with, carrier) && PostCheckOk(step, with);
    }
    forall context | Reports(c, step, context, carrier) && PostCheckOk(step, context) ensures id in c.vlans {
      var found := AccessVlanOf(context.vlans, step.port).value;
      var i :| 0 <= i < |context.vlans| && context.vlans[i] == found;
    }
  }
}
