/** The check after a change: whatever way the device prints its configuration back, the check passes exactly
    when the change it looks for is there. */
module PostCheck {
  import opened Wrappers
  import opened Text
  import opened Lines
  import opened VlanList
  import opened Facts
  import opened Device
  import opened CommandLine
  import opened CiscoDriver
  import opened StoredText
  import opened RouteLines
  import opened ChangeLines
  import opened RouterBlocks
  import opened RouterUndo
  import opened PortUndo
  import opened Rollback

  /** The other configured routes for the prefix all go to the same next hop. */
  ghost predicate RouteIsPlain(c: Config, destination: string, mask: string, nextHop: string, context: ChangeContext) {
    forall l :: l in c.routes && RouteOk(l) && l[2] == destination && l[3] == mask ==>
      Replaced(l, destination, mask, context) || l[4] == Strip(nextHop)
  }

  predicate Replaced(l: Line, destination: string, mask: string, context: ChangeContext) {
    var existing := StaticRouteOf(context.staticRoutes, destination, mask);
    existing.Some? && Words(existing.value.raw) == l
  }

  /** When the check passes: always, but
      - a host name or description must be typed without white space around it, since it is stored without;
      - an access VLAN must exist on the switch;
      - a port brought up must get its line up by the time it is read back;
      - a static route must be typed cleanly, and must not have alternatives to other next hops. */
  ghost predicate Confirmable(c: Config, step: ChangeStep, before: ChangeContext, carrier: bool) {
    match step
    case HostnameStep(name) => Strip(name) == name
    case DescriptionStep(_, text) => Strip(text) == text
    case AccessVlanStep(_, vlan) => IntOf(vlan) in c.vlans
    case AdminStateStep(_, value) => value == "down" || carrier
    case StaticRouteStep(destination, mask, nextHop) =>
      Clean(nextHop) && RouteIsPlain(c, destination, mask, nextHop, before)
    case _ => true
  }

  /** All of the lines are accepted exactly if the change was typed cleanly. */
  lemma {:induction false} PushCompletes(c: Config, step: ChangeStep, context: ChangeContext, carrier: bool)
    requires ConfigOk(c) && Reports(c, step, context, carrier) && Accepts(step, context)
    requires RenderChange(step, context).Some?
    ensures var r := RenderChange(step, context).value;
            && (RunLines(c, Sent(r.commands)).completed <==> TypedCleanly(step))
            && (TypedCleanly(step) ==> RunLines(c, Sent(r.commands)) == Run(c, r.commands))
  {
    hide ConfigOk, Reports, Accepts, RenderChange, Restorable, Sent, RunLines, Run, SentClean, TypedCleanly;
    var r := RenderChange(step, context).value;
    RollbackExactlyWhen(c, step, context, carrier);
    ChangeIsSent(c, step, context, carrier);
    if TypedCleanly(step) {
      SentAsCommands(c, r);
      var lines := Sent(r.commands);
      assert lines[..|lines|] == lines;
      assert PutsBack(c, lines, Sent(r.inverse)) ==> PutsBackFrom(c, lines, Sent(r.inverse), |lines|);
    }
  }

  /** One read-back: only for a static route with alternatives does the check depend on how the device prints it. */
  lemma {:induction false} PostCheckDecides(c: Config, step: ChangeStep, before: ChangeContext, after: ChangeContext,
                                            carrier0: bool, carrier1: bool)
    requires ConfigOk(c) && Reports(c, step, before, carrier0) && Accepts(step, before)
    requires RenderChange(step, before).Some?
    requires var pushed := RunLines(c, Sent(RenderChange(step, before).value.commands));
             pushed.completed && Reports(pushed.config, step, after, carrier1)
    ensures Confirmable(c, step, before, carrier1) ==> PostCheckOk(step, after)
    ensures !step.StaticRouteStep? && !Confirmable(c, step, before, carrier1) ==> !PostCheckOk(step, after)
  {
    hide ConfigOk, Reports, Accepts, RenderChange, Confirmable, PostCheckOk, Sent, RunLines, Run, TypedCleanly;
    PushCompletes(c, step, before, carrier0);
    RenderedPostCheck(c, step, before, after, carrier0, carrier1);
  }

  /** A static route can be confirmed exactly if all of its lines are accepted and every listing the device may print
      afterwards passes the check. */
  lemma {:induction false} RouteConfirmedExactly(c: Config, step: ChangeStep, before: ChangeContext, carrier0: bool,
                                                 carrier1: bool)
    requires ConfigOk(c) && Reports(c, step, before, carrier0) && Accepts(step, before) && step.StaticRouteStep?
    ensures RenderChange(step, before).Some?
    ensures var pushed := RunLines(c, Sent(RenderChange(step, before).value.commands));
            Confirmable(c, step, before, carrier1) <==>
              && pushed.completed
              && forall after :: Reports(pushed.config, step, after, carrier1) ==> PostCheckOk(step, after)
  {
    hide ConfigOk, Accepts, Sent, RunLines, Run, Clean, RenderStaticRoute, ReportsRoutes, PostCheckOk, RouteIsPlain;
    PushCompletes(c, step, before, carrier0);
    var pushed := RunLines(c, Sent(RenderChange(step, before).value.commands));
    if Confirmable(c, step, before, carrier1) {
      forall after | Reports(pushed.config, step, after, carrier1) ensures PostCheckOk(step, after) {
        PostCheckDecides(c, step, before, after, carrier0, carrier1);
      }
    } else if pushed.completed {
      var after := SomeListingFails(c, step.destination, step.mask, step.nextHop, before);
      assert Reports(pushed.config, step, after, carrier1);
    }
  }

  /** For every configuration, validated change and read-back after all of its lines were accepted. The change can be
      confirmed exactly if the check passes whatever way the device prints the configuration, and then also for the
      read-back at hand; if it cannot, this read-back fails too, unless it is of a static route with alternatives, for
      which that depends on the order they are printed in. */
  lemma {:induction false} PostCheckExactly(c: Config, step: ChangeStep, before: ChangeContext, after: ChangeContext,
                                            carrier0: bool, carrier1: bool)
    requires ConfigOk(c) && Reports(c, step, before, carrier0) && Accepts(step, before)
    requires RenderChange(step, before).Some?
    requires var pushed := RunLines(c, Sent(RenderChange(step, before).value.commands));
             pushed.completed && Reports(pushed.config, step, after, carrier1)
    ensures Confirmable(c, step, before, carrier1) ==> PostCheckOk(step, after)
    ensures !step.StaticRouteStep? && !Confirmable(c, step, before, carrier1) ==> !PostCheckOk(step, after)
    ensures var pushed := RunLines(c, Sent(RenderChange(step, before).value.commands));
            Confirmable(c, step, before, carrier1) <==>
              forall shown :: Reports(pushed.config, step, shown, carrier1) ==> PostCheckOk(step, shown)
  {
    hide ConfigOk, Reports, Accepts, RenderChange, Confirmable, PostCheckOk, Sent, RunLines;
    var pushed := RunLines(c, Sent(RenderChange(step, before).value.commands));
    forall shown | Reports(pushed.config, step, shown, carrier1)
      ensures Confirmable(c, step, before, carrier1) ==> PostCheckOk(step, shown)
      ensures !step.StaticRouteStep? && !Confirmable(c, step, before, carrier1) ==> !PostCheckOk(step, shown)
    {
      PostCheckDecides(c, step, before, shown, carrier0, carrier1);
    }
    if step.StaticRouteStep? {
      RouteConfirmedExactly(c, step, before, carrier0, carrier1);
    }
  }

  lemma {:induction false} SomeListingFails(c: Config, destination: string, mask: string, nextHop: string,
                                            before: ChangeContext) returns (after: ChangeContext)
    requires ConfigOk(c) && ReportsRoutes(c, before.staticRoutes)
    requires Accepts(StaticRouteStep(destination, mask, nextHop), before)
    requires !RouteIsPlain(c, destination, mask, nextHop, before)
    ensures ReportsRoutes(Run(c, RenderStaticRoute(destination, mask, nextHop, before).commands).config, after.staticRoutes)
    ensures !PostCheckOk(StaticRouteStep(destination, mask, nextHop), after)
  {
    hide ConfigOk, Accepts, Run, Strip, Replaced, RenderStaticRoute, ReportsRoutes, PostCheckOk;
    var l :| l in c.routes && RouteOk(l) && l[2] == destination && l[3] == mask
             && !Replaced(l, destination, mask, before) && l[4] != Strip(nextHop);
    after := AlternativesCanFail(c, destination, mask, nextHop, before, l);
  }

  /** The same of the rendered commands. */
  lemma {:induction false} RenderedPostCheck(c: Config, step: ChangeStep, before: ChangeContext, after: ChangeContext,
                                             carrier0: bool, carrier1: bool)
    requires ConfigOk(c) && Reports(c, step, before, carrier0) && Accepts(step, before)
    requires RenderChange(step, before).Some?
    requires Reports(Run(c, RenderChange(step, before).value.commands).config, step, after, carrier1)
    ensures Confirmable(c, step, before, carrier1) ==> PostCheckOk(step, after)
    ensures !step.StaticRouteStep? && !Confirmable(c, step, before, carrier1) ==> !PostCheckOk(step, after)
  {
    hide ConfigOk, NormalizeInterfaceName, Strip, Lower, Words, Key, IsProcess, IsNetwork, Accepted, Run, IntOf;
    hide IsVlanId, IsVlanName, IsNextHop, IsQuad, IsBgpProcess, IsBgpNeighbor, IsDescription, IsHostname;
    hide ReportsRouters, ReportsRoutes, ReportsVlans, ReportsMembership, ReportsSwitchports, ReportsInterface;
    hide RouteIsPlain, Expand;
    match step
    case HostnameStep(name) => RunHostname(c, name);
    case DomainLookupStep(value) => RunLookup(c, value == "on");
    case VlanNameStep(vlan, name) => VlanNameConfirms(c, vlan, name, after.vlans);
    case AccessVlanStep(port, vlan) => AccessVlanConfirms(c, port, vlan, before, after, carrier0);
    case TrunkVlansStep(port, list) => TrunkVlansConfirms(c, port, list, before, after);
    case StaticRouteStep(destination, mask, nextHop) =>
      if RouteIsPlain(c, destination, mask, nextHop, before) {
        StaticRouteConfirms(c, destination, mask, nextHop, before, after);
      }
    case RouterNetworkStep(process, value) => RouterNetworkConfirms(c, process, value, before, after);
    case RouterNetworkRemoveStep(process, value) => RouterNetworkRemoveConfirms(c, process, value, before, after);
    case RipVersionStep(process, value) => RipVersionConfirms(c, process, value, before, after);
    case BgpNeighborStep(process, value) => BgpNeighborConfirms(c, process, value, before, after);
    case DescriptionStep(port, text) => DescriptionConfirms(c, port, text, before, after, carrier0, carrier1);
    case AdminStateStep(port, value) => AdminStateConfirms(c, port, value, before, after, carrier0, carrier1);
  }

  // ---- VLANs and ports ----

  lemma {:induction false} VlanNameConfirms(c: Config, vlan: string, name: string, vlans: seq<VlanFacts>)
    requires IsVlanName(name)
    requires ReportsVlans(Run(c, [VlanCmd(IntOf(vlan)), VlanNameCmd(name)]).config, vlans)
    ensures VlanOf(vlans, IntOf(vlan)).Some? && VlanOf(vlans, IntOf(vlan)).value.name == name
  {
    hide Run, Strip, IntOf;
    var id := IntOf(vlan);
    RunVlan(c, id, name);
    NameIsSolid(name);
    VlanKnown(c.(vlans := c.vlans[id := Strip(name)]), vlans, id);
  }

  lemma {:induction false} NameIsSolid(name: string)
    requires IsVlanName(name)
    ensures Strip(name) == name
  {
    assert !IsSpace(name[0]) && !IsSpace(name[|name| - 1]);
    StripOfSolid(name);
  }

  lemma {:induction false} AccessVlanConfirms(c: Config, port: string, vlan: string, before: ChangeContext,
                                              after: ChangeContext, carrier: bool)
    requires ReportsInterface(c, port, before.interface, carrier)
    requires var done := Run(c, RenderAccessVlan(port, vlan, before).commands).config;
             ReportsVlans(done, after.vlans) && ReportsMembership(done, after.vlans)
    ensures PostCheckOk(AccessVlanStep(port, vlan), after) <==> IntOf(vlan) in c.vlans
  {
    hide Run, NormalizeInterfaceName, IntOf, HoldsPort;
    var name, id := NormalizeInterfaceName(port), IntOf(vlan);
    var p := c.ports[name];
    var does := [SwitchportMode("static access"), SwitchportAccessVlan(id)];
    AccessCommands(p, id, NoSwitchportAccessVlan);
    assert [InterfaceCmd(port)] + does == [InterfaceCmd(port), SwitchportMode("static access"), SwitchportAccessVlan(id)];
    RunPort(c, port, does);
    MembershipKnown(WithPort(c, name, p.(mode := "static access", accessVlan := id)), port, after.vlans);
  }

  lemma {:induction false} DescriptionConfirms(c: Config, port: string, text: string, before: ChangeContext,
                                               after: ChangeContext, carrier0: bool, carrier1: bool)
    requires ReportsInterface(c, port, before.interface, carrier0)
    requires ReportsInterface(Run(c, [InterfaceCmd(port), Description(text)]).config, port, after.interface, carrier1)
    ensures PostCheckOk(DescriptionStep(port, text), after) <==> Strip(text) == text
  {
    hide Run, NormalizeInterfaceName, Strip;
    var p := c.ports[NormalizeInterfaceName(port)];
    assert [InterfaceCmd(port)] + [Description(text)] == [InterfaceCmd(port), Description(text)];
    RunTwo(p, Description(text), Description(text));
    RunPort(c, port, [Description(text)]);
  }

  lemma {:induction false} AdminStateConfirms(c: Config, port: string, value: string, before: ChangeContext,
                                              after: ChangeContext, carrier0: bool, carrier1: bool)
    requires ReportsInterface(c, port, before.interface, carrier0) && (value == "up" || value == "down")
    requires var does := if value == "up" then NoShutdown else Shutdown;
             ReportsInterface(Run(c, [InterfaceCmd(port), does]).config, port, after.interface, carrier1)
    ensures PostCheckOk(AdminStateStep(port, value), after) <==> value == "down" || carrier1
  {
    hide Run, NormalizeInterfaceName;
    var does := if value == "up" then NoShutdown else Shutdown;
    var p := c.ports[NormalizeInterfaceName(port)];
    assert [InterfaceCmd(port)] + [does] == [InterfaceCmd(port), does];
    RunTwo(p, does, does);
    RunPort(c, port, [does]);
  }

  lemma {:induction false} TrunkVlansConfirms(c: Config, port: string, list: string, before: ChangeContext,
                                              after: ChangeContext)
    requires ConfigOk(c) && Accepts(TrunkVlansStep(port, list), before) && ReportsSwitchports(c, before.switchports)
    requires RenderChange(TrunkVlansStep(port, list), before).Some?
    requires ReportsSwitchports(Run(c, RenderChange(TrunkVlansStep(port, list), before).value.commands).config,
                                after.switchports)
    ensures PostCheckOk(TrunkVlansStep(port, list), after)
  {
    hide Run, NormalizeInterfaceName, Strip, Expand, ReportsAllowed, ExecPort, ModeCommand, RenderChange;
    hide PreviousAllowed;
    hide ReportsSwitchports, Accepted, PortRun;
    var name, facts := NormalizeInterfaceName(port), SwitchportOf(before.switchports, port).value;
    SwitchportFound(c, before.switchports, port);
    var p, assign := c.ports[name], TrunkAllowedVlans(Strip(list));
    assert PortOk(p);
    TrunkRendering(port, list, before, facts);
    TrunkCommands(p, p.mode, Strip(list));
    var q;
    if p.mode == "trunk" {
      q := p.(allowed := Expand(Strip(list)));
      assert [InterfaceCmd(port)] + [assign] == [InterfaceCmd(port), assign];
      RunTwo(p, assign, assign);
      RunPort(c, port, [assign]);
    } else if p.encapsulation == Negotiate {
      q := p.(encapsulation := Dot1q, mode := "trunk", allowed := Expand(Strip(list)));
      TrunkCommands(p.(encapsulation := Dot1q), p.mode, Strip(list));
      TrunkCommands(p.(encapsulation := Dot1q, mode := "trunk"), p.mode, Strip(list));
      RunThree(p, TrunkEncapsulationDot1q, SwitchportMode("trunk"), assign);
      RunTwo(p.(encapsulation := Dot1q), SwitchportMode("trunk"), assign);
      RunPort(c, port, [TrunkEncapsulationDot1q, SwitchportMode("trunk"), assign]);
    } else {
      q := p.(mode := "trunk", allowed := Expand(Strip(list)));
      TrunkCommands(p.(mode := "trunk"), p.mode, Strip(list));
      RunTwo(p, SwitchportMode("trunk"), assign);
      RunPort(c, port, [SwitchportMode("trunk"), assign]);
    }
    SwitchportListed(WithPort(c, name, q), after.switchports, port);
    SwitchportFound(WithPort(c, name, q), after.switchports, port);
    AllowedIs(SwitchportOf(after.switchports, port).value.trunkAllowed, q.allowed);
    ExpandOfStrip(list);
  }

  lemma {:induction false} AllowedIs(text: Option<string>, allowed: set<int>)
    requires ReportsAllowed(text, allowed)
    ensures Expand(if text.Some? then text.value else "") == allowed
  {
  }

  lemma {:induction false} SwitchportListed(c: Config, ports: seq<SwitchportFacts>, port: string)
    requires ReportsSwitchports(c, ports) && NormalizeInterfaceName(port) in c.ports
    ensures SwitchportOf(ports, port).Some?
  {
    hide NormalizeInterfaceName, ReportsAllowed;
    var i :| 0 <= i < |ports| && NormalizeInterfaceName(ports[i].name) == NormalizeInterfaceName(port);
    assert SameInterface(ports[i].name, port);
  }

  // ---- Static routes ----

  function RoutesAfter(c: Config, destination: string, mask: string, nextHop: string,
                       before: ChangeContext): set<Line> {
    var existing := StaticRouteOf(before.staticRoutes, destination, mask);
    (if existing.Some? then c.routes - {Words(existing.value.AsCommand())} else c.routes)
    + {Words(AddedRoute(destination, mask, nextHop))}
  }

  lemma {:induction false} StaticRouteRuns(c: Config, destination: string, mask: string, nextHop: string,
                                           before: ChangeContext)
    ensures Run(c, RenderStaticRoute(destination, mask, nextHop, before).commands).config
         == WithRoutes(c, RoutesAfter(c, destination, mask, nextHop, before))
  {
    hide Run, Words, AddedRoute;
    var added, existing := AddedRoute(destination, mask, nextHop), StaticRouteOf(before.staticRoutes, destination, mask);
    RunRoute(c, added);
    if existing.Some? {
      RunRouteSwap(c, existing.value.AsCommand(), added);
    }
  }

  lemma {:induction false} StaticRouteConfirms(c: Config, destination: string, mask: string, nextHop: string,
                                               before: ChangeContext, after: ChangeContext)
    requires Accepts(StaticRouteStep(destination, mask, nextHop), before) && ReportsRoutes(c, before.staticRoutes)
    requires RouteIsPlain(c, destination, mask, nextHop, before)
    requires ReportsRoutes(Run(c, RenderStaticRoute(destination, mask, nextHop, before).commands).config, after.staticRoutes)
    ensures PostCheckOk(StaticRouteStep(destination, mask, nextHop), after)
  {
    hide Run, Words, AddedRoute, IsQuad, IsNextHop, Strip, IsDotted, Typable, AllWords;
    var a := Words(AddedRoute(destination, mask, nextHop));
    StaticRouteRuns(c, destination, mask, nextHop, before);
    AddedRouteWords(destination, mask, nextHop);
    AddedIsListed(destination, mask, nextHop);
    var existing := StaticRouteOf(before.staticRoutes, destination, mask);
    if existing.Some? {
      RouteListed(c, before.staticRoutes, existing.value);
    }
    var i :| 0 <= i < |after.staticRoutes| && Words(after.staticRoutes[i].raw) == a;
    assert ForPrefix(after.staticRoutes[i], destination, mask);
    var found := StaticRouteOf(after.staticRoutes, destination, mask).value;
    var j :| 0 <= j < |after.staticRoutes| && after.staticRoutes[j] == found;
    var l := Words(found.raw);
    if l != a {
      assert l in c.routes && !Replaced(l, destination, mask, before);
    }
  }

  lemma {:induction false} AddedIsListed(destination: string, mask: string, nextHop: string)
    requires IsQuad(destination) && IsQuad(mask) && IsNextHop(Strip(nextHop))
    ensures IsListed(Words(AddedRoute(destination, mask, nextHop)))
  {
    hide NatValue, Words, Strip, IsNextHop, AddedRoute;
    AddedRouteWords(destination, mask, nextHop);
    WordsAreWords(AddedRoute(destination, mask, nextHop));
    QuadIsDotted(destination);
    QuadIsDotted(mask);
  }

  lemma {:induction false} QuadIsDotted(s: string)
    requires IsQuad(s)
    ensures IsDotted(s)
  {
    hide NatValue;
    var parts := SplitOn(s, '.');
    forall i | 0 <= i < 4 ensures 1 <= |parts[i]| <= 3 && AllDigits(parts[i]) {
      assert IsOctet(parts[i]);
    }
  }

  // ---- Static routes with alternatives ----

  function FactsOf(l: Line): StaticRouteFacts
    requires |l| >= 5
  {
    StaticRouteFacts(l[2], l[3], l[4], Join(l))
  }

  lemma {:induction false} Enumerate(lines: set<Line>) returns (s: seq<Line>)
    ensures forall l :: l in s <==> l in lines
    decreases |lines|
  {
    if lines == {} {
      s := [];
    } else {
      var l :| l in lines;
      var rest := Enumerate(lines - {l});
      s := [l] + rest;
    }
  }

  lemma {:induction false} ListingReports(c: Config, listed: seq<Line>)
    requires forall l :: l in listed <==> l in c.routes && IsListed(l)
    ensures forall i :: 0 <= i < |listed| ==> |listed[i]| >= 5
    ensures ReportsRoutes(c, seq(|listed|, i requires 0 <= i < |listed| => FactsOf(listed[i])))
  {
    hide Words, Join, IsDotted, Typable, AllWords;
    forall i | 0 <= i < |listed|
      ensures IsListed(listed[i]) && Words(Join(listed[i])) == listed[i] && Typable(Join(listed[i]))
    {
      assert listed[i] in listed;
      WordsOfJoin(listed[i]);
      JoinIsTypable(listed[i]);
    }
    var facts := seq(|listed|, i requires 0 <= i < |listed| => FactsOf(listed[i]));
    forall l | l in c.routes && IsListed(l) ensures exists i :: 0 <= i < |facts| && Words(facts[i].raw) == l {
      var i :| 0 <= i < |listed| && listed[i] == l;
      assert Words(facts[i].raw) == l;
    }
  }

  /** Every configuration can be listed. */
  lemma {:induction false} SomeListing(c: Config) returns (listing: ChangeContext)
    ensures ReportsRoutes(c, listing.staticRoutes)
  {
    hide IsListed, ReportsRoutes;
    var listed := Enumerate(set l | l in c.routes && IsListed(l));
    ListingReports(c, listed);
    listing := ChangeContext(None, [], [], seq(|listed|, i requires 0 <= i < |listed| => FactsOf(listed[i])), [], None, None);
  }

  /** If an alternative to another next hop stays configured, a device that prints it first fails the check,
      though the change is in place. */
  lemma {:induction false} AlternativesCanFail(c: Config, destination: string, mask: string, nextHop: string,
                                               before: ChangeContext, alternative: Line)
    returns (after: ChangeContext)
    requires ConfigOk(c) && ReportsRoutes(c, before.staticRoutes)
    requires Accepts(StaticRouteStep(destination, mask, nextHop), before)
    requires alternative in c.routes && alternative[2] == destination && alternative[3] == mask
    requires !Replaced(alternative, destination, mask, before) && alternative[4] != Strip(nextHop)
    ensures ReportsRoutes(Run(c, RenderStaticRoute(destination, mask, nextHop, before).commands).config, after.staticRoutes)
    ensures !PostCheckOk(StaticRouteStep(destination, mask, nextHop), after)
  {
    hide Run, Words, AddedRoute, IsQuad, IsNextHop, Strip, Join, ConfigOk, IsDotted, Typable, AllWords;
    RoutesAreOk(c);
    StaticRouteRuns(c, destination, mask, nextHop, before);
    AddedRouteWords(destination, mask, nextHop);
    var existing := StaticRouteOf(before.staticRoutes, destination, mask);
    if existing.Some? {
      RouteListed(c, before.staticRoutes, existing.value);
    }
    var done := WithRoutes(c, RoutesAfter(c, destination, mask, nextHop, before));
    QuadIsDotted(destination);
    QuadIsDotted(mask);
    var rest := Enumerate(set l | l in done.routes && IsListed(l));
    var listed := [alternative] + rest;
    ListingReports(done, listed);
    var facts := seq(|listed|, i requires 0 <= i < |listed| => FactsOf(listed[i]));
    assert facts[0] == FactsOf(alternative);
    after := ChangeContext(None, [], [], facts, [], None, None);
    assert StaticRouteOf(facts, destination, mask) == Some(facts[0]);
  }

  // ---- Router blocks ----

  lemma {:induction false} RouterNetworkConfirms(c: Config, process: string, value: string, before: ChangeContext,
                                                 after: ChangeContext)
    requires Accepts(RouterNetworkStep(process, value), before)
    requires ReportsRouters(Run(c, [RouterCmd(Strip(process)), Statement(NetworkStatement(value))]).config,
                            after.routingProcesses)
    ensures PostCheckOk(RouterNetworkStep(process, value), after)
  {
    hide Key, Run, AddLine, Normalize, Lists, IsProcess, IsNetwork, Strip;
    var key, statement := Key(process), NetworkStatement(value);
    KeyOfNetwork(value);
    PlainProcess(c, process);
    PlainLine(LinesOf(c, key), value);
    RunAdd(c, Strip(process), statement);
    var lines := LinesOf(c, key) + {["network"] + Key(value)};
    ProcessFound(WithLines(c, key, lines), after.routingProcesses, process);
    HasStatementIsIn(ProcessOf(after.routingProcesses, process).value, lines, statement);
  }

  lemma {:induction false} RouterNetworkRemoveConfirms(c: Config, process: string, value: string, before: ChangeContext,
                                                       after: ChangeContext)
    requires Accepts(RouterNetworkRemoveStep(process, value), before)
    requires ReportsRouters(Run(c, [RouterCmd(Strip(process)), NoStatement(NetworkStatement(value))]).config,
                            after.routingProcesses)
    ensures PostCheckOk(RouterNetworkRemoveStep(process, value), after)
  {
    hide Key, Run, DropLine, Normalize, Lists, IsProcess, IsNetwork, Strip;
    var key, statement := Key(process), NetworkStatement(value);
    KeyOfNetwork(value);
    PlainProcess(c, process);
    PlainLine(LinesOf(c, key), value);
    RunDrop(c, Strip(process), statement);
    var lines := LinesOf(c, key) - {["network"] + Key(value)};
    ProcessFound(WithLines(c, key, lines), after.routingProcesses, process);
    HasStatementIsIn(ProcessOf(after.routingProcesses, process).value, lines, statement);
  }

  lemma {:induction false} RipVersionConfirms(c: Config, process: string, value: string, before: ChangeContext,
                                              after: ChangeContext)
    requires ConfigOk(c) && Accepts(RipVersionStep(process, value), before)
    requires ReportsRouters(Run(c, [RouterCmd("rip"), Statement("version " + Strip(value))]).config,
                            after.routingProcesses)
    ensures PostCheckOk(RipVersionStep(process, value), after)
  {
    hide Key, Run, AddLine, Normalize, Lists, Strip, LineOk, RouterOk, NonVersions, Join;
    var key, v := Key("rip"), Strip(value);
    var l := ["version", v];
    ProtocolWords();
    KeyOfWord("rip");
    KeyOfVersion(v);
    VersionLine(LinesOf(c, key), l);
    RunAdd(c, "rip", "version " + v);
    var lines := NonVersions(LinesOf(c, key)) + {l};
    ProcessFound(WithLines(c, key, lines), after.routingProcesses, "rip");
    var rip := ProcessOf(after.routingProcesses, "rip").value;
    RouterStaysOk(c, key, v);
    FindVersion(rip, lines);
    OnlyVersion(LinesOf(c, key), l);
    JoinOfTwo("version", v);
    assert "version" + " " + v == "version " + v;
  }

  lemma {:induction false} OnlyVersion(lines: set<Line>, l: Line)
    requires IsVersion(l)
    ensures forall o :: o in NonVersions(lines) + {l} && IsVersion(o) ==> o == l
    ensures l in NonVersions(lines) + {l}
  {
  }

  lemma {:induction false} RouterStaysOk(c: Config, key: Line, v: string)
    requires ConfigOk(c) && (v == "1" || v == "2")
    ensures RouterOk(NonVersions(LinesOf(c, key)) + {["version", v]})
  {
    hide LineOk, RouterOk;
    VersionLineOk(v);
    NoLinesOk();
    WithVersionOk(LinesOf(c, key), ["version", v]);
  }

  lemma {:induction false} VersionLineOk(v: string)
    requires v == "1" || v == "2"
    ensures LineOk(["version", v])
  {
    hide IsWord, Lower;
    DigitWord(v);
    LowerWord("version");
    assert LowerAll(["version", v]) == ["version", v];
  }

  lemma {:induction false} NoLinesOk()
    ensures RouterOk({})
  {
  }

  lemma {:induction false} WithVersionOk(lines: set<Line>, l: Line)
    requires RouterOk(lines) && LineOk(l) && IsVersion(l) && |l| == 2
    ensures RouterOk(NonVersions(lines) + {l})
  {
    hide LineOk;
    var after := NonVersions(lines) + {l};
    assert forall o :: o in after && o != l ==> o in lines && !IsVersion(o);
  }

  lemma {:induction false} BgpNeighborConfirms(c: Config, process: string, value: string, before: ChangeContext,
                                               after: ChangeContext)
    requires ConfigOk(c) && ReportsRouters(c, before.routingProcesses)
    requires Accepts(BgpNeighborStep(process, value), before)
    requires ReportsRouters(Run(c, RenderBgpNeighbor(process, value, before).commands).config, after.routingProcesses)
    ensures PostCheckOk(BgpNeighborStep(process, value), after)
  {
    hide Key, Run, AddLine, DropLine, Normalize, Lists, IsBgpProcess, IsBgpNeighbor, LineOk, RouterOk, IsRemoteAs;
    hide Strip, Lower, Collapse, IsWord, WithoutPeer, IsBgp;
    var name, peer, statement := Lower(Strip(process)), PeerAddress(value), NeighborStatement(value);
    var key, l := Key(name), Key(statement);
    KeyOfStrip(process);
    KeyOfLower(Strip(process));
    KeyOfNeighbor(value);
    BgpMayEnter(c, process, before.routingProcesses);
    NeighborValue(value);
    ProcessFound(c, before.routingProcesses, name);
    var existing := ProcessOf(before.routingProcesses, name);
    var lines;
    if existing.None? {
      FirstPeerLine(l, peer);
      PeerLine({}, l, peer);
      RunAdd(c, name, statement);
      lines := {} + {l};
    } else {
      var previous := existing.value.FindStatement("neighbor " + peer + " remote-as ");
      FindRemoteAs(existing.value, c.routers[key], peer);
      if previous.None? {
        PeerLine(c.routers[key], l, peer);
        RunAdd(c, name, statement);
        lines := c.routers[key] + {l};
      } else {
        DropsPeer(c.routers[key], peer);
        PeerLine(WithoutPeer(c.routers[key], peer), l, peer);
        RunDropAdd(c, name, "neighbor " + peer, statement);
        lines := WithoutPeer(c.routers[key], peer) + {l};
      }
    }
    ProcessFound(WithLines(c, key, lines), after.routingProcesses, process);
    HasStatementIsIn(ProcessOf(after.routingProcesses, process).value, lines, "neighbor " + Lower(Collapse(value)));
  }
}
