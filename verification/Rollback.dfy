/** The promise of a change plan: a change that passed validation can be undone from wherever it broke off. */
module Rollback {
  import opened Wrappers
  import opened Text
  import opened Lines
  import opened VlanList
  import opened Facts
  import opened Device
  import opened CommandLine
  import opened CiscoDriver
  import opened Undo
  import opened StoredText
  import opened ChangeLines
  import BrokenRoute
  import RouterUndo
  import PortUndo

  /** When the rendered inverse restores the device: always, but for five kinds of change.
      - an administrative state, only if the port was shut down or had its line up;
      - an access VLAN, only if the port was an access port, in a VLAN the switch lists or the default one;
      - a trunk, only if some VLAN was allowed and the port was a trunk or its encapsulation was settled;
      - a static route, only if its line was not configured yet or is the one replaced;
      - a BGP neighbour, only if its remote AS was all the peer had. */
  ghost predicate InverseFits(c: Config, step: ChangeStep, context: ChangeContext, carrier: bool) {
    match step
    case AdminStateStep(port, _) =>
      NormalizeInterfaceName(port) in c.ports && (c.ports[NormalizeInterfaceName(port)].down || carrier)
    case AccessVlanStep(port, _) =>
      NormalizeInterfaceName(port) in c.ports
      && PortUndo.AccessRestorable(c, c.ports[NormalizeInterfaceName(port)])
    case TrunkVlansStep(port, _) =>
      NormalizeInterfaceName(port) in c.ports && PortUndo.TrunkRestorable(c.ports[NormalizeInterfaceName(port)])
    case StaticRouteStep(destination, mask, nextHop) =>
      PortUndo.RouteRestorable(c, destination, mask, nextHop, context)
    case BgpNeighborStep(process, value) => RouterUndo.BgpRestorable(c, process, value)
    case _ => true
  }

  /** When what is sent restores the device: the next hop of a route has to be typed cleanly as well. */
  ghost predicate Restorable(c: Config, step: ChangeStep, context: ChangeContext, carrier: bool) {
    TypedCleanly(step) && InverseFits(c, step, context, carrier)
  }

  /** The change is not accepted whole, and nor is its inverse. */
  ghost predicate IsRefused(c: Config, lines: seq<string>, inverse: seq<string>) {
    !RunLines(c, lines).completed && !RunLines(RunLines(c, lines).config, inverse).completed
  }

  /** For every configuration, every validated change and every read-back, of the lines that are stored and sent: if
      it is restorable, then however many lines got in, all of the inverse is accepted and the configuration is what
      it was; if not, the completed change is accepted but its inverse leaves something else, or, if it was not
      typed cleanly, both are refused. Only a host name that could not be read is not rendered at all. */
  lemma {:induction false} RollbackExactlyWhen(c: Config, step: ChangeStep, context: ChangeContext, carrier: bool)
    requires ConfigOk(c) && Reports(c, step, context, carrier) && Accepts(step, context)
    ensures RenderChange(step, context).None? <==> step.HostnameStep? && c.hostname == ""
    ensures RenderChange(step, context).Some? ==>
              var lines := Sent(RenderChange(step, context).value.commands);
              var inverse := Sent(RenderChange(step, context).value.inverse);
              && (PutsBack(c, lines, inverse) <==> Restorable(c, step, context, carrier))
              && (LeavesBehind(c, lines, inverse) <==> TypedCleanly(step) && !Restorable(c, step, context, carrier))
              && (IsRefused(c, lines, inverse) <==> !TypedCleanly(step))
  {
    hide ConfigOk, Reports, Accepts, RenderChange, InverseFits, Sent, RunLines, SentClean, TypedCleanly, Restores;
    hide Loses;
    RenderedRollback(c, step, context, carrier);
    if RenderChange(step, context).Some? {
      var r := RenderChange(step, context).value;
      ChangeIsSent(c, step, context, carrier);
      if TypedCleanly(step) {
        SentAsCommands(c, r);
        OneOutcome(c, Sent(r.commands), Sent(r.inverse));
      } else {
        RefusedRoute(c, step, context, carrier);
        OneOutcome(c, Sent(r.commands), Sent(r.inverse));
      }
    }
  }

  lemma {:induction false} OneOutcome(c: Config, lines: seq<string>, inverse: seq<string>)
    ensures PutsBack(c, lines, inverse) ==> !LeavesBehind(c, lines, inverse) && !IsRefused(c, lines, inverse)
    ensures LeavesBehind(c, lines, inverse) ==> !IsRefused(c, lines, inverse)
  {
    hide RunLines;
    if PutsBack(c, lines, inverse) {
      assert PutsBackFrom(c, lines, inverse, |lines|);
      assert lines[..|lines|] == lines;
    }
  }

  lemma {:induction false} RefusedRoute(c: Config, step: ChangeStep, context: ChangeContext, carrier: bool)
    requires Reports(c, step, context, carrier) && Accepts(step, context) && !TypedCleanly(step)
    ensures var r := RenderChange(step, context);
            r.Some? && IsRefused(c, Sent(r.value.commands), Sent(r.value.inverse))
  {
    hide ReportsRoutes, RunLines, Sent, Clean, RenderStaticRoute, BrokenRoute.RoutesLeft;
    BrokenRoute.UncleanRouteIsRefused(c, step.destination, step.mask, step.nextHop, context);
  }

  /** The same of the rendered commands. */
  lemma {:induction false} RenderedRollback(c: Config, step: ChangeStep, context: ChangeContext, carrier: bool)
    requires ConfigOk(c) && Reports(c, step, context, carrier) && Accepts(step, context)
    ensures RenderChange(step, context).None? <==> step.HostnameStep? && c.hostname == ""
    ensures RenderChange(step, context).Some? ==>
              var r := RenderChange(step, context).value;
              if InverseFits(c, step, context, carrier) then Restores(c, r) else Loses(c, r)
  {
    hide Restores, Loses, ConfigOk, NormalizeInterfaceName, Strip, Lower, Words, Key, IsProcess, IsNetwork, Accepted;
    hide IsVlanId, IsVlanName, IsNextHop, IsQuad, IsBgpProcess, IsBgpNeighbor, IsDescription, IsHostname;
    hide PortUndo.AccessRestorable, PortUndo.TrunkRestorable, PortUndo.RouteRestorable, RouterUndo.BgpRestorable;
    hide ReportsRouters, ReportsRoutes, ReportsVlans, ReportsMembership, ReportsSwitchports, ReportsInterface;
    match step
    case HostnameStep(name) =>
      if c.hostname != "" { PortUndo.HostnameRestores(c, name, context); }
    case DomainLookupStep(value) => PortUndo.DomainLookupRestores(c, value, context);
    case VlanNameStep(vlan, name) => PortUndo.VlanNameRestores(c, vlan, name, context);
    case AccessVlanStep(port, vlan) =>
      ReportedPort(c, port, context.interface, carrier);
      PortUndo.AccessVlanRestores(c, port, vlan, context);
    case TrunkVlansStep(port, list) => PortUndo.TrunkVlansRestores(c, port, list, context);
    case StaticRouteStep(destination, mask, nextHop) =>
      PortUndo.StaticRouteRestores(c, destination, mask, nextHop, context);
    case RouterNetworkStep(process, value) => RouterUndo.RouterNetworkRestores(c, process, value, context);
    case RouterNetworkRemoveStep(process, value) => RouterUndo.RouterNetworkRemoveRestores(c, process, value, context);
    case RipVersionStep(process, value) => RouterUndo.RipVersionRestores(c, process, value, context);
    case BgpNeighborStep(process, value) => RouterUndo.BgpNeighborRestores(c, process, value, context);
    case DescriptionStep(port, text) =>
      ReportedPort(c, port, context.interface, carrier);
      PortUndo.DescriptionRestores(c, port, text, context, carrier);
    case AdminStateStep(port, value) =>
      ReportedPort(c, port, context.interface, carrier);
      PortUndo.AdminStateRestores(c, port, value, context, carrier);
  }

  lemma {:induction false} ReportedPort(c: Config, port: string, facts: Option<InterfaceFacts>, carrier: bool)
    requires ReportsInterface(c, port, facts, carrier)
    ensures facts.Some? && NormalizeInterfaceName(port) in c.ports
  {
  }
}
