/** Undoing changes of ports, VLANs, static routes and global settings. */
module PortUndo {
  import opened Wrappers
  import opened Text
  import opened VlanList
  import opened Facts
  import opened Device
  import opened CiscoDriver
  import opened Undo

  // ---- Commands inside an interface block ----

  predicate IsPortCommand(c: Command) {
    || c.Description? || c.NoDescription? || c.Shutdown? || c.NoShutdown? || c.SwitchportMode?
    || c.SwitchportAccessVlan? || c.NoSwitchportAccessVlan? || c.TrunkEncapsulationDot1q?
    || c.TrunkAllowedVlans? || c.NoTrunkAllowedVlans?
  }

  predicate PortCommands(cs: seq<Command>) {
    forall i :: 0 <= i < |cs| ==> IsPortCommand(cs[i])
  }

  /** What a batch of such commands makes of the port; None when one of them is refused. */
  function PortRun(p: Port, cs: seq<Command>): Option<Port>
    decreases |cs|
  {
    if cs == [] then Some(p)
    else match ExecPort(p, cs[0])
         case None => None
         case Some(q) => PortRun(q, cs[1..])
  }

  function WithPort(c: Config, name: string, p: Port): Config {
    c.(ports := c.ports[name := p])
  }

  lemma {:induction false} RunPortFrom(c: Config, name: string, cs: seq<Command>)
    requires name in c.ports && PortCommands(cs) && PortRun(c.ports[name], cs).Some?
    ensures RunFrom(State(c, InInterface(name)), cs) == Outcome(WithPort(c, name, PortRun(c.ports[name], cs).value), true)
    decreases |cs|
  {
    hide ExecPort;
    if cs == [] {
      assert c.ports[name := c.ports[name]] == c.ports;
    } else {
      var q := ExecPort(c.ports[name], cs[0]).value;
      assert IsPortCommand(cs[0]);
      var last := PortRun(q, cs[1..]).value;
      RunPortFrom(WithPort(c, name, q), name, cs[1..]);
      assert c.ports[name := q][name := last] == c.ports[name := last];
    }
  }

  lemma {:induction false} RunPort(c: Config, port: string, cs: seq<Command>)
    requires var name := NormalizeInterfaceName(port);
             name in c.ports && PortCommands(cs) && PortRun(c.ports[name], cs).Some?
    ensures var name := NormalizeInterfaceName(port);
            Run(c, [InterfaceCmd(port)] + cs) == Outcome(WithPort(c, name, PortRun(c.ports[name], cs).value), true)
  {
    hide PortRun, NormalizeInterfaceName;
    var name := NormalizeInterfaceName(port);
    assert ([InterfaceCmd(port)] + cs)[1..] == cs;
    RunPortFrom(c, name, cs);
  }

  lemma {:induction false} WithPortTwice(c: Config, name: string, p: Port, q: Port)
    ensures WithPort(WithPort(c, name, p), name, q) == WithPort(c, name, q)
    ensures name in c.ports && q == c.ports[name] ==> WithPort(c, name, q) == c
    ensures name in c.ports && q != c.ports[name] ==> WithPort(c, name, q) != c
  {
    assert c.ports[name := p][name := q] == c.ports[name := q];
    if name in c.ports {
      if q == c.ports[name] {
        assert c.ports[name := q] == c.ports;
      } else {
        assert WithPort(c, name, q).ports[name] != c.ports[name];
      }
    }
  }

  /** A change of one port is undone from every break-off point if its inverse takes the port back from each
      intermediate state. */
  lemma {:induction false} PortRestores(c: Config, port: string, does: seq<Command>, undo: seq<Command>)
    requires PortCommands(does) && PortCommands(undo)
    requires var name := NormalizeInterfaceName(port);
             && name in c.ports
             && forall k :: 0 <= k <= |does| ==> BackFrom(c.ports[name], does, undo, k)
    ensures Restores(c, RenderedChange([InterfaceCmd(port)] + does, [InterfaceCmd(port)] + undo))
  {
    hide PortRun, Run, NormalizeInterfaceName;
    var r := RenderedChange([InterfaceCmd(port)] + does, [InterfaceCmd(port)] + undo);
    var name := NormalizeInterfaceName(port);
    var p := c.ports[name];
    forall k | 0 <= k <= |r.commands| ensures RestoresFrom(c, r, k) {
      if k == 0 {
        assert BackFrom(p, does, undo, 0);
        PortRunOfNone(p, does);
        RunPort(c, port, undo);
        WithPortTwice(c, name, p, p);
        NothingPushed(c);
        From(c, r, 0, [], c);
      } else {
        PortRestoresAt(c, port, does, undo, k - 1);
      }
    }
  }

  lemma {:induction false} PortRunOfNone(p: Port, does: seq<Command>)
    ensures PortRun(p, does[..0]) == Some(p)
  {
  }

  /** After k of the commands, the inverse takes the port back. */
  predicate BackFrom(p: Port, does: seq<Command>, undo: seq<Command>, k: nat)
    requires k <= |does|
  {
    var q := PortRun(p, does[..k]);
    q.Some? && PortRun(q.value, undo) == Some(p)
  }

  lemma {:induction false} PortRestoresAt(c: Config, port: string, does: seq<Command>, undo: seq<Command>, k: nat)
    requires PortCommands(does) && PortCommands(undo) && k <= |does|
    requires var name := NormalizeInterfaceName(port); name in c.ports && BackFrom(c.ports[name], does, undo, k)
    ensures RestoresFrom(c, RenderedChange([InterfaceCmd(port)] + does, [InterfaceCmd(port)] + undo), k + 1)
  {
    hide PortRun, Run, NormalizeInterfaceName;
    var r := RenderedChange([InterfaceCmd(port)] + does, [InterfaceCmd(port)] + undo);
    var name := NormalizeInterfaceName(port);
    var p := c.ports[name];
    var q := PortRun(p, does[..k]).value;
    RunPort(c, port, does[..k]);
    RunPort(WithPort(c, name, q), port, undo);
    WithPortTwice(c, name, q, p);
    assert r.commands[..k + 1] == [InterfaceCmd(port)] + does[..k];
    From(c, r, k + 1, [InterfaceCmd(port)] + does[..k], WithPort(c, name, q));
  }

  /** The whole change goes in, and its inverse leaves a different port. */
  lemma {:induction false} PortLoses(c: Config, port: string, does: seq<Command>, undo: seq<Command>)
    requires PortCommands(does) && PortCommands(undo)
    requires var name := NormalizeInterfaceName(port);
             && name in c.ports && PortRun(c.ports[name], does).Some?
             && var q := PortRun(c.ports[name], does).value;
                PortRun(q, undo).Some? && PortRun(q, undo).value != c.ports[name]
    ensures Loses(c, RenderedChange([InterfaceCmd(port)] + does, [InterfaceCmd(port)] + undo))
  {
    hide PortRun, Run, NormalizeInterfaceName;
    var name := NormalizeInterfaceName(port);
    var q := PortRun(c.ports[name], does).value;
    RunPort(c, port, does);
    RunPort(WithPort(c, name, q), port, undo);
    WithPortTwice(c, name, q, PortRun(q, undo).value);
  }

  lemma {:induction false} RunCons(p: Port, a: Command, rest: seq<Command>)
    ensures PortRun(p, [a] + rest) == if ExecPort(p, a).None? then None else PortRun(ExecPort(p, a).value, rest)
    ensures PortRun(p, []) == Some(p)
  {
    hide ExecPort;
    assert ([a] + rest)[1..] == rest;
  }

  lemma {:induction false} RunTwo(p: Port, a: Command, b: Command)
    ensures PortRun(p, [a]) == ExecPort(p, a)
    ensures PortRun(p, [a, b]) == if ExecPort(p, a).None? then None else ExecPort(ExecPort(p, a).value, b)
  {
    hide ExecPort, PortRun;
    assert [a] + [] == [a] && [a] + [b] == [a, b] && [b] + [] == [b];
    RunCons(p, a, []);
    RunCons(p, a, [b]);
    if ExecPort(p, a).Some? {
      var q := ExecPort(p, a).value;
      RunCons(q, b, []);
      RunCons(q, a, []);
      if ExecPort(q, b).Some? {
        RunCons(ExecPort(q, b).value, b, []);
      }
    }
  }

  lemma {:induction false} RunThree(p: Port, a: Command, b: Command, d: Command)
    requires ExecPort(p, a).Some?
    ensures PortRun(p, [a, b, d]) == PortRun(ExecPort(p, a).value, [b, d])
  {
    hide ExecPort, PortRun;
    assert [a] + [b, d] == [a, b, d];
    RunCons(p, a, [b, d]);
  }

  // ---- Description and administrative state ----

  lemma {:induction false} OneForOne(c: Config, port: string, does: Command, undo: Command)
    requires IsPortCommand(does) && IsPortCommand(undo)
    requires var name := NormalizeInterfaceName(port);
             && name in c.ports
             && var p := c.ports[name];
                && ExecPort(p, does).Some? && ExecPort(p, undo).Some? && ExecPort(ExecPort(p, does).value, undo).Some?
                && ExecPort(ExecPort(p, does).value, undo) == ExecPort(p, undo)
    ensures var r := RenderedChange([InterfaceCmd(port), does], [InterfaceCmd(port), undo]);
            if ExecPort(c.ports[NormalizeInterfaceName(port)], undo) == Some(c.ports[NormalizeInterfaceName(port)])
            then Restores(c, r) else Loses(c, r)
  {
    hide ExecPort, Restores, Loses, NormalizeInterfaceName;
    var p := c.ports[NormalizeInterfaceName(port)];
    RunTwo(p, does, undo);
    RunTwo(p, undo, undo);
    RunTwo(ExecPort(p, does).value, undo, undo);
    assert [InterfaceCmd(port)] + [does] == [InterfaceCmd(port), does];
    assert [InterfaceCmd(port)] + [undo] == [InterfaceCmd(port), undo];
    if ExecPort(p, undo) == Some(p) {
      PortRunOfNone(p, [does]);
      assert [does][..1] == [does];
      assert BackFrom(p, [does], [undo], 0) && BackFrom(p, [does], [undo], 1);
      PortRestores(c, port, [does], [undo]);
    } else {
      PortLoses(c, port, [does], [undo]);
    }
  }

  lemma {:induction false} DescriptionRestores(c: Config, port: string, text: string, context: ChangeContext,
                                               carrier: bool)
    requires ConfigOk(c) && ReportsInterface(c, port, context.interface, carrier)
    ensures Restores(c, RenderChange(DescriptionStep(port, text), context).value)
  {
    hide Restores, NormalizeInterfaceName, Strip;
    var name := NormalizeInterfaceName(port);
    var p := c.ports[name];
    assert PortOk(p);
    var undo := if p.description.Some? then Description(p.description.value) else NoDescription;
    OneForOne(c, port, Description(text), undo);
  }

  /** A port that is not shut down but has no line reads as down, and would be rolled back into a shutdown. */
  lemma {:induction false} AdminStateRestores(c: Config, port: string, value: string, context: ChangeContext,
                                              carrier: bool)
    requires ReportsInterface(c, port, context.interface, carrier)
    ensures var r := RenderChange(AdminStateStep(port, value), context).value;
            if c.ports[NormalizeInterfaceName(port)].down || carrier then Restores(c, r) else Loses(c, r)
  {
    hide Restores, Loses, NormalizeInterfaceName;
    var p := c.ports[NormalizeInterfaceName(port)];
    var does := if value == "up" then NoShutdown else Shutdown;
    var undo := if !p.down && carrier then NoShutdown else Shutdown;
    OneForOne(c, port, does, undo);
  }

  // ---- Access VLAN ----

  /** The port was an access port, in a VLAN the switch lists or in the default one. */
  predicate AccessRestorable(c: Config, p: Port) {
    p.mode == "static access" && (p.accessVlan in c.vlans || p.accessVlan == 1)
  }

  lemma {:induction false} AccessVlanRestores(c: Config, port: string, vlan: string, context: ChangeContext)
    requires ConfigOk(c) && NormalizeInterfaceName(port) in c.ports
    requires ReportsVlans(c, context.vlans) && ReportsMembership(c, context.vlans)
    ensures var r := RenderChange(AccessVlanStep(port, vlan), context).value;
            if AccessRestorable(c, c.ports[NormalizeInterfaceName(port)]) then Restores(c, r) else Loses(c, r)
  {
    hide Restores, Loses, NormalizeInterfaceName, HoldsPort, IntOf;
    var name := NormalizeInterfaceName(port);
    var p, previous := c.ports[name], AccessVlanOf(context.vlans, port);
    var access, assign := SwitchportMode("static access"), SwitchportAccessVlan(IntOf(vlan));
    var undo := if previous.Some? then SwitchportAccessVlan(previous.value.vlanId)
                else NoSwitchportAccessVlan;
    AccessCommands(p, IntOf(vlan), undo);
    assert [InterfaceCmd(port)] + [access, assign] == [InterfaceCmd(port), access, assign];
    assert [InterfaceCmd(port)] + [undo] == [InterfaceCmd(port), undo];
    if p.mode == "static access" {
      MembershipKnown(c, port, context.vlans);
    }
    if AccessRestorable(c, p) {
      PortRestores(c, port, [access, assign], [undo]);
    } else {
      PortLoses(c, port, [access, assign], [undo]);
    }
  }

  /** Where a listed access port is found: under its own VLAN if the switch has it, nowhere otherwise. */
  lemma {:induction false} MembershipKnown(c: Config, port: string, vlans: seq<VlanFacts>)
    requires ReportsVlans(c, vlans) && ReportsMembership(c, vlans) && IsAccessPort(c, port)
    ensures var p, found := c.ports[NormalizeInterfaceName(port)], AccessVlanOf(vlans, port);
            && (found.Some? <==> p.accessVlan in c.vlans)
            && (found.Some? ==> found.value.vlanId == p.accessVlan)
  {
    hide NormalizeInterfaceName, HoldsPort;
    var p, found := c.ports[NormalizeInterfaceName(port)], AccessVlanOf(vlans, port);
    if found.Some? {
      var i :| 0 <= i < |vlans| && vlans[i] == found.value;
      assert HoldsPort(vlans[i], port);
    }
    if p.accessVlan in c.vlans {
      var i :| 0 <= i < |vlans| && vlans[i].vlanId == p.accessVlan;
      assert HoldsPort(vlans[i], port);
    }
  }

  lemma {:induction false} AccessCommands(p: Port, id: nat, undo: Command)
    requires undo.SwitchportAccessVlan? || undo.NoSwitchportAccessVlan?
    ensures var does := [SwitchportMode("static access"), SwitchportAccessVlan(id)];
            var back := if undo.SwitchportAccessVlan? then undo.id else 1;
            && PortRun(p, does) == Some(p.(mode := "static access", accessVlan := id))
            && PortRun(p.(mode := "static access", accessVlan := id), [undo])
               == Some(p.(mode := "static access", accessVlan := back))
            && (p.mode == "static access" && p.accessVlan == back ==>
                  forall k :: 0 <= k <= |does| ==> BackFrom(p, does, [undo], k))
  {
    var access, assign := SwitchportMode("static access"), SwitchportAccessVlan(id);
    var does := [access, assign];
    RunTwo(p, access, assign);
    RunTwo(p, undo, undo);
    RunTwo(p.(mode := "static access", accessVlan := id), undo, undo);
    RunTwo(p.(mode := "static access"), undo, undo);
    assert does[..0] == [] && does[..1] == [access] && does[..2] == does;
  }

  // ---- Trunk VLANs ----

  /** Something was allowed before, and the port was a trunk or had its encapsulation settled. */
  predicate TrunkRestorable(p: Port) {
    p.allowed != {} && (p.mode == "trunk" || p.encapsulation != Negotiate)
  }

  /** The allowed list a port goes back to: its own, except that none at all becomes the default. */
  function AllowedAfter(p: Port): set<int> {
    if p.allowed == {} then AllVlans() else p.allowed
  }

  /** The command sets the allowed list of any port to this and does nothing else. */
  ghost predicate SetsAllowed(undo: Command, allowed: set<int>) {
    forall q: Port :: ExecPort(q, undo) == Some(q.(allowed := allowed))
  }

  lemma {:induction false} PreviousAllowedIs(facts: SwitchportFacts, p: Port)
    requires ReportsAllowed(facts.trunkAllowed, p.allowed)
    ensures var undo := PreviousAllowed(facts);
            && IsPortCommand(undo)
            && SetsAllowed(undo, AllowedAfter(p))
  {
    hide Strip, Lower, PartsIds, SplitOn, Interval;
    var text := if facts.trunkAllowed.Some? then facts.trunkAllowed.value else "";
    StripTwice(text);
    EmptyText();
  }

  lemma {:induction false} EmptyText()
    ensures Strip("") == "" && Lower("") == ""
  {
  }

  /** The three shapes a trunk change takes. */
  lemma {:induction false} TrunkRendering(port: string, list: string, context: ChangeContext, facts: SwitchportFacts)
    requires SwitchportOf(context.switchports, port) == Some(facts) && ModeCommand(facts.mode).Some?
    ensures var r := RenderChange(TrunkVlansStep(port, list), context);
            var undo, assign := PreviousAllowed(facts), TrunkAllowedVlans(Strip(list));
            r == Some(
              if facts.mode == "trunk" then RenderedChange([InterfaceCmd(port), assign], [InterfaceCmd(port), undo])
              else if facts.trunkEncapsulation == Some("negotiate") then
                RenderedChange([InterfaceCmd(port)] + [TrunkEncapsulationDot1q, SwitchportMode("trunk"), assign],
                               [InterfaceCmd(port)] + [undo, SwitchportMode(facts.mode)])
              else
                RenderedChange([InterfaceCmd(port)] + [SwitchportMode("trunk"), assign],
                               [InterfaceCmd(port)] + [undo, SwitchportMode(facts.mode)]))
  {
    hide PreviousAllowed, Strip, ModeCommand;
    var undo, assign := PreviousAllowed(facts), TrunkAllowedVlans(Strip(list));
    assert [InterfaceCmd(port)] + [TrunkEncapsulationDot1q] + [SwitchportMode("trunk"), assign]
        == [InterfaceCmd(port)] + [TrunkEncapsulationDot1q, SwitchportMode("trunk"), assign];
    assert [InterfaceCmd(port)] + [] + [SwitchportMode("trunk"), assign]
        == [InterfaceCmd(port)] + [SwitchportMode("trunk"), assign];
    assert [InterfaceCmd(port)] + [undo, SwitchportMode(facts.mode)]
        == [InterfaceCmd(port), undo, SwitchportMode(facts.mode)];
  }

  lemma {:induction false} TrunkVlansRestores(c: Config, port: string, list: string, context: ChangeContext)
    requires ConfigOk(c) && Accepts(TrunkVlansStep(port, list), context)
    requires ReportsSwitchports(c, context.switchports)
    ensures NormalizeInterfaceName(port) in c.ports
    ensures var r := RenderChange(TrunkVlansStep(port, list), context);
            && r.Some?
            && if TrunkRestorable(c.ports[NormalizeInterfaceName(port)]) then Restores(c, r.value) else Loses(c, r.value)
  {
    hide Restores, Loses, NormalizeInterfaceName, Accepted, ReportsAllowed, ExecPort, PreviousAllowed, Expand, Strip;
    hide RenderChange, ModeCommand, ReportsSwitchports;
    var name := NormalizeInterfaceName(port);
    var facts := SwitchportOf(context.switchports, port).value;
    SwitchportFound(c, context.switchports, port);
    var p, undo := c.ports[name], PreviousAllowed(facts);
    assert PortOk(p);
    PreviousAllowedIs(facts, p);
    TrunkRendering(port, list, context, facts);
    if p.mode == "trunk" {
      OnTrunk(c, port, p, Strip(list), undo);
    } else if p.encapsulation == Negotiate {
      Negotiating(c, port, p, Strip(list), undo);
    } else {
      OffTrunk(c, port, p, Strip(list), undo);
    }
  }

  lemma {:induction false} SwitchportFound(c: Config, ports: seq<SwitchportFacts>, port: string)
    requires ReportsSwitchports(c, ports) && SwitchportOf(ports, port).Some?
    ensures var facts, name := SwitchportOf(ports, port).value, NormalizeInterfaceName(port);
            && name in c.ports && facts.mode == c.ports[name].mode
            && ReportsAllowed(facts.trunkAllowed, c.ports[name].allowed)
            && facts.trunkEncapsulation == Some(if c.ports[name].encapsulation == Negotiate then "negotiate" else "dot1q")
  {
    hide NormalizeInterfaceName, ReportsAllowed;
    var facts := SwitchportOf(ports, port).value;
    var i :| 0 <= i < |ports| && ports[i] == facts;
  }

  lemma {:induction false} OnTrunk(c: Config, port: string, p: Port, list: string, undo: Command)
    requires NormalizeInterfaceName(port) in c.ports && c.ports[NormalizeInterfaceName(port)] == p
    requires p.mode == "trunk" && IsPortCommand(undo)
    requires SetsAllowed(undo, AllowedAfter(p))
    ensures var r := RenderedChange([InterfaceCmd(port), TrunkAllowedVlans(list)], [InterfaceCmd(port), undo]);
            if p.allowed != {} then Restores(c, r) else Loses(c, r)
  {
    hide Restores, Loses, NormalizeInterfaceName, Expand;
    AllVlansExist();
    OneForOne(c, port, TrunkAllowedVlans(list), undo);
  }

  lemma {:induction false} AllVlansExist()
    ensures AllVlans() != {}
  {
    assert 1 in AllVlans();
  }

  lemma {:induction false} TrunkCommands(q: Port, mode: string, list: string)
    requires ModeCommand(mode).Some?
    ensures mode != "trunk" ==> ExecPort(q, SwitchportMode(mode)) == Some(q.(mode := mode))
    ensures q.encapsulation != Negotiate ==> ExecPort(q, SwitchportMode("trunk")) == Some(q.(mode := "trunk"))
    ensures ExecPort(q, TrunkAllowedVlans(list)) == Some(q.(allowed := Expand(list)))
    ensures ExecPort(q, TrunkEncapsulationDot1q) == Some(q.(encapsulation := Dot1q))
  {
    hide Expand;
  }

  lemma {:induction false} OffTrunk(c: Config, port: string, p: Port, list: string, undo: Command)
    requires NormalizeInterfaceName(port) in c.ports && c.ports[NormalizeInterfaceName(port)] == p
    requires p.mode != "trunk" && ModeCommand(p.mode).Some? && p.encapsulation != Negotiate && IsPortCommand(undo)
    requires SetsAllowed(undo, AllowedAfter(p))
    ensures var r := RenderedChange([InterfaceCmd(port)] + [SwitchportMode("trunk"), TrunkAllowedVlans(list)],
                                    [InterfaceCmd(port)] + [undo, SwitchportMode(p.mode)]);
            if p.allowed != {} then Restores(c, r) else Loses(c, r)
  {
    hide Restores, Loses, NormalizeInterfaceName, Expand, PortRun, ExecPort, ModeCommand, AllVlans, SetsAllowed;
    hide BackFrom;
    AllVlansExist();
    var trunk, assign, back := SwitchportMode("trunk"), TrunkAllowedVlans(list), SwitchportMode(p.mode);
    var does, undoes := [trunk, assign], [undo, back];
    var q1 := p.(mode := "trunk");
    var q2 := q1.(allowed := Expand(list));
    TrunkCommands(p, p.mode, list);
    TrunkCommands(q1, p.mode, list);
    RunTwo(p, trunk, assign);
    UndoesOffTrunk(p, p, undo);
    UndoesOffTrunk(p, q1, undo);
    UndoesOffTrunk(p, q2, undo);
    if p.allowed != {} {
      BackFromTwo(p, trunk, assign, undoes, q1, q2);
      PortRestores(c, port, does, undoes);
    } else {
      PortLoses(c, port, does, undoes);
    }
  }

  lemma {:induction false} BackFromTwo(p: Port, a: Command, b: Command, undo: seq<Command>, q1: Port, q2: Port)
    requires ExecPort(p, a) == Some(q1) && PortRun(p, [a, b]) == Some(q2)
    requires PortRun(p, undo) == Some(p) && PortRun(q1, undo) == Some(p) && PortRun(q2, undo) == Some(p)
    ensures forall k :: 0 <= k <= 2 ==> BackFrom(p, [a, b], undo, k)
  {
    hide PortRun, ExecPort;
    var does := [a, b];
    PortRunOfNone(p, does);
    RunTwo(p, a, b);
    assert does[..1] == [a] && does[..2] == does;
  }

  lemma {:induction false} UndoesOffTrunk(p: Port, q: Port, undo: Command)
    requires p.mode != "trunk" && ModeCommand(p.mode).Some?
    requires SetsAllowed(undo, AllowedAfter(p))
    ensures PortRun(q, [undo, SwitchportMode(p.mode)]) == Some(q.(allowed := AllowedAfter(p), mode := p.mode))
  {
    hide PortRun, ExecPort, ModeCommand, AllowedAfter;
    RunTwo(q, undo, SwitchportMode(p.mode));
    TrunkCommands(q.(allowed := AllowedAfter(p)), p.mode, "");
  }

  lemma {:induction false} Negotiating(c: Config, port: string, p: Port, list: string, undo: Command)
    requires NormalizeInterfaceName(port) in c.ports && c.ports[NormalizeInterfaceName(port)] == p
    requires p.mode != "trunk" && ModeCommand(p.mode).Some? && p.encapsulation == Negotiate && IsPortCommand(undo)
    requires SetsAllowed(undo, AllowedAfter(p))
    ensures Loses(c, RenderedChange(
              [InterfaceCmd(port)] + [TrunkEncapsulationDot1q, SwitchportMode("trunk"), TrunkAllowedVlans(list)],
              [InterfaceCmd(port)] + [undo, SwitchportMode(p.mode)]))
  {
    hide Loses, NormalizeInterfaceName, Expand, PortRun, ExecPort, ModeCommand, AllowedAfter, SetsAllowed;
    var does := [TrunkEncapsulationDot1q, SwitchportMode("trunk"), TrunkAllowedVlans(list)];
    var q1 := p.(encapsulation := Dot1q);
    var q2 := q1.(mode := "trunk", allowed := Expand(list));
    TrunkCommands(p, p.mode, list);
    TrunkCommands(q1, p.mode, list);
    TrunkCommands(q1.(mode := "trunk"), p.mode, list);
    RunThree(p, TrunkEncapsulationDot1q, SwitchportMode("trunk"), TrunkAllowedVlans(list));
    RunTwo(q1, SwitchportMode("trunk"), TrunkAllowedVlans(list));
    UndoesOffTrunk(p, q2, undo);
    PortLoses(c, port, does, [undo, SwitchportMode(p.mode)]);
  }

  // ---- VLANs, host name, name look-up ----

  lemma {:induction false} VlanNameRestores(c: Config, vlan: string, name: string, context: ChangeContext)
    requires ConfigOk(c) && ReportsVlans(c, context.vlans)
    ensures Restores(c, RenderChange(VlanNameStep(vlan, name), context).value)
  {
    hide Restores, IntOf;
    var id := IntOf(vlan);
    VlanKnown(c, context.vlans, id);
    if id in c.vlans {
      StripOfWord(c.vlans[id]);
      RenameRestores(c, id, name);
    } else {
      CreateRestores(c, id, name);
    }
  }

  lemma {:induction false} RenameRestores(c: Config, id: nat, name: string)
    requires id in c.vlans && Strip(c.vlans[id]) == c.vlans[id]
    ensures Restores(c, RenderedChange([VlanCmd(id), VlanNameCmd(name)], [VlanCmd(id), VlanNameCmd(c.vlans[id])]))
  {
    hide Restores, RestoresFrom, Run, Strip, DefaultVlanName;
    var r := RenderedChange([VlanCmd(id), VlanNameCmd(name)], [VlanCmd(id), VlanNameCmd(c.vlans[id])]);
    var named := c.vlans[id := Strip(name)];
    assert c.vlans[id := c.vlans[id]] == c.vlans && named[id := c.vlans[id]] == c.vlans;
    NothingPushed(c);
    RunVlan(c, id, name);
    RunVlan(c, id, c.vlans[id]);
    RunVlan(c.(vlans := named), id, c.vlans[id]);
    From(c, r, 0, [], c);
    From(c, r, 1, [VlanCmd(id)], c);
    From(c, r, 2, [VlanCmd(id), VlanNameCmd(name)], c.(vlans := named));
    PrefixesOfTwo(c, r);
  }

  lemma {:induction false} CreateRestores(c: Config, id: nat, name: string)
    requires id !in c.vlans
    ensures Restores(c, RenderedChange([VlanCmd(id), VlanNameCmd(name)], [NoVlan(id)]))
  {
    hide Restores, RestoresFrom, Run, Strip, DefaultVlanName;
    var r := RenderedChange([VlanCmd(id), VlanNameCmd(name)], [NoVlan(id)]);
    var entered, named := c.vlans[id := DefaultVlanName(id)], c.vlans[id := Strip(name)];
    assert c.vlans - {id} == c.vlans && entered - {id} == c.vlans && named - {id} == c.vlans;
    NothingPushed(c);
    RunVlan(c, id, name);
    RunNoVlan(c, id);
    RunNoVlan(c.(vlans := entered), id);
    RunNoVlan(c.(vlans := named), id);
    From(c, r, 0, [], c);
    From(c, r, 1, [VlanCmd(id)], c.(vlans := entered));
    From(c, r, 2, [VlanCmd(id), VlanNameCmd(name)], c.(vlans := named));
    PrefixesOfTwo(c, r);
  }

  lemma {:induction false} VlanKnown(c: Config, vlans: seq<VlanFacts>, id: nat)
    requires ReportsVlans(c, vlans)
    ensures var r := VlanOf(vlans, id);
            (r.Some? <==> id in c.vlans) && (r.Some? ==> r.value.name == c.vlans[id])
  {
    var r := VlanOf(vlans, id);
    if r.Some? {
      var i :| 0 <= i < |vlans| && vlans[i] == r.value;
    }
  }

  lemma {:induction false} RunVlan(c: Config, id: nat, name: string)
    ensures Run(c, [VlanCmd(id), VlanNameCmd(name)]) == Outcome(c.(vlans := c.vlans[id := Strip(name)]), true)
    ensures Run(c, [VlanCmd(id)])
         == Outcome(c.(vlans := if id in c.vlans then c.vlans else c.vlans[id := DefaultVlanName(id)]), true)
  {
    hide Strip, DefaultVlanName;
    var entered := c.(vlans := if id in c.vlans then c.vlans else c.vlans[id := DefaultVlanName(id)]);
    assert [VlanCmd(id), VlanNameCmd(name)][1..] == [VlanNameCmd(name)] && [VlanCmd(id)][1..] == [];
    RunName(entered, id, name);
    assert entered.vlans[id := Strip(name)] == c.vlans[id := Strip(name)];
    EndOfBatch(State(entered, InVlan(id)));
  }

  lemma {:induction false} RunName(c: Config, id: nat, name: string)
    ensures RunFrom(State(c, InVlan(id)), [VlanNameCmd(name)]) == Outcome(c.(vlans := c.vlans[id := Strip(name)]), true)
  {
    hide Strip;
    assert [VlanNameCmd(name)][1..] == [];
    EndOfBatch(State(c.(vlans := c.vlans[id := Strip(name)]), InVlan(id)));
  }

  lemma {:induction false} RunNoVlan(c: Config, id: nat)
    ensures Run(c, [NoVlan(id)]) == Outcome(c.(vlans := c.vlans - {id}), true)
  {
    assert [NoVlan(id)][1..] == [];
    EndOfBatch(State(c.(vlans := c.vlans - {id}), Global));
  }

  lemma {:induction false} HostnameRestores(c: Config, name: string, context: ChangeContext)
    requires ConfigOk(c) && context.hostname == Some(c.hostname) && c.hostname != ""
    ensures Restores(c, RenderChange(HostnameStep(name), context).value)
  {
    hide Restores, Run, Strip;
    var r := RenderChange(HostnameStep(name), context).value;
    RunHostname(c, name);
    RunHostname(c, c.hostname);
    RunHostname(c.(hostname := Strip(name)), c.hostname);
    NothingPushed(c);
    From(c, r, 0, [], c);
    From(c, r, 1, [HostnameCmd(name)], c.(hostname := Strip(name)));
    PrefixesOfOne(c, r);
  }

  lemma {:induction false} RunHostname(c: Config, name: string)
    ensures Run(c, [HostnameCmd(name)]) == Outcome(c.(hostname := Strip(name)), true)
  {
    hide Strip;
    assert [HostnameCmd(name)][1..] == [];
    EndOfBatch(State(c.(hostname := Strip(name)), Global));
  }

  lemma {:induction false} RunLookup(c: Config, on: bool)
    ensures Run(c, [Lookup(on)]) == Outcome(c.(domainLookup := on), true)
  {
    assert [Lookup(on)][1..] == [];
    EndOfBatch(State(c.(domainLookup := on), Global));
  }

  lemma {:induction false} DomainLookupRestores(c: Config, value: string, context: ChangeContext)
    requires context.domainLookup == Some(c.domainLookup)
    ensures Restores(c, RenderChange(DomainLookupStep(value), context).value)
  {
    hide Restores, Run;
    var r := RenderChange(DomainLookupStep(value), context).value;
    RunLookup(c, value == "on");
    RunLookup(c, c.domainLookup);
    RunLookup(c.(domainLookup := value == "on"), c.domainLookup);
    NothingPushed(c);
    From(c, r, 0, [], c);
    From(c, r, 1, [Lookup(value == "on")], c.(domainLookup := value == "on"));
    PrefixesOfOne(c, r);
  }

  // ---- Static routes ----

  function WithRoutes(c: Config, routes: set<Line>): Config {
    c.(routes := routes)
  }

  lemma {:induction false} RunRoute(c: Config, line: string)
    ensures Run(c, [IpRoute(line)]) == Outcome(WithRoutes(c, c.routes + {Words(line)}), true)
    ensures Run(c, [NoIpRoute(line)]) == Outcome(WithRoutes(c, c.routes - {Words(line)}), true)
  {
    hide Words;
    assert [IpRoute(line)][1..] == [] && [NoIpRoute(line)][1..] == [];
    EndOfBatch(State(WithRoutes(c, c.routes + {Words(line)}), Global));
    EndOfBatch(State(WithRoutes(c, c.routes - {Words(line)}), Global));
  }

  lemma {:induction false} RunRouteSwap(c: Config, old': string, new': string)
    ensures Run(c, [NoIpRoute(old'), IpRoute(new')])
         == Outcome(WithRoutes(c, c.routes - {Words(old')} + {Words(new')}), true)
  {
    hide Words;
    var between := WithRoutes(c, c.routes - {Words(old')});
    assert [NoIpRoute(old'), IpRoute(new')][1..] == [IpRoute(new')];
    RunRoute(between, new');
  }

  /** The line a change would add is not configured yet, or is the very line it replaces. */
  predicate RouteRestorable(c: Config, destination: string, mask: string, nextHop: string, context: ChangeContext) {
    var existing := StaticRouteOf(context.staticRoutes, destination, mask);
    var added := Words(AddedRoute(destination, mask, nextHop));
    added !in c.routes || (existing.Some? && added == Words(existing.value.AsCommand()))
  }

  lemma {:induction false} StaticRouteRestores(c: Config, destination: string, mask: string, nextHop: string,
                                               context: ChangeContext)
    requires ConfigOk(c) && ReportsRoutes(c, context.staticRoutes)
    ensures var r := RenderChange(StaticRouteStep(destination, mask, nextHop), context).value;
            if RouteRestorable(c, destination, mask, nextHop, context) then Restores(c, r) else Loses(c, r)
  {
    hide Restores, Run, Words, AddedRoute, ReportsRoutes, ConfigOk;
    var r := RenderChange(StaticRouteStep(destination, mask, nextHop), context).value;
    var added, a := AddedRoute(destination, mask, nextHop), Words(AddedRoute(destination, mask, nextHop));
    NothingPushed(c);
    match StaticRouteOf(context.staticRoutes, destination, mask)
    case None =>
      RunRoute(c, added);
      RunRoute(WithRoutes(c, c.routes + {a}), added);
      if a !in c.routes {
        assert c.routes - {a} == c.routes && c.routes + {a} - {a} == c.routes;
        From(c, r, 0, [], c);
        From(c, r, 1, [IpRoute(added)], WithRoutes(c, c.routes + {a}));
        PrefixesOfOne(c, r);
      }
    case Some(existing) =>
      RouteListed(c, context.staticRoutes, existing);
      SwapRestores(c, existing.AsCommand(), added);
  }

  lemma {:induction false} SwapRestores(c: Config, old': string, new': string)
    requires Words(old') in c.routes
    ensures var r := RenderedChange([NoIpRoute(old'), IpRoute(new')], [NoIpRoute(new'), IpRoute(old')]);
            if Words(new') !in c.routes || Words(new') == Words(old') then Restores(c, r) else Loses(c, r)
  {
    hide Restores, Run, Words;
    var o, n := Words(old'), Words(new');
    var r := RenderedChange([NoIpRoute(old'), IpRoute(new')], [NoIpRoute(new'), IpRoute(old')]);
    NothingPushed(c);
    RunRoute(c, old');
    RunRouteSwap(c, old', new');
    RunRouteSwap(c, new', old');
    RunRouteSwap(WithRoutes(c, c.routes - {o}), new', old');
    RunRouteSwap(WithRoutes(c, c.routes - {o} + {n}), new', old');
    if n !in c.routes || n == o {
      assert c.routes - {n} + {o} == c.routes;
      assert c.routes - {o} - {n} + {o} == c.routes;
      assert c.routes - {o} + {n} - {n} + {o} == c.routes;
      From(c, r, 0, [], c);
      From(c, r, 1, [NoIpRoute(old')], WithRoutes(c, c.routes - {o}));
      From(c, r, 2, [NoIpRoute(old'), IpRoute(new')], WithRoutes(c, c.routes - {o} + {n}));
      PrefixesOfTwo(c, r);
    } else {
      assert n !in c.routes - {o} + {n} - {n} + {o};
    }
  }
}
