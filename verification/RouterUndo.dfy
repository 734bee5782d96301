/** Undoing changes inside router blocks: from wherever the push broke off, the inverse commands restore the
    configuration; for a BGP neighbour exactly when its remote AS is all the peer has. */
module RouterUndo {
  import opened Wrappers
  import opened Text
  import opened VlanList
  import opened Facts
  import opened Device
  import opened CiscoDriver
  import opened RouterBlocks
  import opened Undo

  lemma {:induction false} NetworkLine(value: string)
    ensures var l := ["network"] + Key(value); !IsVersion(l) && !(|l| >= 2 && IsRemoteAs(l, l[1]))
  {
  }

  /** Starting a process is undone by removing it. */
  lemma {:induction false} StartRestores(c: Config, process: string, text: string)
    requires Key(process) !in c.routers && MayEnter(c, Key(process)) && AddLine({}, Key(text)).Some?
    ensures Restores(c, RenderedChange([RouterCmd(process), Statement(text)], [NoRouter(process)]))
  {
    hide Key, AddLine, Run, Restores, RestoresFrom;
    var r := RenderedChange([RouterCmd(process), Statement(text)], [NoRouter(process)]);
    var key := Key(process);
    var lines := AddLine({}, Key(text)).value;
    NothingPushed(c);
    RunEnterOnly(c, process);
    RunAdd(c, process, text);
    RunRemove(c, process);
    RunRemove(WithLines(c, key, {}), process);
    RunRemove(WithLines(c, key, lines), process);
    RemoveRestores(c, key, {});
    RemoveRestores(c, key, lines);
    From(c, r, 0, [], c);
    From(c, r, 1, [RouterCmd(process)], WithLines(c, key, {}));
    From(c, r, 2, [RouterCmd(process), Statement(text)], WithLines(c, key, lines));
    PrefixesOfTwo(c, r);
  }

  /** Two commands inside an existing block, undone by two. */
  lemma {:induction false} BlockRestores(c: Config, process: string, does: Command, undo: Command,
                                         after: set<Line>)
    requires Key(process) in c.routers && MayEnter(c, Key(process))
    requires var key, lines := Key(process), c.routers[Key(process)];
             && Run(c, [RouterCmd(process), does]) == Outcome(WithLines(c, key, after), true)
             && Run(c, [RouterCmd(process), undo]) == Outcome(c, true)
             && Run(WithLines(c, key, after), [RouterCmd(process), undo]) == Outcome(c, true)
    ensures Restores(c, RenderedChange([RouterCmd(process), does], [RouterCmd(process), undo]))
  {
    hide Key, Run, Restores, RestoresFrom;
    var r := RenderedChange([RouterCmd(process), does], [RouterCmd(process), undo]);
    var key := Key(process);
    NothingPushed(c);
    RunEnterOnly(c, process);
    WithLinesTwice(c, key, after, after);
    From(c, r, 0, [], c);
    From(c, r, 1, [RouterCmd(process)], c);
    From(c, r, 2, [RouterCmd(process), does], WithLines(c, key, after));
    PrefixesOfTwo(c, r);
  }

  lemma {:induction false} RouterNetworkRestores(c: Config, process: string, value: string, context: ChangeContext)
    requires ConfigOk(c) && ReportsRouters(c, context.routingProcesses)
    requires Accepts(RouterNetworkStep(process, value), context)
    ensures Restores(c, RenderChange(RouterNetworkStep(process, value), context).value)
  {
    hide Key, Run, Restores, AddLine, DropLine, Normalize, Lists, ConfigOk, IsProcess, IsNetwork, RouterOk, LineOk;
    var name, statement := Strip(process), NetworkStatement(value);
    var key, l := Key(name), ["network"] + Key(value);
    KeyOfNetwork(value);
    PlainProcess(c, process);
    ProcessFound(c, context.routingProcesses, name);
    PlainLine(LinesOf(c, key), value);
    PlainLine({}, value);
    match ProcessOf(context.routingProcesses, name)
    case None => StartRestores(c, name, statement);
    case Some(existing) =>
      var lines := c.routers[key];
      HasStatementIsIn(existing, lines, statement);
      RunAdd(c, name, statement);
      RunDrop(c, name, statement);
      var after := lines + {l};
      WithLinesTwice(c, key, after, lines);
      RunDrop(WithLines(c, key, after), name, statement);
      PlainLine(after, value);
      assert lines - {l} == lines && after - {l} == lines;
      BlockRestores(c, name, Statement(statement), NoStatement(statement), after);
  }

  lemma {:induction false} RouterNetworkRemoveRestores(c: Config, process: string, value: string,
                                                       context: ChangeContext)
    requires ConfigOk(c) && ReportsRouters(c, context.routingProcesses)
    requires Accepts(RouterNetworkRemoveStep(process, value), context)
    ensures Restores(c, RenderChange(RouterNetworkRemoveStep(process, value), context).value)
  {
    hide Key, Run, Restores, AddLine, DropLine, Normalize, Lists, ConfigOk, IsProcess, IsNetwork, RouterOk, LineOk;
    var name, statement := Strip(process), NetworkStatement(value);
    var key, l := Key(name), ["network"] + Key(value);
    KeyOfNetwork(value);
    PlainProcess(c, process);
    ProcessFound(c, context.routingProcesses, name);
    var existing := ProcessOf(context.routingProcesses, name).value;
    var lines := c.routers[key];
    HasStatementIsIn(existing, lines, statement);
    PlainLine(lines, value);
    RunAdd(c, name, statement);
    RunDrop(c, name, statement);
    var after := lines - {l};
    PlainLine(after, value);
    WithLinesTwice(c, key, after, lines);
    RunAdd(WithLines(c, key, after), name, statement);
    assert lines + {l} == lines && after + {l} == lines;
    BlockRestores(c, name, NoStatement(statement), Statement(statement), after);
  }

  /** A network statement is an ordinary line: added as such, withdrawn as such. */
  lemma {:induction false} PlainLine(lines: set<Line>, value: string)
    ensures var l := ["network"] + Key(value); AddLine(lines, l) == Some(lines + {l}) && DropLine(lines, l) == lines - {l}
  {
    NetworkLine(value);
  }

  /** RIP, OSPF and EIGRP processes are entered freely. */
  lemma {:induction false} PlainProcess(c: Config, process: string)
    requires IsProcess(process)
    ensures MayEnter(c, Key(Strip(process))) && Key(Strip(process)) == Key(process)
  {
    hide Key, IsNumber, Lower;
    var s := Lower(Strip(process));
    KeyOfStrip(process);
    KeyOfLower(Strip(process));
    ProtocolWords();
    if s == "rip" {
      KeyOfWord("rip");
    } else if "ospf " <= s {
      assert s == "ospf" + " " + s[5..];
      KeyPrefixed("ospf", s[5..]);
    } else {
      assert s == "eigrp" + " " + s[6..];
      KeyPrefixed("eigrp", s[6..]);
    }
  }

  lemma {:induction false} ProtocolWords()
    ensures forall w :: w in ["rip", "ospf", "eigrp", "bgp"] ==> IsWord(w) && Lower(w) == w
  {
    LowerOfPlain("rip");
    LowerOfPlain("ospf");
    LowerOfPlain("eigrp");
    LowerOfPlain("bgp");
  }

  // ---- RIP version ----

  function NonVersions(lines: set<Line>): set<Line> {
    set l | l in lines && !IsVersion(l)
  }

  lemma {:induction false} VersionLine(lines: set<Line>, l: Line)
    requires IsVersion(l)
    ensures AddLine(lines, l) == Some(NonVersions(lines) + {l}) && NonVersions(NonVersions(lines) + {l}) == NonVersions(lines)
  {
  }

  lemma {:induction false} RipVersionRestores(c: Config, process: string, value: string, context: ChangeContext)
    requires ConfigOk(c) && ReportsRouters(c, context.routingProcesses)
    requires Accepts(RipVersionStep(process, value), context)
    ensures Restores(c, RenderChange(RipVersionStep(process, value), context).value)
  {
    hide Key, Run, Restores, AddLine, DropLine, Normalize, Lists, RouterOk, LineOk, NonVersions, Join;
    var v := Strip(value);
    var text, l := "version " + v, ["version", v];
    var key := Key("rip");
    ProtocolWords();
    KeyOfWord("rip");
    KeyOfVersion(v);
    VersionPrefix();
    ProcessFound(c, context.routingProcesses, "rip");
    match ProcessOf(context.routingProcesses, "rip")
    case None =>
      VersionLine({}, l);
      StartRestores(c, "rip", text);
    case Some(existing) =>
      var lines := c.routers[key];
      var after := NonVersions(lines) + {l};
      FindVersion(existing, lines);
      VersionLine(lines, l);
      RunAdd(c, "rip", text);
      WithLinesTwice(c, key, after, lines);
      match existing.FindStatement("version ")
      case Some(previous) =>
        VersionBack(c, lines, l, previous);
        BlockRestores(c, "rip", Statement(text), Statement(previous), after);
      case None =>
        VersionGone(c, lines, l);
        BlockRestores(c, "rip", Statement(text), NoStatement("version"), after);
  }

  /** Putting the old version line back, whether or not the new one went in. */
  lemma {:induction false} VersionBack(c: Config, lines: set<Line>, l: Line, previous: string)
    requires RouterOk(lines) && Key("rip") in c.routers && c.routers[Key("rip")] == lines
    requires IsVersion(l) && Key(previous) in lines && IsVersion(Key(previous)) && Key("rip") == ["rip"]
    ensures Run(c, [RouterCmd("rip"), Statement(previous)]) == Outcome(c, true)
    ensures Run(WithLines(c, Key("rip"), NonVersions(lines) + {l}), [RouterCmd("rip"), Statement(previous)])
         == Outcome(c, true)
  {
    hide Key, Run, AddLine, LineOk;
    var key, p := Key("rip"), Key(previous);
    var after := NonVersions(lines) + {l};
    VersionLine(lines, p);
    VersionLine(lines, l);
    VersionLine(after, p);
    WithLinesTwice(c, key, after, lines);
    RunAdd(c, "rip", previous);
    RunAdd(WithLines(c, key, after), "rip", previous);
    assert NonVersions(lines) + {p} == lines;
  }

  lemma {:induction false} VersionGone(c: Config, lines: set<Line>, l: Line)
    requires Key("rip") in c.routers && c.routers[Key("rip")] == lines && Key("rip") == ["rip"]
    requires IsVersion(l) && (forall o :: o in lines ==> !IsVersion(o)) && Key("version") == ["version"]
    ensures Run(c, [RouterCmd("rip"), NoStatement("version")]) == Outcome(c, true)
    ensures Run(WithLines(c, Key("rip"), NonVersions(lines) + {l}), [RouterCmd("rip"), NoStatement("version")])
         == Outcome(c, true)
  {
    hide Key, Run;
    var key := Key("rip");
    var after := NonVersions(lines) + {l};
    VersionLine(lines, l);
    WithLinesTwice(c, key, after, lines);
    RunDrop(c, "rip", "version");
    RunDrop(WithLines(c, key, after), "rip", "version");
    assert NonVersions(lines) == lines && DropLine(lines, ["version"]) == lines && DropLine(after, ["version"]) == lines;
  }

  // ---- BGP neighbours ----

  /** Every line of the peer is its remote AS. */
  ghost predicate PeerIsBare(lines: set<Line>, peer: string) {
    forall l :: l in lines && OfPeer(l, peer) ==> IsRemoteAs(l, peer)
  }

  function WithoutPeer(lines: set<Line>, peer: string): set<Line> {
    set l | l in lines && !OfPeer(l, peer)
  }

  /** The device runs no other BGP process than the one the change names. */
  lemma {:induction false} BgpMayEnter(c: Config, process: string, processes: seq<RoutingProcessFacts>)
    requires ConfigOk(c) && ReportsRouters(c, processes)
    requires var running := RunningBgp(processes);
             running.Some? ==> Lower(running.value.name) == Lower(Strip(process))
    ensures MayEnter(c, Key(process))
  {
    hide Key, Lists, Lower, IsNumber;
    forall k | k in c.routers && IsBgp(k) ensures k == Key(process) {
      var i :| 0 <= i < |processes| && Key(processes[i].name) == k;
      RunningExists(processes, i);
      var running := RunningBgp(processes).value;
      KeyOfLower(running.name);
      KeyOfStrip(process);
      KeyOfLower(Strip(process));
      BgpName(running.name);
    }
  }

  lemma {:induction false} RunningExists(processes: seq<RoutingProcessFacts>, i: nat)
    requires i < |processes| && NamedPlainly(processes[i].name)
    ensures RunningBgp(processes).Some? && NamedPlainly(RunningBgp(processes).value.name)
  {
    if !NamedPlainly(processes[0].name) {
      RunningExists(processes[1..], i - 1);
    }
  }

  lemma {:induction false} BgpName(name: string)
    requires NamedPlainly(name)
    ensures IsBgp(Key(name))
  {
    hide Key, IsNumber, Lower;
    var s := Lower(name);
    KeyOfLower(name);
    ProtocolWords();
    assert s == "bgp" + " " + s[4..];
    KeyPrefixed("bgp", s[4..]);
  }

  lemma {:induction false} PeerLine(lines: set<Line>, l: Line, peer: string)
    requires IsRemoteAs(l, peer)
    requires forall o :: o in lines ==> !IsRemoteAs(o, peer)
    ensures AddLine(lines, l) == Some(lines + {l})
  {
  }

  lemma {:induction false} FirstPeerLine(l: Line, peer: string)
    requires IsRemoteAs(l, peer)
    ensures AddLine({}, l).Some?
  {
    PeerLine({}, l, peer);
  }

  lemma {:induction false} DropsPeer(lines: set<Line>, peer: string)
    ensures DropLine(lines, ["neighbor", peer]) == WithoutPeer(lines, peer)
    ensures forall o :: o in WithoutPeer(lines, peer) ==> !IsRemoteAs(o, peer)
  {
  }

  lemma {:induction false} PeerAlone(lines: set<Line>, l: Line, peer: string)
    requires OfPeer(l, peer)
    ensures WithoutPeer(lines + {l}, peer) == WithoutPeer(lines, peer)
    ensures WithoutPeer(WithoutPeer(lines, peer), peer) == WithoutPeer(lines, peer)
    ensures WithoutPeer(WithoutPeer(lines, peer) + {l}, peer) == WithoutPeer(lines, peer)
  {
  }

  /** Introducing a peer is undone by withdrawing it: exactly when it had no lines. */
  lemma {:induction false} NewPeer(c: Config, process: string, text: string, peer: string)
    requires Key(process) in c.routers && MayEnter(c, Key(process)) && IsRemoteAs(Key(text), peer)
    requires Key("neighbor " + peer) == ["neighbor", peer]
    requires forall o :: o in c.routers[Key(process)] ==> !IsRemoteAs(o, peer)
    ensures var r := RenderedChange([RouterCmd(process), Statement(text)],
                                    [RouterCmd(process), NoStatement("neighbor " + peer)]);
            if PeerIsBare(c.routers[Key(process)], peer) then Restores(c, r) else Loses(c, r)
  {
    hide Key, Run, AddLine, DropLine, Restores;
    var key, lines, l := Key(process), c.routers[Key(process)], Key(text);
    var after, without := lines + {l}, WithoutPeer(lines, peer);
    PeerLine(lines, l, peer);
    RunAdd(c, process, text);
    DropsPeer(lines, peer);
    DropsPeer(after, peer);
    PeerAlone(lines, l, peer);
    WithLinesTwice(c, key, after, without);
    RunDrop(c, process, "neighbor " + peer);
    RunDrop(WithLines(c, key, after), process, "neighbor " + peer);
    if PeerIsBare(lines, peer) {
      assert without == lines;
      BlockRestores(c, process, Statement(text), NoStatement("neighbor " + peer), after);
    } else {
      var o :| o in lines && OfPeer(o, peer);
      assert o !in without;
      assert WithLines(c, key, without).routers[key] != c.routers[key];
    }
  }

  /** Withdrawing the peer and putting its old remote AS back, from whatever lines of the peer there are. */
  lemma {:induction false} PeerBack(c: Config, process: string, from: set<Line>, peer: string, previous: string)
    requires Key(process) in c.routers && MayEnter(c, Key(process)) && IsRemoteAs(Key(previous), peer)
    requires Key("neighbor " + peer) == ["neighbor", peer]
    requires WithoutPeer(from, peer) == WithoutPeer(c.routers[Key(process)], peer)
    ensures var key, lines := Key(process), c.routers[Key(process)];
            Run(WithLines(c, key, from), [RouterCmd(process), NoStatement("neighbor " + peer), Statement(previous)])
            == Outcome(WithLines(c, key, WithoutPeer(lines, peer) + {Key(previous)}), true)
  {
    hide Key, Run, AddLine, DropLine;
    var key, lines := Key(process), c.routers[Key(process)];
    var without := WithoutPeer(lines, peer);
    DropsPeer(from, peer);
    DropsPeer(lines, peer);
    PeerLine(without, Key(previous), peer);
    WithLinesTwice(c, key, from, without + {Key(previous)});
    RunDropAdd(WithLines(c, key, from), process, "neighbor " + peer, previous);
  }

  /** Re-homing a peer is undone exactly when its remote AS was all it had. */
  lemma {:induction false} MovedPeer(c: Config, process: string, text: string, peer: string, previous: string)
    requires Key(process) in c.routers && MayEnter(c, Key(process)) && RouterOk(c.routers[Key(process)])
    requires IsRemoteAs(Key(text), peer) && IsRemoteAs(Key(previous), peer)
    requires Key("neighbor " + peer) == ["neighbor", peer] && Key(previous) in c.routers[Key(process)]
    ensures var withdraw := NoStatement("neighbor " + peer);
            var r := RenderedChange([RouterCmd(process), withdraw, Statement(text)],
                                    [RouterCmd(process), withdraw, Statement(previous)]);
            if PeerIsBare(c.routers[Key(process)], peer) then Restores(c, r) else Loses(c, r)
  {
    hide Key, Run, AddLine, DropLine, Restores, RestoresFrom, RouterOk, WithoutPeer;
    var key, lines, l, p := Key(process), c.routers[Key(process)], Key(text), Key(previous);
    var withdraw := NoStatement("neighbor " + peer);
    var r := RenderedChange([RouterCmd(process), withdraw, Statement(text)],
                            [RouterCmd(process), withdraw, Statement(previous)]);
    var without := WithoutPeer(lines, peer);
    PeerAlone(lines, l, peer);
    WithLinesTwice(c, key, lines, lines);
    NothingPushed(c);
    RunEnterOnly(c, process);
    DropsPeer(lines, peer);
    RunDrop(c, process, "neighbor " + peer);
    PeerBack(c, process, lines, peer, text);
    PeerBack(c, process, lines, peer, previous);
    PeerBack(c, process, without, peer, previous);
    PeerBack(c, process, without + {l}, peer, previous);
    BarePeer(lines, peer, p);
    if PeerIsBare(lines, peer) {
      From(c, r, 0, [], c);
      From(c, r, 1, [RouterCmd(process)], c);
      From(c, r, 2, [RouterCmd(process), withdraw], WithLines(c, key, without));
      From(c, r, 3, [RouterCmd(process), withdraw, Statement(text)], WithLines(c, key, without + {l}));
      PrefixesOfThree(c, r);
    } else {
      assert WithLines(c, key, without + {p}).routers[key] != c.routers[key];
    }
  }

  lemma {:induction false} BarePeer(lines: set<Line>, peer: string, p: Line)
    requires RouterOk(lines) && p in lines && IsRemoteAs(p, peer)
    ensures WithoutPeer(lines, peer) + {p} == lines <==> PeerIsBare(lines, peer)
  {
    if WithoutPeer(lines, peer) + {p} == lines {
      forall l | l in lines && OfPeer(l, peer) ensures IsRemoteAs(l, peer) {
        assert l in WithoutPeer(lines, peer) + {p};
      }
    }
    if PeerIsBare(lines, peer) {
      forall l | l in lines ensures l in WithoutPeer(lines, peer) + {p} {
      }
    }
  }

  ghost predicate BgpRestorable(c: Config, process: string, value: string) {
    Key(process) in c.routers ==> PeerIsBare(c.routers[Key(process)], PeerAddress(value))
  }

  lemma {:induction false} BgpNeighborRestores(c: Config, process: string, value: string, context: ChangeContext)
    requires ConfigOk(c) && ReportsRouters(c, context.routingProcesses)
    requires Accepts(BgpNeighborStep(process, value), context)
    ensures var r := RenderChange(BgpNeighborStep(process, value), context).value;
            if BgpRestorable(c, process, value) then Restores(c, r) else Loses(c, r)
  {
    hide Key, Run, Restores, Loses, AddLine, DropLine, Normalize, Lists, IsBgpProcess, RouterOk, LineOk, IsRemoteAs;
    hide PeerIsBare, Lower, Strip, Collapse, IsNumber, IsQuad, Join, IsWord, IsBgp;
    var name, peer, statement := Lower(Strip(process)), PeerAddress(value), NeighborStatement(value);
    var key := Key(name);
    KeyOfStrip(process);
    KeyOfLower(Strip(process));
    BgpMayEnter(c, process, context.routingProcesses);
    NeighborValue(value);
    ProcessFound(c, context.routingProcesses, name);
    match ProcessOf(context.routingProcesses, name)
    case None =>
      FirstPeerLine(Key(statement), peer);
      StartRestores(c, name, statement);
    case Some(existing) =>
      FindRemoteAs(existing, c.routers[key], peer);
      match existing.FindStatement("neighbor " + peer + " remote-as ")
      case None => NewPeer(c, name, statement, peer);
      case Some(previous) => MovedPeer(c, name, statement, peer, previous);
  }

  lemma {:induction false} NeighborValue(value: string)
    requires IsBgpNeighbor(value)
    ensures var peer := PeerAddress(value);
            && IsWord(peer) && Lower(peer) == peer && IsRemoteAs(Key(NeighborStatement(value)), peer)
            && Key("neighbor " + peer) == ["neighbor", peer]
  {
    hide Key, IsQuad, IsNumber, IsWord, Lower;
    NeighborWords(value);
    KeyOfNeighbor(value);
    var k := Key(value);
    assert k[0] == PeerAddress(value);
    LowerOfFirst(k);
    PeerTexts(PeerAddress(value));
  }

  lemma {:induction false} LowerOfFirst(k: seq<string>)
    requires |k| > 0 && AllWords(k) && LowerAll(k) == k
    ensures IsWord(k[0]) && Lower(k[0]) == k[0]
  {
    assert LowerAll(k)[0] == Lower(k[0]);
  }
}
