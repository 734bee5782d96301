/** How router statements, as text, act on the lines a device holds. */
module RouterBlocks {
  import opened Wrappers
  import opened Text
  import opened VlanList
  import opened Facts
  import opened Device
  import opened CiscoDriver

  // ---- Words of statements ----

  lemma {:induction false} KeyPrefixed(w: string, rest: string)
    requires IsWord(w) && Lower(w) == w
    ensures Key(w + " " + rest) == [w] + Key(rest)
  {
    assert w + " " + rest == w + [' '] + rest;
    WordsSplit(w, ' ', rest);
    WordsOfWord(w);
    LowerAllCons(w, Words(rest));
  }

  lemma {:induction false} KeyOfCollapse(value: string)
    ensures Key(Collapse(value)) == Key(value)
  {
    WordsOfCollapse(value);
  }

  lemma {:induction false} LowerWord(w: string)
    requires w in ["network", "neighbor", "version", "remote-as"]
    ensures IsWord(w) && Lower(w) == w
  {
    LowerOfPlain(w);
  }

  lemma {:induction false} KeyOfNetwork(value: string)
    ensures Key(NetworkStatement(value)) == ["network"] + Key(value)
  {
    hide Key, IsWord, Lower, Collapse;
    LowerWord("network");
    KeyPrefixed("network", Collapse(value));
    KeyOfCollapse(value);
    assert NetworkStatement(value) == "network" + " " + Collapse(value);
  }

  lemma {:induction false} KeyOfNeighbor(value: string)
    ensures Key(NeighborStatement(value)) == ["neighbor"] + Key(value)
    ensures Key("neighbor " + Lower(Collapse(value))) == ["neighbor"] + Key(value)
  {
    hide Key, IsWord, Lower, Collapse;
    var rest := Collapse(value);
    LowerWord("neighbor");
    KeyPrefixed("neighbor", rest);
    KeyPrefixed("neighbor", Lower(rest));
    KeyOfCollapse(value);
    KeyOfLower(rest);
    assert NeighborStatement(value) == "neighbor" + " " + rest;
    assert "neighbor " + Lower(rest) == "neighbor" + " " + Lower(rest);
  }

  lemma {:induction false} KeyOfLower(s: string)
    ensures Key(Lower(s)) == Key(s)
  {
    WordsOfLower(s);
    LowerAllTwice(Words(s));
  }

  lemma {:induction false} KeyOfStrip(s: string)
    ensures Key(Strip(s)) == Key(s)
  {
    WordsOfStrip(s);
  }

  lemma {:induction false} KeyOfWord(w: string)
    requires IsWord(w) && Lower(w) == w
    ensures Key(w) == [w]
  {
    WordsOfWord(w);
  }

  lemma {:induction false} KeyOfNothing()
    ensures Key("") == []
  {
  }

  lemma {:induction false} JoinOfTwo(a: string, b: string)
    ensures Join([a, b]) == a + " " + b && Join([a]) == a
  {
    assert [a, b][1..] == [b];
  }

  lemma {:induction false} KeyOfVersion(v: string)
    requires v == "1" || v == "2"
    ensures Key("version " + v) == ["version", v] && Normalize("version " + v) == "version " + v
  {
    hide Key, Normalize, Join, Lower, IsWord;
    LowerWord("version");
    DigitWord(v);
    KeyOfWord(v);
    KeyPrefixed("version", v);
    assert "version" + " " + v == "version " + v;
    KeyIsWords("version " + v);
    JoinOfTwo("version", v);
  }

  lemma {:induction false} DigitWord(v: string)
    requires v == "1" || v == "2"
    ensures IsWord(v) && Lower(v) == v
  {
    LowerOfPlain(v);
  }

  lemma {:induction false} VersionPrefix()
    ensures Key("version ") == ["version"] == Key("version") && Normalize("version ") == Join([] + ["version"])
  {
    hide Key, Normalize, Join, Lower, IsWord;
    LowerWord("version");
    KeyOfWord("version");
    KeyOfNothing();
    KeyPrefixed("version", "");
    assert "version" + " " + "" == "version ";
    KeyIsWords("version ");
    assert ["version"] + [] == ["version"] == [] + ["version"];
  }

  /** The words of a validated neighbour value. */
  lemma {:induction false} NeighborWords(value: string)
    requires IsBgpNeighbor(value)
    ensures var k := Key(value);
            |k| == 3 && AllWords(k) && LowerAll(k) == k && k[0] == PeerAddress(value) && k[1] == "remote-as"
  {
    KeyIsWords(value);
    LowerAllTwice(Words(value));
  }

  lemma {:induction false} PeerTexts(peer: string)
    requires IsWord(peer) && Lower(peer) == peer
    ensures Key("neighbor " + peer) == ["neighbor", peer]
    ensures Normalize("neighbor " + peer + " remote-as ") == Join(["neighbor", peer] + ["remote-as"])
  {
    hide Key, Normalize, Join, Lower, IsWord;
    LowerWord("neighbor");
    KeyOfWord(peer);
    KeyPrefixed("neighbor", peer);
    assert "neighbor " + peer == "neighbor" + " " + peer;
    var rest := peer + " " + "remote-as ";
    PeerRest(peer);
    KeyPrefixed("neighbor", rest);
    var all := "neighbor " + peer + " remote-as ";
    assert all == "neighbor" + " " + rest;
    KeyIsWords(all);
    assert ["neighbor"] + [peer, "remote-as"] == ["neighbor", peer] + ["remote-as"];
  }

  lemma {:induction false} PeerRest(peer: string)
    requires IsWord(peer) && Lower(peer) == peer
    ensures Key(peer + " " + "remote-as ") == [peer, "remote-as"]
  {
    hide Key, Lower, IsWord;
    LowerWord("remote-as");
    KeyPrefixed("remote-as", "");
    KeyOfNothing();
    assert "remote-as" + " " + "" == "remote-as ";
    KeyPrefixed(peer, "remote-as ");
    assert ["remote-as"] + [] == ["remote-as"];
  }

  // ---- What the facts say about the lines ----

  lemma {:induction false} ProcessFound(c: Config, processes: seq<RoutingProcessFacts>, name: string)
    requires ReportsRouters(c, processes)
    ensures var r := ProcessOf(processes, name);
            && (r.Some? <==> Key(name) in c.routers)
            && (r.Some? ==> Lists(r.value.statements, c.routers[Key(name)]))
  {
    hide Key, Normalize, Lists;
    var r := ProcessOf(processes, name);
    if r.Some? {
      NormalizeComparesWords(r.value.name, name);
    }
    if Key(name) in c.routers {
      var i :| 0 <= i < |processes| && Key(processes[i].name) == Key(name);
      NormalizeComparesWords(processes[i].name, name);
    }
  }

  lemma {:induction false} HasStatementIsIn(p: RoutingProcessFacts, lines: set<Line>, statement: string)
    requires Lists(p.statements, lines)
    ensures p.HasStatement(statement) <==> Key(statement) in lines
  {
    hide Key, Normalize;
    forall i | 0 <= i < |p.statements|
      ensures Normalize(p.statements[i]) == Normalize(statement) <==> Key(p.statements[i]) == Key(statement)
    {
      NormalizeComparesWords(p.statements[i], statement);
    }
  }

  /** Looking a prefix of whole words up finds a line that starts with them, if there is one. */
  lemma {:induction false} FindByWords(p: RoutingProcessFacts, lines: set<Line>, prefix: string, head: seq<string>,
                                       last: string)
    requires Lists(p.statements, lines) && (forall l :: l in lines ==> LineOk(l))
    requires AllWords(head) && IsWord(last) && Normalize(prefix) == Join(head + [last])
    ensures var r := p.FindStatement(prefix);
            && (r.Some? ==> Key(r.value) in lines && StartsWith(Key(r.value), head, last) && r.value == Join(Key(r.value)))
            && (r.None? ==> forall l :: l in lines ==> !StartsWith(l, head, last))
  {
    hide Key, Normalize, Join, LineOk, IsWord;
    var wanted, r := Normalize(prefix), p.FindStatement(prefix);
    FirstWithPrefixFinds(p.statements, wanted);
    forall i | 0 <= i < |p.statements|
      ensures wanted <= Normalize(p.statements[i]) <==> StartsWith(Key(p.statements[i]), head, last)
    {
      KeyIsWords(p.statements[i]);
      PrefixByWords(head, last, Key(p.statements[i]));
    }
    if r.Some? {
      var i :| 0 <= i < |p.statements| && wanted <= r.value && r.value == Normalize(p.statements[i]);
      KeyIsWords(p.statements[i]);
      KeyOfNormalize(p.statements[i]);
    }
  }

  predicate StartsWith(l: Line, head: seq<string>, last: string) {
    |head| < |l| && l[..|head|] == head && last <= l[|head|]
  }

  /** The version line of a process, if it has one. */
  lemma {:induction false} FindVersion(p: RoutingProcessFacts, lines: set<Line>)
    requires Lists(p.statements, lines) && RouterOk(lines)
    ensures var r := p.FindStatement("version ");
            && (r.Some? ==> Key(r.value) in lines && IsVersion(Key(r.value)) && r.value == Join(Key(r.value)))
            && (r.None? ==> forall l :: l in lines ==> !IsVersion(l))
  {
    hide Key, Lists, LineOk, Normalize, Join, IsWord, Lower;
    VersionPrefix();
    LowerWord("version");
    FindByWords(p, lines, "version ", [], "version");
  }

  /** The remote AS of a peer, if it has one. */
  lemma {:induction false} FindRemoteAs(p: RoutingProcessFacts, lines: set<Line>, peer: string)
    requires Lists(p.statements, lines) && RouterOk(lines) && IsWord(peer) && Lower(peer) == peer
    ensures var r := p.FindStatement("neighbor " + peer + " remote-as ");
            && (r.Some? ==> Key(r.value) in lines && IsRemoteAs(Key(r.value), peer))
            && (r.None? ==> forall l :: l in lines ==> !IsRemoteAs(l, peer))
  {
    hide Key, Lists, LineOk, Normalize, Join, IsWord, Lower, RouterOk, StartsWith;
    PeerTexts(peer);
    LowerWord("neighbor");
    LowerWord("remote-as");
    RouterLinesOk(lines);
    FindByWords(p, lines, "neighbor " + peer + " remote-as ", ["neighbor", peer], "remote-as");
    forall l | l in lines ensures StartsWith(l, ["neighbor", peer], "remote-as") <==> IsRemoteAs(l, peer) {
      RemoteAsWords(lines, l, peer);
    }
  }

  lemma {:induction false} RouterLinesOk(lines: set<Line>)
    requires RouterOk(lines)
    ensures forall l :: l in lines ==> LineOk(l)
  {
  }

  lemma {:induction false} RemoteAsWords(lines: set<Line>, l: Line, peer: string)
    requires RouterOk(lines) && l in lines
    ensures StartsWith(l, ["neighbor", peer], "remote-as") <==> IsRemoteAs(l, peer)
  {
    hide LineOk;
    if |l| >= 2 {
      assert l[..2] == [l[0], l[1]];
      HeadOfTwo(l[0], l[1], peer);
    }
  }

  lemma {:induction false} HeadOfTwo(a: string, b: string, peer: string)
    ensures [a, b] == ["neighbor", peer] <==> a == "neighbor" && b == peer
  {
    if [a, b] == ["neighbor", peer] {
      assert [a, b][0] == a && [a, b][1] == b;
    }
  }

  // ---- Running statements inside a block ----

  function LinesOf(c: Config, key: Line): set<Line> {
    if key in c.routers then c.routers[key] else {}
  }

  function WithLines(c: Config, key: Line, lines: set<Line>): Config {
    c.(routers := c.routers[key := lines])
  }

  /** The device would let this process be configured. */
  ghost predicate MayEnter(c: Config, key: Line) {
    IsBgp(key) ==> forall k :: k in c.routers && IsBgp(k) ==> k == key
  }

  lemma {:induction false} RunEnter(c: Config, process: string, rest: seq<Command>)
    requires MayEnter(c, Key(process))
    ensures Run(c, [RouterCmd(process)] + rest)
         == RunFrom(State(WithLines(c, Key(process), LinesOf(c, Key(process))), InRouter(Key(process))), rest)
  {
    hide Key;
    var key, all := Key(process), [RouterCmd(process)] + rest;
    assert all[1..] == rest;
    if key in c.routers {
      assert c.routers[key := c.routers[key]] == c.routers;
    }
  }

  lemma {:induction false} RunStatement(c: Config, key: Line, text: string, rest: seq<Command>)
    requires key in c.routers && AddLine(c.routers[key], Key(text)).Some?
    ensures RunFrom(State(c, InRouter(key)), [Statement(text)] + rest)
         == RunFrom(State(WithLines(c, key, AddLine(c.routers[key], Key(text)).value), InRouter(key)), rest)
  {
    hide Key, AddLine;
    assert ([Statement(text)] + rest)[1..] == rest;
  }

  lemma {:induction false} RunNoStatement(c: Config, key: Line, text: string, rest: seq<Command>)
    requires key in c.routers
    ensures RunFrom(State(c, InRouter(key)), [NoStatement(text)] + rest)
         == RunFrom(State(WithLines(c, key, DropLine(c.routers[key], Key(text))), InRouter(key)), rest)
  {
    hide Key, DropLine;
    assert ([NoStatement(text)] + rest)[1..] == rest;
  }

  lemma {:induction false} WithLinesTwice(c: Config, key: Line, a: set<Line>, b: set<Line>)
    ensures WithLines(WithLines(c, key, a), key, b) == WithLines(c, key, b)
    ensures LinesOf(WithLines(c, key, a), key) == a
    ensures MayEnter(c, key) ==> MayEnter(WithLines(c, key, a), key)
    ensures key in c.routers ==> WithLines(c, key, c.routers[key]) == c
  {
    assert c.routers[key := a][key := b] == c.routers[key := b];
    if key in c.routers {
      assert c.routers[key := c.routers[key]] == c.routers;
    }
  }

  lemma {:induction false} RunAdd(c: Config, process: string, text: string)
    requires MayEnter(c, Key(process)) && AddLine(LinesOf(c, Key(process)), Key(text)).Some?
    ensures Run(c, [RouterCmd(process), Statement(text)])
         == Outcome(WithLines(c, Key(process), AddLine(LinesOf(c, Key(process)), Key(text)).value), true)
  {
    hide Key, AddLine, RunFrom, Run;
    var key := Key(process);
    var entered := WithLines(c, key, LinesOf(c, key));
    assert [RouterCmd(process)] + [Statement(text)] == [RouterCmd(process), Statement(text)];
    assert [Statement(text)] + [] == [Statement(text)];
    RunEnter(c, process, [Statement(text)]);
    RunStatement(entered, key, text, []);
    var lines := AddLine(LinesOf(c, key), Key(text)).value;
    WithLinesTwice(c, key, LinesOf(c, key), lines);
    EndOfBatch(State(WithLines(c, key, lines), InRouter(key)));
  }

  lemma {:induction false} RunDrop(c: Config, process: string, text: string)
    requires MayEnter(c, Key(process))
    ensures Run(c, [RouterCmd(process), NoStatement(text)])
         == Outcome(WithLines(c, Key(process), DropLine(LinesOf(c, Key(process)), Key(text))), true)
  {
    hide Key, DropLine, RunFrom, Run;
    var key := Key(process);
    var entered := WithLines(c, key, LinesOf(c, key));
    assert [RouterCmd(process)] + [NoStatement(text)] == [RouterCmd(process), NoStatement(text)];
    assert [NoStatement(text)] + [] == [NoStatement(text)];
    RunEnter(c, process, [NoStatement(text)]);
    RunNoStatement(entered, key, text, []);
    var lines := DropLine(LinesOf(c, key), Key(text));
    WithLinesTwice(c, key, LinesOf(c, key), lines);
    EndOfBatch(State(WithLines(c, key, lines), InRouter(key)));
  }

  lemma {:induction false} RunDropAdd(c: Config, process: string, drop: string, add: string)
    requires MayEnter(c, Key(process))
    requires AddLine(DropLine(LinesOf(c, Key(process)), Key(drop)), Key(add)).Some?
    ensures Run(c, [RouterCmd(process), NoStatement(drop), Statement(add)])
         == Outcome(WithLines(c, Key(process),
                              AddLine(DropLine(LinesOf(c, Key(process)), Key(drop)), Key(add)).value), true)
  {
    hide Key, DropLine, AddLine, RunFrom, Run;
    var key := Key(process);
    var entered, dropped := WithLines(c, key, LinesOf(c, key)), DropLine(LinesOf(c, key), Key(drop));
    assert [RouterCmd(process)] + [NoStatement(drop), Statement(add)]
        == [RouterCmd(process), NoStatement(drop), Statement(add)];
    assert [NoStatement(drop)] + [Statement(add)] == [NoStatement(drop), Statement(add)];
    assert [Statement(add)] + [] == [Statement(add)];
    RunEnter(c, process, [NoStatement(drop), Statement(add)]);
    WithLinesTwice(c, key, LinesOf(c, key), dropped);
    RunNoStatement(entered, key, drop, [Statement(add)]);
    RunStatement(WithLines(c, key, dropped), key, add, []);
    var lines := AddLine(dropped, Key(add)).value;
    WithLinesTwice(c, key, dropped, lines);
    EndOfBatch(State(WithLines(c, key, lines), InRouter(key)));
  }

  lemma {:induction false} RunEnterOnly(c: Config, process: string)
    requires MayEnter(c, Key(process))
    ensures Run(c, [RouterCmd(process)]) == Outcome(WithLines(c, Key(process), LinesOf(c, Key(process))), true)
  {
    hide Key, RunFrom, Run;
    assert [RouterCmd(process)] + [] == [RouterCmd(process)];
    RunEnter(c, process, []);
    EndOfBatch(State(WithLines(c, Key(process), LinesOf(c, Key(process))), InRouter(Key(process))));
  }

  lemma {:induction false} RunRemove(c: Config, process: string)
    ensures Run(c, [NoRouter(process)]) == Outcome(c.(routers := c.routers - {Key(process)}), true)
  {
    hide Key;
    assert [NoRouter(process)][1..] == [];
    EndOfBatch(State(c.(routers := c.routers - {Key(process)}), Global));
  }

  lemma {:induction false} RemoveRestores(c: Config, key: Line, lines: set<Line>)
    requires key !in c.routers
    ensures WithLines(c, key, lines).(routers := WithLines(c, key, lines).routers - {key}) == c
    ensures c.(routers := c.routers - {key}) == c
  {
    assert c.routers[key := lines] - {key} == c.routers;
    assert c.routers - {key} == c.routers;
  }
}
