/** The command line of a device: which line is which command, and what a batch of lines does. */
module CommandLine {
  import opened Wrappers
  import opened Text
  import opened Lines
  import opened VlanList
  import opened Device

  /** What follows the first k words. */
  function DropWords(s: string, k: nat): string
    decreases k
  {
    if k == 0 then s else DropWords(StripLeft(s)[WordEnd(StripLeft(s))..], k - 1)
  }

  /** The lines a router block is made of. */
  predicate OpensStatement(w: string) {
    w == "network" || w == "neighbor" || w == "version"
  }

  /** The command a line spells, given its words; None if there is no such command or it is incomplete. A
      route takes a destination, a mask and a next hop at least. */
  function Parse(line: string, ws: seq<string>): Option<Command> {
    var argument := Strip(DropWords(line, 1));
    if ws == [] then None
    else if ws[0] == "no" then ParseNo(line, ws)
    else if ws[0] == "switchport" then ParseSwitchport(line, ws)
    else if ws[0] == "ip" then
      if |ws| >= 5 && ws[1] == "route" then Some(IpRoute(line))
      else if ws == ["ip", "domain-lookup"] then Some(DomainLookup)
      else None
    else if ws == ["shutdown"] then Some(Shutdown)
    else if |ws| == 1 then None
    else if OpensStatement(ws[0]) then Some(Statement(line))
    else if ws[0] == "router" then Some(RouterCmd(argument))
    else if ws[0] == "vlan" then if |ws| == 2 && AllDigits(ws[1]) then Some(VlanCmd(NatValue(ws[1]))) else None
    else if ws[0] == "name" then Some(VlanNameCmd(argument))
    else if ws[0] == "interface" then Some(InterfaceCmd(argument))
    else if ws[0] == "description" then Some(Description(argument))
    else if ws[0] == "hostname" then Some(HostnameCmd(argument))
    else None
  }

  function ParseNo(line: string, ws: seq<string>): Option<Command> {
    var argument := Strip(DropWords(line, 1));
    if |ws| <= 1 then None
    else if OpensStatement(ws[1]) then Some(NoStatement(argument))
    else if ws[1] == "ip" then
      if |ws| >= 6 && ws[2] == "route" then Some(NoIpRoute(argument))
      else if ws == ["no", "ip", "domain-lookup"] then Some(NoDomainLookup)
      else None
    else if ws[1] == "router" then if |ws| >= 3 then Some(NoRouter(Strip(DropWords(line, 2)))) else None
    else if ws[1] == "vlan" then if |ws| == 3 && AllDigits(ws[2]) then Some(NoVlan(NatValue(ws[2]))) else None
    else if ws == ["no", "description"] then Some(NoDescription)
    else if ws == ["no", "shutdown"] then Some(NoShutdown)
    else if ws == ["no", "switchport", "access", "vlan"] then Some(NoSwitchportAccessVlan)
    else if ws == ["no", "switchport", "trunk", "allowed", "vlan"] then Some(NoTrunkAllowedVlans)
    else None
  }

  function ParseSwitchport(line: string, ws: seq<string>): Option<Command> {
    if |ws| <= 2 then None
    else if ws[1] == "mode" then ParseMode(ws[2..])
    else if ws[1] == "access" then
      if |ws| == 4 && ws[2] == "vlan" && AllDigits(ws[3]) then Some(SwitchportAccessVlan(NatValue(ws[3]))) else None
    else if ws == ["switchport", "trunk", "encapsulation", "dot1q"] then Some(TrunkEncapsulationDot1q)
    else if |ws| >= 5 && ws[..4] == ["switchport", "trunk", "allowed", "vlan"] then
      Some(TrunkAllowedVlans(Strip(DropWords(line, 4))))
    else None
  }

  function ParseMode(ws: seq<string>): Option<Command> {
    if ws == ["trunk"] then Some(SwitchportMode("trunk"))
    else if ws == ["access"] then Some(SwitchportMode("static access"))
    else if ws == ["dynamic", "auto"] then Some(SwitchportMode("dynamic auto"))
    else if ws == ["dynamic", "desirable"] then Some(SwitchportMode("dynamic desirable"))
    else None
  }

  /** One line: a blank one does nothing, one with odd white space or no command is refused. */
  function ExecLine(s: State, line: string): Option<State> {
    if !Typable(line) then None
    else if Strip(line) == "" then Some(s)
    else match Parse(Strip(line), Words(line))
         case None => None
         case Some(c) => Exec(s, c)
  }

  function RunLinesFrom(s: State, lines: seq<string>): Outcome
    decreases |lines|
  {
    if lines == [] then Outcome(s.config, true)
    else match ExecLine(s, lines[0])
         case None => Outcome(s.config, false)
         case Some(next) => RunLinesFrom(next, lines[1..])
  }

  /** A batch of lines; like a batch of commands it stops at the first one refused. */
  function RunLines(c: Config, lines: seq<string>): Outcome {
    RunLinesFrom(State(c, Global), lines)
  }

  // ---- Stripping text and dropping words ----

  lemma {:induction false} StripDropsSpace(s: string, c: char)
    requires IsSpace(c)
    ensures Strip(s + [c]) == Strip(s)
  {
    hide IsSpace;
    if s != "" && IsSpace(s[0]) {
      assert (s + [c])[1..] == s[1..] + [c];
      StripDropsSpace(s[1..], c);
    } else if s == "" {
      assert (s + [c])[1..] == "";
    } else {
      assert (s + [c])[..|s|] == s;
    }
  }

  lemma {:induction false} StripTrailing(s: string, y: string)
    requires forall i :: 0 <= i < |y| ==> IsSpace(y[i])
    ensures Strip(s + y) == Strip(s)
    decreases |y|
  {
    hide IsSpace, Strip;
    if y == "" {
      assert s + y == s;
    } else {
      var front, c := y[..|y| - 1], y[|y| - 1];
      assert s + y == (s + front) + [c];
      StripDropsSpace(s + front, c);
      StripTrailing(s, front);
    }
  }

  /** What StripRight takes off. */
  lemma {:induction false} RightTail(s: string)
    ensures forall i :: |StripRight(s)| <= i < |s| ==> IsSpace(s[i])
    ensures Strip(StripRight(s)) == Strip(s)
    decreases |s|
  {
    hide IsSpace, Strip;
    if s != "" && IsSpace(s[|s| - 1]) {
      var front := s[..|s| - 1];
      RightTail(front);
      StripDropsSpace(front, s[|s| - 1]);
      assert front + [s[|s| - 1]] == s;
    }
  }

  lemma {:induction false} StripRightSeam(a: string, b: string)
    requires StripRight(b) != ""
    ensures StripRight(a + b) == a + StripRight(b)
    decreases |b|
  {
    hide IsSpace;
    if IsSpace(b[|b| - 1]) {
      assert (a + b)[..|a + b| - 1] == a + b[..|b| - 1];
      StripRightSeam(a, b[..|b| - 1]);
    }
  }

  lemma {:induction false} DropOne(w: string, rest: string)
    requires IsWord(w) && (rest != "" ==> IsSpace(rest[0]))
    ensures DropWords(w + rest, 1) == rest
  {
    hide IsSpace;
    WordEndIs(w + rest, |w|);
    assert (w + rest)[|w|..] == rest;
  }

  lemma {:induction false} DropStep(w: string, rest: string, k: nat)
    requires IsWord(w) && rest != "" && IsSpace(rest[0]) && k >= 1
    ensures DropWords(w + rest, k + 1) == DropWords(rest[1..], k)
  {
    hide IsSpace;
    WordEndIs(w + rest, |w|);
    assert (w + rest)[|w|..] == rest;
  }

  /** Dropping the keywords of a line leaves what stands behind them. */
  lemma {:induction false} DropKeywords(ws: seq<string>, rest: string)
    requires ws != [] && AllWords(ws) && (rest != "" ==> IsSpace(rest[0]))
    ensures DropWords(Join(ws) + rest, |ws|) == rest
  {
    hide IsSpace, DropWords, IsWord;
    assert IsWord(ws[0]);
    if |ws| == 1 {
      assert Join(ws) == ws[0];
      DropOne(ws[0], rest);
    } else {
      var more := " " + Join(ws[1..]) + rest;
      JoinAndMore(ws, rest);
      BlankIsSpace();
      DropStep(ws[0], more, |ws| - 1);
      DropKeywords(ws[1..], rest);
    }
  }

  lemma {:induction false} JoinAndMore(ws: seq<string>, rest: string)
    requires |ws| > 1
    ensures var more := " " + Join(ws[1..]) + rest;
            Join(ws) + rest == ws[0] + more && more[1..] == Join(ws[1..]) + rest
  {
  }

  lemma {:induction false} BlankIsSpace()
    ensures IsSpace(' ') && IsSpace('\t')
  {
  }

  /** Keywords and an argument: the words of the line, and what stands behind the keywords. */
  lemma {:induction false} KeywordsAndArgument(ws: seq<string>, argument: string)
    requires ws != [] && AllWords(ws) && Words(argument) != []
    ensures var t := Strip(Join(ws) + " " + argument);
            && Words(t) == ws + Words(argument)
            && Strip(DropWords(t, |ws|)) == Strip(argument)
  {
    hide IsSpace, DropWords, AllWords, Strip, Words;
    var text, tail := Join(ws) + " " + argument, StripRight(argument);
    assert text == Join(ws) + [' '] + argument;
    BlankIsSpace();
    WordsSplit(Join(ws), ' ', argument);
    WordsOfJoin(ws);
    WordsOfStrip(text);
    StripBehindKeywords(ws, argument);
    DropKeywords(ws, " " + tail);
    StripBlankInFront(tail);
    RightTail(argument);
  }

  lemma {:induction false} StripBlankInFront(s: string)
    ensures Strip(" " + s) == Strip(s)
  {
    BlankIsSpace();
    assert (" " + s)[1..] == s;
  }

  lemma {:induction false} StripBehindKeywords(ws: seq<string>, argument: string)
    requires ws != [] && AllWords(ws) && Words(argument) != []
    ensures Strip(Join(ws) + " " + argument) == Join(ws) + (" " + StripRight(argument))
  {
    hide IsSpace, AllWords;
    var text := Join(ws) + " " + argument;
    WordsOfStripRight(argument);
    StripRightSeam(Join(ws) + " ", argument);
    JoinStartsSolid(ws);
    assert StripLeft(text) == text;
  }

  lemma {:induction false} JoinStartsSolid(ws: seq<string>)
    requires ws != [] && AllWords(ws)
    ensures Join(ws) != "" && !IsSpace(Join(ws)[0])
  {
    hide IsSpace;
    assert IsWord(ws[0]);
  }

  // ---- Every command is read as what it says ----

  predicate IsGraphic(w: string) {
    w != "" && forall i :: 0 <= i < |w| ==> '!' <= w[i] <= '~'
  }

  lemma {:induction false} GraphicIsWord(w: string)
    requires IsGraphic(w)
    ensures IsWord(w)
  {
  }

  predicate AllGraphic(ws: seq<string>) {
    forall i :: 0 <= i < |ws| ==> IsGraphic(ws[i])
  }

  predicate OfSwitchport(c: Command) {
    || c.SwitchportMode? || c.SwitchportAccessVlan? || c.NoSwitchportAccessVlan?
    || c.TrunkAllowedVlans? || c.NoTrunkAllowedVlans? || c.TrunkEncapsulationDot1q?
  }

  lemma {:induction false} PlainKeywords(c: Command)
    requires !OfSwitchport(c)
    ensures AllGraphic(Keywords(c))
  {
  }

  lemma {:induction false} ModeKeywords(c: Command)
    requires c.SwitchportMode?
    ensures AllGraphic(Keywords(c))
  {
    ModeWords(c.mode);
    assert AllGraphic(["switchport", "mode"]);
  }

  lemma {:induction false} ModeWords(mode: string)
    ensures ModeCommand(mode).Some? ==> AllGraphic(ModeCommand(mode).value)
  {
  }

  lemma {:induction false} AccessKeywords(c: Command)
    requires c.SwitchportAccessVlan? || c.NoSwitchportAccessVlan?
    ensures AllGraphic(Keywords(c))
  {
  }

  lemma {:induction false} TrunkKeywords(c: Command)
    requires c.TrunkAllowedVlans? || c.NoTrunkAllowedVlans? || c.TrunkEncapsulationDot1q?
    ensures AllGraphic(Keywords(c))
  {
  }

  lemma {:induction false} KeywordsAreWords(c: Command)
    ensures AllWords(Keywords(c))
  {
    hide Keywords, IsGraphic, IsWord;
    if !OfSwitchport(c) {
      PlainKeywords(c);
    } else if c.SwitchportMode? {
      ModeKeywords(c);
    } else if c.SwitchportAccessVlan? || c.NoSwitchportAccessVlan? {
      AccessKeywords(c);
    } else {
      TrunkKeywords(c);
    }
    forall i | 0 <= i < |Keywords(c)| ensures IsWord(Keywords(c)[i]) {
      GraphicIsWord(Keywords(c)[i]);
    }
  }

  function ArgumentWords(c: Command): seq<string> {
    if Argument(c).Some? then Words(Argument(c).value) else []
  }

  /** The command carries what its keywords call for. */
  predicate Sendable(c: Command) {
    var ws := ArgumentWords(c);
    match c
    case Statement(_) => |ws| >= 2 && OpensStatement(ws[0])
    case NoStatement(_) => |ws| >= 1 && OpensStatement(ws[0])
    case IpRoute(_) => |ws| >= 5 && ws[0] == "ip" && ws[1] == "route"
    case NoIpRoute(_) => |ws| >= 5 && ws[0] == "ip" && ws[1] == "route"
    case SwitchportMode(mode) => ModeCommand(mode).Some?
    case _ => Argument(c).Some? ==> ws != []
  }

  predicate HasId(c: Command) {
    c.VlanCmd? || c.NoVlan? || c.SwitchportAccessVlan?
  }

  /** The same command without white space around its argument. */
  function Trimmed(c: Command): Command {
    match c
    case RouterCmd(process) => RouterCmd(Strip(process))
    case NoRouter(process) => NoRouter(Strip(process))
    case Statement(text) => Statement(Strip(text))
    case NoStatement(text) => NoStatement(Strip(text))
    case IpRoute(line) => IpRoute(Strip(line))
    case NoIpRoute(line) => NoIpRoute(Strip(line))
    case VlanNameCmd(name) => VlanNameCmd(Strip(name))
    case InterfaceCmd(name) => InterfaceCmd(Strip(name))
    case Description(text) => Description(Strip(text))
    case TrunkAllowedVlans(list) => TrunkAllowedVlans(Strip(list))
    case HostnameCmd(name) => HostnameCmd(Strip(name))
    case _ => c
  }

  lemma {:induction false} TextParses(c: Command, t: string, ws: seq<string>)
    requires Sendable(c) && Argument(c).Some? && !HasId(c) && ws == Keywords(c) + ArgumentWords(c)
    requires Keywords(c) == [] ==> t == Strip(Argument(c).value)
    requires Keywords(c) != [] ==> Strip(DropWords(t, |Keywords(c)|)) == Strip(Argument(c).value)
    ensures Parse(t, ws) == Some(Trimmed(c))
  {
    hide DropWords, Strip, Words, NatValue, AllDigits;
  }

  lemma {:induction false} IdParses(c: Command, t: string, ws: seq<string>)
    requires HasId(c) && ws == Keywords(c) + [PrintNat(c.id)]
    requires AllDigits(PrintNat(c.id)) && NatValue(PrintNat(c.id)) == c.id
    ensures Parse(t, ws) == Some(c)
  {
    hide DropWords, Strip, Words, PrintNat, NatValue, AllDigits;
  }

  lemma {:induction false} BareParses(c: Command, t: string)
    requires Argument(c).None? && !c.SwitchportMode?
    ensures Parse(t, Keywords(c)) == Some(c)
  {
    hide DropWords, Strip, Words;
  }

  lemma {:induction false} ModeParses(mode: string, t: string)
    requires ModeCommand(mode).Some?
    ensures Parse(t, Keywords(SwitchportMode(mode))) == Some(SwitchportMode(mode))
  {
    hide DropWords, Strip, Words;
  }

  lemma {:induction false} CommandWords(c: Command)
    requires Sendable(c)
    ensures var t := Strip(CommandText(c));
            && Words(t) == Keywords(c) + ArgumentWords(c)
            && (Keywords(c) == [] ==> Argument(c).Some? && t == Strip(Argument(c).value))
            && (Keywords(c) != [] && Argument(c).Some? ==>
                  Strip(DropWords(t, |Keywords(c)|)) == Strip(Argument(c).value))
  {
    hide Strip, DropWords, Words, AllWords, PrintNat, ModeCommand;
    WordsOfStrip(CommandText(c));
    KeywordsAreWords(c);
    ArgumentExists(c);
    if Keywords(c) == [] {
      assert Keywords(c) + ArgumentWords(c) == ArgumentWords(c);
    } else if Argument(c).Some? {
      hide Keywords;
      KeywordsAndArgument(Keywords(c), Argument(c).value);
    } else {
      hide Keywords;
      WordsOfJoin(Keywords(c));
      assert Keywords(c) + [] == Keywords(c);
    }
  }

  lemma {:induction false} ArgumentExists(c: Command)
    requires Sendable(c)
    ensures Argument(c).Some? ==> ArgumentWords(c) != []
    ensures Keywords(c) == [] ==> Argument(c).Some?
    ensures HasId(c) ==>
              ArgumentWords(c) == [PrintNat(c.id)] && AllDigits(PrintNat(c.id)) && NatValue(PrintNat(c.id)) == c.id
  {
    hide Words, PrintNat, NatValue;
    if HasId(c) {
      IdWords(c);
    }
  }

  lemma {:induction false} IdWords(c: Command)
    requires HasId(c)
    ensures ArgumentWords(c) == [PrintNat(c.id)] && AllDigits(PrintNat(c.id)) && NatValue(PrintNat(c.id)) == c.id
  {
    hide Words, PrintNat, NatValue;
    PrintNatParses(c.id);
    DigitsAreWord(PrintNat(c.id));
    WordsOfWord(PrintNat(c.id));
  }

  lemma {:induction false} DigitsAreWord(s: string)
    requires s != "" && AllDigits(s)
    ensures IsWord(s)
  {
    forall i | 0 <= i < |s| ensures !IsSpace(s[i]) {
      assert IsDigit(s[i]);
    }
  }

  lemma {:induction false} ParsesBack(c: Command)
    requires Sendable(c)
    ensures var t := Strip(CommandText(c)); Parse(t, Words(t)) == Some(Trimmed(c))
  {
    hide Strip, DropWords, Words, AllDigits, NatValue, PrintNat, Parse, Keywords, CommandText;
    var t := Strip(CommandText(c));
    CommandWords(c);
    ArgumentExists(c);
    if HasId(c) {
      IdParses(c, t, Words(t));
    } else if Argument(c).Some? {
      TextParses(c, t, Words(t));
    } else {
      assert Keywords(c) + [] == Keywords(c);
      if c.SwitchportMode? {
        ModeParses(c.mode, t);
      } else {
        BareParses(c, t);
      }
    }
  }

  lemma {:induction false} TrimmedDoesSame(s: State, c: Command)
    ensures Exec(s, Trimmed(c)) == Exec(s, c)
  {
    hide Strip, Words, LowerAll, Lower, Expand, AddLine, DropLine, DefaultVlanName, IsBgp, ModeCommand, AllVlans;
    if Argument(c).Some? {
      WordsOfStrip(Argument(c).value);
      StripTwice(Argument(c).value);
      ExpandOfStrip(Argument(c).value);
    }
  }

  /** A line with the words of a command, typed with blanks only, does what the command does, whatever stands
      around it. */
  lemma {:induction false} LineDoes(s: State, c: Command, line: string)
    requires Sendable(c) && Typable(line) && Strip(line) == Strip(CommandText(c))
    ensures ExecLine(s, line) == Exec(s, c)
  {
    hide Strip, Words, Parse, Exec, Sendable, CommandText, Typable;
    ParsesBack(c);
    TrimmedDoesSame(s, c);
    WordsOfStrip(line);
    WordsOfStrip(Strip(line));
    NothingToParse();
  }

  lemma {:induction false} NothingToParse()
    ensures Words("") == [] && Parse("", []).None?
  {
  }
}
