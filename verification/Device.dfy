/** A small interpreter for the configuration commands the driver emits, with the behaviour its renderers
    rely on: what a command adds, what its negation withdraws, and what the device refuses. */
module Device {
  import opened Wrappers
  import opened Text
  import opened Lines
  import opened VlanList
  import opened Facts

  /** A configuration line as its words. */
  type Line = seq<string>

  datatype Encapsulation = Negotiate | Dot1q

  /** `mode` is the administrative mode as the device names it. */
  datatype Port = Port(description: Option<string>, down: bool, mode: string, accessVlan: nat, allowed: set<int>,
                       encapsulation: Encapsulation)

  /** Routes keep their case; router blocks and their lines are kept in lower case. */
  datatype Config = Config(routes: set<Line>, routers: map<Line, set<Line>>, vlans: map<nat, string>,
                           ports: map<string, Port>, hostname: string, domainLookup: bool)

  datatype Command =
    | RouterCmd(process: string) | NoRouter(process: string)
    | Statement(text: string) | NoStatement(text: string)
    | IpRoute(line: string) | NoIpRoute(line: string)
    | VlanCmd(id: nat) | VlanNameCmd(name: string) | NoVlan(id: nat)
    | InterfaceCmd(name: string)
    | Description(text: string) | NoDescription
    | Shutdown | NoShutdown
    | SwitchportMode(mode: string)
    | SwitchportAccessVlan(id: nat) | NoSwitchportAccessVlan
    | TrunkEncapsulationDot1q
    | TrunkAllowedVlans(list: string) | NoTrunkAllowedVlans
    | HostnameCmd(name: string)
    | DomainLookup | NoDomainLookup

  /** The administrative modes that have a command, and how it ends. */
  function ModeCommand(mode: string): Option<seq<string>> {
    if mode == "trunk" then Some(["trunk"])
    else if mode == "static access" then Some(["access"])
    else if mode == "dynamic auto" then Some(["dynamic", "auto"])
    else if mode == "dynamic desirable" then Some(["dynamic", "desirable"])
    else None
  }

  /** The keywords of a command, in front of its argument. */
  function Keywords(c: Command): seq<string> {
    match c
    case RouterCmd(_) => ["router"]
    case NoRouter(_) => ["no", "router"]
    case Statement(_) => []
    case NoStatement(_) => ["no"]
    case IpRoute(_) => []
    case NoIpRoute(_) => ["no"]
    case VlanCmd(_) => ["vlan"]
    case VlanNameCmd(_) => ["name"]
    case NoVlan(_) => ["no", "vlan"]
    case InterfaceCmd(_) => ["interface"]
    case Description(_) => ["description"]
    case NoDescription => ["no", "description"]
    case Shutdown => ["shutdown"]
    case NoShutdown => ["no", "shutdown"]
    case SwitchportMode(mode) =>
      if ModeCommand(mode).Some? then ["switchport", "mode"] + ModeCommand(mode).value else []
    case SwitchportAccessVlan(_) => ["switchport", "access", "vlan"]
    case NoSwitchportAccessVlan => ["no", "switchport", "access", "vlan"]
    case TrunkEncapsulationDot1q => ["switchport", "trunk", "encapsulation", "dot1q"]
    case TrunkAllowedVlans(_) => ["switchport", "trunk", "allowed", "vlan"]
    case NoTrunkAllowedVlans => ["no", "switchport", "trunk", "allowed", "vlan"]
    case HostnameCmd(_) => ["hostname"]
    case DomainLookup => ["ip", "domain-lookup"]
    case NoDomainLookup => ["no", "ip", "domain-lookup"]
  }

  /** What a command carries behind its keywords, if anything. */
  function Argument(c: Command): Option<string> {
    match c
    case RouterCmd(process) => Some(process)
    case NoRouter(process) => Some(process)
    case Statement(text) => Some(text)
    case NoStatement(text) => Some(text)
    case IpRoute(line) => Some(line)
    case NoIpRoute(line) => Some(line)
    case VlanCmd(id) => Some(PrintNat(id))
    case VlanNameCmd(name) => Some(name)
    case NoVlan(id) => Some(PrintNat(id))
    case InterfaceCmd(name) => Some(name)
    case Description(text) => Some(text)
    case SwitchportAccessVlan(id) => Some(PrintNat(id))
    case TrunkAllowedVlans(list) => Some(list)
    case HostnameCmd(name) => Some(name)
    case _ => None
  }

  /** The line that is sent. */
  function CommandText(c: Command): string {
    match Argument(c)
    case None => Join(Keywords(c))
    case Some(argument) => if Keywords(c) == [] then argument else Join(Keywords(c)) + " " + argument
  }

  // ---- Lines of a router block ----

  predicate IsVersion(l: Line) {
    l != [] && l[0] == "version"
  }

  predicate OfPeer(l: Line, peer: string) {
    |l| >= 2 && l[0] == "neighbor" && l[1] == peer
  }

  predicate IsRemoteAs(l: Line, peer: string) {
    OfPeer(l, peer) && |l| >= 3 && l[2] == "remote-as"
  }

  /** A process holds one version, and one remote AS for each peer: a second version replaces the first, a
      second remote AS is refused. */
  function AddLine(lines: set<Line>, l: Line): Option<set<Line>> {
    if IsVersion(l) then Some((set o | o in lines && !IsVersion(o)) + {l})
    else if |l| >= 2 && IsRemoteAs(l, l[1]) && (exists o :: o in lines && IsRemoteAs(o, l[1]) && o != l) then None
    else Some(lines + {l})
  }

  /** Negating a bare `version` or `neighbor <peer>` withdraws every such line; otherwise exactly the line. */
  function DropLine(lines: set<Line>, l: Line): set<Line> {
    if l == ["version"] then set o | o in lines && !IsVersion(o)
    else if |l| == 2 && l[0] == "neighbor" then set o | o in lines && !OfPeer(o, l[1])
    else lines - {l}
  }

  predicate IsBgp(key: Line) {
    key != [] && key[0] == "bgp"
  }

  // ---- Execution ----

  /** Which block the session is in. */
  datatype Mode = Global | InRouter(key: Line) | InVlan(id: nat) | InInterface(name: string)

  datatype State = State(config: Config, mode: Mode)

  /** VLAN0010 and so on. */
  function DefaultVlanName(id: nat): string {
    var digits := PrintNat(id);
    "VLAN" + (if |digits| < 4 then "0000"[..4 - |digits|] else "") + digits
  }

  /** One command; None when the device refuses it. */
  function Exec(s: State, c: Command): Option<State> {
    match c
    case RouterCmd(_) | NoRouter(_) | Statement(_) | NoStatement(_) => ExecRouter(s, c)
    case IpRoute(line) => Some(State(s.config.(routes := s.config.routes + {Words(line)}), Global))
    case NoIpRoute(line) => Some(State(s.config.(routes := s.config.routes - {Words(line)}), Global))
    case VlanCmd(_) | VlanNameCmd(_) | NoVlan(_) => ExecVlan(s, c)
    case HostnameCmd(name) => Some(State(s.config.(hostname := Strip(name)), Global))
    case DomainLookup => Some(State(s.config.(domainLookup := true), Global))
    case NoDomainLookup => Some(State(s.config.(domainLookup := false), Global))
    case InterfaceCmd(name) =>
      if NormalizeInterfaceName(name) in s.config.ports
      then Some(State(s.config, InInterface(NormalizeInterfaceName(name)))) else None
    case _ =>
      if s.mode.InInterface? && s.mode.name in s.config.ports then
        match ExecPort(s.config.ports[s.mode.name], c)
        case None => None
        case Some(p) => Some(State(s.config.(ports := s.config.ports[s.mode.name := p]), s.mode))
      else None
  }

  /** One BGP process per device: a second local AS is refused. */
  function ExecRouter(s: State, c: Command): Option<State>
    requires c.RouterCmd? || c.NoRouter? || c.Statement? || c.NoStatement?
  {
    var routers := s.config.routers;
    match c
    case RouterCmd(process) =>
      var key := Key(process);
      if IsBgp(key) && (exists k :: k in routers && IsBgp(k) && k != key) then None
      else Some(State(s.config.(routers := if key in routers then routers else routers[key := {}]), InRouter(key)))
    case NoRouter(process) => Some(State(s.config.(routers := routers - {Key(process)}), Global))
    case Statement(text) =>
      if s.mode.InRouter? && s.mode.key in routers then
        match AddLine(routers[s.mode.key], Key(text))
        case None => None
        case Some(lines) => Some(State(s.config.(routers := routers[s.mode.key := lines]), s.mode))
      else None
    case NoStatement(text) =>
      if s.mode.InRouter? && s.mode.key in routers then
        Some(State(s.config.(routers := routers[s.mode.key := DropLine(routers[s.mode.key], Key(text))]), s.mode))
      else None
  }

  /** Entering a VLAN that does not exist creates it. */
  function ExecVlan(s: State, c: Command): Option<State>
    requires c.VlanCmd? || c.VlanNameCmd? || c.NoVlan?
  {
    var vlans := s.config.vlans;
    match c
    case VlanCmd(id) =>
      Some(State(s.config.(vlans := if id in vlans then vlans else vlans[id := DefaultVlanName(id)]), InVlan(id)))
    case VlanNameCmd(name) =>
      if s.mode.InVlan? then Some(State(s.config.(vlans := vlans[s.mode.id := Strip(name)]), s.mode)) else None
    case NoVlan(id) => Some(State(s.config.(vlans := vlans - {id}), Global))
  }

  /** A port that still negotiates its encapsulation refuses to become a trunk. */
  function ExecPort(p: Port, c: Command): Option<Port> {
    match c
    case Description(text) => Some(p.(description := Some(Strip(text))))
    case NoDescription => Some(p.(description := None))
    case Shutdown => Some(p.(down := true))
    case NoShutdown => Some(p.(down := false))
    case SwitchportMode(mode) =>
      if ModeCommand(mode).None? || (mode == "trunk" && p.encapsulation == Negotiate) then None
      else Some(p.(mode := mode))
    case SwitchportAccessVlan(id) => Some(p.(accessVlan := id))
    case NoSwitchportAccessVlan => Some(p.(accessVlan := 1))
    case TrunkEncapsulationDot1q => Some(p.(encapsulation := Dot1q))
    case TrunkAllowedVlans(list) => Some(p.(allowed := Expand(list)))
    case NoTrunkAllowedVlans => Some(p.(allowed := AllVlans()))
    case _ => None
  }

  /** A batch stops at the first refused command; what was accepted before it stays. */
  datatype Outcome = Outcome(config: Config, completed: bool)

  function RunFrom(s: State, commands: seq<Command>): Outcome
    decreases |commands|
  {
    if commands == [] then Outcome(s.config, true)
    else match Exec(s, commands[0])
         case None => Outcome(s.config, false)
         case Some(next) => RunFrom(next, commands[1..])
  }

  function Run(c: Config, commands: seq<Command>): Outcome {
    RunFrom(State(c, Global), commands)
  }

  lemma {:induction false} EndOfBatch(s: State)
    ensures RunFrom(s, []) == Outcome(s.config, true)
  {
  }

  lemma {:induction false} NothingPushed(c: Config)
    ensures Run(c, []) == Outcome(c, true)
  {
  }

  // ---- Configurations a device can hold ----

  predicate LineOk(l: Line) {
    l != [] && AllWords(l) && LowerAll(l) == l
  }

  /** At most one version line, with its number, and one remote AS for each peer; no words that merely begin like
      those. */
  predicate RouterOk(lines: set<Line>) {
    && (forall l :: l in lines ==> LineOk(l))
    && (forall l :: l in lines && l != [] && "version" <= l[0] ==> IsVersion(l) && |l| >= 2)
    && (forall l, o :: l in lines && o in lines && IsVersion(l) && IsVersion(o) ==> l == o)
    && (forall l :: l in lines && |l| >= 3 && "remote-as" <= l[2] ==> l[2] == "remote-as")
    && (forall l, o :: l in lines && o in lines && |l| >= 2 && IsRemoteAs(l, l[1]) && IsRemoteAs(o, l[1]) ==> l == o)
  }

  predicate RouteOk(l: Line) {
    |l| >= 5 && AllWords(l) && l[0] == "ip" && l[1] == "route"
  }

  /** A trunk has settled its encapsulation; a description is not blank and prints on one line. */
  predicate PortOk(p: Port) {
    && (p.mode == "trunk" ==> p.encapsulation != Negotiate)
    && (p.description.Some? ==>
          && p.description.value != "" && Strip(p.description.value) == p.description.value
          && Typable(p.description.value))
    && p.accessVlan >= 1
  }

  ghost predicate ConfigOk(c: Config) {
    && (forall key :: key in c.routers ==> LineOk(key) && RouterOk(c.routers[key]))
    && (forall k, key :: k in c.routers && key in c.routers && IsBgp(k) && IsBgp(key) ==> k == key)
    && (forall l :: l in c.routes ==> RouteOk(l))
    && (forall name :: name in c.ports ==> name != "" && PortOk(c.ports[name]))
    && (forall id :: id in c.vlans ==> id >= 1 && IsWord(c.vlans[id]))
    && Strip(c.hostname) == c.hostname && Typable(c.hostname)
  }

  lemma {:induction false} RoutesAreOk(c: Config)
    requires ConfigOk(c)
    ensures forall l :: l in c.routes ==> RouteOk(l)
  {
    hide RouteOk, LineOk, RouterOk, PortOk;
  }

  lemma {:induction false} RouterIsOk(c: Config, key: Line)
    requires ConfigOk(c) && key in c.routers
    ensures LineOk(key) && forall l :: l in c.routers[key] ==> LineOk(l)
  {
    hide RouteOk, LineOk, PortOk;
    assert RouterOk(c.routers[key]);
  }
}
