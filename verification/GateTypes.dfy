/** The values the connection gate works on: permits, settings, Redis keys and faults. */
module GateTypes {
  import opened Wrappers

  type Id = nat

  datatype Operation = ConnectionTest | StructuredRead | StructuredWrite | Terminal

  /** `endpoint` stands for the SHA-256 digest of host, port and profile. */
  datatype Target = Target(endpoint: nat, profile: nat, device: Option<nat>)

  datatype Permit = Permit(id: Id, operation: Operation, target: Target)

  datatype Fault =
    | GateUnavailable
    | ConnectionRateLimited
    | AuthenticationRateLimited
    | ConnectionLimitReached
    | TerminalLimitReached

  /** One constructor per key family of the `connection-gate:v1` namespace. */
  datatype Key =
    | GlobalActive
    | DeviceActive(device: nat)
    | TerminalActive
    | TerminalDeviceActive(device: nat)
    | PermitKey(id: Id)
    | TestRate(endpoint: nat, profile: nat)
    | TerminalRate(device: nat)
    | Failures(endpoint: nat, profile: nat)
    | Cooldown(endpoint: nat, profile: nat)

  /** The integer settings the gate reads. The configuration allows only positive ones; with a span of zero Redis would
      drop a key at once, where here it stays to the end of that instant. */
  datatype Settings = Settings(
    permitTtl: nat, rateWindow: nat, testLimit: nat, terminalLimit: nat,
    failureLimit: nat, failureWindow: nat, cooldown: nat,
    maxConnections: nat, maxPerDevice: nat, maxTerminals: nat, maxTerminalsPerDevice: nat)

  function FailuresKey(target: Target): Key {
    Failures(target.endpoint, target.profile)
  }

  function CooldownKey(target: Target): Key {
    Cooldown(target.endpoint, target.profile)
  }

  /** A terminal permit must name its device; the source raises otherwise. */
  predicate Admissible(permit: Permit) {
    permit.operation.Terminal? ==> permit.target.device.Some?
  }

  function ActiveKeys(permit: Permit): seq<Key>
    requires Admissible(permit)
  {
    [GlobalActive]
    + (if permit.target.device.Some? then [DeviceActive(permit.target.device.value)] else [])
    + (if permit.operation.Terminal? then
         [TerminalActive, TerminalDeviceActive(permit.target.device.value)]
       else [])
  }

  function RateKey(permit: Permit): Option<Key>
    requires Admissible(permit)
  {
    match permit.operation
    case ConnectionTest => Some(TestRate(permit.target.endpoint, permit.target.profile))
    case Terminal => Some(TerminalRate(permit.target.device.value))
    case _ => None
  }

  predicate IsActive(key: Key) {
    key.GlobalActive? || key.DeviceActive? || key.TerminalActive? || key.TerminalDeviceActive?
  }

  predicate IsRate(key: Key) {
    key.TestRate? || key.TerminalRate?
  }

  /** The keys holding sorted sets. */
  predicate IsIndex(key: Key) {
    IsActive(key) || IsRate(key) || key.Failures?
  }

  /** How many members the gate lets a sorted set count before it refuses. */
  function Limit(cfg: Settings, key: Key): nat {
    match key
    case GlobalActive => cfg.maxConnections
    case DeviceActive(_) => cfg.maxPerDevice
    case TerminalActive => cfg.maxTerminals
    case TerminalDeviceActive(_) => cfg.maxTerminalsPerDevice
    case TestRate(_, _) => cfg.testLimit
    case TerminalRate(_) => cfg.terminalLimit
    case Failures(_, _) => cfg.failureLimit
    case _ => 0
  }

  /** A member with score `s` matters at time `t` exactly while `s + Horizon > t`. */
  function Horizon(cfg: Settings, key: Key): nat {
    if IsRate(key) then cfg.rateWindow
    else if key.Failures? then cfg.failureWindow
    else 0
  }

  /** The number of seconds every commit hands to EXPIRE for this key. */
  function Span(cfg: Settings, key: Key): nat {
    if IsRate(key) then cfg.rateWindow
    else if key.Failures? then cfg.failureWindow
    else cfg.permitTtl
  }
}
