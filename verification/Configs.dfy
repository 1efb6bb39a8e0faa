/** Application states and the persisted configuration, as far as the state machine reads or writes it. */
module Configs {
  import opened Common

  /** The seven states with a handler, the empty string stored by a blank section, and any other stored string. */
  datatype AppState =
    | Boot | Init | Active | UpdateConfig | Maintenance | ZTPSetup | Reset
    | Unset
    | Unknown(name: string)

  type Blob = seq<string>

  datatype App = App(serial: string, addrs: seq<string>, tunnel: string, activeAddr: string)

  datatype Ports = Ports(ports: seq<string>, mtus: seq<string>)

  /** A configuration, and equally a patch: a section that is None is a nil pointer. */
  datatype Config = Config(
    state: Option<AppState>, app: Option<App>, port: Option<Ports>, adminState: Option<Blob>,
    pony: Option<Blob>, wireguard: Option<Blob>, wanProtection: Option<Blob>, loopback: Option<Blob>,
    ipRule: Option<Blob>, trunk: Option<Blob>, p2p: Option<Blob>, bridge: Option<Blob>,
    l3: Option<Blob>, isb: Option<Blob>, fw: Option<Blob>)

  const BLANK := Config(None, None, None, None, None, None, None, None, None, None, None, None, None, None, None)

  function Pick<T>(patch: Option<T>, current: Option<T>): Option<T> {
    if patch.Some? then patch else current
  }

  /** Writes exactly the sections the patch carries. */
  function Overwrite(c: Config, p: Config): Config {
    Config(Pick(p.state, c.state), Pick(p.app, c.app), Pick(p.port, c.port), Pick(p.adminState, c.adminState),
           Pick(p.pony, c.pony), Pick(p.wireguard, c.wireguard), Pick(p.wanProtection, c.wanProtection),
           Pick(p.loopback, c.loopback), Pick(p.ipRule, c.ipRule), Pick(p.trunk, c.trunk), Pick(p.p2p, c.p2p),
           Pick(p.bridge, c.bridge), Pick(p.l3, c.l3), Pick(p.isb, c.isb), Pick(p.fw, c.fw))
  }

  function Unpick<T>(patch: Option<T>, prior: Option<T>, current: Option<T>): Option<T> {
    if patch.Some? then prior else current
  }

  /** Puts back the sections the patch had written; the others are left as they are now. */
  function Restore(c: Config, p: Config, prior: Config): Config {
    Config(Unpick(p.state, prior.state, c.state), Unpick(p.app, prior.app, c.app), Unpick(p.port, prior.port, c.port),
           Unpick(p.adminState, prior.adminState, c.adminState), Unpick(p.pony, prior.pony, c.pony),
           Unpick(p.wireguard, prior.wireguard, c.wireguard),
           Unpick(p.wanProtection, prior.wanProtection, c.wanProtection),
           Unpick(p.loopback, prior.loopback, c.loopback), Unpick(p.ipRule, prior.ipRule, c.ipRule),
           Unpick(p.trunk, prior.trunk, c.trunk), Unpick(p.p2p, prior.p2p, c.p2p),
           Unpick(p.bridge, prior.bridge, c.bridge),
           Unpick(p.l3, prior.l3, c.l3), Unpick(p.isb, prior.isb, c.isb), Unpick(p.fw, prior.fw, c.fw))
  }

  /** The serial number a missing application section reads as. */
  function Serial(c: Config): string {
    if c.app.Some? then c.app.value.serial else ""
  }

  predicate HasPorts(c: Config) {
    c.port.Some? && c.port.value.ports != []
  }

  /** The state to boot into: the stored one, or init when nothing is stored. */
  function StoredState(c: Config): AppState {
    if c.state.None? || c.state == Some(Unset) then Init else c.state.value
  }

  predicate HasHandler(s: AppState) {
    !s.Unset? && !s.Unknown?
  }

  /** A stored state that some run of the agent can have left behind. */
  predicate Bootable(c: Config) {
    HasHandler(StoredState(c)) && StoredState(c) != Boot
  }

  const NO_SERVICES := BLANK.(
    trunk := Some([]), p2p := Some([]), bridge := Some([]), l3 := Some([]), isb := Some([]), fw := Some([]))

  /** The service sections of a configuration, as a patch. */
  function Services(c: Config): Config {
    BLANK.(trunk := c.trunk, p2p := c.p2p, bridge := c.bridge, l3 := c.l3, isb := c.isb, fw := c.fw)
  }
}
