/** What each state handler does to the device, as a function of the environment. */
module Handlers {
  import opened Common
  import opened Configs
  import opened Transitions
  import opened Devices

  // ---------- message queue subjects ----------

  function Subscribe(sys: Sys, d: Device, subjects: seq<Subject>): (r: Out)
    ensures Keeps(d, r.dev)
    ensures r.Done? ==> r.next.None?
    ensures r.dev.core == d.core.(mq := r.dev.core.mq)
    decreases |subjects|
  {
    if subjects == [] then Done(d, None) else
      var d :- ActivateSubject(sys, d, subjects[0]);
      Subscribe(sys, d, subjects[1..])
  }

  function Unsubscribe(sys: Sys, d: Device, subjects: seq<Subject>): (r: Out)
    ensures Keeps(d, r.dev)
    ensures r.Done? ==> r.next.None?
    ensures r.dev.core == d.core.(mq := r.dev.core.mq)
    decreases |subjects|
  {
    if subjects == [] then Done(d, None) else
      var d :- DeactivateSubject(sys, d, subjects[0]);
      Unsubscribe(sys, d, subjects[1..])
  }

  // ---------- init ----------

  /** A device id left by an old version, not a placeholder, sends a booting agent on to active. */
  predicate Migrates(deviceId: string) {
    deviceId != "" && 'x' !in deviceId && 'X' !in deviceId
  }

  function RestoreInit(sys: Sys, d: Device): (r: Out)
    ensures Keeps(d, r.dev)
    ensures r.Done? ==> r.next.None?
    ensures r.dev.core == d.core.(mq := r.dev.core.mq)
  {
    hide Unwind, UnwindDisk, Replayable, Misplayed, Marked;
    var d :- Subscribe(sys, d, INIT_SUBJECTS);
    if sys.kind.Hub? then Done(d, None) else
      var d :- Activity(sys, d);
      var d :- Activity(sys, d);
      Done(d, None)
  }

  function HandleInit(sys: Sys, d: Device, t: Transition): (r: Out)
    ensures Keeps(d, r.dev)
    ensures r.Done? && r.next.Some? ==> t.OnAfterBoot? && r.next.value.OnMigrateFromOldVersion?
    ensures r.dev.core == d.core.(mq := r.dev.core.mq)
  {
    hide Unwind, UnwindDisk, Replayable, Misplayed, Marked;
    match t
    case OnAfterBoot(_) =>
      if Migrates(sys.deviceId) then Done(d, Some(OnMigrateFromOldVersion(sys.deviceId, sys.endPoint)))
      else RestoreInit(sys, d)
    case OnInitFallback => RestoreInit(sys, d)
    case OnZTPSetupInterrupted => RestoreInit(sys, d)
    case OnZTPSetupFinished => Subscribe(sys, d, INIT_SUBJECTS)
    case OnHubResetFinished => Subscribe(sys, d, INIT_SUBJECTS)
    case _ => Failed(d)
  }

  // ---------- active ----------

  predicate HasScheme(addr: string) {
    "http://" <= addr || "https://" <= addr
  }

  /** The first half of the device initialization: addresses, hostname and network sections. */
  function InstallNetwork(sys: Sys, d: Device, init: InitConfig): (r: Out)
    ensures Keeps(d, r.dev)
    ensures r.dev.misused == d.misused
    ensures r.Done? ==> r.next.None?
    ensures r.dev.core == d.core.(cfg := r.dev.core.cfg) && r.dev.core.cfg.state == d.core.cfg.state
  {
    hide Unwind, UnwindDisk, Replayable, Misplayed, Marked;
    var d :- Ask(sys, d);
    var app := if d.core.cfg.app.Some? then d.core.cfg.app.value else App("", [], "", "");
    var app' := app.(tunnel := init.tunnel, addrs := if init.addrs == [] then app.addrs else init.addrs);
    var d :- WriteConfig(sys, d, BLANK.(app := Some(app')));
    var d :- Activity(sys, d);
    var d :- Ask(sys, d);
    var d :- WriteConfig(sys, d, BLANK.(
      wireguard := Some(init.wireguard), port := Some(init.ports), wanProtection := Some(init.wanProtection),
      loopback := Some(init.loopback), ipRule := Some(init.ipRule), pony := Some(init.pony),
      adminState := Some(init.adminState)));
    Done(d, None)
  }

  /** The body of the device initialization on the transaction it runs in. */
  function InitDevice(sys: Sys, d: Device, init: InitConfig): (r: Out)
    ensures Keeps(d, r.dev)
    ensures r.dev.misused == d.misused
    ensures r.Done? ==> r.next.None?
    ensures r.dev.core == d.core.(cfg := r.dev.core.cfg) && r.dev.core.cfg.state == d.core.cfg.state
  {
    hide Unwind, UnwindDisk, Replayable, Misplayed, Marked;
    var d :- InstallNetwork(sys, d, init);
    var d :- Ask(sys, d);
    var d :- if sys.kind.CPE? then Ask(sys, d) else Done(d, None);
    var d :- if sys.kind.CPE? || sys.kind.Hub? then Ask(sys, d) else Done(d, None);
    WriteConfig(sys, d, BLANK.(
      trunk := Some(init.trunk), l3 := Some(init.l3), isb := Some(init.isb), bridge := Some(init.bridge),
      p2p := Some(init.p2p), fw := Some(init.fw)))
  }

  /** Waits for the first init request; the request runs on the waiter's transaction. */
  function AwaitFirstInit(sys: Sys, d: Device): (r: Out)
    ensures Keeps(d, r.dev)
    ensures r.dev.misused == d.misused
    ensures r.Done? ==> r.next.None?
    ensures r.dev.core == d.core.(cfg := r.dev.core.cfg) && r.dev.core.cfg.state == d.core.cfg.state
  {
    hide Unwind, UnwindDisk, Replayable, Misplayed, Marked;
    var d' := d.(clock := d.clock + 1);
    match sys.answer(d.clock)
    case NoAnswer => Failed(d')
    case Arrives(init) => InitDevice(sys, d', init)
  }

  /** First setup needs a port to reach the orchestrator by, and complete addresses. */
  predicate Accepts(c: Config, addrs: seq<string>) {
    c.port.Some? && c.port.value.ports != [] && forall a <- addrs :: "http://" <= a || "https://" <= a
  }

  /** First setup up to the answer of the first init request. */
  function Connect(sys: Sys, d: Device, serial: string, addrs: seq<string>): (r: Out)
    ensures Keeps(d, r.dev)
    ensures r.Done? ==> r.next.None? && !d.core.ws && r.dev.core.ws && Accepts(d.core.cfg, addrs)
    ensures !HasPorts(d.core.cfg) ==> !r.Done? && r.dev.core == d.core
    ensures r.dev.misused == d.misused ||
            (r.dev.misused == d.misused + {Websocket} && d.core.ws && Accepts(d.core.cfg, addrs))
    ensures r.dev.core.runtime == d.core.runtime && r.dev.core.cfg.state == d.core.cfg.state &&
              r.dev.core.mq == d.core.mq
  {
    hide Unwind, UnwindDisk, Replayable, Misplayed, Marked;
    var d :- Ask(sys, d);
    var d :- Check(d, HasPorts(d.core.cfg));
    var d :- Check(d, forall a <- addrs :: HasScheme(a));
    assert Accepts(d.core.cfg, addrs);
    var d :- WriteConfig(sys, d, BLANK.(app := Some(App(serial, addrs, "", ""))));
    var d :- Activity(sys, d);
    var d :- Activity(sys, d);
    var d :- StartWebsocket(sys, d);
    AwaitFirstInit(sys, d)
  }

  function FirstSetup(sys: Sys, d: Device, serial: string, addrs: seq<string>): (r: Out)
    ensures Keeps(d, r.dev)
    ensures r.Done? ==> r.next.None? && !d.core.ws && r.dev.core.ws
    ensures !HasPorts(d.core.cfg) ==> !r.Done? && r.dev.core == d.core
    ensures d.core.ws ==>
              r.dev.misused == d.misused || (r.dev.misused == d.misused + {Websocket} && Accepts(d.core.cfg, addrs))
    ensures r.dev.core.runtime == d.core.runtime && r.dev.core.cfg.state == d.core.cfg.state
  {
    hide Unwind, UnwindDisk, Replayable, Misplayed, Marked, Accepts;
    var d :- Connect(sys, d, serial, addrs);
    var d :- if sys.kind.Hub? then Done(d, None) else Activity(sys, d);
    Subscribe(sys, d, ACTIVE_SUBJECTS)
  }

  function Migrate(sys: Sys, d: Device, serial: string, addr: string): (r: Out)
    ensures Keeps(d, r.dev)
    ensures r.Done? ==> r.next.None? && !d.core.ws && r.dev.core.ws
    ensures r.dev.core.runtime == d.core.runtime && r.dev.core.cfg.state == d.core.cfg.state
  {
    hide Unwind, UnwindDisk, Replayable, Misplayed, Marked;
    var d :- Ask(sys, d);
    var app := if d.core.cfg.app.Some? then d.core.cfg.app.value else App("", [], "", "");
    var d :- WriteConfig(sys, d, BLANK.(app := Some(app.(serial := serial, addrs := [addr]))));
    var d :- Activity(sys, d);
    var d :- StartWebsocket(sys, d);
    Subscribe(sys, d, ACTIVE_SUBJECTS)
  }

  function RestoreActive(sys: Sys, d: Device): (r: Out)
    ensures Keeps(d, r.dev)
    ensures r.Done? ==> r.next.None? && r.dev.core.ws
    ensures r.dev.core.runtime == d.core.runtime && r.dev.core.cfg == d.core.cfg
  {
    hide Unwind, UnwindDisk, Replayable, Misplayed, Marked;
    var d :- Activity(sys, d);
    var d :- Activity(sys, d);
    var d :- if d.core.ws then Done(d, None) else StartWebsocket(sys, d);
    Subscribe(sys, d, ACTIVE_SUBJECTS)
  }

  function HandleActive(sys: Sys, d: Device, t: Transition): (r: Out)
    ensures Keeps(d, r.dev)
    ensures !t.OnFirstSetup? && !t.OnMigrateFromOldVersion? ==> r.dev.core.cfg == d.core.cfg
    ensures r.Done? ==> r.next.None?
    ensures r.dev.core.runtime == d.core.runtime && r.dev.core.cfg.state == d.core.cfg.state
  {
    hide Unwind, UnwindDisk, Replayable, Misplayed, Marked;
    match t
    case OnAfterBoot(_) => RestoreActive(sys, d)
    case OnFirstSetup(serial, addrs) => FirstSetup(sys, d, serial, addrs)
    case OnMigrateFromOldVersion(id, addr) => Migrate(sys, d, id, addr)
    case OnFallback => RestoreActive(sys, d)
    case OnUpdateConfigFinished => Subscribe(sys, d, ACTIVE_SUBJECTS)
    case OnUpdateDeviceFinished(_) =>
      var d :- Subscribe(sys, d, ACTIVE_SUBJECTS);
      var d :- Activity(sys, d);
      Done(d, None)
    case _ => Failed(d)
  }

  // ---------- update config ----------

  predicate PortsChanged(before: Config, patch: Config) {
    (patch.port.Some? && before.port != patch.port) || (patch.adminState.Some? && before.adminState != patch.adminState)
  }

  /** The part of updateConfig after the write succeeded; with changed, the websocket is down and is started again. */
  function AfterConfigWrite(sys: Sys, d: Device, before: Config, patch: Config, changed: bool): (r: Out)
    ensures KeepsDisk(d, r.dev) && r.dev.log == d.log
    ensures !r.Crashed? ==>
              r.dev.core == d.core.(ws := d.core.ws || changed) &&
                  r.dev.misused == (if changed && d.core.ws then d.misused + {Websocket} else d.misused)
    ensures r.Crashed? ==> r.dev.core == d.core && r.dev.misused == d.misused
    ensures r.Done? ==> r.next.None?
  {
    var d :- if patch.app.Some? && before.app != patch.app then Attempt(sys, d) else Done(d, None);
    if !changed then Done(d, None)
    else if sys.kind.CPE? && patch.pony.Some? then
      match Ask(sys, d)
      case Done(d, _) => Done(BareStart(d).dev, None)
      case Failed(d) => Failed(BareStart(d).dev)
      case Crashed(d) => Crashed(d)
    else Done(BareStart(d).dev, None)
  }

  /** A logged write can be taken back in full when the flag it was bracketed by is back where it was. */
  lemma BracketKeeps(d: Device, d': Device, patch: Config)
    requires d'.log == d.log + [RestoreConfig(patch, d.core.cfg)] && d'.wiped == d.wiped
    requires d'.core.cfg == Overwrite(d.core.cfg, patch)
    ensures KeepsDisk(d, d')
    ensures d'.core == d.core.(cfg := d'.core.cfg) ==> Keeps(d, d')
  {
    assert d'.log[..|d.log|] == d.log;
  }

  lemma IdleKeeps(d: Device, d': Device)
    requires d'.log == d.log && d'.wiped == d.wiped && d'.core.cfg == d.core.cfg
    ensures KeepsDisk(d, d')
    ensures d'.core == d.core ==> Keeps(d, d')
  {
  }

  /** Stops the websocket around a port change, outside the transaction. */
  function ApplyConfig(sys: Sys, d: Device, patch: Config): (r: Out)
    ensures KeepsDisk(d, r.dev)
    ensures !r.Crashed? && d.core.ws ==> Keeps(d, r.dev) && r.dev.core.ws
    ensures d.core.ws ==> r.dev.misused == d.misused
    ensures r.dev.core.runtime == d.core.runtime && r.dev.core.mq == d.core.mq
    ensures r.Done? ==> r.next.None? && r.dev.core.cfg == Overwrite(d.core.cfg, patch)
  {
    hide Keeps, KeepsDisk, Overwrite, PortsChanged;
    var d1 :- Ask(sys, d);
    var before := d1.core.cfg;
    var changed := PortsChanged(before, patch);
    var d2 := if changed then BareStop(d1).dev else d1;
    match WriteConfig(sys, d2, patch)
    case Crashed(d3) =>
      IdleKeeps(d, d3);
      Crashed(d3)
    case Failed(d3) =>
      var d4 := if changed then BareStart(d3).dev else d3;
      IdleKeeps(d, d4);
      Failed(d4)
    case Done(d3, _) =>
      var r := AfterConfigWrite(sys, d3, before, patch, changed);
      BracketKeeps(d, r.dev, patch);
      r
  }

  function Rebuild(sys: Sys, d: Device): (r: Out)
    ensures Keeps(d, r.dev)
    ensures r.dev.misused == d.misused
    ensures r.dev.core == d.core.(cfg := r.dev.core.cfg)
    ensures r.Done? ==>
              r.next.None? && r.dev.core.cfg == Overwrite(Overwrite(d.core.cfg, NO_SERVICES), Services(d.core.cfg))
  {
    hide Unwind, UnwindDisk, Replayable, Misplayed, Marked;
    var d :- Ask(sys, d);
    var services := Services(d.core.cfg);
    var d :- WriteConfig(sys, d, NO_SERVICES);
    WriteConfig(sys, d, services)
  }

  function HandleUpdateConfig(sys: Sys, d: Device, t: Transition): (r: Out)
    ensures KeepsDisk(d, r.dev)
    ensures !r.Crashed? && (t.OnUpdateConfig? ==> d.core.ws) ==> Keeps(d, r.dev) && r.dev.core.ws == d.core.ws
    ensures (t.OnUpdateConfig? ==> d.core.ws) ==> r.dev.misused == d.misused
    ensures r.dev.core.runtime == d.core.runtime && r.dev.core.mq == d.core.mq
    ensures r.Done? ==> r.next == Some(if t.OnAfterBoot? then OnFallback else OnUpdateConfigFinished)
    ensures r.Done? && t.OnAfterBoot? ==> r.dev.core == d.core
  {
    hide Unwind, UnwindDisk, Replayable, Misplayed, Marked;
    match t
    case OnAfterBoot(_) => Done(d, Some(OnFallback))
    case OnUpdateConfig(patch) =>
      var d :- ApplyConfig(sys, d, patch);
      Done(d, Some(OnUpdateConfigFinished))
    case OnRebuildServices =>
      var d :- Rebuild(sys, d);
      Done(d, Some(OnUpdateConfigFinished))
    case _ => Failed(d)
  }

  // ---------- maintenance ----------

  const AGENT_PACKAGE := "sdwan-agent"
  const BGP_ADAPTER_PACKAGE := "sdwan-bgp-adapter"
  const BGPD_PACKAGE := "sdwan-bgpd"
  const UPDATE_MANAGER_PACKAGE := "sdwan-update-manager"

  function Without(packages: seq<string>, name: string): (r: seq<string>)
    ensures forall p :: p in r <==> p in packages && p != name
  {
    if packages == [] then []
    else if packages[0] == name then Without(packages[1..], name)
    else [packages[0]] + Without(packages[1..], name)
  }

  /** Asks the update manager to install and waits for its answer. */
  function Install(sys: Sys, d: Device): (r: Out)
    ensures r.dev == d.(clock := r.dev.clock) && (r.Done? ==> r.next.None?)
  {
    var d :- Ask(sys, d);
    Ask(sys, d)
  }

  /** Installing the agent itself, under a checkpoint that only a failed installation takes back. */
  function InstallAgent(sys: Sys, d: Device): (r: Out)
    ensures KeepsBeyondMarks(d, r.dev)
    ensures r.dev.core == d.core && r.dev.misused == d.misused && r.dev.wiped == d.wiped
    ensures !Marked(d.log) && Marked(r.dev.log) ==> AtMark(r.dev)
    ensures r.Done? ==> Marked(r.dev.log) && r.next.None?
  {
    hide Unwind, UnwindDisk, Replayable, Misplayed, Marked;
    var d1 :- AddCheckPoint(sys, d);
    match Install(sys, d1)
    case Failed(d2) =>
      (match DeleteCheckPoint(sys, d2, d.clock)
       case Crashed(d3) => Crashed(d3)
       case r => Failed(r.dev))
    case r => r
  }

  lemma ServicesAreNotTheState(c: Config)
    ensures Overwrite(c, NO_SERVICES).state == c.state
  {
  }

  function UpdatePackages(sys: Sys, d: Device, packages: seq<string>): (r: Out)
    ensures KeepsBeyondMarks(d, r.dev)
    ensures r.dev.core == d.core.(cfg := r.dev.core.cfg) && r.dev.core.cfg.state == d.core.cfg.state
    ensures r.dev.misused == d.misused && r.dev.wiped == d.wiped
    ensures !Marked(d.log) && Marked(r.dev.log) ==>
              AtMark(r.dev) && AGENT_PACKAGE in packages && r.dev.core.cfg == Overwrite(d.core.cfg, NO_SERVICES)
    ensures r.Done? && AGENT_PACKAGE in packages ==> Marked(r.dev.log)
  {
    hide Unwind, UnwindDisk, Replayable, Misplayed, Marked, Overwrite;
    ServicesAreNotTheState(d.core.cfg);
    var d1 :- if UPDATE_MANAGER_PACKAGE in packages then Ask(sys, d) else Done(d, None);
    var rest := Without(packages, UPDATE_MANAGER_PACKAGE);
    var d2 :- if AGENT_PACKAGE in rest || BGP_ADAPTER_PACKAGE in rest || BGPD_PACKAGE in rest
              then WriteConfig(sys, d1, NO_SERVICES) else Done(d1, None);
    if AGENT_PACKAGE in rest then InstallAgent(sys, d2) else Install(sys, d2)
  }

  /** Reports the outcome to the orchestrator; a failed report counts as a failed update. */
  function Report(sys: Sys, d: Device, failed: bool): (r: Out)
    ensures !r.Failed? && r.dev == d.(clock := d.clock + 1)
    ensures r.Done? ==> r.next.Some? && r.next.value.OnUpdateDeviceFinished? && (failed ==> r.next.value.failed)
  {
    match Ask(sys, d)
    case Crashed(d) => Crashed(d)
    case s => Done(s.dev, Some(OnUpdateDeviceFinished(failed || s.Failed?)))
  }

  function WaitInstallAfterBoot(sys: Sys, d: Device): (r: Out)
    ensures r.dev.core == d.core.(ws := true) && r.dev.log == d.log && r.dev.wiped == d.wiped
    ensures r.dev.misused == if d.core.ws then d.misused + {Websocket} else d.misused
  {
    var d :- BareStart(d);
    Ask(sys, d)
  }

  function HandleMaintenance(sys: Sys, d: Device, t: Transition): (r: Out)
    ensures t.OnUpdateDevice? ==> KeepsBeyondMarks(d, r.dev)
    ensures t.OnUpdateDevice? && !Marked(d.log) && Marked(r.dev.log) ==>
              AtMark(r.dev) && AGENT_PACKAGE in t.packages && r.dev.core.cfg == Overwrite(d.core.cfg, NO_SERVICES)
    ensures t.OnUpdateDevice? ==> r.dev.core == d.core.(cfg := r.dev.core.cfg) && r.dev.misused == d.misused
    ensures !t.OnUpdateDevice? ==> KeepsDisk(d, r.dev)
    ensures t.OnUpdateDevice? || t.OnAfterBoot? ==> !r.Failed?
    ensures t.OnAfterBoot? ==>
              r.dev.core == d.core.(ws := true) &&
                  r.dev.misused == (if d.core.ws then d.misused + {Websocket} else d.misused)
    ensures t.OnAfterBoot? ==> r.dev.log == d.log
    ensures r.dev.wiped == d.wiped && r.dev.core.cfg.state == d.core.cfg.state
    ensures r.Done? ==> r.next.Some? && r.next.value.OnUpdateDeviceFinished?
    ensures r.Failed? ==> r.dev == d
  {
    match t
    case OnAfterBoot(_) =>
      (match WaitInstallAfterBoot(sys, d)
       case Crashed(d) => Crashed(d)
       case r => Report(sys, r.dev, r.Failed?))
    case OnUpdateDevice(packages) =>
      (match UpdatePackages(sys, d, packages)
       case Crashed(d) => Crashed(d)
       case r => Report(sys, r.dev, r.Failed?))
    case _ => Failed(d)
  }

  // ---------- ztp setup ----------

  /** Sets the only port of a hub, or deletes it. The command for a port needs its mask as a number. */
  function WritePorts(sys: Sys, d: Device, port: Option<string>): (r: Out)
    ensures Keeps(d, r.dev)
    ensures r.dev.misused == d.misused
    ensures r.dev.core == d.core.(cfg := r.dev.core.cfg) && r.dev.core.cfg.state == d.core.cfg.state
    ensures r.Done? ==> r.next.None?
  {
    hide Unwind, UnwindDisk, Replayable, Misplayed, Marked;
    var d :- Ask(sys, d);
    var ports := if port.Some? then [port.value] else [];
    var d :- WriteConfig(sys, d, BLANK.(port := Some(Ports(ports, []))));
    var d :- Check(d, port.Some? ==> sys.converts(port.value));
    var d :- if port.Some? then Ask(sys, d) else Done(d, None);
    Activity(sys, d)
  }

  function HandleZTPSetup(sys: Sys, d: Device, t: Transition): (r: Out)
    ensures Keeps(d, r.dev)
    ensures r.dev.misused == d.misused
    ensures r.dev.core == d.core.(cfg := r.dev.core.cfg)
    ensures r.Done? ==> r.next == Some(if t.OnAfterBoot? then OnZTPSetupInterrupted else OnZTPSetupFinished)
    ensures r.Done? && t.OnAfterBoot? ==> r.dev.core == d.core
  {
    hide Unwind, UnwindDisk, Replayable, Misplayed, Marked;
    match t
    case OnAfterBoot(_) => Done(d, Some(OnZTPSetupInterrupted))
    case OnZTPSetupConfig(patch) =>
      var d :- WriteConfig(sys, d, patch);
      Done(d, Some(OnZTPSetupFinished))
    case OnHubSetPort(port) =>
      var d :- WritePorts(sys, d, Some(port));
      Done(d, Some(OnZTPSetupFinished))
    case OnHubDeletePort(_) =>
      var d :- WritePorts(sys, d, None);
      Done(d, Some(OnZTPSetupFinished))
    case _ => Failed(d)
  }

  // ---------- reset ----------

  function StopIfStarted(sys: Sys, d: Device): (r: Out)
    ensures Keeps(d, r.dev)
    ensures r.dev.misused == d.misused
    ensures r.Done? ==> r.next.None? && r.dev.core == d.core.(ws := false)
    ensures !r.Done? ==> r.dev.core == d.core
  {
    if d.core.ws then StopWebsocket(sys, d) else Done(d, None)
  }

  /** Closing the database, once the checkpoint is set; a failure takes the checkpoint back if it can. */
  function CloseAndWipe(sys: Sys, d: Device, id: nat): (r: Out)
    ensures KeepsBeyondMarks(d, r.dev)
    ensures r.dev.core == d.core && r.dev.misused == d.misused
    ensures r.dev.log == d.log || (r.Failed? && r.dev.log == Unmark(d.log, id))
    ensures r.Done? ==> r.dev.log == d.log && r.next.None?
    ensures r.dev.wiped ==> d.wiped || r.Done?
  {
    var d :- Attempt(sys, d);
    match Ask(sys, d)
    case Crashed(d) => Crashed(d)
    case Failed(d) =>
      (match DeleteCheckPoint(sys, d, id)
       case Crashed(d) => Crashed(d)
       case r => Failed(r.dev))
    case Done(d, _) =>
      match Ask(sys, d)
      case Done(d, _) => Done(d.(wiped := true), None)
      case Failed(d) => Done(d, None)
      case Crashed(d) => Crashed(d)
  }

  /** Everything reset does before its checkpoint. */
  function PrepareReset(sys: Sys, d: Device): (r: Out)
    ensures Keeps(d, r.dev)
    ensures r.dev.misused == d.misused
    ensures r.dev.core.runtime == d.core.runtime && r.dev.core.mq == d.core.mq
    ensures r.Done? ==>
              r.next.None? && r.dev.core == d.core.(ws := false, cfg := Overwrite(d.core.cfg, sys.emptyConfig))
  {
    hide Unwind, UnwindDisk, Replayable, Misplayed, Marked;
    var d :- StopIfStarted(sys, d);
    var d :- Activity(sys, d);
    var d :- WriteConfig(sys, d, sys.emptyConfig);
    var d :- Activity(sys, d);
    var d :- Activity(sys, d);
    var d :- Activity(sys, d);
    Activity(sys, d)
  }

  function ResetDevice(sys: Sys, d: Device): (r: Out)
    ensures KeepsBeyondMarks(d, r.dev)
    ensures r.dev.misused == d.misused && r.dev.core.runtime == d.core.runtime && r.dev.core.mq == d.core.mq
    ensures !Marked(d.log) && Marked(r.dev.log) ==>
              AtMark(r.dev) && r.dev.core == d.core.(ws := false, cfg := Overwrite(d.core.cfg, sys.emptyConfig))
    ensures r.Done? ==>
              r.next.None? && Marked(r.dev.log) &&
                  r.dev.core == d.core.(ws := false, cfg := Overwrite(d.core.cfg, sys.emptyConfig))
    ensures r.dev.wiped ==> d.wiped || r.Done?
  {
    var d1 :- PrepareReset(sys, d);
    var d2 :- AddCheckPoint(sys, d1);
    CloseAndWipe(sys, d2, d1.clock)
  }

  function ResetHub(sys: Sys, d: Device): (r: Out)
    ensures Keeps(d, r.dev)
    ensures r.dev.misused == d.misused
    ensures r.dev.core.runtime == d.core.runtime && r.dev.core.mq == d.core.mq
    ensures r.Done? ==> r.next.None? && !r.dev.core.ws && r.dev.core.cfg.port == d.core.cfg.port
    ensures r.Done? && Assumed(sys) ==> Serial(r.dev.core.cfg) == ""
  {
    hide Unwind, UnwindDisk, Replayable, Misplayed, Marked;
    var d :- Ask(sys, d);
    var port := d.core.cfg.port;
    var d :- StopIfStarted(sys, d);
    var d :- Activity(sys, d);
    var d :- WriteConfig(sys, d, sys.emptyConfig.(port := port));
    var d :- Activity(sys, d);
    Attempt(sys, d)
  }

  function HandleReset(sys: Sys, d: Device, t: Transition): (r: Out)
    ensures KeepsBeyondMarks(d, r.dev)
    ensures (t.OnReset? && !sys.kind.Hub?) || Keeps(d, r.dev)
    ensures r.dev.misused == d.misused && r.dev.core.runtime == d.core.runtime && r.dev.core.mq == d.core.mq
    ensures t.OnReset? && !sys.kind.Hub? && !Marked(d.log) && Marked(r.dev.log) ==>
              AtMark(r.dev) && r.dev.core == d.core.(ws := false, cfg := Overwrite(d.core.cfg, sys.emptyConfig))
    ensures t.OnReset? && !sys.kind.Hub? && r.Done? ==>
              r.next.None? && Marked(r.dev.log) &&
                  r.dev.core == d.core.(ws := false, cfg := Overwrite(d.core.cfg, sys.emptyConfig))
    ensures t.OnReset? && sys.kind.Hub? && r.Done? ==>
              r.next == Some(OnHubResetFinished) && !r.dev.core.ws && r.dev.core.cfg.port == d.core.cfg.port
    ensures t.OnAfterBoot? ==> r.dev.core == d.core
    ensures t.OnAfterBoot? && r.Done? ==>
              r.next == Some(if Serial(d.core.cfg) == "" then OnInitFallback else OnFallback)
    ensures r.dev.wiped ==> d.wiped || r.Done?
    ensures r.Done? ==> t.OnAfterBoot? || t.OnReset?
  {
    hide Unwind, UnwindDisk, Replayable, Misplayed, Marked;
    match t
    case OnAfterBoot(_) =>
      var d :- Ask(sys, d);
      Done(d, Some(if Serial(d.core.cfg) == "" then OnInitFallback else OnFallback))
    case OnReset =>
      if sys.kind.Hub? then
        var d :- ResetHub(sys, d);
        Done(d, Some(OnHubResetFinished))
      else ResetDevice(sys, d)
    case _ => Failed(d)
  }
}
