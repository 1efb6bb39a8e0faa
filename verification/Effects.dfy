/** What a completed command has done to the configuration, across both transitions of its chain. */
module Effects {
  import opened Common
  import opened Configs
  import opened Transitions
  import opened Devices
  import opened Handlers
  import opened Engine
  import opened Steps
  import opened Safety
  import opened Calls

  lemma FollowUpKeepsConfig(sys: Sys, d: Device, t: Transition)
    requires d.core.runtime != Boot && FollowUp(t)
    ensures var r := PerformTransition(sys, d, t);
            r.Done? ==>
              && r.next.None? && r.dev.core.runtime == ToState(t)
              && r.dev.core.cfg == d.core.cfg.(state := Some(ToState(t)))
  {
    hide HandleActive, HandleInit, Enter, Keeps, KeepsDisk;
    if !Refused(d, t) {
      PerformIsEnterThenHandle(sys, d, t);
      EnterIsMarkFree(sys, d, t);
      hide PerformTransition;
    }
  }

  /** A configuration with every missing service section counted as empty. */
  function FillServices(c: Config): Config {
    c.(trunk := Some(Filled(c.trunk)), p2p := Some(Filled(c.p2p)), bridge := Some(Filled(c.bridge)),
       l3 := Some(Filled(c.l3)), isb := Some(Filled(c.isb)), fw := Some(Filled(c.fw)))
  }

  function Filled(b: Option<Blob>): Blob {
    if b.Some? then b.value else []
  }

  lemma RebuildFills(c: Config)
    ensures Overwrite(Overwrite(c, NO_SERVICES), Services(c)) == FillServices(c)
  {
  }

  /** The configuration after the first half of an init request: addresses and network sections. */
  function Networked(c: Config, init: InitConfig): Config
    requires c.app.Some?
  {
    var app := c.app.value;
    c.(app := Some(app.(tunnel := init.tunnel, addrs := if init.addrs == [] then app.addrs else init.addrs)),
       wireguard := Some(init.wireguard), port := Some(init.ports), wanProtection := Some(init.wanProtection),
       loopback := Some(init.loopback), ipRule := Some(init.ipRule), pony := Some(init.pony),
       adminState := Some(init.adminState))
  }

  /** The configuration after an init request was carried out. */
  function Initialized(c: Config, init: InitConfig): Config
    requires c.app.Some?
  {
    Networked(c, init).(
      trunk := Some(init.trunk), l3 := Some(init.l3), isb := Some(init.isb), bridge := Some(init.bridge),
      p2p := Some(init.p2p), fw := Some(init.fw))
  }

  /** The configuration after a first setup: the given serial number, and everything the init request brought. */
  function Installed(c: Config, serial: string, addrs: seq<string>, init: InitConfig): Config {
    Initialized(c.(app := Some(App(serial, addrs, "", ""))), init)
  }

  /** A configuration after a reset: every section the empty one carries, except the ports of a hub. */
  function Emptied(sys: Sys, c: Config): Config {
    Overwrite(c, if sys.kind.Hub? then sys.emptyConfig.(port := c.port) else sys.emptyConfig)
  }

  /** Whatever the stored state was on the way. */
  lemma EmptiedMeans(sys: Sys, c: Config, s: AppState, s': AppState)
    requires Assumed(sys)
    ensures var e := Emptied(sys, c.(state := Some(s)));
            && Serial(e) == Serial(e.(state := Some(s'))) == ""
            && (if sys.kind.Hub? then e.port == c.port else !HasPorts(e) && !HasPorts(e.(state := Some(s'))))
            && e.(state := Some(s')) == Emptied(sys, c).(state := Some(s'))
  {
  }

  /** As Installed, with an init request that arrived while the calls from the one to the other number were made. */
  ghost predicate InstalledBy(sys: Sys, from: nat, to: nat, c: Config, serial: string, addrs: seq<string>, c': Config) {
    exists n: nat | from <= n < to :: sys.answer(n).Arrives? && c' == Installed(c, serial, addrs, sys.answer(n).init)
  }

  /** What the handler of a command writes, from c to c', with the calls from the one to the other number. */
  ghost predicate Wrote(sys: Sys, t: Transition, from: nat, to: nat, c: Config, c': Config) {
    match t
    case OnUpdateConfig(patch) => c' == Overwrite(c, patch)
    case OnZTPSetupConfig(patch) => c' == Overwrite(c, patch)
    case OnRebuildServices => c' == FillServices(c)
    case OnHubSetPort(port) => sys.converts(port) && c' == c.(port := Some(Ports([port], [])))
    case OnHubDeletePort(_) => c' == c.(port := Some(Ports([], [])))
    case OnReset => c' == Emptied(sys, c)
    case OnFirstSetup(serial, addrs) => Accepts(c, addrs) && InstalledBy(sys, from, to, c, serial, addrs, c')
    case OnUpdateDevice(packages) =>
      && (c' == c || (TouchesServices(packages) && c' == Overwrite(c, NO_SERVICES)))
      && (AllSucceed(sys, from, to) && TouchesServices(packages) ==> c' == Overwrite(c, NO_SERVICES))
    case _ => true
  }

  /** The packages whose update begins with deleting the services. */
  predicate TouchesServices(packages: seq<string>) {
    AGENT_PACKAGE in packages || BGP_ADAPTER_PACKAGE in packages || BGPD_PACKAGE in packages
  }

  lemma HandlerWrites(sys: Sys, d: Device, t: Transition, from: nat, to: nat)
    requires Assumed(sys) && IsCommand(t)
    requires var r := Handle(sys, d, ToState(t), t);
             r.Done? ==> from <= d.clock && r.dev.clock <= to
    ensures var r := Handle(sys, d, ToState(t), t);
            r.Done? ==> Wrote(sys, t, from, to, d.core.cfg, r.dev.core.cfg)
  {
    hide Keeps, KeepsDisk, KeepsBeyondMarks, AtMark, Marked, Overwrite, FillServices, Accepts, Installed, Emptied;
    hide Serial, HasPorts, InstalledBy, AllSucceed, TouchesServices;
    hide ApplyConfig, Rebuild, WriteConfig, WritePorts, ResetHub, ResetDevice, FirstSetup, UpdatePackages, Assumed;
    if !Handle(sys, d, ToState(t), t).Done? {
      return;
    }
    match t
    case OnRebuildServices => RebuildFills(d.core.cfg);
    case OnHubSetPort(port) => PortsWritten(sys, d, Some(port));
    case OnHubDeletePort(_) => PortsWritten(sys, d, None);
    case OnReset => ResetWrites(sys, d);
    case OnFirstSetup(serial, addrs) => SetupWrites(sys, d, serial, addrs, from, to);
    case OnUpdateDevice(packages) => UpdateWrites(sys, d, packages, from, to);
    case _ =>
  }

  lemma PortsWritten(sys: Sys, d: Device, port: Option<string>)
    ensures var r := WritePorts(sys, d, port);
            r.Done? ==>
              && (port.Some? ==> sys.converts(port.value))
              && r.dev.core.cfg == d.core.cfg.(port := Some(Ports(if port.Some? then [port.value] else [], [])))
  {
    hide Keeps, KeepsDisk;
  }

  lemma ResetWrites(sys: Sys, d: Device)
    ensures var r := ResetHub(sys, d);
            sys.kind.Hub? && r.Done? ==> r.dev.core.cfg == Emptied(sys, d.core.cfg)
    ensures var r := ResetDevice(sys, d);
            !sys.kind.Hub? && r.Done? ==> r.dev.core.cfg == Emptied(sys, d.core.cfg)
  {
    hide ResetDevice, Overwrite, Keeps, KeepsBeyondMarks, AtMark;
  }

  lemma NetworkWrites(sys: Sys, d: Device, init: InitConfig)
    requires d.core.cfg.app.Some?
    ensures var r := InstallNetwork(sys, d, init);
            r.Done? ==> r.dev.core.cfg == Networked(d.core.cfg, init)
  {
    hide Keeps, KeepsDisk;
  }

  lemma InitWrites(sys: Sys, d: Device, init: InitConfig)
    requires d.core.cfg.app.Some?
    ensures var r := InitDevice(sys, d, init);
            r.Done? ==> r.dev.core.cfg == Initialized(d.core.cfg, init)
  {
    hide Keeps, KeepsDisk, InstallNetwork, Networked;
    NetworkWrites(sys, d, init);
  }

  lemma AwaitWrites(sys: Sys, d: Device)
    requires d.core.cfg.app.Some?
    ensures var r := AwaitFirstInit(sys, d);
            r.Done? ==>
              && sys.answer(d.clock).Arrives?
              && r.dev.core.cfg == Initialized(d.core.cfg, sys.answer(d.clock).init)
  {
    hide InitDevice, Keeps, KeepsDisk, Initialized;
    if sys.answer(d.clock).Arrives? {
      InitWrites(sys, d.(clock := d.clock + 1), sys.answer(d.clock).init);
    }
  }

  /** The init request that is installed is the one that arrived at the sixth call. */
  lemma ConnectWrites(sys: Sys, d: Device, serial: string, addrs: seq<string>)
    ensures var r := Connect(sys, d, serial, addrs);
            var answer := sys.answer(d.clock + 5);
            r.Done? ==>
              && Accepts(d.core.cfg, addrs) && answer.Arrives?
              && r.dev.core.cfg == Installed(d.core.cfg, serial, addrs, answer.init)
  {
    hide Keeps, KeepsDisk, AwaitFirstInit, HasScheme, Initialized;
    var app := App(serial, addrs, "", "");
    assert Overwrite(d.core.cfg, BLANK.(app := Some(app))) == d.core.cfg.(app := Some(app));
    forall e: Device | e.core.cfg.app.Some?
      ensures var r := AwaitFirstInit(sys, e);
              r.Done? ==>
                sys.answer(e.clock).Arrives? && r.dev.core.cfg == Initialized(e.core.cfg, sys.answer(e.clock).init)
    {
      AwaitWrites(sys, e);
    }
  }

  lemma SetupWrites(sys: Sys, d: Device, serial: string, addrs: seq<string>, from: nat, to: nat)
    requires var r := FirstSetup(sys, d, serial, addrs);
             r.Done? ==> from <= d.clock && r.dev.clock <= to
    ensures var r := FirstSetup(sys, d, serial, addrs);
            r.Done? ==>
              Accepts(d.core.cfg, addrs) && InstalledBy(sys, from, to, d.core.cfg, serial, addrs, r.dev.core.cfg)
  {
    hide Keeps, KeepsDisk, Connect, Subscribe, Accepts, Installed, InitCalls;
    ConnectWrites(sys, d, serial, addrs);
    FirstSetupMakes(sys, d, serial, addrs);
    var r := FirstSetup(sys, d, serial, addrs);
    if r.Done? {
      var n := d.clock + 5;
      assert from <= n < to;
      assert sys.answer(n).Arrives? && r.dev.core.cfg == Installed(d.core.cfg, serial, addrs, sys.answer(n).init);
    }
  }

  lemma UpdateWrites(sys: Sys, d: Device, packages: seq<string>, from: nat, to: nat)
    requires from <= d.clock &&
               (!UpdatePackages(sys, d, packages).Crashed? ==> UpdatePackages(sys, d, packages).dev.clock <= to)
    ensures var r := UpdatePackages(sys, d, packages);
            && (r.dev.core.cfg == d.core.cfg ||
                  (TouchesServices(packages) && r.dev.core.cfg == Overwrite(d.core.cfg, NO_SERVICES)))
            && (AllSucceed(sys, from, to) && !r.Crashed? && TouchesServices(packages) ==>
                  r.dev.core.cfg == Overwrite(d.core.cfg, NO_SERVICES))
  {
    PackagesWrite(sys, d, packages);
    PackagesMake(sys, d, packages);
    hide UpdatePackages, Overwrite, Made, PackageCalls, TouchesServices;
  }

  lemma PackagesWrite(sys: Sys, d: Device, packages: seq<string>)
    ensures var r := UpdatePackages(sys, d, packages);
            && (r.dev.core.cfg == d.core.cfg ||
                  (TouchesServices(packages) && r.dev.core.cfg == Overwrite(d.core.cfg, NO_SERVICES)))
            && (r.Done? && TouchesServices(packages) ==> r.dev.core.cfg == Overwrite(d.core.cfg, NO_SERVICES))
  {
    hide Keeps, KeepsDisk, KeepsBeyondMarks, AtMark, Overwrite;
  }

  /** The configuration a completed chain leaves, apart from the stored state. */
  lemma ChainWrites(sys: Sys, d: Device, t: Transition)
    requires d.core.runtime != Boot && IsCommand(t)
    ensures Chain(sys, d, t).Done? ==>
            var e := Enter(sys, d, t).dev;
            var h := Handle(sys, e, ToState(t), t);
            && !Refused(d, t) && Enter(sys, d, t).Done?
            && e.core.cfg == d.core.cfg.(state := Some(ToState(t)))
            && h.Done?
            && Chain(sys, d, t).dev.core.cfg ==
                 if h.next.Some? then h.dev.core.cfg.(state := Some(Chain(sys, d, t).dev.core.runtime))
                 else h.dev.core.cfg
  {
    hide Chain, Handle, Enter, Keeps, PerformTransition, Refused;
    ChainIsShort(sys, d, t);
    CommandFollowUps(sys, d, t);
    if Chain(sys, d, t).Done? {
      var r := PerformTransition(sys, d, t);
      AllowedIfDone(sys, d, t);
      PerformIsEnterThenHandle(sys, d, t);
      EnterIsMarkFree(sys, d, t);
      if r.next.Some? {
        FollowUpKeepsConfig(sys, r.dev, r.next.value);
      }
    }
  }

  /** The state a completed command ends in. */
  function EndState(sys: Sys, t: Transition): AppState {
    match t
    case OnZTPSetupConfig(_) => Init
    case OnHubSetPort(_) => Init
    case OnHubDeletePort(_) => Init
    case OnReset => if sys.kind.Hub? then Init else Reset
    case _ => Active
  }

  lemma HandlerNext(sys: Sys, d: Device, t: Transition)
    requires IsCommand(t)
    ensures var r := Handle(sys, d, ToState(t), t);
            r.Done? ==>
              && (r.next.Some? <==> ToState(t) != EndState(sys, t))
              && (r.next.Some? ==> FollowUp(r.next.value) && ToState(r.next.value) == EndState(sys, t))
  {
    hide HandleInit, HandleActive, HandleUpdateConfig, HandleMaintenance, HandleZTPSetup, HandleReset, Keeps;
    hide KeepsDisk, KeepsBeyondMarks, AtMark;
  }

  lemma CommandEndsIn(sys: Sys, d: Device, t: Transition)
    requires d.core.runtime != Boot && IsCommand(t)
    ensures Chain(sys, d, t).Done? ==> Chain(sys, d, t).dev.core.runtime == EndState(sys, t)
  {
    ChainIsShort(sys, d, t);
    CommandFollowUps(sys, d, t);
    hide Chain, Handle, Enter, EndState;
    if !Refused(d, t) {
      PerformIsEnterThenHandle(sys, d, t);
      EnterIsMarkFree(sys, d, t);
      HandlerNext(sys, Enter(sys, d, t).dev, t);
      var r := PerformTransition(sys, d, t);
      hide PerformTransition;
      if r.Done? && r.next.Some? {
        FollowUpKeepsConfig(sys, r.dev, r.next.value);
      }
    }
  }

  /** Where a command that is not refused finds a resting device. */
  lemma CommandsComeFrom(sys: Sys, d: Device, t: Transition)
    requires Resting(sys, d) && IsCommand(t) && !Refused(d, t)
    ensures t.OnUpdateConfig? || t.OnRebuildServices? || t.OnUpdateDevice? ==> d.core.runtime == Active
    ensures t.OnZTPSetupConfig? || t.OnHubSetPort? || t.OnHubDeletePort? ==> d.core.runtime == Init
    ensures t.OnFirstSetup? && HasPorts(d.core.cfg) ==> d.core.runtime == Init
  {
  }

  lemma RestingCore(sys: Sys, d: Device)
    requires Resting(sys, d)
    ensures d.core.runtime in {Init, Active, Reset}
    ensures d.core.mq == ALWAYS_ON + Subjects(d.core.runtime) && d.core.ws == Online(d.core.runtime)
    ensures d.core.runtime in {Init, Active} ==> d.core.cfg.state == Some(d.core.runtime)
  {
  }

  /**
   * What a completed command has done, from c to r,
       with the calls from the one to the other number. Rebuilding the services is the identity on the whole device,
           up to
   * missing sections, although every service section was emptied in between.
   */
  ghost predicate Completed(sys: Sys, t: Transition, from: nat, to: nat, c: Core, r: Core) {
    match t
    case OnUpdateConfig(patch) =>
      c.runtime == Active && r == c.(cfg := Overwrite(c.cfg, patch).(state := Some(Active)))
    case OnRebuildServices => c.runtime == Active && r == c.(cfg := FillServices(c.cfg))
    case OnZTPSetupConfig(patch) =>
      c.runtime == Init && r == c.(cfg := Overwrite(c.cfg, patch).(state := Some(Init)))
    case OnHubSetPort(port) =>
      c.runtime == Init && sys.converts(port) && r == c.(cfg := c.cfg.(port := Some(Ports([port], []))))
    case OnHubDeletePort(_) => c.runtime == Init && r == c.(cfg := c.cfg.(port := Some(Ports([], []))))
    case OnFirstSetup(serial, addrs) =>
      && c.runtime == Init && Accepts(c.cfg, addrs) && r.runtime == Active
      && r.cfg.state == Some(Active) && InstalledBy(sys, from, to, c.cfg.(state := Some(Active)), serial, addrs, r.cfg)
    case OnReset =>
      && Serial(r.cfg) == "" && r.runtime == (if sys.kind.Hub? then Init else Reset)
      && (if sys.kind.Hub? then r.cfg == Emptied(sys, c.cfg).(state := Some(Init)) && r.cfg.port == c.cfg.port
          else r.cfg == Emptied(sys, c.cfg.(state := Some(Reset))) && !HasPorts(r.cfg))
    case OnUpdateDevice(packages) =>
      && c.runtime == Active
      && (r == c || (TouchesServices(packages) && r == c.(cfg := Overwrite(c.cfg, NO_SERVICES))))
      && (AllSucceed(sys, from, to) && TouchesServices(packages) ==> r == c.(cfg := Overwrite(c.cfg, NO_SERVICES)))
    case _ => true
  }

  /** The effect of a completed command on a resting device. */
  lemma CompletedCommandDoes(sys: Sys, d: Device, t: Transition)
    requires Assumed(sys) && Resting(sys, d) && IsCommand(t)
    ensures var r := Serve(sys, d, t);
            r.Done? ==> Completed(sys, t, d.clock, r.dev.clock, d.core, r.dev.core)
  {
    hide Serve, Assumed, Resting, Refused, Overwrite, FillServices, HasPorts, TouchesServices, Subjects, Accepts;
    hide Installed, Emptied;
    if Serve(sys, d, t).Done? {
      ServeWrites(sys, d, t);
      CommandsComeFrom(sys, d, t);
      RestingCore(sys, d);
      var c, r, e := d.core.cfg, Serve(sys, d, t).dev.core, d.core.cfg.(state := Some(ToState(t)));
      var c' :|
        Wrote(sys, t, d.clock, Serve(sys, d, t).dev.clock, e, c') && r.cfg ==
            if ToState(t) == EndState(sys, t) then c' else c'.(state := Some(r.runtime));
      StateIsApart(c, ToState(t), r.runtime);
      if t.OnReset? {
        EmptiedMeans(sys, c, Reset, Init);
      }
    }
  }

  /** Writing the stored state and writing anything else do not get in each other's way. */
  lemma StateIsApart(c: Config, s: AppState, s': AppState)
    ensures forall p: Config {:trigger Overwrite(c.(state := Some(s)), p)} ::
              Overwrite(c.(state := Some(s)), p).(state := Some(s')) == Overwrite(c, p).(state := Some(s'))
    ensures FillServices(c.(state := Some(s))).(state := Some(s')) == FillServices(c).(state := Some(s'))
    ensures FillServices(c).state == c.state && Overwrite(c, NO_SERVICES).state == c.state
    ensures HasPorts(c.(state := Some(s))) == HasPorts(c)
    ensures forall addrs {:trigger Accepts(c.(state := Some(s)), addrs)} :: Accepts(c.(state := Some(s)), addrs) ==>
              Accepts(c, addrs) && HasPorts(c)
    ensures forall serial, addrs, init {:trigger Installed(c.(state := Some(s)), serial, addrs, init)} ::
              Installed(c.(state := Some(s)), serial, addrs, init).state == Some(s)
    ensures forall c': Config {:trigger HasPorts(c'.(state := Some(s')))} ::
              HasPorts(c'.(state := Some(s'))) == HasPorts(c')
  {
  }

  lemma ServeWrites(sys: Sys, d: Device, t: Transition)
    requires Assumed(sys) && Resting(sys, d) && IsCommand(t)
    ensures Serve(sys, d, t).Done? ==>
            var r := Serve(sys, d, t).dev.core;
            && !Refused(d, t) && r.runtime == EndState(sys, t)
            && r.mq == ALWAYS_ON + Subjects(r.runtime) && r.ws == Online(r.runtime)
            && (r.runtime in {Init, Active} ==> r.cfg.state == Some(r.runtime))
            && exists c' :: Wrote(sys, t, d.clock, Serve(sys, d, t).dev.clock,
                 d.core.cfg.(state := Some(ToState(t))), c') &&
                            r.cfg == if ToState(t) == EndState(sys, t) then c' else c'.(state := Some(r.runtime))
  {
    hide Chain, Enter, Handle, Resting, Wrote, EndState, Subjects, Online, Assumed, Refused, Finish, Keeps;
    if Serve(sys, d, t).Done? {
      assert d.core.runtime != Boot by {
        RestingCore(sys, d);
      }
      ServeComesToRest(sys, d, t);
      RestingCore(sys, Serve(sys, d, t).dev);
      ServeIsRanThenFinish(sys, d, t);
      FinishDone(sys, d, t);
      hide Serve;
      var s := Ask(sys, d.(log := []));
      CommandEndsIn(sys, s.dev, t);
      ChainWrites(sys, s.dev, t);
      SameRefusal(s.dev, d, t);
      var e := Enter(sys, s.dev, t).dev;
      ServeBounds(sys, d, t);
      HandlerWrites(sys, e, t, d.clock, Serve(sys, d, t).dev.clock);
      HandlerNext(sys, e, t);
      var c' := Handle(sys, e, ToState(t), t).dev.core.cfg;
      assert Wrote(sys, t, d.clock, Serve(sys, d, t).dev.clock, d.core.cfg.(state := Some(ToState(t))), c');
    }
  }

  /** The handler of a completed command ran while the command was served. */
  lemma ServeBounds(sys: Sys, d: Device, t: Transition)
    requires d.core.runtime != Boot && IsCommand(t) && Serve(sys, d, t).Done?
    ensures var e := Enter(sys, Ask(sys, d.(log := [])).dev, t);
            e.Done? && d.clock <= e.dev.clock &&
                Handle(sys, e.dev, ToState(t), t).dev.clock <= Serve(sys, d, t).dev.clock
  {
    hide Ran, Serve, Chain, Enter, Handle, PerformTransition, Refused, Keeps, ExitCalls;
    CommitMakes(sys, d, t);
    var s := Ask(sys, d.(log := [])).dev;
    RanIsChain(sys, d, t);
    ChainIsShort(sys, s, t);
    AllowedIfDone(sys, s, t);
    PerformIsEnterThenHandle(sys, s, t);
    EnterMakes(sys, s, t);
    var h := PerformTransition(sys, s, t);
    CommandFollowUps(sys, s, t);
    HandlerNext(sys, Enter(sys, s, t).dev, t);
    if h.next.Some? {
      FollowUpMakes(sys, h.dev, h.next.value);
    }
  }

  lemma RanIsChain(sys: Sys, d: Device, t: Transition)
    ensures Ran(sys, d, t).Done? ==>
              Ask(sys, d.(log := [])).Done? && Ran(sys, d, t) == Chain(sys, Ask(sys, d.(log := [])).dev, t)
  {
    hide Chain;
  }

  lemma SameRefusal(d: Device, d': Device, t: Transition)
    requires d'.core == d.core
    ensures Refused(d', t) == Refused(d, t)
  {
  }
}
