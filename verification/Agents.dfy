/**
 * The agent as the program has it: one object whose fields the handlers change step by step, with the undo log of
 * the running transaction. Every method ends as the function of the same name says, whatever fails.
 */
module Agents {
  import opened Common
  import opened Configs
  import opened Transitions
  import Handlers
  import Engine
  import Safety
  import Boots
  import Effects
  import Checkpoints
  import Progress
  import opened Devices
  import opened Steps

  /** How a call returned: normally, with an error, or not at all. */
  datatype Status = Ok | Err | Dead

  function Pack(s: Status, d: Device, next: Option<Transition>): Out {
    match s
    case Ok => Done(d, next)
    case Err => Failed(d)
    case Dead => Crashed(d)
  }

  class Agent {
    const sys: Sys

    var activeState: AppState
    var cfg: Config
    var active: set<Subject>
    var started: bool
    var log: seq<Undo>
    var clock: nat
    var misused: set<Service>
    var wiped: bool

    function Now(): Device
      reads this
    {
      Device(Core(activeState, cfg, active, started), log, clock, misused, wiped)
    }

    /** A process that has just started on the configuration found on disk. */
    constructor (sys: Sys, cfg: Config, clock: nat)
      ensures this.sys == sys && Now() == Engine.Fresh(cfg, clock)
    {
      this.sys := sys;
      activeState, this.cfg, active, started := Boot, cfg, {}, false;
      log, this.clock, misused, wiped := [], clock, {}, false;
    }

    // ---------- services ----------

    method Ask() returns (s: Status)
      modifies this
      ensures Pack(s, Now(), None) == Devices.Ask(sys, old(Now()))
    {
      var verdict := sys.verdict(clock);
      clock := clock + 1;
      s := match verdict case Succeeds => Ok case Fails => Err case Crashes => Dead;
    }

    method Attempt() returns (s: Status)
      modifies this
      ensures Pack(s, Now(), None) == Devices.Attempt(sys, old(Now()))
    {
      hide Keeps, KeepsDisk, KeepsBeyondMarks, AtMark, Unwind, UnwindDisk, Replayable, Misplayed, Marked;
      s := Ask();
      if s == Err {
        s := Ok;
      }
    }

    method WriteConfig(patch: Config) returns (s: Status)
      modifies this
      ensures Pack(s, Now(), None) == Devices.WriteConfig(sys, old(Now()), patch)
    {
      hide Keeps, KeepsDisk, KeepsBeyondMarks, AtMark, Unwind, UnwindDisk, Replayable, Misplayed, Marked;
      s := Ask();
      if s == Ok {
        log := log + [RestoreConfig(patch, cfg)];
        cfg := Overwrite(cfg, patch);
      }
    }

    method Activity() returns (s: Status)
      modifies this
      ensures Pack(s, Now(), None) == Devices.Activity(sys, old(Now()))
    {
      hide Keeps, KeepsDisk, KeepsBeyondMarks, AtMark, Unwind, UnwindDisk, Replayable, Misplayed, Marked;
      s := Ask();
      if s == Ok {
        log := log + [RevertActivity];
      }
    }

    method ActivateSubject(subject: Subject) returns (s: Status)
      modifies this
      ensures Pack(s, Now(), None) == Devices.ActivateSubject(sys, old(Now()), subject)
    {
      hide Keeps, KeepsDisk, KeepsBeyondMarks, AtMark, Unwind, UnwindDisk, Replayable, Misplayed, Marked;
      s := Ask();
      if s == Ok {
        if subject in active {
          misused := misused + {Queue};
          return Err;
        }
        active := active + {subject};
        log := log + [Deactivate(subject)];
      }
    }

    method DeactivateSubject(subject: Subject) returns (s: Status)
      modifies this
      ensures Pack(s, Now(), None) == Devices.DeactivateSubject(sys, old(Now()), subject)
    {
      hide Keeps, KeepsDisk, KeepsBeyondMarks, AtMark, Unwind, UnwindDisk, Replayable, Misplayed, Marked;
      s := Ask();
      if s == Ok {
        if subject !in active {
          misused := misused + {Queue};
          return Err;
        }
        active := active - {subject};
        log := log + [Reactivate(subject)];
      }
    }

    method Start() returns (s: Status)
      modifies this
      ensures Pack(s, Now(), None) == Devices.BareStart(old(Now()))
    {
      hide Keeps, KeepsDisk, KeepsBeyondMarks, AtMark, Unwind, UnwindDisk, Replayable, Misplayed, Marked;
      if started {
        misused := misused + {Websocket};
        return Err;
      }
      started := true;
      s := Ok;
    }

    method Stop() returns (s: Status)
      modifies this
      ensures Pack(s, Now(), None) == Devices.BareStop(old(Now()))
    {
      hide Keeps, KeepsDisk, KeepsBeyondMarks, AtMark, Unwind, UnwindDisk, Replayable, Misplayed, Marked;
      if !started {
        misused := misused + {Websocket};
        return Err;
      }
      started := false;
      s := Ok;
    }

    method StartWebsocket() returns (s: Status)
      modifies this
      ensures Pack(s, Now(), None) == Devices.StartWebsocket(sys, old(Now()))
    {
      hide Keeps, KeepsDisk, KeepsBeyondMarks, AtMark, Unwind, UnwindDisk, Replayable, Misplayed, Marked;
      s := Ask();
      if s == Ok {
        s := Start();
        if s == Ok {
          log := log + [StopAgain];
        }
      }
    }

    method StopWebsocket() returns (s: Status)
      modifies this
      ensures Pack(s, Now(), None) == Devices.StopWebsocket(sys, old(Now()))
    {
      hide Keeps, KeepsDisk, KeepsBeyondMarks, AtMark, Unwind, UnwindDisk, Replayable, Misplayed, Marked;
      s := Ask();
      if s == Ok {
        s := Stop();
        if s == Ok {
          log := log + [StartAgain];
        }
      }
    }

    method AddCheckPoint() returns (s: Status, id: nat)
      modifies this
      ensures Pack(s, Now(), None) == Devices.AddCheckPoint(sys, old(Now())) && id == old(clock)
    {
      hide Keeps, KeepsDisk, KeepsBeyondMarks, AtMark, Unwind, UnwindDisk, Replayable, Misplayed, Marked;
      id := clock;
      s := Ask();
      if s == Ok {
        log := log + [Mark(id)];
      }
    }

    method DeleteCheckPoint(id: nat) returns (s: Status)
      modifies this
      ensures Pack(s, Now(), None) == Devices.DeleteCheckPoint(sys, old(Now()), id)
    {
      hide Keeps, KeepsDisk, KeepsBeyondMarks, AtMark, Unwind, UnwindDisk, Replayable, Misplayed, Marked;
      s := Ask();
      if s == Ok {
        log := Unmark(log, id);
      }
    }

    /** One undo action; it is skipped if its service is not in the state the action needs. */
    method UndoStep(e: Undo)
      modifies this
      ensures Now() == old(Now()).(core := UndoOne(old(Now()).core, e), misused := misused)
      ensures misused == if CanUndo(old(Now()).core, e) then old(misused) else old(misused) + CalledBy(e)
    {
      if !CanUndo(Now().core, e) {
        misused := misused + CalledBy(e);
      }
      match e
      case RestoreConfig(patch, prior) => cfg := Restore(cfg, patch, prior);
      case RestoreRuntime(from) =>
        if from != Boot {
          activeState := from;
        }
      case Reactivate(subject) => active := active + {subject};
      case Deactivate(subject) => active := active - {subject};
      case StartAgain => started := true;
      case StopAgain => started := false;
      case RevertActivity =>
      case Mark(_) =>
    }

    /** Replays the undo log from its end, down to the last live checkpoint. */
    method RollBack()
      modifies this
      ensures Now() == Engine.RollBack(old(Now()))
    {
      var i := |log|;
      assert log[..i] == log;
      while i > 0 && !log[i - 1].Mark?
        invariant 0 <= i <= |log| && log == old(log) && clock == old(clock) && wiped == old(wiped)
        invariant Unwind(true, Now().core, log[..i]) == Unwind(true, old(Now()).core, old(log))
        invariant misused + Misplayed(true, Now().core, log[..i]) ==
            old(misused) + Misplayed(true, old(Now()).core, old(log))
      {
        assert log[..i][..i - 1] == log[..i - 1];
        UndoStep(log[i - 1]);
        i := i - 1;
      }
      log := [];
    }

    method Finish(ran: Status) returns (s: Status)
      modifies this
      ensures Pack(s, Now(), None) == Engine.Finish(sys, Pack(ran, old(Now()), None))
    {
      hide Keeps, KeepsDisk, KeepsBeyondMarks, AtMark, Unwind, UnwindDisk, Replayable, Misplayed, Marked;
      if ran == Dead {
        return Dead;
      }
      s := Ask();
      if s == Dead {
        return;
      }
      if ran == Err {
        RollBack();
        s := Err;
      } else {
        log := [];
      }
    }

    // ---------- message queue subjects ----------

    method Subscribe(subjects: seq<Subject>) returns (s: Status)
      modifies this
      ensures Pack(s, Now(), None) == Handlers.Subscribe(sys, old(Now()), subjects)
    {
      hide Keeps, KeepsDisk, KeepsBeyondMarks, AtMark, Unwind, UnwindDisk, Replayable, Misplayed, Marked;
      var i := 0;
      s := Ok;
      while i < |subjects|
        invariant 0 <= i <= |subjects| && s == Ok
        invariant Handlers.Subscribe(sys, Now(), subjects[i..]) == Handlers.Subscribe(sys, old(Now()), subjects)
      {
        assert subjects[i..][1..] == subjects[i + 1..];
        s := ActivateSubject(subjects[i]);
        if s != Ok {
          return;
        }
        i := i + 1;
      }
    }

    method Unsubscribe(subjects: seq<Subject>) returns (s: Status)
      modifies this
      ensures Pack(s, Now(), None) == Handlers.Unsubscribe(sys, old(Now()), subjects)
    {
      hide Keeps, KeepsDisk, KeepsBeyondMarks, AtMark, Unwind, UnwindDisk, Replayable, Misplayed, Marked;
      var i := 0;
      s := Ok;
      while i < |subjects|
        invariant 0 <= i <= |subjects| && s == Ok
        invariant Handlers.Unsubscribe(sys, Now(), subjects[i..]) == Handlers.Unsubscribe(sys, old(Now()), subjects)
      {
        assert subjects[i..][1..] == subjects[i + 1..];
        s := DeactivateSubject(subjects[i]);
        if s != Ok {
          return;
        }
        i := i + 1;
      }
    }

    // ---------- init ----------

    method RestoreInit() returns (s: Status)
      modifies this
      ensures Pack(s, Now(), None) == Handlers.RestoreInit(sys, old(Now()))
    {
      hide Keeps, KeepsDisk, KeepsBeyondMarks, AtMark, Unwind, UnwindDisk, Replayable, Misplayed, Marked;
      s := Subscribe(INIT_SUBJECTS);
      if s != Ok {
        return;
      }
      if !sys.kind.Hub? {
        s := Activity();
        if s != Ok {
          return;
        }
        s := Activity();
      }
    }

    method HandleInit(t: Transition) returns (s: Status, next: Option<Transition>)
      modifies this
      ensures Pack(s, Now(), next) == Handlers.HandleInit(sys, old(Now()), t)
    {
      hide Keeps, KeepsDisk, KeepsBeyondMarks, AtMark, Unwind, UnwindDisk, Replayable, Misplayed, Marked;
      hide Handlers.Migrates, Handlers.RestoreInit, Handlers.Subscribe;
      next := None;
      match t
      case OnAfterBoot(_) =>
        if Handlers.Migrates(sys.deviceId) {
          s, next := Ok, Some(OnMigrateFromOldVersion(sys.deviceId, sys.endPoint));
        } else {
          s := RestoreInit();
        }
      case OnInitFallback => s := RestoreInit();
      case OnZTPSetupInterrupted => s := RestoreInit();
      case OnZTPSetupFinished => s := Subscribe(INIT_SUBJECTS);
      case OnHubResetFinished => s := Subscribe(INIT_SUBJECTS);
      case _ => s := Err;
    }

    // ---------- active ----------

    method InstallNetwork(init: InitConfig) returns (s: Status)
      modifies this
      ensures Pack(s, Now(), None) == Handlers.InstallNetwork(sys, old(Now()), init)
    {
      hide Keeps, KeepsDisk, KeepsBeyondMarks, AtMark, Unwind, UnwindDisk, Replayable, Misplayed, Marked;
      hide Overwrite;
      s := Ask();
      if s != Ok {
        return;
      }
      var app := if cfg.app.Some? then cfg.app.value else App("", [], "", "");
      app := app.(tunnel := init.tunnel, addrs := if init.addrs == [] then app.addrs else init.addrs);
      s := WriteConfig(BLANK.(app := Some(app)));
      if s != Ok {
        return;
      }
      s := Activity();
      if s != Ok {
        return;
      }
      s := Ask();
      if s != Ok {
        return;
      }
      s := WriteConfig(BLANK.(
        wireguard := Some(init.wireguard), port := Some(init.ports), wanProtection := Some(init.wanProtection),
        loopback := Some(init.loopback), ipRule := Some(init.ipRule), pony := Some(init.pony),
        adminState := Some(init.adminState)));
    }

    method InitDevice(init: InitConfig) returns (s: Status)
      modifies this
      ensures Pack(s, Now(), None) == Handlers.InitDevice(sys, old(Now()), init)
    {
      hide Keeps, KeepsDisk, KeepsBeyondMarks, AtMark, Unwind, UnwindDisk, Replayable, Misplayed, Marked;
      hide Overwrite, Handlers.InstallNetwork;
      s := InstallNetwork(init);
      if s != Ok {
        return;
      }
      s := Ask();
      if s != Ok {
        return;
      }
      if sys.kind.CPE? {
        s := Ask();
        if s != Ok {
          return;
        }
      }
      if sys.kind.CPE? || sys.kind.Hub? {
        s := Ask();
        if s != Ok {
          return;
        }
      }
      s := WriteConfig(BLANK.(
        trunk := Some(init.trunk), l3 := Some(init.l3), isb := Some(init.isb), bridge := Some(init.bridge),
        p2p := Some(init.p2p), fw := Some(init.fw)));
    }

    method AwaitFirstInit() returns (s: Status)
      modifies this
      ensures Pack(s, Now(), None) == Handlers.AwaitFirstInit(sys, old(Now()))
    {
      hide Keeps, KeepsDisk, KeepsBeyondMarks, AtMark, Unwind, UnwindDisk, Replayable, Misplayed, Marked;
      hide Handlers.InitDevice;
      var answer := sys.answer(clock);
      clock := clock + 1;
      match answer
      case NoAnswer => s := Err;
      case Arrives(init) => s := InitDevice(init);
    }

    method Connect(serial: string, addrs: seq<string>) returns (s: Status)
      modifies this
      ensures Pack(s, Now(), None) == Handlers.Connect(sys, old(Now()), serial, addrs)
    {
      hide Keeps, KeepsDisk, KeepsBeyondMarks, AtMark, Unwind, UnwindDisk, Replayable, Misplayed, Marked;
      s := Ask();
      if s != Ok {
        return;
      }
      if !HasPorts(cfg) {
        return Err;
      }
      var i := 0;
      while i < |addrs|
        invariant 0 <= i <= |addrs|
        invariant forall j | 0 <= j < i :: Handlers.HasScheme(addrs[j])
      {
        if !Handlers.HasScheme(addrs[i]) {
          return Err;
        }
        i := i + 1;
      }
      s := WriteConfig(BLANK.(app := Some(App(serial, addrs, "", ""))));
      if s != Ok {
        return;
      }
      s := Activity();
      if s != Ok {
        return;
      }
      s := Activity();
      if s != Ok {
        return;
      }
      s := StartWebsocket();
      if s != Ok {
        return;
      }
      s := AwaitFirstInit();
    }

    method FirstSetup(serial: string, addrs: seq<string>) returns (s: Status)
      modifies this
      ensures Pack(s, Now(), None) == Handlers.FirstSetup(sys, old(Now()), serial, addrs)
    {
      hide Keeps, KeepsDisk, KeepsBeyondMarks, AtMark, Unwind, UnwindDisk, Replayable, Misplayed, Marked;
      s := Connect(serial, addrs);
      if s != Ok {
        return;
      }
      if !sys.kind.Hub? {
        s := Activity();
        if s != Ok {
          return;
        }
      }
      s := Subscribe(ACTIVE_SUBJECTS);
    }

    method Migrate(serial: string, addr: string) returns (s: Status)
      modifies this
      ensures Pack(s, Now(), None) == Handlers.Migrate(sys, old(Now()), serial, addr)
    {
      hide Keeps, KeepsDisk, KeepsBeyondMarks, AtMark, Unwind, UnwindDisk, Replayable, Misplayed, Marked;
      s := Ask();
      if s != Ok {
        return;
      }
      var app := if cfg.app.Some? then cfg.app.value else App("", [], "", "");
      s := WriteConfig(BLANK.(app := Some(app.(serial := serial, addrs := [addr]))));
      if s != Ok {
        return;
      }
      s := Activity();
      if s != Ok {
        return;
      }
      s := StartWebsocket();
      if s != Ok {
        return;
      }
      s := Subscribe(ACTIVE_SUBJECTS);
    }

    method RestoreActive() returns (s: Status)
      modifies this
      ensures Pack(s, Now(), None) == Handlers.RestoreActive(sys, old(Now()))
    {
      hide Keeps, KeepsDisk, KeepsBeyondMarks, AtMark, Unwind, UnwindDisk, Replayable, Misplayed, Marked;
      s := Activity();
      if s != Ok {
        return;
      }
      s := Activity();
      if s != Ok {
        return;
      }
      if !started {
        s := StartWebsocket();
        if s != Ok {
          return;
        }
      }
      s := Subscribe(ACTIVE_SUBJECTS);
    }

    method HandleActive(t: Transition) returns (s: Status, next: Option<Transition>)
      modifies this
      ensures Pack(s, Now(), next) == Handlers.HandleActive(sys, old(Now()), t)
    {
      hide Keeps, KeepsDisk, KeepsBeyondMarks, AtMark, Unwind, UnwindDisk, Replayable, Misplayed, Marked;
      next := None;
      match t
      case OnAfterBoot(_) => s := RestoreActive();
      case OnFirstSetup(serial, addrs) => s := FirstSetup(serial, addrs);
      case OnMigrateFromOldVersion(id, addr) => s := Migrate(id, addr);
      case OnFallback => s := RestoreActive();
      case OnUpdateConfigFinished => s := Subscribe(ACTIVE_SUBJECTS);
      case OnUpdateDeviceFinished(_) =>
        s := Subscribe(ACTIVE_SUBJECTS);
        if s == Ok {
          s := Activity();
        }
      case _ => s := Err;
    }

    // ---------- update config ----------

    method AfterConfigWrite(before: Config, patch: Config, changed: bool) returns (s: Status)
      modifies this
      ensures Pack(s, Now(), None) == Handlers.AfterConfigWrite(sys, old(Now()), before, patch, changed)
    {
      hide Keeps, KeepsDisk, KeepsBeyondMarks, AtMark, Unwind, UnwindDisk, Replayable, Misplayed, Marked;
      s := Ok;
      if patch.app.Some? && before.app != patch.app {
        s := Attempt();
        if s != Ok {
          return;
        }
      }
      if !changed {
        return;
      }
      if sys.kind.CPE? && patch.pony.Some? {
        s := Ask();
      }
      if s != Dead {
        var _ := Start();
      }
    }

    method ApplyConfig(patch: Config) returns (s: Status)
      modifies this
      ensures Pack(s, Now(), None) == Handlers.ApplyConfig(sys, old(Now()), patch)
    {
      hide Keeps, KeepsDisk, KeepsBeyondMarks, AtMark, Unwind, UnwindDisk, Replayable, Misplayed, Marked;
      s := Ask();
      if s != Ok {
        return;
      }
      var before := cfg;
      var changed := Handlers.PortsChanged(before, patch);
      if changed {
        var _ := Stop();
      }
      s := WriteConfig(patch);
      if s == Dead {
        return;
      }
      if s == Err {
        if changed {
          var _ := Start();
        }
        return;
      }
      s := AfterConfigWrite(before, patch, changed);
    }

    method Rebuild() returns (s: Status)
      modifies this
      ensures Pack(s, Now(), None) == Handlers.Rebuild(sys, old(Now()))
    {
      hide Keeps, KeepsDisk, KeepsBeyondMarks, AtMark, Unwind, UnwindDisk, Replayable, Misplayed, Marked;
      s := Ask();
      if s != Ok {
        return;
      }
      var services := Services(cfg);
      s := WriteConfig(NO_SERVICES);
      if s != Ok {
        return;
      }
      s := WriteConfig(services);
    }

    method HandleUpdateConfig(t: Transition) returns (s: Status, next: Option<Transition>)
      modifies this
      ensures Pack(s, Now(), next) == Handlers.HandleUpdateConfig(sys, old(Now()), t)
    {
      hide Keeps, KeepsDisk, KeepsBeyondMarks, AtMark, Unwind, UnwindDisk, Replayable, Misplayed, Marked;
      next := None;
      match t
      case OnAfterBoot(_) => s, next := Ok, Some(OnFallback);
      case OnUpdateConfig(patch) =>
        s := ApplyConfig(patch);
        if s == Ok {
          next := Some(OnUpdateConfigFinished);
        }
      case OnRebuildServices =>
        s := Rebuild();
        if s == Ok {
          next := Some(OnUpdateConfigFinished);
        }
      case _ => s := Err;
    }

    // ---------- maintenance ----------

    method Install() returns (s: Status)
      modifies this
      ensures Pack(s, Now(), None) == Handlers.Install(sys, old(Now()))
    {
      hide Keeps, KeepsDisk, KeepsBeyondMarks, AtMark, Unwind, UnwindDisk, Replayable, Misplayed, Marked;
      s := Ask();
      if s != Ok {
        return;
      }
      s := Ask();
    }

    method UpdatePackages(packages: seq<string>) returns (s: Status)
      modifies this
      ensures Pack(s, Now(), None) == Handlers.UpdatePackages(sys, old(Now()), packages)
    {
      hide Keeps, KeepsDisk, KeepsBeyondMarks, AtMark, Unwind, UnwindDisk, Replayable, Misplayed, Marked;
      if Handlers.UPDATE_MANAGER_PACKAGE in packages {
        s := Ask();
        if s != Ok {
          return;
        }
      }
      var rest := Handlers.Without(packages, Handlers.UPDATE_MANAGER_PACKAGE);
      if Handlers.AGENT_PACKAGE in rest || Handlers.BGP_ADAPTER_PACKAGE in rest || Handlers.BGPD_PACKAGE in rest {
        s := WriteConfig(NO_SERVICES);
        if s != Ok {
          return;
        }
      }
      if Handlers.AGENT_PACKAGE in rest {
        s := InstallAgent();
      } else {
        s := Install();
      }
    }

    method InstallAgent() returns (s: Status)
      modifies this
      ensures Pack(s, Now(), None) == Handlers.InstallAgent(sys, old(Now()))
    {
      hide Keeps, KeepsDisk, KeepsBeyondMarks, AtMark, Unwind, UnwindDisk, Replayable, Misplayed, Marked;
      var id;
      s, id := AddCheckPoint();
      if s != Ok {
        return;
      }
      s := Install();
      if s == Err {
        s := DeleteCheckPoint(id);
        if s != Dead {
          s := Err;
        }
      }
    }

    method Report(failed: bool) returns (s: Status, next: Option<Transition>)
      modifies this
      ensures Pack(s, Now(), next) == Handlers.Report(sys, old(Now()), failed)
    {
      next := None;
      s := Ask();
      if s != Dead {
        next := Some(OnUpdateDeviceFinished(failed || s == Err));
        s := Ok;
      }
    }

    method WaitInstallAfterBoot() returns (s: Status)
      modifies this
      ensures Pack(s, Now(), None) == Handlers.WaitInstallAfterBoot(sys, old(Now()))
    {
      hide Keeps, KeepsDisk, KeepsBeyondMarks, AtMark, Unwind, UnwindDisk, Replayable, Misplayed, Marked;
      s := Start();
      if s != Ok {
        return;
      }
      s := Ask();
    }

    method HandleMaintenance(t: Transition) returns (s: Status, next: Option<Transition>)
      modifies this
      ensures Pack(s, Now(), next) == Handlers.HandleMaintenance(sys, old(Now()), t)
    {
      hide Keeps, KeepsDisk, KeepsBeyondMarks, AtMark, Unwind, UnwindDisk, Replayable, Misplayed, Marked;
      next := None;
      match t
      case OnAfterBoot(_) =>
        s := WaitInstallAfterBoot();
        if s != Dead {
          s, next := Report(s == Err);
        }
      case OnUpdateDevice(packages) =>
        s := UpdatePackages(packages);
        if s != Dead {
          s, next := Report(s == Err);
        }
      case _ => s := Err;
    }

    // ---------- ztp setup ----------

    method WritePorts(port: Option<string>) returns (s: Status)
      modifies this
      ensures Pack(s, Now(), None) == Handlers.WritePorts(sys, old(Now()), port)
    {
      hide Keeps, KeepsDisk, KeepsBeyondMarks, AtMark, Unwind, UnwindDisk, Replayable, Misplayed, Marked;
      s := Ask();
      if s != Ok {
        return;
      }
      var ports := if port.Some? then [port.value] else [];
      s := WriteConfig(BLANK.(port := Some(Ports(ports, []))));
      if s != Ok {
        return;
      }
      if port.Some? {
        if !sys.converts(port.value) {
          return Err;
        }
        s := Ask();
        if s != Ok {
          return;
        }
      }
      s := Activity();
    }

    method HandleZTPSetup(t: Transition) returns (s: Status, next: Option<Transition>)
      modifies this
      ensures Pack(s, Now(), next) == Handlers.HandleZTPSetup(sys, old(Now()), t)
    {
      hide Keeps, KeepsDisk, KeepsBeyondMarks, AtMark, Unwind, UnwindDisk, Replayable, Misplayed, Marked;
      hide Handlers.WritePorts, Devices.WriteConfig;
      next := None;
      match t
      case OnAfterBoot(_) => s, next := Ok, Some(OnZTPSetupInterrupted);
      case OnZTPSetupConfig(patch) =>
        s := WriteConfig(patch);
        if s == Ok {
          next := Some(OnZTPSetupFinished);
        }
      case OnHubSetPort(port) =>
        s := WritePorts(Some(port));
        if s == Ok {
          next := Some(OnZTPSetupFinished);
        }
      case OnHubDeletePort(_) =>
        s := WritePorts(None);
        if s == Ok {
          next := Some(OnZTPSetupFinished);
        }
      case _ => s := Err;
    }

    // ---------- reset ----------

    method StopIfStarted() returns (s: Status)
      modifies this
      ensures Pack(s, Now(), None) == Handlers.StopIfStarted(sys, old(Now()))
    {
      hide Keeps, KeepsDisk, KeepsBeyondMarks, AtMark, Unwind, UnwindDisk, Replayable, Misplayed, Marked;
      s := Ok;
      if started {
        s := StopWebsocket();
      }
    }

    method CloseAndWipe(id: nat) returns (s: Status)
      modifies this
      ensures Pack(s, Now(), None) == Handlers.CloseAndWipe(sys, old(Now()), id)
    {
      hide Keeps, KeepsDisk, KeepsBeyondMarks, AtMark, Unwind, UnwindDisk, Replayable, Misplayed, Marked;
      s := Attempt();
      if s != Ok {
        return;
      }
      s := Ask();
      if s == Dead {
        return;
      }
      if s == Err {
        s := DeleteCheckPoint(id);
        if s != Dead {
          s := Err;
        }
        return;
      }
      s := Ask();
      if s == Ok {
        wiped := true;
      } else if s == Err {
        s := Ok;
      }
    }

    method PrepareReset() returns (s: Status)
      modifies this
      ensures Pack(s, Now(), None) == Handlers.PrepareReset(sys, old(Now()))
    {
      hide Keeps, KeepsDisk, KeepsBeyondMarks, AtMark, Unwind, UnwindDisk, Replayable, Misplayed, Marked;
      s := StopIfStarted();
      if s != Ok {
        return;
      }
      s := Activity();
      if s != Ok {
        return;
      }
      s := WriteConfig(sys.emptyConfig);
      if s != Ok {
        return;
      }
      s := Activity();
      if s != Ok {
        return;
      }
      s := Activity();
      if s != Ok {
        return;
      }
      s := Activity();
      if s != Ok {
        return;
      }
      s := Activity();
    }

    method ResetDevice() returns (s: Status)
      modifies this
      ensures Pack(s, Now(), None) == Handlers.ResetDevice(sys, old(Now()))
    {
      hide Keeps, KeepsDisk, KeepsBeyondMarks, AtMark, Unwind, UnwindDisk, Replayable, Misplayed, Marked;
      s := PrepareReset();
      if s != Ok {
        return;
      }
      var id;
      s, id := AddCheckPoint();
      if s != Ok {
        return;
      }
      s := CloseAndWipe(id);
    }

    method ResetHub() returns (s: Status)
      modifies this
      ensures Pack(s, Now(), None) == Handlers.ResetHub(sys, old(Now()))
    {
      hide Keeps, KeepsDisk, KeepsBeyondMarks, AtMark, Unwind, UnwindDisk, Replayable, Misplayed, Marked;
      s := Ask();
      if s != Ok {
        return;
      }
      var port := cfg.port;
      s := StopIfStarted();
      if s != Ok {
        return;
      }
      s := Activity();
      if s != Ok {
        return;
      }
      s := WriteConfig(sys.emptyConfig.(port := port));
      if s != Ok {
        return;
      }
      s := Activity();
      if s != Ok {
        return;
      }
      s := Attempt();
    }

    method HandleReset(t: Transition) returns (s: Status, next: Option<Transition>)
      modifies this
      ensures Pack(s, Now(), next) == Handlers.HandleReset(sys, old(Now()), t)
    {
      hide Keeps, KeepsDisk, KeepsBeyondMarks, AtMark, Unwind, UnwindDisk, Replayable, Misplayed, Marked;
      next := None;
      match t
      case OnAfterBoot(_) =>
        s := Ask();
        if s == Ok {
          next := Some(if Serial(cfg) == "" then OnInitFallback else OnFallback);
        }
      case OnReset =>
        if sys.kind.Hub? {
          s := ResetHub();
          if s == Ok {
            next := Some(OnHubResetFinished);
          }
        } else {
          s := ResetDevice();
        }
      case _ => s := Err;
    }

    // ---------- state service ----------

    method OnExit(t: Transition) returns (s: Status)
      modifies this
      ensures Pack(s, Now(), None) == Engine.OnExit(sys, old(Now()), t)
    {
      hide Keeps, KeepsDisk, KeepsBeyondMarks, AtMark, Unwind, UnwindDisk, Replayable, Misplayed, Marked;
      s := Ok;
      match activeState
      case Init =>
        if !t.OnMigrateFromOldVersion? {
          s := Unsubscribe(INIT_SUBJECTS);
        }
      case Active => s := Unsubscribe(ACTIVE_SUBJECTS);
      case _ =>
    }

    method UpdateAppState(newState: AppState) returns (s: Status)
      modifies this
      ensures Pack(s, Now(), None) == Engine.UpdateAppState(sys, old(Now()), newState)
    {
      hide Keeps, KeepsDisk, KeepsBeyondMarks, AtMark, Unwind, UnwindDisk, Replayable, Misplayed, Marked;
      s := WriteConfig(BLANK.(state := Some(newState)));
      if s != Ok {
        return;
      }
      s := Ask();
      if s == Ok {
        log := log + [RestoreRuntime(activeState)];
        activeState := newState;
      }
    }

    /** The handler of the new state. */
    method Handle(newState: AppState, t: Transition) returns (s: Status, next: Option<Transition>)
      modifies this
      ensures Pack(s, Now(), next) == Engine.Handle(sys, old(Now()), newState, t)
    {
      hide Keeps, KeepsDisk, KeepsBeyondMarks, AtMark, Unwind, UnwindDisk, Replayable, Misplayed, Marked;
      hide Handlers.HandleInit, Handlers.HandleActive, Handlers.HandleUpdateConfig, Handlers.HandleMaintenance;
      hide Handlers.HandleZTPSetup, Handlers.HandleReset;
      s, next := Ok, None;
      match newState
      case Init => s, next := HandleInit(t);
      case Active => s, next := HandleActive(t);
      case UpdateConfig => s, next := HandleUpdateConfig(t);
      case Maintenance => s, next := HandleMaintenance(t);
      case ZTPSetup => s, next := HandleZTPSetup(t);
      case Reset => s, next := HandleReset(t);
      case _ =>
    }

    method PerformTransition(t: Transition) returns (s: Status, next: Option<Transition>)
      modifies this
      ensures Pack(s, Now(), next) == Engine.PerformTransition(sys, old(Now()), t)
    {
      hide Keeps, KeepsDisk, KeepsBeyondMarks, AtMark, Unwind, UnwindDisk, Replayable, Misplayed, Marked;
      hide Engine.Handle, Engine.OnExit, Engine.UpdateAppState;
      next := None;
      var newState := ToState(t);
      if activeState == newState || !HasHandler(newState) || !Validates(newState, activeState) {
        return Err, None;
      }
      s := OnExit(t);
      if s != Ok {
        return;
      }
      s := UpdateAppState(newState);
      if s != Ok {
        return;
      }
      s, next := Handle(newState, t);
    }

    /** The inner loop of the state service: follow-ups until none is left; there is at most one. */
    method Chain(first: Transition) returns (s: Status)
      modifies this
      ensures Pack(s, Now(), None) == Engine.Chain(sys, old(Now()), first)
    {
      hide Keeps, KeepsDisk, KeepsBeyondMarks, AtMark, Unwind, UnwindDisk, Replayable, Misplayed, Marked;
      hide Engine.PerformTransition;
      var t := first;
      while true
        invariant Engine.Chain(sys, Now(), t) == Engine.Chain(sys, old(Now()), first)
        decreases Rank(t)
      {
        var next;
        s, next := PerformTransition(t);
        if s != Ok || next.None? {
          return;
        }
        t := next.value;
      }
    }

    /** A request in a transaction of its own: a nil reply is Ok, an error reply Err, no reply Dead. */
    method InTransaction(t: Transition) returns (s: Status)
      modifies this
      ensures Pack(s, Now(), None) == Engine.Serve(sys, old(Now()), t)
    {
      hide Keeps, KeepsDisk, KeepsBeyondMarks, AtMark, Unwind, UnwindDisk, Replayable, Misplayed, Marked, Engine.Chain;
      log := [];
      s := Ask();
      if s == Ok {
        s := Chain(t);
        s := Finish(s);
      }
    }

    /**
     * One request of the service loop: a nil reply is Ok, an error reply Err, no reply Dead. A resting device rests
     * again, or is stranded by a command that sets a checkpoint; a failed chain is undone if the command sets none; a
     * completed command has had its effect, and no call of it has failed but those whose error is only logged; after a
     * crash without a checkpoint the old configuration is recovered. A device that was reset or is stranded stays as
     * it is.
     */
    method Serve(t: Transition) returns (s: Status)
      modifies this
      ensures Pack(s, Now(), None) == Engine.Serve(sys, old(Now()), t)
      ensures Assumed(sys) && IsCommand(t) && old(Resting(sys, Now())) ==>
                && misused == {}
                && (s == Ok ==> Resting(sys, Now()))
                && (s == Ok ==> Effects.Completed(sys, t, old(clock), clock, old(Now()).core, Now().core))
                && (s == Ok ==> Progress.NoFailureSwallowed(sys, old(Now()), t, Now()))
                && (s == Err ==> Resting(sys, Now()) || (Stranded(Now()) && Checkpoints.SetsCheckpoint(sys, t)))
                && (s == Err && Safety.Ran(sys, old(Now()), t).Failed? && !Checkpoints.SetsCheckpoint(sys, t) ==>
                      Now().core == old(Now()).core)
                && (s == Dead && !wiped && !Marked(log) ==> Engine.Recover(Now()) == old(cfg))
      ensures Assumed(sys) && IsCommand(t) && old(Safety.Frozen(sys, Now())) ==>
                && s != Ok && (s == Err ==> Now().core == old(Now()).core)
                && Engine.Recover(Now()) == old(Engine.Recover(Now()))
    {
      hide Keeps, KeepsDisk, KeepsBeyondMarks, AtMark, Unwind, UnwindDisk, Replayable, Misplayed, Marked, Engine.Chain;
      hide Assumed, Resting, Stranded, Effects.Completed, Checkpoints.SetsCheckpoint, Safety.Ran, Safety.Frozen;
      hide Engine.Recover, Engine.Serve, Progress.NoFailureSwallowed;
      s := InTransaction(t);
      ServedSafely(sys, old(Now()), t);
    }

    /** The service loop over the requests that arrive before the process dies; replies in order. */
    method Answer(ts: seq<Transition>) returns (s: Status, replies: seq<bool>)
      modifies this
      ensures Pack(s, Now(), None) == Safety.ServeAll(sys, old(Now()), ts)
      ensures replies == Safety.Replies(sys, old(Now()), ts)
    {
      hide Keeps, KeepsDisk, KeepsBeyondMarks, AtMark, Unwind, UnwindDisk, Replayable, Misplayed, Marked, Engine.Serve;
      replies := [];
      var i := 0;
      while i < |ts|
        invariant 0 <= i <= |ts|
        invariant replies + Safety.Replies(sys, Now(), ts[i..]) == Safety.Replies(sys, old(Now()), ts)
        invariant Safety.ServeAll(sys, Now(), ts[i..]) == Safety.ServeAll(sys, old(Now()), ts)
      {
        assert ts[i..][1..] == ts[i + 1..];
        s := InTransaction(ts[i]);
        if s == Dead {
          return;
        }
        replies := replies + [s == Ok];
        i := i + 1;
      }
      s := Ok;
    }

    /**
     * What the service loop leaves: while the process lives, an agent at rest or in maintenance that has answered
     * every request; one that was reset or is stranded stays as it is.
     */
    method ServeAll(ts: seq<Transition>) returns (s: Status, replies: seq<bool>)
      modifies this
      ensures Pack(s, Now(), None) == Safety.ServeAll(sys, old(Now()), ts)
      ensures replies == Safety.Replies(sys, old(Now()), ts)
      ensures s == Ok && Assumed(sys) && (forall t <- ts :: IsCommand(t)) &&
                old(Resting(sys, Now()) || Stranded(Now())) ==>
                (Resting(sys, Now()) || Stranded(Now())) && |replies| == |ts|
      ensures s == Ok && Assumed(sys) && (forall t <- ts :: IsCommand(t)) && old(Safety.Frozen(sys, Now())) ==>
                Now().core == old(Now()).core
    {
      hide Safety.ServeAll, Safety.Replies, Assumed, Resting, Stranded, Safety.Frozen;
      s, replies := Answer(ts);
      ServedAllSafely(sys, old(Now()), ts);
    }

    /**
     * Start-up of the process up to the state left by boot. From any bootable disk a boot that completes is at rest
     * where it has to be, and one that dies leaves the disk as it was.
     */
    method BootUp() returns (s: Status)
      requires Now() == Engine.Fresh(cfg, clock)
      modifies this
      ensures Pack(s, Now(), None) == Engine.BootUp(sys, old(cfg), old(clock))
      ensures Bootable(old(cfg)) ==>
                && misused == {}
                && (s == Ok ==> Resting(sys, Now()) && Boots.BootedFrom(sys, old(cfg), Now().core))
                && (s == Dead ==> Engine.Recover(Now()) == old(cfg))
    {
      hide Keeps, KeepsDisk, KeepsBeyondMarks, AtMark, Unwind, UnwindDisk, Replayable, Misplayed, Marked, Engine.Chain;
      hide Handlers.Subscribe, Resting, Bootable, Boots.BootedFrom, Engine.Recover;
      s := Subscribe([GetConfig, HubListPorts, DebugDumpHeap]);
      if s == Ok {
        log := [];
        s := Ask();
        if s == Ok {
          s := Ask();
          if s == Ok {
            s := Chain(OnAfterBoot(StoredState(cfg)));
          }
          s := Finish(s);
        }
      }
      BootedSafely(sys, old(cfg), old(clock));
    }

    /** The life of a process: boot, then the requests that arrive, until it dies. */
    method Run(ts: seq<Transition>) returns (s: Status, replies: seq<bool>)
      requires Now() == Engine.Fresh(cfg, clock) && Bootable(cfg)
      requires Assumed(sys) && forall t <- ts :: IsCommand(t)
      modifies this
      ensures s == Ok ==> (Resting(sys, Now()) || Stranded(Now())) && |replies| == |ts|
    {
      hide Resting, Stranded, Bootable, Assumed, Engine.BootUp, Safety.ServeAll, Safety.Replies, Safety.Frozen;
      replies := [];
      s := BootUp();
      if s == Ok {
        s, replies := ServeAll(ts);
      }
    }
  }

  // ---------- what the entry points promise ----------

  lemma ServedSafely(sys: Sys, d: Device, t: Transition)
    ensures var r := Engine.Serve(sys, d, t);
            Assumed(sys) && IsCommand(t) && Resting(sys, d) ==>
              && r.dev.misused == {}
              && (r.Done? ==> Resting(sys, r.dev))
              && (r.Done? ==> Effects.Completed(sys, t, d.clock, r.dev.clock, d.core, r.dev.core))
              && (r.Done? ==> Progress.NoFailureSwallowed(sys, d, t, r.dev))
              && (r.Failed? ==> Resting(sys, r.dev) || (Stranded(r.dev) && Checkpoints.SetsCheckpoint(sys, t)))
              && (r.Failed? && Safety.Ran(sys, d, t).Failed? && !Checkpoints.SetsCheckpoint(sys, t) ==>
                    r.dev.core == d.core)
              && (r.Crashed? && !r.dev.wiped && !Marked(r.dev.log) ==> Engine.Recover(r.dev) == d.core.cfg)
    ensures var r := Engine.Serve(sys, d, t);
            Assumed(sys) && IsCommand(t) && Safety.Frozen(sys, d) ==>
              !r.Done? && (r.Failed? ==> r.dev.core == d.core) && Engine.Recover(r.dev) == Engine.Recover(d)
  {
    hide Engine.Serve, Safety.Ran, Engine.Recover, Resting, Stranded, Assumed, Effects.Completed, Marked, Safety.Frozen;
    hide Progress.NoFailureSwallowed;
    if Assumed(sys) && IsCommand(t) && Resting(sys, d) {
      Safety.ServeMisusesNothing(sys, d, t);
      Safety.ServeComesToRest(sys, d, t);
      Effects.CompletedCommandDoes(sys, d, t);
      Progress.SwallowsNoFailure(sys, d, t);
      if !Checkpoints.SetsCheckpoint(sys, t) {
        Checkpoints.UncheckpointedIsUndone(sys, d, t);
      }
      if Engine.Serve(sys, d, t).Crashed? {
        Safety.CrashIsRecovered(sys, d, t);
      }
    }
    if Assumed(sys) && IsCommand(t) && Safety.Frozen(sys, d) {
      Safety.FrozenUntilReboot(sys, d, t);
    }
  }

  lemma ServedAllSafely(sys: Sys, d: Device, ts: seq<Transition>)
    ensures var r := Safety.ServeAll(sys, d, ts);
            Assumed(sys) && (forall t <- ts :: IsCommand(t)) && (Resting(sys, d) || Stranded(d)) && r.Done? ==>
              (Resting(sys, r.dev) || Stranded(r.dev)) && |Safety.Replies(sys, d, ts)| == |ts|
    ensures var r := Safety.ServeAll(sys, d, ts);
            Assumed(sys) && (forall t <- ts :: IsCommand(t)) && Safety.Frozen(sys, d) && r.Done? ==>
                r.dev.core == d.core
  {
    hide Safety.ServeAll, Safety.Replies, Resting, Stranded, Assumed, Safety.Frozen, Engine.Recover;
    if Assumed(sys) && forall t <- ts :: IsCommand(t) {
      if Resting(sys, d) || Stranded(d) {
        Safety.ServeAllRests(sys, d, ts);
      }
      if Safety.Frozen(sys, d) {
        Safety.FrozenThroughout(sys, d, ts);
      }
    }
  }

  lemma BootedSafely(sys: Sys, cfg: Config, clock: nat)
    ensures var r := Engine.BootUp(sys, cfg, clock);
            Bootable(cfg) ==>
              && r.dev.misused == {}
              && (r.Done? ==> Resting(sys, r.dev) && Boots.BootedFrom(sys, cfg, r.dev.core))
              && (r.Crashed? ==> Engine.Recover(r.dev) == cfg)
  {
    hide Engine.BootUp, Engine.Recover, Resting, Boots.BootedFrom;
    if Bootable(cfg) {
      Boots.BootComesToRest(sys, cfg, clock);
      Boots.BootLeadsTo(sys, cfg, clock);
    }
  }
}
