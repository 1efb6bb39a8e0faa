/**
 * The calls that completed operations have made: how many, and which of them may have failed. Every other call of an
 * operation that completed has succeeded, so its failure is never swallowed.
 */
module Calls {
  import opened Common
  import opened Configs
  import opened Transitions
  import opened Devices
  import opened Handlers
  import opened Engine
  import opened Steps
  import opened Safety

  /** From d to r as many calls were made, and all but the excepted ones succeeded. */
  ghost predicate Made(sys: Sys, d: Device, r: Device, calls: nat, except: set<nat>) {
    r.clock == d.clock + calls && forall n: nat | d.clock <= n < r.clock && n !in except :: sys.verdict(n) == Succeeds
  }

  lemma MadeThen(sys: Sys, a: Device, b: Device, c: Device, n: nat, m: nat, except: set<nat>)
    requires Made(sys, a, b, n, {}) && Made(sys, b, c, m, except)
    ensures Made(sys, a, c, n + m, except)
  {
  }

  lemma MadeBefore(sys: Sys, a: Device, b: Device, c: Device, n: nat, m: nat, except: set<nat>)
    requires Made(sys, a, b, n, except) && Made(sys, b, c, m, {})
    ensures Made(sys, a, c, n + m, except)
  {
  }

  function One(b: bool): nat {
    if b then 1 else 0
  }

  // ---------- leaving a state, entering a state ----------

  /** How many subjects leaving a state takes off. */
  function ExitCalls(s: AppState): nat {
    if s == Init then |INIT_SUBJECTS| else if s == Active then |ACTIVE_SUBJECTS| else 0
  }

  lemma {:induction false} SubscribeMakes(sys: Sys, d: Device, subjects: seq<Subject>)
    ensures var r := Subscribe(sys, d, subjects);
            r.Done? ==> Made(sys, d, r.dev, |subjects|, {})
    decreases |subjects|
  {
    hide Keeps, KeepsDisk;
    if subjects != [] {
      var r := ActivateSubject(sys, d, subjects[0]);
      SubscribeMakes(sys, r.dev, subjects[1..]);
    }
  }

  lemma {:induction false} UnsubscribeMakes(sys: Sys, d: Device, subjects: seq<Subject>)
    ensures var r := Unsubscribe(sys, d, subjects);
            r.Done? ==> Made(sys, d, r.dev, |subjects|, {})
    decreases |subjects|
  {
    hide Keeps, KeepsDisk;
    if subjects != [] {
      var r := DeactivateSubject(sys, d, subjects[0]);
      UnsubscribeMakes(sys, r.dev, subjects[1..]);
    }
  }

  lemma TablesMake(sys: Sys)
    ensures forall d: Device {:trigger Subscribe(sys, d, INIT_SUBJECTS)} :: Subscribe(sys, d, INIT_SUBJECTS).Done? ==>
              Made(sys, d, Subscribe(sys, d, INIT_SUBJECTS).dev, 7, {})
    ensures forall d: Device {:trigger Subscribe(sys, d, ACTIVE_SUBJECTS)} ::
              Subscribe(sys, d, ACTIVE_SUBJECTS).Done? ==>
              Made(sys, d, Subscribe(sys, d, ACTIVE_SUBJECTS).dev, 2, {})
  {
    hide Made;
    forall d: Device
      ensures Subscribe(sys, d, INIT_SUBJECTS).Done? ==> Made(sys, d, Subscribe(sys, d, INIT_SUBJECTS).dev, 7, {})
      ensures Subscribe(sys, d, ACTIVE_SUBJECTS).Done? ==>
                Made(sys, d, Subscribe(sys, d, ACTIVE_SUBJECTS).dev, 2, {})
    {
      SubscribeMakes(sys, d, INIT_SUBJECTS);
      SubscribeMakes(sys, d, ACTIVE_SUBJECTS);
    }
  }

  lemma ExitMakes(sys: Sys, d: Device, t: Transition)
    requires !t.OnMigrateFromOldVersion?
    ensures var r := OnExit(sys, d, t);
            r.Done? ==> Made(sys, d, r.dev, ExitCalls(d.core.runtime), {})
  {
    hide Unsubscribe, Keeps;
    UnsubscribeMakes(sys, d, INIT_SUBJECTS);
    UnsubscribeMakes(sys, d, ACTIVE_SUBJECTS);
  }

  lemma EnterMakes(sys: Sys, d: Device, t: Transition)
    requires !t.OnMigrateFromOldVersion?
    ensures var r := Enter(sys, d, t);
            r.Done? ==> Made(sys, d, r.dev, ExitCalls(d.core.runtime) + 2, {})
  {
    hide OnExit, Keeps, KeepsDisk, ExitCalls, Overwrite;
    ExitMakes(sys, d, t);
  }

  // ---------- update config ----------

  /** The hosts are refreshed when the patch has an application section that is different. */
  predicate Refreshes(c: Config, patch: Config) {
    patch.app.Some? && patch.app != c.app
  }

  /** The tunnels are checked on a customer device whose ports change under a patch with a tunnel section. */
  predicate Probes(kind: Kind, c: Config, patch: Config) {
    && kind.CPE? && patch.pony.Some?
    && ((patch.port.Some? && patch.port != c.port) || (patch.adminState.Some? && patch.adminState != c.adminState))
  }

  lemma ApplyConfigMakes(sys: Sys, d: Device, patch: Config)
    ensures var r := ApplyConfig(sys, d, patch);
            var c := d.core.cfg;
            r.Done? ==>
              Made(sys, d, r.dev, 2 + One(Refreshes(c, patch)) + One(Probes(sys.kind, c, patch)),
                   if Refreshes(c, patch) then {d.clock + 2} else {})
  {
    hide Keeps, KeepsDisk, Overwrite;
  }

  lemma RebuildMakes(sys: Sys, d: Device)
    ensures var r := Rebuild(sys, d);
            r.Done? ==> Made(sys, d, r.dev, 3, {})
  {
    hide Keeps, KeepsDisk, Overwrite;
  }

  /** A port change finds the websocket stopped when it writes, and a rebuild is seen with its services gone. */
  lemma InTheMiddle(sys: Sys, d: Device, patch: Config)
    requires sys.verdict(d.clock) == Succeeds
    ensures sys.verdict(d.clock + 1) == Crashes ==>
              var r := ApplyConfig(sys, d, patch);
              var changed := (patch.port.Some? && patch.port != d.core.cfg.port) ||
                             (patch.adminState.Some? && patch.adminState != d.core.cfg.adminState);
              r.Crashed? && r.dev.core == d.core.(ws := d.core.ws && !changed)
    ensures sys.verdict(d.clock + 1) == Succeeds && sys.verdict(d.clock + 2) == Crashes ==>
              var r := Rebuild(sys, d);
              r.Crashed? && r.dev.core == d.core.(cfg := Overwrite(d.core.cfg, NO_SERVICES))
  {
    hide Keeps, KeepsDisk, Overwrite;
  }

  // ---------- ztp setup, reset, first setup ----------

  lemma WritePortsMakes(sys: Sys, d: Device, port: Option<string>)
    ensures var r := WritePorts(sys, d, port);
            r.Done? ==> Made(sys, d, r.dev, 3 + One(port.Some?), {})
  {
    hide Keeps, KeepsDisk, Overwrite;
  }

  lemma PrepareMakes(sys: Sys, d: Device)
    ensures var r := PrepareReset(sys, d);
            r.Done? ==> Made(sys, d, r.dev, 6 + One(d.core.ws), {})
  {
    hide Keeps, KeepsDisk, Overwrite;
  }

  /**
   * Only the environment file and the removal of the configuration may fail, and the latter decides what is left on
   * disk. A failed reset keeps its checkpoint only if neither closing the database nor deleting the checkpoint worked.
   */
  ghost predicate ResetMade(sys: Sys, d: Device, r: Out) {
    var k := d.clock + 7 + One(d.core.ws);
    && (r.Done? ==>
          && Made(sys, d, r.dev, 10 + One(d.core.ws), {k, k + 2})
          && r.dev.wiped == (d.wiped || sys.verdict(k + 2) == Succeeds))
    && (r.Failed? && !Marked(d.log) && Marked(r.dev.log) ==> sys.verdict(k + 1) == sys.verdict(k + 2) == Fails)
  }

  lemma ResetDeviceMakes(sys: Sys, d: Device)
    ensures ResetMade(sys, d, ResetDevice(sys, d))
  {
    hide PrepareReset, CloseAndWipe, Unwind, UnwindDisk, Replayable, Marked, Overwrite, Unmark, Made;
    PrepareMakes(sys, d);
    if PrepareReset(sys, d).Done? {
      ClosingMakes(sys, d, PrepareReset(sys, d).dev);
    }
  }

  lemma ClosingMakes(sys: Sys, d: Device, e: Device)
    requires Made(sys, d, e, 6 + One(d.core.ws), {})
    ensures var c := AddCheckPoint(sys, e);
            var r := if c.Done? then CloseAndWipe(sys, c.dev, e.clock) else c;
            var k := d.clock + 7 + One(d.core.ws);
            && (r.Done? ==>
                  && Made(sys, d, r.dev, 10 + One(d.core.ws), {k, k + 2})
                  && r.dev.wiped == (e.wiped || sys.verdict(k + 2) == Succeeds))
            && (r.Failed? && !Marked(e.log) && Marked(r.dev.log) ==> sys.verdict(k + 1) == sys.verdict(k + 2) == Fails)
  {
    hide Unwind, UnwindDisk, Replayable, Marked, Unmark, Keeps, KeepsBeyondMarks, One;
  }

  lemma ResetHubMakes(sys: Sys, d: Device)
    ensures var r := ResetHub(sys, d);
            r.Done? ==> Made(sys, d, r.dev, 5 + One(d.core.ws), {d.clock + 4 + One(d.core.ws)})
  {
    hide Keeps, KeepsDisk, Overwrite;
  }

  /** The tunnels are checked on a customer device, the websocket on a customer device and a hub. */
  function InitCalls(kind: Kind): nat {
    7 + One(kind.CPE?) + One(kind.CPE? || kind.Hub?)
  }

  lemma NetworkMakes(sys: Sys, d: Device, init: InitConfig)
    ensures var r := InstallNetwork(sys, d, init);
            r.Done? ==> Made(sys, d, r.dev, 5, {})
  {
    hide Keeps, KeepsDisk, Overwrite;
  }

  lemma InitDeviceMakes(sys: Sys, d: Device, init: InitConfig)
    ensures var r := InitDevice(sys, d, init);
            r.Done? ==> Made(sys, d, r.dev, InitCalls(sys.kind), {})
  {
    hide InstallNetwork, Keeps, KeepsDisk, Overwrite;
    NetworkMakes(sys, d, init);
  }

  /** The sixth call is the wait for the answer. */
  lemma ConnectMakes(sys: Sys, d: Device, serial: string, addrs: seq<string>)
    ensures var r := Connect(sys, d, serial, addrs);
            r.Done? ==> Made(sys, d, r.dev, 6 + InitCalls(sys.kind), {d.clock + 5})
  {
    hide InitDevice, Keeps, KeepsDisk, Overwrite, HasPorts, HasScheme, InitCalls;
    forall e: Device, init
      ensures InitDevice(sys, e, init).Done? ==> Made(sys, e, InitDevice(sys, e, init).dev, InitCalls(sys.kind), {})
    {
      InitDeviceMakes(sys, e, init);
    }
  }

  lemma FirstSetupMakes(sys: Sys, d: Device, serial: string, addrs: seq<string>)
    ensures var r := FirstSetup(sys, d, serial, addrs);
            r.Done? ==> Made(sys, d, r.dev, 8 + InitCalls(sys.kind) + One(!sys.kind.Hub?), {d.clock + 5})
  {
    hide Connect, Subscribe, Keeps, KeepsDisk, Accepts, InitCalls;
    ConnectMakes(sys, d, serial, addrs);
    TablesMake(sys);
  }

  // ---------- maintenance ----------

  function PackageCalls(packages: seq<string>): nat {
    2 + One(UPDATE_MANAGER_PACKAGE in packages) + One(AGENT_PACKAGE in packages) +
    One(AGENT_PACKAGE in packages || BGP_ADAPTER_PACKAGE in packages || BGPD_PACKAGE in packages)
  }

  ghost predicate AllSucceed(sys: Sys, from: nat, to: nat) {
    forall n: nat | from <= n < to :: sys.verdict(n) == Succeeds
  }

  lemma NamesDiffer()
    ensures UPDATE_MANAGER_PACKAGE !in {AGENT_PACKAGE, BGP_ADAPTER_PACKAGE, BGPD_PACKAGE}
  {
    assert UPDATE_MANAGER_PACKAGE[6] == 'u' && AGENT_PACKAGE[6] == 'a' && BGP_ADAPTER_PACKAGE[6] == 'b' &&
        BGPD_PACKAGE[6] == 'b';
  }

  lemma InstallingMakes(sys: Sys, d: Device)
    ensures var r := Install(sys, d);
            && d.clock <= r.dev.clock <= d.clock + 2
            && (r.Done? ==> r.dev.clock == d.clock + 2)
            && (!r.Crashed? ==> (r.Done? <==> AllSucceed(sys, d.clock, r.dev.clock)))
    ensures var r := InstallAgent(sys, d);
            && d.clock <= r.dev.clock
            && (r.Done? ==> r.dev.clock == d.clock + 3)
            && (!r.Crashed? ==> (r.Done? <==> AllSucceed(sys, d.clock, r.dev.clock)))
  {
    hide Keeps, KeepsDisk, KeepsBeyondMarks, AtMark, Marked, Unmark;
  }

  /** A failed installation keeps its checkpoint only if deleting it failed too. */
  lemma CheckpointIsTakenBack(sys: Sys, d: Device)
    ensures var r := InstallAgent(sys, d);
            r.Failed? && !Marked(d.log) && Marked(r.dev.log) ==>
              d.clock + 2 < r.dev.clock && sys.verdict(r.dev.clock - 2) == sys.verdict(r.dev.clock - 1) == Fails
  {
    hide Keeps, KeepsDisk, KeepsBeyondMarks, AtMark, Marked, Unmark;
  }

  /** An update of packages that does not crash completes exactly if every call it makes succeeds. */
  lemma PackagesMake(sys: Sys, d: Device, packages: seq<string>)
    ensures var r := UpdatePackages(sys, d, packages);
            && d.clock <= r.dev.clock
            && (r.Done? ==> Made(sys, d, r.dev, PackageCalls(packages), {}))
            && (!r.Crashed? ==> (r.Done? <==> AllSucceed(sys, d.clock, r.dev.clock)))
  {
    hide InstallAgent, Install, Keeps, KeepsDisk, KeepsBeyondMarks, AtMark, Marked, Overwrite, Without;
    forall e: Device
      ensures var r := Install(sys, e);
              && e.clock <= r.dev.clock <= e.clock + 2
              && (r.Done? ==> r.dev.clock == e.clock + 2)
              && (!r.Crashed? ==> (r.Done? <==> AllSucceed(sys, e.clock, r.dev.clock)))
      ensures var r := InstallAgent(sys, e);
              && e.clock <= r.dev.clock
              && (r.Done? ==> r.dev.clock == e.clock + 3)
              && (!r.Crashed? ==> (r.Done? <==> AllSucceed(sys, e.clock, r.dev.clock)))
    {
      InstallingMakes(sys, e);
    }
    NamesDiffer();
    hide AGENT_PACKAGE, UPDATE_MANAGER_PACKAGE, BGP_ADAPTER_PACKAGE, BGPD_PACKAGE;
  }

  /** The error that the update is reported with is there exactly if some call of it, or the report, failed. */
  lemma FailureIsReported(sys: Sys, d: Device, t: Transition)
    requires t.OnUpdateDevice? || (t.OnAfterBoot? && !d.core.ws)
    ensures var r := HandleMaintenance(sys, d, t);
            r.Done? ==>
              && d.clock <= r.dev.clock
              && r.next.Some? && r.next.value.OnUpdateDeviceFinished?
              && (r.next.value.failed <==> !AllSucceed(sys, d.clock, r.dev.clock))
              && (t.OnAfterBoot? ==> r.dev.clock == d.clock + 2)
  {
    hide UpdatePackages, Keeps, KeepsDisk, KeepsBeyondMarks, AtMark, Marked;
    if t.OnUpdateDevice? {
      PackagesMake(sys, d, t.packages);
    }
  }

  // ---------- whole commands ----------

  /** The calls of a command's handler, from its device when it is entered. */
  function HandlerCalls(sys: Sys, c: Core, t: Transition): nat {
    match t
    case OnUpdateConfig(patch) => 2 + One(Refreshes(c.cfg, patch)) + One(Probes(sys.kind, c.cfg, patch))
    case OnRebuildServices => 3
    case OnZTPSetupConfig(_) => 1
    case OnHubSetPort(_) => 4
    case OnHubDeletePort(_) => 3
    case OnReset => (if sys.kind.Hub? then 5 else 10) + One(c.ws)
    case OnFirstSetup(_, _) => 8 + InitCalls(sys.kind) + One(!sys.kind.Hub?)
    case _ => 0
  }

  /**
   * Those that may fail, the first call being the one with number at: refreshing the hosts, blanking the environment
   * file, removing the configuration. The wait of a first setup has an answer instead of a verdict.
   */
  function Tolerated(sys: Sys, c: Core, t: Transition, at: nat): set<nat> {
    match t
    case OnUpdateConfig(patch) => if Refreshes(c.cfg, patch) then {at + 2} else {}
    case OnReset => if sys.kind.Hub? then {at + 4 + One(c.ws)} else {at + 7 + One(c.ws), at + 9 + One(c.ws)}
    case OnFirstSetup(_, _) => {at + 5}
    case _ => {}
  }

  /** The way back of a command that has one. */
  function ReturnCalls(sys: Sys, t: Transition): nat {
    match t
    case OnUpdateConfig(_) => 4
    case OnRebuildServices => 4
    case OnZTPSetupConfig(_) => 9
    case OnHubSetPort(_) => 9
    case OnHubDeletePort(_) => 9
    case OnReset => if sys.kind.Hub? then 9 else 0
    case _ => 0
  }

  lemma HandlerMakes(sys: Sys, d: Device, t: Transition)
    requires IsCommand(t) && !t.OnUpdateDevice?
    ensures var r := Handle(sys, d, ToState(t), t);
            r.Done? ==> Made(sys, d, r.dev, HandlerCalls(sys, d.core, t), Tolerated(sys, d.core, t, d.clock))
  {
    hide ApplyConfig, Rebuild, WritePorts, ResetDevice, ResetHub, FirstSetup, Made, Refreshes, Probes, InitCalls;
    hide Keeps, KeepsDisk, KeepsBeyondMarks, AtMark, Marked, Overwrite, Serial;
    match t
    case OnUpdateConfig(patch) => ApplyConfigMakes(sys, d, patch);
    case OnRebuildServices => RebuildMakes(sys, d);
    case OnHubSetPort(port) => WritePortsMakes(sys, d, Some(port));
    case OnHubDeletePort(_) => WritePortsMakes(sys, d, None);
    case OnReset =>
      ResetHubMakes(sys, d);
      ResetDeviceMakes(sys, d);
    case OnFirstSetup(serial, addrs) => FirstSetupMakes(sys, d, serial, addrs);
    case OnZTPSetupConfig(patch) => WriteMakes(sys, d, patch);
  }

  lemma WriteMakes(sys: Sys, d: Device, patch: Config)
    ensures var r := WriteConfig(sys, d, patch);
            r.Done? ==> Made(sys, d, r.dev, 1, {})
  {
    hide Overwrite, Keeps, KeepsDisk;
  }

  lemma FollowUpMakes(sys: Sys, d: Device, t: Transition)
    requires FollowUp(t) && d.core.runtime !in {Init, Active, Boot}
    ensures var r := PerformTransition(sys, d, t);
            r.Done? ==> Made(sys, d, r.dev, if ToState(t) == Init then 9 else if t.OnUpdateDeviceFinished? then 5
                else 4, {})
  {
    hide Enter, Handle, Keeps, KeepsDisk;
    if !Refused(d, t) {
      PerformIsEnterThenHandle(sys, d, t);
      EnterMakes(sys, d, t);
      hide PerformTransition;
      if Enter(sys, d, t).Done? {
        FollowUpHandlerMakes(sys, Enter(sys, d, t).dev, t);
      }
    }
  }

  lemma FollowUpHandlerMakes(sys: Sys, d: Device, t: Transition)
    requires FollowUp(t)
    ensures var r := Handle(sys, d, ToState(t), t);
            r.Done? ==> Made(sys, d, r.dev, if ToState(t) == Init then 7 else if t.OnUpdateDeviceFinished? then 3
                else 2, {})
  {
    hide Subscribe, FirstSetup, Migrate, RestoreActive, RestoreInit, Keeps, KeepsDisk;
    TablesMake(sys);
  }

  lemma FirstStepMakes(sys: Sys, d: Device, t: Transition)
    requires d.core.runtime != Boot && IsCommand(t) && !t.OnUpdateDevice?
    ensures var r := PerformTransition(sys, d, t);
            var at := d.clock + ExitCalls(d.core.runtime) + 2;
            r.Done? ==>
              Made(sys, d, r.dev, ExitCalls(d.core.runtime) + 2 + HandlerCalls(sys, d.core, t),
                  Tolerated(sys, d.core, t, at))
  {
    hide Enter, Handle, Keeps, ExitCalls, HandlerCalls, Tolerated, Made, PerformTransition, Refused;
    AllowedIfDone(sys, d, t);
    if PerformTransition(sys, d, t).Done? {
      PerformIsEnterThenHandle(sys, d, t);
      EnterMakes(sys, d, t);
      var e := Enter(sys, d, t).dev;
      EnteredAt(sys, d, e);
      EnterKeepsTable(sys, d, t);
      HandlerMakes(sys, e, t);
      MadeThen(sys, d, e, PerformTransition(sys, d, t).dev, ExitCalls(d.core.runtime) + 2, HandlerCalls(sys, d.core, t),
               Tolerated(sys, d.core, t, e.clock));
    }
  }

  lemma EnterKeepsTable(sys: Sys, d: Device, t: Transition)
    requires d.core.runtime != Boot && Enter(sys, d, t).Done?
    ensures var e := Enter(sys, d, t).dev;
            && HandlerCalls(sys, e.core, t) == HandlerCalls(sys, d.core, t)
            && Tolerated(sys, e.core, t, e.clock) == Tolerated(sys, d.core, t, e.clock)
  {
    hide Enter, HandlerCalls, Tolerated, Keeps;
    EnterIsMarkFree(sys, d, t);
    SameTable(sys, d.core, Enter(sys, d, t).dev.core, t, Enter(sys, d, t).dev.clock);
  }

  lemma EnteredAt(sys: Sys, d: Device, e: Device)
    requires Made(sys, d, e, ExitCalls(d.core.runtime) + 2, {})
    ensures e.clock == d.clock + ExitCalls(d.core.runtime) + 2
  {
  }

  /** The stored state plays no part in the table. */
  lemma SameTable(sys: Sys, c: Core, c': Core, t: Transition, at: nat)
    requires c'.ws == c.ws && c'.cfg == c.cfg.(state := c'.cfg.state)
    ensures HandlerCalls(sys, c', t) == HandlerCalls(sys, c, t) && Tolerated(sys, c', t, at) == Tolerated(sys, c, t, at)
  {
  }

  lemma ReturnMakes(sys: Sys, d: Device, t: Transition)
    requires d.core.runtime != Boot && IsCommand(t) && !t.OnUpdateDevice?
    ensures var r := PerformTransition(sys, d, t);
            r.Done? ==>
              if r.next.None? then ReturnCalls(sys, t) == 0
              else var s := PerformTransition(sys, r.dev, r.next.value);
                   s.Done? ==> Made(sys, r.dev, s.dev, ReturnCalls(sys, t), {})
  {
    hide Enter, Handle, Keeps, Made;
    if !Refused(d, t) {
      PerformIsEnterThenHandle(sys, d, t);
      CommandFollowUps(sys, d, t);
      var r := PerformTransition(sys, d, t);
      hide PerformTransition, Refused;
      if r.Done? {
        HandlerReturns(sys, Enter(sys, d, t).dev, t);
        if r.next.Some? {
          FollowUpMakes(sys, r.dev, r.next.value);
        }
      }
    }
  }

  lemma HandlerReturns(sys: Sys, d: Device, t: Transition)
    requires IsCommand(t) && !t.OnUpdateDevice?
    ensures var r := Handle(sys, d, ToState(t), t);
            r.Done? ==>
              && (r.next.None? ==> ReturnCalls(sys, t) == 0)
              && (r.next.Some? ==> ReturnCalls(sys, t) == if ToState(r.next.value) == Init then 9 else 4)
              && (r.next.Some? ==> !r.next.value.OnUpdateDeviceFinished?)
  {
    hide HandleInit, HandleActive, HandleUpdateConfig, HandleMaintenance, HandleZTPSetup, HandleReset, Keeps;
    hide KeepsDisk, KeepsBeyondMarks, AtMark;
  }

  /** The calls of a whole command, from the start of its transaction to the end. */
  function CommandCalls(sys: Sys, c: Core, t: Transition): nat {
    ExitCalls(c.runtime) + 4 + HandlerCalls(sys, c, t) + ReturnCalls(sys, t)
  }

  lemma ChainMakes(sys: Sys, d: Device, t: Transition)
    requires d.core.runtime != Boot && IsCommand(t) && !t.OnUpdateDevice?
    ensures var r := Chain(sys, d, t);
            var at := d.clock + ExitCalls(d.core.runtime) + 2;
            r.Done? ==>
              Made(sys, d, r.dev, ExitCalls(d.core.runtime) + 2 + HandlerCalls(sys, d.core, t) + ReturnCalls(sys, t),
                   Tolerated(sys, d.core, t, at))
  {
    hide PerformTransition, Chain, ExitCalls, HandlerCalls, Tolerated, ReturnCalls;
    ChainIsShort(sys, d, t);
    FirstStepMakes(sys, d, t);
    ReturnMakes(sys, d, t);
  }

  lemma RanMakes(sys: Sys, d: Device, t: Transition)
    requires Resting(sys, d) && IsCommand(t) && !t.OnUpdateDevice?
    ensures var ran := Ran(sys, d, t);
            var at := d.clock + ExitCalls(d.core.runtime) + 3;
            ran.Done? ==> Made(sys, d, ran.dev, CommandCalls(sys, d.core, t) - 1, Tolerated(sys, d.core, t, at))
  {
    hide Chain, ExitCalls, HandlerCalls, Tolerated, ReturnCalls, Keeps, Unwind, UnwindDisk, Replayable, Misplayed;
    var s := Ask(sys, d.(log := []));
    if s.Done? {
      ChainMakes(sys, s.dev, t);
    }
  }

  /**
   * A command other than a package update that is answered with nil has made exactly so many calls, and every one of
   * them succeeded but for the tolerated ones: no other failure is swallowed.
   */
  lemma NilReplyMakes(sys: Sys, d: Device, t: Transition)
    requires Resting(sys, d) && IsCommand(t) && !t.OnUpdateDevice?
    ensures var r := Serve(sys, d, t);
            var at := d.clock + ExitCalls(d.core.runtime) + 3;
            r.Done? ==> Made(sys, d, r.dev, CommandCalls(sys, d.core, t), Tolerated(sys, d.core, t, at))
  {
    hide Ran, Serve, ExitCalls, HandlerCalls, ReturnCalls, Tolerated, Made, Resting;
    RanMakes(sys, d, t);
    CommitMakes(sys, d, t);
    if Serve(sys, d, t).Done? {
      MadeBefore(sys, d, Ran(sys, d, t).dev, Serve(sys, d, t).dev, CommandCalls(sys, d.core, t) - 1, 1,
                Tolerated(sys, d.core, t, d.clock + ExitCalls(d.core.runtime) + 3));
    }
  }

  lemma CommitMakes(sys: Sys, d: Device, t: Transition)
    ensures var ran, r := Ran(sys, d, t), Serve(sys, d, t);
            r.Done? ==> ran.Done? && Made(sys, ran.dev, r.dev, 1, {})
  {
    hide Ran, Serve, Unwind, UnwindDisk, Replayable, Misplayed, Marked, Keeps;
    ServeIsRanThenFinish(sys, d, t);
  }
}
