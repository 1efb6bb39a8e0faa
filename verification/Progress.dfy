/** Commands without faults: which of them complete. */
module Progress {
  import opened Common
  import opened Configs
  import opened Transitions
  import opened Devices
  import opened Handlers
  import opened Engine
  import opened Steps
  import opened Safety
  import opened Boots
  import opened Effects
  import opened Calls
  import opened Checkpoints

  /** The orchestrator answers every first setup in time. */
  ghost predicate Prompt(sys: Sys) {
    forall n: nat :: sys.answer(n).Arrives?
  }

  /** The commands a state takes on between two commands. */
  predicate TakesOn(s: AppState, t: Transition) {
    match s
    case Init => t.OnFirstSetup? || t.OnReset? || t.OnZTPSetupConfig? || t.OnHubSetPort? || t.OnHubDeletePort?
    case Active => t.OnUpdateConfig? || t.OnRebuildServices? || t.OnUpdateDevice? || t.OnReset?
    case Reset => t.OnFirstSetup?
    case Maintenance => t.OnFirstSetup?
    case _ => false
  }

  /** The validation tables amount to that for a resting or stranded device. */
  lemma TakesOnIff(sys: Sys, d: Device, t: Transition)
    requires (Resting(sys, d) || Stranded(d)) && IsCommand(t)
    ensures !Refused(d, t) <==> TakesOn(d.core.runtime, t)
  {
  }

  /**
   * What a caller can check beforehand: the running state takes the command on, a first setup has its port and full
   * addresses, and a hub port has a mask that converts.
   */
  predicate Acceptable(sys: Sys, d: Device, t: Transition) {
    TakesOn(d.core.runtime, t) && Sound(sys, d.core.cfg, t)
  }

  /** The request itself is in order. */
  predicate Sound(sys: Sys, c: Config, t: Transition) {
    (t.OnFirstSetup? ==> Accepts(c, t.addrs)) && (t.OnHubSetPort? ==> sys.converts(t.port))
  }

  // ---------- leaving a state ----------

  lemma {:induction false} UnsubscribeSucceeds(sys: Sys, d: Device, subjects: seq<Subject>)
    requires NoFaults(sys) && Distinct(subjects) && forall s <- subjects :: s in d.core.mq
    ensures Unsubscribe(sys, d, subjects).Done?
    decreases |subjects|
  {
    if subjects != [] {
      var r := DeactivateSubject(sys, d, subjects[0]);
      assert subjects == [subjects[0]] + subjects[1..];
      UnsubscribeSucceeds(sys, r.dev, subjects[1..]);
    }
  }

  lemma ExitSucceeds(sys: Sys, d: Device, t: Transition)
    requires NoFaults(sys) && Steady(d) && !t.OnMigrateFromOldVersion?
    ensures OnExit(sys, d, t).Done?
  {
    hide Unsubscribe, Unwind, UnwindDisk, Replayable, Misplayed, Marked;
    SubjectTables();
    if d.core.runtime == Init {
      UnsubscribeSucceeds(sys, d, INIT_SUBJECTS);
    } else if d.core.runtime == Active {
      UnsubscribeSucceeds(sys, d, ACTIVE_SUBJECTS);
    }
  }

  lemma LeaveSucceeds(sys: Sys, d: Device, t: Transition)
    requires NoFaults(sys) && Steady(d) && !t.OnMigrateFromOldVersion?
    ensures Enter(sys, d, t).Done?
  {
    hide OnExit, Steady, Keeps, KeepsDisk;
    ExitSucceeds(sys, d, t);
  }

  // ---------- handlers ----------

  lemma UpdateConfigSucceeds(sys: Sys, d: Device, t: Transition)
    requires NoFaults(sys) && (t.OnUpdateConfig? || t.OnRebuildServices?)
    ensures HandleUpdateConfig(sys, d, t).Done?
  {
    hide Keeps, KeepsDisk, Overwrite, PortsChanged;
  }

  lemma UpdateDeviceSucceeds(sys: Sys, d: Device, t: Transition)
    requires NoFaults(sys) && t.OnUpdateDevice?
    ensures HandleMaintenance(sys, d, t).Done?
  {
    hide UpdatePackages, Keeps, KeepsDisk, KeepsBeyondMarks, AtMark, Marked;
    PackagesSucceed(sys, d, t.packages);
  }

  lemma PackagesSucceed(sys: Sys, d: Device, packages: seq<string>)
    requires NoFaults(sys)
    ensures UpdatePackages(sys, d, packages).Done?
  {
    hide Keeps, KeepsDisk, KeepsBeyondMarks, AtMark, Marked, Overwrite, Without, Unmark;
  }

  lemma ZTPSetupSucceeds(sys: Sys, d: Device, t: Transition)
    requires NoFaults(sys) && (t.OnZTPSetupConfig? || t.OnHubSetPort? || t.OnHubDeletePort?)
    ensures var r := HandleZTPSetup(sys, d, t);
            !r.Crashed? && (r.Done? <==> (t.OnHubSetPort? ==> sys.converts(t.port)))
  {
    hide Keeps, KeepsDisk, Overwrite;
  }

  lemma ResetSucceeds(sys: Sys, d: Device)
    requires NoFaults(sys)
    ensures HandleReset(sys, d, OnReset).Done?
  {
    hide ResetDevice, ResetHub, Keeps, KeepsBeyondMarks, AtMark, Marked;
    DeviceResetSucceeds(sys, d);
    HubResetSucceeds(sys, d);
  }

  lemma DeviceResetSucceeds(sys: Sys, d: Device)
    requires NoFaults(sys)
    ensures ResetDevice(sys, d).Done?
  {
    hide PrepareReset, Keeps, KeepsDisk, KeepsBeyondMarks, AtMark, Marked, Overwrite, Unmark;
    PrepareSucceeds(sys, d);
  }

  lemma PrepareSucceeds(sys: Sys, d: Device)
    requires NoFaults(sys)
    ensures PrepareReset(sys, d).Done?
  {
    hide Keeps, KeepsDisk, Overwrite;
  }

  lemma HubResetSucceeds(sys: Sys, d: Device)
    requires NoFaults(sys)
    ensures ResetHub(sys, d).Done?
  {
    hide Keeps, KeepsDisk, Overwrite;
  }

  lemma InitDeviceSucceeds(sys: Sys, d: Device, init: InitConfig)
    requires NoFaults(sys)
    ensures InitDevice(sys, d, init).Done?
  {
    hide Keeps, KeepsDisk, Overwrite;
  }

  lemma ConnectOutcome(sys: Sys, d: Device, serial: string, addrs: seq<string>)
    requires NoFaults(sys) && Prompt(sys) && (Accepts(d.core.cfg, addrs) ==> !d.core.ws)
    ensures var r := Connect(sys, d, serial, addrs);
            !r.Crashed? && (r.Done? <==> Accepts(d.core.cfg, addrs))
  {
    hide Keeps, KeepsDisk, Overwrite, InitDevice;
    forall e: Device, init ensures InitDevice(sys, e, init).Done? {
      InitDeviceSucceeds(sys, e, init);
    }
  }

  lemma FirstSetupOutcome(sys: Sys, d: Device, serial: string, addrs: seq<string>)
    requires NoFaults(sys) && Prompt(sys) && d.core.mq == ALWAYS_ON && (Accepts(d.core.cfg, addrs) ==> !d.core.ws)
    ensures var r := FirstSetup(sys, d, serial, addrs);
            !r.Crashed? && (r.Done? <==> Accepts(d.core.cfg, addrs))
  {
    hide Keeps, KeepsDisk, Connect, Subscribe, Accepts;
    ConnectOutcome(sys, d, serial, addrs);
    TablesSubscribe(sys);
  }

  lemma HandlerOutcome(sys: Sys, d: Device, t: Transition)
    requires NoFaults(sys) && IsCommand(t) && !t.OnFirstSetup?
    ensures var r := Handle(sys, d, ToState(t), t);
            !r.Crashed? && (r.Done? <==> Sound(sys, d.core.cfg, t))
  {
    hide HandleUpdateConfig, HandleMaintenance, HandleZTPSetup, HandleReset, HandleActive, HandleInit, NoFaults;
    hide Keeps, KeepsDisk, KeepsBeyondMarks, AtMark, Marked, Serial, Overwrite;
    match t
    case OnUpdateConfig(_) => UpdateConfigSucceeds(sys, d, t);
    case OnRebuildServices => UpdateConfigSucceeds(sys, d, t);
    case OnUpdateDevice(_) => UpdateDeviceSucceeds(sys, d, t);
    case OnReset => ResetSucceeds(sys, d);
    case _ => ZTPSetupSucceeds(sys, d, t);
  }

  lemma FollowUpHandlerSucceeds(sys: Sys, d: Device, t: Transition)
    requires NoFaults(sys) && FollowUp(t) && d.core.mq == ALWAYS_ON
    ensures Handle(sys, d, ToState(t), t).Done?
  {
    hide Subscribe, FirstSetup, Migrate, RestoreActive, RestoreInit, Keeps, KeepsDisk;
    TablesSubscribe(sys);
  }

  // ---------- chains ----------

  lemma FollowUpCompletes(sys: Sys, d: Device, t: Transition)
    requires NoFaults(sys) && Steady(d) && FollowUp(t) && Expected(sys, d, t)
    ensures PerformTransition(sys, d, t).Done?
  {
    hide Enter, Handle, PerformTransition, Steady, NoFaults;
    PerformIsEnterThenHandle(sys, d, t);
    LeaveSucceeds(sys, d, t);
    EnterSteady(sys, d, t);
    FollowUpHandlerSucceeds(sys, Enter(sys, d, t).dev, t);
  }

  lemma FirstStepOutcome(sys: Sys, d: Device, t: Transition)
    requires NoFaults(sys) && Prompt(sys) && Steady(d) && Expected(sys, d, t) && IsCommand(t)
    ensures var r := PerformTransition(sys, d, t);
            !r.Crashed? && (r.Done? <==> !Refused(d, t) && Sound(sys, d.core.cfg, t))
  {
    hide Enter, Handle, Steady, NoFaults, Prompt, FirstSetup, Accepts, Keeps;
    if !Refused(d, t) {
      PerformIsEnterThenHandle(sys, d, t);
      hide PerformTransition;
      ExpectedFacts(sys, d, t);
      LeaveSucceeds(sys, d, t);
      EnterSteady(sys, d, t);
      EnterIsMarkFree(sys, d, t);
      var e := Enter(sys, d, t).dev;
      if t.OnFirstSetup? {
        FirstSetupIsHandled(sys, e, t);
        SamePortsAccept(d.core.cfg, e.core.cfg, t.addrs);
        FirstSetupOutcome(sys, e, t.serial, t.addrs);
      } else {
        HandlerOutcome(sys, e, t);
      }
    }
  }

  lemma ChainOutcome(sys: Sys, d: Device, t: Transition)
    requires NoFaults(sys) && Prompt(sys) && Steady(d) && Expected(sys, d, t) && IsCommand(t)
    ensures var r := Chain(sys, d, t);
            !r.Crashed? && (r.Done? <==> !Refused(d, t) && Sound(sys, d.core.cfg, t))
  {
    hide PerformTransition, Chain, Sound, Steady, Expected, NoFaults, Prompt, Refused;
    ChainIsShort(sys, d, t);
    ExpectedFacts(sys, d, t);
    FirstStepOutcome(sys, d, t);
    StepStaysSteady(sys, d, t);
    CommandFollowUps(sys, d, t);
    var r := PerformTransition(sys, d, t);
    if r.Done? && r.next.Some? {
      FollowUpCompletes(sys, r.dev, r.next.value);
    }
  }

  /**
   * Without faults a command completes exactly when it is acceptable, and one that is not is answered with an error
   * and leaves the device as it was.
   */
  lemma CommandCompletesIff(sys: Sys, d: Device, t: Transition)
    requires Assumed(sys) && NoFaults(sys) && Prompt(sys) && Resting(sys, d) && IsCommand(t)
    ensures var r := Serve(sys, d, t);
            && (r.Done? <==> Acceptable(sys, d, t))
            && (!Acceptable(sys, d, t) ==> r.Failed? && r.dev.core == d.core)
  {
    hide Chain, Resting, Prompt, Unwind, UnwindDisk, Replayable, Misplayed, Marked, Parked, Assumed, Keeps;
    hide Refused, Sound, TakesOn;
    ServeIsRanThenFinish(sys, d, t);
    var s := Ask(sys, d.(log := []));
    RestingIsSteady(sys, d, s.dev, t);
    ChainOutcome(sys, s.dev, t);
    SameRefusal(s.dev, d, t);
    TakesOnIff(sys, d, t);
    if !Acceptable(sys, d, t) {
      UnacceptableLeavesNoMark(sys, d, t);
      FailedCommandIsUndone(sys, d, t);
    }
  }

  /** Without faults a stranded device starts the started websocket exactly on a first setup that gets that far. */
  lemma StrandedMisusesIff(sys: Sys, d: Device, t: Transition)
    requires NoFaults(sys) && Stranded(d) && IsCommand(t) && d.misused == {}
    ensures Serve(sys, d, t).dev.misused == if Strays(d, t) then {Websocket} else {}
  {
    hide Chain, Unwind, UnwindDisk, Replayable, Misplayed, Marked, Accepts;
    StrandedMisuse(sys, d, t);
    if Strays(d, t) {
      var s := d.(clock := d.clock + 1, log := []);
      StraySetupMisuses(sys, s, t);
      FrozenRan(sys, d, t);
      RanFailedIsFinished(sys, d, t);
      FinishDone(sys, d, t);
    }
  }

  lemma StraySetupMisuses(sys: Sys, d: Device, t: Transition)
    requires NoFaults(sys) && Steady(d) && d.core.runtime == Maintenance && Strays(d, t)
    ensures Websocket in Chain(sys, d, t).dev.misused
  {
    hide Handle, Enter, Chain, Steady, FirstSetup, Connect, Accepts, Keeps, NoFaults;
    ChainIsShort(sys, d, t);
    PerformIsEnterThenHandle(sys, d, t);
    LeaveSucceeds(sys, d, t);
    EnterIsMarkFree(sys, d, t);
    assert d.core.ws by {
      MaintenanceIsOnline(d);
    }
    var e := Enter(sys, d, t).dev;
    FirstSetupIsHandled(sys, e, t);
    SamePortsAccept(d.core.cfg, e.core.cfg, t.addrs);
    ConnectStrays(sys, e, t.serial, t.addrs);
    assert FirstSetup(sys, e, t.serial, t.addrs) == Connect(sys, e, t.serial, t.addrs) by {
      FailedConnectIsAll(sys, e, t.serial, t.addrs);
    }
    hide PerformTransition;
  }

  lemma MaintenanceIsOnline(d: Device)
    requires Steady(d) && d.core.runtime == Maintenance
    ensures d.core.ws
  {
  }

  lemma FailedConnectIsAll(sys: Sys, d: Device, serial: string, addrs: seq<string>)
    requires !Connect(sys, d, serial, addrs).Done?
    ensures FirstSetup(sys, d, serial, addrs) == Connect(sys, d, serial, addrs)
  {
    hide Connect, Keeps;
  }

  lemma ConnectStrays(sys: Sys, d: Device, serial: string, addrs: seq<string>)
    requires NoFaults(sys) && Accepts(d.core.cfg, addrs) && d.core.ws
    ensures var r := Connect(sys, d, serial, addrs);
            !r.Done? && Websocket in r.dev.misused
  {
    hide Keeps, KeepsDisk, Overwrite, AwaitFirstInit;
  }

  lemma RestingIsSteady(sys: Sys, d: Device, d': Device, t: Transition)
    requires Resting(sys, d) && IsCommand(t) && d' == d.(clock := d'.clock, log := [])
    ensures Steady(d') && Expected(sys, d', t)
  {
  }

  lemma UnacceptableLeavesNoMark(sys: Sys, d: Device, t: Transition)
    requires Assumed(sys) && Resting(sys, d) && IsCommand(t) && !Acceptable(sys, d, t)
    ensures !Marked(Ran(sys, d, t).dev.log)
  {
    hide Ran, Resting, Assumed, Refused, Unwind, UnwindDisk, Marked, TakesOn;
    RanParks(sys, d, t);
    TakesOnIff(sys, d, t);
  }

  // ---------- with faults ----------

  /** Every call of the command succeeded but those whose error is only logged; updates carry their error along. */
  ghost predicate NoFailureSwallowed(sys: Sys, d: Device, t: Transition, r: Device) {
    t.OnUpdateDevice? ||
    Made(sys, d, r, CommandCalls(sys, d.core, t), Tolerated(sys, d.core, t, d.clock + ExitCalls(d.core.runtime) + 3))
  }

  lemma SwallowsNoFailure(sys: Sys, d: Device, t: Transition)
    requires Resting(sys, d) && IsCommand(t)
    ensures var r := Serve(sys, d, t);
            r.Done? ==> NoFailureSwallowed(sys, d, t, r.dev)
  {
    hide Serve, Made, CommandCalls, Tolerated;
    if !t.OnUpdateDevice? {
      NilReplyMakes(sys, d, t);
    }
  }

  /**
   * A command that sets no checkpoint and meets a failing call before its commit, other than one whose error is only
   * logged, is answered with an error and leaves the device as it was.
   */
  lemma FailingCallFails(sys: Sys, d: Device, t: Transition, n: nat)
    requires Assumed(sys) && Resting(sys, d) && IsCommand(t) && !t.OnUpdateDevice? && !SetsCheckpoint(sys, t)
    requires d.clock <= n < d.clock + CommandCalls(sys, d.core, t) - 1 && sys.verdict(n) == Fails
    requires n !in Tolerated(sys, d.core, t, d.clock + ExitCalls(d.core.runtime) + 3)
    ensures var r := Serve(sys, d, t);
            !r.Crashed? ==> r.Failed? && r.dev == d.(clock := r.dev.clock)
  {
    hide Ran, Serve, CommandCalls, Tolerated, ExitCalls, Resting, Assumed;
    RanMakes(sys, d, t);
    UncheckpointedIsUndone(sys, d, t);
    FinishDone(sys, d, t);
  }

  /**
   * The tunnel check in particular: on a customer device, with a tunnel section in the patch and a port or
   * administrative section in it that is different, its failure fails the update.
   */
  lemma TunnelCheckCounts(sys: Sys, d: Device, patch: Config)
    requires Assumed(sys) && Resting(sys, d) && d.core.runtime == Active && sys.kind.CPE? && patch.pony.Some?
    requires (patch.port.Some? && patch.port != d.core.cfg.port) ||
             (patch.adminState.Some? && patch.adminState != d.core.cfg.adminState)
    requires var refresh := if patch.app.Some? && patch.app != d.core.cfg.app then 1 else 0;
             sys.verdict(d.clock + 7 + refresh) == Fails
    ensures var r := Serve(sys, d, OnUpdateConfig(patch));
            !r.Crashed? ==> r.Failed? && r.dev == d.(clock := r.dev.clock)
  {
    hide Serve, Resting, Assumed;
    var refresh := if patch.app.Some? && patch.app != d.core.cfg.app then 1 else 0;
    assert |ACTIVE_SUBJECTS| == 2;
    FailingCallFails(sys, d, OnUpdateConfig(patch), d.clock + 7 + refresh);
  }

  /**
   * The configuration is off the disk after a completed reset exactly if its removal, the last call but the commit,
   * worked.
   */
  lemma ResetRemovesIff(sys: Sys, d: Device)
    requires Resting(sys, d) && !sys.kind.Hub?
    ensures var r := Serve(sys, d, OnReset);
            r.Done? ==> r.dev.clock >= 2 && (r.dev.wiped <==> sys.verdict(r.dev.clock - 2) == Succeeds)
  {
    hide Ran, Serve, Chain, PerformTransition, Resting, Keeps;
    CommitMakes(sys, d, OnReset);
    FinishDone(sys, d, OnReset);
    RanIsChain(sys, d, OnReset);
    if Serve(sys, d, OnReset).Done? {
      var s := Ask(sys, d.(log := [])).dev;
      ChainIsShort(sys, s, OnReset);
      ResetStepRemoves(sys, d, s);
    }
  }

  lemma ResetStepRemoves(sys: Sys, d: Device, s: Device)
    requires Resting(sys, d) && !sys.kind.Hub? && s == d.(clock := s.clock, log := [])
    ensures var r := PerformTransition(sys, s, OnReset);
            r.Done? ==> r.next.None? && r.dev.clock >= 1 && (r.dev.wiped <==> sys.verdict(r.dev.clock - 1) == Succeeds)
  {
    hide PerformTransition, Enter, Handle, ResetDevice, Refused, Resting, Keeps, Marked;
    AllowedIfDone(sys, s, OnReset);
    if PerformTransition(sys, s, OnReset).Done? {
      PerformIsEnterThenHandle(sys, s, OnReset);
      var e := Enter(sys, s, OnReset).dev;
      EnterToReset(sys, d, s);
      ResetIsHandled(sys, e);
      ResetDeviceMakes(sys, e);
    }
  }

  lemma EnterToReset(sys: Sys, d: Device, s: Device)
    requires Resting(sys, d) && s == d.(clock := s.clock, log := []) && !Refused(s, OnReset)
    ensures !Enter(sys, s, OnReset).dev.wiped
  {
    hide Enter, Unwind, UnwindDisk, Replayable, Misplayed, Marked;
    EnterIsMarkFree(sys, s, OnReset);
  }
}
