/** The calls a completed boot has made, and which of them may have failed. */
module BootCalls {
  import opened Common
  import opened Configs
  import opened Transitions
  import opened Devices
  import opened Handlers
  import opened Engine
  import opened Steps
  import opened Safety
  import opened Calls
  import opened Boots

  /** The calls of restoring init: seven subjects, and two services unless on a hub. */
  function RestoreInitCalls(kind: Kind): nat {
    7 + 2 * One(!kind.Hub?)
  }

  /** The calls of the handlers of a boot, and of entering the second state if there is one. */
  function StateCalls(sys: Sys, cfg: Config): nat {
    match StoredState(cfg)
    case Active => 5
    case Init => if FromOldVersion(sys.deviceId) then 2 + 6 else RestoreInitCalls(sys.kind)
    case UpdateConfig => 2 + 5
    case Maintenance => 2 + 2 + 3
    case ZTPSetup => 2 + RestoreInitCalls(sys.kind)
    case Reset => 1 + 2 + if Serial(cfg) == "" then RestoreInitCalls(sys.kind) else 5
    case _ => 0
  }

  /** In maintenance the wait for the installation and the report may fail. */
  function BootTolerated(cfg: Config, clock: nat): set<nat> {
    if StoredState(cfg) == Maintenance then {clock + 7, clock + 8} else {}
  }

  // ---------- handlers ----------

  lemma RestoreInitMakes(sys: Sys, d: Device)
    ensures var r := RestoreInit(sys, d);
            r.Done? ==> Made(sys, d, r.dev, RestoreInitCalls(sys.kind), {})
  {
    hide Subscribe, Keeps, KeepsDisk;
    TablesMake(sys);
  }

  lemma RestoreActiveMakes(sys: Sys, d: Device)
    ensures var r := RestoreActive(sys, d);
            r.Done? ==> Made(sys, d, r.dev, 4 + One(!d.core.ws), {})
  {
    hide Subscribe, Keeps, KeepsDisk;
    TablesMake(sys);
  }

  lemma MigrateMakes(sys: Sys, d: Device, serial: string, addr: string)
    ensures var r := Migrate(sys, d, serial, addr);
            r.Done? ==> Made(sys, d, r.dev, 6, {})
  {
    hide Subscribe, Keeps, KeepsDisk, Overwrite;
    TablesMake(sys);
  }

  lemma EnterToMigrateMakes(sys: Sys, d: Device, t: Transition)
    requires d.core.runtime == Init && t.OnMigrateFromOldVersion?
    ensures var r := Enter(sys, d, t);
            r.Done? ==> Made(sys, d, r.dev, 2, {})
  {
    hide Keeps, KeepsDisk, Overwrite;
  }

  function AfterBootCalls(sys: Sys, s: AppState): nat {
    match s
    case Active => 5
    case Init => if Migrates(sys.deviceId) then 0 else RestoreInitCalls(sys.kind)
    case Maintenance => 2
    case Reset => 1
    case _ => 0
  }

  lemma AfterBootMakes(sys: Sys, d: Device, s: AppState)
    requires HasHandler(s) && !d.core.ws
    ensures var r := Handle(sys, d, s, OnAfterBoot(s));
            r.Done? ==> Made(sys, d, r.dev, AfterBootCalls(sys, s), if s == Maintenance then {d.clock, d.clock + 1}
                else {})
  {
    hide Handle, RestoreInit, RestoreActive, HandleMaintenance, RestoreInitCalls, Migrates, Keeps, KeepsDisk;
    AfterBootDispatch(sys, d, s);
    RestoreInitMakes(sys, d);
    RestoreActiveMakes(sys, d);
    if s == Maintenance {
      FailureIsReported(sys, d, OnAfterBoot(s));
    } else if s == Reset {
      ResetAsksOnce(sys, d, OnAfterBoot(s));
    }
  }

  lemma ResetAsksOnce(sys: Sys, d: Device, t: Transition)
    requires t.OnAfterBoot?
    ensures var r := Handle(sys, d, Reset, t);
            r.Done? ==> Made(sys, d, r.dev, 1, {})
  {
    hide Keeps, KeepsDisk, KeepsBeyondMarks, ResetDevice, ResetHub;
  }

  lemma SecondStepMakes(sys: Sys, cfg: Config, d: Device, t: Transition)
    requires Bootable(cfg) && Passing(sys, cfg, d, t)
    ensures var r := PerformTransition(sys, d, t);
            r.Done? ==>
              Made(sys, d, r.dev,
                   2 + if t.OnMigrateFromOldVersion? then 6
                       else if t.OnUpdateDeviceFinished? then 3
                       else if t.OnFallback? then 5
                       else RestoreInitCalls(sys.kind), {})
  {
    hide Enter, Handle, HandleActive, PerformTransition, RestoreInit, RestoreActive, Migrate, Keeps, KeepsDisk, Refused;
    hide RestoreInitCalls, Passing, Bootable, Subscribe;
    PassingFollowsUp(sys, cfg, d, t);
    PassingWebsocket(sys, cfg, d, t);
    PerformIsEnterThenHandle(sys, d, t);
    EnterWhilePassing(sys, cfg, d, t);
    var e := Enter(sys, d, t);
    if e.Done? {
      FollowUpDispatch(sys, e.dev, t);
      if t.OnMigrateFromOldVersion? {
        EnterToMigrateMakes(sys, d, t);
        MigrateMakes(sys, e.dev, t.deviceId, t.addr);
      } else {
        EnterMakes(sys, d, t);
        RestoreInitMakes(sys, e.dev);
        RestoreActiveMakes(sys, e.dev);
        if t.OnUpdateDeviceFinished? {
          FollowUpHandlerMakes(sys, e.dev, t);
        }
      }
    }
  }

  lemma PassingWebsocket(sys: Sys, cfg: Config, d: Device, t: Transition)
    requires Bootable(cfg) && Passing(sys, cfg, d, t)
    ensures t.OnFallback? ==> !d.core.ws
    ensures t.OnMigrateFromOldVersion? <==> d.core.runtime == Init
    ensures ToState(t) == if t.OnInitFallback? || t.OnZTPSetupInterrupted? then Init else Active
  {
  }

  // ---------- whole boots ----------

  lemma FirstStepMakes(sys: Sys, d: Device, s: AppState)
    requires d.core.runtime == Boot && !d.core.ws && HasHandler(s)
    ensures var r := PerformTransition(sys, d, OnAfterBoot(s));
            r.Done? ==>
              Made(sys, d, r.dev, 2 + AfterBootCalls(sys, s), if s == Maintenance then {d.clock + 2, d.clock + 3}
                  else {})
  {
    hide Enter, Handle, PerformTransition, AfterBootCalls, Refused, Keeps;
    var t := OnAfterBoot(s);
    AllowedIfDone(sys, d, t);
    if PerformTransition(sys, d, t).Done? {
      PerformIsEnterThenHandle(sys, d, t);
      EnterMakes(sys, d, t);
      EnterFromBoot(sys, d, s);
      AfterBootMakes(sys, Enter(sys, d, t).dev, s);
    }
  }

  lemma BootChainMakes(sys: Sys, d: Device)
    requires Booting(d) && Bootable(d.core.cfg) && d.clock >= 4
    ensures var r := BootChain(sys, d);
            r.Done? ==> Made(sys, d, r.dev, 3 + StateCalls(sys, d.core.cfg), BootTolerated(d.core.cfg, d.clock - 4))
  {
    hide Unwind, UnwindDisk, Replayable, Misplayed, Marked, Steady, Handle, Enter, PerformTransition, Chain;
    hide Settled, RestoreInitCalls, Keeps;
    var q := Ask(sys, d);
    if q.Done? {
      var cfg, s := d.core.cfg, StoredState(d.core.cfg);
      var t := OnAfterBoot(s);
      ChainIsShort(sys, q.dev, t);
      FromBootIsAllowed(q.dev, cfg);
      PerformIsEnterThenHandle(sys, q.dev, t);
      EnterFromBoot(sys, q.dev, s);
      FirstStepMakes(sys, q.dev, s);
      var e := Enter(sys, q.dev, t);
      if e.Done? {
        HandleAfterBoot(sys, e.dev, cfg);
        var r := Handle(sys, e.dev, s, t);
        if r.Done? && r.next.Some? {
          SecondStepMakes(sys, cfg, r.dev, r.next.value);
        }
      }
    }
  }

  /**
   * A completed boot has made exactly so many calls, and every one of them succeeded but for two of a boot into
   * maintenance, whose error is carried along.
   */
  lemma BootMakes(sys: Sys, cfg: Config, clock: nat)
    requires Bootable(cfg)
    ensures var r := BootUp(sys, cfg, clock);
            r.Done? ==> Made(sys, Fresh(cfg, clock), r.dev, 8 + StateCalls(sys, cfg), BootTolerated(cfg, clock))
  {
    hide BootUp, BootChain, Finish, Subscribe, StateCalls, Keeps, Unwind, UnwindDisk, Replayable, Misplayed, Marked;
    hide Bootable, Booting;
    BootUpIsToBootChainThenFinish(sys, cfg, clock);
    ToBootChainOutcome(sys, cfg, clock);
    SubscribeMakes(sys, Fresh(cfg, clock), [GetConfig, HubListPorts, DebugDumpHeap]);
    var b := ToBootChain(sys, cfg, clock);
    if b.Done? {
      BootChainMakes(sys, b.dev);
      EndMakes(sys, BootChain(sys, b.dev));
    }
  }

  lemma EndMakes(sys: Sys, ran: Out)
    ensures Finish(sys, ran).Done? ==> ran.Done? && Made(sys, ran.dev, Finish(sys, ran).dev, 1, {})
  {
    hide Unwind, UnwindDisk, Replayable, Misplayed, Marked, Keeps;
  }
}
