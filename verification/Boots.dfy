/**
 * Start-up: from any stored state the agent either comes to rest in the right state or leaves the disk as it found
 * it.
 */
module Boots {
  import opened Common
  import opened Configs
  import opened Transitions
  import opened Devices
  import opened Handlers
  import opened Engine
  import opened Steps
  import opened Safety

  /** Where a boot ends, from the stored state, the serial number and the device id in the environment. */
  function Destination(deviceId: string, cfg: Config): AppState {
    match StoredState(cfg)
    case Init => if Migrates(deviceId) then Active else Init
    case ZTPSetup => Init
    case Reset => if Serial(cfg) == "" then Init else Active
    case _ => Active
  }

  /** The configuration an agent takes over from an old version: its serial number and orchestrator address are set. */
  function Migrated(c: Config, serial: string, addr: string): Config {
    var app := if c.app.Some? then c.app.value else App("", [], "", "");
    c.(app := Some(app.(serial := serial, addrs := [addr])))
  }

  /** The configuration a completed boot leaves. */
  function Settled(sys: Sys, cfg: Config): Config {
    var c := cfg.(state := Some(Destination(sys.deviceId, cfg)));
    if StoredState(cfg) == Init && Migrates(sys.deviceId) then Migrated(c, sys.deviceId, sys.endPoint) else c
  }

  lemma SettledPlainly(sys: Sys, cfg: Config)
    requires !Migrates(sys.deviceId)
    ensures Settled(sys, cfg) == cfg.(state := Some(Destination(sys.deviceId, cfg)))
  {
  }

  lemma MigrateWrites(sys: Sys, d: Device, serial: string, addr: string)
    ensures var r := Migrate(sys, d, serial, addr);
            r.Done? ==> r.dev.core.cfg == Migrated(d.core.cfg, serial, addr)
  {
    hide Subscribe, Unwind, UnwindDisk, Replayable, Misplayed, Marked, Keeps;
  }

  /** A process that is up to the transition out of boot. */
  predicate Booting(d: Device) {
    d.core.runtime == Boot && d.core.mq == ALWAYS_ON && !d.core.ws && d.misused == {} && !Marked(d.log) && !d.wiped
  }

  /** Between the two transitions of a boot. */
  predicate Passing(sys: Sys, cfg: Config, d: Device, t: Transition) {
    && d.core.mq == ALWAYS_ON && d.misused == {}
    && d.core.runtime == StoredState(cfg)
    && d.core.cfg == cfg.(state := Some(StoredState(cfg)))
    && d.core.ws == (d.core.runtime == Maintenance)
    && ToState(t) == Destination(sys.deviceId, cfg)
    && match d.core.runtime
       case Init => t == OnMigrateFromOldVersion(sys.deviceId, sys.endPoint) && Migrates(sys.deviceId)
       case UpdateConfig => t.OnFallback?
       case Maintenance => t.OnUpdateDeviceFinished?
       case ZTPSetup => t.OnZTPSetupInterrupted?
       case Reset => t == if Serial(cfg) == "" then OnInitFallback else OnFallback
       case _ => false
  }

  lemma EnterFromBoot(sys: Sys, d: Device, s: AppState)
    requires d.core.runtime == Boot
    ensures var r := Enter(sys, d, OnAfterBoot(s));
            && KeepsDisk(d, r.dev) && r.dev.misused == d.misused
            && (r.Done? ==> r.dev.core == Core(s, d.core.cfg.(state := Some(s)), d.core.mq, d.core.ws))
  {
    hide Unwind, UnwindDisk, Replayable, Misplayed, Marked;
  }

  lemma HandleAfterBoot(sys: Sys, d: Device, cfg: Config)
    requires Bootable(cfg)
    requires d.core == Core(StoredState(cfg), cfg.(state := Some(StoredState(cfg))), ALWAYS_ON, false) &&
               d.misused == {}
    ensures var r := Handle(sys, d, StoredState(cfg), OnAfterBoot(StoredState(cfg)));
            && KeepsDisk(d, r.dev) && r.dev.misused == {}
            && (r.Done? && r.next.Some? ==> Passing(sys, cfg, r.dev, r.next.value))
            && (r.Done? && r.next.None? ==> Steady(r.dev) && r.dev.core.runtime == Destination(sys.deviceId, cfg)
                                            && r.dev.core.runtime == StoredState(cfg)
                                            && r.dev.core.cfg == Settled(sys, cfg))
  {
    var t := OnAfterBoot(StoredState(cfg));
    if StoredState(cfg) == Active {
      EnterActive(sys, d, t);
      assert HandleActive(sys, d, t) == RestoreActive(sys, d) by {
        hide RestoreActive;
      }
    } else if StoredState(cfg) == Init {
      EnterInit(sys, d, t);
      HandleInitAfterBoot(sys, d, t);
    }
    hide HandleInit, HandleActive, HandleUpdateConfig, HandleMaintenance, HandleZTPSetup, HandleReset, RestoreActive;
    hide Unwind, UnwindDisk, Replayable, Misplayed, Marked, Subjects;
    if StoredState(cfg) == Maintenance {
      MaintenanceKeepsConfig(sys, d, t);
    }
    assert Serial(d.core.cfg) == Serial(cfg);
  }

  lemma HandleInitAfterBoot(sys: Sys, d: Device, t: Transition)
    requires t.OnAfterBoot?
    ensures var r := HandleInit(sys, d, t);
            && (r.Done? ==> (r.next.Some? <==> Migrates(sys.deviceId)))
            && (r.Done? && r.next.Some? ==>
                  r.dev == d && r.next.value == OnMigrateFromOldVersion(sys.deviceId, sys.endPoint))
  {
    hide RestoreInit, Migrates;
  }

  lemma MaintenanceKeepsConfig(sys: Sys, d: Device, t: Transition)
    requires t.OnAfterBoot?
    ensures KeepsDisk(d, HandleMaintenance(sys, d, t).dev)
  {
  }

  /** The second transition of a boot. */
  lemma PassingComesToRest(sys: Sys, cfg: Config, d: Device, t: Transition)
    requires Bootable(cfg) && Passing(sys, cfg, d, t)
    ensures var r := PerformTransition(sys, d, t);
            && KeepsDisk(d, r.dev) && r.dev.misused == {}
            && (r.Done? ==> r.next.None? && Steady(r.dev) && r.dev.core.runtime == Destination(sys.deviceId, cfg))
            && (r.Done? ==> r.dev.core.cfg == Settled(sys, cfg))
  {
    hide PerformTransition, Handle, Enter, Unwind, UnwindDisk, Replayable, Misplayed, Marked, Steady, Keeps;
    StepIsReversible(sys, d, t);
    PerformIsEnterThenHandle(sys, d, t);
    EnterWhilePassing(sys, cfg, d, t);
    if Enter(sys, d, t).Done? {
      FinishBoot(sys, Enter(sys, d, t).dev, t);
    }
  }

  lemma EnterWhilePassing(sys: Sys, cfg: Config, d: Device, t: Transition)
    requires Bootable(cfg) && Passing(sys, cfg, d, t)
    ensures var r := Enter(sys, d, t);
            && r.dev.misused == {}
            && (r.Done? ==>
                  r.dev.core == d.core.(runtime := ToState(t), cfg := d.core.cfg.(state := Some(ToState(t)))))
  {
    hide Unwind, UnwindDisk, Replayable, Misplayed, Marked;
  }

  lemma FinishBoot(sys: Sys, d: Device, t: Transition)
    requires d.core.mq == ALWAYS_ON && d.misused == {} && d.core.runtime == ToState(t) &&
               d.core.cfg.state == Some(ToState(t))
    requires t.OnMigrateFromOldVersion? || t.OnFallback? || t.OnUpdateDeviceFinished? || t.OnZTPSetupInterrupted? ||
               t.OnInitFallback?
    requires t.OnUpdateDeviceFinished? || t.OnFallback? || !d.core.ws
    requires t.OnUpdateDeviceFinished? ==> d.core.ws
    ensures var r := Handle(sys, d, ToState(t), t);
            && r.dev.misused == {}
            && (r.Done? ==> r.next.None? && Steady(r.dev) && r.dev.core.runtime == ToState(t))
            && (r.Done? ==>
                  r.dev.core.cfg ==
                  if t.OnMigrateFromOldVersion? then Migrated(d.core.cfg, t.deviceId, t.addr) else d.core.cfg)
  {
    hide Unwind, UnwindDisk, Replayable, Misplayed, Marked, Subscribe, RestoreActive, Migrate, RestoreInit, Subjects;
    hide Migrated;
    if t.OnMigrateFromOldVersion? {
      MigrateWrites(sys, d, t.deviceId, t.addr);
    }
    if ToState(t) == Active {
      EnterActive(sys, d, t);
    } else {
      EnterInit(sys, d, t);
    }
  }

  lemma BootChainOutcome(sys: Sys, d: Device)
    requires Booting(d) && Bootable(d.core.cfg)
    ensures var r := BootChain(sys, d);
            && KeepsDisk(d, r.dev) && r.dev.misused == {}
            && (r.Done? ==> Steady(r.dev) && r.dev.core.runtime == Destination(sys.deviceId, d.core.cfg))
            && (r.Done? ==> r.dev.core.cfg == Settled(sys, d.core.cfg))
  {
    hide Unwind, UnwindDisk, Replayable, Misplayed, Marked, Steady, Handle, Enter, PerformTransition, Destination;
    hide StoredState, Chain, Settled;
    var q := Ask(sys, d);
    if q.Done? {
      var cfg := d.core.cfg;
      var t := OnAfterBoot(StoredState(cfg));
      ChainIsShort(sys, q.dev, t);
      FromBootIsAllowed(q.dev, cfg);
      PerformIsEnterThenHandle(sys, q.dev, t);
      EnterFromBoot(sys, q.dev, StoredState(cfg));
      var e := Enter(sys, q.dev, t);
      if e.Done? {
        HandleAfterBoot(sys, e.dev, cfg);
        var r := Handle(sys, e.dev, StoredState(cfg), t);
        if r.Done? && r.next.Some? {
          PassingComesToRest(sys, cfg, r.dev, r.next.value);
        }
      }
    }
  }

  /** Undo entries that call neither the message queue nor the websocket. */
  predicate Calm(log: seq<Undo>) {
    forall e <- log :: e.RestoreConfig? || e.RestoreRuntime? || e.RevertActivity?
  }

  lemma {:induction false} CalmReplays(c: Core, log: seq<Undo>)
    requires Calm(log)
    ensures Replayable(false, c, log)
    decreases |log|
  {
    if log != [] {
      CalmReplays(UndoOne(c, log[|log| - 1]), log[..|log| - 1]);
    }
  }

  lemma EnterFromBootIsCalm(sys: Sys, d: Device, s: AppState)
    requires d.core.runtime == Boot && Calm(d.log)
    ensures Calm(Enter(sys, d, OnAfterBoot(s)).dev.log)
  {
    hide Keeps, KeepsDisk, Overwrite;
  }

  lemma HandleReplays(sys: Sys, d: Device, s: AppState)
    requires Calm(d.log) && HasHandler(s)
    ensures var r := Handle(sys, d, s, OnAfterBoot(s));
            !r.Crashed? ==> Replayable(false, r.dev.core, r.dev.log)
  {
    hide HandleInit, HandleActive, HandleUpdateConfig, HandleMaintenance, HandleZTPSetup, HandleReset;
    hide Unwind, UnwindDisk, Replayable, Misplayed, Marked, KeepsDisk, Calm;
    var r := Handle(sys, d, s, OnAfterBoot(s));
    CalmReplays(d.core, d.log);
    CalmReplays(r.dev.core, d.log);
  }

  /** Whatever a boot has logged when it ends can be undone without misuse. */
  lemma BootChainReplays(sys: Sys, d: Device)
    requires Booting(d) && Bootable(d.core.cfg) && d.log == []
    ensures var r := BootChain(sys, d);
            !r.Crashed? ==> Replayable(false, r.dev.core, r.dev.log)
  {
    hide Unwind, UnwindDisk, Replayable, Misplayed, Marked, Steady, Handle, Enter, PerformTransition, Destination;
    hide StoredState, Chain, Settled, Keeps;
    var q := Ask(sys, d);
    CalmReplays(q.dev.core, q.dev.log);
    if q.Done? {
      var cfg, s := d.core.cfg, StoredState(d.core.cfg);
      var t := OnAfterBoot(s);
      ChainIsShort(sys, q.dev, t);
      FromBootIsAllowed(q.dev, cfg);
      PerformIsEnterThenHandle(sys, q.dev, t);
      EnterFromBoot(sys, q.dev, s);
      EnterFromBootIsCalm(sys, q.dev, s);
      var e := Enter(sys, q.dev, t);
      CalmReplays(e.dev.core, e.dev.log);
      if e.Done? {
        HandleReplays(sys, e.dev, s);
        HandleAfterBoot(sys, e.dev, cfg);
        var r := Handle(sys, e.dev, s, t);
        if r.Done? && r.next.Some? {
          SecondStepReplays(sys, cfg, r.dev, r.next.value);
        }
      }
    }
  }

  lemma SecondStepReplays(sys: Sys, cfg: Config, d: Device, t: Transition)
    requires Bootable(cfg) && Passing(sys, cfg, d, t) && Replayable(false, d.core, d.log)
    ensures var r := PerformTransition(sys, d, t);
            !r.Crashed? ==> Replayable(false, r.dev.core, r.dev.log)
  {
    hide PerformTransition, Unwind, UnwindDisk, Replayable, Misplayed, Marked, KeepsDisk;
    StepIsReversible(sys, d, t);
  }

  lemma FromBootIsAllowed(d: Device, cfg: Config)
    requires Bootable(cfg) && d.core.runtime == Boot
    ensures !Refused(d, OnAfterBoot(StoredState(cfg)))
  {
  }

  /** The permanent subjects, then a transaction. */
  function ToBootChain(sys: Sys, cfg: Config, clock: nat): Out {
    var d :- Subscribe(sys, Fresh(cfg, clock), [GetConfig, HubListPorts, DebugDumpHeap]);
    Ask(sys, d.(log := []))
  }

  lemma ToBootChainOutcome(sys: Sys, cfg: Config, clock: nat)
    ensures var r := ToBootChain(sys, cfg, clock);
            && (r.Done? ==> Booting(r.dev) && r.dev.core.cfg == cfg && r.dev.log == [])
            && r.dev.core.cfg == cfg && UnwindDisk(true, cfg, r.dev.log) == cfg && !r.dev.wiped && r.dev.misused == {}
  {
    hide Subscribe, Unwind, Replayable;
    var subjects := [GetConfig, HubListPorts, DebugDumpHeap];
    var f := Fresh(cfg, clock);
    assert UnwindDisk(true, cfg, []) == cfg && !Marked([]);
    hide UnwindDisk, Marked;
    AlwaysOnSubscribes(sys, f, subjects);
  }

  lemma AlwaysOnSubscribes(sys: Sys, d: Device, subjects: seq<Subject>)
    requires d.core.mq == {} && subjects == [GetConfig, HubListPorts, DebugDumpHeap]
    ensures var r := Subscribe(sys, d, subjects);
            r.dev.misused == d.misused && (r.Done? ==> r.dev.core.mq == ALWAYS_ON)
  {
    hide Subscribe, Unwind, UnwindDisk, Replayable, Misplayed, Marked, Keeps;
    SubscribeAll(sys, d, subjects);
    assert SetOf(subjects) == ALWAYS_ON;
    assert {} + ALWAYS_ON == ALWAYS_ON;
  }

  lemma BootUpIsToBootChainThenFinish(sys: Sys, cfg: Config, clock: nat)
    ensures var b := ToBootChain(sys, cfg, clock);
            BootUp(sys, cfg, clock) == if b.Done? then Finish(sys, BootChain(sys, b.dev)) else b
  {
    hide Subscribe, BootChain, Finish;
  }

  /**
   * A boot that completes comes to rest in the state the disk, the serial number and the device id determine;
   * a boot that fails or crashes leaves a disk from which the next boot starts over, unless only its commit failed.
   * No boot misuses a service, not even while it is undone.
   */
  lemma BootComesToRest(sys: Sys, cfg: Config, clock: nat)
    requires Bootable(cfg)
    ensures var r := BootUp(sys, cfg, clock);
            && (r.Done? ==>
                  && Resting(sys, r.dev) && r.dev.core.runtime == Destination(sys.deviceId, cfg)
                  && r.dev.core.cfg == Settled(sys, cfg))
            && r.dev.misused == {}
            && (r.Crashed? ==> Recover(r.dev) == cfg)
            && (r.Failed? ==>
                  r.dev.core.cfg == cfg || (Steady(r.dev) && r.dev.core.runtime == Destination(sys.deviceId, cfg)))
  {
    hide BootUp, ToBootChain, BootChain, Unwind, UnwindDisk, Replayable, Misplayed, Marked;
    BootUpIsToBootChainThenFinish(sys, cfg, clock);
    ToBootChainOutcome(sys, cfg, clock);
    var b := ToBootChain(sys, cfg, clock);
    if b.Done? {
      BootChainOutcome(sys, b.dev);
      var r := BootChain(sys, b.dev);
      UnwindAgreesOnDisk(true, r.dev.core, r.dev.log);
      if r.Failed? {
        BootChainReplays(sys, b.dev);
        ReplayableToMark(r.dev.core, r.dev.log);
        ReplayedProperly(true, r.dev.core, r.dev.log);
        FinishFailed(sys, r);
      }
    }
  }

  /** A device id that an old version left: not blank, and no placeholder, which has an x in it. */
  predicate FromOldVersion(id: string) {
    id != "" && forall c <- id :: c != 'x' && c != 'X'
  }

  lemma MigratesIff(id: string)
    ensures Migrates(id) <==> FromOldVersion(id)
  {
  }

  /** Where a boot from a disk ends and what it has written, by the stored state and the characters of the device id. */
  predicate BootedFrom(sys: Sys, cfg: Config, c: Core) {
    match cfg.state
    case Some(Active) => c.runtime == Active && c.cfg == cfg
    case Some(UpdateConfig) => c.runtime == Active && c.cfg == cfg.(state := Some(Active))
    case Some(Maintenance) => c.runtime == Active && c.cfg == cfg.(state := Some(Active))
    case Some(ZTPSetup) => c.runtime == Init && c.cfg == cfg.(state := Some(Init))
    case Some(Reset) =>
      if cfg.app.Some? && cfg.app.value.serial != "" then c.runtime == Active && c.cfg == cfg.(state := Some(Active))
      else c.runtime == Init && c.cfg == cfg.(state := Some(Init))
    case Some(Boot) => false
    case Some(Unknown(_)) => false
    case _ =>
      if FromOldVersion(sys.deviceId) then
        && c.runtime == Active
        && c.cfg == cfg.(state := Some(Active), app := c.cfg.app)
        && c.cfg.app.Some? && c.cfg.app.value.serial == sys.deviceId && c.cfg.app.value.addrs == [sys.endPoint]
        && c.cfg.app.value.tunnel == (if cfg.app.Some? then cfg.app.value.tunnel else "")
        && c.cfg.app.value.activeAddr == (if cfg.app.Some? then cfg.app.value.activeAddr else "")
      else c.runtime == Init && c.cfg == cfg.(state := Some(Init))
  }

  /**
   * A completed boot, stated by the stored state alone: with none or init the device id decides, and sends on to
   * active exactly an id left by an old version; with a state no handler knows, or boot itself, no boot completes.
   */
  lemma BootLeadsTo(sys: Sys, cfg: Config, clock: nat)
    ensures var r := BootUp(sys, cfg, clock);
            r.Done? ==> BootedFrom(sys, cfg, r.dev.core)
  {
    hide BootUp, Resting, Recover, Steady;
    if Bootable(cfg) {
      BootComesToRest(sys, cfg, clock);
    } else {
      UnbootableFails(sys, cfg, clock);
    }
  }

  lemma UnbootableFails(sys: Sys, cfg: Config, clock: nat)
    requires !Bootable(cfg)
    ensures !BootUp(sys, cfg, clock).Done?
  {
    hide BootUp, Finish, Unwind, UnwindDisk, Replayable, Misplayed, Marked, PerformTransition;
    BootUpIsToBootChainThenFinish(sys, cfg, clock);
    ToBootChainOutcome(sys, cfg, clock);
    hide ToBootChain;
    var b := ToBootChain(sys, cfg, clock);
    if b.Done? {
      var q := Ask(sys, b.dev);
      ChainIsShort(sys, q.dev, OnAfterBoot(StoredState(cfg)));
      AllowedIfDone(sys, q.dev, OnAfterBoot(StoredState(cfg)));
      DoneIsFinished(sys, BootChain(sys, b.dev));
    }
  }

  lemma DoneIsFinished(sys: Sys, ran: Out)
    ensures Finish(sys, ran).Done? ==> ran.Done?
  {
    hide Unwind, UnwindDisk, Replayable, Misplayed, Marked;
  }

  // ---------- boots without faults ----------

  ghost predicate NoFaults(sys: Sys) {
    forall n: nat :: sys.verdict(n) == Succeeds
  }

  lemma {:induction false} SubscribeSucceeds(sys: Sys, d: Device, subjects: seq<Subject>)
    requires NoFaults(sys) && Distinct(subjects) && forall s <- subjects :: s !in d.core.mq
    ensures Subscribe(sys, d, subjects).Done?
    decreases |subjects|
  {
    if subjects != [] {
      var r := ActivateSubject(sys, d, subjects[0]);
      assert subjects == [subjects[0]] + subjects[1..];
      SubscribeSucceeds(sys, r.dev, subjects[1..]);
    }
  }

  lemma TablesSubscribe(sys: Sys)
    requires NoFaults(sys)
    ensures forall d: Device {:trigger Subscribe(sys, d, INIT_SUBJECTS)} | d.core.mq == ALWAYS_ON ::
              Subscribe(sys, d, INIT_SUBJECTS).Done?
    ensures forall d: Device {:trigger Subscribe(sys, d, ACTIVE_SUBJECTS)} | d.core.mq == ALWAYS_ON ::
              Subscribe(sys, d, ACTIVE_SUBJECTS).Done?
  {
    SubjectTables();
    forall d: Device | d.core.mq == ALWAYS_ON
      ensures Subscribe(sys, d, INIT_SUBJECTS).Done? && Subscribe(sys, d, ACTIVE_SUBJECTS).Done?
    {
      SubscribeSucceeds(sys, d, INIT_SUBJECTS);
      SubscribeSucceeds(sys, d, ACTIVE_SUBJECTS);
    }
  }

  lemma RestoreInitSucceeds(sys: Sys, d: Device)
    requires NoFaults(sys) && d.core.mq == ALWAYS_ON
    ensures RestoreInit(sys, d).Done?
  {
    TablesSubscribe(sys);
    hide Subscribe, Unwind, UnwindDisk, Replayable, Misplayed, Marked;
  }

  lemma RestoreActiveSucceeds(sys: Sys, d: Device)
    requires NoFaults(sys) && d.core.mq == ALWAYS_ON
    ensures RestoreActive(sys, d).Done?
  {
    TablesSubscribe(sys);
    hide Subscribe, Unwind, UnwindDisk, Replayable, Misplayed, Marked;
  }

  lemma MigrateSucceeds(sys: Sys, d: Device, serial: string, addr: string)
    requires NoFaults(sys) && d.core.mq == ALWAYS_ON && !d.core.ws
    ensures Migrate(sys, d, serial, addr).Done?
  {
    TablesSubscribe(sys);
    hide Subscribe, Unwind, UnwindDisk, Replayable, Misplayed, Marked;
  }

  lemma FinishActiveSucceeds(sys: Sys, d: Device, t: Transition)
    requires NoFaults(sys) && d.core.mq == ALWAYS_ON && t.OnUpdateDeviceFinished?
    ensures HandleActive(sys, d, t).Done?
  {
    TablesSubscribe(sys);
    hide Subscribe, Unwind, UnwindDisk, Replayable, Misplayed, Marked;
  }

  lemma EnterSucceeds(sys: Sys, d: Device, t: Transition)
    requires NoFaults(sys) && d.core.runtime != Active && (d.core.runtime == Init ==> t.OnMigrateFromOldVersion?)
    ensures Enter(sys, d, t).Done?
  {
  }

  lemma HandleAfterBootSucceeds(sys: Sys, d: Device, s: AppState)
    requires NoFaults(sys) && d.core.mq == ALWAYS_ON && HasHandler(s)
    ensures Handle(sys, d, s, OnAfterBoot(s)).Done?
    ensures var r := Handle(sys, d, s, OnAfterBoot(s));
            r.next.Some? && r.next.value.OnMigrateFromOldVersion? ==>
                r.next.value == OnMigrateFromOldVersion(sys.deviceId, sys.endPoint)
  {
    RestoreInitSucceeds(sys, d);
    RestoreActiveSucceeds(sys, d);
    AfterBootDispatch(sys, d, s);
    hide Handle, RestoreInit, RestoreActive, Keeps, KeepsDisk;
    if s == Maintenance {
      MaintenanceSucceeds(sys, d, OnAfterBoot(s));
      hide HandleMaintenance;
    }
  }

  lemma MaintenanceSucceeds(sys: Sys, d: Device, t: Transition)
    requires NoFaults(sys) && t.OnAfterBoot?
    ensures HandleMaintenance(sys, d, t).Done?
  {
    hide Keeps, KeepsDisk, UpdatePackages;
  }

  lemma AfterBootDispatch(sys: Sys, d: Device, s: AppState)
    requires HasHandler(s)
    ensures var r := Handle(sys, d, s, OnAfterBoot(s));
            match s
            case Init =>
              r == if Migrates(sys.deviceId) then Done(d, Some(OnMigrateFromOldVersion(sys.deviceId, sys.endPoint)))
                   else RestoreInit(sys, d)
            case Active => r == RestoreActive(sys, d)
            case UpdateConfig => r == Done(d, Some(OnFallback))
            case Maintenance => r == HandleMaintenance(sys, d, OnAfterBoot(s))
            case ZTPSetup => r == Done(d, Some(OnZTPSetupInterrupted))
            case Reset => (Ask(sys, d).Done? ==> r.Done?) &&
              (r.Done? ==> r.next.Some? && !r.next.value.OnMigrateFromOldVersion?)
            case _ => r == Done(d, None)
  {
    hide RestoreInit, RestoreActive, HandleMaintenance, Keeps, KeepsDisk, Migrates, KeepsBeyondMarks;
  }

  lemma FollowUpDispatch(sys: Sys, d: Device, t: Transition)
    ensures t.OnMigrateFromOldVersion? ==> Handle(sys, d, Active, t) == Migrate(sys, d, t.deviceId, t.addr)
    ensures t.OnFallback? ==> Handle(sys, d, Active, t) == RestoreActive(sys, d)
    ensures t.OnUpdateDeviceFinished? ==> Handle(sys, d, Active, t) == HandleActive(sys, d, t)
    ensures t.OnZTPSetupInterrupted? || t.OnInitFallback? ==> Handle(sys, d, Init, t) == RestoreInit(sys, d)
  {
    hide RestoreInit, RestoreActive, Migrate, FirstSetup, Subscribe, Keeps, KeepsDisk;
  }

  lemma PassingFollowsUp(sys: Sys, cfg: Config, d: Device, t: Transition)
    requires Bootable(cfg) && Passing(sys, cfg, d, t)
    ensures !Refused(d, t) && d.core.mq == ALWAYS_ON && d.core.runtime != Active
    ensures d.core.runtime == Init ==> t.OnMigrateFromOldVersion?
    ensures t.OnMigrateFromOldVersion? ==> !d.core.ws
    ensures t.OnMigrateFromOldVersion? || t.OnFallback? || t.OnUpdateDeviceFinished? || t.OnZTPSetupInterrupted? ||
              t.OnInitFallback?
  {
  }

  lemma FollowUpSucceeds(sys: Sys, cfg: Config, d: Device, t: Transition)
    requires NoFaults(sys) && Bootable(cfg) && Passing(sys, cfg, d, t)
    requires t.OnMigrateFromOldVersion? ==> t == OnMigrateFromOldVersion(sys.deviceId, sys.endPoint)
    ensures PerformTransition(sys, d, t).Done?
  {
    hide Enter, Handle, HandleActive, PerformTransition, RestoreInit, RestoreActive, Migrate, Keeps, KeepsDisk;
    hide Passing, Bootable, Refused, NoFaults;
    PassingFollowsUp(sys, cfg, d, t);
    PerformIsEnterThenHandle(sys, d, t);
    EnterSucceeds(sys, d, t);
    EnterWhilePassing(sys, cfg, d, t);
    var e := Enter(sys, d, t).dev;
    FollowUpDispatch(sys, e, t);
    match t
    case OnMigrateFromOldVersion(id, addr) => MigrateSucceeds(sys, e, id, addr);
    case OnUpdateDeviceFinished(_) => FinishActiveSucceeds(sys, e, t);
    case OnFallback => RestoreActiveSucceeds(sys, e);
    case _ => RestoreInitSucceeds(sys, e);
  }

  lemma BootChainSucceeds(sys: Sys, d: Device)
    requires NoFaults(sys) && Booting(d) && Bootable(d.core.cfg)
    ensures BootChain(sys, d).Done?
  {
    var q := Ask(sys, d);
    var cfg := d.core.cfg;
    var t := OnAfterBoot(StoredState(cfg));
    hide Unwind, UnwindDisk, Replayable, Misplayed, Marked, Steady, Handle, Enter, PerformTransition, Destination;
    hide StoredState, Chain;
    ChainIsShort(sys, q.dev, t);
    FromBootIsAllowed(q.dev, cfg);
    PerformIsEnterThenHandle(sys, q.dev, t);
    EnterFromBoot(sys, q.dev, StoredState(cfg));
    EnterSucceeds(sys, q.dev, t);
    var e := Enter(sys, q.dev, t);
    HandleAfterBoot(sys, e.dev, cfg);
    HandleAfterBootSucceeds(sys, e.dev, StoredState(cfg));
    var r := Handle(sys, e.dev, StoredState(cfg), t);
    if r.next.Some? {
      FollowUpSucceeds(sys, cfg, r.dev, r.next.value);
    }
  }

  lemma ToBootChainSucceeds(sys: Sys, cfg: Config, clock: nat)
    requires NoFaults(sys)
    ensures ToBootChain(sys, cfg, clock).Done?
  {
    SubscribeSucceeds(sys, Fresh(cfg, clock), [GetConfig, HubListPorts, DebugDumpHeap]);
    hide Subscribe;
  }

  /** With no failing step a boot from any bootable disk completes. */
  lemma FaultlessBootSucceeds(sys: Sys, cfg: Config, clock: nat)
    requires NoFaults(sys) && Bootable(cfg)
    ensures BootUp(sys, cfg, clock).Done?
  {
    hide BootUp, ToBootChain, BootChain, Bootable, Booting, UnwindDisk, Unwind, Marked, Replayable, Keeps;
    BootUpIsToBootChainThenFinish(sys, cfg, clock);
    ToBootChainOutcome(sys, cfg, clock);
    ToBootChainSucceeds(sys, cfg, clock);
    BootChainSucceeds(sys, ToBootChain(sys, cfg, clock).dev);
  }
}
