/** What one transition does to a device at rest: how it can be undone, and where it leads. */
module Steps {
  import opened Common
  import opened Configs
  import opened Transitions
  import opened Devices
  import opened Handlers
  import opened Engine

  /** The message queue subjects a state keeps active besides the permanent ones. */
  function Subjects(s: AppState): set<Subject> {
    match s
    case Init => SetOf(INIT_SUBJECTS)
    case Active => SetOf(ACTIVE_SUBJECTS)
    case _ => {}
  }

  lemma SubjectTables()
    ensures Distinct(INIT_SUBJECTS) && Distinct(ACTIVE_SUBJECTS)
    ensures ALWAYS_ON !! SetOf(INIT_SUBJECTS) && ALWAYS_ON !! SetOf(ACTIVE_SUBJECTS)
  {
  }

  predicate Online(s: AppState) {
    s in {Active, UpdateConfig, Maintenance}
  }

  /** Subjects and websocket are those of the running state; init, active and maintenance are also the stored state. */
  predicate Steady(d: Device) {
    && HasHandler(d.core.runtime) && d.core.runtime != Boot
    && d.core.mq == ALWAYS_ON + Subjects(d.core.runtime)
    && d.core.ws == Online(d.core.runtime)
    && (d.core.runtime in {Init, Active, Maintenance} ==> d.core.cfg.state == Some(d.core.runtime))
  }

  /** The device between two commands. */
  predicate Resting(sys: Sys, d: Device) {
    && Steady(d) && d.log == [] && d.misused == {}
    && (d.wiped ==> d.core.runtime == Reset)
    && (d.core.runtime in {Init, Active} || RestingInReset(sys, d))
  }

  /** A non-hub device that was reset and waits for its reboot. */
  predicate RestingInReset(sys: Sys, d: Device) {
    && d.core.runtime == Reset && !sys.kind.Hub?
    && Serial(d.core.cfg) == "" && !HasPorts(d.core.cfg)
    && d.core.cfg.state in {Some(Reset), Some(Unset)}
  }

  /** An update went past its checkpoint and then failed: undoing stopped in maintenance. */
  predicate Stranded(d: Device) {
    Steady(d) && d.log == [] && d.core.runtime == Maintenance && !d.wiped
  }

  // ---------- undoing one transition ----------

  /**
   * Undoing leads from the outcome to where it led from d, whatever the checkpoints; a crash loses the volatile half.
   */
  ghost predicate Reversible(d: Device, r: Out) {
    && UnwindDisk(false, r.dev.core.cfg, r.dev.log) == UnwindDisk(false, d.core.cfg, d.log)
    && (!r.Crashed? ==> KeepsBeyondMarks(d, r.dev))
  }

  /** As Reversible, and no checkpoint comes or goes. */
  ghost predicate MarkFree(d: Device, r: Out) {
    KeepsDisk(d, r.dev) && (!r.Crashed? ==> Keeps(d, r.dev))
  }

  /** What the handlers do, as StepIsReversible needs it. */
  lemma HandleIsReversible(sys: Sys, d: Device, t: Transition)
    requires !t.OnAfterBoot? && (t.OnUpdateConfig? ==> d.core.ws)
    ensures var r := Handle(sys, d, ToState(t), t);
            && Reversible(d, r)
            && (!t.OnUpdateDevice? && !(t.OnReset? && !sys.kind.Hub?) ==> MarkFree(d, r))
            && r.dev.core.runtime == d.core.runtime
  {
    hide HandleInit, HandleActive, HandleUpdateConfig, HandleMaintenance, HandleZTPSetup, HandleReset;
    hide Unwind, UnwindDisk, Replayable, Misplayed, Marked;
    if t.OnUpdateDevice? {
      assert Handle(sys, d, ToState(t), t) == HandleMaintenance(sys, d, t);
    }
  }

  /** Everything a transition does before its handler. */
  function Enter(sys: Sys, d: Device, t: Transition): Out {
    var d :- OnExit(sys, d, t);
    UpdateAppState(sys, d, ToState(t))
  }

  lemma EnterIsMarkFree(sys: Sys, d: Device, t: Transition)
    requires d.core.runtime != Boot
    ensures var r := Enter(sys, d, t);
            && Keeps(d, r.dev)
            && (r.Done? ==>
                  && r.dev.core.runtime == ToState(t) && r.dev.core.ws == d.core.ws
                  && r.dev.core.cfg == d.core.cfg.(state := Some(ToState(t))))
            && (!r.Done? ==> r.dev.core.runtime == d.core.runtime && r.dev.core.ws == d.core.ws)
  {
    hide OnExit, UpdateAppState, Unwind, UnwindDisk, Replayable, Misplayed, Marked;
  }

  lemma PerformIsEnterThenHandle(sys: Sys, d: Device, t: Transition)
    requires !Refused(d, t)
    ensures var e := Enter(sys, d, t);
            PerformTransition(sys, d, t) == if e.Done? then Handle(sys, e.dev, ToState(t), t) else e
  {
    hide OnExit, UpdateAppState, Handle;
  }

  lemma AllowedIfDone(sys: Sys, d: Device, t: Transition)
    ensures PerformTransition(sys, d, t).Done? ==> !Refused(d, t)
    ensures Refused(d, t) ==> PerformTransition(sys, d, t) == Failed(d)
  {
    hide OnExit, UpdateAppState, Handle;
  }

  lemma StepIsReversible(sys: Sys, d: Device, t: Transition)
    requires d.core.runtime != Boot && !t.OnAfterBoot?
    requires t.OnUpdateConfig? && d.core.runtime == Active ==> d.core.ws
    ensures Reversible(d, PerformTransition(sys, d, t))
    ensures !t.OnUpdateDevice? && !(t.OnReset? && !sys.kind.Hub?) ==> MarkFree(d, PerformTransition(sys, d, t))
  {
    hide Enter, Handle, Unwind, UnwindDisk, Replayable, Misplayed, Marked;
    if !Refused(d, t) {
      PerformIsEnterThenHandle(sys, d, t);
      hide PerformTransition;
      EnterIsMarkFree(sys, d, t);
      if Enter(sys, d, t).Done? {
        HandleIsReversible(sys, Enter(sys, d, t).dev, t);
      }
    }
  }

  // ---------- where one transition leads ----------

  lemma {:induction false} SubscribeAll(sys: Sys, d: Device, subjects: seq<Subject>)
    requires Distinct(subjects) && forall s <- subjects :: s !in d.core.mq
    ensures var r := Subscribe(sys, d, subjects);
            r.dev.misused == d.misused && (r.Done? ==> r.dev.core.mq == d.core.mq + SetOf(subjects))
    decreases |subjects|
  {
    if subjects != [] {
      var r := ActivateSubject(sys, d, subjects[0]);
      assert subjects == [subjects[0]] + subjects[1..];
      if r.Done? {
        SubscribeAll(sys, r.dev, subjects[1..]);
      }
    }
  }

  lemma {:induction false} UnsubscribeAll(sys: Sys, d: Device, subjects: seq<Subject>)
    requires Distinct(subjects) && forall s <- subjects :: s in d.core.mq
    ensures var r := Unsubscribe(sys, d, subjects);
            r.dev.misused == d.misused && (r.Done? ==> r.dev.core.mq == d.core.mq - SetOf(subjects))
    decreases |subjects|
  {
    if subjects != [] {
      var r := DeactivateSubject(sys, d, subjects[0]);
      assert subjects == [subjects[0]] + subjects[1..];
      if r.Done? {
        UnsubscribeAll(sys, r.dev, subjects[1..]);
      }
    }
  }

  lemma SubscribeInit(sys: Sys, d: Device)
    requires d.core.mq == ALWAYS_ON
    ensures var r := Subscribe(sys, d, INIT_SUBJECTS);
            r.dev.misused == d.misused && (r.Done? ==> r.dev.core.mq == ALWAYS_ON + Subjects(Init))
  {
    SubjectTables();
    SubscribeAll(sys, d, INIT_SUBJECTS);
  }

  lemma SubscribeActive(sys: Sys, d: Device)
    requires d.core.mq == ALWAYS_ON
    ensures var r := Subscribe(sys, d, ACTIVE_SUBJECTS);
            r.dev.misused == d.misused && (r.Done? ==> r.dev.core.mq == ALWAYS_ON + Subjects(Active))
  {
    SubjectTables();
    SubscribeAll(sys, d, ACTIVE_SUBJECTS);
  }

  lemma UnsubscribeInit(sys: Sys, d: Device)
    requires d.core.mq == ALWAYS_ON + Subjects(Init)
    ensures var r := Unsubscribe(sys, d, INIT_SUBJECTS);
            r.dev.misused == d.misused && (r.Done? ==> r.dev.core.mq == ALWAYS_ON)
  {
    SubjectTables();
    UnsubscribeAll(sys, d, INIT_SUBJECTS);
  }

  lemma UnsubscribeActive(sys: Sys, d: Device)
    requires d.core.mq == ALWAYS_ON + Subjects(Active)
    ensures var r := Unsubscribe(sys, d, ACTIVE_SUBJECTS);
            r.dev.misused == d.misused && (r.Done? ==> r.dev.core.mq == ALWAYS_ON)
  {
    SubjectTables();
    UnsubscribeAll(sys, d, ACTIVE_SUBJECTS);
  }

  lemma ExitSteady(sys: Sys, d: Device, t: Transition)
    requires Steady(d) && !t.OnMigrateFromOldVersion?
    ensures var r := OnExit(sys, d, t);
            r.dev.misused == d.misused && (r.Done? ==> r.dev.core.mq == ALWAYS_ON)
  {
    hide Unsubscribe;
    if d.core.runtime == Init {
      UnsubscribeInit(sys, d);
    } else if d.core.runtime == Active {
      UnsubscribeActive(sys, d);
    }
  }

  /** SubscribeActive for whichever device the handler arrives at. */
  lemma SubscribeActiveFromAny(sys: Sys)
    ensures forall e: Device {:trigger Subscribe(sys, e, ACTIVE_SUBJECTS)} | e.core.mq == ALWAYS_ON ::
              var r := Subscribe(sys, e, ACTIVE_SUBJECTS);
              r.dev.misused == e.misused && (r.Done? ==> r.dev.core.mq == ALWAYS_ON + Subjects(Active))
  {
    forall e: Device | e.core.mq == ALWAYS_ON
      ensures var r := Subscribe(sys, e, ACTIVE_SUBJECTS);
              r.dev.misused == e.misused && (r.Done? ==> r.dev.core.mq == ALWAYS_ON + Subjects(Active))
    {
      SubscribeActive(sys, e);
    }
  }

  lemma FirstSetupLeadsToActive(sys: Sys, d: Device, serial: string, addrs: seq<string>)
    requires d.core.mq == ALWAYS_ON && (HasPorts(d.core.cfg) ==> !d.core.ws)
    ensures var r := FirstSetup(sys, d, serial, addrs);
            r.dev.misused == d.misused && (r.Done? ==> r.dev.core.mq == ALWAYS_ON + Subjects(Active))
  {
    SubscribeActiveFromAny(sys);
    hide Subscribe, Connect, Subjects;
  }

  lemma RestoreLeadsToActive(sys: Sys, d: Device)
    requires d.core.mq == ALWAYS_ON
    ensures var r := RestoreActive(sys, d);
            r.dev.misused == d.misused && (r.Done? ==> r.dev.core.mq == ALWAYS_ON + Subjects(Active))
  {
    SubscribeActiveFromAny(sys);
    hide Subscribe, Subjects;
  }

  lemma MigrateLeadsToActive(sys: Sys, d: Device, serial: string, addr: string)
    requires d.core.mq == ALWAYS_ON && !d.core.ws
    ensures var r := Migrate(sys, d, serial, addr);
            r.dev.misused == d.misused && (r.Done? ==> r.dev.core.mq == ALWAYS_ON + Subjects(Active))
  {
    SubscribeActiveFromAny(sys);
    hide Subscribe, Subjects;
  }

  lemma EnterActive(sys: Sys, d: Device, t: Transition)
    requires d.core.mq == ALWAYS_ON
    requires t.OnFirstSetup? && HasPorts(d.core.cfg) ==> !d.core.ws
    requires t.OnMigrateFromOldVersion? ==> !d.core.ws
    requires t.OnUpdateConfigFinished? || t.OnUpdateDeviceFinished? ==> d.core.ws
    ensures var r := HandleActive(sys, d, t);
            r.dev.misused == d.misused && (r.Done? ==> r.dev.core.ws && r.dev.core.mq == ALWAYS_ON + Subjects(Active))
  {
    hide Subscribe, Subjects, FirstSetup, RestoreActive, Migrate;
    match t
    case OnFirstSetup(serial, addrs) => FirstSetupLeadsToActive(sys, d, serial, addrs);
    case OnMigrateFromOldVersion(serial, addr) => MigrateLeadsToActive(sys, d, serial, addr);
    case OnUpdateConfigFinished => SubscribeActive(sys, d);
    case OnUpdateDeviceFinished(_) => SubscribeActive(sys, d);
    case _ => RestoreLeadsToActive(sys, d);
  }

  lemma EnterInit(sys: Sys, d: Device, t: Transition)
    requires d.core.mq == ALWAYS_ON
    ensures var r := HandleInit(sys, d, t);
            r.dev.misused == d.misused &&
            (r.Done? ==> r.dev.core.mq == if r.next.Some? then ALWAYS_ON else ALWAYS_ON + Subjects(Init))
  {
    hide Subscribe, Subjects, Unwind, UnwindDisk, Replayable, Misplayed, Marked, Keeps, Migrates;
    SubscribeInit(sys, d);
  }

  /** The transitions a device at rest, or in the middle of a command, can be asked to make. */
  predicate Expected(sys: Sys, d: Device, t: Transition) {
    match t
    case OnFirstSetup(_, _) => HasPorts(d.core.cfg) && d.core.runtime != Active ==> !d.core.ws
    case OnUpdateConfigFinished => d.core.runtime == UpdateConfig
    case OnUpdateDeviceFinished(_) => d.core.runtime == Maintenance
    case OnZTPSetupFinished => d.core.runtime == ZTPSetup
    case OnHubResetFinished => d.core.runtime == Reset
    case _ => IsCommand(t)
  }

  lemma EnterSteady(sys: Sys, d: Device, t: Transition)
    requires Steady(d) && !t.OnMigrateFromOldVersion?
    ensures var r := Enter(sys, d, t);
            r.dev.misused == d.misused && (r.Done? ==> r.dev.core.mq == ALWAYS_ON)
  {
    ExitSteady(sys, d, t);
    hide OnExit, UpdateAppState, Subjects;
  }

  /** The handler of an expected transition, entered with the permanent subjects only. */
  lemma HandleStaysSteady(sys: Sys, d: Device, t: Transition)
    requires d.core.mq == ALWAYS_ON && d.core.runtime == ToState(t) && d.core.cfg.state == Some(ToState(t))
    requires IsCommand(t) || FollowUp(t)
    requires t.OnFirstSetup? && HasPorts(d.core.cfg) ==> !d.core.ws
    requires !t.OnFirstSetup? && !t.OnReset? ==> d.core.ws == Online(ToState(t))
    ensures var r := Handle(sys, d, ToState(t), t);
            && r.dev.misused == d.misused
            && (r.Done? ==> Steady(r.dev) && r.dev.core.runtime == ToState(t))
            && (r.Done? && r.next.Some? ==> Expected(sys, r.dev, r.next.value) && !IsCommand(r.next.value))
  {
    hide HandleInit, HandleActive, HandleUpdateConfig, HandleMaintenance, HandleZTPSetup, HandleReset;
    if ToState(t) == Active {
      EnterActive(sys, d, t);
    } else if ToState(t) == Init {
      EnterInit(sys, d, t);
    }
  }

  lemma ExpectedFacts(sys: Sys, d: Device, t: Transition)
    requires Steady(d) && Expected(sys, d, t)
    ensures IsCommand(t) || FollowUp(t)
    ensures !Refused(d, t) && t.OnFirstSetup? && HasPorts(d.core.cfg) ==> !d.core.ws
    ensures !Refused(d, t) && !t.OnFirstSetup? && !t.OnReset? ==> d.core.ws == Online(ToState(t))
    ensures d.core.runtime != Boot
  {
  }

  /**
   * From a steady device a transition calls every service in a state its contract allows, whether it completes
   * or not, and a completed one leaves a steady device, in the requested state, ready for its follow-up.
   */
  lemma StepStaysSteady(sys: Sys, d: Device, t: Transition)
    requires Steady(d) && Expected(sys, d, t)
    ensures var r := PerformTransition(sys, d, t);
            && r.dev.misused == d.misused
            && (r.Done? ==> Steady(r.dev) && r.dev.core.runtime == ToState(t))
            && (r.Done? && r.next.Some? ==> Expected(sys, r.dev, r.next.value) && !IsCommand(r.next.value))
  {
    hide Enter, Handle, Subjects, Unwind, UnwindDisk, Replayable, Misplayed, Marked, Keeps, Expected, HasPorts;
    hide Online, Steady;
    ExpectedFacts(sys, d, t);
    if !Refused(d, t) {
      PerformIsEnterThenHandle(sys, d, t);
      hide PerformTransition, Refused;
      EnterIsMarkFree(sys, d, t);
      EnterSteady(sys, d, t);
      if Enter(sys, d, t).Done? {
        var e := Enter(sys, d, t).dev;
        SamePorts(d.core.cfg, e.core.cfg);
        HandleStaysSteady(sys, e, t);
      }
    }
  }

  lemma SamePorts(c: Config, c': Config)
    requires c'.port == c.port
    ensures HasPorts(c') == HasPorts(c)
  {
  }
}
