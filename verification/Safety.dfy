/** Whole commands, boots and runs: what a failure or a crash leaves behind, and where devices come to rest. */
module Safety {
  import opened Common
  import opened Configs
  import opened Transitions
  import opened Devices
  import opened Handlers
  import opened Engine
  import opened Steps

  // ---------- chains ----------

  /** A chain is at most two transitions long. */
  lemma ChainIsShort(sys: Sys, d: Device, t: Transition)
    ensures var r := PerformTransition(sys, d, t);
            Chain(sys, d, t) == if r.Done? && r.next.Some? then PerformTransition(sys, r.dev, r.next.value) else r
  {
    hide PerformTransition;
    var r := PerformTransition(sys, d, t);
    if r.Done? && r.next.Some? {
      var r2 := PerformTransition(sys, r.dev, r.next.value);
      assert Rank(r.next.value) == 0;
    }
  }

  lemma HandleFollowsUp(sys: Sys, d: Device, t: Transition)
    requires IsCommand(t)
    ensures var r := Handle(sys, d, ToState(t), t);
            r.Done? ==> r.dev.core.runtime == d.core.runtime && (r.next.Some? ==> FollowUp(r.next.value))
  {
    hide HandleInit, HandleActive, HandleUpdateConfig, HandleMaintenance, HandleZTPSetup, HandleReset;
    hide Keeps, KeepsDisk, KeepsBeyondMarks, AtMark, Overwrite, Serial, Marked;
  }

  lemma CommandFollowUps(sys: Sys, d: Device, t: Transition)
    requires d.core.runtime != Boot && IsCommand(t)
    ensures var r := PerformTransition(sys, d, t);
            r.Done? ==> r.dev.core.runtime == ToState(t) && (r.next.Some? ==> FollowUp(r.next.value))
  {
    hide Handle, Enter, Keeps, FollowUp;
    if !Refused(d, t) {
      PerformIsEnterThenHandle(sys, d, t);
      hide PerformTransition, Refused;
      EnterIsMarkFree(sys, d, t);
      if Enter(sys, d, t).Done? {
        HandleFollowsUp(sys, Enter(sys, d, t).dev, t);
      }
    }
  }

  lemma ChainIsReversible(sys: Sys, d: Device, t: Transition)
    requires d.core.runtime != Boot && IsCommand(t) && (d.core.runtime == Active ==> d.core.ws)
    ensures Reversible(d, Chain(sys, d, t))
  {
    ChainIsShort(sys, d, t);
    StepIsReversible(sys, d, t);
    CommandFollowUps(sys, d, t);
    hide PerformTransition, Chain, Unwind, UnwindDisk, Replayable, Misplayed;
    var r := PerformTransition(sys, d, t);
    if r.Done? && r.next.Some? {
      StepIsReversible(sys, r.dev, r.next.value);
    }
  }

  /**
   * The device at a live checkpoint, for a command that found the configuration before: in maintenance without services
   * for an update of the agent itself, in reset with the empty configuration for a reset.
   */
  predicate Parked(sys: Sys, t: Transition, before: Config, c: Core) {
    && c.mq == ALWAYS_ON && c.cfg == CheckpointConfig(sys, t, before)
    && if t.OnReset? then
         && !sys.kind.Hub? && c.runtime == Reset && !c.ws
         && Serial(c.cfg) == "" && !HasPorts(c.cfg) && c.cfg.state in {Some(Reset), Some(Unset)}
       else
         t.OnUpdateDevice? && AGENT_PACKAGE in t.packages && c.runtime == Maintenance && c.ws &&
             c.cfg.state == Some(Maintenance)
  }

  function CheckpointConfig(sys: Sys, t: Transition, before: Config): Config {
    Overwrite(before.(state := Some(ToState(t))), if t.OnReset? then sys.emptyConfig else NO_SERVICES)
  }

  /** The stored state on the way to the checkpoint is that of the command anyway. */
  lemma ParkedFrom(sys: Sys, t: Transition, before: Config, entered: Config, c: Core)
    requires entered == before.(state := Some(ToState(t)))
    ensures Parked(sys, t, entered, c) == Parked(sys, t, before, c)
  {
    hide Overwrite;
  }

  lemma EmptiedConfig(sys: Sys, cfg: Config)
    requires Assumed(sys) && cfg.state == Some(Reset)
    ensures var c := Overwrite(cfg, sys.emptyConfig);
            Serial(c) == "" && !HasPorts(c) && c.state in {Some(Reset), Some(Unset)}
  {
  }

  lemma HandleParks(sys: Sys, d: Device, t: Transition)
    requires Assumed(sys) && !Marked(d.log) && IsCommand(t)
    requires d.core.mq == ALWAYS_ON && d.core.runtime == ToState(t) && d.core.cfg.state == Some(ToState(t))
    requires t.OnUpdateDevice? || t.OnUpdateConfig? ==> d.core.ws
    ensures var r := Handle(sys, d, ToState(t), t);
            && (Marked(r.dev.log) ==> AtMark(r.dev) && Parked(sys, t, d.core.cfg, r.dev.core))
            && (r.Done? && t.OnReset? && !sys.kind.Hub? ==>
                  Marked(r.dev.log) && Parked(sys, t, d.core.cfg, r.dev.core) && r.next.None?)
            && (r.dev.wiped ==> d.wiped || (r.Done? && t.OnReset? && !sys.kind.Hub?))
            && (r.Done? && !(t.OnReset? && !sys.kind.Hub?) && !t.OnFirstSetup? ==> r.next.Some?)
            && (t.OnFirstSetup? && r.Done? ==> r.next.None?)
  {
    hide HandleInit, HandleActive, HandleUpdateConfig, HandleMaintenance, HandleZTPSetup, HandleReset;
    hide Unwind, UnwindDisk, Replayable, Misplayed, Marked, Overwrite, Serial, HasPorts, Assumed, Keeps;
    hide KeepsBeyondMarks;
    assert d.core.cfg.(state := Some(ToState(t))) == d.core.cfg;
    HandleIsReversible(sys, d, t);
    if d.core.cfg.state == Some(Reset) {
      EmptiedConfig(sys, d.core.cfg);
    }
  }

  lemma CommandNeedsWebsocket(d: Device, t: Transition)
    requires Steady(d) && IsCommand(t) && !Refused(d, t)
    ensures t.OnUpdateDevice? || t.OnUpdateConfig? ==> d.core.ws
  {
  }

  lemma StepParks(sys: Sys, d: Device, t: Transition)
    requires Assumed(sys) && Steady(d) && !Marked(d.log) && IsCommand(t)
    ensures var r := PerformTransition(sys, d, t);
            && (Marked(r.dev.log) ==> AtMark(r.dev) && Parked(sys, t, d.core.cfg, r.dev.core))
            && (r.Done? && t.OnReset? && !sys.kind.Hub? ==>
                  Marked(r.dev.log) && Parked(sys, t, d.core.cfg, r.dev.core) && r.next.None?)
            && (r.dev.wiped ==> d.wiped || (r.Done? && t.OnReset? && !sys.kind.Hub?))
            && (r.Done? && !(t.OnReset? && !sys.kind.Hub?) && !t.OnFirstSetup? ==> r.next.Some?)
            && (t.OnFirstSetup? && r.Done? ==> r.next.None?)
  {
    hide Enter, Handle, Unwind, UnwindDisk, Replayable, Misplayed, Marked, Parked, Assumed, AtMark, KeepsBeyondMarks;
    assert d.core.runtime != Boot;
    if !Refused(d, t) {
      CommandNeedsWebsocket(d, t);
      PerformIsEnterThenHandle(sys, d, t);
      hide PerformTransition, Refused, Steady;
      EnterIsMarkFree(sys, d, t);
      EnterSteady(sys, d, t);
      if Enter(sys, d, t).Done? {
        var e := Enter(sys, d, t).dev;
        HandleParks(sys, e, t);
        ParkedFrom(sys, t, d.core.cfg, e.core.cfg, Handle(sys, e, ToState(t), t).dev.core);
      }
    }
  }

  /** The checkpoint of a chain is the one its first transition left, and undoing to it parks the device there. */
  lemma ChainParks(sys: Sys, d: Device, t: Transition)
    requires Assumed(sys) && Steady(d) && !Marked(d.log) && IsCommand(t)
    ensures var r := Chain(sys, d, t);
            && (Marked(r.dev.log) ==> Parked(sys, t, d.core.cfg, Unwind(true, r.dev.core, r.dev.log)) || r.Crashed?)
            && (Marked(r.dev.log) ==> exists c: Core ::
                  Parked(sys, t, d.core.cfg, c) && UnwindDisk(true, r.dev.core.cfg, r.dev.log) == c.cfg)
            && (r.dev.wiped ==> d.wiped || (Marked(r.dev.log) && r.Done? && t.OnReset? && !sys.kind.Hub?))
  {
    hide PerformTransition, Chain, Unwind, UnwindDisk, Replayable, Misplayed, Marked, Parked, Assumed;
    ChainIsShort(sys, d, t);
    StepParks(sys, d, t);
    CommandFollowUps(sys, d, t);
    var r := PerformTransition(sys, d, t);
    if r.Done? && r.next.Some? {
      StepIsReversible(sys, r.dev, r.next.value);
    }
  }

  /** A chain that a resting device can complete misuses no service and ends at rest. */
  lemma ChainComesToRest(sys: Sys, d: Device, t: Transition)
    requires Assumed(sys) && Resting(sys, d) && IsCommand(t)
    ensures var r := Chain(sys, d, t);
            && r.dev.misused == d.misused
            && (r.Done? ==> Resting(sys, r.dev.(log := [])))
  {
    hide PerformTransition, Chain, Unwind, UnwindDisk, Replayable, Misplayed, Marked;
    RestingIsExpectant(sys, d, t);
    hide Resting, Steady, Expected, Assumed, Parked, Frozen, HasPorts;
    ChainIsShort(sys, d, t);
    StepParks(sys, d, t);
    CommandFollowUps(sys, d, t);
    StepStaysSteady(sys, d, t);
    var r := PerformTransition(sys, d, t);
    if r.Done? && r.next.Some? {
      StepStaysSteady(sys, r.dev, r.next.value);
      CommandEnds(sys, r.dev, r.next.value);
    }
    var c := Chain(sys, d, t);
    if d.wiped {
      WipedIsFrozen(sys, d);
      FrozenChain(sys, d, t);
    } else if c.Done? {
      RestsAtTheEnd(sys, c.dev, t, d.core.cfg);
    }
  }

  lemma RestingIsExpectant(sys: Sys, d: Device, t: Transition)
    requires Resting(sys, d) && IsCommand(t)
    ensures Steady(d) && Expected(sys, d, t) && !Marked(d.log) && d.core.runtime != Boot
  {
  }

  lemma RestsAtTheEnd(sys: Sys, d: Device, t: Transition, before: Config)
    requires Steady(d) && d.misused == {}
    requires d.wiped ==> t.OnReset? && !sys.kind.Hub?
    requires d.core.runtime in {Init, Active} || (t.OnReset? && !sys.kind.Hub? && Parked(sys, t, before, d.core))
    requires t.OnReset? && !sys.kind.Hub? ==> Parked(sys, t, before, d.core)
    ensures Resting(sys, d.(log := []))
  {
  }

  lemma CommandEnds(sys: Sys, d: Device, t: Transition)
    requires d.core.runtime != Boot && FollowUp(t)
    ensures var r := PerformTransition(sys, d, t);
            && (r.Done? ==> r.next.None?)
            && r.dev.wiped == d.wiped
  {
    hide PerformTransition, Handle, Enter, Unwind, UnwindDisk, Replayable, Misplayed, Marked, Refused;
    StepIsReversible(sys, d, t);
    AllowedIfDone(sys, d, t);
    if !Refused(d, t) {
      PerformIsEnterThenHandle(sys, d, t);
      FollowUpEnds(sys, Enter(sys, d, t).dev, t);
    }
  }

  lemma FollowUpEnds(sys: Sys, d: Device, t: Transition)
    requires FollowUp(t)
    ensures var r := Handle(sys, d, ToState(t), t);
            r.Done? ==> r.next.None?
  {
    hide HandleInit, HandleActive, HandleUpdateConfig, HandleMaintenance, HandleZTPSetup, HandleReset, Keeps;
    hide KeepsDisk, KeepsBeyondMarks, AtMark;
  }

  // ---------- commands ----------

  /** The chain of a request, as it stands when its transaction is finished. */
  function Ran(sys: Sys, d: Device, t: Transition): Out {
    var d :- Ask(sys, d.(log := []));
    Chain(sys, d, t)
  }

  lemma RanIsReversible(sys: Sys, d: Device, t: Transition)
    requires Assumed(sys) && Resting(sys, d) && IsCommand(t)
    ensures var ran := Ran(sys, d, t);
            && UnwindDisk(false, ran.dev.core.cfg, ran.dev.log) == d.core.cfg
            && (!ran.Crashed? ==>
                  Unwind(false, ran.dev.core, ran.dev.log) == d.core &&
                      Misplayed(true, ran.dev.core, ran.dev.log) == {})
            && (!Marked(ran.dev.log) ==>
                  Unwind(true, ran.dev.core, ran.dev.log) == Unwind(false, ran.dev.core, ran.dev.log))
            && (!Marked(ran.dev.log) ==> UnwindDisk(true, ran.dev.core.cfg, ran.dev.log) == d.core.cfg)
            && ran.dev.misused == {}
  {
    var s := Ask(sys, d.(log := []));
    UnmarkedUnwind(s.dev.core, s.dev.log);
    if s.Done? {
      ChainIsReversible(sys, s.dev, t);
      ChainComesToRest(sys, s.dev, t);
      var ran := Chain(sys, s.dev, t);
      if !Marked(ran.dev.log) {
        UnmarkedUnwind(ran.dev.core, ran.dev.log);
      }
      if !ran.Crashed? {
        ReplayableToMark(ran.dev.core, ran.dev.log);
        ReplayedProperly(true, ran.dev.core, ran.dev.log);
      }
    }
  }

  lemma RefusedRan(sys: Sys, d: Device, t: Transition)
    requires Refused(d, t)
    ensures var ran := Ran(sys, d, t);
            !ran.Done? && ran.dev.log == []
  {
    hide Unwind, UnwindDisk, Replayable, Misplayed, Refused, Keeps;
    var s := Ask(sys, d.(log := []));
    if s.Done? {
      assert Refused(s.dev, t) by {
        StillRefused(d, s.dev, t);
      }
      ChainIsShort(sys, s.dev, t);
      hide Chain;
    }
  }

  lemma StillRefused(d: Device, d': Device, t: Transition)
    requires Refused(d, t) && d'.core == d.core
    ensures Refused(d', t)
  {
  }

  lemma RanParks(sys: Sys, d: Device, t: Transition)
    requires Assumed(sys) && Resting(sys, d) && IsCommand(t)
    ensures var ran := Ran(sys, d, t);
            && (Marked(ran.dev.log) ==> !Refused(d, t) && !d.wiped)
            && (Marked(ran.dev.log) && !ran.Crashed? ==>
                  Parked(sys, t, d.core.cfg, Unwind(true, ran.dev.core, ran.dev.log)))
            && (Marked(ran.dev.log) ==> exists c: Core ::
                  Parked(sys, t, d.core.cfg, c) && UnwindDisk(true, ran.dev.core.cfg, ran.dev.log) == c.cfg)
            && (ran.dev.wiped ==> d.wiped || (ran.Done? && t.OnReset? && !sys.kind.Hub?))
            && (ran.Done? ==> Resting(sys, ran.dev.(log := [])))
  {
    hide Chain, Unwind, UnwindDisk, Replayable, Misplayed, Parked, Assumed, Keeps, Refused, Steady, RestingInReset;
    if Refused(d, t) {
      RefusedRan(sys, d, t);
    }
    if d.wiped {
      WipedIsFrozen(sys, d);
      FrozenRan(sys, d, t);
    }
    var s := Ask(sys, d.(log := []));
    if s.Done? {
      assert Resting(sys, s.dev.(log := [])) by {
        StillResting(sys, d, s.dev);
      }
      ChainParks(sys, s.dev, t);
      ChainComesToRest(sys, s.dev, t);
    }
  }

  lemma StillResting(sys: Sys, d: Device, d': Device)
    requires Resting(sys, d) && d' == d.(clock := d'.clock)
    ensures Resting(sys, d')
  {
  }

  lemma ServeIsRanThenFinish(sys: Sys, d: Device, t: Transition)
    ensures var ran, r := Ran(sys, d, t), Serve(sys, d, t);
            && (Ask(sys, d.(log := [])).Done? ==> r == Finish(sys, ran))
            && (!Ask(sys, d.(log := [])).Done? ==> r == ran == Ask(sys, d.(log := [])))
  {
    hide Chain, Finish;
  }

  lemma FinishFailed(sys: Sys, ran: Out)
    requires ran.Failed?
    ensures var r := Finish(sys, ran);
            !r.Crashed? ==>
              && r.Failed? && r.dev.log == [] && r.dev.wiped == ran.dev.wiped
              && r.dev.core == Unwind(true, ran.dev.core, ran.dev.log)
              && r.dev.misused == ran.dev.misused + Misplayed(true, ran.dev.core, ran.dev.log)
  {
    hide Unwind, UnwindDisk, Replayable, Misplayed, Marked, Keeps;
  }

  lemma ParkedDiffers(sys: Sys, d: Device, t: Transition, c: Core)
    requires Resting(sys, d) && IsCommand(t) && !Refused(d, t) && Parked(sys, t, d.core.cfg, c)
    ensures c != d.core
  {
  }

  /**
   * Atomicity: a command whose chain fails is undone in full, every undo action being applicable when its turn
   * comes, exactly when no checkpoint is live. (A crash during the finish is the subject of CrashIsRecovered.)
   */
  lemma FailedCommandIsUndone(sys: Sys, d: Device, t: Transition)
    requires Assumed(sys) && Resting(sys, d) && IsCommand(t)
    ensures var ran, r := Ran(sys, d, t), Serve(sys, d, t);
            ran.Failed? && !r.Crashed? ==>
              && r.Failed? && r.dev.log == [] && r.dev.misused == {} && r.dev.wiped == d.wiped
              && (r.dev.core == d.core <==> !Marked(ran.dev.log))
              && (r.dev.core != d.core ==> Parked(sys, t, d.core.cfg, r.dev.core))
  {
    hide Ran, Serve, Unwind, UnwindDisk, Replayable, Misplayed, Marked, Parked, Resting, Assumed, Refused;
    RanIsReversible(sys, d, t);
    RanParks(sys, d, t);
    RanFailedIsFinished(sys, d, t);
    var ran, r := Ran(sys, d, t), Serve(sys, d, t);
    if d.wiped {
      WipedIsFrozen(sys, d);
      FrozenRan(sys, d, t);
    }
    if ran.Failed? && !r.Crashed? && Marked(ran.dev.log) {
      ParkedDiffers(sys, d, t, r.dev.core);
    }
  }

  lemma RanFailedIsFinished(sys: Sys, d: Device, t: Transition)
    ensures var ran, r := Ran(sys, d, t), Serve(sys, d, t);
            ran.Failed? && !r.Crashed? ==>
              && r.Failed? && r.dev.log == [] && r.dev.wiped == ran.dev.wiped
              && r.dev.core == Unwind(true, ran.dev.core, ran.dev.log)
              && r.dev.misused == ran.dev.misused + Misplayed(true, ran.dev.core, ran.dev.log)
  {
    hide Ran, Serve, Finish, Unwind, UnwindDisk, Replayable, Misplayed, Marked, Keeps;
    var ran := Ran(sys, d, t);
    ServeIsRanThenFinish(sys, d, t);
    if ran.Failed? {
      FinishFailed(sys, ran);
      if !Ask(sys, d.(log := [])).Done? {
        RefusedAtTheStart(sys, d);
      }
    }
  }

  /** A transaction that does not even start leaves nothing to undo. */
  lemma RefusedAtTheStart(sys: Sys, d: Device)
    ensures var r := Ask(sys, d.(log := []));
            r.dev.log == [] && Unwind(true, r.dev.core, r.dev.log) == r.dev.core &&
                Misplayed(true, r.dev.core, r.dev.log) == {}
  {
    hide Keeps;
  }

  lemma FinishDone(sys: Sys, d: Device, t: Transition)
    ensures var ran, r := Ran(sys, d, t), Serve(sys, d, t);
            && (ran.Done? && !r.Crashed? ==> r.dev == ran.dev.(log := [], clock := r.dev.clock))
            && (r.Done? ==> ran.Done?) && (ran.Crashed? ==> r == ran)
            && (r.Crashed? ==> r.dev.misused == ran.dev.misused)
  {
    hide Chain, Unwind, UnwindDisk, Replayable, Misplayed, Marked, Keeps;
    ServeIsRanThenFinish(sys, d, t);
  }

  /**
   * Served or refused, a resting device comes to rest again, or is stranded in maintenance by a failed agent update.
   */
  lemma ServeComesToRest(sys: Sys, d: Device, t: Transition)
    requires Assumed(sys) && Resting(sys, d) && IsCommand(t)
    ensures var r := Serve(sys, d, t);
            && (r.Done? ==> Resting(sys, r.dev))
            && (r.Failed? ==>
                  Resting(sys, r.dev) || (Stranded(r.dev) && t.OnUpdateDevice? && AGENT_PACKAGE in t.packages))
  {
    hide Ran, Serve, Unwind, UnwindDisk, Replayable, Misplayed, Marked, Steady, Parked, RestingInReset, Refused;
    hide Assumed, Stranded;
    var ran, r := Ran(sys, d, t), Serve(sys, d, t);
    FinishDone(sys, d, t);
    RanParks(sys, d, t);
    FailedCommandIsUndone(sys, d, t);
    if ran.Done? && !r.Crashed? {
      StillResting(sys, ran.dev.(log := []), r.dev);
    } else if ran.Failed? && r.Failed? {
      if r.dev.core == d.core {
        StillResting(sys, d, r.dev);
      } else {
        ParkedRests(sys, d, t);
      }
    }
  }

  lemma ParkedRests(sys: Sys, d: Device, t: Transition)
    requires Resting(sys, d)
    ensures forall d': Device | Parked(sys, t, d.core.cfg, d'.core) && d'.log == [] && d'.misused == {} &&
              d'.wiped == d.wiped &&
              !Refused(d, t) ::
              Resting(sys, d') || (Stranded(d') && t.OnUpdateDevice? && AGENT_PACKAGE in t.packages)
  {
  }

  /** A device waiting for its reboot after a reset, or stranded in maintenance. */
  predicate Frozen(sys: Sys, d: Device) {
    (Resting(sys, d) && d.core.runtime == Reset) || Stranded(d)
  }

  lemma WipedIsFrozen(sys: Sys, d: Device)
    requires Resting(sys, d) && d.wiped
    ensures Frozen(sys, d) && d.core.runtime == Reset && !HasPorts(d.core.cfg)
  {
  }

  lemma FrozenChain(sys: Sys, d: Device, t: Transition)
    requires d.core.runtime == Reset || (d.core.runtime == Maintenance && d.core.ws)
    requires d.core.runtime == Reset ==> !HasPorts(d.core.cfg)
    requires IsCommand(t)
    ensures var r := Chain(sys, d, t);
            !r.Done? && MarkFree(d, r)
  {
    ChainIsShort(sys, d, t);
    StepIsReversible(sys, d, t);
    FrozenRefuses(d, t);
    hide Unwind, UnwindDisk, Replayable, Misplayed, Marked, Handle, FirstSetup, Enter, Refused, Chain;
    if !Refused(d, t) {
      PerformIsEnterThenHandle(sys, d, t);
      EnterIsMarkFree(sys, d, t);
      hide PerformTransition;
      FirstSetupIsHandled(sys, Enter(sys, d, t).dev, t);
    }
  }

  lemma FrozenRefuses(d: Device, t: Transition)
    requires d.core.runtime in {Reset, Maintenance} && IsCommand(t)
    ensures Refused(d, t) || t.OnFirstSetup?
  {
  }

  lemma FirstSetupIsHandled(sys: Sys, d: Device, t: Transition)
    requires t.OnFirstSetup?
    ensures Handle(sys, d, Active, t) == FirstSetup(sys, d, t.serial, t.addrs)
  {
    hide FirstSetup;
  }

  lemma FrozenRan(sys: Sys, d: Device, t: Transition)
    requires Frozen(sys, d) && IsCommand(t)
    ensures var ran := Ran(sys, d, t);
            && !ran.Done? && ran.dev.wiped == d.wiped && !Marked(ran.dev.log)
            && (!ran.Crashed? ==> Misplayed(true, ran.dev.core, ran.dev.log) == {})
            && UnwindDisk(true, ran.dev.core.cfg, ran.dev.log) == d.core.cfg
            && (!ran.Crashed? ==> Unwind(true, ran.dev.core, ran.dev.log) == d.core)
  {
    var s := Ask(sys, d.(log := []));
    if s.Done? {
      FrozenChain(sys, s.dev, t);
    }
    var ran := Ran(sys, d, t);
    if !ran.Crashed? {
      ReplayableToMark(ran.dev.core, ran.dev.log);
      ReplayedProperly(true, ran.dev.core, ran.dev.log);
    }
  }

  /** A first setup that gets as far as starting the websocket. */
  predicate Strays(d: Device, t: Transition) {
    t.OnFirstSetup? && Accepts(d.core.cfg, t.addrs)
  }

  lemma StrandedChain(sys: Sys, d: Device, t: Transition)
    requires d.core.runtime == Maintenance && d.core.mq == ALWAYS_ON && d.core.ws && IsCommand(t)
    ensures var r := Chain(sys, d, t);
            r.dev.misused == d.misused || (r.dev.misused == d.misused + {Websocket} && Strays(d, t))
  {
    hide Unwind, UnwindDisk, Replayable, Misplayed, Marked, Handle, FirstSetup, Refused, Chain, Accepts, Keeps;
    hide KeepsDisk;
    ChainIsShort(sys, d, t);
    FrozenRefuses(d, t);
    if !Refused(d, t) {
      PerformIsEnterThenHandle(sys, d, t);
      EnterIsMarkFree(sys, d, t);
      hide PerformTransition;
      var e := Enter(sys, d, t);
      assert e.dev.misused == d.misused;
      if e.Done? {
        FirstSetupIsHandled(sys, e.dev, t);
        SamePortsAccept(d.core.cfg, e.dev.core.cfg, t.addrs);
      }
    }
  }

  lemma SamePortsAccept(c: Config, c': Config, addrs: seq<string>)
    requires c'.port == c.port
    ensures Accepts(c', addrs) == Accepts(c, addrs)
    ensures Accepts(c, addrs) ==> HasPorts(c)
  {
  }

  /** A stranded device misuses no service, except that such a first setup may start the started websocket. */
  lemma StrandedMisuse(sys: Sys, d: Device, t: Transition)
    requires Stranded(d) && IsCommand(t)
    ensures var r := Serve(sys, d, t);
            r.dev.misused == d.misused || (r.dev.misused == d.misused + {Websocket} && Strays(d, t))
  {
    hide Chain, Unwind, UnwindDisk, Replayable, Misplayed, Marked, Accepts;
    FrozenRan(sys, d, t);
    RanFailedIsFinished(sys, d, t);
    FinishDone(sys, d, t);
    var s := Ask(sys, d.(log := []));
    if s.Done? {
      StrandedChain(sys, s.dev, t);
    }
  }

  lemma ServeMisusesNothing(sys: Sys, d: Device, t: Transition)
    requires Assumed(sys) && Resting(sys, d) && IsCommand(t)
    ensures Serve(sys, d, t).dev.misused == {}
  {
    hide Ran, Unwind, UnwindDisk, Replayable, Misplayed, Marked, Resting, Assumed;
    RanIsReversible(sys, d, t);
    RanFailedIsFinished(sys, d, t);
    FinishDone(sys, d, t);
    hide Serve;
  }

  /**
   * No command gets a frozen device out of its state: each is refused or undone, and a crash is recovered to the same
   * configuration.
   */
  lemma FrozenUntilReboot(sys: Sys, d: Device, t: Transition)
    requires Assumed(sys) && Frozen(sys, d) && IsCommand(t)
    ensures var r := Serve(sys, d, t);
            && !r.Done?
            && (r.Failed? ==> r.dev.core == d.core && Frozen(sys, r.dev))
            && Recover(r.dev) == Recover(d)
  {
    ServeIsRanThenFinish(sys, d, t);
    FrozenRan(sys, d, t);
    if Resting(sys, d) {
      RanIsReversible(sys, d, t);
    }
    hide Ran, Serve, Unwind, UnwindDisk, Replayable, Misplayed, Marked;
  }

  lemma {:induction false} FrozenThroughout(sys: Sys, d: Device, ts: seq<Transition>)
    requires Assumed(sys) && Frozen(sys, d) && forall t <- ts :: IsCommand(t)
    ensures var r := ServeAll(sys, d, ts);
            (!r.Crashed? ==> r.dev.core == d.core) && Recover(r.dev) == Recover(d)
    decreases |ts|
  {
    hide Serve, Recover, Frozen;
    if ts != [] {
      FrozenUntilReboot(sys, d, ts[0]);
      var r := Serve(sys, d, ts[0]);
      if !r.Crashed? {
        FrozenThroughout(sys, r.dev, ts[1..]);
      }
    }
  }

  /** Serves requests one after the other until the process dies. */
  function ServeAll(sys: Sys, d: Device, ts: seq<Transition>): Out
    decreases |ts|
  {
    if ts == [] then Done(d, None) else
      var r := Serve(sys, d, ts[0]);
      if r.Crashed? then r else ServeAll(sys, r.dev, ts[1..])
  }

  /** Between two requests a device that has not died is at rest or stranded, however many it has served. */
  lemma {:induction false} ServeAllRests(sys: Sys, d: Device, ts: seq<Transition>)
    requires Assumed(sys) && (Resting(sys, d) || Stranded(d)) && forall t <- ts :: IsCommand(t)
    ensures var r := ServeAll(sys, d, ts);
            && !r.Failed?
            && (r.Done? ==> (Resting(sys, r.dev) || Stranded(r.dev)) && |Replies(sys, d, ts)| == |ts|)
    decreases |ts|
  {
    hide Serve, Resting, Stranded, Assumed;
    if ts != [] {
      if Stranded(d) {
        FrozenUntilReboot(sys, d, ts[0]);
        StrandedStays(sys, d, ts[0]);
      } else {
        ServeComesToRest(sys, d, ts[0]);
      }
      var r := Serve(sys, d, ts[0]);
      if !r.Crashed? {
        ServeAllRests(sys, r.dev, ts[1..]);
      }
    }
  }

  lemma StrandedStays(sys: Sys, d: Device, t: Transition)
    requires Assumed(sys) && Stranded(d) && IsCommand(t)
    ensures Serve(sys, d, t).Failed? ==> Stranded(Serve(sys, d, t).dev)
  {
    hide Serve, Recover;
    FrozenUntilReboot(sys, d, t);
  }

  /** The replies to those requests, true for nil. */
  function Replies(sys: Sys, d: Device, ts: seq<Transition>): seq<bool>
    decreases |ts|
  {
    if ts == [] then [] else
      var r := Serve(sys, d, ts[0]);
      if r.Crashed? then [] else [r.Done?] + Replies(sys, r.dev, ts[1..])
  }

  // ---------- crashes ----------

  /**
   * What recovery finds on disk after a crash at any point of a command: the configuration from before the
   * command if no checkpoint was taken, else that of the checkpoint, else nothing if it had been removed already.
   */
  lemma CrashIsRecovered(sys: Sys, d: Device, t: Transition)
    requires Assumed(sys) && Resting(sys, d) && IsCommand(t) && Serve(sys, d, t).Crashed?
    ensures var d' := Serve(sys, d, t).dev;
            && (d'.wiped ==> Recover(d') == BLANK && (d.wiped || (t.OnReset? && !sys.kind.Hub?)))
            && (!d'.wiped && !Marked(d'.log) ==> Recover(d') == d.core.cfg)
            && (!d'.wiped && Marked(d'.log) ==> exists c: Core :: Parked(sys, t, d.core.cfg, c) && Recover(d') == c.cfg)
            && (Marked(d'.log) ==> (t.OnReset? && !sys.kind.Hub?) || (t.OnUpdateDevice? && AGENT_PACKAGE in t.packages))
            && (Marked(d'.log) ==> !d.wiped) && (d'.wiped && !d.wiped ==> Marked(d'.log))
  {
    hide Ran, Serve, Unwind, UnwindDisk, Replayable, Misplayed, Marked, Steady, RestingInReset, Refused, Assumed;
    ServeIsRanThenFinish(sys, d, t);
    RanIsReversible(sys, d, t);
    RanParks(sys, d, t);
    WipedMeansMarked(sys, d, t);
  }

  lemma WipedMeansMarked(sys: Sys, d: Device, t: Transition)
    requires Assumed(sys) && Resting(sys, d) && IsCommand(t)
    ensures var ran := Ran(sys, d, t);
            ran.dev.wiped && !d.wiped ==> Marked(ran.dev.log)
  {
    var s := Ask(sys, d.(log := []));
    if s.Done? {
      ChainParks(sys, s.dev, t);
    }
  }
}
