/** Runs of any length: commands, power cuts and restarts in any order, under any pattern of failures and crashes. */
module Runs {
  import opened Common
  import opened Configs
  import opened Transitions
  import opened Devices
  import opened Handlers
  import opened Engine
  import opened Steps
  import opened Safety
  import opened Boots

  /** past collects the services that processes before this one have misused. */
  datatype Phase =
    | Up(dev: Device, past: set<Service>)
    | Down(cfg: Config, clock: nat, past: set<Service>)

  /** A request, a power cut, or a start of the process with the device id found in the environment. */
  datatype Event = Request(t: Transition) | PowerCut | Start(deviceId: string)

  function Next(sys: Sys, p: Phase, e: Event): Phase {
    match (p, e)
    case (Up(d, past), Request(t)) =>
      (match Serve(sys, d, t)
       case Crashed(d') => Down(Recover(d'), d'.clock, past + d'.misused)
       case r => Up(r.dev, past))
    case (Up(d, past), PowerCut) => Down(Recover(d), d.clock, past + d.misused)
    case (Down(cfg, clock, past), Start(id)) =>
      (match BootUp(sys.(deviceId := id), cfg, clock)
       case Done(d, _) => Up(d, past)
       case Failed(d) => Down(d.core.cfg, d.clock, past + d.misused)
       case Crashed(d) => Down(Recover(d), d.clock, past + d.misused))
    case _ => p
  }

  /** All misuse so far. */
  function Misuse(p: Phase): set<Service> {
    if p.Up? then p.past + p.dev.misused else p.past
  }

  function Run(sys: Sys, p: Phase, es: seq<Event>): Phase
    decreases |es|
  {
    if es == [] then p else Run(sys, Next(sys, p, es[0]), es[1..])
  }

  predicate Admissible(e: Event) {
    e.Request? ==> IsCommand(e.t)
  }

  /** Up: at rest, or stranded in maintenance. Down: a disk that boots. */
  predicate Safe(sys: Sys, p: Phase) {
    match p
    case Up(d, _) => Resting(sys, d) || Stranded(d)
    case Down(cfg, _, _) => Bootable(cfg)
  }

  lemma UndisturbedDisk(sys: Sys, d: Device)
    requires Resting(sys, d) || Stranded(d)
    ensures Bootable(Recover(d)) && (d.wiped ==> Recover(d) == BLANK) && (!d.wiped ==> Recover(d) == d.core.cfg)
  {
  }

  lemma CrashedDiskBoots(sys: Sys, d: Device, t: Transition)
    requires Assumed(sys) && (Resting(sys, d) || Stranded(d)) && IsCommand(t) && Serve(sys, d, t).Crashed?
    ensures Bootable(Recover(Serve(sys, d, t).dev))
  {
    UndisturbedDisk(sys, d);
    var d' := Serve(sys, d, t).dev;
    if Stranded(d) {
      FrozenUntilReboot(sys, d, t);
      hide Serve, Recover, Bootable, Stranded;
    } else {
      CrashIsRecovered(sys, d, t);
      RestingDisk(sys, d, "");
      hide Serve, Recover, Resting, Bootable;
      if !d'.wiped && Marked(d'.log) {
        var c: Core :| Parked(sys, t, d.core.cfg, c) && Recover(d') == c.cfg;
        ParkedDisk(sys, t, d.core.cfg, c, "");
      }
      hide Parked;
    }
  }

  lemma FailedBootDisk(d: Device, s: AppState)
    requires Steady(d) && d.core.runtime == s && s in {Init, Active}
    ensures Bootable(d.core.cfg)
  {
  }

  lemma NextIsSafe(sys: Sys, p: Phase, e: Event)
    requires Assumed(sys) && Safe(sys, p) && Admissible(e)
    ensures Safe(sys, Next(sys, p, e))
  {
    match (p, e)
    case (Up(d, past), Request(t)) => {
      if Stranded(d) {
        FrozenUntilReboot(sys, d, t);
      }
      if Resting(sys, d) {
        ServeComesToRest(sys, d, t);
      }
      if Serve(sys, d, t).Crashed? {
        CrashedDiskBoots(sys, d, t);
      }
      hide Serve, Recover, Resting, Stranded, Bootable;
    }
    case (Up(d, past), PowerCut) => UndisturbedDisk(sys, d);
    case (Down(cfg, clock, past), Start(id)) => {
      var sys' := sys.(deviceId := id);
      BootComesToRest(sys', cfg, clock);
      var r := BootUp(sys', cfg, clock);
      if r.Failed? && r.dev.core.cfg != cfg {
        FailedBootDisk(r.dev, r.dev.core.runtime);
      }
      hide BootUp, Recover, Steady, Bootable;
    }
    case _ =>
  }

  /**
   * The safety theorem: however commands, failures, crashes and restarts are mixed, a running agent has, between
   * two commands, exactly the subjects and the websocket of its state, and its state is init, active, or reset on
   * a non-hub; it is never boot again. The one exception is an agent stranded in maintenance.
   */
  lemma {:induction false} RunIsSafe(sys: Sys, p: Phase, es: seq<Event>)
    requires Assumed(sys) && Safe(sys, p) && forall e <- es :: Admissible(e)
    ensures Safe(sys, Run(sys, p, es))
    decreases |es|
  {
    if es != [] {
      NextIsSafe(sys, p, es[0]);
      RunIsSafe(sys, Next(sys, p, es[0]), es[1..]);
    }
  }

  // ---------- misuse ----------

  /** A first setup that gets as far as starting the websocket, asked of an agent stranded in maintenance. */
  predicate StraysAt(p: Phase, e: Event) {
    p.Up? && Stranded(p.dev) && e.Request? && Strays(p.dev, e.t)
  }

  lemma NextMisuse(sys: Sys, p: Phase, e: Event)
    requires Assumed(sys) && Safe(sys, p) && Admissible(e)
    ensures Misuse(p) <= Misuse(Next(sys, p, e)) <= Misuse(p) + (if StraysAt(p, e) then {Websocket} else {})
  {
    hide Serve, BootUp, Recover, Resting, Bootable, Strays;
    match (p, e)
    case (Up(d, past), Request(t)) => {
      if Stranded(d) {
        StrandedMisuse(sys, d, t);
      } else {
        ServeMisusesNothing(sys, d, t);
        assert d.misused == {} by {
          RestingMeans(sys, d);
        }
      }
    }
    case (Down(cfg, clock, past), Start(id)) => BootComesToRest(sys.(deviceId := id), cfg, clock);
    case _ =>
  }

  /**
   * Over a whole run the message queue is never misused, by no command, undoing or boot; and the websocket only if
   * the run asks a stranded agent for such a first setup.
   */
  lemma {:induction false} RunMisuse(sys: Sys, p: Phase, es: seq<Event>)
    requires Assumed(sys) && Safe(sys, p) && forall e <- es :: Admissible(e)
    ensures Misuse(Run(sys, p, es)) <= Misuse(p) + {Websocket}
    ensures !(Misuse(Run(sys, p, es)) <= Misuse(p)) ==> exists i | 0 <= i < |es| ::
              StraysAt(Run(sys, p, es[..i]), es[i])
    decreases |es|
  {
    hide Next, Misuse, StraysAt, Safe;
    if es != [] {
      var q, rest := Next(sys, p, es[0]), es[1..];
      NextIsSafe(sys, p, es[0]);
      NextMisuse(sys, p, es[0]);
      RunMisuse(sys, q, rest);
      if !(Misuse(Run(sys, p, es)) <= Misuse(p)) {
        if StraysAt(p, es[0]) {
          assert es[..0] == [] && StraysAt(Run(sys, p, es[..0]), es[0]);
        } else {
          var i :| 0 <= i < |rest| && StraysAt(Run(sys, q, rest[..i]), rest[i]);
          assert es[..i + 1][0] == es[0] && es[..i + 1][1..] == rest[..i];
          assert StraysAt(Run(sys, p, es[..i + 1]), es[i + 1]);
        }
      }
    }
  }

  /** From the factory: a blank disk is safe, so everything reached from it is. */
  lemma FactoryRunIsSafe(sys: Sys, es: seq<Event>)
    requires Assumed(sys) && forall e <- es :: Admissible(e)
    ensures Safe(sys, Run(sys, Down(BLANK, 0, {}), es))
  {
    RunIsSafe(sys, Down(BLANK, 0, {}), es);
  }

  /** Between commands, unless stranded: the message queue and websocket invariants, spelled out. */
  lemma RestingMeans(sys: Sys, d: Device)
    requires Resting(sys, d)
    ensures d.core.runtime == Init ==>
              d.core.mq == {GetConfig, HubListPorts, DebugDumpHeap, ZTPFirstSetup, ZTPSetPort, ZTPDelPort,
                  HubSetPort, HubDelPort, HubInit, AgentReset}
    ensures d.core.runtime == Active ==>
              d.core.mq == {GetConfig, HubListPorts, DebugDumpHeap, AgentReset, RebuildServices}
    ensures d.core.runtime == Reset ==> d.core.mq == {GetConfig, HubListPorts, DebugDumpHeap} && !sys.kind.Hub?
    ensures d.core.runtime in {Init, Active, Reset} && (d.core.ws <==> d.core.runtime == Active)
    ensures d.core.runtime != Reset ==> d.core.cfg.state == Some(d.core.runtime)
    ensures d.misused == {}
  {
  }

  // ---------- crash, then boot ----------

  lemma ParkedDisk(sys: Sys, t: Transition, before: Config, c: Core, id: string)
    requires Parked(sys, t, before, c)
    ensures Bootable(c.cfg)
    ensures !Migrates(id) ==> Destination(id, c.cfg) == if t.OnReset? then Init else Active
  {
  }

  lemma RestingDisk(sys: Sys, d: Device, id: string)
    requires Resting(sys, d) && !Migrates(id)
    ensures d.core.runtime != Reset ==>
              Destination(id, d.core.cfg) == d.core.runtime && StoredState(d.core.cfg) == d.core.runtime
    ensures d.core.runtime == Reset ==> Destination(id, d.core.cfg) == Init
    ensures d.wiped ==> d.core.runtime == Reset
    ensures Destination(id, BLANK) == Init && Bootable(BLANK) && Bootable(d.core.cfg)
  {
  }

  /**
   * Crash recovery: crash at any call of any command, recover, and boot with no fault. If no checkpoint was taken
   * the device is back in exactly the state from before the command (from reset it starts over in init); past the
   * checkpoint of a reset it is in init, past that of an agent update in active.
   */
  lemma CrashThenBoot(sys: Sys, d: Device, t: Transition, sys': Sys, clock: nat)
    requires Assumed(sys) && Resting(sys, d) && IsCommand(t) && Serve(sys, d, t).Crashed?
    requires NoFaults(sys') && !FromOldVersion(sys'.deviceId)
    ensures var d', r := Serve(sys, d, t).dev, BootUp(sys', Recover(Serve(sys, d, t).dev), clock);
            && r.Done? && Resting(sys', r.dev)
            && (!Marked(d'.log) && d.core.runtime != Reset ==> r.dev.core == d.core)
            && (!Marked(d'.log) && d.core.runtime == Reset ==> r.dev.core.runtime == Init)
            && (Marked(d'.log) ==> r.dev.core.runtime == if t.OnReset? then Init else Active)
  {
    var d' := Serve(sys, d, t).dev;
    var cfg := Recover(d');
    MigratesIff(sys'.deviceId);
    CrashedDisk(sys, d, t, sys'.deviceId);
    CrashedDiskBoots(sys, d, t);
    hide Serve, Recover, Destination, StoredState, Bootable, Resting, Marked, BootUp, Settled;
    FaultlessBootSucceeds(sys', cfg, clock);
    BootComesToRest(sys', cfg, clock);
    SettledPlainly(sys', cfg);
    var r := BootUp(sys', cfg, clock);
    if !Marked(d'.log) && d.core.runtime != Reset {
      RestingDisk(sys, d, sys'.deviceId);
      SameStateSameCore(sys, sys', d, r.dev);
    }
  }

  /** A device that was reset and is restarted comes up in init, with a blank configuration if the removal worked. */
  lemma ResetThenBoot(sys: Sys, d: Device, sys': Sys, clock: nat)
    requires Resting(sys, d) && d.core.runtime == Reset
    requires NoFaults(sys') && !FromOldVersion(sys'.deviceId)
    ensures var r := BootUp(sys', Recover(d), clock);
            && r.Done? && Resting(sys', r.dev) && r.dev.core.runtime == Init
            && r.dev.core.cfg == (if d.wiped then BLANK else d.core.cfg).(state := Some(Init))
  {
    var cfg := Recover(d);
    UndisturbedDisk(sys, d);
    MigratesIff(sys'.deviceId);
    RestingDisk(sys, d, sys'.deviceId);
    hide BootUp, Recover, Resting, Bootable, Destination, Settled;
    FaultlessBootSucceeds(sys', cfg, clock);
    BootComesToRest(sys', cfg, clock);
    SettledPlainly(sys', cfg);
  }

  lemma CrashedDisk(sys: Sys, d: Device, t: Transition, id: string)
    requires Assumed(sys) && Resting(sys, d) && IsCommand(t) && Serve(sys, d, t).Crashed? && !Migrates(id)
    ensures var d' := Serve(sys, d, t).dev;
            && (!Marked(d'.log) && d.core.runtime != Reset ==>
                  Recover(d') == d.core.cfg && Destination(id, Recover(d')) == d.core.runtime)
            && (!Marked(d'.log) && d.core.runtime == Reset ==> Destination(id, Recover(d')) == Init)
            && (Marked(d'.log) ==> Destination(id, Recover(d')) == if t.OnReset? then Init else Active)
  {
    var d' := Serve(sys, d, t).dev;
    CrashIsRecovered(sys, d, t);
    RestingDisk(sys, d, id);
    hide Serve, Recover, Destination, Resting, Marked, Migrates, StoredState, Bootable, HasPorts, Serial, Assumed;
    if !d'.wiped && Marked(d'.log) {
      var c: Core :| Parked(sys, t, d.core.cfg, c) && Recover(d') == c.cfg;
      ParkedDisk(sys, t, d.core.cfg, c, id);
    }
    hide Parked;
  }

  lemma SameStateSameCore(sys: Sys, sys': Sys, d: Device, d': Device)
    requires Resting(sys, d) && Resting(sys', d') && d.core.runtime != Reset && d'.core.runtime == d.core.runtime
    requires d'.core.cfg == d.core.cfg.(state := Some(d.core.runtime))
    ensures d'.core == d.core
  {
  }
}
