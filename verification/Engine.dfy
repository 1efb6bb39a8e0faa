/** The state service: one transition, a chain of them inside a transaction, boot, and recovery after a crash. */
module Engine {
  import opened Common
  import opened Configs
  import opened Transitions
  import opened Devices
  import opened Handlers

  function OnExit(sys: Sys, d: Device, t: Transition): (r: Out)
    ensures Keeps(d, r.dev)
    ensures r.dev.core == d.core.(mq := r.dev.core.mq)
  {
    hide Unwind, UnwindDisk, Replayable, Misplayed, Marked;
    match d.core.runtime
    case Init => if t.OnMigrateFromOldVersion? then Done(d, None) else Unsubscribe(sys, d, INIT_SUBJECTS)
    case Active => Unsubscribe(sys, d, ACTIVE_SUBJECTS)
    case _ => Done(d, None)
  }

  /** Writes the new state to the configuration, then to the running service. */
  function UpdateAppState(sys: Sys, d: Device, s: AppState): (r: Out)
    ensures KeepsDisk(d, r.dev)
    ensures d.core.runtime != Boot ==> Keeps(d, r.dev)
    ensures r.dev.misused == d.misused
    ensures r.Done? ==> r.dev.core == d.core.(runtime := s, cfg := d.core.cfg.(state := Some(s)))
    ensures !r.Done? ==> r.dev.core == d.core.(cfg := r.dev.core.cfg)
  {
    hide Unwind, UnwindDisk, Replayable, Misplayed, Marked;
    var d :- WriteConfig(sys, d, BLANK.(state := Some(s)));
    SetRuntime(sys, d, s)
  }

  function Handle(sys: Sys, d: Device, s: AppState, t: Transition): (r: Out)
    ensures r.Done? && r.next.Some? ==> Rank(r.next.value) < Rank(t)
  {
    match s
    case Init => HandleInit(sys, d, t)
    case Active => HandleActive(sys, d, t)
    case UpdateConfig => HandleUpdateConfig(sys, d, t)
    case Maintenance => HandleMaintenance(sys, d, t)
    case ZTPSetup => HandleZTPSetup(sys, d, t)
    case Reset => HandleReset(sys, d, t)
    case _ => Done(d, None)
  }

  /** Is the transition refused before anything is done? */
  predicate Refused(d: Device, t: Transition) {
    d.core.runtime == ToState(t) || !HasHandler(ToState(t)) || !Validates(ToState(t), d.core.runtime)
  }

  function PerformTransition(sys: Sys, d: Device, t: Transition): (r: Out)
    ensures r.Done? && r.next.Some? ==> Rank(r.next.value) < Rank(t)
  {
    if Refused(d, t) then Failed(d) else
      var d :- OnExit(sys, d, t);
      var d :- UpdateAppState(sys, d, ToState(t));
      Handle(sys, d, ToState(t), t)
  }

  /** The transition and its follow-ups. */
  function Chain(sys: Sys, d: Device, t: Transition): Out
    decreases Rank(t)
  {
    var r := PerformTransition(sys, d, t);
    if r.Done? && r.next.Some? then Chain(sys, r.dev, r.next.value) else r
  }

  /** The state a failed transaction is taken back to. */
  function RollBack(d: Device): Device {
    d.(core := Unwind(true, d.core, d.log), log := [], misused := d.misused + Misplayed(true, d.core, d.log))
  }

  /**
   * Ends the transaction: commits after success, undoes after a failure. A failing commit leaves what was done
   * in place.
   */
  function Finish(sys: Sys, ran: Out): Out {
    if ran.Crashed? then ran else
      match Ask(sys, ran.dev)
      case Crashed(d) => Crashed(d)
      case s => if ran.Failed? then Failed(RollBack(s.dev))
                else if s.Failed? then Failed(s.dev.(log := []))
                else Done(s.dev.(log := []), None)
  }

  /** Serves one request: Done is a nil reply, Failed an error reply, Crashed no reply. */
  function Serve(sys: Sys, d: Device, t: Transition): Out {
    var d :- Ask(sys, d.(log := []));
    Finish(sys, Chain(sys, d, t))
  }

  /** The configuration found on disk when the process comes up after d. */
  function Recover(d: Device): Config {
    if d.wiped then BLANK else UnwindDisk(true, d.core.cfg, d.log)
  }

  /** A process that has just started: nothing subscribed, websocket closed. */
  function Fresh(cfg: Config, clock: nat): Device {
    Device(Core(Boot, cfg, {}, false), [], clock, {}, false)
  }

  /** Start-up: the always available handlers, then the transition out of boot. Failed means the process exits. */
  function BootUp(sys: Sys, cfg: Config, clock: nat): Out {
    var d :- Subscribe(sys, Fresh(cfg, clock), [GetConfig, HubListPorts, DebugDumpHeap]);
    var d :- Ask(sys, d.(log := []));
    Finish(sys, BootChain(sys, d))
  }

  function BootChain(sys: Sys, d: Device): Out {
    var d :- Ask(sys, d);
    Chain(sys, d, OnAfterBoot(StoredState(d.core.cfg)))
  }
}
