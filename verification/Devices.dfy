/**
 * The state that commands change, the undo log of the running transaction, and the calls into the
 * libraries, each of which succeeds, fails or is interrupted by a crash as the environment decides.
 */
module Devices {
  import opened Common
  import opened Configs
  import opened Transitions

  datatype Subject =
    | ZTPFirstSetup | ZTPSetPort | ZTPDelPort | HubSetPort | HubDelPort | HubInit | AgentReset
    | RebuildServices
    | GetConfig | HubListPorts | DebugDumpHeap

  const ALWAYS_ON := {GetConfig, HubListPorts, DebugDumpHeap}
  const INIT_SUBJECTS := [ZTPFirstSetup, ZTPSetPort, ZTPDelPort, HubSetPort, HubDelPort, HubInit, AgentReset]
  const ACTIVE_SUBJECTS := [AgentReset, RebuildServices]

  /** What a failed command must leave as it was. */
  datatype Core = Core(runtime: AppState, cfg: Config, mq: set<Subject>, ws: bool)

  /** One entry of the undo log: the inverse of a performed step, or a checkpoint. */
  datatype Undo =
    | RestoreConfig(patch: Config, prior: Config)
    | RestoreRuntime(from: AppState)
    | Reactivate(s: Subject)
    | Deactivate(s: Subject)
    | StartAgain
    | StopAgain
    | RevertActivity
    | Mark(id: nat)

  /** A library whose calls are only allowed in some of its states. */
  datatype Service = Queue | Websocket

  /**
   * misused: the services that were called in a state their contract excludes.
   * wiped: the stored configuration was removed from the disk.
   */
  datatype Device = Device(core: Core, log: seq<Undo>, clock: nat, misused: set<Service>, wiped: bool)

  // ---------- environment ----------

  datatype Verdict = Succeeds | Fails | Crashes

  datatype Kind = Hub | CPE | OtherKind

  /** An init request: the network sections and the service sections it installs. */
  datatype InitConfig = InitConfig(
    tunnel: string, addrs: seq<string>, ports: Ports, wireguard: Blob, wanProtection: Blob, loopback: Blob,
    ipRule: Blob, pony: Blob, adminState: Blob, trunk: Blob, p2p: Blob, bridge: Blob, l3: Blob, isb: Blob, fw: Blob)

  /** What the first-setup waiter gets: nothing in time, or an init request that is then carried out. */
  datatype Answer = NoAnswer | Arrives(init: InitConfig)

  datatype Sys = Sys(
    kind: Kind, deviceId: string, endPoint: string, emptyConfig: Config, converts: string -> bool,
    verdict: nat -> Verdict, answer: nat -> Answer)

  /** Assumed of the empty configuration: blank serial number, no ports, at most a blank stored state. */
  predicate Assumed(sys: Sys) {
    && sys.emptyConfig.app.Some? && Serial(sys.emptyConfig) == ""
    && sys.emptyConfig.port.Some? && !HasPorts(sys.emptyConfig)
    && sys.emptyConfig.state in {None, Some(Unset)}
  }

  // ---------- outcome of a call ----------

  datatype Out =
    | Done(dev: Device, next: Option<Transition>)
    | Failed(dev: Device)
    | Crashed(dev: Device)
  {
    predicate IsFailure() {
      !Done?
    }

    function PropagateFailure(): Out
      requires IsFailure()
    {
      this
    }

    function Extract(): Device
      requires !IsFailure()
    {
      dev
    }
  }

  // ---------- undoing ----------

  function UndoOne(c: Core, e: Undo): Core {
    match e
    case RestoreConfig(patch, prior) => c.(cfg := Restore(c.cfg, patch, prior))
    case RestoreRuntime(from) => if from == Boot then c else c.(runtime := from)
    case Reactivate(s) => c.(mq := c.mq + {s})
    case Deactivate(s) => c.(mq := c.mq - {s})
    case StartAgain => c.(ws := true)
    case StopAgain => c.(ws := false)
    case RevertActivity => c
    case Mark(_) => c
  }

  /** The undo action meets the contract of the service it calls. */
  predicate CanUndo(c: Core, e: Undo) {
    match e
    case Reactivate(s) => s !in c.mq
    case Deactivate(s) => s in c.mq
    case StartAgain => !c.ws
    case StopAgain => c.ws
    case _ => true
  }

  /** Undoes the log from its end; with stop, only as far as the last checkpoint. */
  function Unwind(stop: bool, c: Core, log: seq<Undo>): Core
    decreases |log|
  {
    if log == [] then c else
      var last := log[|log| - 1];
      if stop && last.Mark? then c else Unwind(stop, UndoOne(c, last), log[..|log| - 1])
  }

  /** Every undo action is applicable when its turn comes; with stop, down to the last checkpoint. */
  predicate Replayable(stop: bool, c: Core, log: seq<Undo>)
    decreases |log|
  {
    log == [] || (stop && log[|log| - 1].Mark?) ||
    (CanUndo(c, log[|log| - 1]) && Replayable(stop, UndoOne(c, log[|log| - 1]), log[..|log| - 1]))
  }

  /** The service an undo action calls. */
  function CalledBy(e: Undo): set<Service> {
    match e
    case Reactivate(_) => {Queue}
    case Deactivate(_) => {Queue}
    case StartAgain => {Websocket}
    case StopAgain => {Websocket}
    case _ => {}
  }

  /** The services that undoing would call in a state their contract excludes. */
  function Misplayed(stop: bool, c: Core, log: seq<Undo>): set<Service>
    decreases |log|
  {
    if log == [] then {} else
      var last := log[|log| - 1];
      if stop && last.Mark? then {} else
        (if CanUndo(c, last) then {} else CalledBy(last)) + Misplayed(stop, UndoOne(c, last), log[..|log| - 1])
  }

  lemma {:induction false} ReplayedProperly(stop: bool, c: Core, log: seq<Undo>)
    requires Replayable(stop, c, log)
    ensures Misplayed(stop, c, log) == {}
    decreases |log|
  {
    if log != [] && !(stop && log[|log| - 1].Mark?) {
      ReplayedProperly(stop, UndoOne(c, log[|log| - 1]), log[..|log| - 1]);
    }
  }

  /** What recovery does after a crash: only entries that persist, hence only the configuration. */
  function UnwindDisk(stop: bool, cfg: Config, log: seq<Undo>): Config
    decreases |log|
  {
    if log == [] then cfg else
      var last := log[|log| - 1];
      if stop && last.Mark? then cfg
      else if last.RestoreConfig? then UnwindDisk(stop, Restore(cfg, last.patch, last.prior), log[..|log| - 1])
      else UnwindDisk(stop, cfg, log[..|log| - 1])
  }

  predicate Marked(log: seq<Undo>) {
    log != [] && (log[|log| - 1].Mark? || Marked(log[..|log| - 1]))
  }

  function Unmark(log: seq<Undo>, id: nat): seq<Undo> {
    if log == [] then []
    else if log[|log| - 1] == Mark(id) then Unmark(log[..|log| - 1], id)
    else Unmark(log[..|log| - 1], id) + [log[|log| - 1]]
  }

  /** A step from d to d' that recovery can take back: no checkpoint added, same configuration reached by undoing. */
  ghost predicate KeepsDisk(d: Device, d': Device) {
    && UnwindDisk(true, d'.core.cfg, d'.log) == UnwindDisk(true, d.core.cfg, d.log)
    && UnwindDisk(false, d'.core.cfg, d'.log) == UnwindDisk(false, d.core.cfg, d.log)
    && (Marked(d'.log) <==> Marked(d.log))
    && d'.wiped == d.wiped
  }

  /** A step from d to d' that undoing takes back in full, each undo action being applicable when its turn comes. */
  ghost predicate Keeps(d: Device, d': Device) {
    && KeepsDisk(d, d')
    && Unwind(true, d'.core, d'.log) == Unwind(true, d.core, d.log)
    && Unwind(false, d'.core, d'.log) == Unwind(false, d.core, d.log)
    && (Replayable(false, d.core, d.log) ==> Replayable(false, d'.core, d'.log))
  }

  /** Like Keeps for undoing that ignores checkpoints. */
  ghost predicate KeepsBeyondMarks(d: Device, d': Device) {
    && UnwindDisk(false, d'.core.cfg, d'.log) == UnwindDisk(false, d.core.cfg, d.log)
    && Unwind(false, d'.core, d'.log) == Unwind(false, d.core, d.log)
    && (Replayable(false, d.core, d.log) ==> Replayable(false, d'.core, d'.log))
  }

  /** Nothing was logged since the last live checkpoint. */
  ghost predicate AtMark(d: Device) {
    && Marked(d.log)
    && Unwind(true, d.core, d.log) == d.core
    && UnwindDisk(true, d.core.cfg, d.log) == d.core.cfg
  }

  lemma {:induction false} UnmarkedUnwind(c: Core, log: seq<Undo>)
    requires !Marked(log)
    ensures Unwind(true, c, log) == Unwind(false, c, log)
    ensures UnwindDisk(true, c.cfg, log) == UnwindDisk(false, c.cfg, log)
    decreases |log|
  {
    if log != [] {
      UnmarkedUnwind(UndoOne(c, log[|log| - 1]), log[..|log| - 1]);
    }
  }

  lemma {:induction false} ReplayableToMark(c: Core, log: seq<Undo>)
    requires Replayable(false, c, log)
    ensures Replayable(true, c, log)
    decreases |log|
  {
    if log != [] {
      ReplayableToMark(UndoOne(c, log[|log| - 1]), log[..|log| - 1]);
    }
  }

  lemma {:induction false} UnmarkUnwind(c: Core, log: seq<Undo>, id: nat)
    ensures Unwind(false, c, Unmark(log, id)) == Unwind(false, c, log)
    ensures UnwindDisk(false, c.cfg, Unmark(log, id)) == UnwindDisk(false, c.cfg, log)
    ensures Replayable(false, c, Unmark(log, id)) <==> Replayable(false, c, log)
    ensures Marked(Unmark(log, id)) ==> Marked(log)
    decreases |log|
  {
    if log != [] {
      var last, front := log[|log| - 1], log[..|log| - 1];
      UnmarkUnwind(UndoOne(c, last), front, id);
      if last != Mark(id) {
        assert (Unmark(front, id) + [last])[..|Unmark(front, id)|] == Unmark(front, id);
      }
    }
  }

  lemma {:induction false} UnmarkedUnmark(log: seq<Undo>, id: nat)
    ensures !Marked(log) ==> Unmark(log, id) == log
  {
    if log != [] {
      UnmarkedUnmark(log[..|log| - 1], id);
    }
  }

  lemma MarkIsTransparent(c: Core, log: seq<Undo>, id: nat)
    ensures Unwind(false, c, log + [Mark(id)]) == Unwind(false, c, log)
    ensures UnwindDisk(false, c.cfg, log + [Mark(id)]) == UnwindDisk(false, c.cfg, log)
    ensures Replayable(false, c, log + [Mark(id)]) == Replayable(false, c, log)
    ensures Marked(log + [Mark(id)])
    ensures Unwind(true, c, log + [Mark(id)]) == c
    ensures UnwindDisk(true, c.cfg, log + [Mark(id)]) == c.cfg
    ensures !Marked(log) ==> Unmark(log + [Mark(id)], id) == log
  {
    assert (log + [Mark(id)])[..|log|] == log;
    UnmarkedUnmark(log, id);
  }

  /** Volatile undo actions never touch the configuration, so the two ways of undoing agree on it. */
  lemma {:induction false} UnwindAgreesOnDisk(stop: bool, c: Core, log: seq<Undo>)
    ensures Unwind(stop, c, log).cfg == UnwindDisk(stop, c.cfg, log)
    decreases |log|
  {
    if log != [] {
      UnwindAgreesOnDisk(stop, UndoOne(c, log[|log| - 1]), log[..|log| - 1]);
    }
  }

  // ---------- calls ----------

  /** A call with no effect on the device. */
  function Ask(sys: Sys, d: Device): (r: Out)
    ensures Keeps(d, r.dev) && r.dev == d.(clock := d.clock + 1)
    ensures r.Done? ==> r.next.None?
  {
    var d' := d.(clock := d.clock + 1);
    match sys.verdict(d.clock)
    case Succeeds => Done(d', None)
    case Fails => Failed(d')
    case Crashes => Crashed(d')
  }

  function Check(d: Device, ok: bool): Out {
    if ok then Done(d, None) else Failed(d)
  }

  /** Performs a logged step. */
  function Push(d: Device, c: Core, e: Undo): (d': Device)
    requires UndoOne(c, e).cfg == d.core.cfg && (!e.RestoreConfig? ==> c.cfg == d.core.cfg) && !e.Mark?
    ensures KeepsDisk(d, d')
    ensures UndoOne(c, e) == d.core && CanUndo(c, e) ==> Keeps(d, d')
  {
    assert (d.log + [e])[..|d.log|] == d.log;
    d.(core := c, log := d.log + [e])
  }

  function WriteConfig(sys: Sys, d: Device, patch: Config): (r: Out)
    ensures Keeps(d, r.dev)
    ensures r.dev.misused == d.misused
    ensures r.Done? ==> r.next.None? && r.dev.core == d.core.(cfg := Overwrite(d.core.cfg, patch))
    ensures !r.Done? ==> r.dev.core == d.core
  {
    var d :- Ask(sys, d);
    Done(Push(d, d.core.(cfg := Overwrite(d.core.cfg, patch)), RestoreConfig(patch, d.core.cfg)), None)
  }

  function SetRuntime(sys: Sys, d: Device, s: AppState): (r: Out)
    ensures KeepsDisk(d, r.dev)
    ensures d.core.runtime != Boot ==> Keeps(d, r.dev)
    ensures r.dev.misused == d.misused
    ensures r.Done? ==> r.next.None? && r.dev.core == d.core.(runtime := s)
    ensures !r.Done? ==> r.dev.core == d.core
  {
    var d :- Ask(sys, d);
    Done(Push(d, d.core.(runtime := s), RestoreRuntime(d.core.runtime)), None)
  }

  /** A persisted activity, or a service or hostname change, whose own state is not modelled. */
  function Activity(sys: Sys, d: Device): (r: Out)
    ensures Keeps(d, r.dev)
    ensures r.dev.misused == d.misused && r.dev.core == d.core
    ensures r.Done? ==> r.next.None?
  {
    var d :- Ask(sys, d);
    Done(Push(d, d.core, RevertActivity), None)
  }

  function ActivateSubject(sys: Sys, d: Device, s: Subject): (r: Out)
    ensures Keeps(d, r.dev)
    ensures r.dev.misused == if s in d.core.mq && sys.verdict(d.clock).Succeeds? then d.misused + {Queue} else d.misused
    ensures r.Done? ==> r.next.None? && r.dev.core == d.core.(mq := d.core.mq + {s})
    ensures !r.Done? ==> r.dev.core == d.core
  {
    var d :- Ask(sys, d);
    if s in d.core.mq then Failed(d.(misused := d.misused + {Queue})) else
    assert d.core.mq + {s} - {s} == d.core.mq;
    Done(Push(d, d.core.(mq := d.core.mq + {s}), Deactivate(s)), None)
  }

  function DeactivateSubject(sys: Sys, d: Device, s: Subject): (r: Out)
    ensures Keeps(d, r.dev)
    ensures r.dev.misused ==
              if s !in d.core.mq && sys.verdict(d.clock).Succeeds? then d.misused + {Queue} else d.misused
    ensures r.Done? ==> r.next.None? && r.dev.core == d.core.(mq := d.core.mq - {s})
    ensures !r.Done? ==> r.dev.core == d.core
  {
    var d :- Ask(sys, d);
    if s !in d.core.mq then Failed(d.(misused := d.misused + {Queue})) else
    assert d.core.mq - {s} + {s} == d.core.mq;
    Done(Push(d, d.core.(mq := d.core.mq - {s}), Reactivate(s)), None)
  }

  /** The websocket service's Start outside a transaction: refused when already started. */
  function BareStart(d: Device): (r: Out)
    ensures !r.Crashed? && r.dev.core == d.core.(ws := true)
    ensures r.dev.misused == if d.core.ws then d.misused + {Websocket} else d.misused
    ensures r.dev == d.(core := r.dev.core, misused := r.dev.misused)
  {
    if d.core.ws then Failed(d.(misused := d.misused + {Websocket})) else Done(d.(core := d.core.(ws := true)), None)
  }

  function BareStop(d: Device): (r: Out)
    ensures !r.Crashed? && r.dev.core == d.core.(ws := false)
    ensures r.dev.misused == if d.core.ws then d.misused else d.misused + {Websocket}
    ensures r.dev == d.(core := r.dev.core, misused := r.dev.misused)
  {
    if !d.core.ws then Failed(d.(misused := d.misused + {Websocket})) else Done(d.(core := d.core.(ws := false)), None)
  }

  function StartWebsocket(sys: Sys, d: Device): (r: Out)
    ensures Keeps(d, r.dev)
    ensures r.dev.misused == if d.core.ws && sys.verdict(d.clock).Succeeds? then d.misused + {Websocket} else d.misused
    ensures r.Done? ==> r.next.None? && !d.core.ws && r.dev.core == d.core.(ws := true)
    ensures !r.Done? ==> r.dev.core == d.core
  {
    var d :- Ask(sys, d);
    if d.core.ws then Failed(d.(misused := d.misused + {Websocket}))
    else Done(Push(d, d.core.(ws := true), StopAgain), None)
  }

  function StopWebsocket(sys: Sys, d: Device): (r: Out)
    ensures Keeps(d, r.dev)
    ensures r.dev.misused == if !d.core.ws && sys.verdict(d.clock).Succeeds? then d.misused + {Websocket} else d.misused
    ensures r.Done? ==> r.next.None? && d.core.ws && r.dev.core == d.core.(ws := false)
    ensures !r.Done? ==> r.dev.core == d.core
  {
    var d :- Ask(sys, d);
    if !d.core.ws then Failed(d.(misused := d.misused + {Websocket}))
    else Done(Push(d, d.core.(ws := false), StartAgain), None)
  }

  /** Adds a checkpoint named by the current clock. */
  function AddCheckPoint(sys: Sys, d: Device): (r: Out)
    ensures r.dev.core == d.core && r.dev.misused == d.misused && r.dev.wiped == d.wiped
    ensures KeepsBeyondMarks(d, r.dev)
    ensures r.Done? ==> r.next.None? && AtMark(r.dev)
    ensures r.Done? && !Marked(d.log) ==> Unmark(r.dev.log, d.clock) == d.log
    ensures !r.Done? ==> r.dev.log == d.log
  {
    var id := d.clock;
    var d' :- Ask(sys, d);
    MarkIsTransparent(d.core, d.log, id);
    Done(d'.(log := d'.log + [Mark(id)]), None)
  }

  function DeleteCheckPoint(sys: Sys, d: Device, id: nat): (r: Out)
    ensures r.dev.core == d.core && r.dev.misused == d.misused && r.dev.wiped == d.wiped
    ensures KeepsBeyondMarks(d, r.dev)
    ensures r.dev.log == if r.Done? then Unmark(d.log, id) else d.log
  {
    var d :- Ask(sys, d);
    UnmarkUnwind(d.core, d.log, id);
    Done(d.(log := Unmark(d.log, id)), None)
  }

  /** A call whose error is only logged. */
  function Attempt(sys: Sys, d: Device): (r: Out)
    ensures !r.Failed? && Keeps(d, r.dev) && r.dev == d.(clock := d.clock + 1)
    ensures r.Done? ==> r.next.None?
  {
    match Ask(sys, d)
    case Failed(d') => Done(d', None)
    case r => r
  }
}
