/** Which commands can be left half done: what a caller can tell beforehand. */
module Checkpoints {
  import opened Common
  import opened Configs
  import opened Transitions
  import opened Devices
  import opened Handlers
  import opened Engine
  import opened Steps
  import opened Safety
  import opened Calls

  /** A reset of a device other than a hub, and an update of the agent itself. */
  predicate SetsCheckpoint(sys: Sys, t: Transition) {
    (t.OnReset? && !sys.kind.Hub?) || (t.OnUpdateDevice? && AGENT_PACKAGE in t.packages)
  }

  /** Any other command is undone whenever its chain fails. */
  lemma UncheckpointedIsUndone(sys: Sys, d: Device, t: Transition)
    requires Assumed(sys) && Resting(sys, d) && IsCommand(t) && !SetsCheckpoint(sys, t)
    ensures var r := Serve(sys, d, t);
            Ran(sys, d, t).Failed? && !r.Crashed? ==> r.Failed? && r.dev == d.(clock := r.dev.clock)
  {
    hide Ran, Serve, Assumed, Refused, Steady, RestingInReset, Unwind, UnwindDisk, Replayable, Misplayed, Marked;
    FailedCommandIsUndone(sys, d, t);
  }

  // ---------- environments in which such a command is not undone ----------

  function FailingAt(bad: set<nat>): nat -> Verdict {
    n => if n in bad then Fails else Succeeds
  }

  lemma {:induction false} UnsubscribeTakes(sys: Sys, d: Device, subjects: seq<Subject>)
    requires Distinct(subjects) && forall s <- subjects :: s in d.core.mq
    requires AllSucceed(sys, d.clock, d.clock + |subjects|)
    ensures var r := Unsubscribe(sys, d, subjects);
            r.Done? && r.dev.clock == d.clock + |subjects|
    decreases |subjects|
  {
    hide Keeps, KeepsDisk;
    if subjects != [] {
      var r := DeactivateSubject(sys, d, subjects[0]);
      assert subjects == [subjects[0]] + subjects[1..];
      UnsubscribeTakes(sys, r.dev, subjects[1..]);
    }
  }

  lemma ExitTakes(sys: Sys, d: Device, t: Transition)
    requires Steady(d) && !t.OnMigrateFromOldVersion?
    requires AllSucceed(sys, d.clock, d.clock + ExitCalls(d.core.runtime))
    ensures var r := OnExit(sys, d, t);
            r.Done? && r.dev.clock == d.clock + ExitCalls(d.core.runtime)
  {
    hide Unsubscribe, Keeps, AllSucceed;
    SubjectTables();
    if d.core.runtime == Init {
      UnsubscribeTakes(sys, d, INIT_SUBJECTS);
    } else if d.core.runtime == Active {
      UnsubscribeTakes(sys, d, ACTIVE_SUBJECTS);
    }
  }

  lemma EnterTakes(sys: Sys, d: Device, t: Transition)
    requires Steady(d) && !t.OnMigrateFromOldVersion?
    requires AllSucceed(sys, d.clock, d.clock + ExitCalls(d.core.runtime) + 2)
    ensures var r := Enter(sys, d, t);
            r.Done? && r.dev.clock == d.clock + ExitCalls(d.core.runtime) + 2
  {
    hide OnExit, Steady, Keeps, KeepsDisk, ExitCalls;
    ExitTakes(sys, d, t);
  }

  // ---------- an update of the agent ----------

  function UpdateCalls(packages: seq<string>): nat {
    if UPDATE_MANAGER_PACKAGE in packages then 5 else 4
  }

  lemma UpdateTakes(sys: Sys, d: Device, packages: seq<string>)
    requires AGENT_PACKAGE in packages && AllSucceed(sys, d.clock, d.clock + UpdateCalls(packages))
    ensures var r := UpdatePackages(sys, d, packages);
            r.Done? && r.dev.clock == d.clock + UpdateCalls(packages)
  {
    hide Keeps, KeepsDisk, KeepsBeyondMarks, AtMark, Marked, Overwrite, Unmark, Without;
    NamesDiffer();
    hide AGENT_PACKAGE, UPDATE_MANAGER_PACKAGE, BGP_ADAPTER_PACKAGE, BGPD_PACKAGE;
  }

  /** The first transition of the update, the report being its last call. */
  lemma AgentIsInstalled(sys: Sys, d: Device, t: Transition)
    requires Steady(d) && d.core.runtime == Active && !Marked(d.log)
    requires t.OnUpdateDevice? && AGENT_PACKAGE in t.packages
    requires AllSucceed(sys, d.clock, d.clock + 5 + UpdateCalls(t.packages))
    ensures var r := PerformTransition(sys, d, t);
            r.Done? && r.next.Some? && r.next.value.OnUpdateDeviceFinished? &&
            r.dev.clock == d.clock + 5 + UpdateCalls(t.packages) && r.dev.core.runtime == Maintenance &&
                Marked(r.dev.log)
  {
    hide Keeps, KeepsDisk, KeepsBeyondMarks, AtMark, Marked, Unwind, UnwindDisk, Replayable, Misplayed;
    hide Enter, UpdatePackages, Steady, UpdateCalls, AGENT_PACKAGE;
    PerformIsEnterThenHandle(sys, d, t);
    hide PerformTransition;
    EnterTakes(sys, d, t);
    EnterIsMarkFree(sys, d, t);
    var e := Enter(sys, d, t).dev;
    UpdateTakes(sys, e, t.packages);
    assert Handle(sys, e, Maintenance, t) == HandleMaintenance(sys, e, t);
  }

  lemma ReturnFails(sys: Sys, d: Device, t: Transition)
    requires d.core.runtime == Maintenance && sys.verdict(d.clock) == Fails && t.OnUpdateDeviceFinished?
    ensures var r := PerformTransition(sys, d, t);
            r.Failed? && r.dev.clock == d.clock + 1 && r.dev.log == d.log
  {
    hide Keeps, KeepsDisk, Handle;
  }

  lemma UpdateFails(sys: Sys, d: Device, t: Transition)
    requires Steady(d) && d.core.runtime == Active && !Marked(d.log)
    requires t.OnUpdateDevice? && AGENT_PACKAGE in t.packages
    requires var k := d.clock + 5 + UpdateCalls(t.packages);
             AllSucceed(sys, d.clock, k) && sys.verdict(k) == Fails
    ensures var r := Chain(sys, d, t);
            r.Failed? && Marked(r.dev.log) && r.dev.clock == d.clock + 6 + UpdateCalls(t.packages)
  {
    hide Keeps, KeepsDisk, Marked, PerformTransition, Chain, Steady, UpdateCalls, AGENT_PACKAGE, AllSucceed;
    AgentIsInstalled(sys, d, t);
    var r := PerformTransition(sys, d, t);
    ReturnFails(sys, r.dev, r.next.value);
    ChainIsShort(sys, d, t);
  }

  // ---------- a reset ----------

  function PrepareCalls(c: Core): nat {
    if c.ws then 7 else 6
  }

  lemma PrepareTakes(sys: Sys, d: Device)
    requires AllSucceed(sys, d.clock, d.clock + PrepareCalls(d.core))
    ensures var r := PrepareReset(sys, d);
            r.Done? && r.dev.clock == d.clock + PrepareCalls(d.core)
  {
    hide Keeps, KeepsDisk, Overwrite;
    var d1 := StopIfStarted(sys, d).dev;
    var k := d1.clock;
    assert StopIfStarted(sys, d).Done? && k + 6 == d.clock + PrepareCalls(d.core);
    assert sys.verdict(k) == sys.verdict(k + 1) == sys.verdict(k + 2) == Succeeds;
    assert sys.verdict(k + 3) == sys.verdict(k + 4) == sys.verdict(k + 5) == Succeeds;
    hide StopIfStarted, PrepareCalls, AllSucceed;
    var d2 := Activity(sys, d1).dev;
    var d3 := WriteConfig(sys, d2, sys.emptyConfig).dev;
    var d4 := Activity(sys, d3).dev;
    var d5 := Activity(sys, d4).dev;
    var d6 := Activity(sys, d5).dev;
    assert d2.clock == k + 1 && d3.clock == k + 2 && d4.clock == k + 3 && d5.clock == k + 4 && d6.clock == k + 5;
    assert PrepareReset(sys, d) == Activity(sys, d6);
  }

  /** The database cannot be closed and the checkpoint cannot be deleted. */
  lemma ResetFails(sys: Sys, d: Device)
    requires var k := d.clock + PrepareCalls(d.core) + 2;
             AllSucceed(sys, d.clock, k) && sys.verdict(k) == Fails && sys.verdict(k + 1) == Fails
    ensures var r := ResetDevice(sys, d);
            r.Failed? && Marked(r.dev.log) && r.dev.clock == d.clock + PrepareCalls(d.core) + 4
  {
    hide PrepareReset, Keeps, KeepsDisk, KeepsBeyondMarks, PrepareCalls, Overwrite, Unmark, Marked;
    PrepareTakes(sys, d);
    hide AllSucceed;
  }

  lemma ResetChainFails(sys: Sys, d: Device, t: Transition)
    requires Steady(d) && t.OnReset? && !sys.kind.Hub? && !Refused(d, t)
    requires var k := d.clock + ExitCalls(d.core.runtime) + PrepareCalls(d.core) + 4;
             AllSucceed(sys, d.clock, k) && sys.verdict(k) == Fails && sys.verdict(k + 1) == Fails
    ensures var r := Chain(sys, d, t);
            r.Failed? && Marked(r.dev.log) &&
                r.dev.clock == d.clock + ExitCalls(d.core.runtime) + PrepareCalls(d.core) + 6
  {
    hide Keeps, KeepsBeyondMarks, AtMark, Marked, Enter, Handle, ResetDevice, Chain, Steady, ExitCalls, Refused;
    hide PerformTransition, PrepareReset, Overwrite;
    assert d.core.runtime != Boot by {
      SteadyIsUp(d);
    }
    PerformIsEnterThenHandle(sys, d, t);
    EnterTakes(sys, d, t);
    EnterIsMarkFree(sys, d, t);
    var e := Enter(sys, d, t).dev;
    ResetIsHandled(sys, e);
    ResetFails(sys, e);
    ChainIsShort(sys, d, t);
  }

  lemma ResetIsHandled(sys: Sys, d: Device)
    requires !sys.kind.Hub?
    ensures Handle(sys, d, Reset, OnReset) == ResetDevice(sys, d)
  {
    hide ResetDevice, KeepsBeyondMarks, AtMark, Marked, Keeps;
  }

  lemma SteadyIsUp(d: Device)
    requires Steady(d)
    ensures d.core.runtime != Boot
  {
  }

  // ---------- the exact condition ----------

  /** The calls that have to fail for a command that sets a checkpoint to be left half done. */
  function FatalCalls(d: Device, t: Transition): set<nat> {
    if t.OnReset? then
      var k := d.clock + ExitCalls(d.core.runtime) + PrepareCalls(d.core) + 5;
      {k, k + 1}
    else if t.OnUpdateDevice? then {d.clock + 6 + UpdateCalls(t.packages)}
    else {}
  }

  lemma FatalCallsAreFatal(sys: Sys, d: Device, t: Transition)
    requires Assumed(sys) && Resting(sys, d) && IsCommand(t) && !Refused(d, t) && SetsCheckpoint(sys, t)
    requires sys.verdict == FailingAt(FatalCalls(d, t))
    ensures Ran(sys, d, t).Failed? && Serve(sys, d, t).Failed? && Serve(sys, d, t).dev.core != d.core
  {
    hide Chain, Marked, Steady, Assumed, AGENT_PACKAGE, ExitCalls, UpdateCalls, PrepareCalls, Keeps, Unwind, UnwindDisk;
    hide Replayable, Misplayed;
    var s := d.(log := [], clock := d.clock + 1);
    NoMark();
    assert !Marked(s.log) && Steady(s) && !Refused(s, t) by {
      StartedSteady(sys, d, s, t);
    }
    if t.OnReset? {
      ResetChainFails(sys, s, t);
    } else {
      UpdateFails(sys, s, t);
    }
    ServeIsRanThenFinish(sys, d, t);
    FailedCommandIsUndone(sys, d, t);
  }

  lemma NoMark()
    ensures !Marked([])
  {
  }

  lemma StartedSteady(sys: Sys, d: Device, s: Device, t: Transition)
    requires Resting(sys, d) && s.core == d.core && IsCommand(t) && !Refused(d, t)
    ensures Steady(s) && !Refused(s, t) && (t.OnUpdateDevice? ==> s.core.runtime == Active)
  {
  }

  /**
   * A resting device that takes on a command is sure to be as before whenever the command's chain fails, whatever the
   * environment does, exactly if the command sets no checkpoint.
   */
  lemma AlwaysUndoneIff(sys: Sys, d: Device, t: Transition)
    requires Assumed(sys) && Resting(sys, d) && IsCommand(t) && !Refused(d, t)
    ensures !SetsCheckpoint(sys, t) <==>
            forall v: nat -> Verdict ::
              var sys' := sys.(verdict := v);
              Ran(sys', d, t).Failed? && !Serve(sys', d, t).Crashed? ==> Serve(sys', d, t).dev.core == d.core
  {
    hide Ran, Serve, Resting, Assumed, Refused;
    forall v: nat -> Verdict
      ensures Assumed(sys.(verdict := v)) && Resting(sys.(verdict := v), d)
    {
      OtherVerdicts(sys, d, v);
    }
    if SetsCheckpoint(sys, t) {
      FatalCallsAreFatal(sys.(verdict := FailingAt(FatalCalls(d, t))), d, t);
    } else {
      forall v: nat -> Verdict
        ensures var sys' := sys.(verdict := v);
                Ran(sys', d, t).Failed? && !Serve(sys', d, t).Crashed? ==> Serve(sys', d, t).dev.core == d.core
      {
        UncheckpointedIsUndone(sys.(verdict := v), d, t);
      }
    }
  }

  /**
   * A failed reset is left half done only by both of its fatal calls: the database does not close, the checkpoint
   * stays.
   */
  lemma ResetHalfDoneOnlyIf(sys: Sys, d: Device)
    requires Assumed(sys) && Resting(sys, d) && !sys.kind.Hub?
    ensures var ran, r := Ran(sys, d, OnReset), Serve(sys, d, OnReset);
            ran.Failed? && !r.Crashed? && r.dev.core != d.core ==>
              forall n <- FatalCalls(d, OnReset) :: sys.verdict(n) == Fails
  {
    hide Ran, Serve, Chain, PerformTransition, Resting, Assumed, Keeps, Unwind, UnwindDisk, Replayable, Misplayed;
    hide Marked;
    hide ExitCalls, Refused;
    FailedCommandIsUndone(sys, d, OnReset);
    var ran := Ran(sys, d, OnReset);
    if ran.Failed? && Marked(ran.dev.log) {
      var s := d.(clock := d.clock + 1, log := []);
      NoMark();
      RanOrRefused(sys, d);
      ChainIsShort(sys, s, OnReset);
      ResetStepFails(sys, d, s);
    }
  }

  lemma RanOrRefused(sys: Sys, d: Device)
    ensures var s := d.(clock := d.clock + 1, log := []);
            Ran(sys, d, OnReset).dev.log == [] || Ran(sys, d, OnReset) == Chain(sys, s, OnReset)
  {
    hide Chain;
  }

  lemma ResetStepFails(sys: Sys, d: Device, s: Device)
    requires Resting(sys, d) && !sys.kind.Hub? && s == d.(clock := d.clock + 1, log := []) && !Marked(s.log)
    ensures var r := PerformTransition(sys, s, OnReset);
            var k := d.clock + ExitCalls(d.core.runtime) + PrepareCalls(d.core) + 5;
            && (r.Done? ==> r.next.None?)
            && (r.Failed? && Marked(r.dev.log) ==> sys.verdict(k) == sys.verdict(k + 1) == Fails)
  {
    hide Enter, Handle, ResetDevice, Marked, ExitCalls, Unwind, UnwindDisk, Replayable, Misplayed, Resting;
    hide Refused, PerformTransition, Overwrite;
    AllowedIfDone(sys, s, OnReset);
    RestingIsUp(sys, d);
    if !Refused(s, OnReset) {
      PerformIsEnterThenHandle(sys, s, OnReset);
      EnterIsMarkFree(sys, s, OnReset);
      EnterMakes(sys, s, OnReset);
      if Enter(sys, s, OnReset).Done? {
        var e := Enter(sys, s, OnReset).dev;
        ResetIsHandled(sys, e);
        ResetDeviceMakes(sys, e);
      }
    }
  }

  lemma RestingIsUp(sys: Sys, d: Device)
    requires Resting(sys, d)
    ensures d.core.runtime != Boot
  {
  }

  lemma OtherVerdicts(sys: Sys, d: Device, v: nat -> Verdict)
    requires Assumed(sys) && Resting(sys, d)
    ensures Assumed(sys.(verdict := v)) && Resting(sys.(verdict := v), d)
  {
  }
}
