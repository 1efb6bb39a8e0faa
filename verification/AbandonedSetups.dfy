/** Runs in which a first setup gives up, and what that does to the ones after it. */
module AbandonedSetups {
  import opened Common
  import opened FirstInit

  lemma OneStep(s: State, step: Step, rest: seq<Step>)
    requires Enabled(s, step)
    ensures Run(s, [step] + rest) == Run(Next(s, step), rest)
  {
    assert ([step] + rest)[1..] == rest;
  }

  const OPEN := Tx(ByRunner, [])

  /** The transaction of a first setup that failed. */
  const UNDONE := Tx(ByRunner, [End(ByRunner, false)])

  lemma UndoneIsEnded()
    ensures Ended([OPEN], 0, ByRunner, false) == [UNDONE]
  {
    assert OPEN.ends + [End(ByRunner, false)] == UNDONE.ends;
  }

  /** A setup registers and gives up, with no initialization on its way. */
  lemma GivesUp(rest: seq<Step>)
    ensures Run(START, [Open] + ([Prepare] + ([Register] + ([Abandon] + ([Finish(false)] + rest))))) ==
            Run(State(Free, Some(0), None, false, map[], [UNDONE]), rest)
  {
    hide Run, Ended;
    UndoneIsEnded();
    assert [] + [OPEN] == [OPEN];
    OneStep(State(Abandoned(0), Some(0), None, false, map[], [OPEN]), Finish(false), rest);
    var r := [Finish(false)] + rest;
    OneStep(State(Registered(0), Some(0), None, false, map[], [OPEN]), Abandon, r);
    r := [Abandon] + r;
    OneStep(State(Ready(0), None, None, false, map[], [OPEN]), Register, r);
    r := [Register] + r;
    OneStep(State(Opened(0), None, None, false, map[], [OPEN]), Prepare, r);
    r := [Prepare] + r;
    OneStep(START, Open, r);
  }

  /** The next setup comes to its registration. */
  lemma ComesToRegister(s: State, rest: seq<Step>)
    requires s.runner.Free?
    ensures Run(s, [Open] + ([Prepare] + rest)) == Run(s.(runner := Ready(|s.txs|), txs := s.txs + [OPEN]), rest)
  {
    hide Run;
    OneStep(s.(runner := Opened(|s.txs|), txs := s.txs + [OPEN]), Prepare, rest);
    OneStep(s, Open, [Prepare] + rest);
  }

  /** With no initialization in between, the next setup is refused. */
  lemma TheNextIsRefused() returns (steps: seq<Step>)
    ensures Abandon in steps && Run(START, steps).Some? && Run(START, steps).value.runner.Refused?
  {
    var again := [Open] + ([Prepare] + ([Register] + []));
    steps := [Open] + ([Prepare] + ([Register] + ([Abandon] + ([Finish(false)] + again))));
    GivesUp(again);
    var s := State(Free, Some(0), None, false, map[], [UNDONE]);
    ComesToRegister(s, [Register] + []);
    OneStep(s.(runner := Ready(1), txs := [UNDONE] + [OPEN]), Register, []);
    assert steps[3] == Abandon;
  }

  /** An initialization is at work when the setup it serves gives up and is undone. */
  const LATE := State(Free, Some(0), Some(0), true, map[0 := Running(0, true)], [UNDONE])

  lemma GivesUpMeanwhile(rest: seq<Step>)
    ensures Run(START, [Open] + ([Prepare] + ([Register] + ([Connect] + ([Call(0)] + ([Lock(0)] + ([Begin(0)] +
              ([Abandon] + ([Finish(false)] + rest))))))))) == Run(LATE, rest)
  {
    hide Run, Ended;
    UndoneIsEnded();
    assert [] + [OPEN] == [OPEN];
    var running := map[0 := Running(0, true)];
    OneStep(State(Abandoned(0), Some(0), Some(0), true, running, [OPEN]), Finish(false), rest);
    var r := [Finish(false)] + rest;
    OneStep(State(Waiting(0), Some(0), Some(0), true, running, [OPEN]), Abandon, r);
    r := [Abandon] + r;
    assert map[0 := Locked(0, true)][0 := Running(0, true)] == running;
    OneStep(State(Waiting(0), Some(0), Some(0), false, map[0 := Locked(0, true)], [OPEN]), Begin(0), r);
    r := [Begin(0)] + r;
    assert map[0 := Calling][0 := Locked(0, true)] == map[0 := Locked(0, true)];
    OneStep(State(Waiting(0), Some(0), None, false, map[0 := Calling], [OPEN]), Lock(0), r);
    r := [Lock(0)] + r;
    assert map[][0 := Calling] == map[0 := Calling];
    OneStep(State(Waiting(0), Some(0), None, false, map[], [OPEN]), Call(0), r);
    r := [Call(0)] + r;
    OneStep(State(Registered(0), Some(0), None, false, map[], [OPEN]), Connect, r);
    r := [Connect] + r;
    OneStep(State(Ready(0), None, None, false, map[], [OPEN]), Register, r);
    r := [Register] + r;
    OneStep(State(Opened(0), None, None, false, map[], [OPEN]), Prepare, r);
    r := [Prepare] + r;
    OneStep(START, Open, r);
  }

  /** An initialization goes on writing on a transaction that was finished, and undone, before. */
  lemma AnInitializationIsLate() returns (steps: seq<Step>)
    ensures Run(START, steps).Some? && Late(Run(START, steps).value, 0)
  {
    steps := [Open] + ([Prepare] + ([Register] + ([Connect] + ([Call(0)] + ([Lock(0)] + ([Begin(0)] +
               ([Abandon] + ([Finish(false)] + []))))))));
    GivesUpMeanwhile([]);
  }

  /** When it comes to its answer nobody listens, and the next setup comes to its registration for good. */
  lemma TheNextHangs() returns (steps: seq<Step>)
    ensures Run(START, steps).Some?
    ensures var s := Run(START, steps).value;
            s.runner.Ready? && Hung(s) && forall more: seq<Step> :: Run(s, more).Some? ==> Register !in more
  {
    var next := [Open] + ([Prepare] + []);
    var rest := [Work(0, true)] + next;
    steps := [Open] + ([Prepare] + ([Register] + ([Connect] + ([Call(0)] + ([Lock(0)] + ([Begin(0)] +
               ([Abandon] + ([Finish(false)] + rest))))))));
    GivesUpMeanwhile(rest);
    var sending := LATE.(initializing := false, inits := map[0 := Sending(0, true)]);
    assert LATE.inits[0 := Sending(0, true)] == sending.inits;
    OneStep(LATE, Work(0, true), next);
    ComesToRegister(sending, []);
    RegistrationHangsIff(steps);
  }
}
