/**
 * The first-init handover: a first setup registers its transaction and waits; the device initialization that comes
 * in runs on that transaction and answers. The state service is one thread, initializations are any number, and a
 * mutex makes each of them, and each registration, exclusive.
 */
module FirstInit {
  import opened Common

  datatype Opener = ByRunner | ByInit(id: nat)

  /** A finished transaction: by whom, and with success or not. */
  datatype End = End(who: Opener, ok: bool)

  datatype Tx = Tx(opener: Opener, ends: seq<End>)

  /**
   * The state service and its transaction. Ready: a first setup that is about to register. Abandoned: starting the
   * websocket failed, or the wait timed out.
   */
  datatype Runner =
    | Free
    | Opened(tx: nat)
    | Ready(tx: nat)
    | Registered(tx: nat)
    | Waiting(tx: nat)
    | Refused(tx: nat)
    | Answered(tx: nat, ok: bool)
    | Abandoned(tx: nat)

  /** One call of InitDevice; borrowed when it runs on the waiter's transaction. */
  datatype Init =
    | Calling
    | Locked(tx: nat, borrowed: bool)
    | Running(tx: nat, borrowed: bool)
    | Sending(tx: nat, ok: bool)
    | Closing(tx: nat, borrowed: bool, ok: bool)
    | Left(tx: nat, borrowed: bool, ok: bool)

  /** waiter is the registered transaction, holder the initialization that holds the mutex. */
  datatype State = State(
    runner: Runner, waiter: Option<nat>, holder: Option<nat>, initializing: bool,
    inits: map<nat, Init>, txs: seq<Tx>)

  datatype Step =
    | Open | Prepare | Register | Connect | Abandon | Finish(ok: bool)
    | Call(id: nat) | Lock(id: nat) | Begin(id: nat) | Work(id: nat, ok: bool) | Send(id: nat)
    | Close(id: nat, commits: bool)

  const START := State(Free, None, None, false, map[], [])

  predicate InitAt(s: State, id: nat) {
    id in s.inits && s.holder == Some(id)
  }

  predicate Enabled(s: State, step: Step) {
    match step
    case Open => s.runner.Free?
    case Prepare => s.runner.Opened?
    case Register => s.runner.Ready? && s.holder.None?
    case Connect => s.runner.Registered?
    case Abandon => s.runner.Registered? || s.runner.Waiting?
    case Finish(ok) =>
      || s.runner.Opened?
      || (s.runner.Answered? && (ok ==> s.runner.ok))
      || ((s.runner.Refused? || s.runner.Abandoned?) && !ok)
    case Call(id) => id !in s.inits
    case Lock(id) => id in s.inits && s.inits[id].Calling? && s.holder.None?
    case Begin(id) => InitAt(s, id) && s.inits[id].Locked?
    case Work(id, _) => InitAt(s, id) && s.inits[id].Running?
    case Send(id) => InitAt(s, id) && s.inits[id].Sending? && s.runner.Waiting?
    case Close(id, commits) => InitAt(s, id) && s.inits[id].Closing? && (commits ==> s.inits[id].ok)
  }

  function Ended(txs: seq<Tx>, tx: nat, who: Opener, ok: bool): seq<Tx> {
    if tx < |txs| then txs[tx := txs[tx].(ends := txs[tx].ends + [End(who, ok)])] else txs
  }

  /** The deferred answer of an initialization: sent if somebody is registered. */
  function Answer(s: State, tx: nat, borrowed: bool, ok: bool): Init {
    if s.waiter.Some? then Sending(tx, ok) else Closing(tx, borrowed, ok)
  }

  function Next(s: State, step: Step): State
    requires Enabled(s, step)
  {
    match step
    case Open => s.(runner := Opened(|s.txs|), txs := s.txs + [Tx(ByRunner, [])])
    case Prepare => s.(runner := Ready(s.runner.tx))
    case Register =>
      if s.waiter.Some? then s.(runner := Refused(s.runner.tx))
      else s.(runner := Registered(s.runner.tx), waiter := Some(s.runner.tx))
    case Connect => s.(runner := Waiting(s.runner.tx))
    case Abandon => s.(runner := Abandoned(s.runner.tx))
    case Finish(ok) => s.(runner := Free, txs := Ended(s.txs, s.runner.tx, ByRunner, ok))
    case Call(id) => s.(inits := s.inits[id := Calling])
    case Lock(id) =>
      if s.waiter.Some? then s.(holder := Some(id), inits := s.inits[id := Locked(s.waiter.value, true)])
      else s.(holder := Some(id), inits := s.inits[id := Locked(|s.txs|, false)], txs := s.txs + [Tx(ByInit(id), [])])
    case Begin(id) =>
      var i := s.inits[id];
      if s.initializing then s.(inits := s.inits[id := Answer(s, i.tx, i.borrowed, false)])
      else s.(initializing := true, inits := s.inits[id := Running(i.tx, i.borrowed)])
    case Work(id, ok) =>
      var i := s.inits[id];
      s.(initializing := false, inits := s.inits[id := Answer(s, i.tx, i.borrowed, ok)])
    case Send(id) =>
      var i := s.inits[id];
      s.(runner := Answered(s.runner.tx, i.ok), waiter := None, inits := s.inits[id := Closing(i.tx, true, i.ok)])
    case Close(id, commits) =>
      var i := s.inits[id];
      s.(holder := None, inits := s.inits[id := Left(i.tx, i.borrowed, if i.borrowed then i.ok else commits)],
         txs := if i.borrowed then s.txs else Ended(s.txs, i.tx, ByInit(id), commits))
  }

  function Run(s: State, steps: seq<Step>): Option<State>
    decreases |steps|
  {
    if steps == [] then Some(s)
    else if Enabled(s, steps[0]) then Run(Next(s, steps[0]), steps[1..])
    else None
  }

  // ---------- invariants ----------

  /** Inside the mutex: between taking the lock and leaving. */
  predicate Inside(i: Init) {
    !i.Calling? && !i.Left?
  }

  predicate Borrows(i: Init) {
    i.Sending? || (!i.Calling? && i.borrowed)
  }

  /** On a transaction of its own. */
  predicate Independent(i: Init) {
    !i.Calling? && !Borrows(i)
  }

  predicate HasAnswered(i: Init) {
    (i.Closing? || i.Left?) && i.borrowed
  }

  predicate Owns(s: State, tx: nat) {
    !s.runner.Free? && s.runner.tx == tx
  }

  /** Only the holder is inside the mutex, and the initializing flag is up only while the holder runs. */
  ghost predicate Exclusive(s: State) {
    && (forall id | id in s.inits && Inside(s.inits[id]) :: s.holder == Some(id))
    && (s.holder.Some? ==> s.holder.value in s.inits && Inside(s.inits[s.holder.value]))
    && (s.initializing <==> s.holder.Some? && s.inits[s.holder.value].Running?)
  }

  /**
   * The state service alone ends the transactions it opened, each once; one is open exactly while it is at work on
   * it.
   */
  ghost predicate SetupOwnership(s: State) {
    && (!s.runner.Free? ==> s.runner.tx < |s.txs| && s.txs[s.runner.tx].opener == ByRunner)
    && (forall k | 0 <= k < |s.txs| && s.txs[k].opener.ByRunner? ::
          if Owns(s, k) then s.txs[k].ends == [] else |s.txs[k].ends| == 1 && s.txs[k].ends[0].who == ByRunner)
  }

  /** The same for the transactions that initializations opened. */
  ghost predicate InitOwnership(s: State) {
    && (forall id | id in s.inits && Independent(s.inits[id]) ::
          s.inits[id].tx < |s.txs| && s.txs[s.inits[id].tx].opener == ByInit(id))
    && (forall k | 0 <= k < |s.txs| && s.txs[k].opener.ByInit? ::
          var id := s.txs[k].opener.id;
          && id in s.inits && Independent(s.inits[id]) && s.inits[id].tx == k
          && s.txs[k].ends == if s.inits[id].Left? then [End(ByInit(id), s.inits[id].ok)] else [])
  }

  /** The registered transaction is the runner's; the holder runs on it exactly if there is one. */
  ghost predicate Registration(s: State) {
    && (s.runner.Registered? || s.runner.Waiting? ==> s.waiter == Some(s.runner.tx))
    && (s.waiter.Some? ==> s.waiter.value < |s.txs| && s.txs[s.waiter.value].opener == ByRunner)
    && (s.holder.Some? && s.holder.value in s.inits ==>
          match s.inits[s.holder.value]
          case Locked(tx, borrowed) => if borrowed then s.waiter == Some(tx) else s.waiter.None?
          case Running(tx, borrowed) => if borrowed then s.waiter == Some(tx) else s.waiter.None?
          case Sending(tx, _) => s.waiter == Some(tx)
          case Closing(_, _, _) => s.waiter.None?
          case _ => true)
  }

  /** An answer reaches the setup it is for, and only one does; a setup answered with an error ends in failure. */
  ghost predicate Answers(s: State) {
    && (forall id | id in s.inits && HasAnswered(s.inits[id]) ::
          var i := s.inits[id];
          && i.tx < |s.txs| && s.txs[i.tx].opener == ByRunner && s.waiter != Some(i.tx)
          && (s.runner == Answered(i.tx, i.ok) || (!Owns(s, i.tx) && (forall e <- s.txs[i.tx].ends :: e.ok ==> i.ok))))
    && (forall id, id' | id in s.inits && id' in s.inits && id != id' && HasAnswered(s.inits[id]) &&
          HasAnswered(s.inits[id']) ::
          s.inits[id].tx != s.inits[id'].tx)
  }

  ghost predicate Inv(s: State) {
    Exclusive(s) && SetupOwnership(s) && InitOwnership(s) && Registration(s) && Answers(s)
  }

  lemma NextExclusive(s: State, step: Step)
    requires Exclusive(s) && Enabled(s, step)
    ensures Exclusive(Next(s, step))
  {
  }

  lemma NextRegistration(s: State, step: Step)
    requires Exclusive(s) && Registration(s) && SetupOwnership(s) && Enabled(s, step)
    ensures Registration(Next(s, step))
  {
  }

  lemma NextSetupOwnership(s: State, step: Step)
    requires Exclusive(s) && Registration(s) && SetupOwnership(s) && InitOwnership(s) && Enabled(s, step)
    ensures SetupOwnership(Next(s, step))
  {
  }

  lemma LockInitOwnership(s: State, id: nat)
    requires Exclusive(s) && InitOwnership(s) && Enabled(s, Lock(id))
    ensures InitOwnership(Next(s, Lock(id)))
  {
    hide Exclusive;
  }

  lemma CloseInitOwnership(s: State, id: nat, commits: bool)
    requires InitOwnership(s) && Enabled(s, Close(id, commits))
    ensures InitOwnership(Next(s, Close(id, commits)))
  {
    var i, s' := s.inits[id], Next(s, Close(id, commits));
    if !i.borrowed {
      OwnCloseKeepsOthers(s, id, commits);
    } else {
      assert s'.txs == s.txs && !Independent(i) && !Independent(s'.inits[id]);
    }
  }

  /** Finishing its own transaction, an initialization touches no other. */
  lemma OwnCloseKeepsOthers(s: State, id: nat, commits: bool)
    requires InitOwnership(s) && Enabled(s, Close(id, commits)) && !s.inits[id].borrowed
    ensures var tx, s' := s.inits[id].tx, Next(s, Close(id, commits));
            && tx < |s.txs| && s.txs[tx] == Tx(ByInit(id), []) &&
                 s'.txs == s.txs[tx := Tx(ByInit(id), [End(ByInit(id), commits)])]
            && s'.inits[id] == Left(tx, false, commits)
            && (forall other | other in s.inits && other != id && Independent(s.inits[other]) ::
                  s.inits[other].tx != tx)
  {
    var tx := s.inits[id].tx;
    assert Independent(s.inits[id]) && s.txs[tx].opener == ByInit(id);
    assert s.txs[tx].ends == [] && [] + [End(ByInit(id), commits)] == [End(ByInit(id), commits)];
  }

  lemma RunnerInitOwnership(s: State, step: Step)
    requires SetupOwnership(s) && InitOwnership(s) && Enabled(s, step)
    requires step.Open? || step.Prepare? || step.Register? || step.Connect? || step.Abandon? || step.Finish?
    ensures InitOwnership(Next(s, step))
  {
  }

  lemma CallerInitOwnership(s: State, step: Step)
    requires Registration(s) && InitOwnership(s) && Enabled(s, step)
    requires step.Call? || step.Begin? || step.Work? || step.Send?
    ensures InitOwnership(Next(s, step))
  {
  }

  lemma NextInitOwnership(s: State, step: Step)
    requires Exclusive(s) && Registration(s) && SetupOwnership(s) && InitOwnership(s) && Enabled(s, step)
    ensures InitOwnership(Next(s, step))
  {
    hide Exclusive, InitOwnership, SetupOwnership, Registration, Enabled, Next;
    match step
    case Lock(id) => LockInitOwnership(s, id);
    case Close(id, commits) => CloseInitOwnership(s, id, commits);
    case Call(_) => CallerInitOwnership(s, step);
    case Begin(_) => CallerInitOwnership(s, step);
    case Work(_, _) => CallerInitOwnership(s, step);
    case Send(_) => CallerInitOwnership(s, step);
    case _ => RunnerInitOwnership(s, step);
  }

  lemma NextAnswers(s: State, step: Step)
    requires Exclusive(s) && Registration(s) && SetupOwnership(s) && InitOwnership(s) && Answers(s) && Enabled(s, step)
    ensures Answers(Next(s, step))
  {
    match step
    case Close(id, commits) => CloseAnswers(s, id, commits);
      hide Answers;
    case Send(id) => SendAnswers(s, id);
      hide Answers;
    case Call(_) => InitAnswers(s, step);
      hide Answers;
    case Lock(_) => InitAnswers(s, step);
      hide Answers;
    case Begin(_) => InitAnswers(s, step);
      hide Answers;
    case Work(_, _) => InitAnswers(s, step);
      hide Answers;
    case _ => RunnerAnswers(s, step);
      hide Answers;
  }

  lemma RunnerAnswers(s: State, step: Step)
    requires SetupOwnership(s) && Answers(s) && Enabled(s, step)
    requires step.Open? || step.Prepare? || step.Register? || step.Connect? || step.Abandon? || step.Finish?
    ensures Answers(Next(s, step))
  {
  }

  lemma InitAnswers(s: State, step: Step)
    requires Registration(s) && Answers(s) && Enabled(s, step)
    requires step.Call? || step.Lock? || step.Begin? || step.Work?
    ensures Answers(Next(s, step))
  {
  }

  lemma SendAnswers(s: State, id: nat)
    requires Registration(s) && SetupOwnership(s) && Answers(s) && Enabled(s, Send(id))
    ensures Answers(Next(s, Send(id)))
  {
  }

  lemma CloseAnswers(s: State, id: nat, commits: bool)
    requires Registration(s) && SetupOwnership(s) && InitOwnership(s) && Answers(s) && Enabled(s, Close(id, commits))
    ensures Answers(Next(s, Close(id, commits)))
  {
    var i := s.inits[id];
    if !i.borrowed {
      assert s.txs[i.tx].opener == ByInit(id);
    }
    hide InitOwnership, SetupOwnership, Registration;
  }

  lemma NextInv(s: State, step: Step)
    requires Inv(s) && Enabled(s, step)
    ensures Inv(Next(s, step))
  {
    NextExclusive(s, step);
    NextRegistration(s, step);
    NextSetupOwnership(s, step);
    NextInitOwnership(s, step);
    NextAnswers(s, step);
    hide Next, Exclusive, Registration, SetupOwnership, InitOwnership, Answers;
  }

  /** Ownership, exclusion and exactly-once answers hold in every run, abandoned setups included. */
  lemma {:induction false} RunKeepsInv(s: State, steps: seq<Step>)
    requires Inv(s)
    ensures Run(s, steps).Some? ==> Inv(Run(s, steps).value)
    decreases |steps|
  {
    hide Inv, Next, Enabled;
    if steps != [] && Enabled(s, steps[0]) {
      NextInv(s, steps[0]);
      RunKeepsInv(Next(s, steps[0]), steps[1..]);
    }
  }

  /**
   * What the invariant gives a reader: in every reachable state each transaction was finished at most once and by
   * its opener alone, it is unfinished exactly while its opener is at work on it, and an initialization that
   * borrowed a transaction and failed leaves a setup that can only end, and be undone, as failed.
   */
  lemma OwnershipInEveryRun(steps: seq<Step>)
    requires Run(START, steps).Some?
    ensures var s := Run(START, steps).value;
            && (forall k | 0 <= k < |s.txs| ::
                  |s.txs[k].ends| <= 1 && (forall e <- s.txs[k].ends :: e.who == s.txs[k].opener))
            && (forall k | 0 <= k < |s.txs| && s.txs[k].opener.ByRunner? :: s.txs[k].ends == [] <==> Owns(s, k))
            && (forall id | id in s.inits && s.inits[id].Left? && s.inits[id].borrowed && !s.inits[id].ok ::
                  var k := s.inits[id].tx;
                  k < |s.txs| && (Owns(s, k) ==> s.runner == Answered(k, false)) &&
                      (forall e <- s.txs[k].ends :: !e.ok))
  {
    RunKeepsInv(START, steps);
  }

  /** The check whether the device is already initializing never fails: the mutex rules it out. */
  lemma NeverAlreadyInitializing(steps: seq<Step>, id: nat)
    requires Run(START, steps).Some? && Enabled(Run(START, steps).value, Begin(id))
    ensures !Run(START, steps).value.initializing
  {
    RunKeepsInv(START, steps);
  }

  // ---------- how the work ended ----------

  /** The initialization has worked, and what it holds is how that ended. */
  predicate Holds(i: Init, ok: bool) {
    match i
    case Sending(_, o) => o == ok
    case Closing(_, _, o) => o == ok
    case Left(_, borrowed, o) => if borrowed then o == ok else o ==> ok
    case _ => false
  }

  predicate Worked(i: Init) {
    i.Sending? || i.Closing? || i.Left?
  }

  /** Each initialization that is past its work worked once, and holds the outcome of that step. */
  ghost predicate Truthful(s: State, steps: seq<Step>) {
    && (forall id, ok | Work(id, ok) in steps :: id in s.inits && Holds(s.inits[id], ok))
    && (forall id | id in s.inits && Worked(s.inits[id]) :: exists ok :: Work(id, ok) in steps)
  }

  /** A registered transaction that has had no answer can only fail, and an answer was some initialization's. */
  ghost predicate Unanswered(s: State) {
    && (s.waiter.Some? ==>
          && s.waiter.value < |s.txs| && (forall e <- s.txs[s.waiter.value].ends :: !e.ok)
          && (Owns(s, s.waiter.value) ==> s.runner.Registered? || s.runner.Waiting? || s.runner.Abandoned?))
    && (s.runner.Answered? ==>
          exists id :: id in s.inits && HasAnswered(s.inits[id]) && s.inits[id].tx == s.runner.tx &&
              s.inits[id].ok == s.runner.ok)
  }

  lemma NextTruthful(s: State, steps: seq<Step>, step: Step)
    requires Exclusive(s) && Truthful(s, steps) && Enabled(s, step)
    ensures Truthful(Next(s, step), steps + [step])
  {
    var s', after := Next(s, step), steps + [step];
    forall id, ok | Work(id, ok) in after ensures id in s'.inits && Holds(s'.inits[id], ok) {
      if Work(id, ok) in steps {
        assert id in s.inits && Holds(s.inits[id], ok);
      }
    }
    forall id | id in s'.inits && Worked(s'.inits[id]) ensures exists ok :: Work(id, ok) in after {
      if id in s.inits && Worked(s.inits[id]) {
        var ok :| Work(id, ok) in steps;
        assert Work(id, ok) in after;
      } else {
        assert step.Work? && step.id == id;
        assert Work(id, step.ok) in after;
      }
    }
  }

  lemma NextUnanswered(s: State, step: Step)
    requires Inv(s) && Unanswered(s) && Enabled(s, step)
    ensures Unanswered(Next(s, step))
  {
    hide InitOwnership, Answers;
    var s' := Next(s, step);
    if s'.runner.Answered? {
      if step.Send? {
        assert HasAnswered(s'.inits[step.id]);
      } else {
        var id :| id in s.inits && HasAnswered(s.inits[id]) && s.inits[id].tx == s.runner.tx &&
            s.inits[id].ok == s.runner.ok;
        assert HasAnswered(s'.inits[id]) && s'.inits[id].tx == s.runner.tx && s'.inits[id].ok == s.runner.ok;
      }
    }
  }

  lemma {:induction false} RunIsTruthful(steps: seq<Step>)
    requires Run(START, steps).Some?
    ensures var s := Run(START, steps).value;
            Inv(s) && Truthful(s, steps) && Unanswered(s)
    decreases |steps|
  {
    hide Next, Enabled, Inv, Truthful, Unanswered;
    if steps == [] {
      StartIsTruthful();
    } else {
      var front, last := steps[..|steps| - 1], steps[|steps| - 1];
      assert steps == front + [last];
      RunAppend(START, front, last);
      RunIsTruthful(front);
      var s := Run(START, front).value;
      NextInv(s, last);
      assert Truthful(Next(s, last), steps) by {
        InvIsExclusive(s);
        NextTruthful(s, front, last);
      }
      NextUnanswered(s, last);
    }
  }

  lemma InvIsExclusive(s: State)
    requires Inv(s)
    ensures Exclusive(s)
  {
    hide Exclusive, SetupOwnership, InitOwnership, Registration, Answers;
  }

  lemma StartIsTruthful()
    ensures Inv(START) && Truthful(START, []) && Unanswered(START)
  {
  }

  lemma {:induction false} RunAppend(s: State, steps: seq<Step>, step: Step)
    ensures var before := Run(s, steps);
            Run(s, steps + [step]) ==
              if before.Some? && Enabled(before.value, step) then Some(Next(before.value, step)) else None
    decreases |steps|
  {
    hide Next, Enabled;
    if steps == [] {
      assert [] + [step] == [step] && [step][1..] == [];
    } else {
      assert (steps + [step])[1..] == steps[1..] + [step];
      if Enabled(s, steps[0]) {
        RunAppend(Next(s, steps[0]), steps[1..], step);
      }
    }
  }

  /**
   * What an initialization did is what becomes of the transaction it did it on. On a borrowed one: a failure leaves the
   * setup only failing ends, a success answered in time is its waiter's until that finishes. On its own: it is
   * committed only after a success. And whenever a waiter has an answer, some initialization's work ended that way.
   */
  lemma AnswersAreTrue(steps: seq<Step>)
    requires Run(START, steps).Some?
    ensures var s := Run(START, steps).value;
            && (forall id | id in s.inits && HasAnswered(s.inits[id]) :: Work(id, s.inits[id].ok) in steps)
            && (forall id | Work(id, false) in steps && id in s.inits && Borrows(s.inits[id]) ::
                  s.inits[id].tx < |s.txs| && forall e <- s.txs[s.inits[id].tx].ends :: !e.ok)
            && (forall id | Work(id, true) in steps && id in s.inits && HasAnswered(s.inits[id]) &&
                  Owns(s, s.inits[id].tx) ::
                  s.runner == Answered(s.inits[id].tx, true))
            && (forall k | 0 <= k < |s.txs| && s.txs[k].opener.ByInit? ::
                  forall e <- s.txs[k].ends :: e.ok ==> Work(s.txs[k].opener.id, true) in steps)
            && (s.runner.Answered? ==>
                  exists id ::
                    && id in s.inits && HasAnswered(s.inits[id]) && s.inits[id].tx == s.runner.tx
                    && Work(id, s.runner.ok) in steps)
  {
    RunIsTruthful(steps);
    var s := Run(START, steps).value;
    hide Run, Exclusive, SetupOwnership;
    forall id | id in s.inits && HasAnswered(s.inits[id]) ensures Work(id, s.inits[id].ok) in steps {
      var ok :| Work(id, ok) in steps;
      assert Holds(s.inits[id], ok);
    }
    forall id | Work(id, false) in steps && id in s.inits && Borrows(s.inits[id])
      ensures s.inits[id].tx < |s.txs| && forall e <- s.txs[s.inits[id].tx].ends :: !e.ok
    {
      FailureIsFinal(s, steps, id);
    }
    forall k | 0 <= k < |s.txs| && s.txs[k].opener.ByInit?
      ensures forall e <- s.txs[k].ends :: e.ok ==> Work(s.txs[k].opener.id, true) in steps
    {
      var id := s.txs[k].opener.id;
      if s.inits[id].Left? {
        var ok :| Work(id, ok) in steps;
        assert Holds(s.inits[id], ok);
      }
    }
  }

  lemma FailureIsFinal(s: State, steps: seq<Step>, id: nat)
    requires Inv(s) && Truthful(s, steps) && Unanswered(s)
    requires Work(id, false) in steps && id in s.inits && Borrows(s.inits[id])
    ensures s.inits[id].tx < |s.txs| && forall e <- s.txs[s.inits[id].tx].ends :: !e.ok
  {
    assert Holds(s.inits[id], false);
    if s.inits[id].Sending? {
      assert s.holder == Some(id);
    } else {
      assert HasAnswered(s.inits[id]);
    }
  }

  // ---------- abandoned setups ----------

  /** A setup gave up without an answer and its registration stayed behind. */
  predicate Stale(s: State) {
    s.waiter.Some? && !(s.runner == Registered(s.waiter.value) || s.runner == Waiting(s.waiter.value))
  }

  lemma NextStale(s: State, step: Step)
    requires Inv(s) && Enabled(s, step)
    ensures Stale(Next(s, step)) <==> Stale(s) || step.Abandon?
  {
  }

  /** The registration outlives its setup exactly in the runs in which some setup was abandoned. */
  lemma {:induction false} StaleIffAbandoned(s: State, steps: seq<Step>)
    requires Inv(s) && Run(s, steps).Some?
    ensures Stale(Run(s, steps).value) <==> Stale(s) || Abandon in steps
    decreases |steps|
  {
    hide Inv, Next, Enabled, Stale;
    if steps != [] {
      NextInv(s, steps[0]);
      NextStale(s, steps[0]);
      StaleIffAbandoned(Next(s, steps[0]), steps[1..]);
      assert steps == [steps[0]] + steps[1..];
    }
  }

  /**
   * The handover works exactly while no setup has been abandoned: until then a registration is never refused and
   * an initialization that runs on it finds its waiter; afterwards every later registration is refused, and an
   * initialization that gets to its answer blocks for good, inside the mutex.
   */
  lemma HandoverWorksUnlessAbandoned(steps: seq<Step>, step: Step)
    requires Run(START, steps).Some? && Enabled(Run(START, steps).value, step)
    ensures var s, s' := Run(START, steps).value, Next(Run(START, steps).value, step);
            && (Abandon !in steps ==>
                  && (step.Register? ==> s'.runner.Registered?)
                  && (forall id | InitAt(s, id) && s.inits[id].Sending? ::
                        s.runner == Registered(s.inits[id].tx) || s.runner == Waiting(s.inits[id].tx)))
            && (Abandon in steps ==>
                  && (step.Register? ==> s'.runner.Refused?)
                  && !step.Send?
                  && (forall id | InitAt(s, id) && s.inits[id].Sending? ::
                        InitAt(s', id) && s'.inits[id] == s.inits[id]))
  {
    RunKeepsInv(START, steps);
    StaleIffAbandoned(START, steps);
  }

  // ---------- registrations that never return ----------

  /** The mutex is held by an initialization that will find its waiter gone. */
  predicate Hung(s: State) {
    Stale(s) && s.holder.Some?
  }

  /** It comes about when a setup gives up during its initialization, or by an initialization after one gave up. */
  lemma NextHung(s: State, step: Step)
    requires Inv(s) && Enabled(s, step)
    ensures Hung(Next(s, step)) <==> Hung(s) || (step.Abandon? && s.holder.Some?) || (step.Lock? && Stale(s))
  {
  }

  lemma HungStays(s: State, step: Step)
    requires Inv(s) && Hung(s) && Enabled(s, step)
    ensures var s' := Next(s, step);
            && Hung(s') && s'.holder == s.holder && s'.waiter == s.waiter
            && !step.Register? && !step.Lock? && !step.Send? && !step.Close?
            && (s.runner.Ready? ==> s'.runner == s.runner)
  {
  }

  /** From then on the mutex is never free again: no registration returns, and no initialization begins or ends. */
  lemma {:induction false} HungForGood(s: State, steps: seq<Step>)
    requires Inv(s) && Hung(s) && Run(s, steps).Some?
    ensures var s' := Run(s, steps).value;
            && Hung(s') && s'.holder == s.holder && (s.runner.Ready? ==> s'.runner == s.runner)
            && (forall step <- steps :: !step.Register? && !step.Lock? && !step.Send? && !step.Close?)
    decreases |steps|
  {
    hide Inv, Next, Enabled, Hung;
    if steps != [] {
      NextInv(s, steps[0]);
      HungStays(s, steps[0]);
      HungForGood(Next(s, steps[0]), steps[1..]);
      assert steps == [steps[0]] + steps[1..];
    }
  }

  /** Otherwise the holder of the mutex, left to run, lets the registration through within three steps. */
  lemma RegistrationComes(s: State) returns (steps: seq<Step>)
    requires Inv(s) && s.runner.Ready? && !Hung(s)
    ensures |steps| <= 3 && Run(s, steps + [Register]).Some?
  {
    hide SetupOwnership, InitOwnership, Answers;
    steps := [];
    if s.holder.Some? {
      var id := s.holder.value;
      match s.inits[id]
      case Locked(_, _) => steps := [Begin(id), Work(id, false), Close(id, false)];
        LockedComesOut(s, id);
      case Running(_, _) => steps := [Work(id, false), Close(id, false)];
        RunningComesOut(s, id);
      case Closing(_, _, _) => steps := [Close(id, false)];
        ClosingComesOut(s, id);
    } else {
      assert ([] + [Register])[1..] == [];
    }
  }

  lemma ClosingComesOut(s: State, id: nat)
    requires InitAt(s, id) && s.inits[id].Closing? && s.runner.Ready?
    ensures Run(s, [Close(id, false)] + [Register]).Some?
  {
    assert ([Close(id, false)] + [Register])[1..] == [Register] && [Register][1..] == [];
    assert Enabled(s, Close(id, false)) && Enabled(Next(s, Close(id, false)), Register);
  }

  lemma RunningComesOut(s: State, id: nat)
    requires InitAt(s, id) && s.inits[id].Running? && s.waiter.None? && s.runner.Ready?
    ensures Run(s, [Work(id, false), Close(id, false)] + [Register]).Some?
  {
    var steps := [Work(id, false), Close(id, false)] + [Register];
    assert steps[1..] == [Close(id, false)] + [Register] && Enabled(s, steps[0]);
    ClosingComesOut(Next(s, steps[0]), id);
  }

  lemma LockedComesOut(s: State, id: nat)
    requires InitAt(s, id) && s.inits[id].Locked? && s.waiter.None? && s.runner.Ready? && !s.initializing
    ensures Run(s, [Begin(id), Work(id, false), Close(id, false)] + [Register]).Some?
  {
    var steps := [Begin(id), Work(id, false), Close(id, false)] + [Register];
    assert steps[1..] == [Work(id, false), Close(id, false)] + [Register] && Enabled(s, steps[0]);
    RunningComesOut(Next(s, steps[0]), id);
  }

  /**
   * A first setup that is about to register hangs for good, and with it the state service, exactly if an earlier one
   * gave up and an initialization holds the mutex.
   */
  lemma RegistrationHangsIff(steps: seq<Step>)
    requires Run(START, steps).Some? && Run(START, steps).value.runner.Ready?
    ensures var s := Run(START, steps).value;
            Hung(s) <==> forall more: seq<Step> :: Run(s, more).Some? ==> Register !in more
  {
    RunKeepsInv(START, steps);
    var s := Run(START, steps).value;
    hide Inv, Hung;
    if Hung(s) {
      forall more: seq<Step> | Run(s, more).Some? ensures Register !in more {
        HungForGood(s, more);
      }
    } else {
      var more := RegistrationComes(s);
      assert Run(s, more + [Register]).Some? && Register in more + [Register];
    }
  }

  // ---------- initializations that outlive their setup ----------

  /** The initialization is at work on a transaction that its opener has finished already. */
  predicate Late(s: State, id: nat) {
    InitAt(s, id) && s.inits[id].Running? && s.inits[id].tx < |s.txs| && s.txs[s.inits[id].tx].ends != []
  }

  /** That is exactly an initialization whose setup is gone, and it takes a setup that gave up. */
  lemma LateIff(steps: seq<Step>, id: nat)
    requires Run(START, steps).Some?
    requires InitAt(Run(START, steps).value, id) && Run(START, steps).value.inits[id].Running?
    ensures var s := Run(START, steps).value;
            && (Late(s, id) <==> s.inits[id].borrowed && !Owns(s, s.inits[id].tx))
            && (Late(s, id) ==> Abandon in steps)
  {
    RunKeepsInv(START, steps);
    StaleIffAbandoned(START, steps);
    var s := Run(START, steps).value;
    hide Run, Answers;
    assert Independent(s.inits[id]) <==> !s.inits[id].borrowed;
  }
}
