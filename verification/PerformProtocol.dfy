/**
 * Perform and Run over rendezvous channels: any number of callers offer requests, one server loop accepts them,
 * works in small steps, and answers each on the request's own channel. Every interleaving is a run of Next.
 */
module PerformProtocol {
  import opened Common
  import opened Configs
  import opened Transitions
  import opened Devices
  import opened Engine
  import opened Safety

  /**
   * One call of Perform: blocked on the transition channel, blocked on its own channel, or returned with its channel
   * closed.
   */
  datatype Call = Offering(t: Transition) | Awaiting | Returned(ok: bool)

  /** Where the server loop stands. Hung: a first setup whose registration never returns; FirstInit says when. */
  datatype Server =
    | Idle
    | Accepted(id: nat, t: Transition)
    | Working(id: nat, t: Transition)
    | Ending(id: nat, ran: Out)
    | Replying(id: nat, ok: bool)
    | Hung(id: nat, t: Transition)
    | Dead

  /** ids and ts record the accepted requests, answered and oks the replies sent, both in order. */
  datatype State = State(
    dev: Device, server: Server, calls: map<nat, Call>,
    ids: seq<nat>, ts: seq<Transition>, answered: seq<nat>, oks: seq<bool>)

  datatype Step = Offer(id: nat, t: Transition) | Accept(id: nat) | Begin | Work | Hang | End | Reply

  /** A step of the server on the request in progress. */
  function ServerStep(sys: Sys, s: State): State {
    match s.server
    case Accepted(id, t) =>
      (match Ask(sys, s.dev.(log := []))
       case Done(d, _) => s.(dev := d, server := Working(id, t))
       case Failed(d) => s.(dev := d, server := Replying(id, false))
       case Crashed(d) => s.(dev := d, server := Dead))
    case Working(id, t) =>
      var r := PerformTransition(sys, s.dev, t);
      if r.Crashed? then s.(dev := r.dev, server := Dead)
      else if r.Done? && r.next.Some? then s.(dev := r.dev, server := Working(id, r.next.value))
      else s.(dev := r.dev, server := Ending(id, r))
    case Ending(id, ran) =>
      var r := Finish(sys, ran);
      s.(dev := r.dev, server := if r.Crashed? then Dead else Replying(id, r.Done?))
    case _ => s
  }

  /** Is the step possible? A rendezvous needs both sides at their end of the channel. */
  predicate Enabled(s: State, step: Step) {
    match step
    case Offer(id, t) => id !in s.calls && IsCommand(t)
    case Accept(id) => s.server.Idle? && id in s.calls && s.calls[id].Offering?
    case Begin => s.server.Accepted?
    case Work => s.server.Working?
    case Hang => s.server.Working? && s.server.t.OnFirstSetup?
    case End => s.server.Ending?
    case Reply => s.server.Replying? && s.server.id in s.calls && s.calls[s.server.id].Awaiting?
  }

  function Next(sys: Sys, s: State, step: Step): State
    requires Enabled(s, step)
  {
    match step
    case Offer(id, t) => s.(calls := s.calls[id := Offering(t)])
    case Accept(id) =>
      var t := s.calls[id].t;
      s.(server := Accepted(id, t), calls := s.calls[id := Awaiting], ids := s.ids + [id], ts := s.ts + [t])
    case Reply =>
      var id, ok := s.server.id, s.server.ok;
      s.(server := Idle, calls := s.calls[id := Returned(ok)], answered := s.answered + [id], oks := s.oks + [ok])
    case Hang => s.(server := Hung(s.server.id, s.server.t))
    case _ => ServerStep(sys, s)
  }

  function Start(d: Device): State {
    State(d, Idle, map[], [], [], [], [])
  }

  ghost predicate IsPath(sys: Sys, run: seq<State>, steps: seq<Step>) {
    && |run| == |steps| + 1
    && forall i | 0 <= i < |steps| :: Enabled(run[i], steps[i]) && run[i + 1] == Next(sys, run[i], steps[i])
  }

  ghost predicate IsRun(sys: Sys, d: Device, run: seq<State>, steps: seq<Step>) {
    IsPath(sys, run, steps) && run[0] == Start(d)
  }

  // ---------- callers and server ----------

  predicate Busy(s: State) {
    !s.server.Idle? && !s.server.Dead? && !s.server.Hung?
  }

  /** How many accepted requests are over. */
  function Past(s: State): nat {
    if s.server.Idle? || s.ids == [] then |s.ids| else |s.ids| - 1
  }

  /** One caller per accepted request; each is answered once, in the order of acceptance, while it waits. */
  ghost predicate Agreed(s: State) {
    && |s.ids| == |s.ts|
    && (!s.server.Idle? ==> s.ids != [])
    && (Busy(s) || s.server.Hung? ==> s.ids[|s.ids| - 1] == s.server.id)
    && s.answered == s.ids[..Past(s)] && |s.oks| == Past(s)
    && (forall i, j | 0 <= i < j < |s.ids| :: s.ids[i] != s.ids[j])
    && (forall id | id in s.calls && s.calls[id].Offering? :: id !in s.ids)
    && (forall id <- s.ids :: id in s.calls)
    && (forall i | 0 <= i < Past(s) :: s.calls[s.ids[i]] == Returned(s.oks[i]))
    && (!s.server.Idle? ==> s.calls[s.ids[|s.ids| - 1]] == Awaiting)
    && (forall id | id in s.calls && !s.calls[id].Offering? :: id in s.ids)
  }

  lemma ServerStepFrame(sys: Sys, s: State)
    requires s.server.Accepted? || s.server.Working? || s.server.Ending?
    ensures var s' := ServerStep(sys, s);
            && s' == s.(dev := s'.dev, server := s'.server)
            && !s'.server.Idle? && (!s'.server.Dead? ==> s'.server.id == s.server.id)
  {
    hide PerformTransition, Finish, Ask;
  }

  lemma OfferAgrees(sys: Sys, s: State, id: nat, t: Transition)
    requires Agreed(s) && Enabled(s, Offer(id, t))
    ensures Agreed(Next(sys, s, Offer(id, t)))
  {
    assert id !in s.ids;
  }

  lemma AcceptAgrees(sys: Sys, s: State, id: nat)
    requires Agreed(s) && Enabled(s, Accept(id))
    ensures Agreed(Next(sys, s, Accept(id)))
  {
    var s' := Next(sys, s, Accept(id));
    assert s'.ids[..|s.ids|] == s.ids == s.ids[..Past(s)];
  }

  lemma ReplyAgrees(sys: Sys, s: State)
    requires Agreed(s) && Enabled(s, Reply)
    ensures Agreed(Next(sys, s, Reply))
  {
    var s' := Next(sys, s, Reply);
    assert s'.ids[..|s.ids|] == s.ids[..|s.ids| - 1] + [s.server.id];
  }

  lemma WorkAgrees(sys: Sys, s: State)
    requires Agreed(s) && (s.server.Accepted? || s.server.Working? || s.server.Ending?)
    ensures Agreed(ServerStep(sys, s))
  {
    hide ServerStep;
    ServerStepFrame(sys, s);
  }

  lemma HangAgrees(sys: Sys, s: State)
    requires Agreed(s) && Enabled(s, Hang)
    ensures Agreed(Next(sys, s, Hang))
  {
  }

  lemma NextAgrees(sys: Sys, s: State, step: Step)
    requires Agreed(s) && Enabled(s, step)
    ensures Agreed(Next(sys, s, step))
  {
    hide Agreed, ServerStep;
    match step
    case Offer(id, t) => OfferAgrees(sys, s, id, t);
    case Accept(id) => AcceptAgrees(sys, s, id);
    case Reply => ReplyAgrees(sys, s);
    case Hang => HangAgrees(sys, s);
    case _ => WorkAgrees(sys, s);
  }

  // ---------- sequential meaning ----------

  /** What is left of the request in progress, as an outcome of Serve. */
  function Rest(sys: Sys, s: State): Out
    requires Busy(s)
  {
    match s.server
    case Accepted(_, t) => Serve(sys, s.dev, t)
    case Working(_, t) => Finish(sys, Chain(sys, s.dev, t))
    case Ending(_, ran) => Finish(sys, ran)
    case Replying(_, ok) => if ok then Done(s.dev, None) else Failed(s.dev)
  }

  /**
   * The device is where serving the accepted requests one after the other puts it, and the replies are theirs;
   * the request in progress, if any, will end as if it were served in one piece.
   */
  ghost predicate Linear(sys: Sys, d: Device, s: State)
    requires |s.ids| == |s.ts|
  {
    var past := s.ts[..Past(s)];
    var before := ServeAll(sys, d, past);
    && !before.Crashed?
    && s.oks == Replies(sys, d, past)
    && (s.server.Idle? ==> s.dev == before.dev)
    && (!s.server.Idle? && !s.server.Hung? && s.ts != [] ==>
          Serve(sys, before.dev, s.ts[|s.ts| - 1]) == if s.server.Dead? then Crashed(s.dev) else Rest(sys, s))
  }

  lemma {:induction false} ServeOneMore(sys: Sys, d: Device, ts: seq<Transition>, t: Transition)
    requires !ServeAll(sys, d, ts).Crashed?
    ensures var before := ServeAll(sys, d, ts);
            var r := Serve(sys, before.dev, t);
            && ServeAll(sys, d, ts + [t]) == (if r.Crashed? then r else Done(r.dev, None))
            && Replies(sys, d, ts + [t]) == Replies(sys, d, ts) + (if r.Crashed? then [] else [r.Done?])
    decreases |ts|
  {
    hide Serve;
    if ts == [] {
      assert [t][1..] == [] && [] + [t] == [t];
    } else {
      assert (ts + [t])[1..] == ts[1..] + [t];
      ServeOneMore(sys, Serve(sys, d, ts[0]).dev, ts[1..], t);
    }
  }

  lemma ServerStepKeepsRest(sys: Sys, s: State)
    requires s.server.Accepted? || s.server.Working? || s.server.Ending?
    ensures var s' := ServerStep(sys, s);
            Rest(sys, s) == if s'.server.Dead? then Crashed(s'.dev) else Rest(sys, s')
  {
    hide PerformTransition;
    if s.server.Accepted? {
      ServeIsRanThenFinish(sys, s.dev, s.server.t);
      hide Finish, Chain;
    } else if s.server.Ending? {
      FinishShape(sys, s.server.ran);
      hide Finish;
    }
  }

  lemma FinishShape(sys: Sys, ran: Out)
    ensures Finish(sys, ran).Done? ==> Finish(sys, ran).next.None?
    ensures ran.Crashed? ==> Finish(sys, ran) == ran
  {
  }

  lemma AcceptIsLinear(sys: Sys, d: Device, s: State, id: nat)
    requires Agreed(s) && Linear(sys, d, s) && Enabled(s, Accept(id))
    ensures Linear(sys, d, Next(sys, s, Accept(id)))
  {
    hide Serve, ServeAll, Replies;
    assert s.ts[..|s.ts|] == s.ts;
    assert (s.ts + [s.calls[id].t])[..|s.ts|] == s.ts;
  }

  lemma ReplyIsLinear(sys: Sys, d: Device, s: State)
    requires Agreed(s) && Linear(sys, d, s) && Enabled(s, Reply)
    ensures var s' := Next(sys, s, Reply);
            |s'.ids| == |s'.ts| && Linear(sys, d, s')
  {
    hide Serve, ServeAll, Replies;
    var past, t := s.ts[..|s.ts| - 1], s.ts[|s.ts| - 1];
    assert s.ts[..|s.ts|] == past + [t];
    ServeOneMore(sys, d, past, t);
  }

  lemma WorkIsLinear(sys: Sys, d: Device, s: State)
    requires Agreed(s) && Linear(sys, d, s) && (s.server.Accepted? || s.server.Working? || s.server.Ending?)
    ensures var s' := ServerStep(sys, s);
            |s'.ids| == |s'.ts| && Linear(sys, d, s')
  {
    hide ServerStep, Rest, Serve, ServeAll, Replies;
    ServerStepFrame(sys, s);
    ServerStepKeepsRest(sys, s);
  }

  lemma OfferIsLinear(sys: Sys, d: Device, s: State, id: nat, t: Transition)
    requires Agreed(s) && Linear(sys, d, s) && Enabled(s, Offer(id, t))
    ensures Linear(sys, d, Next(sys, s, Offer(id, t)))
  {
    hide Serve, ServeAll, Replies;
  }

  lemma HangIsLinear(sys: Sys, d: Device, s: State)
    requires Agreed(s) && Linear(sys, d, s) && Enabled(s, Hang)
    ensures var s' := Next(sys, s, Hang);
            |s'.ids| == |s'.ts| && Linear(sys, d, s')
  {
    hide Rest, Serve, ServeAll, Replies;
  }

  lemma NextIsLinear(sys: Sys, d: Device, s: State, step: Step)
    requires Agreed(s) && Linear(sys, d, s) && Enabled(s, step)
    ensures Agreed(Next(sys, s, step)) && Linear(sys, d, Next(sys, s, step))
  {
    hide ServerStep, Linear, Agreed;
    NextAgrees(sys, s, step);
    match step
    case Offer(id, t) => OfferIsLinear(sys, d, s, id, t);
    case Accept(id) => AcceptIsLinear(sys, d, s, id);
    case Reply => ReplyIsLinear(sys, d, s);
    case Hang => HangIsLinear(sys, d, s);
    case _ => WorkIsLinear(sys, d, s);
  }

  /**
   * The protocol theorem, for any number of callers and any interleaving: at most one request is in progress,
   * every accepted request is answered exactly once, on its own channel, while its caller waits there, and the
   * device and the replies are those of serving the requests one by one in the order of acceptance, up to a first
   * setup that hangs.
   */
  lemma {:induction false} RunsAreSequential(sys: Sys, d: Device, run: seq<State>, steps: seq<Step>)
    requires IsRun(sys, d, run, steps)
    ensures Agreed(run[|steps|]) && Linear(sys, d, run[|steps|])
    decreases |steps|
  {
    hide Next, Agreed, Linear, Enabled;
    if steps == [] {
      StartIsLinear(sys, d);
    } else {
      var n := |steps| - 1;
      assert IsRun(sys, d, run[..n + 1], steps[..n]);
      RunsAreSequential(sys, d, run[..n + 1], steps[..n]);
      NextIsLinear(sys, d, run[n], steps[n]);
    }
  }

  lemma StartIsLinear(sys: Sys, d: Device)
    ensures Agreed(Start(d)) && Linear(sys, d, Start(d))
  {
  }

  // ---------- progress ----------

  predicate IsOwn(step: Step) {
    !step.Offer? && !step.Accept?
  }

  /** How many steps the server has left at most before it waits for the next request, hangs or is dead. */
  function Left(s: State): nat {
    match s.server
    case Accepted(_, _) => 6
    case Working(_, t) => 4 + Rank(t)
    case Ending(_, _) => 3
    case Replying(_, _) => 2
    case _ => 0
  }

  lemma StepsCount(sys: Sys, s: State, step: Step)
    requires Enabled(s, step) && !step.Accept?
    ensures var s' := Next(sys, s, step);
            if IsOwn(step) then Left(s') < Left(s) else Left(s') == Left(s)
  {
    hide PerformTransition, Finish, Ask;
  }

  /** The steps among these that the server takes. */
  function OwnSteps(steps: seq<Step>): nat {
    if steps == [] then 0 else (if IsOwn(steps[|steps| - 1]) then 1 else 0) + OwnSteps(steps[..|steps| - 1])
  }

  /**
   * From one acceptance to the next the server takes at most six steps, whatever callers do meanwhile. With
   * BusyServerMoves: it answers every accepted request, or the process dies, or a first setup hangs.
   */
  lemma {:induction false} AnswersWithinSixSteps(sys: Sys, run: seq<State>, steps: seq<Step>)
    requires IsPath(sys, run, steps) && forall step <- steps :: !step.Accept?
    ensures OwnSteps(steps) + Left(run[|steps|]) <= Left(run[0]) <= 6
    decreases |steps|
  {
    hide Next, Enabled, Left;
    if steps != [] {
      var n := |steps| - 1;
      assert steps[n] in steps && forall step <- steps[..n] :: step in steps;
      AnswersWithinSixSteps(sys, run[..n + 1], steps[..n]);
      StepsCount(sys, run[n], steps[n]);
    } else {
      SixAtMost(run[0]);
    }
  }

  lemma SixAtMost(s: State)
    ensures Left(s) <= 6
  {
  }

  /**
   * A server at work is never stuck and never sends on a closed channel: in every reachable state with a request in
   * progress it has a step to take, exactly unless a first setup hangs.
   */
  lemma BusyServerMoves(sys: Sys, d: Device, run: seq<State>, steps: seq<Step>)
    requires IsRun(sys, d, run, steps) && !run[|steps|].server.Idle? && !run[|steps|].server.Dead?
    ensures (exists step: Step :: IsOwn(step) && Enabled(run[|steps|], step)) <==> !run[|steps|].server.Hung?
    ensures run[|steps|].server.Hung? ==> run[|steps|].server.t.OnFirstSetup?
  {
    RunsAreSequential(sys, d, run, steps);
    HungInFirstSetup(sys, d, run, steps);
    var s := run[|steps|];
    if !s.server.Hung? {
      var step :=
        if s.server.Accepted? then Begin
        else if s.server.Working? then Work
        else if s.server.Ending? then End
        else Reply;
      assert IsOwn(step) && Enabled(s, step);
    }
  }

  lemma {:induction false} HungInFirstSetup(sys: Sys, d: Device, run: seq<State>, steps: seq<Step>)
    requires IsRun(sys, d, run, steps)
    ensures run[|steps|].server.Hung? ==> run[|steps|].server.t.OnFirstSetup?
    decreases |steps|
  {
    if steps != [] {
      var n := |steps| - 1;
      assert IsRun(sys, d, run[..n + 1], steps[..n]);
      HungInFirstSetup(sys, d, run[..n + 1], steps[..n]);
      NextHung(sys, run[n], steps[n]);
      hide Next, Enabled;
    }
  }

  lemma NextHung(sys: Sys, s: State, step: Step)
    requires Enabled(s, step) && (s.server.Hung? ==> s.server.t.OnFirstSetup?)
    ensures var s' := Next(sys, s, step);
            && (s'.server.Hung? ==> s'.server.t.OnFirstSetup?)
            && (s.server.Hung? ==> step.Offer? && s'.server == s.server && s'.oks == s.oks && s'.ids == s.ids)
  {
    hide PerformTransition, Finish, Ask;
  }

  /** Once a first setup hangs, no request is accepted or answered any more. */
  lemma {:induction false} HungAnswersNobody(sys: Sys, run: seq<State>, steps: seq<Step>)
    requires IsPath(sys, run, steps) && run[0].server.Hung? && run[0].server.t.OnFirstSetup?
    ensures var s := run[|steps|];
            s.server == run[0].server && s.oks == run[0].oks && s.ids == run[0].ids
    decreases |steps|
  {
    hide Next, Enabled;
    if steps != [] {
      var n := |steps| - 1;
      HungAnswersNobody(sys, run[..n + 1], steps[..n]);
      NextHung(sys, run[n], steps[n]);
    }
  }

  /** A caller's result: nil exactly when starting, running and finishing its transaction all succeeded. */
  lemma ReplyIsNilIff(sys: Sys, d: Device, run: seq<State>, steps: seq<Step>, i: nat)
    requires IsRun(sys, d, run, steps) && i < |run[|steps|].oks|
    ensures var s := run[|steps|];
            && i < |s.ids| == |s.ts| && s.ids[i] in s.calls
            && var before := ServeAll(sys, d, s.ts[..i]).dev;
            s.calls[s.ids[i]] == Returned(Ask(sys, before.(log := [])).Done? && Ran(sys, before, s.ts[i]).Done? &&
                                          Ask(sys, Ran(sys, before, s.ts[i]).dev).Done?)
  {
    RunsAreSequential(sys, d, run, steps);
    var s := run[|steps|];
    NilReply(sys, d, s.ts[..Past(s)], i);
    assert s.ts[..Past(s)][..i] == s.ts[..i];
  }

  lemma {:induction false} NilReply(sys: Sys, d: Device, ts: seq<Transition>, i: nat)
    ensures i < |Replies(sys, d, ts)| ==>
              i < |ts| &&
              var before := ServeAll(sys, d, ts[..i]).dev;
              Replies(sys, d, ts)[i] == (Ask(sys, before.(log := [])).Done? && Ran(sys, before, ts[i]).Done? &&
                                         Ask(sys, Ran(sys, before, ts[i]).dev).Done?)
    decreases |ts|
  {
    hide Serve, Ran;
    if ts != [] {
      ServeIsRanThenFinish(sys, d, ts[0]);
      if i > 0 && i < |Replies(sys, d, ts)| {
        NilReply(sys, Serve(sys, d, ts[0]).dev, ts[1..], i - 1);
        assert ts[..i][1..] == ts[1..][..i - 1];
      }
    }
  }
}
