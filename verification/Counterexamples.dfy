/**
 * Concrete inputs on which a property one might expect of the program fails; the exact conditions are proved beside
 * each property.
 */
module Counterexamples {
  import opened Common
  import opened Configs
  import opened Transitions
  import opened Devices
  import Handlers
  import Engine
  import Steps
  import Safety
  import Checkpoints
  import Calls
  import Runs
  import SyncHosts
  import EnvReset
  import Discovery
  import Text

  // ---------- failed commands that are not undone ----------

  const ONLINE := Device(
    Core(Active, BLANK.(state := Some(Active)), ALWAYS_ON + {AgentReset, RebuildServices}, true), [], 0, {}, false)

  /** A customer device on which the calls with the given numbers fail. */
  function Failing(calls: set<nat>): Sys {
    Sys(CPE, "", "", BLANK.(app := Some(App("", [], "", "")), port := Some(Ports([], []))), port => true,
        Checkpoints.FailingAt(calls), n => NoAnswer)
  }

  lemma OnlineRests(calls: set<nat>)
    ensures Assumed(Failing(calls)) && Steps.Resting(Failing(calls), ONLINE)
  {
    assert SetOf(ACTIVE_SUBJECTS) == {AgentReset, RebuildServices};
  }

  /**
   * An update of the agent succeeds, call 10 and with it the return to active fails, and the device stays in
   * maintenance.
   */
  lemma FailedUpdateStrands()
    ensures var sys, t := Failing({10}), OnUpdateDevice([Handlers.AGENT_PACKAGE]);
            var r := Engine.Serve(sys, ONLINE, t);
            && Steps.Resting(sys, ONLINE) && IsCommand(t)
            && r.Failed? && r.dev.core != ONLINE.core && Steps.Stranded(r.dev)
  {
    hide Engine.Serve, Safety.Ran, Steps.Resting, Steps.Steady, Assumed, Marked;
    var sys, d, t := Failing({10}), ONLINE, OnUpdateDevice([Handlers.AGENT_PACKAGE]);
    OnlineRests({10});
    assert Checkpoints.UpdateCalls(t.packages) == 4 by {
      assert t.packages[0] == Handlers.AGENT_PACKAGE;
      Calls.NamesDiffer();
    }
    assert Handlers.AGENT_PACKAGE == t.packages[0];
    hide Handlers.AGENT_PACKAGE, Handlers.UPDATE_MANAGER_PACKAGE;
    Checkpoints.FatalCallsAreFatal(sys, d, t);
    Safety.FailedCommandIsUndone(sys, d, t);
    Safety.ServeComesToRest(sys, d, t);
    assert Engine.Serve(sys, d, t).dev.core.runtime == Maintenance;
    if Steps.Resting(sys, Engine.Serve(sys, d, t).dev) {
      Runs.RestingMeans(sys, Engine.Serve(sys, d, t).dev);
    }
  }

  /**
   * The database of a resetting device cannot be closed, nor its checkpoint deleted: it stays in reset without its
   * configuration.
   */
  lemma FailedResetStays()
    ensures var sys := Failing({14, 15});
            var r := Engine.Serve(sys, ONLINE, OnReset);
            && Steps.Resting(sys, ONLINE)
            && r.Failed? && r.dev.core != ONLINE.core && r.dev.core.runtime == Reset && Serial(r.dev.core.cfg) == ""
  {
    hide Engine.Serve, Safety.Ran, Steps.Resting, Assumed, Marked;
    var sys, d := Failing({14, 15}), ONLINE;
    OnlineRests({14, 15});
    assert |ACTIVE_SUBJECTS| == 2;
    Checkpoints.FatalCallsAreFatal(sys, d, OnReset);
    Safety.FailedCommandIsUndone(sys, d, OnReset);
  }

  // ---------- a hosts file that grows with every run ----------

  /** The same host under both schemes is looked up twice. */
  lemma TwoSchemesGrowTheFile(content: string)
    ensures var name, ips := "a", ["10.0.0.1"];
            var pairs := [SyncHosts.HostPair(name, "10.0.0.1"), SyncHosts.HostPair(name, "10.0.0.1")];
            && SyncHosts.Resolve(["http://a", "https://a"], n => Some(ips)) == Some(pairs)
            && var once := SyncHosts.Synced(content, {name}, pairs);
            |SyncHosts.Synced(once, {name}, pairs)| == |once| + 1
  {
    hide SyncHosts.Synced;
    var pairs := [SyncHosts.HostPair("a", "10.0.0.1"), SyncHosts.HostPair("a", "10.0.0.1")];
    BothNamed();
    hide SyncHosts.HostName;
    assert ["http://a", "https://a"][1..] == ["https://a"] && ["https://a"][1..] == [];
    var pair := SyncHosts.PairsOf("a", ["10.0.0.1"]);
    assert pair == [SyncHosts.HostPair("a", "10.0.0.1")] && pair + [] == pair && pair + pair == pairs;
    assert !Distinct(pairs) by {
      assert pairs[0] == pairs[1];
    }
    SyncHosts.SyncIsIdempotentIff(content, {"a"}, pairs);
  }

  lemma BothNamed()
    ensures SyncHosts.HostName("http://a") == "a" && SyncHosts.HostName("https://a") == "a"
  {
    SyncHosts.HostNameDropsTheScheme("a");
    assert "http://" + "a" == "http://a" && "https://" + "a" == "https://a";
  }

  // ---------- an environment file that changes twice ----------

  lemma DoubleCarriageReturn()
    ensures EnvReset.Rewrite(EnvReset.Rewrite("A\r\r\n")) != EnvReset.Rewrite("A\r\r\n")
  {
    hide EnvReset.Rewrite, Text.Lines;
    ItsLines();
    ReturnIsKept();
    EnvReset.RewriteIsIdempotentIff("A\r\r\n");
    assert ["A\r"][0] in ["A\r"];
  }

  lemma ItsLines()
    ensures Text.Lines("A\r\r\n") == ["A\r"]
  {
    hide Text.Lines, Text.DropCRs;
    var line := "A\r\r";
    assert [line][1..] == [] && line + "\n" + "" == "A\r\r\n";
    assert Text.Unlines([line]) == "A\r\r\n";
    hide Text.Unlines;
    Text.LinesOfUnlines([line]);
    assert line[..2] == "A\r" && Text.DropCR(line) == "A\r";
  }

  lemma ReturnIsKept()
    ensures EnvReset.Untargeted(["A\r"]) == ["A\r"] && Text.EndsInCR("A\r")
  {
    assert EnvReset.Key("A\r") == None;
    hide EnvReset.Key;
    assert ["A\r"][1..] == [] && EnvReset.Untargeted([]) == [];
  }

  // ---------- a discovery that depends on the order of answers ----------

  lemma NamelessPrimary()
    ensures var n, e := Discovery.Result("a", true, false), Discovery.Result("", true, false);
            Discovery.Scan([e, n], "") == Discovery.Primary("a") && Discovery.Scan([n, e], "") == Discovery.SplitBrain
  {
    var n, e := Discovery.Result("a", true, false), Discovery.Result("", true, false);
    assert [e, n][1..] == [n] && [n][1..] == [] && [n, e][1..] == [e];
    assert Discovery.Scan([], "a") == Discovery.Primary("a") && Discovery.Scan([n], "") == Discovery.Scan([], "a");
    assert Discovery.Scan([e], "a") == Discovery.SplitBrain;
  }
}
