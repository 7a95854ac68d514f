/** What the managing agent's run over its list of agents guarantees. */
module ManagerProperties {
  import opened Outcomes
  import opened BasicAgents
  import opened AgentTraits
  import opened Environment
  import Arch = AgentArchitect
  import Dev = AgentBackend
  import ArchProps = ArchitectProperties
  import DevProps = BackendProperties
  import opened AgentsManager

  /** A completed run leaves every agent from `i` on `Finished` and those before it as they were. */
  lemma {:induction false} CompletedRunFinishesEveryAgent(agents: seq<AgentView>, i: nat, facts: Facts, w: World)
    requires i <= |agents|
    requires forall j :: i <= j < |agents| ==> agents[j].Ready()
    decreases |agents| - i
    ensures var r := RunFrom(agents, i, facts, w);
      r.Done? ==>
        && r.config.agents[..i] == agents[..i]
        && forall j :: i <= j < |agents| ==> r.config.agents[j].state == Finished
  {
    if i < |agents| {
      var t := RunAgent(agents[i], facts, w);
      if t.Done? {
        var next := agents[i := t.config.agent];
        CompletedRunFinishesEveryAgent(next, i + 1, t.config.facts, w);
        assert next[..i] == agents[..i];
      }
    }
  }

  /** `result` is `agents` after a run from `i` that stopped at agent `k`: the agents from `i`
      to `k` finished, the role of `k` is kept, and no other agent changed. */
  ghost predicate StoppedAt(agents: seq<AgentView>, result: seq<AgentView>, i: nat, k: nat) {
    && i <= k < |agents| == |result|
    && (forall j :: 0 <= j < i || k < j < |agents| ==> result[j] == agents[j])
    && (forall j :: i <= j < k ==> result[j].state == Finished)
    && result[k].ArchitectView? == agents[k].ArchitectView?
  }

  /** An aborted run stopped at one agent: the reason is that agent's, and no agent after it
      (nor before `i`) was run. */
  lemma {:induction false} AbortStopsTheRun(agents: seq<AgentView>, i: nat, facts: Facts, w: World)
    requires i <= |agents|
    requires forall j :: i <= j < |agents| ==> agents[j].Ready()
    decreases |agents| - i
    ensures var r := RunFrom(agents, i, facts, w);
      r.Abort? ==> exists k :: StoppedAt(agents, r.config.agents, i, k)
  {
    if i < |agents| {
      var t := RunAgent(agents[i], facts, w);
      var next := agents[i := t.config.agent];
      if t.Abort? {
        assert StoppedAt(agents, next, i, i);
      } else {
        AbortStopsTheRun(next, i + 1, t.config.facts, w);
        var r := RunFrom(next, i + 1, t.config.facts, w);
        if r.Abort? {
          var k :| StoppedAt(next, r.config.agents, i + 1, k);
          StoppedEarlier(agents, next, r.config.agents, i, k);
        }
      }
    }
  }

  /** One finished agent at `i` followed by a run from `i + 1` that stopped at `k`. */
  lemma StoppedEarlier(agents: seq<AgentView>, next: seq<AgentView>, result: seq<AgentView>, i: nat, k: nat)
    requires i < |agents| == |next| && next[i].state == Finished
    requires forall j :: 0 <= j < |agents| && j != i ==> next[j] == agents[j]
    requires StoppedAt(next, result, i + 1, k)
    ensures StoppedAt(agents, result, i, k)
  {
  }

  /** The team `create_agent` builds runs the architect first on the manager's fact sheet, and
      the developer only once the architect completed, on the fact sheet it left. */
  lemma CreatedTeamRunsInOrder(facts: Facts, w: World)
    ensures var a := Arch.ArchitectRun(Arch.ArchConfig(Discovery, facts), w);
      var r := RunFrom(NewTeam, 0, facts, w);
      && (a.Abort? ==> r.Abort? && r.reason == a.reason && r.config.facts == a.config.facts
                       && r.config.agents == [ArchitectView(a.config.state), DeveloperView(Discovery, 0, None)])
      && (a.Done? ==> var d := Dev.DevRun(Dev.DevConfig(Discovery, 0, None, a.config.facts, 0), w);
                      && r.config.facts == d.config.facts
                      && r.config.agents == [ArchitectView(Finished), DeveloperView(d.config.state, d.config.bugCount, d.config.bugErrors)]
                      && r.Done? == d.Done?
                      && (d.Abort? ==> r.Abort? && r.reason == d.reason))
  {
  }

  /** A completed project keeps the description, has the architect's scope on its fact sheet,
      and has every stored route checked with 200 on the running server. */
  lemma {:induction false} CompletedProjectIsChecked(facts: Facts, w: World)
    ensures var r := RunFrom(NewTeam, 0, facts, w);
      r.Done? ==>
        && r.config.facts.projectDescription == facts.projectDescription
        && r.config.facts.projectScope.Some?
        && r.config.facts.apiEndpointsSchema.Some?
        && r.config.agents[0] == ArchitectView(Finished)
        && r.config.agents[1].DeveloperView? && r.config.agents[1].state == Finished
        && r.config.agents[1].bugCount == 0
        && forall e :: e in r.config.facts.apiEndpointsSchema.value ==>
             Dev.IsCheckable(e) && w.status(Dev.ServerAddress + e.route) == Status(200)
  {
    CreatedTeamRunsInOrder(facts, w);
    ArchProps.RunFromDiscovery(facts, w);
    var a := Arch.ArchitectRun(Arch.ArchConfig(Discovery, facts), w);
    if a.Done? {
      var c := Dev.DevConfig(Discovery, 0, None, a.config.facts, 0);
      DevProps.RunKeepsArchitectFacts(c, w);
      DevProps.CompletedRunCheckedEveryRoute(c, w);
    }
  }
}
