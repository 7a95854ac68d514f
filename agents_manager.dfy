/** The managing agent: turns the user's request into a project description, then runs the
    architect and the backend developer, in that order, on the one fact sheet. */
module AgentsManager {
  import opened Outcomes
  import opened BasicAgents
  import opened AgentTraits
  import opened Environment
  import Arch = AgentArchitect
  import Dev = AgentBackend

  const Objective := "Manage agents who are building an excellent software product"
  const Position := "Project Manager"

  /** The state of one agent of the list, without the shared fact sheet. */
  datatype AgentView =
    | ArchitectView(state: AgentState)
    | DeveloperView(state: AgentState, bugCount: Dev.u8, bugErrors: Option<string>)
  {
    predicate Ready() {
      DeveloperView? ==> bugCount <= 2
    }
  }

  /** The list of agents and the fact sheet, at one moment. */
  datatype Team = Team(agents: seq<AgentView>, facts: Facts)

  /** One agent's turn: its view after `execute`, and the fact sheet it leaves. */
  datatype Turn = Turn(agent: AgentView, facts: Facts)

  /** The agents of the manager's list: the closed set of roles. */
  datatype Agent = Architect(architect: Arch.SolutionArchitect) | Developer(developer: Dev.BackendDeveloper)
  {
    ghost function Footprint(): set<object> {
      match this
      case Architect(a) => {a, a.attributes}
      case Developer(d) => {d, d.attributes}
    }

    function View(): AgentView
      reads Footprint()
    {
      match this
      case Architect(a) => ArchitectView(a.attributes.state)
      case Developer(d) => DeveloperView(d.attributes.state, d.bugCount, d.bugErrors)
    }
  }

  /** `agent.execute(&mut factsheet)` for either role. */
  function RunAgent(v: AgentView, facts: Facts, w: World): (r: Step<Turn>)
    requires v.Ready()
    ensures r.Done? ==> r.config.agent.Ready() && r.config.agent.state == Finished
    ensures r.config.agent.ArchitectView? == v.ArchitectView?
  {
    match v
    case ArchitectView(s) =>
      (match Arch.ArchitectRun(Arch.ArchConfig(s, facts), w)
       case Done(c) => Done(Turn(ArchitectView(c.state), c.facts))
       case Abort(c, e) => Abort(Turn(ArchitectView(c.state), c.facts), e))
    case DeveloperView(s, n, errs) =>
      match Dev.DevRun(Dev.DevConfig(s, n, errs, facts, 0), w)
      case Done(c) => Done(Turn(DeveloperView(c.state, c.bugCount, c.bugErrors), c.facts))
      case Abort(c, e) => Abort(Turn(DeveloperView(c.state, c.bugCount, c.bugErrors), c.facts), e)
  }

  /** The `for` loop of `execute_project` from position `i` on: each agent in turn, stopping
      at the first abort. */
  function RunFrom(agents: seq<AgentView>, i: nat, facts: Facts, w: World): (r: Step<Team>)
    requires i <= |agents|
    requires forall j :: i <= j < |agents| ==> agents[j].Ready()
    decreases |agents| - i
    ensures |r.config.agents| == |agents|
  {
    if i == |agents| then Done(Team(agents, facts))
    else
      match RunAgent(agents[i], facts, w)
      case Abort(t, e) => Abort(Team(agents[i := t.agent], t.facts), e)
      case Done(t) => RunFrom(agents[i := t.agent], i + 1, t.facts, w)
  }

  /** The two agents `create_agent` appends, as they start. */
  const NewTeam := [ArchitectView(Discovery), DeveloperView(Discovery, 0, None)]

  class ManagingAgent {
    const attributes: BasicAgent
    const factsheet: FactSheet
    var agents: seq<Agent>
    ghost var team: seq<AgentView>
    ghost var Repr: set<object>

    /** Every agent owns its objects, and `team` is the list's current view. */
    ghost predicate Valid()
      reads this, Repr
    {
      && |team| == |agents|
      && (forall i :: 0 <= i < |agents| ==> agents[i].Footprint() <= Repr)
      && (forall i, j :: 0 <= i < j < |agents| ==> agents[i].Footprint() !! agents[j].Footprint())
      && (forall i :: 0 <= i < |agents| ==> agents[i].View() == team[i])
    }

    /** The manager with a fact sheet holding only `projectDescription`, and no agents. */
    constructor (projectDescription: string)
      ensures Valid() && fresh(attributes) && fresh(factsheet)
      ensures factsheet.Snapshot() == Facts(projectDescription, None, None, None, None)
      ensures attributes.objective == Objective && attributes.position == Position
      ensures attributes.state == Discovery && attributes.memory == []
      ensures agents == [] && team == [] && Repr == {}
    {
      attributes := new BasicAgent(Objective, Position);
      factsheet := new FactSheet(projectDescription);
      agents := [];
      team := [];
      Repr := {};
    }

    /** `ManagingAgent::new`: asks the model for the project description. */
    static method New(userRequest: string, w: World) returns (r: Result<ManagingAgent>)
      ensures r.Fail? <==> w.reply(UserInputToGoal(userRequest)).Unavailable?
      ensures r.Fail? ==> r.reason == OracleUnavailable
      ensures r.Ok? ==> var m := r.value;
        && fresh(m) && fresh(m.factsheet) && m.Valid() && m.agents == [] && m.team == []
        && m.factsheet.Snapshot() == Facts(w.reply(UserInputToGoal(userRequest)).text, None, None, None, None)
    {
      match w.reply(UserInputToGoal(userRequest)) {
        case Unavailable =>
          return Fail(OracleUnavailable);
        case Answer(description) =>
          var m := new ManagingAgent(description);
          return Ok(m);
      }
    }

    method AddAgent(agent: Agent)
      requires Valid()
      requires agent.Footprint() !! Repr
      modifies this
      ensures Valid()
      ensures agents == old(agents) + [agent] && team == old(team) + [agent.View()]
      ensures Repr == old(Repr) + agent.Footprint()
    {
      agents := agents + [agent];
      team := team + [agent.View()];
      Repr := Repr + agent.Footprint();
    }

    method CreateAgent()
      requires Valid()
      modifies this
      ensures Valid()
      ensures |agents| == |old(agents)| + 2 && agents[..|old(agents)|] == old(agents)
      ensures agents[|old(agents)|].Architect? && agents[|old(agents)| + 1].Developer?
      ensures team == old(team) + NewTeam
      ensures fresh(Repr - old(Repr))
    {
      var architect := new Arch.SolutionArchitect();
      AddAgent(Architect(architect));
      var developer := new Dev.BackendDeveloper();
      AddAgent(Developer(developer));
    }

    /** One iteration of the `for` loop of `execute_project`: the `i`-th agent's `execute`. */
    method RunTurn(i: nat, w: World) returns (abort: Option<Fatal>)
      requires Valid() && i < |agents| && team[i].Ready()
      modifies this, agents[i].Footprint(), factsheet
      ensures Valid() && agents == old(agents) && Repr == old(Repr)
      ensures var r := RunAgent(old(team[i]), old(factsheet.Snapshot()), w);
        && team == old(team)[i := r.config.agent] && factsheet.Snapshot() == r.config.facts
        && abort == (if r.Done? then None else Some(r.reason))
    {
      assert forall j :: 0 <= j < |agents| && j != i ==> agents[j].Footprint() !! agents[i].Footprint();
      label before:
      match agents[i] {
        case Architect(a) =>
          var o := a.Execute(factsheet, w);
          abort := if o.Aborted? then Some(o.reason) else None;
        case Developer(d) =>
          var o, _ := d.Execute(factsheet, w);
          abort := if o.Aborted? then Some(o.reason) else None;
      }
      assert forall j :: 0 <= j < |agents| && j != i ==> agents[j].View() == old@before(agents[j].View());
      team := team[i := agents[i].View()];
    }

    method ExecuteProject(w: World) returns (outcome: Outcome)
      requires Valid()
      requires forall j :: 0 <= j < |team| ==> team[j].Ready()
      modifies this, Repr, factsheet
      ensures Valid()
      ensures |agents| == |old(agents)| + 2 && agents[..|old(agents)|] == old(agents)
      ensures var r := RunFrom(old(team) + NewTeam, 0, old(factsheet.Snapshot()), w);
        outcome == r.ToOutcome() && team == r.config.agents && factsheet.Snapshot() == r.config.facts
    {
      CreateAgent();
      ghost var run := RunFrom(team, 0, factsheet.Snapshot(), w);
      ghost var repr := Repr;
      for i := 0 to |agents|
        invariant Repr == repr && fresh(Repr - old(Repr))
        invariant Valid()
        invariant |agents| == |old(agents)| + 2 && agents[..|old(agents)|] == old(agents)
        invariant forall j :: i <= j < |team| ==> team[j].Ready()
        invariant RunFrom(team, i, factsheet.Snapshot(), w) == run
      {
        var abort := RunTurn(i, w);
        if abort.Some? {
          return Aborted(abort.value);
        }
      }
      outcome := Completed;
    }
  }
}
