/** The shape every agent shares: its state machine's states and its basic record. */
module BasicAgents {

  /** The four states of every agent's state machine; `Finished` is terminal. */
  datatype AgentState = Discovery | Working | UnitTesting | Finished

  /** One exchange with the language model (the agents never write to memory). */
  datatype Message = Message(role: string, content: string)

  datatype Profile = Profile(objective: string, position: string, memory: seq<Message>)

  class BasicAgent {
    var objective: string
    var position: string
    var state: AgentState
    var memory: seq<Message>

    /** Everything about the agent except its state. */
    function Identity(): Profile
      reads this
    {
      Profile(objective, position, memory)
    }

    /** A new agent starts in `Discovery` with an empty memory. */
    constructor (objective: string, position: string)
      ensures this.objective == objective && this.position == position
      ensures state == Discovery && memory == []
    {
      this.objective := objective;
      this.position := position;
      state := Discovery;
      memory := [];
    }

    method UpdateState(state: AgentState)
      modifies this
      ensures this.state == state
      ensures Identity() == old(Identity())
    {
      this.state := state;
    }

    method GetObjective() returns (r: string)
      ensures r == objective
    {
      return objective;
    }

    method GetPosition() returns (r: string)
      ensures r == position
    {
      return position;
    }

    method GetState() returns (r: AgentState)
      ensures r == state
    {
      return state;
    }

    method GetMemory() returns (r: seq<Message>)
      ensures r == memory
    {
      return memory;
    }
  }
}
