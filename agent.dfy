/**
 * The agent base class (agents/agent.py, with the message builder of the
 * older agent/agent.py): the class-wide hub of agents by name, the system
 * prompt, and tool registration, which goes straight to the agent's model.
 */
module Agents {
  import opened Messages
  import opened Models
  import opened OrderedMaps
  import Json

  /** `make_simple_messages`: the system prompt, then the user's prompt. */
  function SimpleMessages(systemPrompt: string, userPrompt: string): (r: seq<Message>)
    ensures |r| == 2
    ensures r[0].role == "system" && r[0].content == systemPrompt
    ensures r[1].role == "user" && r[1].content == userPrompt
  {
    [NewMessage("system", systemPrompt), NewMessage("user", userPrompt)]
  }

  /** `Agent.AGENT_HUB`, shared by every agent. */
  class AgentHub {
    var agents: map<string, Agent>

    constructor ()
      ensures agents == map[]
    {
      agents := map[];
    }
  }

  class Agent {
    const hub: AgentHub
    /** The agent's model; only its tool registry is modelled. */
    const model: ToolRegistry
    /** `self.prompt_set["system_prompt"]()`, rendered. */
    const systemPrompt: string
    /** `self.tools`: assigned `{}` and never written afterwards. */
    var tools: seq<(string, ToolEntry)>

    /** The agent's own tool table stays empty; its model's registry is a
        proper dictionary. */
    ghost predicate Valid()
      reads this, model
    {
      tools == [] && model.Valid()
    }

    /** `Agent.__init__`: registers the new agent under its class name. */
    constructor (className: string, hub: AgentHub, model: ToolRegistry, systemPrompt: string)
      requires model.Valid()
      modifies hub
      ensures this.hub == hub && this.model == model && this.systemPrompt == systemPrompt
      ensures Valid() && hub.agents == old(hub.agents)[className := this]
    {
      this.hub := hub;
      this.model := model;
      this.systemPrompt := systemPrompt;
      tools := [];
      new;
      hub.agents := hub.agents[className := this];
    }

    /** `register_agent`: the last registration under a name wins. */
    method RegisterAgent(name: string)
      modifies hub
      ensures hub.agents == old(hub.agents)[name := this]
    {
      hub.agents := hub.agents[name := this];
    }

    /** `make_simple_messages` */
    function MakeSimpleMessages(userPrompt: string): (r: seq<Message>)
      reads this
      ensures r == SimpleMessages(systemPrompt, userPrompt)
    {
      SimpleMessages(systemPrompt, userPrompt)
    }

    /** `add_tool`: registered with the model, not with the agent. */
    method AddTool(schema: Json.Value, run: ToolFunction)
      requires Valid() && Named(schema)
      modifies model
      ensures Valid() && tools == old(tools)
      ensures model.tools == Put(old(model.tools), NameOf(schema), ToolEntry(schema, run))
    {
      model.AddTool(schema, run);
    }

    /** `tool_dicts`: the schemas of the agent's own tool table, which is
        always empty. */
    function ToolDicts(): (r: seq<Json.Value>)
      reads this, model
      ensures Valid() ==> r == []
    {
      seq(|tools|, i reads this requires 0 <= i < |tools| => tools[i].1.toolDict)
    }
  }
}
