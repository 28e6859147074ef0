/**
 The base agent record and its one operation, tool attachment (`BaseAgent` and
 `BaseAgent.add_tools` in knowledgehub/agents/base.py). Language models, prompt
 templates and tools are external collaborators that the agent only stores, so
 they appear as the type parameters `L`, `P` and `T`.
 */
module BaseAgents {
  import opened Wrappers
  import opened AgentTypes

  /** A field that holds either one handle or a map from purpose label to handle. */
  datatype Handles<H> = Single(handle: H) | ByPurpose(byPurpose: map<string, H>)

  /** The fields of a `BaseAgent`; `plugins` is the ordered list of attached tools. */
  datatype BaseAgent<L, P, T> = BaseAgent(
    name: string,
    agentType: AgentType,
    description: string,
    llm: Handles<L>,
    promptTemplate: Option<Handles<P>>,
    plugins: seq<T>)

  /** Construction: every supplied field is stored as given (a single handle is not
      normalised into a one-entry map, nor the reverse), and `plugins` defaults to
      an empty list when it is not supplied. */
  function NewAgent<L, P, T>(name: string, agentType: AgentType, description: string,
                             llm: Handles<L>, promptTemplate: Option<Handles<P>>,
                             plugins: Option<seq<T>>): (a: BaseAgent<L, P, T>)
    ensures a.name == name && a.agentType == agentType && a.description == description
    ensures a.llm == llm && a.promptTemplate == promptTemplate
    ensures plugins.None? ==> a.plugins == []
    ensures plugins.Some? ==> a.plugins == plugins.value
  {
    var initial := match plugins case Some(ps) => ps case None => [];
    BaseAgent(name, agentType, description, llm, promptTemplate, initial)
  }

  /** `add_tools`: the new tools follow the existing ones, both in their original
      order, nothing is removed or merged, and no other field changes. */
  function AddTools<L, P, T>(a: BaseAgent<L, P, T>, ts: seq<T>): (r: BaseAgent<L, P, T>)
    ensures |r.plugins| == |a.plugins| + |ts|
    ensures r.plugins[..|a.plugins|] == a.plugins
    ensures r.plugins[|a.plugins|..] == ts
    ensures multiset(r.plugins) == multiset(a.plugins) + multiset(ts)
    ensures r.name == a.name && r.agentType == a.agentType && r.description == a.description
    ensures r.llm == a.llm && r.promptTemplate == a.promptTemplate
    ensures ts == [] ==> r == a
  {
    a.(plugins := a.plugins + ts)
  }

  /** Python's `list.extend`: appends the elements of `tools` one by one, which
      builds exactly the concatenation `AddTools` stores. */
  method Extend<T>(plugins: seq<T>, tools: seq<T>) returns (r: seq<T>)
    ensures r == plugins + tools
  {
    r := plugins;
    var i := 0;
    while i < |tools|
      invariant 0 <= i <= |tools|
      invariant r == plugins + tools[..i]
    {
      r := r + [tools[i]];
      i := i + 1;
    }
    assert tools[..i] == tools;
  }

  /** The concatenation of a list of tool lists. */
  function Flatten<T>(batches: seq<seq<T>>): seq<T>
  {
    if |batches| == 0 then [] else batches[0] + Flatten(batches[1..])
  }

  /** Calling `add_tools` once per batch, in order. */
  function AddToolsEach<L, P, T>(a: BaseAgent<L, P, T>, batches: seq<seq<T>>): BaseAgent<L, P, T>
    decreases |batches|
  {
    if |batches| == 0 then a else AddToolsEach(AddTools(a, batches[0]), batches[1..])
  }

  /** Successive `add_tools` calls compose: the result is one call with all the
      batches concatenated in call order. */
  lemma {:induction false} AddToolsEachIsFlatten<L, P, T>(a: BaseAgent<L, P, T>, batches: seq<seq<T>>)
    ensures AddToolsEach(a, batches) == AddTools(a, Flatten(batches))
    decreases |batches|
  {
    if |batches| == 0 {
      assert Flatten(batches) == [];
    } else {
      var b := AddTools(a, batches[0]);
      var rest := Flatten(batches[1..]);
      AddToolsEachIsFlatten(b, batches[1..]);
      assert AddToolsEach(a, batches) == AddTools(b, rest);
      assert Flatten(batches) == batches[0] + rest;
      assert b.plugins + rest == a.plugins + (batches[0] + rest);
    }
  }

  /** On an agent built without plugins, `add_tools(S1)` then `add_tools(S2)` leaves
      exactly `S1 + S2`. */
  lemma FreshAgentTwoCalls<L, P, T>(name: string, agentType: AgentType, description: string,
                                    llm: Handles<L>, promptTemplate: Option<Handles<P>>,
                                    s1: seq<T>, s2: seq<T>)
    ensures AddTools(AddTools(NewAgent(name, agentType, description, llm, promptTemplate, None), s1), s2).plugins
            == s1 + s2
  {
  }

  /** The agent as a mutable object: `plugins` is the only field `add_tools` writes. */
  class Agent<L, P, T> {
    const name: string
    const agentType: AgentType
    const description: string
    const llm: Handles<L>
    const promptTemplate: Option<Handles<P>>
    var plugins: seq<T>

    /** The object's fields as a `BaseAgent` value. */
    function State(): BaseAgent<L, P, T>
      reads this
    {
      BaseAgent(name, agentType, description, llm, promptTemplate, plugins)
    }

    constructor(name: string, agentType: AgentType, description: string,
                llm: Handles<L>, promptTemplate: Option<Handles<P>>, plugins: Option<seq<T>>)
      ensures State() == NewAgent(name, agentType, description, llm, promptTemplate, plugins)
    {
      this.name := name;
      this.agentType := agentType;
      this.description := description;
      this.llm := llm;
      this.promptTemplate := promptTemplate;
      this.plugins := match plugins case Some(ps) => ps case None => [];
    }

    /** `add_tools`, in place: the object moves to the state `AddTools` describes. */
    method AddToolsInPlace(tools: seq<T>)
      modifies this
      ensures plugins == old(plugins) + tools
      ensures State() == AddTools(old(State()), tools)
    {
      plugins := Extend(plugins, tools);
    }
  }
}
