# Agent base abstraction (kotaemon `knowledgehub/agents/base.py`)

A Dafny model of the agent abstraction of the knowledge hub: the closed
`AgentType` enumeration of agent kinds, the resolver `AgentType.get_agent_class`
that maps a kind to the concrete agent class implementing it, and the
`BaseAgent` record (name, type, description, language model(s), optional prompt
template(s), ordered plugin/tool list) with its one operation, `add_tools`.

- `wrappers.dfy` — module `Wrappers`: `Option` (Python's `None` / an omitted
  argument) and `Result` (a return value or a raised exception).
- `agent_types.dfy` — module `AgentTypes`: the seven kinds, their string values,
  lookup by value (`AgentType(s)`), `str()` of a member, and `GetAgentClass`.
- `base_agent.dfy` — module `BaseAgents`: the single-or-by-purpose field shape
  `Handles` (`Single(h)` or `ByPurpose(map label -> h)`), the `BaseAgent` record,
  construction with the empty plugin default, `AddTools` as a pure function,
  `Extend` (element-wise `list.extend`), composition of repeated calls, and a
  thin class `Agent` whose `AddToolsInPlace` mutates only `plugins`.

Language models, prompt templates and tools are only stored, never called, so
they are the opaque type parameters `L`, `P` and `T`. Resolution is a Dafny
function, so repeated resolution of the same kind gives the same result, success
or error, by construction.

The error message follows the code: it is built with `f"{_type}"` on a plain
`Enum` member, which renders as `AgentType.react`, so the message for `react` is
`Unknown agent type: AgentType.react`. For `react` the message therefore contains
`react`; `UnknownTypeMessageNamesType` proves this for every kind that does not
resolve, and `MessagesDistinct` proves that no two such kinds share a message.

## Model

| member | source | states |
|---|---|---|
| AgentTypes.Value | knowledgehub/agents/base.py:21-27 | each member's string value equals its member name |
| AgentTypes.FromValue | knowledgehub/agents/base.py:16-27 | lookup by value returns a member whose value is the given string, and fails exactly when no member has that value |
| AgentTypes.ValueRoundTrip | knowledgehub/agents/base.py:21-27 | looking a member up by its own value returns that member |
| AgentTypes.ValuesDistinct | knowledgehub/agents/base.py:21-27 | two members have the same value if and only if they are the same member |
| AgentTypes.AllTypesEnumerates | knowledgehub/agents/base.py:16-27 | the enumeration has exactly seven members, lists every kind, and their values are pairwise distinct |
| AgentTypes.StrInjective | knowledgehub/agents/base.py:41 | two members render to the same `str()` text if and only if they are the same member |
| AgentTypes.GetAgentClass | knowledgehub/agents/base.py:29-41 | resolution succeeds if and only if the kind is `rewoo`, then with the ReWOO agent class; otherwise it raises `ValueError("Unknown agent type: " + str(kind))` |
| AgentTypes.UnknownTypeMessageNamesType | knowledgehub/agents/base.py:40-41 | every kind other than `rewoo` fails to resolve and its error message contains the kind's value |
| AgentTypes.MessagesDistinct | knowledgehub/agents/base.py:40-41 | two kinds other than `rewoo` raise the same error if and only if they are the same kind, so the message identifies the kind |
| AgentTypes.OnlyRewooResolves | knowledgehub/agents/base.py:36-41 | exactly one declared kind resolves: some kind succeeds and every succeeding kind is `rewoo` |
| BaseAgents.NewAgent | knowledgehub/agents/base.py:47-64 | construction stores every supplied field unchanged, keeping the single-or-map shape of `llm` and `prompt_template`, and `plugins` is empty when not supplied |
| BaseAgents.AddTools | knowledgehub/agents/base.py:66-68 | the old plugins form the prefix and the new tools the suffix, lengths and multisets add up (no deduplication), no other field changes, and adding no tools changes nothing |
| BaseAgents.Extend | knowledgehub/agents/base.py:68 | appending the tools one at a time yields exactly the old plugins followed by the new tools, the same list the pure `AddTools` stores |
| BaseAgents.AddToolsEachIsFlatten | knowledgehub/agents/base.py:66-68 | any series of `add_tools` calls equals a single call with all batches concatenated in call order |
| BaseAgents.FreshAgentTwoCalls | knowledgehub/agents/base.py:61-68 | on an agent built without plugins, `add_tools(S1)` then `add_tools(S2)` leaves exactly `S1 + S2` |
| BaseAgents.Agent.AddToolsInPlace | knowledgehub/agents/base.py:66-68 | the in-place call appends the tools to `plugins` and leaves the object in the state the pure `AddTools` describes, every other field constant |

## Left out

- The deferred `from .rewoo.agent import RewooAgent` (line 37): resolution is a pure lookup returning the token `RewooAgent`; module loading and its caching are not modelled.
- The `theflow` `Param`/`Node` descriptors and `BaseComponent` run semantics: fields are plain record fields; help texts are documentation only.
- Invocation of language models (`ChatLLM`, `LLM`), prompt rendering (`PromptTemplate`) and tool execution (`BaseTool`): external collaborators, stored as opaque type parameters.
- Any concrete agent's reasoning loop: the rewoo agent module is not part of this model.
- `plugins` is modelled as a list value owned by the agent; other references to the same Python list (the one passed at construction, or read from `agent.plugins`) also see tools appended by `add_tools`, which is not modelled.
- Thread safety of the in-place `extend`: the model is sequential.
- Python's `ValueError` raised by `AgentType(s)` for an unknown value is modelled as `None`; its message is not modelled.
