/**
 The closed enumeration of agent kinds and the resolver that maps a kind to the
 concrete agent class implementing it (`AgentType` and `AgentType.get_agent_class`
 in knowledgehub/agents/base.py).
 */
module AgentTypes {
  import opened Wrappers

  /** The seven declared agent kinds, in declaration order. */
  datatype AgentType =
    | OpenAI
    | OpenAIMulti
    | OpenAITool
    | SelfAsk
    | React
    | Rewoo
    | Vanilla

  /** Every member of the enumeration, in the order Python iterates an `Enum`. */
  const AllTypes: seq<AgentType> := [OpenAI, OpenAIMulti, OpenAITool, SelfAsk, React, Rewoo, Vanilla]

  /** The Python identifier of each member (`AgentType.<name>.name`). */
  function Name(t: AgentType): string
  {
    match t
    case OpenAI => "openai"
    case OpenAIMulti => "openai_multi"
    case OpenAITool => "openai_tool"
    case SelfAsk => "self_ask"
    case React => "react"
    case Rewoo => "rewoo"
    case Vanilla => "vanilla"
  }

  /** The string value assigned to each member (`AgentType.<name>.value`);
      every member's value is its own name. */
  function Value(t: AgentType): (v: string)
    ensures v == Name(t)
  {
    match t
    case OpenAI => "openai"
    case OpenAIMulti => "openai_multi"
    case OpenAITool => "openai_tool"
    case SelfAsk => "self_ask"
    case React => "react"
    case Rewoo => "rewoo"
    case Vanilla => "vanilla"
  }

  /** Lookup of a member by its value (`AgentType(s)`); `None` where Python raises
      because `s` is not a valid `AgentType`. */
  function FromValue(s: string): (r: Option<AgentType>)
    ensures r.Some? ==> Value(r.value) == s
    ensures r.None? <==> forall t: AgentType :: Value(t) != s
  {
    if s == "openai" then Some(OpenAI)
    else if s == "openai_multi" then Some(OpenAIMulti)
    else if s == "openai_tool" then Some(OpenAITool)
    else if s == "self_ask" then Some(SelfAsk)
    else if s == "react" then Some(React)
    else if s == "rewoo" then Some(Rewoo)
    else if s == "vanilla" then Some(Vanilla)
    else None
  }

  /** Looking a member up by its own value gives that member back. */
  lemma ValueRoundTrip(t: AgentType)
    ensures FromValue(Value(t)) == Some(t)
  {
  }

  /** The seven values are pairwise distinct. */
  lemma ValuesDistinct(a: AgentType, b: AgentType)
    ensures Value(a) == Value(b) <==> a == b
  {
  }

  /** `AllTypes` lists every member exactly once, with pairwise distinct values. */
  lemma AllTypesEnumerates()
    ensures |AllTypes| == 7
    ensures forall t: AgentType :: t in AllTypes
    ensures forall i, j :: 0 <= i < j < |AllTypes| ==> Value(AllTypes[i]) != Value(AllTypes[j])
  {
    forall t: AgentType
      ensures t in AllTypes
    {
      match t
      case OpenAI => assert AllTypes[0] == t;
      case OpenAIMulti => assert AllTypes[1] == t;
      case OpenAITool => assert AllTypes[2] == t;
      case SelfAsk => assert AllTypes[3] == t;
      case React => assert AllTypes[4] == t;
      case Rewoo => assert AllTypes[5] == t;
      case Vanilla => assert AllTypes[6] == t;
    }
    forall i, j | 0 <= i < j < |AllTypes|
      ensures Value(AllTypes[i]) != Value(AllTypes[j])
    {
      ValuesDistinct(AllTypes[i], AllTypes[j]);
    }
  }

  /** `str()` of a plain `Enum` member: the class name, a dot, and the member name. */
  function Str(t: AgentType): (s: string)
    ensures s == "AgentType." + Name(t)
  {
    "AgentType." + Value(t)
  }

  /** Distinct members render distinctly: the rendering identifies the member. */
  lemma StrInjective(a: AgentType, b: AgentType)
    ensures Str(a) == Str(b) <==> a == b
  {
    if Str(a) == Str(b) {
      assert Str(a)[10..] == Value(a);
      assert Str(b)[10..] == Value(b);
      ValuesDistinct(a, b);
    }
  }

  /** The concrete agent classes a kind can resolve to; only the ReWOO agent exists. */
  datatype AgentClass = RewooAgent

  /** The exception raised for a kind without an implementation. */
  datatype Error = ValueError(message: string)

  const UnknownPrefix: string := "Unknown agent type: "

  /** `AgentType.get_agent_class`: `rewoo` resolves to the ReWOO agent class, every
      other kind raises a `ValueError` naming the kind. */
  function GetAgentClass(t: AgentType): (r: Result<AgentClass, Error>)
    ensures r.Ok? <==> t == Rewoo
    ensures r.Ok? ==> r.value == RewooAgent
    ensures r.Err? ==> r.error == ValueError(UnknownPrefix + Str(t))
  {
    if t == Rewoo then Ok(RewooAgent)
    else Err(ValueError(UnknownPrefix + Str(t)))
  }

  /** `sub` occurs as a contiguous piece of `s`. */
  predicate Contains(s: string, sub: string)
  {
    exists i :: 0 <= i <= |s| && sub <= s[i..]
  }

  /** Resolving any unimplemented kind fails, and the error message mentions the
      kind's value (for `react`, the message contains "react"). */
  lemma UnknownTypeMessageNamesType(t: AgentType)
    requires t != Rewoo
    ensures GetAgentClass(t).Err?
    ensures Contains(GetAgentClass(t).error.message, Value(t))
  {
    var msg := GetAgentClass(t).error.message;
    var k := |UnknownPrefix + "AgentType."|;
    assert msg == (UnknownPrefix + "AgentType.") + Value(t);
    assert Value(t) <= msg[k..];
  }

  /** The error identifies the kind: two unresolvable kinds raise the same error
      only if they are the same kind. */
  lemma MessagesDistinct(a: AgentType, b: AgentType)
    requires a != Rewoo && b != Rewoo
    ensures GetAgentClass(a).error == GetAgentClass(b).error <==> a == b
  {
  }

  /** Exactly one declared kind resolves successfully. */
  lemma OnlyRewooResolves()
    ensures forall t: AgentType :: GetAgentClass(t).Ok? ==> t == Rewoo
    ensures exists t: AgentType :: GetAgentClass(t).Ok?
  {
    assert GetAgentClass(Rewoo).Ok?;
  }
}
