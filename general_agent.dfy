/**
 * The turn controller of the server-side agent runtime (GeneralAgent).
 *
 * Given the phase an agent loop is in and the conversation state, the controller
 * returns the one orchestration instruction that comes next: call the language
 * model, call one tool, call a batch of tools, or finish the turn.
 *
 * Messages (M), tool descriptors (T), the model's raw tool calls (C) and the
 * converted tool invocation specs (P) are opaque: the controller only passes
 * them along.
 */
module AgentRuntime {

  datatype Option<+T> = None | Some(value: T)

  // ---------------------------------------------------------------------------
  // Configuration and payloads
  // ---------------------------------------------------------------------------

  /** Agent-specific options; accepted at construction, never consulted. */
  datatype AgentConfig = AgentConfig(maxSteps: Option<int>)

  /** The model and provider that every model call targets. */
  datatype ModelRuntimeConfig = ModelRuntimeConfig(model: string, provider: string)

  /** The per-session configuration the controller is constructed with. */
  datatype ChatAgentConfig = ChatAgentConfig(
    agentConfig: Option<AgentConfig>,
    modelRuntimeConfig: Option<ModelRuntimeConfig>,
    sessionId: string,
    userId: Option<string>)

  /** The `result` part of a model answer: its text and its raw tool calls, in order. */
  datatype LlmOutput<C> = LlmOutput(content: string, toolCalls: seq<C>)

  /**
   * What the `llm_result` phase carries. `toolsCalling` holds the converted
   * invocation specs; the controller dispatches from `result.toolCalls` instead.
   */
  datatype LlmResultPayload<C, P> = LlmResultPayload(
    hasToolsCalling: bool,
    result: LlmOutput<C>,
    toolsCalling: seq<P>)

  /**
   * The phase of the agent loop, with the payload it carries. Only `llm_result`
   * has a payload the controller reads; every tag the controller does not
   * recognise is kept verbatim in `Unknown`.
   */
  datatype Phase<C, P> =
    | UserInput
    | LlmResult(payload: LlmResultPayload<C, P>)
    | ToolResult
    | ToolsBatchResult
    | Unknown(tag: string)

  /** The conversation so far and the tools offered to the next model call. */
  datatype AgentState<M, T> = AgentState(messages: seq<M>, tools: seq<T>)

  /** The request of a `call_llm` instruction. */
  datatype LlmCall<M, T> = LlmCall(
    messages: seq<M>,
    model: Option<string>,
    provider: Option<string>,
    tools: seq<T>)

  datatype FinishReason = Completed | ErrorRecovery

  /** The four orchestration instructions: `call_llm`, `call_tool`, `call_tools_batch`, `finish`. */
  datatype Instruction<M, T, C> =
    | CallLlm(payload: LlmCall<M, T>)
    | CallTool(toolCall: C)
    | CallToolsBatch(toolsCalling: seq<C>)
    | Finish(reason: FinishReason, reasonDetail: string)

  // ---------------------------------------------------------------------------
  // Phase tags
  // ---------------------------------------------------------------------------

  const UserInputTag: string := "user_input"
  const LlmResultTag: string := "llm_result"
  const ToolResultTag: string := "tool_result"
  const ToolsBatchResultTag: string := "tools_batch_result"

  predicate IsKnownTag(s: string) {
    s == UserInputTag || s == LlmResultTag || s == ToolResultTag || s == ToolsBatchResultTag
  }

  /** The phase tag as the execution context spells it. */
  function Tag<C, P>(phase: Phase<C, P>): (tag: string) {
    match phase
    case UserInput => UserInputTag
    case LlmResult(_) => LlmResultTag
    case ToolResult => ToolResultTag
    case ToolsBatchResult => ToolsBatchResultTag
    case Unknown(tag) => tag
  }

  /** A phase as the execution context can deliver it: `Unknown` never hides a recognised tag. */
  predicate WellFormed<C, P>(phase: Phase<C, P>) {
    phase.Unknown? ==> !IsKnownTag(phase.tag)
  }

  /**
   * Reads an execution context: its phase tag, and the payload it carries when
   * that tag is `llm_result`.
   */
  function PhaseOf<C, P>(tag: string, llm: LlmResultPayload<C, P>): (phase: Phase<C, P>)
    ensures Tag(phase) == tag && WellFormed(phase)
    ensures phase.LlmResult? ==> phase.payload == llm
  {
    if tag == UserInputTag then UserInput
    else if tag == LlmResultTag then LlmResult(llm)
    else if tag == ToolResultTag then ToolResult
    else if tag == ToolsBatchResultTag then ToolsBatchResult
    else Unknown(tag)
  }

  /** Reading the tag of a well-formed phase gives that phase back. */
  lemma PhaseOfTag<C, P>(phase: Phase<C, P>, llm: LlmResultPayload<C, P>)
    requires WellFormed(phase)
    requires phase.LlmResult? ==> phase.payload == llm
    ensures PhaseOf(Tag(phase), llm) == phase
  {
  }

  // ---------------------------------------------------------------------------
  // Instruction construction
  // ---------------------------------------------------------------------------

  const CompletedDetail: string := "General agent completed successfully"
  const UnknownPhasePrefix: string := "Unknown phase: "

  /** The diagnostic of an unrecognised phase: the fixed prefix, then the tag itself. */
  function UnknownPhaseDetail(tag: string): (detail: string)
    ensures |detail| == |UnknownPhasePrefix| + |tag|
    ensures detail[..|UnknownPhasePrefix|] == UnknownPhasePrefix
    ensures detail[|UnknownPhasePrefix|..] == tag
  {
    UnknownPhasePrefix + tag
  }

  /** Two different unrecognised tags never share a diagnostic. */
  lemma UnknownPhaseDetailInjective(a: string, b: string)
    ensures UnknownPhaseDetail(a) == UnknownPhaseDetail(b) ==> a == b
  {
  }

  /** The model of the optional runtime configuration; absent with it. */
  function ModelOf(runtime: Option<ModelRuntimeConfig>): (model: Option<string>)
    ensures model.Some? <==> runtime.Some?
    ensures runtime.Some? ==> model.value == runtime.value.model
  {
    match runtime
    case None => None
    case Some(rc) => Some(rc.model)
  }

  /** The provider of the optional runtime configuration; absent with it. */
  function ProviderOf(runtime: Option<ModelRuntimeConfig>): (provider: Option<string>)
    ensures provider.Some? <==> runtime.Some?
    ensures runtime.Some? ==> provider.value == runtime.value.provider
  {
    match runtime
    case None => None
    case Some(rc) => Some(rc.provider)
  }

  /**
   * The adapter from a raw model tool call to the invocation spec an instruction
   * carries. The two shapes are compatible, so the conversion is the identity.
   */
  function AsToolCall<C>(call: C): (adapted: C)
    ensures adapted == call
  {
    call
  }

  /**
   * The adapter for a whole list of tool calls, written through the single-call
   * adapter: the same calls, in the same order.
   */
  function AsToolsCalling<C>(calls: seq<C>): (adapted: seq<C>)
    ensures adapted == calls
  {
    if calls == [] then [] else [AsToolCall(calls[0])] + AsToolsCalling(calls[1..])
  }

  /** The tool calls an instruction hands to the tool executor. */
  function Dispatched<M, T, C>(instruction: Instruction<M, T, C>): (dispatched: seq<C>) {
    match instruction
    case CallTool(call) => [call]
    case CallToolsBatch(calls) => calls
    case _ => []
  }

  // ---------------------------------------------------------------------------
  // The controller
  // ---------------------------------------------------------------------------

  class GeneralAgent {
    const config: ChatAgentConfig

    constructor (config: ChatAgentConfig)
      ensures GetConfig() == config
    {
      this.config := config;
    }

    /** The configuration this agent was constructed with. */
    function GetConfig(): (c: ChatAgentConfig)
      ensures c == config
    {
      config
    }

    /**
     * The next instruction for `phase`. Model calls follow the three phases that
     * hand control back to the model; tools are dispatched only after a model
     * answer that asks for them; every unrecognised phase ends the turn with an
     * error-recovery reason.
     */
    function Decide<M, T, C, P>(phase: Phase<C, P>, state: AgentState<M, T>): (r: Instruction<M, T, C>)
      requires WellFormed(phase)
      ensures r.CallLlm? <==>
        Tag(phase) == UserInputTag || Tag(phase) == ToolResultTag || Tag(phase) == ToolsBatchResultTag
      ensures r.CallTool? || r.CallToolsBatch? ==>
        Tag(phase) == LlmResultTag && phase.payload.hasToolsCalling
      ensures r.Finish? ==> (r.reason == ErrorRecovery <==> !IsKnownTag(Tag(phase)))
      ensures r.Finish? <==> !IsKnownTag(Tag(phase)) || (Tag(phase) == LlmResultTag && |Dispatched(r)| == 0)
    {
      match phase
      case UserInput =>
        CallLlm(LlmCall(state.messages, ModelOf(config.modelRuntimeConfig),
                        ProviderOf(config.modelRuntimeConfig), state.tools))
      case LlmResult(payload) =>
        var toolCalls := payload.result.toolCalls;
        if payload.hasToolsCalling && |toolCalls| > 1 then
          CallToolsBatch(AsToolsCalling(toolCalls))
        else if payload.hasToolsCalling && |toolCalls| == 1 then
          CallTool(AsToolCall(toolCalls[0]))
        else
          Finish(Completed, CompletedDetail)
      case ToolResult | ToolsBatchResult =>
        CallLlm(LlmCall(state.messages, ModelOf(config.modelRuntimeConfig),
                        ProviderOf(config.modelRuntimeConfig), state.tools))
      case Unknown(tag) =>
        Finish(ErrorRecovery, UnknownPhaseDetail(tag))
    }

    /** One step of the agent loop: exactly one instruction, the one `Decide` picks. */
    method Runner<M, T, C, P>(phase: Phase<C, P>, state: AgentState<M, T>) returns (r: Instruction<M, T, C>)
      requires WellFormed(phase)
      ensures r == Decide(phase, state)
    {
      r := Decide(phase, state);
    }
  }

  // ---------------------------------------------------------------------------
  // Properties of the turn policy
  // ---------------------------------------------------------------------------

  /** `user_input` asks the model, passing the state through and the configured model and provider. */
  lemma UserInputCallsLlm<M, T, C, P>(agent: GeneralAgent, state: AgentState<M, T>)
    ensures var r := agent.Decide<M, T, C, P>(UserInput, state);
      r.CallLlm? && r.payload.messages == state.messages && r.payload.tools == state.tools
    ensures var r := agent.Decide<M, T, C, P>(UserInput, state);
      match agent.config.modelRuntimeConfig
      case None => r.payload.model == None && r.payload.provider == None
      case Some(rc) => r.payload.model == Some(rc.model) && r.payload.provider == Some(rc.provider)
  {
  }

  /** More than one requested call: all of them go out as one batch, in order. */
  lemma ManyCallsBatched<M, T, C, P>(agent: GeneralAgent, payload: LlmResultPayload<C, P>, state: AgentState<M, T>)
    requires payload.hasToolsCalling && |payload.result.toolCalls| > 1
    ensures agent.Decide(LlmResult(payload), state) == CallToolsBatch(payload.result.toolCalls)
  {
  }

  /** Exactly one requested call: it goes out on its own. */
  lemma OneCallDispatched<M, T, C, P>(agent: GeneralAgent, payload: LlmResultPayload<C, P>, state: AgentState<M, T>)
    requires payload.hasToolsCalling && |payload.result.toolCalls| == 1
    ensures agent.Decide(LlmResult(payload), state) == CallTool(payload.result.toolCalls[0])
  {
  }

  /**
   * Nothing to call, either because the model did not ask for tools or because
   * it asked with an empty list: the turn completes.
   */
  lemma NoCallsCompletes<M, T, C, P>(agent: GeneralAgent, payload: LlmResultPayload<C, P>, state: AgentState<M, T>)
    requires !payload.hasToolsCalling || payload.result.toolCalls == []
    ensures agent.Decide(LlmResult(payload), state) ==
            Finish(Completed, "General agent completed successfully")
  {
  }

  /**
   * After a model answer, the executor receives exactly the tool calls the model
   * requested when it flagged a tool call, and none otherwise: no call is
   * dropped, duplicated or reordered.
   */
  lemma NoToolCallDropped<M, T, C, P>(agent: GeneralAgent, payload: LlmResultPayload<C, P>, state: AgentState<M, T>)
    ensures Dispatched(agent.Decide(LlmResult(payload), state)) ==
            if payload.hasToolsCalling then payload.result.toolCalls else []
  {
  }

  /** The converted `toolsCalling` list never influences the instruction. */
  lemma ToolsCallingIgnored<M, T, C, P>(agent: GeneralAgent, a: LlmResultPayload<C, P>, b: LlmResultPayload<C, P>, state: AgentState<M, T>)
    requires a.hasToolsCalling == b.hasToolsCalling && a.result.toolCalls == b.result.toolCalls
    ensures agent.Decide(LlmResult(a), state) == agent.Decide(LlmResult(b), state)
  {
  }

  /** After one tool or a batch of tools, control returns to the model exactly as after user input. */
  lemma ToolResultsReturnToLlm<M, T, C, P>(agent: GeneralAgent, state: AgentState<M, T>)
    ensures agent.Decide<M, T, C, P>(ToolResult, state) == agent.Decide<M, T, C, P>(UserInput, state)
    ensures agent.Decide<M, T, C, P>(ToolsBatchResult, state) == agent.Decide<M, T, C, P>(UserInput, state)
  {
  }

  /** Any tag the controller does not recognise ends the turn with a diagnostic naming the tag. */
  lemma UnknownPhaseRecovers<M, T, C, P>(agent: GeneralAgent, tag: string, llm: LlmResultPayload<C, P>, state: AgentState<M, T>)
    requires !IsKnownTag(tag)
    ensures agent.Decide(PhaseOf(tag, llm), state) == Finish(ErrorRecovery, "Unknown phase: " + tag)
  {
  }

  /**
   * The decision depends on the configuration only through its model runtime
   * part: session, user and agent options (including `maxSteps`) change nothing.
   */
  lemma OnlyModelConfigMatters<M, T, C, P>(a: GeneralAgent, b: GeneralAgent, phase: Phase<C, P>, state: AgentState<M, T>)
    requires WellFormed(phase)
    requires a.config.modelRuntimeConfig == b.config.modelRuntimeConfig
    ensures a.Decide(phase, state) == b.Decide(phase, state)
  {
  }
}
