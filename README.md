# GeneralAgent turn controller in Dafny

This project models the turn controller of the server-side agent runtime. `GeneralAgent.runner` takes the phase an agent loop is in and the conversation state. It returns the single orchestration instruction that comes next:

- `call_llm`: a model call carrying the current messages and tools, plus the model and provider from the configuration;
- `call_tool`: one tool call;
- `call_tools_batch`: several tool calls at once;
- `finish`: the turn ends, with `completed` or `error_recovery` as the reason.

Everything is in `general_agent.dfy`, in the module `AgentRuntime`:

- **Data.** The configuration (`ChatAgentConfig`), the `llm_result` payload (`LlmResultPayload`) and the conversation state (`AgentState`) are datatypes. Messages, tool descriptors and tool calls are opaque type parameters.
- **Phases.** A phase is a tagged union, `Phase`, that carries the `llm_result` payload. Any tag the controller does not recognise is kept verbatim in `Unknown(tag)`. `PhaseOf` reads a raw tag. `Tag` gives the raw tag back.
- **The `as any` casts.** These become the identity adapters `AsToolCall` and `AsToolsCalling`.
- **The class.** `GeneralAgent` holds its `config` in a constant field. Its pure function `Decide` is the phase switch. The method `Runner` returns what `Decide` returns. `GetConfig` returns the configuration given to the constructor.

The source also covers the case where `hasToolsCalling` is true but `tool_calls` is empty. Neither dispatch branch fires, so control falls through to `finish` with reason `completed`. The model does the same.

## Model

| member | source | states |
|---|---|---|
| AgentRuntime.GeneralAgent.constructor | src/server/modules/AgentRuntime/GeneralAgent.ts:35-39 | `GetConfig()` returns exactly the configuration the agent was built with; the class never changes it |
| AgentRuntime.GeneralAgent.GetConfig | src/server/modules/AgentRuntime/GeneralAgent.ts:126-128 | Returns the configuration held in the `config` field |
| AgentRuntime.GeneralAgent.Decide | src/server/modules/AgentRuntime/GeneralAgent.ts:47-115 | For any phase the execution context can deliver, stated on its raw tag: gives a model call exactly for the tags `user_input`, `tool_result` and `tools_batch_result`. Gives a tool dispatch only for `llm_result` with `hasToolsCalling` set. Gives `error_recovery` exactly for a tag outside the four recognised ones. Gives `finish` exactly for such a tag, or for an `llm_result` that dispatches nothing |
| AgentRuntime.GeneralAgent.Runner | src/server/modules/AgentRuntime/GeneralAgent.ts:41-46 | Returns one instruction, never a list, and never a failure for a well-typed payload: the one `Decide` picks for this configuration, phase and state. With the configuration and state taken as values, equal inputs give equal instructions |
| AgentRuntime.PhaseOf | src/server/modules/AgentRuntime/GeneralAgent.ts:47-115 | Reading a raw phase tag yields a phase whose tag is that string. The result never files a recognised tag under `Unknown`. For `llm_result` it carries the given payload |
| AgentRuntime.PhaseOfTag | src/server/modules/AgentRuntime/GeneralAgent.ts:47-115 | Reading the tag of any well-formed phase gives that phase back |
| AgentRuntime.UnknownPhaseDetail | src/server/modules/AgentRuntime/GeneralAgent.ts:111 | The diagnostic is the prefix `Unknown phase: ` followed by the offending tag, which can be read back from it |
| AgentRuntime.UnknownPhaseDetailInjective | src/server/modules/AgentRuntime/GeneralAgent.ts:111 | Different unrecognised tags give different diagnostics |
| AgentRuntime.AsToolCall | src/server/modules/AgentRuntime/GeneralAgent.ts:80 | The cast of the single raw tool call is the identity: the instruction carries that same call |
| AgentRuntime.AsToolsCalling | src/server/modules/AgentRuntime/GeneralAgent.ts:74 | Stands for the cast of the whole `tool_calls` list, which is the identity: the same calls in the same order. It is written through the single-call adapter |
| AgentRuntime.ModelOf | src/server/modules/AgentRuntime/GeneralAgent.ts:53 | The optional chaining `modelRuntimeConfig?.model`: present exactly when the runtime configuration is, and then its model |
| AgentRuntime.ProviderOf | src/server/modules/AgentRuntime/GeneralAgent.ts:54 | The optional chaining `modelRuntimeConfig?.provider`: present exactly when the runtime configuration is, and then its provider |
| AgentRuntime.UserInputCallsLlm | src/server/modules/AgentRuntime/GeneralAgent.ts:48-58 | `user_input` gives `call_llm`. Its messages and tools are exactly the state's. Its model and provider are those of `modelRuntimeConfig`, and both are absent when that configuration is absent |
| AgentRuntime.ManyCallsBatched | src/server/modules/AgentRuntime/GeneralAgent.ts:66-76 | With `hasToolsCalling` set and more than one call, the answer is `call_tools_batch` holding the whole `tool_calls` list in order |
| AgentRuntime.OneCallDispatched | src/server/modules/AgentRuntime/GeneralAgent.ts:77-82 | With `hasToolsCalling` set and exactly one call, the answer is `call_tool` holding `tool_calls[0]` |
| AgentRuntime.NoCallsCompletes | src/server/modules/AgentRuntime/GeneralAgent.ts:66-91 | With `hasToolsCalling` unset, or set but with an empty `tool_calls`, the answer is `finish` with reason `completed` and detail "General agent completed successfully" |
| AgentRuntime.NoToolCallDropped | src/server/modules/AgentRuntime/GeneralAgent.ts:66-91 | After a model answer, the executor receives exactly `tool_calls` when `hasToolsCalling` is set, and nothing otherwise. No call is dropped, duplicated or reordered |
| AgentRuntime.ToolsCallingIgnored | src/server/modules/AgentRuntime/GeneralAgent.ts:20-24 | The payload's converted `toolsCalling` list never affects the instruction. Only `hasToolsCalling` and `result.tool_calls` do |
| AgentRuntime.ToolResultsReturnToLlm | src/server/modules/AgentRuntime/GeneralAgent.ts:94-106 | `tool_result` and `tools_batch_result` both give the same instruction as `user_input` for the same state and configuration |
| AgentRuntime.UnknownPhaseRecovers | src/server/modules/AgentRuntime/GeneralAgent.ts:108-114 | Any unrecognised tag gives `finish` with reason `error_recovery` and detail "Unknown phase: " followed by the tag |
| AgentRuntime.OnlyModelConfigMatters | src/server/modules/AgentRuntime/GeneralAgent.ts:7-18 | Two agents whose configurations agree on `modelRuntimeConfig` decide alike for every phase and state. The session, the user and the agent options, including `maxSteps`, never affect the instruction; `sessionId` is read only by the log call at line 45 |

## Left out

- The `debug` log line for each call to `runner` is left out. It is a diagnostic side effect with no bearing on the instruction.
- The `async`/`Promise` wrapping of `runner` is left out. `runner` never awaits anything, so it is modelled as a synchronous call.
- The declared result type `AgentInstruction | AgentInstruction[]` is narrowed to one instruction, because no branch returns a list.
- The external types `AgentInstruction`, `AgentRuntimeContext`, `AgentState`, `MessageToolCall` and `ChatToolPayload` are not part of this model. Messages, tools and tool calls are opaque type parameters.
- The execution context's untyped payload becomes one typed payload per phase, so the model cannot express a malformed `llm_result` payload. The source reads that payload unchecked (lines 63-72). It throws a TypeError when the payload itself is missing. It also throws when `hasToolsCalling` is set and `result` or `result.tool_calls` is missing. Because `runner` is `async`, its promise then rejects instead of returning a `finish` instruction. A missing `hasToolsCalling` reads as false and gives `completed` (lines 87-91). None of these failures is modelled.
- The fields of `GeneralAgentToolResultPayload` are left out: `data`, `executionTime`, `isSuccess`, `toolCall` and `toolCallId`. `runner` never reads them, so `ToolResult` and `ToolsBatchResult` carry no payload.
- The extension keys of `agentConfig` are left out: only `maxSteps` is kept, as an optional integer. None of them is ever consulted.
- The configuration, the state's `messages` and `tools` arrays and the `tool_calls` list are modelled as immutable values. The source keeps the caller's configuration object by reference (lines 35-38), and `getConfig` hands that same object out (lines 126-128). The instructions share the caller's arrays (lines 52, 55, 74) and the caller's tool-call object (line 80). A caller that mutates the configuration between two calls of `runner` therefore changes the model and provider of later instructions; the model does not capture that aliasing.
- Phases whose `Unknown` case holds one of the four recognised tags stand for no input the source can receive; `Decide` and `Runner` require a well-formed phase.
- The empty `tools` registry field is left out. The controller never uses it.
