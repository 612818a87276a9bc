/**
 * The turn engine of `llm_inference/llm/inference.py`: `llm_turn` calls the model, appends its
 * reply to the caller's conversation, runs the tools the reply asks for and appends one
 * tool-role message per call, until the model answers without tool calls or one of two budgets
 * (model calls, conversation length) is used up.
 *
 * The model gateway `litellm_call` is a function parameter from (conversation, model config,
 * tool schemas) to a reply or a failure. Within one `llm_turn` every model call sees a strictly
 * longer conversation than the one before, so a function of the conversation can play any
 * sequence of replies. Running a registered tool (decoding its JSON arguments and calling it) is
 * a function parameter from (function, argument text) to a result text or a failure.
 */
module Inference {
  import opened Wrappers
  import Tools

  // ---------------------------------------------------------------------------
  // Configuration
  // ---------------------------------------------------------------------------

  const DefaultModelName: string := "novita/moonshotai/kimi-k2.5"
  const DefaultMaxTokens: int := 262144
  /** The sampling temperature is handed to the gateway unchanged and never computed with. */
  const DefaultTemperature: real := 0.7
  const DefaultMaxTurnsLlmConsecutive: int := 5
  const DefaultMaxTurnsSession: int := 20

  datatype ModelConfig = ModelConfig(modelName: string, temperature: real, maxTokens: int)

  /** The two budgets: model calls per `llm_turn`, and conversation length before a model call. */
  datatype InferenceConfig = InferenceConfig(maxTurnsLlmConsecutive: int, maxTurnsSession: int)

  /** `ModelConfig()` */
  function DefaultModelConfig(): ModelConfig {
    ModelConfig(DefaultModelName, DefaultTemperature, DefaultMaxTokens)
  }

  /** `InferenceConfig()` */
  function DefaultInferenceConfig(): InferenceConfig {
    InferenceConfig(DefaultMaxTurnsLlmConsecutive, DefaultMaxTurnsSession)
  }

  /** The defaults of both configuration records. */
  lemma Defaults()
    ensures DefaultModelConfig() == ModelConfig("novita/moonshotai/kimi-k2.5", 0.7, 262144)
    ensures DefaultInferenceConfig() == InferenceConfig(5, 20)
  {
  }

  // ---------------------------------------------------------------------------
  // Messages
  // ---------------------------------------------------------------------------

  datatype Role = System | User | Assistant | Tool

  /** One tool call the model asks for: `id`, `function.name`, `function.arguments` (JSON text). */
  datatype ToolCall = ToolCall(id: string, name: string, arguments: string)

  /** The assistant message of a model response: its text and its tool calls, either may be absent. */
  datatype Reply = Reply(content: Option<string>, toolCalls: Option<seq<ToolCall>>)

  /** What one gateway call gives: a reply, or the failure it raised (transport, quota, ...). */
  datatype GatewayResult = Replied(reply: Reply) | GatewayFailed(reason: string)

  /** A message as a dictionary; absent keys are `None`. */
  datatype Message = Message(
    role: Role,
    content: Option<string>,
    toolCalls: Option<seq<ToolCall>>,
    toolCallId: Option<string>,
    name: Option<string>)

  /**
   * One element of the conversation list: a dictionary, or some other object the caller put
   * there (the list is untyped; every element `llm_turn` appends is a dictionary).
   */
  datatype Entry = Dict(message: Message) | Object(description: string)

  // ---------------------------------------------------------------------------
  // Outcomes
  // ---------------------------------------------------------------------------

  /** Why running a registered tool failed: its arguments are not valid JSON, or it raised. */
  datatype ToolFailure = MalformedArguments(detail: string) | ToolRaised(detail: string)

  datatype ToolOutcome = Returned(result: string) | Failed(failure: ToolFailure)

  /** The exceptions that propagate out of `llm_turn`. */
  datatype Exception =
    | ModelCallFailed(reason: string)
    | ToolCallFailed(call: ToolCall, failure: ToolFailure)
    /** `messages[-1]` on an empty list at the end of `llm_turn` (line 113). */
    | IndexError

  /** What `llm_turn` does: return a (possibly absent) text, or raise. */
  datatype TurnOutcome = Answer(content: Option<string>) | Raised(exception: Exception)

  /** Everything `llm_turn` depends on besides the conversation. */
  datatype Env = Env(
    gateway: (seq<Entry>, ModelConfig, Option<seq<Tools.ToolSchema>>) -> GatewayResult,
    modelConfig: ModelConfig,
    inferenceConfig: InferenceConfig,
    tools: Option<seq<Tools.ToolSchema>>,
    toolFunctions: map<string, Tools.ToolFunction>,
    execute: (Tools.ToolFunction, string) -> ToolOutcome)

  function MaxCalls(env: Env): int {
    env.inferenceConfig.maxTurnsLlmConsecutive
  }

  function MaxLength(env: Env): int {
    env.inferenceConfig.maxTurnsSession
  }

  /** One model call on the conversation `msgs`. */
  function CallModel(env: Env, msgs: seq<Entry>): GatewayResult {
    env.gateway(msgs, env.modelConfig, env.tools)
  }

  // ---------------------------------------------------------------------------
  // The pieces of one turn
  // ---------------------------------------------------------------------------

  /** The dictionary appended for a reply (`message.model_dump(exclude_none=True)`). */
  function AssistantEntry(reply: Reply): Entry {
    Dict(Message(Assistant, reply.content, reply.toolCalls, None, None))
  }

  /** `message.tool_calls` is truthy: present and non-empty. */
  predicate HasToolCalls(reply: Reply) {
    reply.toolCalls.Some? && reply.toolCalls.value != []
  }

  /** The content of the message answering a call to a tool that is not registered. */
  function UnknownToolContent(name: string): string {
    "Error: Unknown tool '" + name + "'"
  }

  /** The tool-role dictionary answering `call` with `content`. */
  function ToolEntry(call: ToolCall, content: string): Entry {
    Dict(Message(Tool, Some(content), None, Some(call.id), Some(call.name)))
  }

  /** The content answering `call`: the registered tool's result, or the unknown-tool error text. */
  function ToolContent(env: Env, call: ToolCall): Result<string, ToolFailure> {
    if call.name in env.toolFunctions then
      match env.execute(env.toolFunctions[call.name], call.arguments)
      case Returned(result) => Success(result)
      case Failed(failure) => Failure(failure)
    else
      Success(UnknownToolContent(call.name))
  }

  datatype Dispatched = Dispatched(messages: seq<Entry>, failure: Option<Exception>)

  /** The inner loop: answer `calls` in order, appending to `msgs`, stopping at the first failure. */
  function Dispatch(env: Env, msgs: seq<Entry>, calls: seq<ToolCall>): Dispatched
    decreases |calls|
  {
    if calls == [] then Dispatched(msgs, None)
    else
      match ToolContent(env, calls[0])
      case Success(content) => Dispatch(env, msgs + [ToolEntry(calls[0], content)], calls[1..])
      case Failure(failure) => Dispatched(msgs, Some(ToolCallFailed(calls[0], failure)))
  }

  /** What one iteration of the outer loop leads to: another iteration, or the end of `llm_turn`. */
  datatype StepResult = Continue(next: seq<Entry>) | Stop(final: seq<Entry>, outcome: TurnOutcome)

  /** One iteration of the outer loop, from the model call on `msgs`. */
  function Step(env: Env, msgs: seq<Entry>): StepResult {
    match CallModel(env, msgs)
    case GatewayFailed(reason) => Stop(msgs, Raised(ModelCallFailed(reason)))
    case Replied(reply) =>
      var withReply := msgs + [AssistantEntry(reply)];
      if !HasToolCalls(reply) then Stop(withReply, Answer(reply.content))
      else
        var d := Dispatch(env, withReply, reply.toolCalls.value);
        if d.failure.None? then Continue(d.messages) else Stop(d.messages, Raised(d.failure.value))
  }

  /**
   * The result when the loop condition fails: `messages[-1].get("content")` for a dictionary,
   * `None` for any other object, and `IndexError` when the list is empty.
   */
  function AtBudget(msgs: seq<Entry>): TurnOutcome {
    if msgs == [] then Raised(IndexError)
    else
      match msgs[|msgs| - 1]
      case Dict(m) => Answer(m.content)
      case Object(_) => Answer(None)
  }

  /**
   * The whole run: the final conversation, the outcome, and the conversations the model was
   * called on, one per model call, in order.
   */
  datatype RunResult = RunResult(messages: seq<Entry>, outcome: TurnOutcome, prompts: seq<seq<Entry>>) {
    function AfterCall(prompt: seq<Entry>): RunResult {
      RunResult(messages, outcome, [prompt] + prompts)
    }
  }

  predicate LoopGuard(env: Env, msgs: seq<Entry>, turnCount: int) {
    turnCount < MaxCalls(env) && |msgs| < MaxLength(env)
  }

  /** The outer loop from the state (`msgs`, `turnCount`). */
  function Loop(env: Env, msgs: seq<Entry>, turnCount: int): RunResult
    decreases MaxCalls(env) - turnCount
  {
    if LoopGuard(env, msgs, turnCount) then
      match Step(env, msgs)
      case Continue(next) => Loop(env, next, turnCount + 1).AfterCall(msgs)
      case Stop(final, outcome) => RunResult(final, outcome, [msgs])
    else
      RunResult(msgs, AtBudget(msgs), [])
  }

  /** `llm_turn` on the conversation `msgs`. */
  function Run(env: Env, msgs: seq<Entry>): RunResult {
    Loop(env, msgs, 0)
  }

  // ---------------------------------------------------------------------------
  // Properties of one iteration
  // ---------------------------------------------------------------------------

  /**
   * The inner loop answers a prefix of `calls` in order: the `i`-th appended message is the
   * tool-role answer to the `i`-th call, carrying its id and name; it stops exactly at the first
   * call whose tool fails, raising that failure, and otherwise answers every call.
   */
  lemma {:induction false} DispatchSpec(env: Env, msgs: seq<Entry>, calls: seq<ToolCall>)
    ensures var d := Dispatch(env, msgs, calls);
            var n := |d.messages| - |msgs|;
            && msgs <= d.messages && 0 <= n <= |calls|
            && (forall i :: 0 <= i < n ==>
                  && ToolContent(env, calls[i]).Success?
                  && d.messages[|msgs| + i] == ToolEntry(calls[i], ToolContent(env, calls[i]).value))
            && (d.failure.None? ==> n == |calls|)
            && (d.failure.Some? ==>
                  && n < |calls| && ToolContent(env, calls[n]).Failure?
                  && d.failure.value == ToolCallFailed(calls[n], ToolContent(env, calls[n]).error))
    decreases |calls|
  {
    if calls != [] {
      match ToolContent(env, calls[0])
      case Success(content) =>
        var next := msgs + [ToolEntry(calls[0], content)];
        DispatchSpec(env, next, calls[1..]);
        var d := Dispatch(env, next, calls[1..]);
        forall i | 0 <= i < |d.messages| - |msgs|
          ensures ToolContent(env, calls[i]).Success?
          ensures d.messages[|msgs| + i] == ToolEntry(calls[i], ToolContent(env, calls[i]).value)
        {
          if i > 0 {
            assert calls[i] == calls[1..][i - 1];
          }
        }
        if d.failure.Some? {
          assert calls[|d.messages| - |msgs|] == calls[1..][|d.messages| - |next|];
        }
      case Failure(_) =>
    }
  }

  /** The inner loop raises nothing exactly when every call's tool succeeds (or is unknown). */
  lemma DispatchFailsIff(env: Env, msgs: seq<Entry>, calls: seq<ToolCall>)
    ensures Dispatch(env, msgs, calls).failure.None? <==>
              forall i :: 0 <= i < |calls| ==> ToolContent(env, calls[i]).Success?
  {
    DispatchSpec(env, msgs, calls);
  }

  /**
   * Calls to tools that are not registered never raise: each gets a tool-role message naming the
   * unknown tool, in order, and the loop goes on.
   */
  lemma UnknownToolsAnswered(env: Env, msgs: seq<Entry>, calls: seq<ToolCall>)
    requires forall i :: 0 <= i < |calls| ==> calls[i].name !in env.toolFunctions
    ensures var d := Dispatch(env, msgs, calls);
            && d.failure.None?
            && |d.messages| == |msgs| + |calls| && msgs <= d.messages
            && forall i :: 0 <= i < |calls| ==>
                 d.messages[|msgs| + i] ==
                   Dict(Message(Tool, Some("Error: Unknown tool '" + calls[i].name + "'"), None,
                                Some(calls[i].id), Some(calls[i].name)))
  {
    DispatchSpec(env, msgs, calls);
  }

  /**
   * One iteration. A gateway failure appends nothing and raises. Otherwise the assistant
   * message is appended first; a reply without tool calls ends the turn with its content; a
   * reply with calls `t1..tn` continues exactly when no tool fails, after appending one tool-role
   * message per call, in order, and otherwise raises the first failure.
   */
  lemma StepSpec(env: Env, msgs: seq<Entry>)
    ensures var g := CallModel(env, msgs);
            var s := Step(env, msgs);
            && (g.GatewayFailed? ==> s == Stop(msgs, Raised(ModelCallFailed(g.reason))))
            && (g.Replied? && !HasToolCalls(g.reply) ==>
                  s == Stop(msgs + [AssistantEntry(g.reply)], Answer(g.reply.content)))
            && (g.Replied? && HasToolCalls(g.reply) ==>
                  var calls := g.reply.toolCalls.value;
                  var withReply := msgs + [AssistantEntry(g.reply)];
                  && (s.Continue? <==> forall i :: 0 <= i < |calls| ==> ToolContent(env, calls[i]).Success?)
                  && (s.Continue? ==>
                        && |s.next| == |msgs| + 1 + |calls| && withReply <= s.next
                        && forall i :: 0 <= i < |calls| ==>
                             s.next[|withReply| + i] == ToolEntry(calls[i], ToolContent(env, calls[i]).value))
                  && (s.Stop? ==> withReply <= s.final && s.outcome.Raised? && s.outcome.exception.ToolCallFailed?))
  {
    var g := CallModel(env, msgs);
    if g.Replied? && HasToolCalls(g.reply) {
      DispatchSpec(env, msgs + [AssistantEntry(g.reply)], g.reply.toolCalls.value);
    }
  }

  /** Every iteration extends the conversation it starts from; one that continues adds the reply at least. */
  lemma StepExtends(env: Env, msgs: seq<Entry>)
    ensures Step(env, msgs).Continue? ==> msgs < Step(env, msgs).next
    ensures Step(env, msgs).Stop? ==> msgs <= Step(env, msgs).final
    ensures Step(env, msgs).Stop? && CallModel(env, msgs).Replied? ==> msgs < Step(env, msgs).final
  {
    StepSpec(env, msgs);
  }

  // ---------------------------------------------------------------------------
  // Properties of the whole loop
  // ---------------------------------------------------------------------------

  /**
   * The loop as a sequence of model calls: the first call is on the starting conversation and
   * each call is made with the loop guard true (turn count below the model-call budget,
   * conversation shorter than the session budget); each continuing iteration leads to the next
   * call's conversation; the last call either ends the turn itself or leaves a conversation on
   * which the guard fails, whose last message gives the result. With no call at all the guard
   * failed at once and the conversation is unchanged.
   */
  lemma {:induction false} LoopTrace(env: Env, msgs: seq<Entry>, t: int)
    ensures var r := Loop(env, msgs, t);
            var n := |r.prompts|;
            && (n == 0 <==> !LoopGuard(env, msgs, t))
            && (n == 0 ==> r.messages == msgs && r.outcome == AtBudget(msgs))
            && (n > 0 ==> r.prompts[0] == msgs)
            && (forall k :: 0 <= k < n ==> LoopGuard(env, r.prompts[k], t + k))
            && (forall k :: 0 <= k < n - 1 ==> Step(env, r.prompts[k]) == Continue(r.prompts[k + 1]))
            && (n > 0 ==>
                  || Step(env, r.prompts[n - 1]) == Stop(r.messages, r.outcome)
                  || (&& Step(env, r.prompts[n - 1]) == Continue(r.messages)
                      && !LoopGuard(env, r.messages, t + n)
                      && r.outcome == AtBudget(r.messages)))
    decreases MaxCalls(env) - t
  {
    if LoopGuard(env, msgs, t) {
      match Step(env, msgs)
      case Continue(next) =>
        LoopTrace(env, next, t + 1);
        var rest := Loop(env, next, t + 1);
        var r := rest.AfterCall(msgs);
        assert r == Loop(env, msgs, t);
        forall k | 0 < k < |r.prompts| ensures r.prompts[k] == rest.prompts[k - 1] { }
      case Stop(_, _) =>
    }
  }

  /**
   * The budgets: at most `max_turns_llm_consecutive` model calls (none when it is not positive),
   * and the model is only called on a conversation shorter than `max_turns_session`.
   */
  lemma CallBudget(env: Env, msgs: seq<Entry>)
    ensures var r := Run(env, msgs);
            && |r.prompts| <= (if MaxCalls(env) > 0 then MaxCalls(env) else 0)
            && forall k :: 0 <= k < |r.prompts| ==> |r.prompts[k]| < MaxLength(env)
  {
    LoopTrace(env, msgs, 0);
    var r := Run(env, msgs);
    if |r.prompts| > 0 {
      assert LoopGuard(env, r.prompts[|r.prompts| - 1], |r.prompts| - 1);
    }
  }

  /** The default budgets allow at most five model calls, each on fewer than twenty messages. */
  lemma DefaultBudget(modelConfig: ModelConfig, msgs: seq<Entry>,
                      gateway: (seq<Entry>, ModelConfig, Option<seq<Tools.ToolSchema>>) -> GatewayResult,
                      tools: Option<seq<Tools.ToolSchema>>, toolFunctions: map<string, Tools.ToolFunction>,
                      execute: (Tools.ToolFunction, string) -> ToolOutcome)
    ensures var r := Run(Env(gateway, modelConfig, DefaultInferenceConfig(), tools, toolFunctions, execute), msgs);
            && |r.prompts| <= 5
            && forall k :: 0 <= k < |r.prompts| ==> |r.prompts[k]| < 20
  {
    CallBudget(Env(gateway, modelConfig, DefaultInferenceConfig(), tools, toolFunctions, execute), msgs);
  }

  /**
   * The conversation is append-only: the final list extends the starting one, every model call
   * saw a prefix of the final list, and each call saw a strictly longer list than the one before.
   */
  lemma {:induction false} AppendOnly(env: Env, msgs: seq<Entry>, t: int)
    ensures var r := Loop(env, msgs, t);
            && msgs <= r.messages
            && (forall k :: 0 <= k < |r.prompts| ==> r.prompts[k] <= r.messages)
            && (forall k :: 0 <= k < |r.prompts| - 1 ==> r.prompts[k] < r.prompts[k + 1])
    decreases MaxCalls(env) - t
  {
    if LoopGuard(env, msgs, t) {
      StepExtends(env, msgs);
      match Step(env, msgs)
      case Continue(next) =>
        AppendOnly(env, next, t + 1);
        var rest := Loop(env, next, t + 1);
        var r := rest.AfterCall(msgs);
        assert r == Loop(env, msgs, t);
        forall k | 0 < k < |r.prompts| ensures r.prompts[k] == rest.prompts[k - 1] { }
        LoopTrace(env, next, t + 1);
      case Stop(_, _) =>
    }
  }

  /**
   * Each model call that replies has its assistant message appended right after the
   * conversation it was called on, also on the last call the budget allows; a call that fails is
   * the last one, and the conversation stays as that call saw it.
   */
  lemma AssistantAfterEachCall(env: Env, msgs: seq<Entry>, t: int)
    ensures var r := Loop(env, msgs, t);
            forall k :: 0 <= k < |r.prompts| ==>
              var g := CallModel(env, r.prompts[k]);
              && (g.Replied? ==>
                    |r.prompts[k]| < |r.messages| && r.messages[|r.prompts[k]|] == AssistantEntry(g.reply))
              && (g.GatewayFailed? ==>
                    k == |r.prompts| - 1 && r.messages == r.prompts[k]
                    && r.outcome == Raised(ModelCallFailed(g.reason)))
  {
    LoopTrace(env, msgs, t);
    AppendOnly(env, msgs, t);
    var r := Loop(env, msgs, t);
    forall k | 0 <= k < |r.prompts|
      ensures var g := CallModel(env, r.prompts[k]);
              && (g.Replied? ==>
                    |r.prompts[k]| < |r.messages| && r.messages[|r.prompts[k]|] == AssistantEntry(g.reply))
              && (g.GatewayFailed? ==>
                    k == |r.prompts| - 1 && r.messages == r.prompts[k]
                    && r.outcome == Raised(ModelCallFailed(g.reason)))
    {
      var p := r.prompts[k];
      StepSpec(env, p);
      var g := CallModel(env, p);
      var after := if k < |r.prompts| - 1 then r.prompts[k + 1] else
                     match Step(env, p) case Continue(next) => next case Stop(final, _) => final;
      assert after <= r.messages;
      if g.Replied? {
        assert (p + [AssistantEntry(g.reply)]) <= after;
        assert after[|p|] == AssistantEntry(g.reply);
      }
    }
  }

  /**
   * A reply without tool calls, on a call the budgets allow, ends the turn at once with that
   * reply's content, after appending it, with no further model call.
   */
  lemma NoToolCallsEndsTurn(env: Env, msgs: seq<Entry>, t: int)
    requires LoopGuard(env, msgs, t)
    requires CallModel(env, msgs).Replied? && !HasToolCalls(CallModel(env, msgs).reply)
    ensures Loop(env, msgs, t) ==
              RunResult(msgs + [AssistantEntry(CallModel(env, msgs).reply)],
                        Answer(CallModel(env, msgs).reply.content), [msgs])
  {
  }

  /** When the guard fails before any call, nothing is called or appended and the last message gives the result. */
  lemma ExhaustedBeforeAnyCall(env: Env, msgs: seq<Entry>, t: int)
    requires !LoopGuard(env, msgs, t)
    ensures Loop(env, msgs, t) == RunResult(msgs, AtBudget(msgs), [])
  {
  }

  /**
   * A raised exception always comes from the last model call's iteration, never from a later
   * step: after it nothing is called or appended.
   */
  lemma RaisedEndsRun(env: Env, msgs: seq<Entry>, t: int)
    ensures var r := Loop(env, msgs, t);
            r.outcome.Raised? && r.outcome.exception != IndexError ==>
              |r.prompts| > 0 && Step(env, r.prompts[|r.prompts| - 1]) == Stop(r.messages, r.outcome)
  {
    LoopTrace(env, msgs, t);
    var r := Loop(env, msgs, t);
    if r.outcome.Raised? && r.outcome.exception != IndexError && |r.prompts| > 0 {
      StepExtends(env, r.prompts[|r.prompts| - 1]);
    }
  }

  /** After at least one appended message, the fallback result never raises. */
  lemma {:induction false} NonEmptyNeverIndexError(env: Env, msgs: seq<Entry>, t: int)
    requires msgs != []
    ensures Loop(env, msgs, t).outcome != Raised(IndexError)
    decreases MaxCalls(env) - t
  {
    if LoopGuard(env, msgs, t) {
      StepSpec(env, msgs);
      match Step(env, msgs)
      case Continue(next) => NonEmptyNeverIndexError(env, next, t + 1);
      case Stop(_, _) =>
    }
  }

  /**
   * `messages[-1]` raises `IndexError` exactly when the conversation is empty and the loop does
   * not run; a single model call makes the list non-empty or raises the gateway's failure.
   */
  lemma IndexErrorIff(env: Env, msgs: seq<Entry>, t: int)
    ensures Loop(env, msgs, t).outcome == Raised(IndexError) <==> msgs == [] && !LoopGuard(env, msgs, t)
  {
    if msgs == [] && LoopGuard(env, msgs, t) {
      StepSpec(env, msgs);
      match Step(env, msgs)
      case Continue(next) => NonEmptyNeverIndexError(env, next, t + 1);
      case Stop(_, _) =>
    } else if msgs != [] {
      NonEmptyNeverIndexError(env, msgs, t);
    }
  }

  /** The gateway always replies with exactly one tool call, whose tool does not fail. */
  ghost predicate AlwaysOneToolCall(env: Env) {
    forall p :: CallModel(env, p).Replied? &&
      var calls := CallModel(env, p).reply.toolCalls;
      calls.Some? && |calls.value| == 1 && ToolContent(env, calls.value[0]).Success?
  }

  /**
   * A model that always asks for a tool never ends the turn itself: when the session budget has
   * room for two messages per remaining call, exactly `max_turns_llm_consecutive - turn_count`
   * calls are made and the result falls back to the last message.
   */
  lemma {:induction false} AlwaysToolCallsUsesWholeBudget(env: Env, msgs: seq<Entry>, t: int)
    requires AlwaysOneToolCall(env)
    requires t <= MaxCalls(env) && |msgs| + 2 * (MaxCalls(env) - t) <= MaxLength(env)
    ensures var r := Loop(env, msgs, t);
            && |r.prompts| == MaxCalls(env) - t
            && |r.messages| == |msgs| + 2 * (MaxCalls(env) - t)
            && r.outcome == AtBudget(r.messages)
    decreases MaxCalls(env) - t
  {
    if t < MaxCalls(env) {
      StepSpec(env, msgs);
      var g := CallModel(env, msgs);
      assert g.Replied? && HasToolCalls(g.reply);
      assert Step(env, msgs).Continue?;
      var next := Step(env, msgs).next;
      AlwaysToolCallsUsesWholeBudget(env, next, t + 1);
    }
  }

  /**
   * With `max_turns_llm_consecutive = 2`, the default session budget and a conversation of a
   * system and a user message, a model that always asks for a tool is called exactly twice.
   */
  lemma TwoCallsWhenAlwaysAskingForTools(env: Env, system: Entry, user: Entry)
    requires env.inferenceConfig == InferenceConfig(2, DefaultMaxTurnsSession)
    requires AlwaysOneToolCall(env)
    ensures |Run(env, [system, user]).prompts| == 2
  {
    AlwaysToolCallsUsesWholeBudget(env, [system, user], 0);
  }

  // ---------------------------------------------------------------------------
  // The imperative turn engine
  // ---------------------------------------------------------------------------

  /** The caller's conversation list, which `llm_turn` extends in place. */
  class Conversation {
    var messages: seq<Entry>

    constructor (initial: seq<Entry>)
      ensures messages == initial
    {
      messages := initial;
    }
  }

  /**
   * `llm_turn`. On return or on a raised exception, `conversation.messages` holds everything
   * appended so far, as `Run` describes; the ghost `issued` records the conversation of every
   * gateway call, in order, and equals `Run`'s list of prompts.
   */
  method LlmTurn(
    conversation: Conversation,
    modelConfig: ModelConfig,
    inferenceConfig: InferenceConfig,
    tools: Option<seq<Tools.ToolSchema>>,
    registry: Tools.Registry,
    gateway: (seq<Entry>, ModelConfig, Option<seq<Tools.ToolSchema>>) -> GatewayResult,
    execute: (Tools.ToolFunction, string) -> ToolOutcome)
    returns (outcome: TurnOutcome, ghost issued: seq<seq<Entry>>)
    modifies conversation
    ensures var r := Run(Env(gateway, modelConfig, inferenceConfig, tools, registry.functions, execute),
                         old(conversation.messages));
            conversation.messages == r.messages && outcome == r.outcome && issued == r.prompts
  {
    ghost var env := Env(gateway, modelConfig, inferenceConfig, tools, registry.functions, execute);
    ghost var initial := conversation.messages;
    issued := [];
    var turnCount := 0;
    while turnCount < inferenceConfig.maxTurnsLlmConsecutive
          && |conversation.messages| < inferenceConfig.maxTurnsSession
      invariant Run(env, initial) == Loop(env, conversation.messages, turnCount).(prompts := issued + Loop(env, conversation.messages, turnCount).prompts)
      decreases inferenceConfig.maxTurnsLlmConsecutive - turnCount
    {
      ghost var before := conversation.messages;
      ghost var earlier := Loop(env, before, turnCount);
      turnCount := turnCount + 1;
      issued := issued + [before];
      var response := gateway(conversation.messages, modelConfig, tools);
      if response.GatewayFailed? {
        outcome := Raised(ModelCallFailed(response.reason));
        return;
      }
      var message := response.reply;
      conversation.messages := conversation.messages + [AssistantEntry(message)];
      if !HasToolCalls(message) {
        outcome := Answer(message.content);
        return;
      }
      var calls := message.toolCalls.value;
      for i := 0 to |calls|
        invariant Dispatch(env, conversation.messages, calls[i..]) == Dispatch(env, before + [AssistantEntry(message)], calls)
      {
        var call := calls[i];
        assert calls[i..][1..] == calls[i + 1..];
        if call.name in registry.functions {
          var result := execute(registry.functions[call.name], call.arguments);
          if result.Failed? {
            outcome := Raised(ToolCallFailed(call, result.failure));
            return;
          }
          conversation.messages := conversation.messages + [ToolEntry(call, result.result)];
        } else {
          conversation.messages := conversation.messages + [ToolEntry(call, UnknownToolContent(call.name))];
        }
      }
      assert calls[|calls|..] == [];
    }
    outcome := AtBudget(conversation.messages);
  }
}
