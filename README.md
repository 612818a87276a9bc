# llm_inference: turn engine and tool registry

This project is a Dafny model of the decision logic in the `llm_inference` package. It has two parts.

**The turn engine `llm_turn`** (module `Inference`, file `inference.dfy`). It runs a bounded loop over the caller's conversation list:

- call the model;
- append the assistant message;
- return its content when it asks for no tools;
- otherwise answer every tool call in order, with one tool-role message each, and loop again.

The loop stops early when either budget is used up: the number of model calls (`max_turns_llm_consecutive`) or the conversation length (`max_turns_session`). The result is then the content of the last message.

The model has two layers:

- `Inference.LlmTurn` is an imperative method over a `Conversation` object whose message list it extends in place. Its outer `while` loop and inner `for` loop follow the source.
- Its postcondition ties the final list and the outcome to the pure specification `Inference.Run`, built from `Loop`, `Step` and `Dispatch`. The lemmas state the properties of that specification.

**The `tool` decorator and registry** (module `Tools`, file `tools.dfy`).

- A function is described by an explicit parameter list. Each parameter has a name, an optional type hint (a base type, possibly `Annotated` with metadata) and a has-default flag.
- `Tools.BuildParameters` builds the `properties` dictionary and the `required` list in a loop.
- `Tools.Registry.Tool` appends the derived schema to `tools` and stores the function under its name in `functions`.
- The `web_search` tool's schema and the formatting of its results are modelled as pure functions.

Python's `str.strip` uses the full `str.isspace` character set, and `split("\n")` and `"\n".join` are modelled exactly, with their round trips proved.

Things outside the model are parameters:

- **The model gateway** is a function from (conversation, model configuration, tool schemas) to a reply or a raised failure. Each model call within one `llm_turn` sees a strictly longer conversation than the previous call (`Inference.AppendOnly`). So a function of the conversation can play back any sequence of responses.
- **Running a registered tool** is a function from (tool function, argument text) to a result text or a failure. It covers decoding the JSON arguments and calling the function. Both failure kinds propagate out of `llm_turn`, as the code does.

## Model

| member | source | states |
|---|---|---|
| Inference.Defaults | llm_inference/llm/inference.py:16-34 | `ModelConfig()` names `novita/moonshotai/kimi-k2.5`, temperature 0.7 and 262144 max tokens; `InferenceConfig()` allows 5 consecutive model calls and a session of 20 messages |
| Inference.LlmTurn | llm_inference/llm/inference.py:56-113 | the imperative loop leaves the caller's list equal to `Run(...).messages` on the initial list, returns or raises `Run(...).outcome`, and calls the gateway on exactly the conversations `Run(...).prompts` lists, in order, using the registry's `functions` as the tool lookup |
| Inference.DispatchSpec | llm_inference/llm/inference.py:85-107 | the tool-call loop appends, after the current list, the i-th call's tool-role message with that call's id, name and result, for exactly the calls before the first failing one; it raises that failure, or answers all calls when none fails |
| Inference.DispatchFailsIff | llm_inference/llm/inference.py:85-97 | the tool-call loop raises nothing exactly when no registered tool fails on its call |
| Inference.UnknownToolsAnswered | llm_inference/llm/inference.py:98-107 | calls to unregistered names never raise; each gets, in order, a tool-role message with its id and name and content `Error: Unknown tool '<name>'` |
| Inference.StepSpec | llm_inference/llm/inference.py:77-107 | one iteration: a gateway failure raises with nothing appended; otherwise the assistant message is appended first; no tool calls (absent or empty) ends the turn with its content; with n calls the loop continues exactly when no tool fails, having appended exactly n tool messages in call order, and otherwise raises a tool failure |
| Inference.StepExtends | llm_inference/llm/inference.py:79-107 | an iteration never shortens the list, and lengthens it whenever the gateway replied |
| Inference.LoopTrace | llm_inference/llm/inference.py:66-113 | the model calls form a chain: the first is on the starting list; every call is made with turn count below `max_turns_llm_consecutive` and length below `max_turns_session`; each continuing iteration yields the next call's list; the run ends in the last iteration or at a failed guard whose last message gives the result; no call at all exactly when the guard fails at once |
| Inference.CallBudget | llm_inference/llm/inference.py:66-72 | at most `max_turns_llm_consecutive` model calls (none if it is not positive), each on a list shorter than `max_turns_session` |
| Inference.DefaultBudget | llm_inference/llm/inference.py:20-21 | under the default `InferenceConfig`, at most 5 model calls, each on fewer than 20 messages |
| Inference.AppendOnly | llm_inference/llm/inference.py:79-107 | the final list extends the initial one, every model call saw a prefix of it, and each call saw a strictly longer list than the previous one |
| Inference.AssistantAfterEachCall | llm_inference/llm/inference.py:77-79 | every replied model call, the last allowed one included, has its assistant message right after the list it was called on; a failed call is the last one and appends nothing |
| Inference.NoToolCallsEndsTurn | llm_inference/llm/inference.py:81-82 | a reply without tool calls returns its content after appending it, with exactly one model call |
| Inference.ExhaustedBeforeAnyCall | llm_inference/llm/inference.py:68-71 | when the guard fails before any call, nothing is called or appended and the result comes from the last message |
| Inference.RaisedEndsRun | llm_inference/llm/inference.py:77-89 | an exception other than line 113's `IndexError` comes from the last model call's iteration, with nothing called or appended afterwards |
| Inference.NonEmptyNeverIndexError | llm_inference/llm/inference.py:113 | starting from a non-empty list, `messages[-1]` never raises |
| Inference.IndexErrorIff | llm_inference/llm/inference.py:68-113 | `messages[-1]` (line 113) raises `IndexError` exactly when the list starts empty and the loop does not run |
| Inference.AlwaysToolCallsUsesWholeBudget | llm_inference/llm/inference.py:66-113 | a model that always asks for one succeeding tool, given session room for two messages per remaining call, is called exactly `max_turns_llm_consecutive - turn_count` times; the list grows by two per call and the result falls back to the last message |
| Inference.TwoCallsWhenAlwaysAskingForTools | llm_inference/llm/inference.py:68-72 | with a model-call budget of 2, the default session budget and two starting messages, such a model is called exactly twice |
| Tools.SchemaTypeOf | llm_inference/llm/tools.py:16-23 | the schema type is one of the six JSON type names, and it is `"string"` exactly for `str` and for types outside the table |
| Tools.CoveredByTable | llm_inference/llm/tools.py:16-23 | the table covers exactly the six base types |
| Tools.TypeMapTable | llm_inference/llm/tools.py:16-23 | str→string, int→integer, float→number, bool→boolean, list→array, dict→object, anything else→string |
| Tools.SchemaTypeDistinguishes | llm_inference/llm/tools.py:16-23 | distinct table types get distinct schema types |
| Tools.PropertyTable | llm_inference/llm/tools.py:52-66 | case by case: no hint gives `"string"` and no description; a plain hint or an `Annotated` one takes its type from the base type; `Annotated` with non-string metadata or with `""` adds no description; `Annotated` with a non-empty string adds that string as the description |
| Tools.Put | llm_inference/llm/tools.py:68 | dictionary assignment: the keys gain `key`; a new key is appended at the end; unique keys stay unique; an existing key is replaced in place |
| Tools.LookupPut | llm_inference/llm/tools.py:68 | after assignment, `key` maps to the new value and every other key is unchanged |
| Tools.PropertiesKeys | llm_inference/llm/tools.py:48-68 | `properties` has exactly one key per parameter other than `self`/`cls`, with no duplicates, and never `self` or `cls` |
| Tools.PropertiesInSignatureOrder | llm_inference/llm/tools.py:48-68 | for distinct parameter names, the i-th property belongs to the i-th kept parameter, in signature order, with that parameter's schema |
| Tools.RequiredSpec | llm_inference/llm/tools.py:71-72 | `required` names only properties and holds every kept parameter without a default; for distinct names, a parameter's name is in `required` only if it is kept and has no default |
| Tools.RequiredInSignatureOrder | llm_inference/llm/tools.py:48-72 | `required` is exactly the parameters without a default, in signature order: its k-th name belongs to the parameter at the k-th of a strictly increasing list of positions, and those positions are exactly the kept parameters without a default |
| Tools.BuildParameters | llm_inference/llm/tools.py:45-72 | the loop builds exactly the `properties` and `required` of the declarative definitions above |
| Tools.LeadingSpaces | llm_inference/llm/tools.py:43 | the length of the whitespace run at the front, which stops at the first non-whitespace character |
| Tools.TrailingSpaces | llm_inference/llm/tools.py:43 | the length of the whitespace run at the back |
| Tools.Strip | llm_inference/llm/tools.py:43 | `str.strip()`: a slice with only whitespace outside it and non-whitespace at both its ends; empty exactly for all-whitespace input |
| Tools.StripIdempotent | llm_inference/llm/tools.py:43 | stripping twice is stripping once |
| Tools.FirstLine | llm_inference/llm/tools.py:43 | `split("\n")[0]`: the longest prefix without a line feed |
| Tools.FirstLineOfJoined | llm_inference/llm/tools.py:43 | the first line of `a + "\n" + b` is `a` when `a` has no line feed |
| Tools.SplitLines | llm_inference/llm/tools.py:43 | `split("\n")` gives at least one piece, the first is the first line, none holds a line feed |
| Tools.SplitJoin | llm_inference/llm/tools.py:110-114 | splitting a `"\n".join` of a non-empty list of line-feed-free parts recovers the parts |
| Tools.JoinSplit | llm_inference/llm/tools.py:43 | joining a split recovers the string |
| Tools.DescriptionSpec | llm_inference/llm/tools.py:43 | the description is a prefix of the stripped docstring up to its first line feed, and `""` exactly when there is no docstring or it is all whitespace |
| Tools.DescriptionOfOneLine | llm_inference/llm/tools.py:43 | a one-line docstring without surrounding whitespace is its own description |
| Tools.Registry.constructor | llm_inference/llm/tools.py:12-13 | the registry starts with no schemas and no functions |
| Tools.Registry.Tool | llm_inference/llm/tools.py:26-91 | decorating appends exactly the derived schema to `tools`, sets `functions[name]` to the function, changes nothing else, keeps the registry invariant (the latest schema under each name describes the registered function) and returns the function unchanged |
| Tools.RegisterSameNameTwice | llm_inference/llm/tools.py:88-89 | registering two functions under one name raises nothing, leaves both schemas in `tools` and maps the name to the second function |
| Tools.WebSearchDescription | llm_inference/llm/tools.py:102 | the `web_search` description is `Search the web for current information.` |
| Tools.WebSearchProperties | llm_inference/llm/tools.py:97-101 | `web_search` has a string `query` and an integer `max_results`, both described, and only `query` is required |
| Tools.WebSearchSchema | llm_inference/llm/tools.py:74-102 | the full `web_search` tool schema |
| Tools.LoadToolsModule | llm_inference/llm/tools.py:88-102 | loading the module leaves exactly the `web_search` schema and function registered |
| Tools.SearchOutputLines | llm_inference/llm/tools.py:110-114 | for line-feed-free fields, the output's first line is `Search results for '<query>':` and the i-th following line is `- title: body (href)` of the i-th result, one line per result in order; with no results the header is followed by a single empty line |

## Left out

- `litellm_call` is a network call through the `litellm` library. It is the gateway function parameter. Its `config is None` default is not modelled because `llm_turn` always passes a configuration.
- The gateway parameter also covers reading `response.choices[0].message` (line 78). Exceptions are identified by where they come from (the gateway, a tool, or `messages[-1]` at line 113), not by their Python type. So an `IndexError` from a response without choices is a gateway failure, and one raised by a tool is a tool failure.
- The model configuration's fields (model name, temperature, max tokens) are passed to the gateway and never computed with. The temperature is a `real` and floating-point behaviour is not modelled.
- Running a registered tool (`json.loads` followed by the call with keyword arguments) is a function parameter. It covers both failure modes: malformed arguments, and an exception raised by the tool or by a keyword mismatch. A tool's result is modelled as text.
- Because tool execution is a function of (tool function, argument text), the same call always gives the same result within one `llm_turn`. A tool whose result changes from call to call is not modelled, for example a `web_search` repeated on a later turn that returns other hits or fails once.
- `message.model_dump(exclude_none=True)` is modelled as a message with role, content and tool calls. The SDK's other keys and the `None`-dropping of fields inside tool calls are not modelled.
- A message's content is an optional text. A caller's own dictionary whose `content` is not a string, which line 113 would return, cannot be represented.
- The DuckDuckGo query inside `web_search` is an external network call; only the formatting of given `(title, body, href)` records is modelled.
- `save_messages` (file I/O with timestamps and JSON serialisation) is outside the model.
- Python reflection (`get_type_hints`, `inspect.signature`, `get_origin`) is replaced by explicit parameter descriptors. A hint that fails to resolve is not modelled.
- `async`/`await` are modelled as sequential execution, because the model call is the only suspension point.
- Logging calls and the logging configuration module are not modelled; they do not affect results.
- `llm/orchestration.py`, `llm/inference.py` and `main.py` are not part of this model. They are a superseded script variant, a duplicate of the gateway and persistence wrappers, and CLI wiring.
- Tools.PropertiesInSignatureOrder states the ordering of `properties` only for distinct parameter names, which Python signatures always have.
- Registration does not reject a repeated name: the later function replaces the `functions` entry and both schemas stay in `tools`. Malformed arguments and tool exceptions are not caught: they propagate out of `llm_turn`.
