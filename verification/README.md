# Diary coordinator: a Dafny model

The journaling backend sends each diary entry through a coordinator. The
coordinator looks at four optional fields of the entry's state: `gratitude`,
`raw_thoughts`, `tasks` and `pain_points`. For each field that is truthy in
Python's sense, it calls one agent, in a fixed order:

1. the gratitude agent, recorded under `gratitude`;
2. the listener, recorded under `reflection`;
3. the planner, recorded under `plan`;
4. the safety agent, recorded under `safety`.

Each agent asks a hosted language model one question about an input it
selects from the state. It returns a fresh dict with its answer and the
message list extended by the model's reply. After the agents, the
coordinator asks the model once more for a summary of the collected
`responses`. It then returns the input state with three entries added or
replaced: `messages`, `coordinator_summary` and `agent_responses`.

The safety agent also classifies the model's reply. The reply is unsafe when,
trimmed of whitespace and upper-cased, it starts with `UNSAFE`.

The model consists of these modules:

- `PyValues` (python_values.dfy): Python values, truthiness, and the
  dictionary and list operations the agents use. Each operation raises the
  same exception Python does: `KeyError`, `IndexError` or `TypeError`.
- `AgentState` (agent_state.dfy): the language model as an oracle from
  prompts to reply texts, the prompts, and the step the four agents share.
- `AsciiText` (ascii_text.dfy): `strip`, `upper` and `startswith` over ASCII.
- `Gratitude`, `Listener`, `Planner` and `Safety`: the four agents, as pure
  functions. Each returns the prompts it issued, even when it then raises,
  together with its result or exception.
- `Coordinator` (coordinator.dfy): the coordinator, as an imperative method
  that fills `responses` step by step and keeps a ghost trace of the prompts
  issued.

The coordinator reads `safety_check` from the safety agent's result, and that
key is never there. So `Coordinator.Dispatch` takes the key it reads as a
parameter:

- `Coordinator.CoordinatorAgent` is the code as written, reading
  `safety_check`.
- `Coordinator.CoordinatorAgentCorrected` reads `safety_notes`.

Two consequences of the code that its names do not suggest:

- Every agent selects `messages[-1]` rather than the field it is gated on.
  The planner falls back to `tasks` only when `messages` is absent or empty.
- An entry with all four fields filled does not yield four responses: the
  safety branch raises.

## Model

| member | source | states |
|---|---|---|
| PyValues.Truthy | agents/coordinator.py:30 | definition: Python truthiness, under which `None`, `False`, `""`, `[]` and `{}` are false and a reply object is true |
| PyValues.LastItem | agents/safety.py:20 | `v[-1]` yields the last list element, or the last character of a string. It succeeds exactly on a non-empty list or string. An empty one raises `IndexError` |
| PyValues.AppendItem | agents/safety.py:42 | `v + [x]` succeeds exactly on a list. The result is one longer, keeps `v` as its prefix and ends with `x`. Anything else raises `TypeError` |
| AgentState.LastMessage | agents/gratitude.py:20 | The selected input is the last element of a non-empty `messages` list. A missing `messages` raises `KeyError("messages")`, and an empty list raises `IndexError` |
| AgentState.Exchange | agents/listener.py:20-38 | A failed input selection issues no prompt. Otherwise exactly one prompt is issued, embedding the selected input. The step succeeds exactly when `messages` is a list; the result is the reply text and `messages` plus the reply object |
| AsciiText.IsSpace | agents/safety.py:36 | definition: the ASCII characters `str.isspace()` accepts, namely tab, line feed, vertical tab, form feed, carriage return, 0x1C-0x1F and space |
| AsciiText.UpperChar | agents/safety.py:36 | definition: `str.upper()` on one ASCII character, which maps `a`-`z` to `A`-`Z` and keeps every other character |
| AsciiText.StartsWith | agents/safety.py:38 | definition: `str.startswith(prefix)` |
| AsciiText.LStrip | agents/safety.py:36 | `lstrip` yields a suffix of the input. Only whitespace is removed, and the result does not start with whitespace |
| AsciiText.RStrip | agents/safety.py:36 | `rstrip` yields a prefix of the input. Only whitespace is removed, and the result does not end with whitespace |
| AsciiText.Strip | agents/safety.py:36 | `strip` yields a contiguous slice of the input. Only whitespace is cut on either side, and the slice neither starts nor ends with whitespace |
| AsciiText.Upper | agents/safety.py:36 | `upper` keeps the length |
| AsciiText.UpperSlice | agents/safety.py:36 | Upper-casing commutes with slicing |
| AsciiText.UpperCharKeepsSpace | agents/safety.py:36 | Upper-casing neither creates nor removes whitespace, and it is idempotent |
| Safety.IsUnsafe | agents/safety.py:36-38 | definition: the reply, stripped and upper-cased, starts with `UNSAFE` |
| Safety.UnsafeIffToken | agents/safety.py:36-38 | A reply is flagged exactly when, after only whitespace, the six letters of UNSAFE appear in any mix of cases. This is an independent characterisation of strip-upper-startswith, in both directions |
| Safety.CaseInsensitive | agents/safety.py:36-38 | Two replies that upper-case alike are classified alike |
| Safety.LeadingSpaceIgnored | agents/safety.py:36-38 | Prepending whitespace does not change the classification |
| Safety.OnlyPrefixCounts | agents/safety.py:36-38 | Once a reply has six characters after its leading whitespace, appending text does not change the classification |
| Safety.LowerCaseAfterSpacesFlagged | agents/safety.py:36-38 | `"  unsafe: x"` is flagged |
| Safety.UnsafeReplyFlagged | agents/safety.py:36-38 | `"UNSAFE: mentions self-harm"` is flagged |
| Safety.SafeRepliesNotFlagged | agents/safety.py:36-38 | `"SAFE: x"` and `"SAFE: describes a stressful day"` are not flagged |
| Safety.NoTokenAtSafeReply | agents/safety.py:36-38 | No reply that starts with the letters SAFE is flagged |
| Safety.SafetyAgent | agents/safety.py:19-49 | Raises exactly when `messages` is not a non-empty list, and issues no prompt when selecting the last message raises. Otherwise it issues one prompt about the last message. The result has exactly the keys `safety_flag`, `safety_notes` and `messages`, and no `safety_check`. The flag is the classification of the reply, the notes are the raw reply text, and `messages` gains exactly the reply |
| Gratitude.GratitudeAgent | agents/gratitude.py:19-35 | Same failure cases as the safety agent. On success there is one prompt about the last message, the keys are exactly `gratitude` and `messages`, `gratitude` is the reply text, and `messages` gains exactly the reply |
| Listener.ListenerAgent | agents/listener.py:19-38 | Same failure cases as the safety agent. On success there is one prompt about the last message, the keys are exactly `reflection` and `messages`, `reflection` is the reply text, and `messages` gains exactly the reply |
| Planner.PlannerInput | agents/planner.py:20-21 | The input is the last message when `messages` is a non-empty list. It is `tasks`, or `""`, when `messages` is absent or falsy. It raises exactly when `messages` is truthy and neither a list nor a string |
| Planner.PlannerAgent | agents/planner.py:19-39 | One prompt about the selected input, and none when selection raises. Without `messages` the prompt about `tasks` is issued and then `KeyError("messages")` is raised. It succeeds exactly when `messages` is a list. On success the keys are exactly `plan` and `messages`, `plan` is the reply text, and `messages` gains exactly the reply |
| Coordinator.Gated | agents/coordinator.py:30-43 | definition: `state.get(field)` is truthy, so the field is present and truthy; a whitespace-only string counts |
| Coordinator.Plan | agents/coordinator.py:30-45 | Each agent is in the calling plan exactly when the state field that gates it is truthy |
| Coordinator.PlanIsOrdered | agents/coordinator.py:30-45 | The plan lists agents in strictly increasing fixed order: gratitude, listener, planner, safety |
| Coordinator.AgentsAskedOnce | agents/coordinator.py:30-45 | A trace that follows the plan asks no agent twice |
| Coordinator.SummaryAskedOnce | agents/coordinator.py:47-53 | A complete trace holds exactly one summary prompt, and it comes last, after every agent prompt |
| Coordinator.RecordsSkip | agents/coordinator.py:30-45 | Passing over an agent with a falsy field leaves `responses` as it stands |
| Coordinator.RecordsAdd | agents/coordinator.py:31-32 | Recording a called agent's field extends `responses` by exactly that agent's key |
| Coordinator.Consult | agents/coordinator.py:30-45 | One gated block. The trace stays on plan, and every prompt embeds the input its agent selects. The block returns normally exactly when the field is falsy or the agent and the key read succeed. On success `responses` covers one more agent of the fixed order. With a non-empty message list, the only exception is the missing safety key |
| Coordinator.CollectResponses | agents/coordinator.py:27-45 | The four blocks in order. They return normally exactly when every gated agent succeeds; `responses` then records every gated agent and no other |
| Coordinator.Dispatch | agents/coordinator.py:26-60 | A run returns exactly when `messages` is a list and the gated agents succeed. Then the trace is the plan plus one summary prompt embedding `responses`. Every key outside `messages`, `coordinator_summary` and `agent_responses` is unchanged, and those three are added. `messages` gains exactly the summary text, which is also `coordinator_summary`. A truthy `pain_points` with a non-empty `messages` list and a key the safety agent lacks raises `KeyError` for that key |
| Coordinator.RecordedReplies | agents/coordinator.py:30-45 | `agent_responses` has `gratitude`, `reflection`, `plan` or `safety` exactly when `gratitude`, `raw_thoughts`, `tasks` or `pain_points` is truthy. Each value is that agent's reply text about its selected input |
| Coordinator.CompletesIff | agents/coordinator.py:26-60 | A run returns exactly when `messages` is a list and every gated agent succeeds |
| Coordinator.OnlyTasksScenario | agents/coordinator.py:39-41 | With only `tasks` truthy and an empty `messages` list, the run returns and the responses are exactly the plan, made from the `tasks` text. An entry without a `messages` key fails instead (see `Coordinator.Dispatch`) |
| Coordinator.AllFieldsScenario | agents/coordinator.py:30-45 | With all four fields truthy, reading `safety_notes` yields exactly the four keys, while reading `safety_check` raises |
| Coordinator.PainPointsExample | agents/coordinator.py:43-45 | A one-message entry with a truthy `pain_points` raises under `safety_check` and returns under `safety_notes` |
| Coordinator.CoordinatorAgent | agents/coordinator.py:26-60 | As written: a run returns exactly when `messages` is a list, `pain_points` is falsy, and the list is non-empty if `gratitude` or `raw_thoughts` is truthy. A truthy `pain_points` with messages raises `KeyError("safety_check")`. No returned `agent_responses` holds `safety` |
| Coordinator.CoordinatorAgentCorrected | agents/coordinator.py:43-45 | Reading `safety_notes`: `safety` is recorded exactly when `pain_points` is truthy, and it holds the safety agent's raw reply |

## Left out

- The language model is an oracle: a function from prompts to reply texts. A
  prompt records which template it uses and the value it embeds, not the
  template's wording. The oracle is deterministic; within one run no prompt
  is issued twice, so this loses nothing there.
- A model call that raises (a network error or a time-out) is not modelled,
  because the oracle is total. In the source nothing catches such an
  exception (agents/coordinator.py:53, agents/safety.py:35,
  agents/planner.py:34, agents/listener.py:33, agents/gratitude.py:30). It
  would end the run at that call, with no later agent call and no summary.
- The summary prompt embeds `responses` as a map. Python renders the dict in
  insertion order, and that order is the fixed agent order
  (`Coordinator.PlanIsOrdered`), so the map fixes the rendered text.
- LangGraph wiring is not modelled: `StateGraph`, nodes, edges, `compile`,
  the `add_messages` reducer, and the `messages = Annotated[...]` class
  attribute. The state is a plain string-keyed map.
- Reading the environment is not modelled: `load_dotenv`, `os.getenv` and
  the model client set-up.
- main.py (table declarations only) and utils/db.py (database sessions) are
  not part of this model.
- `strip` and `upper` are modelled on ASCII only. Unicode whitespace and case
  mapping are not modelled. So Python flags a reply such as `"\u00a0UNSAFE"`
  (a no-break space first) or `"unſafe"` (a long s, which upper-cases to S),
  and the model does not.
- Indexing a dict with `-1` raises `KeyError(-1)`; the model writes it as
  `KeyError("-1")`.
- The response object from the model is `AIMessage(content)`. Only its
  content is observed.
- Parallel fan-out is not modelled: the code calls the agents strictly in
  sequence, and so does the model.

## Findings

| source | as written | input that shows it | evidently intended | confidence | as-written member | corrected member |
|---|---|---|---|---|---|---|
| agents/coordinator.py:45 | the safety branch reads `safety_result["safety_check"]`, a key the safety agent never returns (agents/safety.py:39-49) | any state whose `pain_points` is truthy and whose `messages` is a non-empty list, e.g. `{"messages": ["rough day"], "pain_points": "work"}`: the run raises `KeyError('safety_check')` | record a field the safety agent does return, such as `safety_notes` | not executed; high (the key is absent from both return branches) | Coordinator.CoordinatorAgent | Coordinator.CoordinatorAgentCorrected |
