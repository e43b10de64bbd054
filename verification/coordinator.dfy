/** The diary coordinator: calls the gratitude, listener, planner and safety
    agents in that order, each only when its field of the state is truthy,
    collects their answers in a `responses` dict, asks the model once more for
    a summary of that dict, and returns the state extended with the summary
    and the responses. */
module Coordinator {
  import opened PyValues
  import opened AgentState
  import opened Gratitude
  import opened Listener
  import opened Planner
  import opened Safety

  /** `state.get(key)` is truthy: present, not None and not empty. A string of
      whitespace counts as present. */
  predicate Gated(state: State, key: string) {
    key in state && Truthy(state[key])
  }

  /** The agents the coordinator calls on `state`, in calling order. */
  function Plan(state: State): (p: seq<Aspect>)
    ensures Positive in p <==> Gated(state, "gratitude")
    ensures Listening in p <==> Gated(state, "raw_thoughts")
    ensures Planning in p <==> Gated(state, "tasks")
    ensures SafetyCheck in p <==> Gated(state, "pain_points")
  {
    (if Gated(state, "gratitude") then [Positive] else [])
    + (if Gated(state, "raw_thoughts") then [Listening] else [])
    + (if Gated(state, "tasks") then [Planning] else [])
    + (if Gated(state, "pain_points") then [SafetyCheck] else [])
  }

  /** The agents among the first `n` of the fixed order that `state` gates,
      in calling order. */
  function PlanPrefix(state: State, n: nat): (p: seq<Aspect>)
    ensures n >= 4 ==> p == Plan(state)
  {
    (if n >= 1 && Gated(state, "gratitude") then [Positive] else [])
    + (if n >= 2 && Gated(state, "raw_thoughts") then [Listening] else [])
    + (if n >= 3 && Gated(state, "tasks") then [Planning] else [])
    + (if n >= 4 && Gated(state, "pain_points") then [SafetyCheck] else [])
  }

  /** The state field that gates an agent. */
  function FieldOf(a: Aspect): string {
    match a
    case Positive => "gratitude"
    case Listening => "raw_thoughts"
    case Planning => "tasks"
    case SafetyCheck => "pain_points"
  }

  /** The plan as seen just before agent `a` is considered is a prefix of the
      whole plan, and considering `a` adds `a` exactly when its field is truthy. */
  lemma PlanPrefixStep(state: State, a: Aspect)
    ensures PlanPrefix(state, Rank(a) + 1)
            == PlanPrefix(state, Rank(a)) + (if Gated(state, FieldOf(a)) then [a] else [])
    ensures PlanPrefix(state, Rank(a)) <= Plan(state)
  {
  }

  /** A gated agent is the plan's next entry once the agents before it in the
      fixed order have been considered. */
  lemma PlanNextEntry(state: State, a: Aspect)
    requires Gated(state, FieldOf(a))
    ensures |PlanPrefix(state, Rank(a))| < |Plan(state)| && Plan(state)[|PlanPrefix(state, Rank(a))|] == a
  {
  }

  /** Adding the next planned agent's prompt keeps the trace on plan. */
  lemma FollowsPlanStep(calls: seq<Prompt>, plan: seq<Aspect>, p: Prompt)
    requires FollowsPlan(calls, plan) && |calls| < |plan|
    requires p.AgentPrompt? && p.aspect == plan[|calls|]
    ensures FollowsPlan(calls + [p], plan)
  {
  }

  /** Adding the summary prompt after the whole plan keeps the trace on plan. */
  lemma FollowsPlanSummary(calls: seq<Prompt>, plan: seq<Aspect>, p: Prompt)
    requires FollowsPlan(calls, plan) && |calls| == |plan| && p.SummaryPrompt?
    ensures FollowsPlan(calls + [p], plan)
  {
  }

  /** The fixed calling order of the aspects. */
  function Rank(a: Aspect): nat {
    match a
    case Positive => 0
    case Listening => 1
    case Planning => 2
    case SafetyCheck => 3
  }

  /** Each agent appears at most once in the plan, and in the fixed order. */
  lemma {:induction false} PlanIsOrdered(state: State)
    ensures forall i, j :: 0 <= i < j < |Plan(state)| ==> Rank(Plan(state)[i]) < Rank(Plan(state)[j])
  {
    var p := Plan(state);
    var g := if Gated(state, "gratitude") then [Positive] else [];
    var l := if Gated(state, "raw_thoughts") then [Listening] else [];
    var t := if Gated(state, "tasks") then [Planning] else [];
    var s := if Gated(state, "pain_points") then [SafetyCheck] else [];
    assert p == g + l + t + s;
    forall i | 0 <= i < |p| ensures Rank(p[i]) == if i < |g| then 0 else if i < |g + l| then 1
                                                   else if i < |g + l + t| then 2 else 3 {
    }
    forall i, j | 0 <= i < j < |p| ensures Rank(p[i]) < Rank(p[j]) {
      assert Rank(p[i]) <= Rank(p[j]);
    }
  }

  /** The prompts issued so far follow the plan: the planned agents' prompts
      in order, then (once, and last) the summary prompt. A run that raises
      stops somewhere along this sequence. */
  predicate FollowsPlan(calls: seq<Prompt>, plan: seq<Aspect>) {
    && |calls| <= |plan| + 1
    && forall i :: 0 <= i < |calls| ==>
         if i < |plan| then calls[i].AgentPrompt? && calls[i].aspect == plan[i]
         else calls[i].SummaryPrompt?
  }

  /** The input each agent selects: the planner's own choice, and for the
      others the last message. None of them reads the field the coordinator
      gated it on. */
  function AgentInput(state: State, a: Aspect): Result<Value> {
    if a == Planning then PlannerInput(state) else LastMessage(state)
  }

  /** The keys of the dict `safety_agent` returns. */
  const SafetyResultKeys: set<string> := {"safety_flag", "safety_notes", "messages"}

  /** The keys the coordinator adds to or overwrites in the state. */
  const AddedKeys: set<string> := {"messages", "coordinator_summary", "agent_responses"}

  /** The field of the safety agent's result that the coordinator can read
      without raising. */
  predicate AgentSucceeds(state: State, a: Aspect, safetyKey: string) {
    match a
    case Planning => "messages" in state && state["messages"].List?
    case SafetyCheck => HasMessages(state) && safetyKey in SafetyResultKeys
    case _ => HasMessages(state)
  }

  /** When a run of the coordinator that reads `safetyKey` from the safety
      agent's result returns normally. */
  predicate Completes(state: State, safetyKey: string) {
    && "messages" in state && state["messages"].List?
    && (Gated(state, "gratitude") || Gated(state, "raw_thoughts") || Gated(state, "pain_points")
        ==> state["messages"].items != [])
    && (Gated(state, "pain_points") ==> safetyKey in SafetyResultKeys)
  }

  /** The agent function the coordinator calls for an aspect. */
  function AgentRun(state: State, llm: Oracle, a: Aspect): Run<State> {
    match a
    case Positive => GratitudeAgent(state, llm)
    case Listening => ListenerAgent(state, llm)
    case Planning => PlannerAgent(state, llm)
    case SafetyCheck => SafetyAgent(state, llm)
  }

  /** The key the coordinator reads from an agent's result. */
  function ReadKey(a: Aspect, safetyKey: string): string {
    match a
    case Positive => "gratitude"
    case Listening => "reflection"
    case Planning => "plan"
    case SafetyCheck => safetyKey
  }

  /** The key under which the coordinator records an agent's answer. */
  function ResponseKey(a: Aspect): string {
    match a
    case Positive => "gratitude"
    case Listening => "reflection"
    case Planning => "plan"
    case SafetyCheck => "safety"
  }

  /** How the `responses` dict stands for agent `b` once the first `n`
      agents of the fixed order have been considered: it has `b`'s key exactly
      when `b` was among them and gated, holding the field the coordinator
      reads from `b`'s result. */
  predicate Recorded(state: State, llm: Oracle, safetyKey: string, n: nat,
                     responses: map<string, Value>, b: Aspect) {
    && (ResponseKey(b) in responses <==> Rank(b) < n && Gated(state, FieldOf(b)))
    && (ResponseKey(b) in responses ==>
          var run := AgentRun(state, llm, b);
          && run.result.Ok? && ReadKey(b, safetyKey) in run.result.value
          && responses[ResponseKey(b)] == run.result.value[ReadKey(b, safetyKey)])
  }

  /** The `responses` dict after the first `n` agents of the fixed order have
      been considered. */
  predicate RecordsUpTo(state: State, llm: Oracle, safetyKey: string, n: nat, responses: map<string, Value>) {
    && responses.Keys <= {"gratitude", "reflection", "plan", "safety"}
    && forall b :: Recorded(state, llm, safetyKey, n, responses, b)
  }

  /** Passing over an agent whose field is falsy leaves `responses` as it is. */
  lemma RecordsSkip(state: State, llm: Oracle, safetyKey: string, a: Aspect, responses: map<string, Value>)
    requires RecordsUpTo(state, llm, safetyKey, Rank(a), responses) && !Gated(state, FieldOf(a))
    ensures RecordsUpTo(state, llm, safetyKey, Rank(a) + 1, responses)
  {
    var n := Rank(a) + 1;
    forall b ensures Recorded(state, llm, safetyKey, n, responses, b) {
      assert Recorded(state, llm, safetyKey, Rank(a), responses, b);
    }
  }

  /** Recording a called agent's answer under its key extends `responses` by
      exactly that agent. */
  lemma RecordsAdd(state: State, llm: Oracle, safetyKey: string, a: Aspect, responses: map<string, Value>)
    requires RecordsUpTo(state, llm, safetyKey, Rank(a), responses) && Gated(state, FieldOf(a))
    requires AgentRun(state, llm, a).result.Ok? && ReadKey(a, safetyKey) in AgentRun(state, llm, a).result.value
    ensures RecordsUpTo(state, llm, safetyKey, Rank(a) + 1,
                        responses[ResponseKey(a) := AgentRun(state, llm, a).result.value[ReadKey(a, safetyKey)]])
  {
    var v := AgentRun(state, llm, a).result.value[ReadKey(a, safetyKey)];
    var n := Rank(a) + 1;
    var extended := responses[ResponseKey(a) := v];
    forall b ensures Recorded(state, llm, safetyKey, n, extended, b) {
      assert Recorded(state, llm, safetyKey, Rank(a), responses, b);
      if b != a {
        assert ResponseKey(b) != ResponseKey(a);
      }
    }
  }

  /** The complete `responses` dict of a run that returns normally. */
  predicate Records(state: State, llm: Oracle, safetyKey: string, responses: map<string, Value>) {
    RecordsUpTo(state, llm, safetyKey, 4, responses)
  }

  /** Every agent prompt in `calls` embeds the input that agent selects. */
  predicate InputsSelected(state: State, calls: seq<Prompt>) {
    forall i :: 0 <= i < |calls| && calls[i].AgentPrompt? ==>
      AgentInput(state, calls[i].aspect) == Ok(calls[i].entry)
  }

  /** What holds once the coordinator has considered its first `n` agents
      without raising. */
  predicate Stage(state: State, llm: Oracle, safetyKey: string, n: nat, responses: map<string, Value>, calls: seq<Prompt>) {
    && |calls| == |PlanPrefix(state, n)|
    && FollowsPlan(calls, Plan(state))
    && InputsSelected(state, calls)
    && RecordsUpTo(state, llm, safetyKey, n, responses)
  }

  /** The returned dict: the input state with `messages` extended by exactly
      the summary text, `coordinator_summary` set to that text and
      `agent_responses` set to the responses; the summary is the reply to the
      last prompt issued, the one embedding the responses. */
  predicate Returns(state: State, llm: Oracle, out: State, calls: seq<Prompt>) {
    && "agent_responses" in out && out["agent_responses"].Dict?
    && var responses := out["agent_responses"].entries;
    && var summary := llm(SummaryPrompt(responses));
    && calls != [] && calls[|calls| - 1] == SummaryPrompt(responses)
    && out.Keys == state.Keys + AddedKeys
    && (forall k :: k in state && k !in AddedKeys ==> out[k] == state[k])
    && out["coordinator_summary"] == Str(summary)
    && "messages" in state && state["messages"].List?
    && out["messages"] == List(state["messages"].items + [Str(summary)])
  }

  /** One of the coordinator's four blocks: `if state.get(field):` call the
      agent, then record the field read from its result. */
  method Consult(state: State, llm: Oracle, a: Aspect, safetyKey: string,
                 responses: map<string, Value>, ghost calls: seq<Prompt>)
    returns (r: Result<map<string, Value>>, ghost calls': seq<Prompt>)
    requires Stage(state, llm, safetyKey, Rank(a), responses, calls)
    ensures FollowsPlan(calls', Plan(state)) && InputsSelected(state, calls')
    ensures r.Ok? <==> !Gated(state, FieldOf(a)) || AgentSucceeds(state, a, safetyKey)
    ensures r.Ok? ==> Stage(state, llm, safetyKey, Rank(a) + 1, r.value, calls')
    ensures r.Err? ==> |calls'| <= |Plan(state)|
    ensures r.Err? && HasMessages(state) ==> a == SafetyCheck && r.error == KeyError(safetyKey)
  {
    PlanPrefixStep(state, a);
    calls' := calls;
    if !Gated(state, FieldOf(a)) {
      RecordsSkip(state, llm, safetyKey, a, responses);
      return Ok(responses), calls';
    }
    PlanNextEntry(state, a);
    var run := AgentRun(state, llm, a);
    if run.calls != [] {
      FollowsPlanStep(calls, Plan(state), run.calls[0]);
    }
    calls' := calls + run.calls;
    if run.result.Err? {
      return Err(run.result.error), calls';
    }
    var value := Lookup(run.result.value, ReadKey(a, safetyKey));
    if value.Err? {
      return Err(value.error), calls';
    }
    RecordsAdd(state, llm, safetyKey, a, responses);
    r := Ok(responses[ResponseKey(a) := value.value]);
  }

  /** Every agent the state gates can be called and read without raising. */
  predicate AgentsSucceed(state: State, safetyKey: string) {
    && (Gated(state, "gratitude") ==> AgentSucceeds(state, Positive, safetyKey))
    && (Gated(state, "raw_thoughts") ==> AgentSucceeds(state, Listening, safetyKey))
    && (Gated(state, "tasks") ==> AgentSucceeds(state, Planning, safetyKey))
    && (Gated(state, "pain_points") ==> AgentSucceeds(state, SafetyCheck, safetyKey))
  }

  /** A run returns normally exactly when every gated agent succeeds and the
      final `state["messages"] + [summary]` can be built. */
  lemma CompletesIff(state: State, safetyKey: string)
    ensures Completes(state, safetyKey)
            <==> "messages" in state && state["messages"].List? && AgentsSucceed(state, safetyKey)
  {
  }

  /** The first part of `coordinator_agent`: the four gated agent calls that
      fill `responses`, in the fixed order, stopping at the first exception. */
  method CollectResponses(state: State, llm: Oracle, safetyKey: string)
    returns (r: Result<map<string, Value>>, ghost calls: seq<Prompt>)
    ensures FollowsPlan(calls, Plan(state)) && InputsSelected(state, calls)
    ensures r.Ok? <==> AgentsSucceed(state, safetyKey)
    ensures r.Ok? ==> Stage(state, llm, safetyKey, 4, r.value, calls)
    ensures r.Err? ==> |calls| <= |Plan(state)|
    ensures r.Err? && HasMessages(state) ==> r.error == KeyError(safetyKey)
  {
    var responses: map<string, Value> := map[];
    calls := [];
    var step;

    step, calls := Consult(state, llm, Positive, safetyKey, responses, calls);
    if step.Err? {
      return Err(step.error), calls;
    }
    responses := step.value;

    step, calls := Consult(state, llm, Listening, safetyKey, responses, calls);
    if step.Err? {
      return Err(step.error), calls;
    }
    responses := step.value;

    step, calls := Consult(state, llm, Planning, safetyKey, responses, calls);
    if step.Err? {
      return Err(step.error), calls;
    }
    responses := step.value;

    step, calls := Consult(state, llm, SafetyCheck, safetyKey, responses, calls);
    if step.Err? {
      return Err(step.error), calls;
    }
    r := Ok(step.value);
  }

  /** `coordinator_agent(state)`, with the key it reads from the safety
      agent's result as a parameter (the source reads `safety_check`). */
  method Dispatch(state: State, llm: Oracle, safetyKey: string) returns (r: Result<State>, ghost calls: seq<Prompt>)
    ensures FollowsPlan(calls, Plan(state)) && InputsSelected(state, calls)
    ensures r.Ok? <==> Completes(state, safetyKey)
    ensures Gated(state, "pain_points") && HasMessages(state) && safetyKey !in SafetyResultKeys ==>
              r == Err(KeyError(safetyKey))
    ensures r.Ok? ==> |calls| == |Plan(state)| + 1 && Returns(state, llm, r.value, calls)
    ensures r.Ok? ==> Records(state, llm, safetyKey, r.value["agent_responses"].entries)
  {
    CompletesIff(state, safetyKey);
    var collected;
    collected, calls := CollectResponses(state, llm, safetyKey);
    if collected.Err? {
      return Err(collected.error), calls;
    }
    var responses := collected.value;

    var prompt := SummaryPrompt(responses);
    var summary := llm(prompt);
    FollowsPlanSummary(calls, Plan(state), prompt);
    calls := calls + [prompt];

    var messages := Lookup(state, "messages");
    if messages.Err? {
      return Err(messages.error), calls;
    }
    var extended := AppendItem(messages.value, Str(summary));
    if extended.Err? {
      return Err(extended.error), calls;
    }
    r := Ok(state + map["messages" := extended.value,
                        "coordinator_summary" := Str(summary),
                        "agent_responses" := Dict(responses)]);
  }

  /** The values recorded in a complete `responses` dict: each agent's reply
      text about the input it selects, and for the safety agent the field
      read from its result. */
  lemma RecordedReplies(state: State, llm: Oracle, safetyKey: string, responses: map<string, Value>)
    requires Records(state, llm, safetyKey, responses)
    ensures responses.Keys <= {"gratitude", "reflection", "plan", "safety"}
    ensures "gratitude" in responses <==> Gated(state, "gratitude")
    ensures "reflection" in responses <==> Gated(state, "raw_thoughts")
    ensures "plan" in responses <==> Gated(state, "tasks")
    ensures "safety" in responses <==> Gated(state, "pain_points")
    ensures "gratitude" in responses ==>
              HasMessages(state) && responses["gratitude"] == Str(llm(AgentPrompt(Positive, LastOf(state))))
    ensures "reflection" in responses ==>
              HasMessages(state) && responses["reflection"] == Str(llm(AgentPrompt(Listening, LastOf(state))))
    ensures "plan" in responses ==>
              PlannerInput(state).Ok?
              && responses["plan"] == Str(llm(AgentPrompt(Planning, PlannerInput(state).value)))
    ensures "safety" in responses ==>
              HasMessages(state) && safetyKey in SafetyResultKeys
              && responses["safety"] == SafetyAgent(state, llm).result.value[safetyKey]
  {
    assert Recorded(state, llm, safetyKey, 4, responses, Positive);
    assert Recorded(state, llm, safetyKey, 4, responses, Listening);
    assert Recorded(state, llm, safetyKey, 4, responses, Planning);
    assert Recorded(state, llm, safetyKey, 4, responses, SafetyCheck);
  }

  /** A trace that follows the plan asks each agent at most once. */
  lemma {:induction false} AgentsAskedOnce(state: State, calls: seq<Prompt>)
    requires FollowsPlan(calls, Plan(state))
    ensures forall i, j :: 0 <= i < j < |calls| && calls[i].AgentPrompt? && calls[j].AgentPrompt? ==>
              calls[i].aspect != calls[j].aspect
  {
    PlanIsOrdered(state);
    var p := Plan(state);
    forall i, j | 0 <= i < j < |calls| && calls[i].AgentPrompt? && calls[j].AgentPrompt?
      ensures calls[i].aspect != calls[j].aspect
    {
      assert j < |p|;
      assert Rank(p[i]) < Rank(p[j]);
    }
  }

  /** A complete trace that follows the plan holds exactly one summary prompt,
      the last one, after every agent prompt. */
  lemma SummaryAskedOnce(calls: seq<Prompt>, plan: seq<Aspect>)
    requires FollowsPlan(calls, plan) && |calls| == |plan| + 1
    ensures forall i :: 0 <= i < |calls| ==> (calls[i].SummaryPrompt? <==> i == |plan|)
  {
  }

  /** A diary entry with one message and a truthy `pain_points`: reading
      `safety_check` makes the run raise, reading `safety_notes` lets it
      return. */
  lemma PainPointsExample()
    ensures var state := map["messages" := List([Str("rough day")]), "pain_points" := Str("work")];
            && !Completes(state, "safety_check")
            && Completes(state, "safety_notes")
  {
  }

  /** An entry whose only truthy field is `tasks`, with an empty message
      list: the run returns, and the responses hold only the plan, made by
      the planner from the `tasks` text because there is no last message. */
  lemma {:induction false} OnlyTasksScenario(llm: Oracle, responses: map<string, Value>)
    requires Records(TasksOnly(), llm, "safety_check", responses)
    ensures Completes(TasksOnly(), "safety_check")
    ensures responses == map["plan" := Str(llm(AgentPrompt(Planning, Str("Finish report"))))]
  {
    RecordedReplies(TasksOnly(), llm, "safety_check", responses);
    assert responses.Keys == {"plan"};
  }

  /** The entry of `OnlyTasksScenario`. */
  function TasksOnly(): State {
    map["gratitude" := Str(""), "raw_thoughts" := Str(""), "tasks" := Str("Finish report"),
        "pain_points" := Str(""), "messages" := List([])]
  }

  /** An entry with all four fields filled and one message: every agent is
      asked about that message, so with `safety_notes` read the responses
      have exactly the four keys. */
  lemma {:induction false} AllFieldsScenario(llm: Oracle, responses: map<string, Value>)
    requires Records(AllFields(), llm, "safety_notes", responses)
    ensures Completes(AllFields(), "safety_notes") && !Completes(AllFields(), "safety_check")
    ensures responses.Keys == {"gratitude", "reflection", "plan", "safety"}
    ensures responses["plan"] == Str(llm(AgentPrompt(Planning, Str("long day"))))
  {
    var state := AllFields();
    AllFieldsGated();
    RecordedReplies(state, llm, "safety_notes", responses);
  }

  /** Every field of `AllFields()` is truthy and each agent is asked about
      its one message. */
  lemma AllFieldsGated()
    ensures HasMessages(AllFields()) && LastOf(AllFields()) == Str("long day")
    ensures PlannerInput(AllFields()) == Ok(Str("long day"))
    ensures Gated(AllFields(), "gratitude") && Gated(AllFields(), "raw_thoughts")
    ensures Gated(AllFields(), "tasks") && Gated(AllFields(), "pain_points")
  {
  }

  /** The entry of `AllFieldsScenario`. */
  function AllFields(): State {
    map["gratitude" := Str("tea"), "raw_thoughts" := Str("tired"), "tasks" := Str("report"),
        "pain_points" := Str("deadline"), "messages" := List([Str("long day")])]
  }

  /** `coordinator_agent` as written: the safety branch reads the key
      `safety_check`, which the safety agent's result never holds. A run
      therefore returns only when `pain_points` is falsy, and no returned
      `agent_responses` has a `safety` entry. */
  method CoordinatorAgent(state: State, llm: Oracle) returns (r: Result<State>, ghost calls: seq<Prompt>)
    ensures FollowsPlan(calls, Plan(state)) && InputsSelected(state, calls)
    ensures r.Ok? <==>
              && "messages" in state && state["messages"].List?
              && !Gated(state, "pain_points")
              && (Gated(state, "gratitude") || Gated(state, "raw_thoughts") ==> state["messages"].items != [])
    ensures Gated(state, "pain_points") && HasMessages(state) ==> r == Err(KeyError("safety_check"))
    ensures r.Ok? ==> |calls| == |Plan(state)| + 1 && Returns(state, llm, r.value, calls)
    ensures r.Ok? ==> Records(state, llm, "safety_check", r.value["agent_responses"].entries)
    ensures r.Ok? ==> "safety" !in r.value["agent_responses"].entries
  {
    r, calls := Dispatch(state, llm, "safety_check");
    if r.Ok? {
      RecordedReplies(state, llm, "safety_check", r.value["agent_responses"].entries);
    }
  }

  /** `coordinator_agent` reading `safety_notes`, the field the safety agent
      returns: a truthy `pain_points` then records the safety agent's raw
      reply under `safety`. */
  method CoordinatorAgentCorrected(state: State, llm: Oracle) returns (r: Result<State>, ghost calls: seq<Prompt>)
    ensures FollowsPlan(calls, Plan(state)) && InputsSelected(state, calls)
    ensures r.Ok? <==>
              && "messages" in state && state["messages"].List?
              && (Gated(state, "gratitude") || Gated(state, "raw_thoughts") || Gated(state, "pain_points")
                  ==> state["messages"].items != [])
    ensures r.Ok? ==> |calls| == |Plan(state)| + 1 && Returns(state, llm, r.value, calls)
    ensures r.Ok? ==> Records(state, llm, "safety_notes", r.value["agent_responses"].entries)
    ensures r.Ok? ==> ("safety" in r.value["agent_responses"].entries <==> Gated(state, "pain_points"))
    ensures r.Ok? && Gated(state, "pain_points") ==>
              HasMessages(state)
              && r.value["agent_responses"].entries["safety"]
                 == Str(llm(AgentPrompt(SafetyCheck, LastOf(state))))
  {
    r, calls := Dispatch(state, llm, "safety_notes");
    if r.Ok? {
      RecordedReplies(state, llm, "safety_notes", r.value["agent_responses"].entries);
    }
  }
}
