/** The planner agent: asks the model for a gentle day plan, about the latest
    journal message or, when there is none, about the `tasks` field. */
module Planner {
  import opened PyValues
  import opened AgentState

  /** The planner's input: `messages = state.get("messages", [])`, then
      `messages[-1] if messages else state.get("tasks", "")`. */
  function PlannerInput(state: State): (r: Result<Value>)
    ensures HasMessages(state) ==> r == Ok(LastOf(state))
    ensures "messages" !in state || !Truthy(state["messages"]) ==> r == Ok(Get(state, "tasks", Str("")))
    ensures r.Err? <==> "messages" in state && Truthy(state["messages"])
                        && !state["messages"].List? && !state["messages"].Str?
  {
    var messages := Get(state, "messages", List([]));
    if Truthy(messages) then LastItem(messages) else Ok(Get(state, "tasks", Str("")))
  }

  /** `planner_agent(state)`: ask the model about the selected input once and
      return a fresh dict with the reply text under `plan` and the message
      list extended by the reply object. `state["messages"]` is read again
      only after the call, so a state without `messages` still reaches the
      model and then fails. */
  function PlannerAgent(state: State, llm: Oracle): (run: Run<State>)
    ensures run.calls == [] <==> PlannerInput(state).Err?
    ensures run.calls != [] ==> run.calls == [AgentPrompt(Planning, PlannerInput(state).value)]
    ensures "messages" !in state ==>
              run == Run([AgentPrompt(Planning, Get(state, "tasks", Str("")))], Err(KeyError("messages")))
    ensures run.result.Ok? <==> "messages" in state && state["messages"].List?
    ensures run.result.Ok? ==>
              var reply := llm(AgentPrompt(Planning, PlannerInput(state).value));
              var out := run.result.value;
              && out.Keys == {"plan", "messages"}
              && out["plan"] == Str(reply)
              && out["messages"] == List(state["messages"].items + [AIMessage(reply)])
  {
    var run := Exchange(state, llm, Planning, PlannerInput(state));
    if run.result.Err? then Run(run.calls, Err(run.result.error))
    else
      var reply := run.result.value;
      Run(run.calls, Ok(map["plan" := Str(reply.content), "messages" := reply.messages]))
  }
}
