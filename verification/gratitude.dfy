/** The gratitude agent: asks the model to highlight the positive side of the
    latest journal message. */
module Gratitude {
  import opened PyValues
  import opened AgentState

  /** `gratitude_agent(state)`: ask the model about `state["messages"][-1]`
      once and return a fresh dict with the reply text under `gratitude` and
      the message list extended by the reply object. */
  function GratitudeAgent(state: State, llm: Oracle): (run: Run<State>)
    ensures "messages" !in state ==> run == Run([], Err(KeyError("messages")))
    ensures "messages" in state && state["messages"] == List([]) ==> run == Run([], Err(IndexError))
    ensures run.calls == [] <==> LastMessage(state).Err?
    ensures run.calls != [] ==> run.calls == [AgentPrompt(Positive, LastMessage(state).value)]
    ensures run.result.Ok? <==> HasMessages(state)
    ensures run.result.Ok? ==>
              var reply := llm(AgentPrompt(Positive, LastOf(state)));
              var out := run.result.value;
              && out.Keys == {"gratitude", "messages"}
              && out["gratitude"] == Str(reply)
              && out["messages"] == List(state["messages"].items + [AIMessage(reply)])
  {
    var run := Exchange(state, llm, Positive, LastMessage(state));
    if run.result.Err? then Run(run.calls, Err(run.result.error))
    else
      var reply := run.result.value;
      Run(run.calls, Ok(map["gratitude" := Str(reply.content), "messages" := reply.messages]))
  }
}
