/** The listener agent: asks the model for a short, validating reflection on
    the latest journal message. */
module Listener {
  import opened PyValues
  import opened AgentState

  /** `listener_agent(state)`: ask the model about `state["messages"][-1]`
      once and return a fresh dict with the reply text under `reflection` and
      the message list extended by the reply object. */
  function ListenerAgent(state: State, llm: Oracle): (run: Run<State>)
    ensures "messages" !in state ==> run == Run([], Err(KeyError("messages")))
    ensures "messages" in state && state["messages"] == List([]) ==> run == Run([], Err(IndexError))
    ensures run.calls == [] <==> LastMessage(state).Err?
    ensures run.calls != [] ==> run.calls == [AgentPrompt(Listening, LastMessage(state).value)]
    ensures run.result.Ok? <==> HasMessages(state)
    ensures run.result.Ok? ==>
              var reply := llm(AgentPrompt(Listening, LastOf(state)));
              var out := run.result.value;
              && out.Keys == {"reflection", "messages"}
              && out["reflection"] == Str(reply)
              && out["messages"] == List(state["messages"].items + [AIMessage(reply)])
  {
    var run := Exchange(state, llm, Listening, LastMessage(state));
    if run.result.Err? then Run(run.calls, Err(run.result.error))
    else
      var reply := run.result.value;
      Run(run.calls, Ok(map["reflection" := Str(reply.content), "messages" := reply.messages]))
  }
}
