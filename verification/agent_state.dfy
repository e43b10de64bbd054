/** What the four diary agents share: the language model, seen as an oracle
    from prompts to reply texts, the prompts they issue, and the one step
    they all take (ask the model about a selected input, then append the
    reply object to the state's `messages`). */
module AgentState {
  import opened PyValues

  /** The four aspects of a diary entry, one per agent: positive extraction
      (gratitude agent), empathetic listening (listener), gentle planning
      (planner) and the safety check (safety agent). */
  datatype Aspect = Positive | Listening | Planning | SafetyCheck

  /** A prompt sent to the model. Each agent fills a fixed template with
      exactly one selected input; the coordinator's summary template embeds
      the whole `responses` dict. The wording of the templates is not
      modelled, only what each one embeds. */
  datatype Prompt =
    | AgentPrompt(aspect: Aspect, entry: Value)
    | SummaryPrompt(responses: map<string, Value>)

  /** The hosted model: `llm.invoke(prompt).content`. */
  type Oracle = Prompt -> string

  /** The outcome of one agent call: the prompts it issued, in order, and
      what it returned or raised. A call that raises after asking the model
      still records the prompt it issued. */
  datatype Run<T> = Run(calls: seq<Prompt>, result: Result<T>)

  /** What an agent gets back from the shared step: the reply text and the
      new `messages` list. */
  datatype Reply = Reply(content: string, messages: Value)

  /** `state["messages"]` is a non-empty list. */
  predicate HasMessages(state: State) {
    "messages" in state && state["messages"].List? && state["messages"].items != []
  }

  /** The last element of a non-empty `messages` list. */
  function LastOf(state: State): Value
    requires HasMessages(state)
  {
    var items := state["messages"].items;
    items[|items| - 1]
  }

  /** `state["messages"][-1]`, the input the gratitude, listener and safety
      agents select. */
  function LastMessage(state: State): (r: Result<Value>)
    ensures "messages" !in state ==> r == Err(KeyError("messages"))
    ensures HasMessages(state) ==> r == Ok(LastOf(state))
    ensures "messages" in state && state["messages"] == List([]) ==> r == Err(IndexError)
    ensures r.Ok? <==> "messages" in state && (state["messages"].List? || state["messages"].Str?)
                       && Truthy(state["messages"])
  {
    var messages :- Lookup(state, "messages");
    LastItem(messages)
  }

  /** The shared step: unless selecting the input already raised, send the
      aspect's prompt about `entry` to the model exactly once, then build
      `state["messages"] + [response]`, which raises when `messages` is
      missing or not a list. */
  function Exchange(state: State, llm: Oracle, aspect: Aspect, entry: Result<Value>): (run: Run<Reply>)
    ensures entry.Err? ==> run == Run([], Err(entry.error))
    ensures entry.Ok? ==> run.calls == [AgentPrompt(aspect, entry.value)]
    ensures run.result.Ok? <==> entry.Ok? && "messages" in state && state["messages"].List?
    ensures entry.Ok? && "messages" !in state ==> run.result == Err(KeyError("messages"))
    ensures run.result.Ok? ==>
              && run.result.value.content == llm(AgentPrompt(aspect, entry.value))
              && run.result.value.messages
                 == List(state["messages"].items + [AIMessage(run.result.value.content)])
  {
    if entry.Err? then Run([], Err(entry.error))
    else
      var prompt := AgentPrompt(aspect, entry.value);
      var reply := llm(prompt);
      var messages := Lookup(state, "messages");
      var appended := if messages.Err? then messages else AppendItem(messages.value, AIMessage(reply));
      Run([prompt], if appended.Err? then Err(appended.error) else Ok(Reply(reply, appended.value)))
  }
}
