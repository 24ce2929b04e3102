/** The Streamlit session state driven by `app.py`, with every rerun of the
    script as one transition: first-load initialisation, the service
    switch/reset, the sidebar selector, and the chat turn that merges the
    agent's extraction into the case file. */
module Session {
  import opened Wrappers
  import opened Json
  import Services
  import Agent

  /** `st.session_state`: the agent, the active service key, the case file
      (`form_data`) and the chat history. */
  datatype State = State(
    agent: Agent.UniversalAgent,
    currentService: string,
    formData: Object,
    chatHistory: seq<Agent.Turn>)

  const Fallback := "I didn't understand."

  /** `text` contains `part` starting at position `i`. */
  predicate OccursAt(text: string, part: string, i: nat) {
    i + |part| <= |text| && text[i..i + |part|] == part
  }

  predicate Contains(text: string, part: string) {
    exists i: nat | i <= |text| :: OccursAt(text, part, i)
  }

  /** What every state reached after the first load satisfies: the active
      service is registered, the history is never empty, and only the user
      and the assistant speak in it. */
  predicate Valid(s: State) {
    && s.currentService in Services.Registry
    && |s.chatHistory| > 0
    && forall i :: 0 <= i < |s.chatHistory| ==> s.chatHistory[i].role != Agent.System
  }

  /** The greeting that opens every case. */
  function Greeting(serviceName: string): (g: string)
    ensures Contains(g, serviceName)
  {
    var prefix := "Hello. I am the AI Agent for **";
    var g := prefix + serviceName + "**. Please provide the details to begin.";
    assert OccursAt(g, serviceName, |prefix|) by {
      assert g[|prefix|..|prefix| + |serviceName|] == serviceName;
    }
    g
  }

  /** `switch_service`: drop the case file and the history, then seed a single
      greeting naming the active service. */
  function SwitchService(s: State): (r: State)
    requires s.currentService in Services.Registry
    ensures Valid(r)
    ensures r.agent == s.agent && r.currentService == s.currentService
    ensures r.formData == map[]
    ensures |r.chatHistory| == 1 && r.chatHistory[0].role == Agent.Assistant
    ensures Contains(r.chatHistory[0].text, Services.Registry[s.currentService].name)
  {
    var name := Services.Registry[s.currentService].name;
    s.(formData := map[], chatHistory := [Agent.Turn(Agent.Assistant, Greeting(name))])
  }

  /** The first-load guard: greet whenever the history is empty. */
  function EnsureGreeting(s: State): (r: State)
    requires s.currentService in Services.Registry
    ensures |r.chatHistory| > 0
    ensures |s.chatHistory| > 0 ==> r == s
    ensures r.agent == s.agent && r.currentService == s.currentService
    ensures |s.chatHistory| == 0 ==> r.formData == map[] && |r.chatHistory| == 1
    ensures |s.chatHistory| == 0 ==>
              r.chatHistory[0].role == Agent.Assistant &&
              Contains(r.chatHistory[0].text, Services.Registry[s.currentService].name)
    ensures Valid(s) ==> r == s
  {
    if |s.chatHistory| == 0 then SwitchService(s) else s
  }

  /** The first run of the script: construct the agent (which fails without
      an API key), default to the identity-card service, and greet. */
  function Start(apiKey: Option<string>): (r: Result<State, string>)
    ensures r.Success? <==> apiKey.Some? && apiKey.value != ""
    ensures r.Failure? ==> r.error == Agent.MissingKeyError
    ensures r.Success? ==> Valid(r.value) && r.value.currentService == Services.DefaultServiceKey
    ensures r.Success? ==> r.value.formData == map[] && |r.value.chatHistory| == 1
    ensures r.Success? ==>
              r.value.chatHistory[0].role == Agent.Assistant &&
              Contains(r.value.chatHistory[0].text, Services.Registry[Services.DefaultServiceKey].name)
  {
    Services.RegistryShape();
    match Agent.New(apiKey)
    case Failure(e) => Failure(e)
    case Success(agent) => Success(EnsureGreeting(State(agent, Services.DefaultServiceKey, map[], [])))
  }

  /** `keys.index(key)`: the first position of `key`, or `None` where Python
      raises `ValueError`. */
  function IndexOf(keys: seq<string>, key: string): (r: Option<nat>)
    ensures r.Some? <==> key in keys
    ensures r.Some? ==> r.value < |keys| && keys[r.value] == key && key !in keys[..r.value]
  {
    if |keys| == 0 then None
    else if keys[0] == key then Some(0)
    else match IndexOf(keys[1..], key)
      case None => None
      case Some(j) =>
        assert keys[..j + 1] == [keys[0]] + keys[1..][..j];
        Some(j + 1)
  }

  /** The selector's preselected index: the active service's position, with a
      fall-back to 0 when the key is not among the options. */
  function SelectorIndex(keys: seq<string>, current: string): (index: nat)
    ensures current in keys ==> index < |keys| && keys[index] == current
    ensures current !in keys ==> index == 0
  {
    match IndexOf(keys, current)
    case Some(i) => i
    case None => 0
  }

  /** The option the selector returns on a rerun where the user does not
      touch it. */
  function IdleSelection(s: State): (key: string)
    ensures key in Services.ServiceKeys
    ensures s.currentService in Services.ServiceKeys ==> key == s.currentService
    ensures s.currentService !in Services.ServiceKeys ==> key == Services.ServiceKeys[0]
  {
    Services.ServiceKeys[SelectorIndex(Services.ServiceKeys, s.currentService)]
  }

  /** The sidebar's change check: a different key becomes the active service
      and resets the case; the same key changes nothing. */
  function SelectService(s: State, selected: string): (r: State)
    requires s.currentService in Services.Registry
    requires selected in Services.ServiceKeys
    ensures selected == s.currentService ==> r == s
    ensures selected != s.currentService ==>
              r.currentService == selected && r.formData == map[] && |r.chatHistory| == 1
    ensures selected != s.currentService ==>
              r.agent == s.agent && r.chatHistory[0].role == Agent.Assistant &&
              Contains(r.chatHistory[0].text, Services.Registry[selected].name)
    ensures Valid(s) ==> Valid(r)
  {
    Services.RegistryShape();
    if selected != s.currentService then SwitchService(s.(currentService := selected)) else s
  }

  /** The dict-update merge guarded by `if response.get("extracted")`: only a
      present, non-empty object is merged, and it is merged as-is. */
  function Merge(data: Object, extracted: Option<Object>): (r: Object)
    ensures extracted.None? || extracted.value == map[] ==> r == data
    ensures extracted.Some? ==> r.Keys == data.Keys + extracted.value.Keys
    ensures extracted.Some? ==> forall k :: k in extracted.value ==> r[k] == extracted.value[k]
    ensures forall k :: k in data && (extracted.None? || k !in extracted.value) ==> k in r && r[k] == data[k]
  {
    if extracted.Some? && |extracted.value| > 0 then data + extracted.value else data
  }

  /** `response.get("message", "I didn't understand.")`. */
  function ReplyText(message: Option<string>): (text: string)
    ensures message.Some? ==> text == message.value
    ensures message.None? ==> text == Fallback
  {
    match message
    case Some(m) => m
    case None => Fallback
  }

  /** The history the agent is shown for a new input: the stored history with
      the user's turn already appended. */
  function WithUserTurn(s: State, input: string): (h: seq<Agent.Turn>)
    ensures |h| == |s.chatHistory| + 1 && h[..|s.chatHistory|] == s.chatHistory
    ensures h[|s.chatHistory|] == Agent.Turn(Agent.User, input)
  {
    s.chatHistory + [Agent.Turn(Agent.User, input)]
  }

  /** The reply the agent gives for a new input. */
  function AgentReply(s: State, input: string, llm: seq<Agent.Message> -> Agent.Completion): Agent.Response
    requires s.currentService in Services.Registry
  {
    Agent.Think(s.agent, WithUserTurn(s, input), s.formData, Services.Registry[s.currentService], llm)
  }

  /** Recording a turn once the agent has answered: the user's input, the
      merge of what the agent extracted, and its reply (or the fallback). */
  function Respond(s: State, input: string, response: Agent.Response): (r: State)
    ensures r.agent == s.agent && r.currentService == s.currentService
    ensures |r.chatHistory| == |s.chatHistory| + 2
    ensures r.chatHistory[..|s.chatHistory|] == s.chatHistory
    ensures r.chatHistory[|s.chatHistory|] == Agent.Turn(Agent.User, input)
    ensures r.chatHistory[|s.chatHistory| + 1].role == Agent.Assistant
    ensures response.message.Some? ==> r.chatHistory[|s.chatHistory| + 1].text == response.message.value
    ensures response.message.None? ==> r.chatHistory[|s.chatHistory| + 1].text == Fallback
    ensures r.formData == Merge(s.formData, response.extracted)
    ensures s.formData.Keys <= r.formData.Keys
    ensures Valid(s) ==> Valid(r)
  {
    var history := WithUserTurn(s, input) + [Agent.Turn(Agent.Assistant, ReplyText(response.message))];
    assert history[..|s.chatHistory|] == s.chatHistory;
    s.(formData := Merge(s.formData, response.extracted), chatHistory := history)
  }

  /** One chat turn: record the user's input, ask the agent, merge what it
      extracted, and record its reply. */
  function ChatTurn(s: State, input: string, llm: seq<Agent.Message> -> Agent.Completion): (r: State)
    requires s.currentService in Services.Registry
    ensures r.agent == s.agent && r.currentService == s.currentService
    ensures r.chatHistory == s.chatHistory + [
              Agent.Turn(Agent.User, input),
              Agent.Turn(Agent.Assistant, ReplyText(AgentReply(s, input, llm).message))]
    ensures r.formData == Merge(s.formData, AgentReply(s, input, llm).extracted)
    ensures Valid(s) ==> Valid(r)
  {
    var response := AgentReply(s, input, llm);
    var r := Respond(s, input, response);
    assert r.chatHistory == s.chatHistory + [r.chatHistory[|s.chatHistory|], r.chatHistory[|s.chatHistory| + 1]];
    r
  }

  /** A user action; each one ends in a rerun of the script. */
  datatype Event =
    | Select(key: string)
    | Submit(input: string, llm: seq<Agent.Message> -> Agent.Completion)
    | ResetCase
    | GeneratePdf

  /** The selector only ever returns one of its options. */
  predicate Admissible(e: Event) {
    e.Select? ==> e.key in Services.ServiceKeys
  }

  /** One rerun: the first-load guard, then the action. An empty chat input is
      no submission; rendering a document leaves the session untouched. */
  function Step(s: State, e: Event): (r: State)
    requires s.currentService in Services.Registry
    requires Admissible(e)
    ensures |r.chatHistory| > 0
    ensures Valid(s) ==> Valid(r)
    ensures r.agent == s.agent
  {
    var g := EnsureGreeting(s);
    match e
    case Select(key) => SelectService(g, key)
    case Submit(input, llm) => if input == "" then g else ChatTurn(g, input, llm)
    case ResetCase => SwitchService(g)
    case GeneratePdf => g
  }

  function Run(s: State, events: seq<Event>): State
    requires s.currentService in Services.Registry
    requires forall i :: 0 <= i < |events| ==> Admissible(events[i])
    decreases |events|
  {
    if |events| == 0 then s
    else
      var next := Step(s, events[0]);
      Run(next, events[1..])
  }

  /** However the user interacts, the session stays valid: in particular the
      history is never empty once the script has run. */
  lemma {:induction false} RunStaysValid(s: State, events: seq<Event>)
    requires Valid(s)
    requires forall i :: 0 <= i < |events| ==> Admissible(events[i])
    ensures Valid(Run(s, events))
    decreases |events|
  {
    if |events| > 0 {
      RunStaysValid(Step(s, events[0]), events[1..]);
    }
  }

  /** The selector preselects the active service, so an idle rerun of a
      valid session changes nothing. */
  lemma IdleRerunIsNoOp(s: State)
    requires Valid(s)
    ensures Step(s, Select(IdleSelection(s))) == s
  {
    Services.RegistryShape();
  }

  /** Switching to another service and back never restores the old case file. */
  lemma SwitchAwayAndBackForgets(s: State, other: string)
    requires Valid(s)
    requires other in Services.ServiceKeys && other != s.currentService
    ensures var back := SelectService(SelectService(s, other), s.currentService);
            back.currentService == s.currentService && back.formData == map[] && |back.chatHistory| == 1 &&
            back.chatHistory[0].role == Agent.Assistant &&
            Contains(back.chatHistory[0].text, Services.Registry[s.currentService].name)
  {
    Services.RegistryShape();
  }

  /** Fields shared by two schemas (e.g. `LastName` in the identity-card and
      passport forms) are not carried across a switch. */
  lemma SharedFieldNotCarried(s: State, value: Value)
    requires Valid(s) && s.currentService == Services.IdentityCardKey
    ensures var t := SelectService(s.(formData := s.formData["LastName" := value]), Services.PassportRenewalKey);
            "LastName" in Services.KeySet(Services.Registry[t.currentService].requiredFields) &&
            "LastName" !in t.formData
  {
    Services.SharedFieldKeys();
  }

  /** Merge is last-write-wins: two successive merges equal one merge of the
      second object laid over the first. */
  lemma MergeTwice(data: Object, first: Object, second: Object)
    ensures Merge(Merge(data, Some(first)), Some(second)) == Merge(data, Some(first + second))
  {
    if first == map[] {
      assert first + second == second;
    } else if second == map[] {
      assert first + second == first;
    } else {
      assert (data + first) + second == data + (first + second);
    }
  }

  /** Merging the same extraction twice changes nothing the second time. */
  lemma MergeIdempotent(data: Object, extracted: Option<Object>)
    ensures Merge(Merge(data, extracted), extracted) == Merge(data, extracted)
  {
  }

  /** Whatever the agent replies, each key of `extracted` ends with the new
      value, every other key keeps its value, and no key is removed. */
  lemma ChatTurnMerges(s: State, input: string, llm: seq<Agent.Message> -> Agent.Completion)
    requires s.currentService in Services.Registry
    ensures var r := ChatTurn(s, input, llm);
            var extracted := AgentReply(s, input, llm).extracted;
            extracted.Some? ==>
              && r.formData.Keys == s.formData.Keys + extracted.value.Keys
              && (forall k :: k in extracted.value ==> r.formData[k] == extracted.value[k])
              && (forall k :: k in s.formData && k !in extracted.value ==> r.formData[k] == s.formData[k])
  {
  }

  /** A reply without a `message` is recorded as the fallback text. */
  lemma MissingMessageFallsBack(s: State, input: string, llm: seq<Agent.Message> -> Agent.Completion)
    requires s.currentService in Services.Registry
    requires AgentReply(s, input, llm).message.None?
    ensures ChatTurn(s, input, llm).chatHistory[|s.chatHistory| + 1] == Agent.Turn(Agent.Assistant, Fallback)
  {
  }

  /** A failed model call leaves the case file untouched and adds exactly the
      user's turn and one assistant turn explaining the error. */
  lemma FailedTurnKeepsData(s: State, input: string, llm: seq<Agent.Message> -> Agent.Completion)
    requires s.currentService in Services.Registry
    requires llm(Agent.BuildMessages(WithUserTurn(s, input), s.formData, Services.Registry[s.currentService])).Raised?
    ensures var r := ChatTurn(s, input, llm);
            var reason := llm(Agent.BuildMessages(WithUserTurn(s, input), s.formData, Services.Registry[s.currentService])).reason;
            r.formData == s.formData &&
            r.chatHistory == s.chatHistory + [Agent.Turn(Agent.User, input), Agent.Turn(Agent.Assistant, Agent.ErrorPrefix + reason)]
  {
    var ms := Agent.BuildMessages(WithUserTurn(s, input), s.formData, Services.Registry[s.currentService]);
    var response := AgentReply(s, input, llm);
    assert response == Agent.FailureResponse(llm(ms).reason);
    RespondToFailure(s, input, llm(ms).reason);
  }

  /** Recording the failure result adds the user turn and the error turn and
      merges nothing. */
  lemma RespondToFailure(s: State, input: string, reason: string)
    ensures var r := Respond(s, input, Agent.FailureResponse(reason));
            r.formData == s.formData &&
            r.chatHistory == s.chatHistory + [Agent.Turn(Agent.User, input), Agent.Turn(Agent.Assistant, Agent.ErrorPrefix + reason)]
  {
  }

  /** The model sees the new input as the last message, after the two system
      messages, and sees the case file as it was before this turn. */
  lemma AgentSeesNewInput(s: State, input: string)
    requires s.currentService in Services.Registry
    ensures var ms := Agent.BuildMessages(WithUserTurn(s, input), s.formData, Services.Registry[s.currentService]);
            && |ms| == 2 + (if |s.chatHistory| + 1 < Agent.ContextTurns then |s.chatHistory| + 1 else Agent.ContextTurns)
            && ms[1] == Agent.Message(Agent.System, Agent.KnownData(s.formData))
            && ms[|ms| - 1] == Agent.Message(Agent.User, Agent.Text(input))
  {
    Agent.NewestTurnLast(WithUserTurn(s, input), s.formData, Services.Registry[s.currentService]);
  }
}
