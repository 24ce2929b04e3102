/** `UniversalAgent`: the conversational extractor. Only the parts that are
    logic are modelled: the construction guard, the message list handed to
    the language model (two system messages and a bounded history window),
    and the result substituted when the model call fails. The language
    model itself is an opaque function from messages to a completion. */
module Agent {
  import opened Wrappers
  import opened Json
  import Services

  datatype Role = User | Assistant | System

  /** One `(role, text)` entry of the chat history. */
  datatype Turn = Turn(role: Role, text: string)

  /** What a message carries. The system prompt is kept abstract: it is built
      from the service name and its required fields; the second system
      message carries the known data (both rendered with `json.dumps` by
      `think`, which is not modelled). */
  datatype Content =
    | Instructions(serviceName: string, requiredFields: seq<Services.Field>)
    | KnownData(data: Object)
    | Text(text: string)

  datatype Message = Message(role: Role, content: Content)

  /** The decoded JSON object the model answers with. A key the object does
      not have is `None`; for `extracted`, a JSON `null` is `None` too. */
  datatype Response = Response(extracted: Option<Object>, message: Option<string>, action: Option<string>)

  /** The outcome of the model call: a decoded reply, or the text of the
      exception raised by the client or by `json.loads`. */
  datatype Completion = Completed(response: Response) | Raised(reason: string)

  datatype UniversalAgent = UniversalAgent(apiKey: string)

  /** Number of most recent history turns sent to the model. */
  const ContextTurns := 10

  const MissingKeyError := "API Key missing. Set OPENAI_API_KEY in .env"
  const ErrorPrefix := "Error: "
  const ContinueAction := "CONTINUE"

  /** `UniversalAgent()`, with the `OPENAI_API_KEY` environment lookup as a
      parameter: an unset or empty key raises `ValueError`. */
  function New(apiKey: Option<string>): (r: Result<UniversalAgent, string>)
    ensures r.Success? <==> apiKey.Some? && apiKey.value != ""
    ensures r.Success? ==> r.value.apiKey == apiKey.value
    ensures r.Failure? ==> r.error == MissingKeyError
  {
    match apiKey
    case Some(key) => if key != "" then Success(UniversalAgent(key)) else Failure(MissingKeyError)
    case None => Failure(MissingKeyError)
  }

  /** `history[-10:]`. */
  function Window(history: seq<Turn>): (w: seq<Turn>)
    ensures |w| == if |history| < ContextTurns then |history| else ContextTurns
    ensures w == history[|history| - |w|..]
  {
    if |history| <= ContextTurns then history else history[|history| - ContextTurns..]
  }

  /** Reference definition of a bounded window: drop the oldest turn until at
      most `n` remain. */
  function LastN(history: seq<Turn>, n: nat): seq<Turn>
    decreases |history|
  {
    if |history| <= n then history else LastN(history[1..], n)
  }

  /** Taking the last `n` by slicing agrees with dropping the oldest turn one
      at a time. */
  lemma {:induction false} SliceIsLastN(history: seq<Turn>, n: nat)
    ensures LastN(history, n) == if |history| <= n then history else history[|history| - n..]
    decreases |history|
  {
    if |history| > n {
      SliceIsLastN(history[1..], n);
      if |history| - 1 > n {
        assert history[1..][|history| - 1 - n..] == history[|history| - n..];
      }
    }
  }

  /** The window sent to the model is the last ten turns. */
  lemma WindowIsLastTen(history: seq<Turn>)
    ensures Window(history) == LastN(history, ContextTurns)
  {
    SliceIsLastN(history, ContextTurns);
  }

  /** Appending a turn slides the window: the new turn enters last and, once
      the window is full, the oldest turn leaves. */
  lemma WindowSlides(history: seq<Turn>, t: Turn)
    ensures Window(history + [t]) ==
      (if |history| < ContextTurns then Window(history) else Window(history)[1..]) + [t]
  {
    var h := history + [t];
    if |history| >= ContextTurns {
      assert h[|h| - ContextTurns..] == history[|history| - ContextTurns + 1..] + [t];
    }
  }

  /** The `for r, t in ...: messages.append(...)` loop: one message per turn,
      in order, with its role and text. */
  function ToMessages(turns: seq<Turn>): (ms: seq<Message>)
    ensures |ms| == |turns|
    ensures forall i :: 0 <= i < |turns| ==> ms[i].role == turns[i].role && ms[i].content == Text(turns[i].text)
  {
    if |turns| == 0 then []
    else ToMessages(turns[..|turns| - 1]) + [Message(turns[|turns| - 1].role, Text(turns[|turns| - 1].text))]
  }

  /** The message list `think` sends to the model. */
  function BuildMessages(history: seq<Turn>, data: Object, service: Services.Service): (ms: seq<Message>)
    ensures |ms| == 2 + (if |history| < ContextTurns then |history| else ContextTurns)
    ensures ms[0] == Message(System, Instructions(service.name, service.requiredFields))
    ensures ms[1] == Message(System, KnownData(data))
    ensures forall i :: 2 <= i < |ms| ==>
              ms[i] == Message(Window(history)[i - 2].role, Text(Window(history)[i - 2].text))
  {
    var head := [ Message(System, Instructions(service.name, service.requiredFields)),
                  Message(System, KnownData(data)) ];
    var tail := ToMessages(Window(history));
    assert (head + tail)[..2] == head;
    head + tail
  }

  /** The newest history turn is always the last message the model sees. */
  lemma NewestTurnLast(history: seq<Turn>, data: Object, service: Services.Service)
    requires |history| > 0
    ensures var ms := BuildMessages(history, data, service);
            ms[|ms| - 1] == Message(history[|history| - 1].role, Text(history[|history| - 1].text))
  {
    var w := Window(history);
    var ms := BuildMessages(history, data, service);
    var last := |ms| - 1;
    assert last - 2 == |w| - 1;
    assert ms[last] == Message(w[last - 2].role, Text(w[last - 2].text));
    assert w[|w| - 1] == history[|history| - 1];
  }

  /** When the history holds only user and assistant turns, the two leading
      messages are the only system messages. */
  lemma OnlyPromptIsSystem(history: seq<Turn>, data: Object, service: Services.Service)
    requires forall i :: 0 <= i < |history| ==> history[i].role != System
    ensures forall i :: 2 <= i < |BuildMessages(history, data, service)| ==>
              BuildMessages(history, data, service)[i].role != System
  {
    var w := Window(history);
    var ms := BuildMessages(history, data, service);
    forall i | 2 <= i < |ms| ensures ms[i].role != System {
      var j := |history| - |w| + (i - 2);
      assert w[i - 2] == history[j];
    }
  }

  /** What `think` returns when the model call raises. */
  function FailureResponse(reason: string): (r: Response)
    ensures r.extracted == Some(map[])
    ensures r.action == Some(ContinueAction)
    ensures r.message.Some? && |r.message.value| >= |ErrorPrefix|
    ensures r.message.value[..|ErrorPrefix|] == ErrorPrefix
  {
    Response(Some(map[]), Some(ErrorPrefix + reason), Some(ContinueAction))
  }

  /** `UniversalAgent.think`: send the bounded context to the model and
      return its decoded reply, or the failure result if the call raises. */
  function Think(agent: UniversalAgent, history: seq<Turn>, data: Object, service: Services.Service,
                 llm: seq<Message> -> Completion): (r: Response)
    ensures llm(BuildMessages(history, data, service)).Completed? ==>
              r == llm(BuildMessages(history, data, service)).response
    ensures llm(BuildMessages(history, data, service)).Raised? ==>
              r.extracted == Some(map[]) && r.action == Some(ContinueAction) &&
              r.message == Some(ErrorPrefix + llm(BuildMessages(history, data, service)).reason)
  {
    match llm(BuildMessages(history, data, service))
    case Completed(response) => response
    case Raised(reason) => FailureResponse(reason)
  }
}
