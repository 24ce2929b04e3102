# Civil-Servant-Agent: session model

A Dafny model of the session state machine behind the Streamlit assistant
that fills government forms through conversation. The session holds the
active service key, the case file (`form_data`, a map from field key to a
JSON value), the chat history of `(role, text)` turns and the agent; the
static service registry supplies each service's name, template and ordered
required-field schema. Every rerun of the script is one transition:

- first load: build the agent (fails without an API key), default to the
  identity-card service, and greet whenever the history is empty;
- switch/reset: clear the case file and the history, then seed one
  assistant greeting naming the service;
- service selection: the selector preselects the active key (falling back
  to index 0), and a different selection switches and resets;
- chat turn: append the user turn, ask the agent, merge its `extracted`
  object into the case file with dict-update semantics, append its
  `message` or `"I didn't understand."`;
- dashboard: `filled` counts every key of the case file, `total` the
  schema's fields, progress is `min(filled/total, 1)`, each field is shown
  when its value is truthy and waiting otherwise, and the document button is
  offered only when `filled > 0`.

The agent contributes the message list it sends to the language model (two
system messages followed by the last ten history turns) and the result it
substitutes when the call raises (empty `extracted`, action `CONTINUE`, a
message starting `Error: `). The language model itself is an opaque total
function from the message list to a completion: a decoded reply or the text
of the exception.

Extracted objects are merged as they come: keys outside the schema, `null`
values and placeholder strings are all stored. `filled` counts all keys, so
the counter can reach `total` while a field still waits
(`Dashboard.FullBarWhileWaiting`); the progress division is unguarded, so
the model requires a non-empty schema, which every registered service has
(`Services.SchemaSizes`); a schema without fields would make `app.py`
raise `ZeroDivisionError` rather than report the case complete.

Modules: `Wrappers` (Option, Result), `Json` (decoded values and Python
truthiness), `Services` (`src/services.py`), `Agent` (`src/agent.py`),
`Session` (the state and its transitions in `app.py`), `Dashboard` (the case
file panel in `app.py`).

## Model

| member | source | states |
|---|---|---|
| Services.RegistryShape | src/services.py:3-48 | The registry holds exactly `identity_card`, `passport_renewal` and `vehicle_registration`, listed once each in selector order, and the default service is registered and first. |
| Services.SchemaSizes | src/services.py:9-46 | The schemas have 8, 6 and 6 distinct keys, so every registered schema is non-empty and the progress division is safe. |
| Services.KeySetSize | src/services.py:9-18 | A schema without repeated keys has as many keys as entries, so `len(required_fields)` counts its distinct keys. |
| Services.SharedFieldKeys | src/services.py:10-30 | `LastName`, `FirstName` and `CNP` are fields of both the identity-card and the passport schema. |
| Services.DistinctTemplates | src/services.py:7-38 | Different services render into different template files. |
| Agent.New | src/agent.py:10-14 | Construction succeeds exactly when the API key is set and non-empty; otherwise it fails with the missing-key message. |
| Agent.Window | src/agent.py:48 | The context window has `min(10, |history|)` turns and is the suffix of the history of that length. |
| Agent.SliceIsLastN | src/agent.py:48 | Slicing off the last `n` turns agrees with dropping the oldest turn until `n` remain. |
| Agent.WindowIsLastTen | src/agent.py:48 | The window equals the reference "drop oldest until ten remain" definition. |
| Agent.WindowSlides | src/agent.py:48 | Appending a turn puts it last in the window and, when the window is full, evicts the oldest turn. |
| Agent.ToMessages | src/agent.py:48-49 | The append loop yields one message per turn, in order, with the turn's role and text. |
| Agent.BuildMessages | src/agent.py:43-49 | The message list is the instructions system message, the known-data system message, then the window's turns, so its length is `2 + min(10, |history|)`. |
| Agent.NewestTurnLast | src/agent.py:43-49 | The newest history turn is the last message sent to the model. |
| Agent.OnlyPromptIsSystem | src/agent.py:43-49 | When the history holds only user and assistant turns, no message after the first two is a system message. |
| Agent.FailureResponse | src/agent.py:59-60 | The failure result has an empty `extracted`, action `CONTINUE` and a message beginning `Error: `. |
| Agent.Think | src/agent.py:16-60 | A completed call returns the model's reply unchanged; a raising call returns empty `extracted`, `CONTINUE` and `Error: ` followed by the reason. |
| Session.Greeting | app.py:31-33 | The greeting text contains the service's display name. |
| Session.SwitchService | app.py:27-33 | After a switch/reset the case file is empty and the history is exactly one assistant turn naming the active service; the service and agent are unchanged. |
| Session.EnsureGreeting | app.py:35-37 | After the first-load guard the history is non-empty; a non-empty history is left alone and an empty one gets a fresh case: empty case file and one assistant greeting naming the active service, with service and agent kept. |
| Session.Start | app.py:16-37 | The first run succeeds exactly when the API key is present, and then yields a valid session on `identity_card` with an empty case file and one assistant greeting naming the identity-card service. |
| Session.IndexOf | app.py:47-48 | `list.index` finds the first position of the key exactly when the key is in the list. |
| Session.SelectorIndex | app.py:44-50 | The preselected index is the active key's position, or 0 when the key is not an option. |
| Session.IdleSelection | app.py:52-57 | An untouched selector returns the active key when it is an option and the first service otherwise. |
| Session.SelectService | app.py:59-62 | Selecting the active key changes nothing; selecting another key makes it active, empties the case file and leaves one assistant greeting naming the new service, keeping the agent; validity is preserved. |
| Session.Merge | app.py:99-100 | Merge is dict update: the keys become the union, each extracted key takes the new value, every other key keeps its value, and a missing or empty `extracted` leaves the case file as it was. |
| Session.ReplyText | app.py:103 | The assistant text is the reply's `message` when it has one, and `"I didn't understand."` otherwise. |
| Session.Respond | app.py:84-104 | Recording an answered turn keeps the old history as prefix, appends exactly the user turn and then one assistant turn whose text is the reply's `message` or the fallback, sets the case file to the merge of `extracted`, never removes a case-file key, and preserves validity. |
| Session.ChatTurn | app.py:82-107 | A chat turn appends exactly the user turn and the assistant turn carrying the agent's reply text, sets the case file to the merge of the agent's `extracted` (the agent having seen the history with the user turn), leaves service and agent unchanged, and preserves validity. |
| Session.RespondToFailure | app.py:99-104 | Recording the agent's failure result merges nothing and appends the user turn and the `Error: ` assistant turn. |
| Session.Step | app.py:35-157 | Each rerun leaves a non-empty history and keeps a valid session valid. |
| Session.RunStaysValid | app.py:24-37 | For every sequence of user actions a valid session stays valid, so the history is never empty after initialisation. |
| Session.IdleRerunIsNoOp | app.py:44-62 | A rerun in which the selector is untouched leaves a valid session unchanged. |
| Session.SwitchAwayAndBackForgets | app.py:59-62 | Switching to another service and back yields an empty case file and a single assistant greeting naming the original service. |
| Session.SharedFieldNotCarried | app.py:59-62 | A `LastName` entered for the identity card is gone after switching to the passport form, although that form also has a `LastName` field. |
| Session.MergeTwice | app.py:99-100 | Two successive merges equal one merge of the second object laid over the first (last write wins). |
| Session.MergeIdempotent | app.py:99-100 | Merging the same extraction again changes nothing. |
| Session.ChatTurnMerges | app.py:89-100 | After a turn whose reply has `extracted`, the case-file keys are the old keys plus the extracted ones, extracted keys hold the new values and the rest are unchanged. |
| Session.MissingMessageFallsBack | app.py:103-104 | A reply without `message` is recorded as the assistant turn `"I didn't understand."`. |
| Session.FailedTurnKeepsData | app.py:96-104 | When the model call raises, the case file is unchanged and the history gains the user turn and one assistant `Error: ` turn. |
| Session.AgentSeesNewInput | app.py:84-93 | The model is sent `2 + min(10, |history| + 1)` messages, the known data as it was before the turn, and the user's new input last. |
| Dashboard.Progress | app.py:117 | Progress lies in [0, 1], is 1 exactly when `filled >= total`, and up to the cap times `total` equals `filled`. |
| Dashboard.RatioAgainstOne | app.py:117 | The uncapped ratio is non-negative, and reaches (or exceeds) 1 exactly when `filled` reaches (or exceeds) `total`. |
| Dashboard.FieldRows | app.py:125-134 | One row per required field in schema order with its label; a row shows the value exactly when the case file holds a truthy value for that key, and waits otherwise. |
| Dashboard.Render | app.py:113-145 | `total` is the schema size and positive, `filled` counts every case-file key, the bar is full exactly when `filled >= total`, and the document button is offered exactly when `filled > 0`. |
| Dashboard.FilledCountsEveryKey | app.py:115 | Adding any new key, even with a `null` value or outside the schema, raises `filled` by one. |
| Dashboard.ScopedDataIsExact | app.py:114-117 | When the case file holds only schema keys, `filled <= total` and the bar is full exactly when every schema key is present. |
| Dashboard.FullBarWhileWaiting | app.py:114-134 | With every schema key present but one holding a falsy value, the counter reads total/total and the bar is full while that field still waits. |
| Dashboard.ResetClearsPanel | app.py:140-145 | After a reset nothing is filled, progress is 0, every field waits and no document button is offered. |
| Dashboard.ChatTurnKeepsProgress | app.py:145 | A chat turn never lowers `filled`, so an offered document button stays offered until a reset. |

## Left out

- Streamlit rendering, the CSS file, the chat transcript display, the spinner, `time.sleep` and `st.rerun`: user-interface plumbing; each rerun is one `Session.Step`.
- The OpenAI client call and `json.loads`: a network call and a foreign library; the model is the parameter `llm`, and a decoding error is one more `Raised` outcome.
- The wording of the system prompt and the `json.dumps` rendering of the required fields and the known data: the messages carry them as structured content instead.
- Reply shapes outside `Agent.Response`: a JSON `null` message is appended by app.py:103-104 as `None` text, and messages are modelled only as strings; a falsy `extracted` that is not an object (`false`, `0`, `""`, `[]`) is skipped by the guard at app.py:99 exactly like a missing one, so the model's `None` stands for it; a truthy string, number or `true` makes `dict.update` at app.py:100 raise; a truthy array is read as key/value pairs in order, and `dict.update` raises at the first item that is not a pair with a hashable first element, keeping the pairs already merged (the user turn then stays without a reply); a decoded reply that is not an object makes `response.get` raise. The `null` message and these non-object shapes are not modelled.
- JSON floats, arrays and nested objects as extracted values: values are `null`, booleans, integers and strings.
- Progress is an exact rational number, not an IEEE double.
- `src/vision.py`: image encoding and a network call, not used by `app.py`.
- `src/pdf_handler.py` and the document download: file I/O and page geometry; `GeneratePdf` only leaves the session unchanged.
- The `DONE` action and the 13-digit `CNP` rule: the first is never consulted, the second exists only as prompt text.
- A `current_service` outside the registry: with an empty history the greeting lookup at app.py:31 raises `KeyError`; with a non-empty history the selector's `ValueError` fallback (app.py:47-50) preselects the first service, and lines 59-62 switch to it and rerun before any lookup. Neither state arises from the program's own transitions, so the transitions require a registered key and `Session.RunStaysValid` shows it always is; `Session.IdleSelection` states the fallback itself.
- Services.SharedFieldKeys: states that the three keys are shared, not that they are the only keys the two schemas share.
- Session.Step: the selector's user choice is an event parameter restricted to the registry keys, as the widget only offers those.
