# A verified model of the Bedrock agent chat client

`frontend.py` is a Streamlit chat page in front of an Amazon Bedrock agent. It keeps a
conversation list in the session state and sends each prompt to the agent. It renders
the agent's reasoning trace as collapsible panels, shows the streamed answer chunks and
records them in the conversation. It also turns two known service errors into pop-ups.
This project models that behaviour in Dafny and proves properties of the model.

Modules, one per file:

- `Wrappers`: the `Option` type.
- `Json`: the values `json.loads` produces, with Python truthiness and the two subscripts the
  client relies on (`v["key"]` and `v[0]`); a failing subscript is `None`.
- `Text`: Python's `t in s` on strings (`Contains`) and its reference definition by position.
- `Events`: the nested dictionaries of a `completion` stream event. A key the client tests with
  `in` or reads with `.get` is an `Option`. A key indexed only for one `invocationType` is an
  `Option` that the well-formedness predicates require. A key indexed without any guard is a
  plain field. The predicates are the preconditions under which the client raises no KeyError.
- `Render`: `handle_trace_event` and `display_observation_details` as pure functions from an
  event to the list of panels (`RenderUnit`s) they open, with their titles, bodies and initial
  expansion.
- `Errors`: the three-way classification of a failed invocation in `main`.
- `Consumer`: what consuming a stream shows and appends, as a function of the events
  (`Consume`), with its properties.
- `Frontend`: the mutable part. `Transcript` is the conversation list object. `SessionState` is
  `st.session_state`, with `InitializeSession` (`initialize_session`) and `RunScript` (one run of
  `main`). `HandleAgentResponse` is the loop of `handle_agent_response`, proved against
  `Consume`.

`json.loads` and `bytes.decode` are function parameters (`parse`, `decode`). So are the
fresh session id that `uuid.uuid4` would produce, the prompt the chat input returns and the
agent's response.

Where the code raises or falls back in ways one might not expect, the model follows the code:

- A sub-agent invocation without `agentCollaboratorName` raises KeyError at `frontend.py:114`,
  so the model requires the name. The
  placeholder `不明なエージェント` exists only on the observation path (`frontend.py:59`).
- A missing `text` or `input` key inside a trace raises KeyError; it is not rendered with a
  fallback. The model makes such keys preconditions.
- When the reply's `content` is a string, `[0]` gives its first character (`Json.IndexZero`),
  and `["text"]` on that one-character string raises TypeError, so the bare `except` writes
  the raw reply (`frontend.py:96`, `101-102`). Separately, any falsy `text` (an empty string,
  `0`, `false`, `null`, `[]`, `{}`) makes the panel show the first element instead
  (`frontend.py:97-100`).
- An undecodable chunk raises out of `main` even though an error pop-up exists, because `main`
  catches only `EventStreamError` and `ClientError`. An error naming neither code is raised
  again unchanged (`Raised(ServiceError(text))`).

## Model

| member | source | states |
|---|---|---|
| Text.ContainsIffOccurs | frontend.py:185-187 | `t in s` holds exactly when `t` occurs at some position of `s` |
| Errors.ClassifyInvocationError | frontend.py:184-190 | dependency-failure code present gives DependencyFailed; otherwise throttling code present gives Throttled; otherwise the error is re-raised with its text unchanged; each case if and only if |
| Errors.ClassifiedByTokens | frontend.py:185-188 | an error naming a code is never re-raised, and the handling depends only on which codes occur in its text |
| Errors.DependencyFailedWins | frontend.py:185-188 | the dependency-failure code wins over the throttling code wherever the two stand |
| Errors.ThrottlingCodeIsThrottled | frontend.py:187-188 | example: the bare throttling code is classified as throttling |
| Render.NameInTitles | frontend.py:61 | both sub-agent titles show the agent's name after the same prefix |
| Render.ModelInputUnit | frontend.py:77-89 | collapsed "thinking" panel showing the parsed JSON when the input parses, the raw text otherwise |
| Render.ModelOutputBody | frontend.py:92-102 | the first content element's text when truthy, the element when its text is falsy, the raw reply when parsing or any subscript fails, each case if and only if |
| Render.ModelOutputUnit | frontend.py:92-94 | collapsed "thought complete" panel whose body is `ModelOutputBody` of the raw reply |
| Render.RationaleUnit | frontend.py:105-107 | expanded panel writing the rationale text verbatim |
| Render.InvocationUnit | frontend.py:110-124 | a panel exactly for the three known invocation types, expanded exactly for a sub-agent call; its title names the sub-agent; the body is the invocation's input |
| Render.ObservationUnit | frontend.py:41-67 | a panel exactly for the two known observation types; search results are collapsed and fall back to a notice when the references are falsy; a sub-agent reply is expanded, names the agent or the placeholder, and falls back to a notice when the text is missing or empty |
| Render.PartsAtStages | frontend.py:76-130 | each sub-field contributes at most one unit, of its own stage |
| Render.OrchestrationOrdered | frontend.py:76-130 | the units of an orchestration trace come in strictly increasing stage order |
| Render.HandleTraceEvent | frontend.py:71-72 | a trace without an orchestration part shows nothing |
| Render.TraceEventOrdered | frontend.py:74-130 | the units of a trace event are in sub-field order, at most one per sub-field, at most five, none of them an answer |
| Render.TraceUnitsMatchSubFields | frontend.py:76-130 | a stage has a unit exactly when its sub-field is present and of a rendered type; the number of units is the number of such sub-fields |
| Consumer.ConsumeAppend | frontend.py:146-154 | consuming two pieces of a stream is consuming the first and then the second, and a decoding error is final |
| Consumer.AnswersAreDecodedChunks | frontend.py:151-154 | when every chunk decodes, exactly one assistant entry per chunk is appended, in stream order, holding the decoded bytes |
| Consumer.TraceOnlyStreamRecordsNothing | frontend.py:146-150 | a stream without chunks appends nothing and cannot fail |
| Consumer.StepShowsItsEntries | frontend.py:148-154 | one event shows as answers exactly the entries it appends |
| Consumer.ShownAnswersAreRecorded | frontend.py:146-154 | the answers shown are exactly the entries appended, in the same order |
| Frontend.Transcript.constructor | frontend.py:23 | a new conversation list is empty |
| Frontend.Transcript.Append | frontend.py:154 | appending adds the entry at the end and keeps the others |
| Frontend.HandleAgentResponse | frontend.py:143-154 | the units shown and the entries appended are those of `Consume`, after the entries already present; it stops at the first chunk that does not decode |
| Frontend.ConsumeStopsAll | frontend.py:152 | after a chunk fails to decode, the rest of the stream changes nothing |
| Frontend.SessionState.InitializeSession | frontend.py:10-29 | each key is set only when absent: the Bedrock client for us-east-1, the fresh id, a new empty list, no last prompt; existing values and the list's entries are kept; the returned triple is the stored one |
| Frontend.SessionState.RunScript | frontend.py:164-190 | the session keys are set only when absent, as by `InitializeSession`; without a prompt nothing is appended; with one, the human entry comes first and then the consumed entries; a decoding error is raised; a stream error gives the pop-up for its code or is raised again; a complete stream is answered |

## Left out

- Streamlit rendering itself (`st.expander`, `st.write`, `st.json`, `st.info`, `st.chat_message`): panels are values (`RenderUnit`), not drawn.
- `display_chat_history` (`frontend.py:31-39`): it only draws the list and changes nothing.
- `invoke_bedrock_agent` (`frontend.py:132-141`), `load_dotenv` and `os.getenv`: network and environment calls. The response is a parameter of `RunScript`. A failure of the invocation call is a response with no events and a `Failed` end.
- `show_error_popup` (`frontend.py:156-162`): the pop-up's message text is not modelled; the outcome carries the error code passed to it.
- `print` calls (`frontend.py:83-88`, `147`, `179`): terminal output only.
- `uuid.uuid4`, `boto3.client`, `json.loads`, `bytes.decode`: parameters or an opaque `Client` value.
- Exceptions raised by Streamlit calls inside the `try` blocks are not modelled.
- JSON numbers are integers: floats, and the truthiness of `0.0`, are not modelled.
- `rawResponse.content`, the `text` fields and the sub-agent names are modelled as strings. The client would also accept other JSON values there.
- A `knowledgeBaseLookupOutput` or sub-agent `output` that is present but not a dictionary would raise AttributeError on `.get`. It is not representable in the model.
- Concurrency and reruns of the Streamlit script: one run of `main` per `RunScript` call.
- Consumer.TraceUnits: an event whose trace lacks a key the client indexes shows nothing here, where the client raises KeyError. Every member that consumes a stream requires the stream to be well formed, so this case never arises through them.
