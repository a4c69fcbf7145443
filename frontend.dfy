/** The stateful part of the client: the conversation list that
    `handle_agent_response` appends to, the Streamlit session state that
    `initialize_session` fills in once, and one run of `main`. */
module Frontend {

  import opened Wrappers
  import Json
  import opened Events
  import opened Render
  import opened Errors
  import opened Consumer

  /** The Python list of messages, shared by reference between the session
      state and the functions that append to it. */
  class Transcript {
    var entries: seq<Message>

    constructor ()
      ensures entries == []
    {
      entries := [];
    }

    method Append(m: Message)
      modifies this
      ensures entries == old(entries) + [m]
    {
      entries := entries + [m];
    }
  }

  /** `handle_agent_response`: every event of the completion stream in
      order, its trace rendered before its chunk; each chunk's decoded text
      is shown and appended as one assistant entry. Entries already in the
      list are left as they were. A chunk that does not decode raises: the
      method then stops, returning `decoded == false`, with what was shown
      and appended up to that point. */
  method HandleAgentResponse(completion: seq<RawEvent>, messages: Transcript,
                             decode: seq<byte> -> Option<string>,
                             parse: string -> Json.ParseResult)
    returns (units: seq<RenderUnit>, decoded: bool)
    requires StreamWellFormed(completion)
    modifies messages
    ensures var c := Consume(completion, decode, parse);
      && units == c.units
      && decoded == !c.decodeFailed
      && messages.entries == old(messages.entries) + c.entries
  {
    units, decoded := [], true;
    var i := 0;
    ghost var done := Nothing;
    while i < |completion|
      invariant 0 <= i <= |completion|
      invariant done == Consume(completion[..i], decode, parse)
      invariant units == done.units && !done.decodeFailed
      invariant messages.entries == old(messages.entries) + done.entries
    {
      var event := completion[i];
      ConsumeSnoc(completion, i, decode, parse);
      done := Then(done, Step(event, decode, parse));
      if event.trace.Some? {
        units := units + HandleTraceEvent(event, parse);
      }
      if event.chunk.Some? {
        var answer := decode(event.chunk.value.bytes);
        if answer.None? {
          decoded := false;
          ConsumeStopsAll(completion, i, decode, parse);
          return;
        }
        units := units + [AnswerUnit(answer.value)];
        messages.Append(Message(Assistant, answer.value));
      }
      i := i + 1;
    }
    assert completion[..i] == completion;
  }

  /** One more event is one more step. */
  lemma ConsumeSnoc(events: seq<RawEvent>, i: nat,
                    decode: seq<byte> -> Option<string>, parse: string -> Json.ParseResult)
    requires i < |events|
    ensures Consume(events[..i + 1], decode, parse)
         == Then(Consume(events[..i], decode, parse), Step(events[i], decode, parse))
  {
    assert events[..i + 1][..i] == events[..i];
    assert events[..i + 1][i] == events[i];
  }

  /** Once a prefix fails to decode, every longer prefix consumes the same. */
  lemma {:induction false} ConsumeStops(events: seq<RawEvent>, i: nat, j: nat,
                                        decode: seq<byte> -> Option<string>,
                                        parse: string -> Json.ParseResult)
    requires i < j <= |events|
    requires Consume(events[..i + 1], decode, parse).decodeFailed
    ensures Consume(events[..j], decode, parse) == Consume(events[..i + 1], decode, parse)
    decreases j
  {
    if j > i + 1 {
      ConsumeStops(events, i, j - 1, decode, parse);
      ConsumeSnoc(events, j - 1, decode, parse);
    }
  }

  /** A decoding error ends the consumption of the whole stream. */
  lemma ConsumeStopsAll(events: seq<RawEvent>, i: nat,
                        decode: seq<byte> -> Option<string>, parse: string -> Json.ParseResult)
    requires i < |events|
    requires Consume(events[..i + 1], decode, parse).decodeFailed
    ensures Consume(events, decode, parse) == Consume(events[..i + 1], decode, parse)
  {
    ConsumeStops(events, i, |events|, decode, parse);
    assert events[..|events|] == events;
  }

  /** The handle returned by `boto3.client`; opaque to the client. */
  datatype Client = Client(service: string, region: string)

  const BedrockClient := Client("bedrock-agent-runtime", "us-east-1")

  /** A key of `st.session_state`: absent, or present with a value. */
  datatype Slot<T> = Unset | Set(value: T)

  /** How a run of `main` ends. `ErrorPopup` carries the code passed to
      `show_error_popup`; `Raised` is an exception leaving `main`. */
  datatype Outcome = NoPrompt | Answered | ErrorPopup(code: string) | Raised(error: RaisedError)

  /** A chunk that does not decode, or a service error naming neither code. */
  datatype RaisedError = DecodeError | ServiceError(message: string)

  /** How the completion stream ended: normally, or with a service error
      (`EventStreamError` or `ClientError`) whose text is given; an error
      from the invocation itself is an empty stream that ends this way. */
  datatype StreamEnd = Completed | Failed(error: string)

  datatype AgentResponse = AgentResponse(completion: seq<RawEvent>, end: StreamEnd)

  /** `st.session_state`, holding the keys the client stores in it. */
  class SessionState {
    var client: Slot<Client>
    var sessionId: Slot<string>
    var messages: Slot<Transcript>
    var lastPrompt: Slot<Option<string>>

    /** The state of a session that has not run the script yet. */
    constructor ()
      ensures client == Unset && sessionId == Unset && messages == Unset && lastPrompt == Unset
    {
      client, sessionId, messages, lastPrompt := Unset, Unset, Unset, Unset;
    }

    ghost function Footprint(): set<object>
      reads this
    {
      {this} + (if messages.Set? then {messages.value} else {})
    }

    /** `initialize_session`: each key is set only when absent, so an
        initialised session keeps its client, id, list and last prompt;
        a new session gets a new client, the given fresh id (the caller's
        `uuid4`), a new empty list and no last prompt. */
    method InitializeSession(freshId: string) returns (c: Client, id: string, msgs: Transcript)
      modifies this
      ensures client == (if old(client).Set? then old(client) else Set(BedrockClient))
      ensures sessionId == (if old(sessionId).Set? then old(sessionId) else Set(freshId))
      ensures lastPrompt == (if old(lastPrompt).Set? then old(lastPrompt) else Set(None))
      ensures old(messages).Set? ==> messages == old(messages) && msgs.entries == old(messages.value.entries)
      ensures old(messages).Unset? ==> messages == Set(msgs) && fresh(msgs) && msgs.entries == []
      ensures c == client.value && id == sessionId.value && messages == Set(msgs)
    {
      if client.Unset? {
        client := Set(BedrockClient);
      }
      if sessionId.Unset? {
        sessionId := Set(freshId);
      }
      if messages.Unset? {
        var t := new Transcript();
        messages := Set(t);
      }
      if lastPrompt.Unset? {
        lastPrompt := Set(None);
      }
      c, id, msgs := client.value, sessionId.value, messages.value;
    }

    /** One run of `main` with the prompt the chat input returned and the
        response the agent gives to it. Without a prompt (none, or empty)
        nothing is appended. With one, the prompt is appended as a human
        entry before the agent's response is consumed; then a decoding
        error is raised, a stream error is classified by its text (a popup
        for either known code, the dependency failure first) or raised again,
        and a complete stream is answered. */
    method RunScript(freshId: string, prompt: Option<string>, response: AgentResponse,
                     decode: seq<byte> -> Option<string>, parse: string -> Json.ParseResult)
      returns (units: seq<RenderUnit>, outcome: Outcome)
      requires StreamWellFormed(response.completion)
      modifies Footprint()
      ensures client == (if old(client).Set? then old(client) else Set(BedrockClient))
      ensures lastPrompt == (if old(lastPrompt).Set? then old(lastPrompt) else Set(None))
      ensures messages.Set?
      ensures sessionId == (if old(sessionId).Set? then old(sessionId) else Set(freshId))
      ensures old(messages).Set? ==> messages == old(messages)
      ensures var before := if old(messages).Set? then old(messages.value.entries) else [];
        if prompt.None? || prompt.value == "" then
          && outcome == NoPrompt && units == []
          && messages.value.entries == before
        else
          var c := Consume(response.completion, decode, parse);
          && units == c.units
          && messages.value.entries
               == before + [Message(Human, prompt.value)] + c.entries
          && outcome == (
               if c.decodeFailed then Raised(DecodeError)
               else match response.end
                 case Completed => Answered
                 case Failed(e) =>
                   match ClassifyInvocationError(e)
                   case DependencyFailed => ErrorPopup(DependencyFailedToken)
                   case Throttled => ErrorPopup(ThrottlingToken)
                   case Reraise(m) => Raised(ServiceError(m)))
    {
      var _, _, msgs := InitializeSession(freshId);
      units := [];
      if prompt.None? || prompt.value == "" {
        outcome := NoPrompt;
        return;
      }
      msgs.Append(Message(Human, prompt.value));
      var decoded;
      units, decoded := HandleAgentResponse(response.completion, msgs, decode, parse);
      if !decoded {
        outcome := Raised(DecodeError);
      } else if response.end.Completed? {
        outcome := Answered;
      } else {
        var handling := ClassifyInvocationError(response.end.error);
        match handling
        case DependencyFailed => outcome := ErrorPopup(DependencyFailedToken);
        case Throttled => outcome := ErrorPopup(ThrottlingToken);
        case Reraise(m) => outcome := Raised(ServiceError(m));
      }
    }
  }
}
