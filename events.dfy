/** The raw events of a Bedrock agent's `completion` stream, as the nested
    dictionaries the client receives. A key the client tests for (`in`) or
    reads with `.get` is an `Option`; a key it indexes directly (a missing
    one would raise KeyError) is a plain field, except those indexed only
    for one `invocationType`, which are `Option`s that the predicates at
    the end require; those predicates become the preconditions of the
    rendering functions. */
module Events {

  import opened Wrappers
  import Json

  type byte = x: int | 0 <= x < 256

  /** One element of the stream: `trace` and `chunk` are looked up
      independently, so an event may carry both, either or neither. */
  datatype RawEvent = RawEvent(trace: Option<TracePart>, chunk: Option<Chunk>)

  /** `event["chunk"]`, holding the answer fragment's bytes. */
  datatype Chunk = Chunk(bytes: seq<byte>)

  /** `event["trace"]`, whose own `trace` key holds the step record. */
  datatype TracePart = TracePart(trace: StepTrace)

  /** `event["trace"]["trace"]`; only its orchestration part is rendered. */
  datatype StepTrace = StepTrace(orchestrationTrace: Option<Orchestration>)

  /** The orchestration trace and its five sub-fields, any subset present. */
  datatype Orchestration = Orchestration(
    modelInvocationInput: Option<TextRecord>,
    modelInvocationOutput: Option<ModelOutput>,
    rationale: Option<TextRecord>,
    invocationInput: Option<InvocationInput>,
    observation: Option<Observation>)

  /** A record whose `text` key is indexed directly. */
  datatype TextRecord = TextRecord(text: string)

  /** A record whose `text` key is read with `.get`. */
  datatype OptionalText = OptionalText(text: Option<string>)

  datatype ModelOutput = ModelOutput(rawResponse: RawResponse)

  /** `rawResponse.content`: the model's reply, itself JSON in a string. */
  datatype RawResponse = RawResponse(content: string)

  datatype InvocationInput = InvocationInput(
    invocationType: string,
    agentCollaboratorInvocationInput: Option<CollaboratorInput>,
    knowledgeBaseLookupInput: Option<TextRecord>,
    actionGroupInvocationInput: Option<Json.Value>)

  datatype CollaboratorInput = CollaboratorInput(
    agentCollaboratorName: Option<string>,
    input: Option<TextRecord>)

  datatype Observation = Observation(
    observationType: Option<string>,  // the key `type`
    knowledgeBaseLookupOutput: Option<LookupOutput>,
    agentCollaboratorInvocationOutput: Option<CollaboratorOutput>)

  datatype LookupOutput = LookupOutput(retrievedReferences: Option<Json.Value>)

  datatype CollaboratorOutput = CollaboratorOutput(
    agentCollaboratorName: Option<string>,
    output: Option<OptionalText>)

  const AgentCollaborator := "AGENT_COLLABORATOR"
  const KnowledgeBase := "KNOWLEDGE_BASE"
  const ActionGroup := "ACTION_GROUP"

  /** The keys `handle_trace_event` indexes under an `invocationInput`
      once its type is known: the input record of the type it names, and
      for a sub-agent call that record's name and input. */
  predicate InvocationWellFormed(i: InvocationInput) {
    && (i.invocationType == AgentCollaborator ==>
          && i.agentCollaboratorInvocationInput.Some?
          && i.agentCollaboratorInvocationInput.value.agentCollaboratorName.Some?
          && i.agentCollaboratorInvocationInput.value.input.Some?)
    && (i.invocationType == KnowledgeBase ==> i.knowledgeBaseLookupInput.Some?)
    && (i.invocationType == ActionGroup ==> i.actionGroupInvocationInput.Some?)
  }

  /** Every other key indexed without a guard is required by the types
      above, and the observation is read only with `.get`. */
  predicate OrchestrationWellFormed(o: Orchestration) {
    o.invocationInput.Some? ==> InvocationWellFormed(o.invocationInput.value)
  }

  predicate TraceWellFormed(t: TracePart) {
    t.trace.orchestrationTrace.Some? ==> OrchestrationWellFormed(t.trace.orchestrationTrace.value)
  }

  predicate EventWellFormed(e: RawEvent) {
    e.trace.Some? ==> TraceWellFormed(e.trace.value)
  }

  predicate StreamWellFormed(events: seq<RawEvent>) {
    forall i :: 0 <= i < |events| ==> EventWellFormed(events[i])
  }
}
