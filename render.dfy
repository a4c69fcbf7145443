/** `handle_trace_event` and `display_observation_details` as pure functions.
    Each Streamlit expander the client opens becomes one `RenderUnit`: what
    kind of step it shows, its title, what is written inside it and whether
    it starts expanded. The answer text written for a chunk is a unit too. */
module Render {

  import opened Wrappers
  import Json
  import opened Events
  import opened Text

  datatype UnitKind =
    | ModelInputStep        // "thinking"
    | ModelOutputStep       // "thought complete"
    | RationaleStep         // "next action decided"
    | CollaboratorCall      // invocation of a sub-agent
    | KnowledgeBaseLookup   // invocation of a knowledge-base search
    | ActionGroupCall       // invocation of an action group (a Lambda)
    | KnowledgeBaseResult   // observation: search results
    | CollaboratorResult    // observation: a sub-agent's reply
    | Answer                // a chunk of the final answer (not an expander)

  /** The informational messages shown with `st.info`. */
  datatype Notice = NoMatchingDocuments | NoCollaboratorText

  /** What is written inside a unit, by the Streamlit call that writes it. */
  datatype Body =
    | JsonView(value: Json.Value)   // st.json
    | WriteText(text: string)       // st.write of a string
    | WriteValue(value: Json.Value) // st.write of a decoded value
    | Markdown(text: string)        // st.markdown
    | Info(notice: Notice)          // st.info

  datatype RenderUnit = RenderUnit(kind: UnitKind, title: string, body: Body, expanded: bool)

  /** The position of a kind in the fixed order in which the orchestration
      sub-fields are examined; the answer comes after all of them. */
  function Stage(k: UnitKind): nat {
    match k
    case ModelInputStep => 0
    case ModelOutputStep => 1
    case RationaleStep => 2
    case CollaboratorCall | KnowledgeBaseLookup | ActionGroupCall => 3
    case KnowledgeBaseResult | CollaboratorResult => 4
    case Answer => 5
  }

  const ThinkingTitle := "🤔 思考中…"
  const ThoughtTitle := "💡 思考がまとまりました"
  const DecidedTitle := "✅ 次のアクションを決定しました"
  const SearchingTitle := "📖 ナレッジベースを検索中…"
  const LambdaTitle := "💻 Lambdaを実行中…"
  const RetrievedTitle := "🔍 ナレッジベースから検索結果を取得しました"
  /** The name shown for a replying sub-agent that did not give one. */
  const UnknownAgent := "不明なエージェント"

  function CallingTitle(name: string): string {
    "🤖 サブエージェント「" + name + "」を呼び出し中…"
  }

  function AnsweredTitle(name: string): string {
    "🤖 サブエージェント「" + name + "」から回答を取得しました"
  }

  /** Both sub-agent titles show the agent's name, right after the same
      eleven-character prefix. */
  lemma NameInTitles(name: string)
    ensures OccursAt(name, CallingTitle(name), 11)
    ensures OccursAt(name, AnsweredTitle(name), 11)
  {
    var prefix := "🤖 サブエージェント「";
    assert |prefix| == 11;
    assert CallingTitle(name) == prefix + (name + "」を呼び出し中…");
    assert AnsweredTitle(name) == prefix + (name + "」から回答を取得しました");
  }

  // ---------------------------------------------------------------------
  // The five extractors, one per orchestration sub-field
  // ---------------------------------------------------------------------

  /** "Thinking": the model's input, shown as structured data when it
      parses as JSON and as the raw text otherwise. */
  function ModelInputUnit(text: string, parse: string -> Json.ParseResult): (u: RenderUnit)
    ensures u.kind == ModelInputStep && u.title == ThinkingTitle && !u.expanded
    ensures parse(text).Parsed? ==> u.body == JsonView(parse(text).value)
    ensures parse(text).ParseFail? ==> u.body == WriteText(text)
  {
    var body := match parse(text)
      case Parsed(v) => JsonView(v)
      case ParseFail => WriteText(text);
    RenderUnit(ModelInputStep, ThinkingTitle, body, false)
  }

  /** `reply["content"][0]`, when both subscripts succeed. */
  function FirstContent(reply: Json.Value): Option<Json.Value> {
    match Json.Lookup(reply, "content")
    case None => None
    case Some(c) => Json.IndexZero(c)
  }

  /** What the "thought complete" unit writes for the model's raw reply:
      the text of the reply's first content element when it is truthy, the
      element itself when its text is falsy, and the raw reply string when
      the reply does not parse or any of the three subscripts fails. */
  function ModelOutputBody(content: string, parse: string -> Json.ParseResult): (b: Body)
    ensures b.WriteText? || b.WriteValue?
    ensures b.WriteText? ==> b.text == content
    ensures b.WriteText? <==>
      (|| parse(content).ParseFail?
       || FirstContent(parse(content).value).None?
       || Json.Lookup(FirstContent(parse(content).value).value, "text").None?)
    ensures b.WriteValue? ==>
      var first := FirstContent(parse(content).value).value;
      var thinking := Json.Lookup(first, "text").value;
      if Json.Truthy(thinking) then b.value == thinking else b.value == first
  {
    match parse(content)
    case ParseFail => WriteText(content)
    case Parsed(reply) =>
      match FirstContent(reply)
      case None => WriteText(content)
      case Some(first) =>
        match Json.Lookup(first, "text")
        case None => WriteText(content)
        case Some(thinking) =>
          if Json.Truthy(thinking) then WriteValue(thinking) else WriteValue(first)
  }

  function ModelOutputUnit(content: string, parse: string -> Json.ParseResult): (u: RenderUnit)
    ensures u.kind == ModelOutputStep && u.title == ThoughtTitle && !u.expanded
    ensures u.body == ModelOutputBody(content, parse)
  {
    RenderUnit(ModelOutputStep, ThoughtTitle, ModelOutputBody(content, parse), false)
  }

  /** "Next action decided": the rationale text verbatim, expanded. */
  function RationaleUnit(text: string): (u: RenderUnit)
    ensures u.kind == RationaleStep && u.title == DecidedTitle && u.expanded
    ensures u.body == WriteText(text)
  {
    RenderUnit(RationaleStep, DecidedTitle, WriteText(text), true)
  }

  /** A tool invocation, by its `invocationType`; only a sub-agent call
      starts expanded, and an unknown type shows nothing. */
  function InvocationUnit(i: InvocationInput): (r: Option<RenderUnit>)
    requires InvocationWellFormed(i)
    ensures r.Some? <==> i.invocationType in {AgentCollaborator, KnowledgeBase, ActionGroup}
    ensures r.Some? ==> (r.value.expanded <==> i.invocationType == AgentCollaborator)
    ensures i.invocationType == AgentCollaborator ==>
      var call := i.agentCollaboratorInvocationInput.value;
      && r.value.kind == CollaboratorCall
      && r.value.title == CallingTitle(call.agentCollaboratorName.value)
      && r.value.body == WriteText(call.input.value.text)
    ensures i.invocationType == KnowledgeBase ==>
      && r.value.kind == KnowledgeBaseLookup
      && r.value.title == SearchingTitle
      && r.value.body == WriteText(i.knowledgeBaseLookupInput.value.text)
    ensures i.invocationType == ActionGroup ==>
      && r.value.kind == ActionGroupCall
      && r.value.title == LambdaTitle
      && r.value.body == WriteValue(i.actionGroupInvocationInput.value)
  {
    var t := i.invocationType;
    if t == AgentCollaborator then
      var call := i.agentCollaboratorInvocationInput.value;
      Some(RenderUnit(CollaboratorCall, CallingTitle(call.agentCollaboratorName.value),
                      WriteText(call.input.value.text), true))
    else if t == KnowledgeBase then
      Some(RenderUnit(KnowledgeBaseLookup, SearchingTitle,
                      WriteText(i.knowledgeBaseLookupInput.value.text), false))
    else if t == ActionGroup then
      Some(RenderUnit(ActionGroupCall, LambdaTitle,
                      WriteValue(i.actionGroupInvocationInput.value), false))
    else
      None
  }

  /** `observation.get("knowledgeBaseLookupOutput", {}).get("retrievedReferences", [])`. */
  function References(o: Observation): Json.Value {
    match o.knowledgeBaseLookupOutput
    case None => Json.Arr([])
    case Some(out) => out.retrievedReferences.GetOr(Json.Arr([]))
  }

  /** The replying sub-agent's record, `{}` when absent. */
  function CollaboratorReply(o: Observation): CollaboratorOutput {
    o.agentCollaboratorInvocationOutput.GetOr(CollaboratorOutput(None, None))
  }

  /** `ac_output.get("output", {}).get("text")`. */
  function ReplyText(out: CollaboratorOutput): Option<string> {
    match out.output
    case None => None
    case Some(f) => f.text
  }

  /** `display_observation_details`: an observation by its `type`. Search
      results start collapsed and fall back to a "no documents" notice when
      the references are missing or empty; a sub-agent's reply starts
      expanded, names the agent (or a placeholder) and falls back to a
      "no text" notice when its text is missing or empty. Any other type,
      or none, shows nothing. */
  function ObservationUnit(o: Observation): (r: Option<RenderUnit>)
    ensures r.Some? <==> o.observationType in {Some(KnowledgeBase), Some(AgentCollaborator)}
    ensures r.Some? ==> (r.value.expanded <==> o.observationType == Some(AgentCollaborator))
    ensures o.observationType == Some(KnowledgeBase) ==>
      && r.value.kind == KnowledgeBaseResult
      && r.value.title == RetrievedTitle
      && (Json.Truthy(References(o)) ==> r.value.body == JsonView(References(o)))
      && (!Json.Truthy(References(o)) ==> r.value.body == Info(NoMatchingDocuments))
    ensures o.observationType == Some(AgentCollaborator) ==>
      var out := CollaboratorReply(o);
      && r.value.kind == CollaboratorResult
      && r.value.title == AnsweredTitle(out.agentCollaboratorName.GetOr(UnknownAgent))
      && (ReplyText(out).Some? && ReplyText(out).value != "" ==>
            r.value.body == Markdown(ReplyText(out).value))
      && (ReplyText(out).None? || ReplyText(out).value == "" ==>
            r.value.body == Info(NoCollaboratorText))
  {
    if o.observationType == Some(KnowledgeBase) then
      var refs := References(o);
      Some(RenderUnit(KnowledgeBaseResult, RetrievedTitle,
                      if Json.Truthy(refs) then JsonView(refs) else Info(NoMatchingDocuments), false))
    else if o.observationType == Some(AgentCollaborator) then
      var out := CollaboratorReply(o);
      var name := out.agentCollaboratorName.GetOr(UnknownAgent);
      var body := match ReplyText(out)
        case Some(t) => if t != "" then Markdown(t) else Info(NoCollaboratorText)
        case None => Info(NoCollaboratorText);
      Some(RenderUnit(CollaboratorResult, AnsweredTitle(name), body, true))
    else
      None
  }

  // ---------------------------------------------------------------------
  // handle_trace_event
  // ---------------------------------------------------------------------

  function AsSeq(u: Option<RenderUnit>): seq<RenderUnit> {
    match u
    case None => []
    case Some(x) => [x]
  }

  function ModelInputPart(o: Orchestration, parse: string -> Json.ParseResult): seq<RenderUnit>
    requires OrchestrationWellFormed(o)
  {
    match o.modelInvocationInput
    case None => []
    case Some(f) => [ModelInputUnit(f.text, parse)]
  }

  function ModelOutputPart(o: Orchestration, parse: string -> Json.ParseResult): seq<RenderUnit>
    requires OrchestrationWellFormed(o)
  {
    match o.modelInvocationOutput
    case None => []
    case Some(m) => [ModelOutputUnit(m.rawResponse.content, parse)]
  }

  function RationalePart(o: Orchestration): seq<RenderUnit>
    requires OrchestrationWellFormed(o)
  {
    match o.rationale
    case None => []
    case Some(f) => [RationaleUnit(f.text)]
  }

  function InvocationPart(o: Orchestration): seq<RenderUnit>
    requires OrchestrationWellFormed(o)
  {
    match o.invocationInput
    case None => []
    case Some(i) => AsSeq(InvocationUnit(i))
  }

  function ObservationPart(o: Orchestration): seq<RenderUnit> {
    match o.observation
    case None => []
    case Some(obs) => AsSeq(ObservationUnit(obs))
  }

  /** The units of an orchestration trace: each sub-field examined on its
      own, in the fixed order, and the results concatenated. */
  function OrchestrationUnits(o: Orchestration, parse: string -> Json.ParseResult): seq<RenderUnit>
    requires OrchestrationWellFormed(o)
  {
    ModelInputPart(o, parse) + ModelOutputPart(o, parse) + RationalePart(o)
      + InvocationPart(o) + ObservationPart(o)
  }

  /** The stages of `r` strictly increase and stay below `bound`, so `r`
      has at most `bound` units. */
  predicate Ordered(r: seq<RenderUnit>, bound: nat) {
    && |r| <= bound
    && (forall i, j :: 0 <= i < j < |r| ==> Stage(r[i].kind) < Stage(r[j].kind))
    && (forall i :: 0 <= i < |r| ==> Stage(r[i].kind) < bound)
  }

  /** At most one unit, of the given stage. */
  predicate AtStage(part: seq<RenderUnit>, stage: nat) {
    |part| <= 1 && forall i :: 0 <= i < |part| ==> Stage(part[i].kind) == stage
  }

  lemma OrderedSnoc(a: seq<RenderUnit>, part: seq<RenderUnit>, stage: nat)
    requires Ordered(a, stage) && AtStage(part, stage)
    ensures Ordered(a + part, stage + 1)
  {
    if part != [] {
      assert (a + part)[|a|] == part[0];
      assert forall i :: 0 <= i < |a| ==> (a + part)[i] == a[i];
    } else {
      assert a + part == a;
    }
  }

  lemma PartsAtStages(o: Orchestration, parse: string -> Json.ParseResult)
    requires OrchestrationWellFormed(o)
    ensures AtStage(ModelInputPart(o, parse), 0)
    ensures AtStage(ModelOutputPart(o, parse), 1)
    ensures AtStage(RationalePart(o), 2)
    ensures AtStage(InvocationPart(o), 3)
    ensures AtStage(ObservationPart(o), 4)
  {
  }

  lemma OrchestrationOrdered(o: Orchestration, parse: string -> Json.ParseResult)
    requires OrchestrationWellFormed(o)
    ensures Ordered(OrchestrationUnits(o, parse), 5)
  {
    PartsAtStages(o, parse);
    var r0 := ModelInputPart(o, parse);
    OrderedSnoc([], r0, 0);
    assert [] + r0 == r0;
    var r1 := r0 + ModelOutputPart(o, parse);
    OrderedSnoc(r0, ModelOutputPart(o, parse), 1);
    var r2 := r1 + RationalePart(o);
    OrderedSnoc(r1, RationalePart(o), 2);
    var r3 := r2 + InvocationPart(o);
    OrderedSnoc(r2, InvocationPart(o), 3);
    OrderedSnoc(r3, ObservationPart(o), 4);
  }

  /** `handle_trace_event`: a trace without an orchestration part shows
      nothing; otherwise each of the five sub-fields is examined in turn.
      The order of the units is stated by `TraceEventOrdered`, and which
      units appear by `TraceUnitsMatchSubFields`. */
  function HandleTraceEvent(event: RawEvent, parse: string -> Json.ParseResult): (r: seq<RenderUnit>)
    requires event.trace.Some? && TraceWellFormed(event.trace.value)
    ensures event.trace.value.trace.orchestrationTrace.None? ==> r == []
  {
    match event.trace.value.trace.orchestrationTrace
    case None => []
    case Some(o) => OrchestrationUnits(o, parse)
  }

  /** The units of a trace event come in the fixed order of the sub-fields,
      each stage at most once, and none of them is an answer. */
  lemma TraceEventOrdered(event: RawEvent, parse: string -> Json.ParseResult)
    requires event.trace.Some? && TraceWellFormed(event.trace.value)
    ensures var r := HandleTraceEvent(event, parse);
      && |r| <= 5
      && (forall i, j :: 0 <= i < j < |r| ==> Stage(r[i].kind) < Stage(r[j].kind))
      && (forall i :: 0 <= i < |r| ==> Stage(r[i].kind) < 5)
  {
    if event.trace.value.trace.orchestrationTrace.Some? {
      OrchestrationOrdered(event.trace.value.trace.orchestrationTrace.value, parse);
    }
  }

  /** Whether the sub-field at a stage is present and of a type that is
      rendered: the reference against which `HandleTraceEvent` is checked. */
  predicate Renders(o: Orchestration, stage: nat)
    requires OrchestrationWellFormed(o)
  {
    match stage
    case 0 => o.modelInvocationInput.Some?
    case 1 => o.modelInvocationOutput.Some?
    case 2 => o.rationale.Some?
    case 3 => o.invocationInput.Some? &&
              o.invocationInput.value.invocationType in {AgentCollaborator, KnowledgeBase, ActionGroup}
    case 4 => o.observation.Some? &&
              o.observation.value.observationType in {Some(KnowledgeBase), Some(AgentCollaborator)}
    case _ => false
  }

  function RenderedCount(o: Orchestration): nat
    requires OrchestrationWellFormed(o)
  {
    (if Renders(o, 0) then 1 else 0) + (if Renders(o, 1) then 1 else 0)
      + (if Renders(o, 2) then 1 else 0) + (if Renders(o, 3) then 1 else 0)
      + (if Renders(o, 4) then 1 else 0)
  }

  /** Some unit of `r` belongs to `stage`. */
  predicate HasStage(r: seq<RenderUnit>, stage: nat) {
    exists i :: 0 <= i < |r| && Stage(r[i].kind) == stage
  }

  lemma HasStageConcat(a: seq<RenderUnit>, b: seq<RenderUnit>, stage: nat)
    ensures HasStage(a + b, stage) <==> HasStage(a, stage) || HasStage(b, stage)
  {
    if HasStage(a + b, stage) {
      var i :| 0 <= i < |a + b| && Stage((a + b)[i].kind) == stage;
      if i >= |a| { assert b[i - |a|] == (a + b)[i]; }
    }
    if HasStage(a, stage) {
      var i :| 0 <= i < |a| && Stage(a[i].kind) == stage;
      assert (a + b)[i] == a[i];
    }
    if HasStage(b, stage) {
      var i :| 0 <= i < |b| && Stage(b[i].kind) == stage;
      assert (a + b)[|a| + i] == b[i];
    }
  }

  /** A stage has a unit exactly when its sub-field is present and of a
      rendered type; so the number of units is the number of such
      sub-fields, and absent or unknown ones contribute nothing. */
  lemma TraceUnitsMatchSubFields(event: RawEvent, parse: string -> Json.ParseResult)
    requires event.trace.Some? && TraceWellFormed(event.trace.value)
    requires event.trace.value.trace.orchestrationTrace.Some?
    ensures var o := event.trace.value.trace.orchestrationTrace.value;
      var r := HandleTraceEvent(event, parse);
      && |r| == RenderedCount(o)
      && forall stage :: 0 <= stage < 5 ==> (HasStage(r, stage) <==> Renders(o, stage))
  {
    var o := event.trace.value.trace.orchestrationTrace.value;
    var p0, p1, p2 := ModelInputPart(o, parse), ModelOutputPart(o, parse), RationalePart(o);
    var p3, p4 := InvocationPart(o), ObservationPart(o);
    var parts: seq<seq<RenderUnit>> := [p0, p1, p2, p3, p4];
    forall k | 0 <= k < 5
      ensures |parts[k]| == (if Renders(o, k) then 1 else 0)
      ensures forall u: RenderUnit :: u in parts[k] ==> Stage(u.kind) == k
    {
    }
    forall stage | 0 <= stage < 5
      ensures HasStage(HandleTraceEvent(event, parse), stage) <==> Renders(o, stage)
    {
      HasStageConcat(p0, p1, stage);
      HasStageConcat(p0 + p1, p2, stage);
      HasStageConcat(p0 + p1 + p2, p3, stage);
      HasStageConcat(p0 + p1 + p2 + p3, p4, stage);
      forall k | 0 <= k < 5 ensures HasStage(parts[k], stage) <==> (k == stage && Renders(o, k)) {
        if HasStage(parts[k], stage) {
          var i :| 0 <= i < |parts[k]| && Stage(parts[k][i].kind) == stage;
          assert parts[k][i] in parts[k];
        }
        if k == stage && Renders(o, k) {
          assert parts[k][0] in parts[k];
        }
      }
      assert HasStage(p0, stage) == HasStage(parts[0], stage);
      assert HasStage(p1, stage) == HasStage(parts[1], stage);
      assert HasStage(p2, stage) == HasStage(parts[2], stage);
      assert HasStage(p3, stage) == HasStage(parts[3], stage);
      assert HasStage(p4, stage) == HasStage(parts[4], stage);
    }
  }
}
