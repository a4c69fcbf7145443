/** What consuming a `completion` stream produces, stated as a function of
    the events: for each event its trace units first, then, for a chunk,
    the decoded answer (shown, and recorded for the transcript). A chunk
    whose bytes do not decode raises, which ends the consumption. */
module Consumer {

  import opened Wrappers
  import Json
  import opened Events
  import opened Render

  /** The `role` of a conversation entry: the strings "human" and "assistant". */
  datatype Role = Human | Assistant

  /** One entry of the conversation list `st.session_state.messages`. */
  datatype Message = Message(role: Role, text: string)

  /** The effect of the events consumed so far: the units shown, the
      entries appended to the conversation, and whether a decoding error
      stopped it. */
  datatype Consumption = Consumption(units: seq<RenderUnit>, entries: seq<Message>, decodeFailed: bool)

  const Nothing := Consumption([], [], false)

  /** The answer text written into the assistant's chat bubble. */
  function AnswerUnit(text: string): RenderUnit {
    RenderUnit(Answer, "", WriteText(text), true)
  }

  /** Consuming more after `c`: nothing more happens once decoding failed. */
  function Then(c: Consumption, d: Consumption): Consumption {
    if c.decodeFailed then c
    else Consumption(c.units + d.units, c.entries + d.entries, d.decodeFailed)
  }

  /** The units `handle_trace_event` shows for an event with a trace. The
      client raises KeyError on a trace lacking a key it indexes; such
      events are excluded by the callers' preconditions, and here they
      simply show nothing, which keeps consumption a total function. */
  function TraceUnits(e: RawEvent, parse: string -> Json.ParseResult): seq<RenderUnit> {
    if e.trace.Some? && TraceWellFormed(e.trace.value) then HandleTraceEvent(e, parse) else []
  }

  /** One event: the trace is handled before the chunk. */
  function Step(e: RawEvent, decode: seq<byte> -> Option<string>, parse: string -> Json.ParseResult): Consumption {
    var traced := TraceUnits(e, parse);
    match e.chunk
    case None => Consumption(traced, [], false)
    case Some(ch) =>
      match decode(ch.bytes)
      case None => Consumption(traced, [], true)
      case Some(answer) => Consumption(traced + [AnswerUnit(answer)], [Message(Assistant, answer)], false)
  }

  /** The events consumed in order, the last one after all the others. */
  function Consume(events: seq<RawEvent>, decode: seq<byte> -> Option<string>,
                   parse: string -> Json.ParseResult): Consumption
    decreases |events|
  {
    if events == [] then Nothing
    else
      var n := |events| - 1;
      Then(Consume(events[..n], decode, parse), Step(events[n], decode, parse))
  }

  // ---------------------------------------------------------------------
  // Reference definitions
  // ---------------------------------------------------------------------

  /** The bytes of the chunk-bearing events, in stream order. */
  function ChunkBytes(events: seq<RawEvent>): seq<seq<byte>> {
    if events == [] then []
    else
      var rest := ChunkBytes(events[1..]);
      if events[0].chunk.Some? then [events[0].chunk.value.bytes] + rest else rest
  }

  /** The assistant entries that the answer units among `units` show, in
      order. */
  function AnswerEntries(units: seq<RenderUnit>): seq<Message> {
    if units == [] then []
    else
      var rest := AnswerEntries(units[1..]);
      if units[0].kind == Answer && units[0].body.WriteText?
      then [Message(Assistant, units[0].body.text)] + rest else rest
  }

  // ---------------------------------------------------------------------
  // Properties
  // ---------------------------------------------------------------------

  lemma ThenAssociative(a: Consumption, b: Consumption, c: Consumption)
    ensures Then(Then(a, b), c) == Then(a, Then(b, c))
  {
  }

  /** Consuming a stream in two pieces is consuming the first piece and
      then the second; in particular a decoding error is final. */
  lemma {:induction false} ConsumeAppend(a: seq<RawEvent>, b: seq<RawEvent>,
                                         decode: seq<byte> -> Option<string>,
                                         parse: string -> Json.ParseResult)
    ensures Consume(a + b, decode, parse) == Then(Consume(a, decode, parse), Consume(b, decode, parse))
    decreases |b|
  {
    var c := Consume(a, decode, parse);
    if b == [] {
      assert a + b == a;
      assert c.units + [] == c.units && c.entries + [] == c.entries;
    } else {
      var n := |b| - 1;
      assert (a + b)[..|a| + n] == a + b[..n];
      assert (a + b)[|a| + n] == b[n];
      ConsumeAppend(a, b[..n], decode, parse);
      ThenAssociative(c, Consume(b[..n], decode, parse), Step(b[n], decode, parse));
    }
  }

  lemma {:induction false} ChunkBytesAppend(a: seq<RawEvent>, b: seq<RawEvent>)
    ensures ChunkBytes(a + b) == ChunkBytes(a) + ChunkBytes(b)
    decreases |a|
  {
    if a != [] {
      assert (a + b)[1..] == a[1..] + b;
      ChunkBytesAppend(a[1..], b);
    } else {
      assert a + b == b;
    }
  }

  /** Every chunk decodes. */
  predicate AllDecode(events: seq<RawEvent>, decode: seq<byte> -> Option<string>) {
    forall k :: 0 <= k < |ChunkBytes(events)| ==> decode(ChunkBytes(events)[k]).Some?
  }

  /** When every chunk decodes, consumption appends exactly one assistant
      entry per chunk-bearing event, in stream order, holding the decoding
      of its bytes. Trace-only events and events with neither key append
      nothing. */
  lemma {:induction false} AnswersAreDecodedChunks(events: seq<RawEvent>,
                                                   decode: seq<byte> -> Option<string>,
                                                   parse: string -> Json.ParseResult)
    requires AllDecode(events, decode)
    ensures var c := Consume(events, decode, parse);
      && !c.decodeFailed
      && |c.entries| == |ChunkBytes(events)|
      && forall k :: 0 <= k < |c.entries| ==>
           c.entries[k].role == Assistant && decode(ChunkBytes(events)[k]) == Some(c.entries[k].text)
    decreases |events|
  {
    if events != [] {
      var n := |events| - 1;
      var front, last := events[..n], events[n];
      assert events == front + [last];
      ChunkBytesAppend(front, [last]);
      assert ChunkBytes([last]) == if last.chunk.Some? then [last.chunk.value.bytes] else [];
      assert AllDecode(front, decode) by {
        forall k | 0 <= k < |ChunkBytes(front)| ensures decode(ChunkBytes(front)[k]).Some? {
          assert ChunkBytes(events)[k] == ChunkBytes(front)[k];
        }
      }
      AnswersAreDecodedChunks(front, decode, parse);
      if last.chunk.Some? {
        assert ChunkBytes(events)[|ChunkBytes(front)|] == last.chunk.value.bytes;
      }
    }
  }

  /** A stream without chunks appends nothing and cannot fail. */
  lemma TraceOnlyStreamRecordsNothing(events: seq<RawEvent>,
                                      decode: seq<byte> -> Option<string>,
                                      parse: string -> Json.ParseResult)
    requires forall i :: 0 <= i < |events| ==> events[i].chunk.None?
    ensures Consume(events, decode, parse).entries == []
    ensures !Consume(events, decode, parse).decodeFailed
  {
    NoChunksNoBytes(events);
    AnswersAreDecodedChunks(events, decode, parse);
  }

  lemma {:induction false} NoChunksNoBytes(events: seq<RawEvent>)
    requires forall i :: 0 <= i < |events| ==> events[i].chunk.None?
    ensures ChunkBytes(events) == []
    decreases |events|
  {
    if events != [] {
      assert forall i :: 0 <= i < |events[1..]| ==> events[1..][i] == events[i + 1];
      NoChunksNoBytes(events[1..]);
    }
  }

  lemma {:induction false} AnswerEntriesAppend(a: seq<RenderUnit>, b: seq<RenderUnit>)
    ensures AnswerEntries(a + b) == AnswerEntries(a) + AnswerEntries(b)
    decreases |a|
  {
    if a == [] {
      assert a + b == b;
    } else {
      assert (a + b)[1..] == a[1..] + b;
      AnswerEntriesAppend(a[1..], b);
    }
  }

  lemma {:induction false} NoAnswerInTrace(units: seq<RenderUnit>)
    requires forall i :: 0 <= i < |units| ==> Stage(units[i].kind) < 5
    ensures AnswerEntries(units) == []
    decreases |units|
  {
    if units != [] {
      assert forall i :: 0 <= i < |units[1..]| ==> units[1..][i] == units[i + 1];
      NoAnswerInTrace(units[1..]);
    }
  }

  /** One event shows as answers exactly the entries it appends. */
  lemma StepShowsItsEntries(e: RawEvent, decode: seq<byte> -> Option<string>,
                            parse: string -> Json.ParseResult)
    ensures var s := Step(e, decode, parse); AnswerEntries(s.units) == s.entries
  {
    var traced := TraceUnits(e, parse);
    if e.trace.Some? && TraceWellFormed(e.trace.value) {
      TraceEventOrdered(e, parse);
    }
    NoAnswerInTrace(traced);
    if e.chunk.Some? && decode(e.chunk.value.bytes).Some? {
      AnswerEntriesAppend(traced, [AnswerUnit(decode(e.chunk.value.bytes).value)]);
    }
  }

  /** The answers shown are exactly the entries appended, in the same
      order: trace units never look like answers. */
  lemma {:induction false} ShownAnswersAreRecorded(events: seq<RawEvent>,
                                                   decode: seq<byte> -> Option<string>,
                                                   parse: string -> Json.ParseResult)
    ensures var c := Consume(events, decode, parse); AnswerEntries(c.units) == c.entries
    decreases |events|
  {
    if events != [] {
      var n := |events| - 1;
      ShownAnswersAreRecorded(events[..n], decode, parse);
      StepShowsItsEntries(events[n], decode, parse);
      AnswerEntriesAppend(Consume(events[..n], decode, parse).units, Step(events[n], decode, parse).units);
    }
  }
}
