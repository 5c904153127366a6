/** The body of the task that `send_message_stream` spawns: after the
    request, it appends each readable chunk of the response to a buffer,
    takes complete frames off the front of it, decodes each frame's payload
    and turns the decoded event into at most one event for the consumer,
    collecting the fragments of a code-execution tool's input on the way.

    JSON decoding and UTF-8 validation are not re-implemented: they are the
    functions of a `Decoders` value, and everything proved below holds for
    every choice of them. */
module StreamTask {
  import opened Prelude
  import opened Anthropic
  import opened Framing

  /** The library decoders the task relies on. */
  datatype Decoders = Decoders(
    utf8: seq<Byte> -> Option<string>,         // std::str::from_utf8
    event: string -> Option<StreamEventData>,  // serde_json::from_str::<StreamEventData>
    code: string -> Option<string>)            // parse as a JSON value, then its "code" string

  /** One read of the response body stream. */
  datatype ReadResult = Chunk(bytes: seq<Byte>) | ReadError | EndOfStream

  // ---------------------------------------------------------------------------
  // Dispatch of one decoded event

  /** `collecting_code` and `current_code_input`. */
  datatype Collector = Collector(collecting: bool, input: string)

  const IDLE: Collector := Collector(false, "")

  /** The accumulator is empty whenever no tool input is being collected. */
  predicate Consistent(c: Collector) {
    !c.collecting ==> c.input == ""
  }

  /** A block start announcing the code-execution tool. */
  predicate IsCodeToolStart(ev: StreamEventData) {
    ev.ContentBlockStart? && ev.contentBlock.ServerToolUse? && ev.contentBlock.name == CODE_TOOL_NAME
  }

  predicate IsJsonDelta(ev: StreamEventData) {
    ev.ContentBlockDelta? && ev.delta.InputJsonDelta?
  }

  predicate IsTextDelta(ev: StreamEventData) {
    ev.ContentBlockDelta? && ev.delta.TextDelta?
  }

  /** What one decoded event does to the collector, and the event (if any)
      it sends. */
  function Dispatch(c: Collector, ev: StreamEventData, code: string -> Option<string>)
    : (r: (Collector, Option<StreamEvent>))
    ensures Consistent(c) ==> Consistent(r.0)
    ensures (r.1.Some? && r.1.value.Text?) <==> IsTextDelta(ev)
    ensures IsTextDelta(ev) ==> r == (c, Some(Text(ev.delta.text)))
    ensures r.1.Some? && r.1.value.CodeInput? ==>
              ev.ContentBlockStop? && c.collecting && c.input != "" && code(c.input) == Some(r.1.value.code)
    ensures IsCodeToolStart(ev) ==> r == (Collector(true, ""), None)
    ensures IsJsonDelta(ev) ==>
              r == (if c.collecting then Collector(true, c.input + ev.delta.partialJson) else c, None)
    ensures ev.ContentBlockStop? ==>
              if c.collecting && c.input != "" then r.0 == IDLE && (r.1.Some? <==> code(c.input).Some?)
              else r == (c, None)
    ensures !IsCodeToolStart(ev) && !IsJsonDelta(ev) && !ev.ContentBlockStop? ==> r.0 == c
    ensures ev.ContentBlockStart? && ev.contentBlock.CodeExecutionToolResult? ==>
              r == (c, Some(InterpretResult(ev.contentBlock.result)))
    ensures ev.MessageStart? ==>
              r == (c, if ev.message.container.Some?
                       then Some(ContainerInfo(ev.message.container.value.id, ev.message.container.value.expiresAt))
                       else None)
    ensures ev.MessageDelta? || ev.MessageStop? ==> r == (c, None)
    ensures ev.ContentBlockStart? && ev.contentBlock.TextBlock? ==> r == (c, None)
    ensures ev.ContentBlockStart? && ev.contentBlock.ServerToolUse? && !IsCodeToolStart(ev) ==> r == (c, None)
  {
    match ev
    case MessageStart(message) =>
      (c, match message.container
          case Some(container) => Some(ContainerInfo(container.id, container.expiresAt))
          case None => None)
    case ContentBlockStart(block) =>
      (match block
       case ServerToolUse(_, name) =>
         (if name == CODE_TOOL_NAME then Collector(true, "") else c, None)
       case CodeExecutionToolResult(_, result) => (c, Some(InterpretResult(result)))
       case TextBlock(_) => (c, None))
    case ContentBlockDelta(delta) =>
      (match delta
       case TextDelta(text) => (c, Some(Text(text)))
       case InputJsonDelta(partial) =>
         (if c.collecting then Collector(true, c.input + partial) else c, None))
    case ContentBlockStop =>
      if c.collecting && c.input != "" then
        (IDLE, match code(c.input)
               case Some(s) => Some(CodeInput(s))
               case None => None)
      else (c, None)
    case MessageDelta => (c, None)
    case MessageStop => (c, None)
  }

  function OptionToSeq<T>(o: Option<T>): (r: seq<T>)
    ensures o.Some? ==> r == [o.value]
    ensures o.None? ==> r == []
  {
    match o
    case Some(v) => [v]
    case None => []
  }

  /** The events of a sequence of decoded events, dispatched in order. */
  function DispatchAll(c: Collector, evs: seq<StreamEventData>, code: string -> Option<string>)
    : (r: (Collector, seq<StreamEvent>))
    decreases |evs|
  {
    if evs == [] then (c, [])
    else
      var first := Dispatch(c, evs[0], code);
      var rest := DispatchAll(first.0, evs[1..], code);
      (rest.0, OptionToSeq(first.1) + rest.1)
  }

  lemma {:induction false} DispatchAllAppend(c: Collector, a: seq<StreamEventData>, b: seq<StreamEventData>,
                                             code: string -> Option<string>)
    ensures var ra := DispatchAll(c, a, code);
            var rb := DispatchAll(ra.0, b, code);
            DispatchAll(c, a + b, code) == (rb.0, ra.1 + rb.1)
    decreases |a|
  {
    if a == [] {
      assert a + b == b;
      assert DispatchAll(c, a, code) == (c, []);
      assert [] + DispatchAll(c, b, code).1 == DispatchAll(c, b, code).1;
    } else {
      var first := Dispatch(c, a[0], code);
      assert (a + b)[0] == a[0] && (a + b)[1..] == a[1..] + b;
      DispatchAllAppend(first.0, a[1..], b, code);
      var ra := DispatchAll(first.0, a[1..], code);
      var rb := DispatchAll(ra.0, b, code);
      assert OptionToSeq(first.1) + (ra.1 + rb.1) == (OptionToSeq(first.1) + ra.1) + rb.1;
    }
  }

  /** The text a stream of events shows: its Text payloads, concatenated. */
  function Texts(out: seq<StreamEvent>): string {
    if out == [] then ""
    else (if out[0].Text? then out[0].text else "") + Texts(out[1..])
  }

  /** The texts of the text deltas among decoded events, concatenated. */
  function DeltaTexts(evs: seq<StreamEventData>): string {
    if evs == [] then ""
    else (if IsTextDelta(evs[0]) then evs[0].delta.text else "") + DeltaTexts(evs[1..])
  }

  lemma TextsAppend(a: seq<StreamEvent>, b: seq<StreamEvent>)
    ensures Texts(a + b) == Texts(a) + Texts(b)
  {
    if a == [] {
      assert a + b == b;
    } else {
      assert (a + b)[1..] == a[1..] + b;
    }
  }

  /** Every text delta reaches the consumer as a Text with the same text,
      in order, and nothing else adds text. */
  lemma {:induction false} TextsPreserved(c: Collector, evs: seq<StreamEventData>, code: string -> Option<string>)
    ensures Texts(DispatchAll(c, evs, code).1) == DeltaTexts(evs)
    decreases |evs|
  {
    if evs != [] {
      var first := Dispatch(c, evs[0], code);
      TextsPreserved(first.0, evs[1..], code);
      TextsAppend(OptionToSeq(first.1), DispatchAll(first.0, evs[1..], code).1);
    }
  }

  /** The partial JSON fragments among decoded events, concatenated. */
  function JsonFragments(evs: seq<StreamEventData>): string {
    if evs == [] then ""
    else (if IsJsonDelta(evs[0]) then evs[0].delta.partialJson else "") + JsonFragments(evs[1..])
  }

  /** The code strings of the CodeInput events. */
  function CodeInputs(out: seq<StreamEvent>): seq<string> {
    if out == [] then []
    else (if out[0].CodeInput? then [out[0].code] else []) + CodeInputs(out[1..])
  }

  lemma CodeInputsAppend(a: seq<StreamEvent>, b: seq<StreamEvent>)
    ensures CodeInputs(a + b) == CodeInputs(a) + CodeInputs(b)
  {
    if a == [] {
      assert a + b == b;
    } else {
      assert (a + b)[1..] == a[1..] + b;
    }
  }

  /** Events inside a tool block: neither a new code-tool start nor a stop. */
  predicate InsideBlock(evs: seq<StreamEventData>) {
    forall k | 0 <= k < |evs| :: !IsCodeToolStart(evs[k]) && !evs[k].ContentBlockStop?
  }

  /** One event inside a block: fragments are appended while collecting and
      nothing else touches the collector or sends code. */
  lemma DispatchInsideBlock(c: Collector, ev: StreamEventData, code: string -> Option<string>)
    requires !IsCodeToolStart(ev) && !ev.ContentBlockStop?
    ensures var r := Dispatch(c, ev, code);
            && r.0 == (if c.collecting && IsJsonDelta(ev) then Collector(true, c.input + ev.delta.partialJson) else c)
            && CodeInputs(OptionToSeq(r.1)) == []
  {
  }

  /** Between a start and a stop, the accumulator is what it held before
      followed by the partial JSON fragments, in order, while collecting,
      and untouched otherwise; no CodeInput is sent meanwhile. */
  lemma {:induction false} AccumulatesFragments(c: Collector, evs: seq<StreamEventData>,
                                                code: string -> Option<string>)
    requires InsideBlock(evs)
    ensures var r := DispatchAll(c, evs, code);
            r.0 == (if c.collecting then Collector(true, c.input + JsonFragments(evs)) else c)
            && CodeInputs(r.1) == []
    decreases |evs|
  {
    if evs == [] {
      assert c.input + "" == c.input;
    } else {
      var ev := evs[0];
      var tail := evs[1..];
      var first := Dispatch(c, ev, code);
      assert InsideBlock(tail) by {
        forall k | 0 <= k < |tail| ensures !IsCodeToolStart(tail[k]) && !tail[k].ContentBlockStop? {
          assert tail[k] == evs[k + 1];
        }
      }
      DispatchInsideBlock(c, ev, code);
      AccumulatesFragments(first.0, tail, code);
      var rest := DispatchAll(first.0, tail, code);
      assert DispatchAll(c, evs, code) == (rest.0, OptionToSeq(first.1) + rest.1);
      CodeInputsAppend(OptionToSeq(first.1), rest.1);
      var piece := if IsJsonDelta(ev) then ev.delta.partialJson else "";
      assert JsonFragments(evs) == piece + JsonFragments(tail);
      if c.collecting {
        assert first.0 == Collector(true, c.input + piece);
        assert c.input + piece + JsonFragments(tail) == c.input + (piece + JsonFragments(tail));
      }
    }
  }

  /** A code-execution block (its start, any events inside it, its stop)
      sends at most one CodeInput: the code decoded from the concatenation
      of all its fragments, sent once that concatenation is non-empty and
      decodes. It then goes idle; a block with no input stays collecting.
      How the input was fragmented therefore does not matter. */
  lemma ToolBlockSendsOneCodeInput(c: Collector, start: StreamEventData, body: seq<StreamEventData>,
                                   code: string -> Option<string>)
    requires IsCodeToolStart(start) && InsideBlock(body)
    ensures var json := JsonFragments(body);
            var r := DispatchAll(c, [start] + body + [ContentBlockStop], code);
            && CodeInputs(r.1) == (if json != "" && code(json).Some? then [code(json).value] else [])
            && r.0 == (if json != "" then IDLE else Collector(true, ""))
  {
    var stop: StreamEventData := ContentBlockStop;
    var json := JsonFragments(body);
    DispatchAllOne(c, start, code);
    var r0 := DispatchAll(c, [start], code);
    assert r0 == (Collector(true, ""), []);
    AccumulatesFragments(Collector(true, ""), body, code);
    var r1 := DispatchAll(r0.0, body, code);
    assert "" + json == json;
    assert r1.0 == Collector(true, json);
    DispatchAllOne(r1.0, stop, code);
    StopEndsBlock(json, code);
    var r2 := DispatchAll(r1.0, [stop], code);
    DispatchAllAppend(c, [start], body, code);
    DispatchAllAppend(c, [start] + body, [stop], code);
    CodeInputsAppend(r0.1 + r1.1, r2.1);
    CodeInputsAppend(r0.1, r1.1);
  }

  /** Dispatching a single event. */
  lemma DispatchAllOne(c: Collector, ev: StreamEventData, code: string -> Option<string>)
    ensures var d := Dispatch(c, ev, code);
            DispatchAll(c, [ev], code) == (d.0, OptionToSeq(d.1))
  {
    var d := Dispatch(c, ev, code);
    assert [ev][0] == ev && [ev][1..] == [];
    assert DispatchAll(d.0, [], code) == (d.0, []);
    assert OptionToSeq(d.1) + [] == OptionToSeq(d.1);
  }

  /** The stop of a block that collected `json`: the code it decodes to is
      sent when `json` is non-empty, and the collector goes idle then. */
  lemma StopEndsBlock(json: string, code: string -> Option<string>)
    ensures var d := Dispatch(Collector(true, json), ContentBlockStop, code);
            && CodeInputs(OptionToSeq(d.1)) == (if json != "" && code(json).Some? then [code(json).value] else [])
            && d.0 == (if json != "" then IDLE else Collector(true, ""))
  {
    var d := Dispatch(Collector(true, json), ContentBlockStop, code);
    if json != "" && code(json).Some? {
      assert OptionToSeq(d.1) == [CodeInput(code(json).value)];
      assert [CodeInput(code(json).value)][1..] == [];
    }
  }

  /** Stop with an empty accumulator leaves collection switched on. */
  lemma EmptyBlockKeepsCollecting(code: string -> Option<string>)
    ensures Dispatch(Collector(true, ""), ContentBlockStop, code) == (Collector(true, ""), None)
  {
  }

  // ---------------------------------------------------------------------------
  // Frames

  /** The decoded event a frame carries: None when it has no data line or
      its payload does not decode. */
  function Decoded(frame: string, dec: Decoders): Option<StreamEventData> {
    match FramePayload(frame)
    case None => None
    case Some(payload) => dec.event(payload)
  }

  /** What one frame does: a frame with no data line, or whose payload does
      not decode, sends nothing and leaves the collector as it was. */
  function HandleFrame(c: Collector, frame: string, dec: Decoders): (r: (Collector, Option<StreamEvent>))
    ensures Decoded(frame, dec).None? ==> r == (c, None)
    ensures Decoded(frame, dec).Some? ==> r == Dispatch(c, Decoded(frame, dec).value, dec.code)
  {
    match Decoded(frame, dec)
    case None => (c, None)
    case Some(ev) => Dispatch(c, ev, dec.code)
  }

  /** The decoded events of a sequence of frames. */
  function DecodedEvents(fs: seq<string>, dec: Decoders): seq<StreamEventData> {
    if fs == [] then [] else OptionToSeq(Decoded(fs[0], dec)) + DecodedEvents(fs[1..], dec)
  }

  lemma {:induction false} DecodedEventsAppend(a: seq<string>, b: seq<string>, dec: Decoders)
    ensures DecodedEvents(a + b, dec) == DecodedEvents(a, dec) + DecodedEvents(b, dec)
    decreases |a|
  {
    if a == [] {
      assert a + b == b;
    } else {
      assert (a + b)[0] == a[0] && (a + b)[1..] == a[1..] + b;
      DecodedEventsAppend(a[1..], b, dec);
    }
  }

  /** A frame whose event is a text delta: the one kind of frame whose send
      ends the frame loop when it fails. */
  predicate CarriesText(frame: string, dec: Decoders) {
    Decoded(frame, dec).Some? && IsTextDelta(Decoded(frame, dec).value)
  }

  /** What taking one frame off the buffer did: the collector after it, the
      events delivered, and whether a failed Text send stopped the loop. */
  datatype Step = Step(collector: Collector, out: seq<StreamEvent>, stopped: bool)

  /** One frame taken off the buffer. When the receiver is gone no send
      succeeds; a failed Text send stops the loop. */
  function Advance(c: Collector, frame: string, receiverOpen: bool, dec: Decoders): Step {
    var h := HandleFrame(c, frame, dec);
    if !receiverOpen && h.1.Some? && h.1.value.Text? then Step(h.0, [], true)
    else Step(h.0, if receiverOpen then OptionToSeq(h.1) else [], false)
  }

  /** A step stops the loop exactly when a Text send fails; with the
      receiver open it delivers the frame's event, with it gone nothing. */
  lemma AdvanceStops(c: Collector, frame: string, receiverOpen: bool, dec: Decoders)
    ensures var r := Advance(c, frame, receiverOpen, dec);
            var h := HandleFrame(c, frame, dec);
            && r.collector == h.0
            && (r.stopped <==> !receiverOpen && CarriesText(frame, dec))
            && r.out == (if receiverOpen then OptionToSeq(h.1) else [])
  {
  }

  /** Dispatching a frame's decoded event, if any, is handling the frame. */
  lemma DispatchAllOfFrame(c: Collector, frame: string, dec: Decoders)
    ensures var h := HandleFrame(c, frame, dec);
            DispatchAll(c, OptionToSeq(Decoded(frame, dec)), dec.code) == (h.0, OptionToSeq(h.1))
  {
    match Decoded(frame, dec)
    case None =>
    case Some(ev) =>
      var evs := OptionToSeq(Decoded(frame, dec));
      assert evs == [ev] && evs[1..] == [];
      var h := Dispatch(c, ev, dec.code);
      assert DispatchAll(h.0, [], dec.code) == (h.0, []);
      assert OptionToSeq(h.1) + [] == OptionToSeq(h.1);
  }

  // ---------------------------------------------------------------------------
  // The buffer

  /** The result of taking frames off a buffer: what stays in it, the
      collector, what was delivered, and how many frames were taken. */
  datatype Drained = Drained(buffer: string, collector: Collector, out: seq<StreamEvent>, frames: nat)

  /** The inner `while let` loop over the buffer, as a function of the buffer
      it starts from: while the buffer holds a separator, the frame before
      it is taken off and handled; a failed Text send ends the loop. */
  function Drain(buffer: string, c: Collector, receiverOpen: bool, dec: Decoders): Drained
    decreases |buffer|
  {
    match FindSeparator(buffer)
    case None => Drained(buffer, c, [], 0)
    case Some(i) =>
      var a := Advance(c, buffer[..i], receiverOpen, dec);
      if a.stopped then Drained(buffer[i + 2..], a.collector, a.out, 1)
      else
        var e := Drain(buffer[i + 2..], a.collector, receiverOpen, dec);
        Drained(e.buffer, e.collector, a.out + e.out, e.frames + 1)
  }

  /** The loop only ever cuts text off the front of the buffer; with the
      receiver open it leaves no complete frame behind, with it gone it
      delivers nothing; and it keeps the accumulator empty while no tool
      input is collected. */
  lemma {:induction false} DrainShape(buffer: string, c: Collector, receiverOpen: bool, dec: Decoders)
    ensures var d := Drain(buffer, c, receiverOpen, dec);
            && |d.buffer| <= |buffer| && d.buffer == buffer[|buffer| - |d.buffer|..]
            && (receiverOpen ==> NoSeparator(d.buffer))
            && (!receiverOpen ==> d.out == [])
            && (Consistent(c) ==> Consistent(d.collector))
  {
    DrainKeepsSuffix(buffer, c, receiverOpen, dec);
    if receiverOpen {
      DrainLeavesNoFrame(buffer, c, dec);
    } else {
      DrainClosedSilent(buffer, c, dec);
    }
    if Consistent(c) {
      DrainKeepsConsistent(buffer, c, receiverOpen, dec);
    }
  }

  lemma {:induction false} DrainKeepsSuffix(buffer: string, c: Collector, receiverOpen: bool, dec: Decoders)
    ensures var d := Drain(buffer, c, receiverOpen, dec);
            |d.buffer| <= |buffer| && d.buffer == buffer[|buffer| - |d.buffer|..]
    decreases |buffer|
  {
    match FindSeparator(buffer)
    case None =>
    case Some(i) =>
      var a := Advance(c, buffer[..i], receiverOpen, dec);
      var tail := buffer[i + 2..];
      if !a.stopped {
        DrainKeepsSuffix(tail, a.collector, receiverOpen, dec);
        var e := Drain(tail, a.collector, receiverOpen, dec);
        assert Drain(buffer, c, receiverOpen, dec).buffer == e.buffer;
        var k := |tail| - |e.buffer|;
        assert i + 2 + k == |buffer| - |e.buffer|;
        assert buffer[i + 2..][k..] == buffer[i + 2 + k..];
      }
  }

  lemma {:induction false} DrainLeavesNoFrame(buffer: string, c: Collector, dec: Decoders)
    ensures NoSeparator(Drain(buffer, c, true, dec).buffer)
    decreases |buffer|
  {
    match FindSeparator(buffer)
    case None =>
    case Some(i) =>
      var a := Advance(c, buffer[..i], true, dec);
      AdvanceStops(c, buffer[..i], true, dec);
      DrainLeavesNoFrame(buffer[i + 2..], a.collector, dec);
  }

  lemma {:induction false} DrainClosedSilent(buffer: string, c: Collector, dec: Decoders)
    ensures Drain(buffer, c, false, dec).out == []
    decreases |buffer|
  {
    match FindSeparator(buffer)
    case None =>
    case Some(i) =>
      var a := Advance(c, buffer[..i], false, dec);
      assert a.out == [];
      if !a.stopped {
        DrainClosedSilent(buffer[i + 2..], a.collector, dec);
      }
  }

  lemma {:induction false} DrainKeepsConsistent(buffer: string, c: Collector, receiverOpen: bool, dec: Decoders)
    requires Consistent(c)
    ensures Consistent(Drain(buffer, c, receiverOpen, dec).collector)
    decreases |buffer|
  {
    match FindSeparator(buffer)
    case None =>
    case Some(i) =>
      var a := Advance(c, buffer[..i], receiverOpen, dec);
      AdvanceStops(c, buffer[..i], receiverOpen, dec);
      assert Consistent(a.collector);
      if !a.stopped {
        DrainKeepsConsistent(buffer[i + 2..], a.collector, receiverOpen, dec);
      }
  }

  /** The frames of a buffer that holds a separator: the text before it, then
      the frames of the text after it. */
  lemma SplitAtSeparator(buffer: string, i: nat)
    requires FindSeparator(buffer) == Some(i)
    ensures SplitFrames(buffer) == ([buffer[..i]] + SplitFrames(buffer[i + 2..]).0, SplitFrames(buffer[i + 2..]).1)
  {
  }

  /** What draining the frames `fs` followed by the remainder `rest` gives
      with the receiver open: every frame taken, only the remainder left,
      and the decoded events of the frames dispatched in order. */
  predicate DrainedOpen(fs: seq<string>, rest: string, c: Collector, d: Drained, dec: Decoders) {
    && d.frames == |fs|
    && d.buffer == rest
    && (d.collector, d.out) == DispatchAll(c, DecodedEvents(fs, dec), dec.code)
  }

  /** With the receiver open, every complete frame is taken and the buffer
      keeps only the remainder without a separator; the collector and the
      events delivered are those of dispatching the frames' events. */
  lemma {:induction false} OpenDrainTakesAllFrames(buffer: string, c: Collector, dec: Decoders)
    ensures var split := SplitFrames(buffer);
            DrainedOpen(split.0, split.1, c, Drain(buffer, c, true, dec), dec)
    decreases |buffer|
  {
    match FindSeparator(buffer)
    case None =>
      assert SplitFrames(buffer) == ([], buffer);
    case Some(i) =>
      var f, tail := buffer[..i], buffer[i + 2..];
      var h := HandleFrame(c, f, dec);
      OpenDrainTakesAllFrames(tail, h.0, dec);
      SplitAtSeparator(buffer, i);
      OpenDrainUnfold(buffer, i, c, dec);
      DrainedOpenCons(f, SplitFrames(tail).0, SplitFrames(tail).1, c, Drain(tail, h.0, true, dec), dec);
  }

  /** One turn of the loop with the receiver open. */
  lemma OpenDrainUnfold(buffer: string, i: nat, c: Collector, dec: Decoders)
    requires FindSeparator(buffer) == Some(i)
    ensures var h := HandleFrame(c, buffer[..i], dec);
            var e := Drain(buffer[i + 2..], h.0, true, dec);
            Drain(buffer, c, true, dec) == Drained(e.buffer, e.collector, OptionToSeq(h.1) + e.out, e.frames + 1)
  {
    AdvanceStops(c, buffer[..i], true, dec);
  }

  lemma DrainedOpenCons(f: string, gs: seq<string>, rest: string, c: Collector, e: Drained, dec: Decoders)
    requires DrainedOpen(gs, rest, HandleFrame(c, f, dec).0, e, dec)
    ensures var h := HandleFrame(c, f, dec);
            DrainedOpen([f] + gs, rest, c, Drained(e.buffer, e.collector, OptionToSeq(h.1) + e.out, e.frames + 1), dec)
  {
    var fs := [f] + gs;
    assert fs[0] == f && fs[1..] == gs;
    assert DecodedEvents(fs, dec) == OptionToSeq(Decoded(f, dec)) + DecodedEvents(gs, dec);
    DispatchAllAppend(c, OptionToSeq(Decoded(f, dec)), DecodedEvents(gs, dec), dec.code);
    DispatchAllOfFrame(c, f, dec);
  }

  /** What draining the frames `fs` followed by `rest` gives with the
      receiver gone: no event delivered, the frames not taken and the
      remainder left in the buffer, and the loop ended early only right
      after the first frame that carries text. */
  predicate DrainedClosed(fs: seq<string>, rest: string, d: Drained, dec: Decoders) {
    && d.out == []
    && d.frames <= |fs|
    && d.buffer == JoinFrames(fs[d.frames..]) + rest
    && StopsAfterFirstText(fs, d.frames, dec)
  }

  /** Taking `n` of the frames `fs` stopped after the first frame that
      carries text, or took them all. */
  predicate StopsAfterFirstText(fs: seq<string>, n: nat, dec: Decoders) {
    && n <= |fs|
    && (n < |fs| ==> 1 <= n && CarriesText(fs[n - 1], dec))
    && forall j | 0 <= j < n - 1 :: !CarriesText(fs[j], dec)
  }

  /** With the receiver gone, nothing is delivered and the frames after the
      first one that carries text stay in the buffer: the loop takes the
      frames up to and including that one, or all of them when none does. */
  lemma {:induction false} ClosedDrainKeepsLaterFrames(buffer: string, c: Collector, dec: Decoders)
    ensures var split := SplitFrames(buffer);
            DrainedClosed(split.0, split.1, Drain(buffer, c, false, dec), dec)
    decreases |buffer|
  {
    match FindSeparator(buffer)
    case None =>
      assert SplitFrames(buffer) == ([], buffer);
    case Some(i) =>
      var f, tail := buffer[..i], buffer[i + 2..];
      var a := Advance(c, f, false, dec);
      AdvanceStops(c, f, false, dec);
      SplitAtSeparator(buffer, i);
      if a.stopped {
        assert Drain(buffer, c, false, dec) == Drained(tail, a.collector, [], 1);
        SplitFramesJoin(tail);
        DrainedClosedStop(f, SplitFrames(tail).0, SplitFrames(tail).1, Drained(tail, a.collector, [], 1), dec);
      } else {
        var e := Drain(tail, a.collector, false, dec);
        ClosedDrainKeepsLaterFrames(tail, a.collector, dec);
        assert Drain(buffer, c, false, dec) == Drained(e.buffer, e.collector, [] + e.out, e.frames + 1);
        DrainedClosedCons(f, SplitFrames(tail).0, SplitFrames(tail).1, e, dec);
      }
  }

  lemma SplitFramesJoin(s: string)
    ensures JoinFrames(SplitFrames(s).0) + SplitFrames(s).1 == s
  {
  }

  lemma DrainedClosedStop(f: string, gs: seq<string>, rest: string, d: Drained, dec: Decoders)
    requires CarriesText(f, dec) && d.out == [] && d.frames == 1
    requires d.buffer == JoinFrames(gs) + rest
    ensures DrainedClosed([f] + gs, rest, d, dec)
  {
    assert ([f] + gs)[1..] == gs;
  }

  lemma DrainedClosedCons(f: string, gs: seq<string>, rest: string, e: Drained, dec: Decoders)
    requires !CarriesText(f, dec)
    requires DrainedClosed(gs, rest, e, dec)
    ensures DrainedClosed([f] + gs, rest, Drained(e.buffer, e.collector, [] + e.out, e.frames + 1), dec)
  {
    assert ([f] + gs)[e.frames + 1..] == gs[e.frames..];
    StopsAfterFirstTextCons(f, gs, e.frames, dec);
  }

  lemma StopsAfterFirstTextCons(f: string, gs: seq<string>, n: nat, dec: Decoders)
    requires !CarriesText(f, dec) && n <= |gs|
    requires StopsAfterFirstText(gs, n, dec)
    ensures StopsAfterFirstText([f] + gs, n + 1, dec)
  {
    var fs := [f] + gs;
    if n < |gs| {
      assert fs[n] == gs[n - 1];
    }
    forall j | 0 <= j < n ensures !CarriesText(fs[j], dec) {
      if j > 0 { assert fs[j] == gs[j - 1]; }
    }
  }

  /** How the text was cut into chunks does not matter (receiver open):
      draining `b`, then draining what stayed followed by `t`, delivers the
      same events and ends in the same state as draining `b + t` at once. */
  lemma ChunkingIrrelevant(b: string, t: string, c: Collector, dec: Decoders)
    ensures var d1 := Drain(b, c, true, dec);
            var d2 := Drain(d1.buffer + t, d1.collector, true, dec);
            var d := Drain(b + t, c, true, dec);
            d.buffer == d2.buffer && d.collector == d2.collector && d.out == d1.out + d2.out
  {
    var s1 := SplitFrames(b);
    var d1 := Drain(b, c, true, dec);
    OpenDrainTakesAllFrames(b, c, dec);
    var d2 := Drain(s1.1 + t, d1.collector, true, dec);
    OpenDrainTakesAllFrames(s1.1 + t, d1.collector, dec);
    var s2 := SplitFrames(s1.1 + t);
    BufferSplitAfterDrain(b, t);
    OpenDrainTakesAllFrames(b + t, c, dec);
    DecodedEventsAppend(s1.0, s2.0, dec);
    DispatchAllAppend(c, DecodedEvents(s1.0, dec), DecodedEvents(s2.0, dec), dec.code);
    assert d1.buffer == s1.1;
    assert (d1.collector, d1.out) == DispatchAll(c, DecodedEvents(s1.0, dec), dec.code);
    assert (d2.collector, d2.out) == DispatchAll(d1.collector, DecodedEvents(s2.0, dec), dec.code);
  }

  /** The frames of `b + t` are those of `b`, then those of its remainder
      followed by `t`. */
  lemma BufferSplitAfterDrain(b: string, t: string)
    ensures var s1 := SplitFrames(b);
            var s2 := SplitFrames(s1.1 + t);
            SplitFrames(b + t) == (s1.0 + s2.0, s2.1)
  {
    var s1 := SplitFrames(b);
    assert b + t == JoinFrames(s1.0) + (s1.1 + t);
    SplitAfterFrames(s1.0, s1.1 + t);
  }
  // ---------------------------------------------------------------------------
  // The task

  /** The state of one spawned stream task. `delivered` is what the consumer
      has received, in order; `receiverOpen` is false once the consumer has
      dropped its receiver; `running` is false once the task has returned. */
  class StreamSession {
    const decoders: Decoders
    const request: MessagesRequest
    const headers: seq<(string, string)>
    var buffer: string
    var currentCodeInput: string
    var collectingCode: bool
    var delivered: seq<StreamEvent>
    var receiverOpen: bool
    var running: bool

    ghost predicate Valid()
      reads this
    {
      Consistent(Collector(collectingCode, currentCodeInput))
    }

    function CurrentCollector(): Collector
      reads this
    {
      Collector(collectingCode, currentCodeInput)
    }

    /** The task up to the response: it sends two connection notices, builds
        the request, and either stops after one error text or goes on to
        stream with an empty buffer and no tool input. */
    constructor Spawn(apiKey: string, modelEnv: Option<string>, messages: seq<Message>,
                      enableCodeExecution: bool, decoders: Decoders, outcome: RequestOutcome)
      ensures Valid()
      ensures this.decoders == decoders
      ensures request == BuildRequest(modelEnv, messages, enableCodeExecution)
      ensures headers == RequestHeaders(apiKey, enableCodeExecution)
      ensures delivered == Preamble(outcome).0 && running == Preamble(outcome).1
      ensures buffer == "" && currentCodeInput == "" && !collectingCode && receiverOpen
    {
      this.decoders := decoders;
      request := BuildRequest(modelEnv, messages, enableCodeExecution);
      headers := RequestHeaders(apiKey, enableCodeExecution);
      var pre := Preamble(outcome);
      delivered := pre.0;
      running := pre.1;
      buffer := "";
      currentCodeInput := "";
      collectingCode := false;
      receiverOpen := true;
    }

    /** The consumer drops its receiver; every later send fails. */
    method DropReceiver()
      modifies this`receiverOpen
      ensures !receiverOpen
    {
      receiverOpen := false;
    }

    /** The cancellation token wins the race with the next read. */
    method Cancel()
      modifies this`running
      ensures !running
    {
      running := false;
    }

    /** `tx.send(e)`: delivered when the receiver is still there. */
    method Send(e: StreamEvent) returns (ok: bool)
      modifies this`delivered
      ensures ok == receiverOpen
      ensures delivered == old(delivered) + (if receiverOpen then [e] else [])
    {
      ok := receiverOpen;
      if ok {
        delivered := delivered + [e];
      }
    }

    /** One frame: find its payload, decode it, dispatch on the event.
        Reports whether a Text send failed. */
    method ProcessFrame(frame: string) returns (textSendFailed: bool)
      requires Valid()
      modifies this`currentCodeInput, this`collectingCode, this`delivered
      ensures Valid()
      ensures var s := Advance(old(CurrentCollector()), frame, receiverOpen, decoders);
              && CurrentCollector() == s.collector
              && delivered == old(delivered) + s.out
              && textSendFailed == s.stopped
    {
      textSendFailed := false;
      var payload := FramePayload(frame);
      if payload.None? {
        return;
      }
      var decoded := decoders.event(payload.value);
      if decoded.None? {
        return;
      }
      textSendFailed := DispatchEvent(decoded.value);
    }

    /** The dispatch on one decoded event: the collector moves as `Dispatch`
        says and its event, if any, is sent. Reports whether a Text send
        failed. */
    method DispatchEvent(ev: StreamEventData) returns (textSendFailed: bool)
      requires Valid()
      modifies this`currentCodeInput, this`collectingCode, this`delivered
      ensures Valid()
      ensures var d := Dispatch(old(CurrentCollector()), ev, decoders.code);
              && CurrentCollector() == d.0
              && delivered == old(delivered) + (if receiverOpen then OptionToSeq(d.1) else [])
              && textSendFailed == (!receiverOpen && d.1.Some? && d.1.value.Text?)
    {
      textSendFailed := false;
      var ok;
      match ev
      case MessageStart(message) =>
        if message.container.Some? {
          ok := Send(ContainerInfo(message.container.value.id, message.container.value.expiresAt));
        }
      case ContentBlockStart(block) =>
        match block {
          case ServerToolUse(_, name) =>
            if name == CODE_TOOL_NAME {
              collectingCode := true;
              currentCodeInput := "";
            }
          case CodeExecutionToolResult(_, result) =>
            ok := Send(InterpretResult(result));
          case TextBlock(_) =>
        }
      case ContentBlockDelta(delta) =>
        match delta {
          case TextDelta(text) =>
            ok := Send(Text(text));
            if !ok {
              textSendFailed := true;
            }
          case InputJsonDelta(partial) =>
            if collectingCode {
              currentCodeInput := currentCodeInput + partial;
            }
        }
      case ContentBlockStop =>
        if collectingCode && currentCodeInput != "" {
          var code := decoders.code(currentCodeInput);
          if code.Some? {
            ok := Send(CodeInput(code.value));
          }
          collectingCode := false;
          currentCodeInput := "";
        }
      case MessageDelta =>
      case MessageStop =>
    }

    /** One turn of the frame loop: the frame before the first separator is
        taken off the buffer and processed. Reports whether a Text send
        failed. */
    method TakeFrame(eventEnd: nat) returns (textSendFailed: bool)
      requires Valid() && eventEnd + 2 <= |buffer|
      modifies this`buffer, this`currentCodeInput, this`collectingCode, this`delivered
      ensures Valid()
      ensures buffer == old(buffer)[eventEnd + 2..]
      ensures var s := Advance(old(CurrentCollector()), old(buffer)[..eventEnd], receiverOpen, decoders);
              && CurrentCollector() == s.collector
              && delivered == old(delivered) + s.out
              && textSendFailed == s.stopped
    {
      var eventData := buffer[..eventEnd];
      buffer := buffer[eventEnd + 2..];
      textSendFailed := ProcessFrame(eventData);
    }

    /** Appends a decoded chunk to the buffer and takes complete frames off
        its front until none is left or a Text send fails. */
    method Feed(text: string)
      requires Valid()
      modifies this`buffer, this`currentCodeInput, this`collectingCode, this`delivered
      ensures Valid()
      ensures var d := Drain(old(buffer) + text, old(CurrentCollector()), receiverOpen, decoders);
              && buffer == d.buffer
              && CurrentCollector() == d.collector
              && delivered == old(delivered) + d.out
    {
      buffer := buffer + text;
      ghost var target := Drain(buffer, CurrentCollector(), receiverOpen, decoders);
      ghost var before := delivered;
      var found := FindSeparator(buffer);
      while found.Some?
        invariant Valid()
        invariant found == FindSeparator(buffer)
        invariant var d := Drain(buffer, CurrentCollector(), receiverOpen, decoders);
                  && d.buffer == target.buffer && d.collector == target.collector
                  && before + target.out == delivered + d.out
        decreases |buffer|
      {
        ghost var c := CurrentCollector();
        ghost var sent := delivered;
        ghost var step := Advance(c, buffer[..found.value], receiverOpen, decoders);
        ghost var later := Drain(buffer[found.value + 2..], step.collector, receiverOpen, decoders);
        var textSendFailed := TakeFrame(found.value);
        if textSendFailed {
          break;
        }
        SeqAssoc(sent, step.out, later.out);
        found := FindSeparator(buffer);
      }
    }

    /** One turn of the outer loop, for one read of the body: a chunk that is
        valid UTF-8 is fed (any other chunk is dropped whole); an error or the
        end of the body ends the task. Nothing happens once it has ended. */
    method Next(read: ReadResult)
      requires Valid()
      modifies this`buffer, this`currentCodeInput, this`collectingCode, this`delivered, this`running
      ensures Valid()
      ensures !old(running) || (read.Chunk? && decoders.utf8(read.bytes).None?) ==>
                buffer == old(buffer) && CurrentCollector() == old(CurrentCollector())
                && delivered == old(delivered) && running == old(running)
      ensures old(running) && !read.Chunk? ==>
                !running && buffer == old(buffer) && CurrentCollector() == old(CurrentCollector())
                && delivered == old(delivered)
      ensures old(running) && read.Chunk? && decoders.utf8(read.bytes).Some? ==>
                var d := Drain(old(buffer) + decoders.utf8(read.bytes).value, old(CurrentCollector()),
                               receiverOpen, decoders);
                running && buffer == d.buffer && CurrentCollector() == d.collector
                && delivered == old(delivered) + d.out
    {
      if !running {
        return;
      }
      match read
      case Chunk(bytes) =>
        var text := decoders.utf8(bytes);
        if text.Some? {
          Feed(text.value);
        }
      case ReadError =>
        running := false;
      case EndOfStream =>
        running := false;
    }
  }
}
