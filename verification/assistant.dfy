/**
 * The agent event-stream decoder of `AssistantService.runAssistantStream`: every raw chunk
 * of the response body is cut into frames at blank lines, each frame's `event:` and `data:`
 * lines are extracted, the data is decoded as JSON, and `updates` frames are flattened into
 * typed updates pushed, in order, to the subject the stream processor subscribes to.
 * The subject is modelled as the sequence of updates pushed to it.
 */
module Assistant {
  import opened Wrappers
  import opened Messages
  import Text

  /** An entry of `agent.messages`: its `content` and its `tool_calls`. */
  datatype AgentEntry = AgentEntry(content: Option<string>, toolCalls: Option<seq<ToolCallInfo>>)

  /** An entry of `tools.messages`. */
  datatype ToolEntry = ToolEntry(content: Option<string>)

  datatype AgentSection = AgentSection(messages: Option<seq<AgentEntry>>)
  datatype ToolsSection = ToolsSection(messages: Option<seq<ToolEntry>>)

  /** The decoded `data` object of a frame, reduced to the fields the decoder reads. */
  datatype Payload = Payload(agent: Option<AgentSection>, tools: Option<ToolsSection>)

  /** A successful `JSON.parse` result: a falsy value (`null`, `false`, `0`, `""`) or a
      truthy one. A truthy value that is not an object reads as a payload with neither field. */
  datatype Decoded = Falsy | Truthy(payload: Payload)

  /** `JSON.parse` as a partial function: `None` when it throws. */
  type JsonParser = string -> Option<Decoded>

  /** JavaScript truthiness of an optional string. */
  predicate IsTruthy(s: Option<string>) {
    s.Some? && s.value != ""
  }

  // ---------------------------------------------------------------------------
  // processUpdate

  function ToolCallOutputs(calls: seq<ToolCallInfo>): (out: seq<StreamUpdate>)
    ensures |out| == |calls|
    ensures forall k :: 0 <= k < |calls| ==> out[k] == ToolCall(calls[k])
  {
    seq(|calls|, k requires 0 <= k < |calls| => ToolCall(calls[k]))
  }

  /** The updates one agent entry yields: its content if truthy, then each of its tool calls. */
  function EntryOutputs(m: AgentEntry): seq<StreamUpdate> {
    (if IsTruthy(m.content) then [AgentMessage(m.content.value)] else [])
    + (if m.toolCalls.Some? then ToolCallOutputs(m.toolCalls.value) else [])
  }

  /** The updates of the agent entries, entry after entry. */
  function AgentOutputs(ms: seq<AgentEntry>): seq<StreamUpdate> {
    if ms == [] then [] else AgentOutputs(ms[..|ms| - 1]) + EntryOutputs(ms[|ms| - 1])
  }

  function ToolOutputs(ms: seq<ToolEntry>): (out: seq<StreamUpdate>)
    ensures |out| == |ms|
    ensures forall k :: 0 <= k < |ms| ==> out[k] == ToolMessage(ms[k].content)
  {
    seq(|ms|, k requires 0 <= k < |ms| => ToolMessage(ms[k].content))
  }

  /** `data.agent?.messages`, empty when absent. */
  function AgentEntries(p: Payload): seq<AgentEntry> {
    if p.agent.Some? && p.agent.value.messages.Some? then p.agent.value.messages.value else []
  }

  /** `data.tools?.messages`, empty when absent. */
  function ToolEntries(p: Payload): seq<ToolEntry> {
    if p.tools.Some? && p.tools.value.messages.Some? then p.tools.value.messages.value else []
  }

  /** Everything `processUpdate` pushes for one payload. */
  function UpdateOutputs(p: Payload): seq<StreamUpdate> {
    AgentOutputs(AgentEntries(p)) + ToolOutputs(ToolEntries(p))
  }

  /** The callback of the outer `forEach` of `processUpdate`: one agent entry's pushes. */
  method PushAgentEntry(message: AgentEntry) returns (out: seq<StreamUpdate>)
    ensures out == EntryOutputs(message)
  {
    out := [];
    if IsTruthy(message.content) {
      out := out + [AgentMessage(message.content.value)];
    }
    if message.toolCalls.Some? {
      var calls := message.toolCalls.value;
      var prefix := out;
      for j := 0 to |calls|
        invariant out == prefix + ToolCallOutputs(calls[..j])
      {
        out := out + [ToolCall(calls[j])];
      }
      assert calls[..|calls|] == calls;
    }
  }

  lemma AgentOutputsPrefix(ms: seq<AgentEntry>, i: nat)
    requires i < |ms|
    ensures AgentOutputs(ms[..i + 1]) == AgentOutputs(ms[..i]) + EntryOutputs(ms[i])
  {
    assert ms[..i + 1][..i] == ms[..i];
  }

  /** `processUpdate`: the nested `forEach` loops pushing to the subject. */
  method ProcessUpdate(data: Payload) returns (out: seq<StreamUpdate>)
    ensures out == UpdateOutputs(data)
  {
    out := [];
    if data.agent.Some? && data.agent.value.messages.Some? {
      var messages := data.agent.value.messages.value;
      for i := 0 to |messages|
        invariant out == AgentOutputs(messages[..i])
      {
        var pushed := PushAgentEntry(messages[i]);
        AgentOutputsPrefix(messages, i);
        out := out + pushed;
      }
      assert messages[..|messages|] == messages;
    }
    assert out == AgentOutputs(AgentEntries(data));
    if data.tools.Some? && data.tools.value.messages.Some? {
      var messages := data.tools.value.messages.value;
      var prefix := out;
      for i := 0 to |messages|
        invariant out == prefix + ToolOutputs(messages[..i])
      {
        out := out + [ToolMessage(messages[i].content)];
      }
      assert messages[..|messages|] == messages;
    }
  }

  // ---------------------------------------------------------------------------
  // processEvent and handleEventData

  const FrameSeparator := "\n\n"

  /** `chunk.toString().split('\n\n').filter(Boolean)`. */
  function Frames(chunk: string): (frames: seq<string>)
    ensures forall k :: 0 <= k < |frames| ==> frames[k] != ""
  {
    Text.NonEmpty(Text.Split(chunk, FrameSeparator))
  }

  /** `lines.find(line => line.startsWith(marker))?.replace(prefix, '').trim() || ''`. */
  function FieldValue(frame: string, marker: string, prefix: string): string {
    var lines := Text.Split(frame, "\n");
    match Text.FindFirst(lines, marker)
    case None => ""
    case Some(k) => Text.Trim(Text.ReplaceFirst(lines[k], prefix, ""))
  }

  function EventType(frame: string): string {
    FieldValue(frame, "event:", "event: ")
  }

  function EventDataString(frame: string): string {
    FieldValue(frame, "data:", "data: ")
  }

  /** `eventDataString && JSON.parse(eventDataString)` with parse errors caught, kept only when truthy. */
  function EventData(dataString: string, parse: JsonParser): (d: Option<Payload>)
    ensures dataString == "" ==> d.None?
    ensures d.Some? <==> dataString != "" && parse(dataString).Some? && parse(dataString).value.Truthy?
  {
    if dataString == "" then None
    else match parse(dataString)
      case Some(Truthy(p)) => Some(p)
      case _ => None
  }

  /** The cases of the `handleEventData` switch. */
  datatype EventKind = Metadata | Updates | Heartbeat | Unknown(name: string)

  function Classify(eventType: string): (k: EventKind)
    ensures k.Updates? <==> eventType == "updates"
  {
    if eventType == "metadata" then Metadata
    else if eventType == "updates" then Updates
    else if eventType == "heartbeat" then Heartbeat
    else Unknown(eventType)
  }

  /** What `handleEventData` pushes: only an `updates` frame produces anything. */
  function DispatchOutputs(eventType: string, data: Payload): seq<StreamUpdate> {
    match Classify(eventType)
    case Updates => UpdateOutputs(data)
    case _ => []
  }

  method HandleEventData(eventType: string, data: Payload) returns (out: seq<StreamUpdate>)
    ensures out == DispatchOutputs(eventType, data)
  {
    match Classify(eventType)
    case Metadata => out := [];
    case Updates => out := ProcessUpdate(data);
    case Heartbeat => out := [];
    case Unknown(_) => out := [];
  }

  /** What `processEvent` pushes for one frame: dispatched only when both the event type and
      the decoded data are truthy. */
  function FrameOutputs(frame: string, parse: JsonParser): seq<StreamUpdate> {
    var eventType := EventType(frame);
    var data := EventData(EventDataString(frame), parse);
    if eventType != "" && data.Some? then DispatchOutputs(eventType, data.value) else []
  }

  method ProcessEvent(frame: string, parse: JsonParser) returns (out: seq<StreamUpdate>)
    ensures out == FrameOutputs(frame, parse)
  {
    var eventType := EventType(frame);
    var eventData := EventData(EventDataString(frame), parse);
    if eventType != "" && eventData.Some? {
      out := HandleEventData(eventType, eventData.value);
    } else {
      out := [];
    }
  }

  /** The updates of several frames, frame after frame. */
  function FramesOutputs(frames: seq<string>, parse: JsonParser): seq<StreamUpdate> {
    if frames == [] then []
    else FramesOutputs(frames[..|frames| - 1], parse) + FrameOutputs(frames[|frames| - 1], parse)
  }

  /** Everything one `data` event of the response stream pushes. */
  function ChunkOutputs(chunk: string, parse: JsonParser): seq<StreamUpdate> {
    FramesOutputs(Frames(chunk), parse)
  }

  /** The `data` listener: each non-empty piece of the chunk is processed, in chunk order. */
  method OnData(chunk: string, parse: JsonParser) returns (out: seq<StreamUpdate>)
    ensures out == ChunkOutputs(chunk, parse)
  {
    var events := Frames(chunk);
    out := [];
    for i := 0 to |events|
      invariant out == FramesOutputs(events[..i], parse)
    {
      var pushed := ProcessEvent(events[i], parse);
      FramesOutputsPrefix(events, i, parse);
      out := out + pushed;
    }
    assert events[..|events|] == events;
  }

  lemma FramesOutputsPrefix(frames: seq<string>, i: nat, parse: JsonParser)
    requires i < |frames|
    ensures FramesOutputs(frames[..i + 1], parse) == FramesOutputs(frames[..i], parse) + FrameOutputs(frames[i], parse)
  {
    assert frames[..i + 1][..i] == frames[..i];
  }

  // ---------------------------------------------------------------------------
  // Properties of processUpdate

  /** Number of entries whose content is truthy. */
  function TruthyContents(ms: seq<AgentEntry>): nat {
    if ms == [] then 0
    else TruthyContents(ms[..|ms| - 1]) + (if IsTruthy(ms[|ms| - 1].content) then 1 else 0)
  }

  /** Total number of tool calls over the entries. */
  function ToolCallTotal(ms: seq<AgentEntry>): nat {
    if ms == [] then 0
    else ToolCallTotal(ms[..|ms| - 1])
         + (if ms[|ms| - 1].toolCalls.Some? then |ms[|ms| - 1].toolCalls.value| else 0)
  }

  lemma {:induction false} AgentOutputsCount(ms: seq<AgentEntry>)
    ensures |AgentOutputs(ms)| == TruthyContents(ms) + ToolCallTotal(ms)
  {
    if ms != [] {
      AgentOutputsCount(ms[..|ms| - 1]);
    }
  }

  /** One update per truthy agent content, per tool call and per tools message. */
  lemma UpdateOutputsCount(p: Payload)
    ensures |UpdateOutputs(p)| ==
            TruthyContents(AgentEntries(p)) + ToolCallTotal(AgentEntries(p)) + |ToolEntries(p)|
  {
    AgentOutputsCount(AgentEntries(p));
  }

  /** Agent entries are flattened in order: the updates of a concatenation are the concatenation. */
  lemma {:induction false} AgentOutputsAppend(a: seq<AgentEntry>, b: seq<AgentEntry>)
    ensures AgentOutputs(a + b) == AgentOutputs(a) + AgentOutputs(b)
    decreases |b|
  {
    if b != [] {
      var b' := b[..|b| - 1];
      assert (a + b)[..|a + b| - 1] == a + b';
      AgentOutputsAppend(a, b');
    } else {
      assert a + b == a;
    }
  }

  /** Agent entries yield agent messages with non-empty text and tool calls, nothing else. */
  lemma {:induction false} AgentOutputsShape(ms: seq<AgentEntry>)
    ensures forall k :: 0 <= k < |AgentOutputs(ms)| ==>
              (AgentOutputs(ms)[k].AgentMessage? && AgentOutputs(ms)[k].text != "")
              || AgentOutputs(ms)[k].ToolCall?
  {
    if ms != [] {
      AgentOutputsShape(ms[..|ms| - 1]);
    }
  }

  /** All agent-derived updates come before the tool messages, and every tools entry yields
      exactly one tool message carrying its content, even an empty one. */
  lemma AgentBeforeTools(p: Payload)
    ensures var out := UpdateOutputs(p);
            var n := |AgentOutputs(AgentEntries(p))|;
            && (forall k :: 0 <= k < n ==> !out[k].ToolMessage?)
            && |out| == n + |ToolEntries(p)|
            && (forall k :: 0 <= k < |ToolEntries(p)| ==> out[n + k] == ToolMessage(ToolEntries(p)[k].content))
  {
    AgentOutputsShape(AgentEntries(p));
  }

  /** The decoder never produces a token-usage or unrecognised update, and never an empty
      agent message. */
  lemma DecodedUpdatesShape(p: Payload)
    ensures forall u :: u in UpdateOutputs(p) ==>
              (u.AgentMessage? && u.text != "") || u.ToolCall? || u.ToolMessage?
  {
    AgentOutputsShape(AgentEntries(p));
  }

  /** Only an `updates` frame produces output: metadata, heartbeat and unknown types yield nothing. */
  lemma OnlyUpdatesDispatch(eventType: string, data: Payload)
    requires eventType != "updates"
    ensures DispatchOutputs(eventType, data) == []
  {
  }

  // ---------------------------------------------------------------------------
  // Frames on the wire

  /** The frame the agent service sends for one event: `event: <type>\ndata: <json>`. */
  function EncodeFrame(eventType: string, data: string): string {
    "event: " + eventType + "\n" + "data: " + data
  }

  /** The event line starts with the event marker and not with the data marker. */
  lemma EventLineMarkers(eventType: string)
    ensures Text.StartsWith("event: " + eventType, "event:")
    ensures !Text.StartsWith("event: " + eventType, "data:")
  {
    var a := "event: " + eventType;
    assert a[..6] == "event:";
    assert a[0] == 'e' && "data:"[0] == 'd';
  }

  /** The data line starts with the data marker and not with the event marker. */
  lemma DataLineMarkers(data: string)
    ensures Text.StartsWith("data: " + data, "data:")
    ensures !Text.StartsWith("data: " + data, "event:")
  {
    var b := "data: " + data;
    assert b[..5] == "data:";
    assert b[0] == 'd' && "event:"[0] == 'e';
  }

  /** A field line whose value fits on one line holds no line break. */
  lemma FieldLineIsOneLine(marker: string, value: string)
    requires marker == "event: " || marker == "data: "
    requires IsLineValue(value)
    ensures forall k :: 0 <= k < |marker + value| ==> (marker + value)[k] != '\n'
  {
    assert forall k :: 0 <= k < |marker| ==> marker[k] != '\n';
    forall k | 0 <= k < |marker + value| ensures (marker + value)[k] != '\n' {
      if k >= |marker| { assert (marker + value)[k] == value[k - |marker|]; }
    }
  }

  /** A value that fits on one line and that `trim` leaves alone. */
  predicate IsLineValue(v: string) {
    (forall k :: 0 <= k < |v| ==> v[k] != '\n')
    && (v == [] || (!Text.IsWhitespace(v[0]) && !Text.IsWhitespace(v[|v| - 1])))
  }

  lemma EncodedFrameLines(eventType: string, data: string)
    requires IsLineValue(eventType) && IsLineValue(data)
    ensures Text.Split(EncodeFrame(eventType, data), "\n") == ["event: " + eventType, "data: " + data]
  {
    var a := "event: " + eventType;
    var b := "data: " + data;
    assert EncodeFrame(eventType, data) == a + ['\n'] + b;
    FieldLineIsOneLine("event: ", eventType);
    FieldLineIsOneLine("data: ", data);
    Text.SplitOnCharAfter(a, '\n', b);
    Text.SplitOnCharWithout(b, '\n');
  }

  /** Decoding the fields of an encoded frame gives back the event type and the data text. */
  lemma EncodedFrameFields(eventType: string, data: string)
    requires IsLineValue(eventType) && IsLineValue(data)
    ensures EventType(EncodeFrame(eventType, data)) == eventType
    ensures EventDataString(EncodeFrame(eventType, data)) == data
  {
    var a := "event: " + eventType;
    var b := "data: " + data;
    EncodedFrameLines(eventType, data);
    var lines := [a, b];
    EventLineMarkers(eventType);
    DataLineMarkers(data);
    assert Text.FindFirst(lines, "event:") == Some(0);
    assert Text.FindFrom(lines, "data:", 1) == Some(1);
    assert Text.FindFirst(lines, "data:") == Some(1);
    Text.ReplaceLeading("event: ", eventType, "");
    Text.ReplaceLeading("data: ", data, "");
    assert "" + eventType == eventType && "" + data == data;
    Text.TrimUntouched(eventType);
    Text.TrimUntouched(data);
  }

  /** An encoded frame with an event type and data that parses to a truthy payload is
      dispatched with that event type and payload. */
  lemma EncodedFrameOutputs(eventType: string, data: string, parse: JsonParser, p: Payload)
    requires IsLineValue(eventType) && eventType != ""
    requires IsLineValue(data) && data != ""
    requires parse(data) == Some(Truthy(p))
    ensures FrameOutputs(EncodeFrame(eventType, data), parse) == DispatchOutputs(eventType, p)
  {
    var f := EncodeFrame(eventType, data);
    EncodedFrameFields(eventType, data);
    assert EventData(EventDataString(f), parse) == Some(p);
  }

  lemma UpdatesIsLineValue()
    ensures IsLineValue("updates") && "updates" != ""
  {
    assert "updates" == ['u', 'p', 'd', 'a', 't', 'e', 's'];
  }

  /** An encoded `updates` frame whose data parses to a truthy payload yields exactly that
      payload's updates. */
  lemma EncodedUpdatesFrame(data: string, parse: JsonParser, p: Payload)
    requires IsLineValue(data) && data != ""
    requires parse(data) == Some(Truthy(p))
    ensures FrameOutputs(EncodeFrame("updates", data), parse) == UpdateOutputs(p)
  {
    UpdatesIsLineValue();
    EncodedFrameOutputs("updates", data, parse, p);
  }

  /** A frame that survives framing intact: non-empty, free of blank lines, not ending a line. */
  predicate CleanFrame(f: string) {
    f != "" && f[|f| - 1] != '\n' && !Text.Contains(f, FrameSeparator)
  }

  /** The body text of several frames, each closed by a blank line. */
  function Serialize(frames: seq<string>): string {
    if frames == [] then "" else frames[0] + FrameSeparator + Serialize(frames[1..])
  }

  /** Frames written one after the other in a single chunk are cut back out exactly. */
  lemma {:induction false} FramesOfSerialized(frames: seq<string>)
    requires forall k :: 0 <= k < |frames| ==> CleanFrame(frames[k])
    ensures Frames(Serialize(frames)) == frames
    decreases |frames|
  {
    if frames == [] {
      assert Text.Split("", FrameSeparator) == [""];
    } else {
      var f := frames[0];
      var rest := Serialize(frames[1..]);
      var s := f + FrameSeparator + rest;
      forall j: nat | j < |f| ensures !Text.OccursAt(s, FrameSeparator, j) {
        if j + 2 <= |f| {
          assert f[j..j + 2] == s[j..j + 2];
          assert !Text.OccursAt(f, FrameSeparator, j);
        } else {
          assert s[j] == f[|f| - 1];
        }
      }
      Text.SplitAfterPrefix(f, FrameSeparator, rest);
      FramesOfSerialized(frames[1..]);
      assert Text.Split(s, FrameSeparator) == [f] + Text.Split(rest, FrameSeparator);
      assert Text.NonEmpty([f] + Text.Split(rest, FrameSeparator))
             == [f] + Text.NonEmpty(Text.Split(rest, FrameSeparator));
    }
  }

  /** An encoded frame whose values fit on one line is clean. */
  lemma EncodedFrameIsClean(eventType: string, data: string)
    requires IsLineValue(eventType) && IsLineValue(data) && data != ""
    ensures CleanFrame(EncodeFrame(eventType, data))
  {
    var f := EncodeFrame(eventType, data);
    var n := |"event: " + eventType|;
    assert forall k :: 0 <= k < |f| && k != n ==> f[k] != '\n' by {
      forall k | 0 <= k < |f| && k != n ensures f[k] != '\n' {
        if 7 <= k < n { assert f[k] == eventType[k - 7]; }
        else if k > n + 6 { assert f[k] == data[k - n - 7]; }
      }
    }
    assert f[n + 1] == 'd';
    forall j: nat ensures !Text.OccursAt(f, FrameSeparator, j) {
      if j == n {
        if j + 2 <= |f| { assert f[j..j + 2][1] == f[j + 1]; }
      } else {
        Text.NotOccursAtFirst(f, FrameSeparator, j);
      }
    }
  }

  /** A chunk holding only the event line of a frame yields nothing: it has no data line. */
  lemma EventLineAloneYieldsNothing(eventType: string, parse: JsonParser)
    requires IsLineValue(eventType)
    ensures ChunkOutputs("event: " + eventType + "\n", parse) == []
  {
    var line := "event: " + eventType;
    var chunk := line + "\n";
    FieldLineIsOneLine("event: ", eventType);
    assert Frames(chunk) == [chunk] by {
      forall j: nat ensures !Text.OccursAt(chunk, FrameSeparator, j) {
        if j + 2 <= |chunk| { assert chunk[j] == line[j]; }
        Text.NotOccursAtFirst(chunk, FrameSeparator, j);
      }
      assert Text.Split(chunk, FrameSeparator) == [chunk];
    }
    EventLineMarkers(eventType);
    assert EventDataString(chunk) == "" by {
      NoDataLine(line);
    }
    assert FramesOutputs([chunk], parse) == FramesOutputs([], parse) + FrameOutputs(chunk, parse);
  }

  /** One line that is not a data line, closed by a newline, carries no data. */
  lemma NoDataLine(line: string)
    requires forall k :: 0 <= k < |line| ==> line[k] != '\n'
    requires !Text.StartsWith(line, "data:")
    ensures EventDataString(line + "\n") == ""
  {
    assert line + "\n" == line + ['\n'] + "";
    Text.SplitOnCharAfter(line, '\n', "");
    assert Text.Split("", "\n") == [""];
    var lines := [line, ""];
    assert Text.FindFrom(lines, "data:", 1) == None;
    assert Text.FindFirst(lines, "data:") == None;
  }

  /** A chunk holding only the data line of a frame yields nothing: it has no event line. */
  lemma DataLineAloneYieldsNothing(data: string, parse: JsonParser)
    requires IsLineValue(data) && data != ""
    ensures ChunkOutputs("data: " + data + FrameSeparator, parse) == []
  {
    var line := "data: " + data;
    FieldLineIsOneLine("data: ", data);
    assert CleanFrame(line) by {
      forall j: nat ensures !Text.OccursAt(line, FrameSeparator, j) {
        Text.NotOccursAtFirst(line, FrameSeparator, j);
      }
    }
    assert Frames(line + FrameSeparator) == [line] by {
      assert [line][1..] == [];
      assert Serialize([line]) == line + FrameSeparator;
      FramesOfSerialized([line]);
    }
    assert EventType(line) == "" by {
      Text.SplitOnCharWithout(line, '\n');
      DataLineMarkers(data);
      assert Text.FindFirst([line], "event:") == None;
    }
    assert FrameOutputs(line, parse) == [];
    assert FramesOutputs([line], parse) == FramesOutputs([], parse) + FrameOutputs(line, parse);
  }

  /** The handler does not buffer across chunks: a frame cut after its `event:` line and
      delivered in two chunks yields nothing, although delivered whole it yields its updates. */
  lemma SplitFrameIsLost(eventType: string, data: string, parse: JsonParser, p: Payload)
    requires IsLineValue(eventType) && eventType != ""
    requires IsLineValue(data) && data != ""
    requires parse(data) == Some(Truthy(p))
    ensures ("event: " + eventType + "\n") + ("data: " + data + FrameSeparator)
            == Serialize([EncodeFrame(eventType, data)])
    ensures ChunkOutputs(Serialize([EncodeFrame(eventType, data)]), parse) == DispatchOutputs(eventType, p)
    ensures ChunkOutputs("event: " + eventType + "\n", parse) == []
    ensures ChunkOutputs("data: " + data + FrameSeparator, parse) == []
  {
    var whole := EncodeFrame(eventType, data);
    assert [whole][1..] == [];
    assert Serialize([whole]) == whole + FrameSeparator;
    assert ("event: " + eventType + "\n") + ("data: " + data + FrameSeparator) == whole + FrameSeparator;
    assert Frames(Serialize([whole])) == [whole] by {
      EncodedFrameIsClean(eventType, data);
      FramesOfSerialized([whole]);
    }
    assert FrameOutputs(whole, parse) == DispatchOutputs(eventType, p) by {
      EncodedFrameOutputs(eventType, data, parse, p);
    }
    assert FramesOutputs([whole], parse) == FramesOutputs([], parse) + FrameOutputs(whole, parse);
    EventLineAloneYieldsNothing(eventType, parse);
    DataLineAloneYieldsNothing(data, parse);
  }

  // ---------------------------------------------------------------------------
  // Worked examples

  /** Two `updates` frames written into one chunk decode to the first payload's updates
      followed by the second's. */
  lemma TwoUpdatesFrames(d1: string, d2: string, parse: JsonParser, p1: Payload, p2: Payload)
    requires IsLineValue(d1) && d1 != "" && IsLineValue(d2) && d2 != ""
    requires parse(d1) == Some(Truthy(p1)) && parse(d2) == Some(Truthy(p2))
    ensures ChunkOutputs(
              Serialize([EncodeFrame("updates", d1), EncodeFrame("updates", d2)]), parse)
            == UpdateOutputs(p1) + UpdateOutputs(p2)
  {
    var f1 := EncodeFrame("updates", d1);
    var f2 := EncodeFrame("updates", d2);
    EncodedFrameIsClean("updates", d1);
    EncodedFrameIsClean("updates", d2);
    FramesOfSerialized([f1, f2]);
    EncodedUpdatesFrame(d1, parse, p1);
    EncodedUpdatesFrame(d2, parse, p2);
    TwoFramesOutputs(f1, f2, parse);
  }

  lemma TwoFramesOutputs(f1: string, f2: string, parse: JsonParser)
    ensures FramesOutputs([f1, f2], parse)
            == FrameOutputs(f1, parse) + FrameOutputs(f2, parse)
  {
    assert [f1, f2][..1] == [f1];
    assert [f1][..0] == [];
    assert FramesOutputs([f1], parse) == FrameOutputs(f1, parse);
  }

  /** A payload carrying one agent entry with non-empty content and nothing else decodes to
      that one agent message. */
  lemma SingleAgentMessage(text: string)
    requires text != ""
    ensures UpdateOutputs(Payload(
              Some(AgentSection(Some([AgentEntry(Some(text), None)]))), None))
            == [AgentMessage(text)]
  {
    var e := AgentEntry(Some(text), None);
    assert [e][..0] == [];
    assert AgentOutputs([e]) == [AgentMessage(text)];
  }

  /** The same reply arriving on the wire as two `updates` frames in one chunk is decoded into
      the two agent messages, in order. */
  lemma HelloFromTheWire(d1: string, d2: string, parse: JsonParser)
    requires IsLineValue(d1) && d1 != "" && IsLineValue(d2) && d2 != ""
    requires parse(d1) == Some(Truthy(Payload(
               Some(AgentSection(Some([AgentEntry(Some("Hel"), None)]))), None)))
    requires parse(d2) == Some(Truthy(Payload(
               Some(AgentSection(Some([AgentEntry(Some("lo!"), None)]))), None)))
    ensures ChunkOutputs(
              Serialize([EncodeFrame("updates", d1), EncodeFrame("updates", d2)]), parse)
            == [AgentMessage("Hel"), AgentMessage("lo!")]
  {
    TwoUpdatesFrames(d1, d2, parse, parse(d1).value.payload, parse(d2).value.payload);
    SingleAgentMessage("Hel");
    SingleAgentMessage("lo!");
  }
}
