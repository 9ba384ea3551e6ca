/** The byte frames of a Cursor response and the two loops that decode them
    (open-sse/executors/cursor.js). */
module CursorFrames {
  import opened Basics
  import opened Bytes
  import opened CursorTools
  import opened CursorDecoders

  /** `read` stands for decompression and protobuf decoding, given a frame's flags and payload. */
  type Reader = (byte, seq<byte>) -> Frame

  /** Where the frame at `offset` ends, if it is there in full. */
  function FrameEnd(b: seq<byte>, offset: nat): (r: Option<nat>)
    ensures r.Some? ==> offset + 5 <= r.value <= |b|
  {
    if offset + 5 > |b| || offset + 5 + U32(b, offset + 1) > |b| then None else Some(offset + 5 + U32(b, offset + 1))
  }

  /** All complete frames from `offset` on. */
  function Frames(b: seq<byte>, read: Reader, offset: nat): seq<Frame>
    decreases |b| - offset
  {
    match FrameEnd(b, offset)
    case None => []
    case Some(end) => [read(b[offset], b[offset + 5..end])] + Frames(b, read, end)
  }

  // ---------------------------------------------------------------- framing

  datatype Packet = Packet(flags: byte, payload: seq<byte>)

  function Pack(p: Packet): seq<byte>
    requires |p.payload| < TWO32
  {
    [p.flags] + PutU32(|p.payload|) + p.payload
  }

  function PackAll(ps: seq<Packet>): seq<byte>
    requires forall p :: p in ps ==> |p.payload| < TWO32
  {
    if ps == [] then [] else Pack(ps[0]) + PackAll(ps[1..])
  }

  function ReadAll(read: Reader, ps: seq<Packet>): seq<Frame> {
    seq(|ps|, i requires 0 <= i < |ps| => read(ps[i].flags, ps[i].payload))
  }

  lemma FirstPacket(before: seq<byte>, p: Packet, behind: seq<byte>)
    requires |p.payload| < TWO32
    ensures var b := before + (Pack(p) + behind);
            var end := |before| + |Pack(p)|;
            && FrameEnd(b, |before|) == Some(end)
            && b[|before|] == p.flags && b[|before| + 5..end] == p.payload
  {
    var b, n := before + (Pack(p) + behind), |before|;
    assert Pack(p)[1..5] == PutU32(|p.payload|) && Pack(p)[5..] == p.payload;
    assert b[n + 1..n + 5] == PutU32(|p.payload|);
    assert U32(b, n + 1) == U32(b[n + 1..n + 5], 0);
    hide PutU32;
  }

  /** Packets laid end to end are read back one by one; an incomplete one at the end is ignored. */
  lemma {:induction false} FramesRoundTrip(before: seq<byte>, ps: seq<Packet>, rest: seq<byte>, read: Reader)
    requires forall p :: p in ps ==> |p.payload| < TWO32
    requires FrameEnd(before + (PackAll(ps) + rest), |before + PackAll(ps)|).None?
    ensures Frames(before + (PackAll(ps) + rest), read, |before|) == ReadAll(read, ps)
    decreases |ps|
  {
    var b := before + (PackAll(ps) + rest);
    if ps != [] {
      hide FrameEnd, Pack;
      var p, more := Pack(ps[0]), PackAll(ps[1..]);
      FirstPacket(before, ps[0], more + rest);
      Assoc(p, more, rest);
      Assoc(before, p, more + rest);
      Assoc(before, p, more);
      FramesRoundTrip(before + p, ps[1..], rest, read);
      assert ReadAll(read, ps) == [read(ps[0].flags, ps[0].payload)] + ReadAll(read, ps[1..]);
    } else {
      assert ReadAll(read, ps) == [];
      assert before + PackAll(ps) == before;
    }
  }

  // ---------------------------------------------------------------- the loops

  lemma {:induction false} JsonStopped(fs: seq<Frame>, more: seq<Frame>)
    requires !JsonRun(fs).stop.Running?
    ensures JsonRun(fs + more) == JsonRun(fs)
  {
    if more == [] {
      assert fs + more == fs;
    } else {
      JsonStopped(fs, more[..|more| - 1]);
      assert (fs + more)[..|fs + more| - 1] == fs + more[..|more| - 1];
    }
  }

  lemma {:induction false} SseStopped(composer: bool, visible: string -> string, fs: seq<Frame>, more: seq<Frame>)
    requires !SseRun(composer, visible, fs).stop.Running?
    ensures SseRun(composer, visible, fs + more) == SseRun(composer, visible, fs)
  {
    if more == [] {
      assert fs + more == fs;
    } else {
      SseStopped(composer, visible, fs, more[..|more| - 1]);
      assert (fs + more)[..|fs + more| - 1] == fs + more[..|more| - 1];
    }
  }

  /** The next frame joins those done. */
  lemma NextFrame(b: seq<byte>, read: Reader, offset: nat, done: seq<Frame>)
    requires FrameEnd(b, offset).Some? && Frames(b, read, 0) == done + Frames(b, read, offset)
    ensures var end := FrameEnd(b, offset).value;
            Frames(b, read, 0) == done + [read(b[offset], b[offset + 5..end])] + Frames(b, read, end)
  {
    var end := FrameEnd(b, offset).value;
    Assoc(done, [read(b[offset], b[offset + 5..end])], Frames(b, read, end));
  }

  lemma JsonSnoc(done: seq<Frame>, f: Frame)
    ensures JsonRun(done + [f]) == JsonStep(JsonRun(done), f)
  {
    assert (done + [f])[..|done|] == done;
  }

  lemma SseSnoc(composer: bool, visible: string -> string, done: seq<Frame>, f: Frame)
    ensures SseRun(composer, visible, done + [f]) == SseStep(SseRun(composer, visible, done), composer, visible, f)
  {
    assert (done + [f])[..|done|] == done;
  }

  method ReadFrame(b: seq<byte>, read: Reader, offset: nat) returns (frame: Option<Frame>, next: nat)
    ensures match FrameEnd(b, offset)
            case None => frame.None?
            case Some(end) => frame == Some(read(b[offset], b[offset + 5..end])) && next == end
  {
    next := offset;
    if offset + 5 > |b| { return None, next; }
    var length := U32(b, offset + 1);
    if offset + 5 + length > |b| { return None, next; }
    return Some(read(b[offset], b[offset + 5..offset + 5 + length])), offset + 5 + length;
  }

  /** transformProtobufToJSON. The map of calls is kept in insertion order. */
  method TransformProtobufToJSON(buffer: seq<byte>, read: Reader, composer: bool, visible: string -> string)
    returns (answer: Answer)
    ensures answer == JsonAnswer(JsonRun(Frames(buffer, read, 0)), composer, visible)
  {
    hide JsonRun, FrameEnd, Frames, JsonTool;
    var offset := 0;
    var totalContent, totalThinking := "", "";
    var toolCalls: seq<Call>, toolCallsMap: seq<Call>, finalizedIds: set<string> := [], [], {};
    ghost var taken: seq<Fragment>, done: seq<Frame> := [], [];
    ghost var all := Frames(buffer, read, 0);
    ghost var stop := Running;
    JsonBegin();
    assert [] + all == all;
    while offset < |buffer|
      invariant offset <= |buffer| && stop.Running?
      invariant all == done + Frames(buffer, read, offset)
      invariant JsonRun(done) == Json(totalContent, totalThinking, toolCallsMap, toolCalls, finalizedIds, stop, taken)
      decreases |buffer| - offset
    {
      var frame, next := ReadFrame(buffer, read, offset);
      if frame.None? { break; }
      NextFrame(buffer, read, offset, done);
      var f := frame.value;
      JsonSnoc(done, f);
      ghost var s := JsonRun(done);
      done := done + [f];
      offset := next;
      var hasContent := totalContent != "" || toolCallsMap != [];
      if !f.json.NotError? && hasContent {
        stop := Broke;
        break;
      }
      if f.json.ErrorReply? {
        JsonStopped(done, Frames(buffer, read, offset));
        return ErrorAnswer(JsonFailure(f.json.body));
      }
      if f.error != "" {
        if hasContent {
          stop := Broke;
          break;
        }
        JsonStopped(done, Frames(buffer, read, offset));
        return ErrorAnswer(RateLimited(f.error));
      }
      if f.tool.Some? {
        toolCallsMap, toolCalls, finalizedIds := CollectTool(toolCallsMap, toolCalls, finalizedIds, f.tool.value, s);
        taken := taken + [f.tool.value];
      }
      totalContent := totalContent + f.text;
      totalThinking := totalThinking + f.thinking;
    }
    if stop.Broke? {
      JsonStopped(done, Frames(buffer, read, offset));
    } else {
      NoMoreFrames(buffer, read, offset, done);
    }
    toolCalls := FinalizeCalls(toolCalls, toolCallsMap, finalizedIds);
    return Message(if totalContent != "" then totalContent else if composer then visible(totalThinking) else "",
                   toolCalls, |toolCalls| > 0);
  }

  /** The calls that never saw a last fragment, behind the others. */
  method FinalizeCalls(calls: seq<Call>, tools: seq<Call>, finalized: set<string>) returns (toolCalls: seq<Call>)
    ensures toolCalls == calls + Filter(NotIn(finalized), tools)
  {
    toolCalls := calls;
    for i := 0 to |tools|
      invariant toolCalls == calls + Filter(NotIn(finalized), tools[..i])
    {
      assert tools[..i + 1][..i] == tools[..i];
      if tools[i].id !in finalized { toolCalls := toolCalls + [tools[i]]; }
    }
    assert tools[..|tools|] == tools;
  }

  /** One fragment in the JSON loop. */
  method CollectTool(tools: seq<Call>, calls: seq<Call>, finalized: set<string>, f: Fragment, ghost s: Json)
    returns (tools': seq<Call>, calls': seq<Call>, finalized': set<string>)
    requires s.tools == tools && s.calls == calls && s.finalized == finalized
    ensures JsonTool(s, f) == s.(tools := tools', calls := calls', finalized := finalized', taken := s.taken + [f])
  {
    tools', calls', finalized' := tools, calls, finalized;
    var k := Find(tools, f.id);
    var call;
    if k.Some? {
      call := tools[k.value].(args := tools[k.value].args + f.args);
      tools' := tools[k.value := call];
    } else {
      call := Call(f.id, f.name, f.args);
      tools' := tools + [call];
    }
    if f.isLast {
      finalized' := finalized + {f.id};
      calls' := calls + [call];
    }
  }

  /** One fragment in the event loop. */
  method StreamTool(chunks: seq<Delta>, ids: seq<string>, tools: map<string, Entry>, finalized: set<string>,
                    f: Fragment, ghost s: Sse)
    returns (chunks': seq<Delta>, ids': seq<string>, tools': map<string, Entry>, finalized': set<string>)
    requires s.chunks == chunks && s.ids == ids && s.tools == tools && s.finalized == finalized
    ensures SseTool(s, f) ==
              s.(chunks := chunks', ids := ids', tools := tools', finalized := finalized', taken := s.taken + [f])
  {
    chunks', ids', tools', finalized' := chunks, ids, tools, finalized;
    if chunks' == [] { chunks' := [TextDelta(true, "")]; }
    if f.id in tools {
      var existing := tools[f.id];
      tools' := tools[f.id := existing.(args := existing.args + f.args)];
      if f.args != "" { chunks' := chunks' + [ToolDelta(existing.index, f.id, f.name, f.args)]; }
    } else {
      var toolCallIndex := |ids|;
      finalized' := finalized + {f.id};
      ids' := ids + [f.id];
      tools' := tools[f.id := Entry(toolCallIndex, f.name, f.args)];
      chunks' := chunks' + [ToolDelta(toolCallIndex, f.id, f.name, f.args)];
    }
  }

  /** More text in the event loop. */
  method StreamText(chunks: seq<Delta>, ids: seq<string>, content: string, text: string, ghost s: Sse)
    returns (chunks': seq<Delta>, content': string)
    requires s.chunks == chunks && s.ids == ids && s.content == content
    ensures SseText(s, text) == s.(chunks := chunks', content := content')
  {
    chunks', content' := chunks, content;
    if text != "" {
      content' := content + text;
      chunks' := chunks + [TextDelta(chunks == [] && ids == [], text)];
    }
  }

  /** More thinking of a composer model. */
  method StreamThinking(chunks: seq<Delta>, ids: seq<string>, content: string, totalThinking: string, shown: nat,
                        visible: string -> string, thinking: string, ghost s: Sse)
    returns (chunks': seq<Delta>, content': string, totalThinking': string, shown': nat)
    requires s.chunks == chunks && s.ids == ids && s.content == content
    requires s.thinking == totalThinking && s.shown == shown
    ensures SseThinking(s, visible, thinking) ==
              s.(chunks := chunks', content := content', thinking := totalThinking', shown := shown')
  {
    chunks', content', totalThinking', shown' := chunks, content, totalThinking, shown;
    if thinking == "" { return; }
    totalThinking' := totalThinking + thinking;
    var visibleContent := visible(totalThinking');
    if |visibleContent| > shown {
      chunks', content' := StreamText(chunks, ids, content, visibleContent[shown..], s.(thinking := totalThinking'));
      shown' := |visibleContent|;
    }
  }

  /** transformProtobufToSSE. Every call is sent with its first fragment, so the loop that would send the
      remaining ones finds none. */
  method TransformProtobufToSSE(buffer: seq<byte>, read: Reader, composer: bool, visible: string -> string)
    returns (stream: Stream)
    ensures stream == SseAnswer(SseRun(composer, visible, Frames(buffer, read, 0)))
  {
    hide SseRun, FrameEnd, Frames, SseTool, SseText, SseThinking;
    var offset := 0;
    var totalContent, totalThinking := "", "";
    var shown: nat := 0;
    var chunks: seq<Delta>, toolCalls: seq<string>, toolCallsMap: map<string, Entry> := [], [], map[];
    var finalizedIds: set<string> := {};
    ghost var taken: seq<Fragment>, done: seq<Frame> := [], [];
    ghost var all := Frames(buffer, read, 0);
    ghost var stop := Running;
    SseBegin(composer, visible);
    assert [] + all == all;
    while offset < |buffer|
      invariant offset <= |buffer| && stop.Running?
      invariant all == done + Frames(buffer, read, offset)
      invariant SseRun(composer, visible, done)
                == Sse(totalContent, totalThinking, shown, chunks, toolCallsMap, toolCalls, finalizedIds, stop, taken)
      decreases |buffer| - offset
    {
      var frame, next := ReadFrame(buffer, read, offset);
      if frame.None? { break; }
      NextFrame(buffer, read, offset, done);
      var f := frame.value;
      SseSnoc(composer, visible, done, f);
      ghost var s := SseRun(composer, visible, done);
      done := done + [f];
      offset := next;
      var hasContent := chunks != [] || totalContent != "" || toolCallsMap != map[];
      if !f.json.NotError? && hasContent {
        stop := Broke;
        break;
      }
      if f.json.ErrorReply? {
        SseStopped(composer, visible, done, Frames(buffer, read, offset));
        return ErrorStream(JsonFailure(f.json.body));
      }
      if f.error != "" {
        if hasContent {
          stop := Broke;
          break;
        }
        SseStopped(composer, visible, done, Frames(buffer, read, offset));
        return ErrorStream(RateLimited(f.error));
      }
      if f.tool.Some? {
        chunks, toolCalls, toolCallsMap, finalizedIds :=
          StreamTool(chunks, toolCalls, toolCallsMap, finalizedIds, f.tool.value, s);
        taken := taken + [f.tool.value];
      }
      ghost var t := if f.tool.Some? then SseTool(s, f.tool.value) else s;
      chunks, totalContent := StreamText(chunks, toolCalls, totalContent, f.text, t);
      if composer {
        chunks, totalContent, totalThinking, shown :=
          StreamThinking(chunks, toolCalls, totalContent, totalThinking, shown, visible, f.thinking,
                         SseText(t, f.text));
      }
    }
    if stop.Broke? {
      SseStopped(composer, visible, done, Frames(buffer, read, offset));
    } else {
      NoMoreFrames(buffer, read, offset, done);
    }
    AllFinalized(composer, visible, done);
    for i := 0 to |toolCalls|
    {
      var id := toolCalls[i];
      if id !in finalizedIds {
        assert false;
      }
    }
    if chunks == [] && toolCalls == [] { chunks := [TextDelta(true, "")]; }
    return Stream(chunks, |toolCalls| > 0);
  }

  lemma AllFinalized(composer: bool, visible: string -> string, fs: seq<Frame>)
    ensures var s := SseRun(composer, visible, fs); forall i :: 0 <= i < |s.ids| ==> s.ids[i] in s.finalized
  {
    SseInv(composer, visible, fs);
    hide SseRun, CallsOf, TextOf, RolesOk, Gather;
  }

  lemma JsonBegin()
    ensures JsonRun([]) == JSON_START
  {
  }

  lemma SseBegin(composer: bool, visible: string -> string)
    ensures SseRun(composer, visible, []) == SSE_START
  {
  }

  lemma NoMoreFrames(b: seq<byte>, read: Reader, offset: nat, done: seq<Frame>)
    requires FrameEnd(b, offset).None?
    ensures done + Frames(b, read, offset) == done
  {
  }
}
