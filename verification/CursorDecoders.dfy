/** The two decoders of a Cursor response, one to JSON and one to server-sent events
    (open-sse/executors/cursor.js). Both walk the same frames and are written independently. */
module CursorDecoders {
  import opened Basics
  import opened Bytes
  import opened CursorTools
  import opened Text

  /** A frame that looks like a JSON error: not so, so but no valid JSON, or with the reply it gives. */
  datatype JsonError = NotError | Unparsable | ErrorReply(body: string)

  /** What decompression and protobuf decoding make of a frame; absent texts are empty. */
  datatype Frame = Frame(json: JsonError, error: string, tool: Option<Fragment>, text: string, thinking: string)

  datatype Failure = JsonFailure(body: string) | RateLimited(message: string)

  datatype Stop = Running | Broke | Failed(failure: Failure)

  /** Whether a frame stops the decoding. An error counts as one only while nothing has been decoded;
      after that it ends the response. An error frame that is no valid JSON is decoded like any other. */
  function Verdict(f: Frame, hasContent: bool): Stop {
    if !f.json.NotError? && hasContent then Broke
    else if f.json.ErrorReply? then Failed(JsonFailure(f.json.body))
    else if f.error != "" then (if hasContent then Broke else Failed(RateLimited(f.error)))
    else Running
  }

  // ---------------------------------------------------------------- to JSON

  /** `tools` is the map of calls, in insertion order; `calls` the list for the answer. `taken` records
      the fragments decoded. */
  datatype Json = Json(content: string, thinking: string, tools: seq<Call>, calls: seq<Call>, finalized: set<string>,
                       stop: Stop, taken: seq<Fragment>)

  const JSON_START := Json("", "", [], [], {}, Running, [])

  function JsonTool(s: Json, f: Fragment): Json {
    var t := s.(tools := Join(s.tools, f), taken := s.taken + [f]);
    if f.isLast then t.(calls := s.calls + [Extended(At(s.tools, f.id), f)], finalized := s.finalized + {f.id}) else t
  }

  function JsonStep(s: Json, f: Frame): Json {
    if !s.stop.Running? then s
    else
      var stop := Verdict(f, s.content != "" || s.tools != []);
      if !stop.Running? then s.(stop := stop)
      else
        var t := if f.tool.Some? then JsonTool(s, f.tool.value) else s;
        t.(content := t.content + f.text, thinking := t.thinking + f.thinking)
  }

  function JsonRun(fs: seq<Frame>): Json {
    if fs == [] then JSON_START else JsonStep(JsonRun(fs[..|fs| - 1]), fs[|fs| - 1])
  }

  function NotIn(ids: set<string>): Call -> bool { (c: Call) => c.id !in ids }

  datatype Answer = ErrorAnswer(failure: Failure) | Message(content: string, calls: seq<Call>, toolFinish: bool)

  /** `visible` is what a composer model's thinking shows; other models show none of it. */
  function JsonAnswer(s: Json, composer: bool, visible: string -> string): Answer {
    if s.stop.Failed? then ErrorAnswer(s.stop.failure)
    else
      var calls := s.calls + Filter(NotIn(s.finalized), s.tools);
      Message(if s.content != "" then s.content else if composer then visible(s.thinking) else "", calls, |calls| > 0)
  }

  // ---------------------------------------------------------------- to server-sent events

  datatype Delta = TextDelta(role: bool, text: string) | ToolDelta(index: nat, id: string, name: string, args: string)

  datatype Entry = Entry(index: nat, name: string, args: string)

  datatype Sse = Sse(content: string, thinking: string, shown: nat, chunks: seq<Delta>, tools: map<string, Entry>,
                     ids: seq<string>, finalized: set<string>, stop: Stop, taken: seq<Fragment>)

  const SSE_START := Sse("", "", 0, [], map[], [], {}, Running, [])

  function SseTool(s: Sse, f: Fragment): Sse {
    var chunks := if s.chunks == [] then [TextDelta(true, "")] else s.chunks;
    var t := s.(chunks := chunks, taken := s.taken + [f]);
    if f.id in s.tools then
      var e := s.tools[f.id];
      var u := t.(tools := s.tools[f.id := e.(args := e.args + f.args)]);
      if f.args != "" then u.(chunks := chunks + [ToolDelta(e.index, f.id, f.name, f.args)]) else u
    else
      t.(ids := s.ids + [f.id], finalized := s.finalized + {f.id},
         tools := s.tools[f.id := Entry(|s.ids|, f.name, f.args)],
         chunks := chunks + [ToolDelta(|s.ids|, f.id, f.name, f.args)])
  }

  function SseText(s: Sse, text: string): Sse {
    if text == "" then s
    else s.(content := s.content + text, chunks := s.chunks + [TextDelta(s.chunks == [] && s.ids == [], text)])
  }

  /** A composer model's thinking shows what lies behind its end tag, as far as it was not shown yet. */
  function SseThinking(s: Sse, visible: string -> string, thinking: string): Sse {
    if thinking == "" then s
    else
      var all := s.thinking + thinking;
      var t := s.(thinking := all);
      if |visible(all)| > s.shown then SseText(t, visible(all)[s.shown..]).(shown := |visible(all)|) else t
  }

  function SseStep(s: Sse, composer: bool, visible: string -> string, f: Frame): Sse {
    if !s.stop.Running? then s
    else
      var stop := Verdict(f, s.chunks != [] || s.content != "" || s.tools != map[]);
      if !stop.Running? then s.(stop := stop)
      else
        var t := if f.tool.Some? then SseTool(s, f.tool.value) else s;
        var u := SseText(t, f.text);
        if composer then SseThinking(u, visible, f.thinking) else u
  }

  function SseRun(composer: bool, visible: string -> string, fs: seq<Frame>): Sse {
    if fs == [] then SSE_START
    else SseStep(SseRun(composer, visible, fs[..|fs| - 1]), composer, visible, fs[|fs| - 1])
  }

  datatype Stream = ErrorStream(failure: Failure) | Stream(deltas: seq<Delta>, toolFinish: bool)

  function SseAnswer(s: Sse): Stream {
    if s.stop.Failed? then ErrorStream(s.stop.failure)
    else Stream(if s.chunks == [] && s.ids == [] then [TextDelta(true, "")] else s.chunks, |s.ids| > 0)
  }

  // ---------------------------------------------------------------- what a client puts together

  function TextOf(ds: seq<Delta>): string {
    if ds == [] then ""
    else TextOf(ds[..|ds| - 1]) + (if ds[|ds| - 1].TextDelta? then ds[|ds| - 1].text else "")
  }

  /** Deltas of a known index bring more arguments; the next index is a new call. */
  function CallsOf(ds: seq<Delta>): seq<Call> {
    if ds == [] then []
    else
      var calls := CallsOf(ds[..|ds| - 1]);
      match ds[|ds| - 1]
      case TextDelta(_, _) => calls
      case ToolDelta(index, id, name, args) =>
        if index < |calls| then calls[index := calls[index].(args := calls[index].args + args)]
        else calls + [Call(id, name, args)]
  }

  /** The first delta has the role, and no other. */
  ghost predicate RolesOk(ds: seq<Delta>) {
    forall k :: 0 <= k < |ds| ==>
      (k == 0 ==> ds[k].TextDelta? && ds[k].role) && (k > 0 && ds[k].TextDelta? ==> !ds[k].role)
  }

  // ---------------------------------------------------------------- the JSON decoder

  function Calls(id: string, name: string, args: seq<string>): seq<Call> {
    seq(|args|, k requires 0 <= k < |args| => Call(id, name, args[k]))
  }

  /** A call is listed once per mark, each time with the arguments so far. */
  function Listed(fs: seq<Fragment>, id: string): seq<Call> {
    if Known(fs, id) then Calls(id, NameOf(fs, id), Lasts(fs, id)) else []
  }

  ghost predicate JsonOk(s: Json) {
    && s.tools == Gather(s.taken)
    && (forall id :: Of(s.calls, id) == Listed(s.taken, id))
    && (forall id :: id in s.finalized <==> Marked(s.taken, id))
  }

  lemma GatherSnoc(fs: seq<Fragment>, f: Fragment)
    ensures Gather(fs + [f]) == Join(Gather(fs), f)
  {
    assert (fs + [f])[..|fs|] == fs;
  }

  lemma ListedStep(fs: seq<Fragment>, f: Fragment, id: string)
    ensures Listed(fs + [f], id) ==
              Listed(fs, id) + (if f.id == id && f.isLast then [Extended(Meant(fs, id), f)] else [])
  {
    assert (fs + [f])[..|fs|] == fs && (fs + [f])[|fs|] == f;
    MeantStep(fs + [f], id);
    LastsStep(fs, f, id);
    if !Known(fs, id) { NeverMarked(fs, id); }
    hide Lasts, ArgsOf;
  }

  lemma {:induction false} NeverMarked(fs: seq<Fragment>, id: string)
    requires !Known(fs, id)
    ensures Lasts(fs, id) == []
  {
    if fs != [] { NeverMarked(fs[..|fs| - 1], id); }
  }

  lemma JsonToolKeeps(s: Json, f: Fragment)
    requires JsonOk(s)
    ensures JsonOk(JsonTool(s, f))
  {
    hide Gather, Join, Of, Listed, Marked, At;
    var t := JsonTool(s, f);
    GatherSnoc(s.taken, f);
    GatherMeans(s.taken, f.id);
    var c := Extended(At(s.tools, f.id), f);
    assert c.id == f.id;
    forall id ensures Of(t.calls, id) == Listed(t.taken, id) && (id in t.finalized <==> Marked(t.taken, id)) {
      ListedStep(s.taken, f, id);
      MarkStep(s.taken, f, id);
      ListedCall(s.calls, c, id);
    }
  }

  lemma ListedCall(calls: seq<Call>, c: Call, id: string)
    ensures Of(calls + [c], id) == Of(calls, id) + (if c.id == id then [c] else [])
    ensures Of(calls, id) + [] == Of(calls, id)
  {
    assert (calls + [c])[..|calls|] == calls;
  }

  lemma {:induction false} JsonInv(fs: seq<Frame>)
    ensures JsonOk(JsonRun(fs))
  {
    if fs != [] {
      hide JsonOk;
      JsonInv(fs[..|fs| - 1]);
      JsonStepKeeps(JsonRun(fs[..|fs| - 1]), fs[|fs| - 1]);
    } else {
      assert Gather([]) == [];
    }
  }

  lemma JsonStepKeeps(s: Json, f: Frame)
    requires JsonOk(s)
    ensures JsonOk(JsonStep(s, f))
  {
    hide Gather, Of, Listed, Marked, JsonTool;
    if f.tool.Some? { JsonToolKeeps(s, f.tool.value); }
  }

  // ---------------------------------------------------------------- the answer in JSON

  /** What the answer lists for an id: the calls at its marks, or else the whole call. */
  lemma JsonCalls(s: Json, id: string)
    requires JsonOk(s)
    ensures Of(s.calls + Filter(NotIn(s.finalized), s.tools), id) ==
              if Marked(s.taken, id) then Listed(s.taken, id) else Of(s.tools, id)
  {
    OfConcat(s.calls, Filter(NotIn(s.finalized), s.tools), id);
    OfFiltered(s.tools, s.finalized, id);
    LastsMeans(s.taken, id);
    hide Of, Gather, Filter, MarkKept, ArgsOf, Lasts, Marked;
    assert Listed(s.taken, id) + [] == Listed(s.taken, id);
  }

  lemma {:induction false} OfFiltered(calls: seq<Call>, ids: set<string>, id: string)
    ensures Of(Filter(NotIn(ids), calls), id) == if id in ids then [] else Of(calls, id)
  {
    if calls != [] {
      var init, last := calls[..|calls| - 1], calls[|calls| - 1];
      OfFiltered(init, ids, id);
      if last.id !in ids {
        ListedCall(Filter(NotIn(ids), init), last, id);
      } else {
        assert Filter(NotIn(ids), calls) == Filter(NotIn(ids), init);
      }
    }
  }

  /** The whole call, as the fragments mean it. */
  lemma WholeCall(fs: seq<Fragment>, id: string)
    ensures Of(Gather(fs), id) == match Meant(fs, id) case Some(c) => [c] case None => []
  {
    GatherMeans(fs, id);
    OfDistinct(Gather(fs), id);
  }

  lemma MarkedKnown(fs: seq<Fragment>, id: string)
    requires !Known(fs, id)
    ensures !Marked(fs, id)
  {
    NeverMarked(fs, id);
    LastsMeans(fs, id);
  }

  /** The answer has the whole calls of an id exactly when its mark is kept. */
  lemma JsonCallsWhole(s: Json, id: string)
    requires JsonOk(s)
    ensures Of(s.calls + Filter(NotIn(s.finalized), s.tools), id) == Of(Gather(s.taken), id) <==> MarkKept(s.taken, id)
  {
    JsonCalls(s, id);
    WholeCall(s.taken, id);
    LastsMeans(s.taken, id);
    if !Known(s.taken, id) { MarkedKnown(s.taken, id); }
    hide Of, Gather, Filter, MarkKept, ArgsOf, Lasts, Marked, Calls;
    if Known(s.taken, id) {
      OneCall(id, NameOf(s.taken, id), Lasts(s.taken, id), ArgsOf(s.taken, id));
    }
  }

  lemma OneCall(id: string, name: string, args: seq<string>, all: string)
    ensures Calls(id, name, args) == [Call(id, name, all)] <==> args == [all]
  {
    var calls := Calls(id, name, args);
    if calls == [Call(id, name, all)] {
      assert |args| == 1 && calls[0].args == args[0];
    }
  }

  // ---------------------------------------------------------------- the event decoder

  function Ids(calls: seq<Call>): seq<string> { seq(|calls|, k requires 0 <= k < |calls| => calls[k].id) }

  /** The map holds each call with its place. */
  ghost predicate Placed(tools: map<string, Entry>, calls: seq<Call>) {
    && (forall k :: 0 <= k < |calls| ==>
          calls[k].id in tools && tools[calls[k].id] == Entry(k, calls[k].name, calls[k].args))
    && (forall id :: id in tools ==> tools[id].index < |calls| && calls[tools[id].index].id == id)
  }

  ghost predicate SseOk(s: Sse) {
    && CallsOf(s.chunks) == Gather(s.taken)
    && Placed(s.tools, Gather(s.taken))
    && s.ids == Ids(Gather(s.taken)) && s.finalized == s.tools.Keys
    && TextOf(s.chunks) == s.content
    && RolesOk(s.chunks)
    && (s.chunks == [] <==> s.content == "" && s.ids == [])
  }

  lemma DeltaSnoc(ds: seq<Delta>, d: Delta)
    ensures TextOf(ds + [d]) == TextOf(ds) + (if d.TextDelta? then d.text else "")
    ensures d.TextDelta? ==> CallsOf(ds + [d]) == CallsOf(ds)
    ensures d.ToolDelta? && d.index < |CallsOf(ds)| ==>
              CallsOf(ds + [d]) ==
                CallsOf(ds)[d.index := CallsOf(ds)[d.index].(args := CallsOf(ds)[d.index].args + d.args)]
    ensures d.ToolDelta? && d.index >= |CallsOf(ds)| ==> CallsOf(ds + [d]) == CallsOf(ds) + [Call(d.id, d.name, d.args)]
    ensures RolesOk(ds) && (if ds == [] then d.TextDelta? && d.role else d.TextDelta? ==> !d.role) ==> RolesOk(ds + [d])
  {
    assert (ds + [d])[..|ds|] == ds;
  }

  lemma PlacedFind(tools: map<string, Entry>, calls: seq<Call>, id: string)
    requires Placed(tools, calls) && DistinctIds(calls)
    ensures Find(calls, id) == if id in tools then Some(tools[id].index) else None
  {
    if id in tools { FindAt(calls, tools[id].index); }
    hide Find;
    match Find(calls, id)
    case Some(k) => assert calls[k].id in tools;
    case None =>
  }

  lemma PlacedMore(tools: map<string, Entry>, calls: seq<Call>, id: string, args: string)
    requires Placed(tools, calls) && DistinctIds(calls) && id in tools
    ensures var k := tools[id].index;
            var calls' := calls[k := calls[k].(args := calls[k].args + args)];
            && Placed(tools[id := tools[id].(args := tools[id].args + args)], calls')
            && Ids(calls') == Ids(calls)
  {
  }

  lemma PlacedNew(tools: map<string, Entry>, calls: seq<Call>, f: Fragment)
    requires Placed(tools, calls) && f.id !in tools
    ensures var calls' := calls + [Call(f.id, f.name, f.args)];
            && Placed(tools[f.id := Entry(|calls|, f.name, f.args)], calls')
            && Ids(calls') == Ids(calls) + [f.id]
  {
  }

  /** Opening the stream changes nothing but the role. */
  function Opened(ds: seq<Delta>): seq<Delta> { if ds == [] then [TextDelta(true, "")] else ds }

  lemma OpenedKeeps(ds: seq<Delta>)
    requires RolesOk(ds)
    ensures RolesOk(Opened(ds)) && CallsOf(Opened(ds)) == CallsOf(ds) && TextOf(Opened(ds)) == TextOf(ds)
  {
    if ds == [] {
      assert Opened(ds)[..0] == [];
      assert CallsOf([]) == [] && TextOf([]) == "";
    }
  }

  lemma SseToolKeeps(s: Sse, f: Fragment)
    requires SseOk(s)
    ensures SseOk(SseTool(s, f))
  {
    hide Gather, CallsOf, TextOf, Placed, RolesOk, Find, DistinctIds;
    var calls := Gather(s.taken);
    GatherSnoc(s.taken, f);
    GatherMeans(s.taken, f.id);
    PlacedFind(s.tools, calls, f.id);
    OpenedKeeps(s.chunks);
    var ds := Opened(s.chunks);
    assert |s.ids| == |calls|;
    if f.id in s.tools {
      PlacedMore(s.tools, calls, f.id, f.args);
      DeltaSnoc(ds, ToolDelta(s.tools[f.id].index, f.id, f.name, f.args));
      if f.args == "" { NoMoreArgs(calls, s.tools[f.id].index); }
    } else {
      PlacedNew(s.tools, calls, f);
      DeltaSnoc(ds, ToolDelta(|s.ids|, f.id, f.name, f.args));
    }
  }

  lemma NoMoreArgs(calls: seq<Call>, k: nat)
    requires k < |calls|
    ensures calls[k := calls[k].(args := calls[k].args + "")] == calls
  {
    assert calls[k].args + "" == calls[k].args;
  }

  lemma SseTextKeeps(s: Sse, text: string)
    requires SseOk(s)
    ensures SseOk(SseText(s, text))
  {
    hide Gather, CallsOf, TextOf, Placed, RolesOk;
    DeltaSnoc(s.chunks, TextDelta(s.chunks == [] && s.ids == [], text));
  }

  lemma SseStepKeeps(s: Sse, composer: bool, visible: string -> string, f: Frame)
    requires SseOk(s)
    ensures SseOk(SseStep(s, composer, visible, f))
  {
    hide Gather, CallsOf, TextOf, Placed, RolesOk, SseTool, SseText;
    var t := if f.tool.Some? then SseTool(s, f.tool.value) else s;
    if f.tool.Some? { SseToolKeeps(s, f.tool.value); }
    SseTextKeeps(t, f.text);
    var u := SseText(t, f.text);
    var all := u.thinking + f.thinking;
    if |visible(all)| > u.shown {
      SseTextKeeps(u.(thinking := all), visible(all)[u.shown..]);
    }
  }

  lemma {:induction false} SseInv(composer: bool, visible: string -> string, fs: seq<Frame>)
    ensures SseOk(SseRun(composer, visible, fs))
  {
    if fs != [] {
      hide SseOk;
      SseInv(composer, visible, fs[..|fs| - 1]);
      SseStepKeeps(SseRun(composer, visible, fs[..|fs| - 1]), composer, visible, fs[|fs| - 1]);
    } else {
      assert Gather([]) == [] && Ids([]) == [];
    }
  }

  // ---------------------------------------------------------------- they agree

  ghost predicate Same(j: Json, s: Sse) { j.stop == s.stop && j.content == s.content && j.taken == s.taken }

  lemma {:induction false} GatherSome(fs: seq<Fragment>)
    ensures Gather(fs) == [] <==> fs == []
  {
    if fs != [] { GatherSome(fs[..|fs| - 1]); }
  }

  /** Both decoders see content in the same states. */
  lemma SameContent(j: Json, s: Sse)
    requires JsonOk(j) && SseOk(s) && Same(j, s)
    ensures j.content != "" || j.tools != [] <==> s.chunks != [] || s.content != "" || s.tools != map[]
  {
    hide Gather, CallsOf, TextOf, RolesOk, Of, Listed, Marked;
    var calls := Gather(s.taken);
    if calls != [] { assert calls[0].id in s.tools; }
    if s.tools != map[] {
      var id :| id in s.tools;
      assert s.tools[id].index < |calls|;
    }
  }

  lemma StepSame(j: Json, s: Sse, visible: string -> string, f: Frame)
    requires JsonOk(j) && SseOk(s) && Same(j, s)
    ensures Same(JsonStep(j, f), SseStep(s, false, visible, f))
  {
    SameContent(j, s);
    if f.tool.Some? { ToolLeaves(j, s, f.tool.value); }
    SseTextAdds(if f.tool.Some? then SseTool(s, f.tool.value) else s, f.text);
    hide JsonOk, SseOk, Verdict, JsonTool, SseTool, SseText;
  }

  /** A fragment changes neither the text nor the stop. */
  lemma ToolLeaves(j: Json, s: Sse, f: Fragment)
    ensures var t := JsonTool(j, f); t.content == j.content && t.stop == j.stop && t.taken == j.taken + [f]
    ensures var t := SseTool(s, f); t.content == s.content && t.stop == s.stop && t.taken == s.taken + [f]
  {
    hide Join;
  }

  lemma SseTextAdds(s: Sse, text: string)
    ensures var t := SseText(s, text); t.content == s.content + text && t.stop == s.stop && t.taken == s.taken
  {
    if text == "" { assert s.content + "" == s.content; }
  }

  lemma {:induction false} RunSame(visible: string -> string, fs: seq<Frame>)
    ensures Same(JsonRun(fs), SseRun(false, visible, fs))
  {
    if fs != [] {
      hide JsonStep, SseStep, Same;
      RunSame(visible, fs[..|fs| - 1]);
      JsonInv(fs[..|fs| - 1]);
      SseInv(false, visible, fs[..|fs| - 1]);
      StepSame(JsonRun(fs[..|fs| - 1]), SseRun(false, visible, fs[..|fs| - 1]), visible, fs[|fs| - 1]);
    }
  }

  /** What a client puts together from the events, for any model: the first delta, and only it, has the
      role; the calls are those the fragments mean, numbered as their ids first appear. */
  lemma StreamShape(composer: bool, visible: string -> string, fs: seq<Frame>)
    ensures var s := SseRun(composer, visible, fs);
            SseAnswer(s).Stream? ==>
              && SseAnswer(s).deltas != [] && RolesOk(SseAnswer(s).deltas)
              && TextOf(SseAnswer(s).deltas) == s.content
              && CallsOf(SseAnswer(s).deltas) == Gather(s.taken)
              && (SseAnswer(s).toolFinish <==> s.taken != [])
  {
    SseInv(composer, visible, fs);
    var s := SseRun(composer, visible, fs);
    GatherSome(s.taken);
    hide SseRun, Gather, Placed, CallsOf, TextOf;
    OpenedKeeps(s.chunks);
  }

  lemma SomeCall(calls: seq<Call>)
    ensures calls == [] || Of(calls, calls[|calls| - 1].id) != []
  {
  }

  /** The JSON answer has tool calls exactly when there were fragments. */
  lemma JsonFinish(s: Json)
    requires JsonOk(s)
    ensures s.calls + Filter(NotIn(s.finalized), s.tools) != [] <==> s.taken != []
  {
    var calls := s.calls + Filter(NotIn(s.finalized), s.tools);
    GatherSome(s.taken);
    if s.taken == [] {
      SomeCall(s.calls);
    } else {
      hide Of, Listed, Marked, Filter, Gather;
      HasCall(s);
    }
  }

  lemma HasCall(s: Json)
    requires JsonOk(s) && s.taken != []
    ensures s.calls + Filter(NotIn(s.finalized), s.tools) != []
  {
    var id := s.taken[|s.taken| - 1].id;
    assert Known(s.taken, id);
    JsonCalls(s, id);
    WholeCall(s.taken, id);
    LastsMeans(s.taken, id);
    hide Gather, Filter, Lasts, MarkKept, ArgsOf, NameOf, Known, Marked;
    assert Of([], id) == [];
  }

  /** The two answers, for a model that is no composer. They are errors together and then the same
      error; otherwise the text and the finish reason are always the same, and the tool calls are the
      same for every id if and only if every id's mark is kept. */
  ghost predicate AnswersAgree(a: Answer, b: Stream, taken: seq<Fragment>) {
    match (a, b)
    case (ErrorAnswer(x), ErrorStream(y)) => x == y
    case (Message(content, calls, toolFinish), Stream(deltas, toolFinish')) =>
      && content == TextOf(deltas) && toolFinish == toolFinish'
      && (SameCalls(calls, CallsOf(deltas)) <==> forall id :: MarkKept(taken, id))
    case _ => false
  }

  lemma DecodersAgree(visible: string -> string, fs: seq<Frame>)
    ensures AnswersAgree(JsonAnswer(JsonRun(fs), false, visible), SseAnswer(SseRun(false, visible, fs)),
                         SseRun(false, visible, fs).taken)
  {
    var j, s := JsonRun(fs), SseRun(false, visible, fs);
    JsonInv(fs);
    RunSame(visible, fs);
    StreamShape(false, visible, fs);
    JsonFinish(j);
    forall id
      ensures Of(j.calls + Filter(NotIn(j.finalized), j.tools), id) == Of(Gather(s.taken), id) <==>
                MarkKept(s.taken, id)
    {
      JsonCallsWhole(j, id);
    }
    hide JsonRun, SseRun, Of, Gather, Filter, MarkKept, TextOf, CallsOf, JsonOk, RolesOk;
  }
}
