/** The two Cursor decoders for composer models (open-sse/executors/cursor.js). Such a model may answer
    through its thinking: what stands behind an end tag there is shown. The JSON decoder looks at the whole
    thinking, and only if there is no text; the event decoder sends what has become visible as it comes. */
module CursorComposer {
  import opened Basics
  import opened Text
  import opened CursorTools
  import opened CursorDecoders

  // ---------------------------------------------------------------- what the frames bring

  function Thinking(fs: seq<Frame>): string {
    if fs == [] then "" else Thinking(fs[..|fs| - 1]) + fs[|fs| - 1].thinking
  }

  function Texts(fs: seq<Frame>): string {
    if fs == [] then "" else Texts(fs[..|fs| - 1]) + fs[|fs| - 1].text
  }

  predicate HasTool(fs: seq<Frame>) { fs != [] && (fs[|fs| - 1].tool.Some? || HasTool(fs[..|fs| - 1])) }

  /** Neither text nor tools. */
  predicate Bare(fs: seq<Frame>) { Texts(fs) == "" && !HasTool(fs) }

  /** What is sent from the thinking alone: with each piece of it, the part of what is visible that is longer
      than anything visible before. */
  datatype Shown = Shown(thinking: string, length: nat, text: string)

  function ShownBy(visible: string -> string, fs: seq<Frame>): Shown {
    if fs == [] then Shown("", 0, "") else Show(ShownBy(visible, fs[..|fs| - 1]), visible, fs[|fs| - 1].thinking)
  }

  function Show(s: Shown, visible: string -> string, thinking: string): Shown {
    if thinking == "" then s
    else
      var all := s.thinking + thinking;
      if |visible(all)| > s.length then Shown(all, |visible(all)|, s.text + visible(all)[s.length..])
      else s.(thinking := all)
  }

  /** An error frame: one that holds an error or looks like one. */
  predicate Troubled(f: Frame) { !f.json.NotError? || f.error != "" }

  /** One that fails the response if nothing came before it. One that only looks like an error is decoded. */
  predicate Fatal(f: Frame) { f.json.ErrorReply? || f.error != "" }

  function FailureOf(f: Frame): Failure
    requires Fatal(f)
  {
    if f.json.ErrorReply? then JsonFailure(f.json.body) else RateLimited(f.error)
  }

  function FirstFatal(fs: seq<Frame>): (r: Option<nat>)
    ensures r.Some? ==> r.value < |fs| && Fatal(fs[r.value])
  {
    if fs == [] then None
    else
      match FirstFatal(fs[..|fs| - 1])
      case Some(n) => Some(n)
      case None => if Fatal(fs[|fs| - 1]) then Some(|fs| - 1) else None
  }

  // ---------------------------------------------------------------- the decoders while they run

  /** Text and what was shown, in some order. */
  ghost predicate Mixed(content: string, texts: string, shown: string) {
    && |content| == |texts| + |shown|
    && (texts == "" ==> content == shown)
    && (shown == "" ==> content == texts)
  }

  ghost predicate JsonHas(j: Json, fs: seq<Frame>) {
    j.content == Texts(fs) && j.thinking == Thinking(fs) && (j.tools != [] <==> HasTool(fs))
  }

  ghost predicate SseHas(s: Sse, visible: string -> string, fs: seq<Frame>) {
    var shown := ShownBy(visible, fs);
    && s.thinking == shown.thinking == Thinking(fs) && s.shown == shown.length
    && Mixed(s.content, Texts(fs), shown.text)
    && (s.ids != [] <==> HasTool(fs))
  }

  lemma Snoc(visible: string -> string, fs: seq<Frame>, f: Frame)
    ensures Texts(fs + [f]) == Texts(fs) + f.text && Thinking(fs + [f]) == Thinking(fs) + f.thinking
    ensures HasTool(fs + [f]) <==> HasTool(fs) || f.tool.Some?
    ensures ShownBy(visible, fs + [f]) == Show(ShownBy(visible, fs), visible, f.thinking)
    ensures FirstFatal(fs + [f]) ==
              if FirstFatal(fs).Some? then FirstFatal(fs) else if Fatal(f) then Some(|fs|) else None
    ensures JsonRun(fs + [f]) == JsonStep(JsonRun(fs), f)
    ensures SseRun(true, visible, fs + [f]) == SseStep(SseRun(true, visible, fs), true, visible, f)
  {
    assert (fs + [f])[..|fs|] == fs;
  }

  lemma JsonStepHas(j: Json, fs: seq<Frame>, f: Frame)
    requires JsonHas(j, fs) && j.stop.Running? && JsonStep(j, f).stop.Running?
    ensures JsonHas(JsonStep(j, f), fs + [f])
  {
    assert (fs + [f])[..|fs|] == fs;
  }

  lemma {:induction false} JsonRunning(fs: seq<Frame>)
    requires JsonRun(fs).stop.Running?
    ensures JsonHas(JsonRun(fs), fs)
  {
    if fs != [] {
      hide JsonHas;
      var init, f := fs[..|fs| - 1], fs[|fs| - 1];
      assert fs == init + [f];
      assert JsonRun(init).stop.Running?;
      JsonRunning(init);
      JsonStepHas(JsonRun(init), init, f);
    }
  }

  lemma SseToolHas(s: Sse, f: Fragment)
    ensures var t := SseTool(s, f);
            t.content == s.content && t.thinking == s.thinking && t.shown == s.shown && t.stop == s.stop
    ensures SseTool(s, f).ids != [] || f.id in s.tools
    ensures f.id in s.tools ==> SseTool(s, f).ids == s.ids
  {
  }

  lemma ToolsHaveIds(s: Sse, id: string)
    requires SseOk(s) && id in s.tools
    ensures s.ids != []
  {
    hide CallsOf, TextOf, RolesOk, Gather;
  }

  lemma MixedText(content: string, texts: string, shown: string, text: string)
    requires Mixed(content, texts, shown)
    ensures Mixed(content + text, texts + text, shown)
  {
    if texts + text == "" {
      assert text == "" && content + "" == content;
    }
  }

  lemma MixedShown(content: string, texts: string, shown: string, more: string)
    requires Mixed(content, texts, shown)
    ensures Mixed(content + more, texts, shown + more)
  {
    if shown + more == "" {
      assert more == "" && content + "" == content;
    }
  }

  lemma SseStepHas(s: Sse, visible: string -> string, fs: seq<Frame>, f: Frame)
    requires SseOk(s) && SseHas(s, visible, fs) && s.stop.Running? && SseStep(s, true, visible, f).stop.Running?
    ensures SseHas(SseStep(s, true, visible, f), visible, fs + [f])
  {
    Snoc(visible, fs, f);
    var t := if f.tool.Some? then SseTool(s, f.tool.value) else s;
    if f.tool.Some? {
      SseToolHas(s, f.tool.value);
      if f.tool.value.id in s.tools { ToolsHaveIds(s, f.tool.value.id); }
    }
    hide SseTool, SseOk, Mixed, ShownBy, Texts, Thinking, HasTool, SseRun, JsonRun;
    var shown := ShownBy(visible, fs);
    MixedText(s.content, Texts(fs), shown.text, f.text);
    assert s.content + "" == s.content;
    var u := SseText(t, f.text);
    assert u.content == s.content + f.text;
    if f.thinking == "" {
      assert Thinking(fs) + f.thinking == Thinking(fs);
    } else {
      var all := u.thinking + f.thinking;
      if |visible(all)| > u.shown {
        MixedShown(u.content, Texts(fs) + f.text, shown.text, visible(all)[u.shown..]);
      }
    }
  }

  lemma {:induction false} SseRunning(visible: string -> string, fs: seq<Frame>)
    requires SseRun(true, visible, fs).stop.Running?
    ensures SseHas(SseRun(true, visible, fs), visible, fs)
  {
    if fs != [] {
      hide SseHas;
      var init, f := fs[..|fs| - 1], fs[|fs| - 1];
      assert fs == init + [f];
      assert SseRun(true, visible, init).stop.Running?;
      SseRunning(visible, init);
      SseInv(true, visible, init);
      SseStepHas(SseRun(true, visible, init), visible, init, f);
    }
  }

  /** What counts as content when an error comes. */
  lemma SseContent(visible: string -> string, fs: seq<Frame>)
    requires SseRun(true, visible, fs).stop.Running?
    ensures var s := SseRun(true, visible, fs);
            s.chunks != [] || s.content != "" || s.tools != map[] <==> !Bare(fs) || ShownBy(visible, fs).text != ""
  {
    SseRunning(visible, fs);
    SseInv(true, visible, fs);
    hide SseRun, CallsOf, TextOf, RolesOk, Gather, ShownBy, Texts, HasTool;
    var s := SseRun(true, visible, fs);
    if s.tools != map[] {
      var id :| id in s.tools;
      ToolsHaveIds(s, id);
    }
  }

  // ---------------------------------------------------------------- errors

  /** How a run stops, for a decoder in which the frames `heard` says so of count as content. */
  ghost predicate StopsRight(stop: Stop, fs: seq<Frame>, heard: seq<Frame> -> bool) {
    match FirstFatal(fs)
    case None => !stop.Failed? && (!heard(fs) ==> stop.Running?)
    case Some(n) => stop == if heard(fs[..n]) then Broke else Failed(FailureOf(fs[n]))
  }

  lemma StopsStep(stop: Stop, fs: seq<Frame>, f: Frame, heard: seq<Frame> -> bool)
    requires StopsRight(stop, fs, heard) && (heard(fs) ==> heard(fs + [f]))
    ensures StopsRight(if stop.Running? then Verdict(f, heard(fs)) else stop, fs + [f], heard)
  {
    assert (fs + [f])[..|fs|] == fs;
    match FirstFatal(fs)
    case Some(n) => assert (fs + [f])[..n] == fs[..n];
    case None =>
  }

  function HeardInJson(): seq<Frame> -> bool { (fs: seq<Frame>) => !Bare(fs) }

  function HeardInSse(visible: string -> string): seq<Frame> -> bool {
    (fs: seq<Frame>) => !Bare(fs) || ShownBy(visible, fs).text != ""
  }

  lemma HeardMore(visible: string -> string, fs: seq<Frame>, f: Frame)
    ensures !Bare(fs) ==> !Bare(fs + [f])
    ensures HeardInSse(visible)(fs) ==> HeardInSse(visible)(fs + [f])
  {
    Snoc(visible, fs, f);
    hide Texts, HasTool, ShownBy;
  }

  lemma {:induction false} JsonStops(fs: seq<Frame>)
    ensures StopsRight(JsonRun(fs).stop, fs, HeardInJson())
  {
    if fs != [] {
      var init, f := fs[..|fs| - 1], fs[|fs| - 1];
      assert fs == init + [f];
      JsonStops(init);
      hide StopsRight, JsonTool, Texts, HasTool, Thinking, Verdict;
      if JsonRun(init).stop.Running? { JsonRunning(init); }
      HeardMore(s => "", init, f);
      StopsStep(JsonRun(init).stop, init, f, HeardInJson());
    }
  }

  lemma {:induction false} SseStops(visible: string -> string, fs: seq<Frame>)
    ensures StopsRight(SseRun(true, visible, fs).stop, fs, HeardInSse(visible))
  {
    if fs != [] {
      var init, f := fs[..|fs| - 1], fs[|fs| - 1];
      assert fs == init + [f];
      SseStops(visible, init);
      hide StopsRight, SseTool, SseText, SseThinking, Texts, HasTool, ShownBy, Verdict;
      if SseRun(true, visible, init).stop.Running? { SseContent(visible, init); }
      HeardMore(visible, init, f);
      SseStopStep(SseRun(true, visible, init), visible, f);
      StopsStep(SseRun(true, visible, init).stop, init, f, HeardInSse(visible));
    }
  }

  lemma SseStopStep(s: Sse, visible: string -> string, f: Frame)
    ensures SseStep(s, true, visible, f).stop ==
              if s.stop.Running? then Verdict(f, s.chunks != [] || s.content != "" || s.tools != map[]) else s.stop
  {
    hide Verdict;
  }

  /** Both answers are the same error, or neither is one. */
  predicate SameOutcome(a: Answer, b: Stream) {
    match (a, b)
    case (ErrorAnswer(x), ErrorStream(y)) => x == y
    case (Message(_, _, _), Stream(_, _)) => true
    case _ => false
  }

  /** The outcomes agree if and only if no thinking had been shown when the first error frame met neither text
      nor tools. */
  lemma OutcomesAgree(visible: string -> string, fs: seq<Frame>)
    ensures SameOutcome(JsonAnswer(JsonRun(fs), true, visible), SseAnswer(SseRun(true, visible, fs))) <==>
              match FirstFatal(fs)
              case None => true
              case Some(n) => Bare(fs[..n]) ==> ShownBy(visible, fs[..n]).text == ""
  {
    hide JsonRun, SseRun, Texts, HasTool, ShownBy, FirstFatal, Filter;
    JsonStops(fs);
    SseStops(visible, fs);
  }

  // ---------------------------------------------------------------- the frames that are decoded

  /** How many frames are decoded before one stops the decoder. */
  function Until(fs: seq<Frame>, heard: seq<Frame> -> bool): (n: nat)
    ensures n <= |fs|
    ensures n < |fs| ==> !Verdict(fs[n], heard(fs[..n])).Running?
  {
    if fs == [] then 0
    else
      var init := fs[..|fs| - 1];
      var n := Until(init, heard);
      assert forall k :: 0 <= k <= |init| ==> init[..k] == fs[..k];
      if n == |init| && Verdict(fs[|fs| - 1], heard(init)).Running? then |fs| else n
  }

  lemma {:induction false} JsonUntil(fs: seq<Frame>)
    ensures var n := Until(fs, HeardInJson());
            && JsonRun(fs[..n]).stop.Running? && (JsonRun(fs).stop.Running? <==> n == |fs|)
            && JsonRun(fs) == JsonRun(fs[..n]).(stop := JsonRun(fs).stop)
  {
    assert fs[..|fs|] == fs;
    if fs != [] {
      var init, f := fs[..|fs| - 1], fs[|fs| - 1];
      JsonUntil(init);
      var n := Until(init, HeardInJson());
      assert init[..n] == fs[..n] && init[..|init|] == init;
      hide Verdict, JsonTool, Texts, HasTool, Thinking;
      if JsonRun(init).stop.Running? { JsonRunning(init); }
    }
  }

  lemma {:induction false} SseUntil(visible: string -> string, fs: seq<Frame>)
    ensures var n := Until(fs, HeardInSse(visible));
            && SseRun(true, visible, fs[..n]).stop.Running? && (SseRun(true, visible, fs).stop.Running? <==> n == |fs|)
            && SseRun(true, visible, fs) == SseRun(true, visible, fs[..n]).(stop := SseRun(true, visible, fs).stop)
  {
    assert fs[..|fs|] == fs;
    if fs != [] {
      var init, f := fs[..|fs| - 1], fs[|fs| - 1];
      SseUntil(visible, init);
      var n := Until(init, HeardInSse(visible));
      assert init[..n] == fs[..n] && init[..|init|] == init;
      if SseRun(true, visible, init).stop.Running? { SseContent(visible, init); }
      SseStopStep(SseRun(true, visible, init), visible, f);
      hide Verdict, SseTool, SseText, SseThinking, Texts, HasTool, ShownBy;
      SseFrozen(SseRun(true, visible, init), visible, f);
    }
  }

  lemma SseFrozen(s: Sse, visible: string -> string, f: Frame)
    ensures !SseStep(s, true, visible, f).stop.Running? ==>
              SseStep(s, true, visible, f) == s.(stop := SseStep(s, true, visible, f).stop)
  {
    hide Verdict;
  }

  /** The event decoder stops first, if they do not stop together; then at an error frame that meets
      neither text nor tools, but thinking that has been shown. */
  lemma {:induction false} SseStopsFirst(visible: string -> string, fs: seq<Frame>)
    ensures var n := Until(fs, HeardInSse(visible));
            || n == Until(fs, HeardInJson())
            || (&& n < Until(fs, HeardInJson()) && Troubled(fs[n])
                && Bare(fs[..n]) && ShownBy(visible, fs[..n]).text != "")
  {
    if fs != [] {
      var init := fs[..|fs| - 1];
      SseStopsFirst(visible, init);
      var n := Until(init, HeardInSse(visible));
      assert init[..n] == fs[..n] && init[..|init|] == init;
      hide Texts, HasTool, ShownBy;
    }
  }

  lemma {:induction false} NoTrouble(fs: seq<Frame>, heard: seq<Frame> -> bool)
    requires forall f :: f in fs ==> !Troubled(f)
    ensures Until(fs, heard) == |fs|
  {
    if fs != [] {
      assert fs[|fs| - 1] in fs;
      NoTrouble(fs[..|fs| - 1], heard);
    }
  }

  function Fragments(fs: seq<Frame>): seq<Fragment> {
    if fs == [] then []
    else Fragments(fs[..|fs| - 1]) + (if fs[|fs| - 1].tool.Some? then [fs[|fs| - 1].tool.value] else [])
  }

  lemma {:induction false} FragmentsSome(fs: seq<Frame>)
    ensures Fragments(fs) != [] <==> HasTool(fs)
  {
    if fs != [] { FragmentsSome(fs[..|fs| - 1]); }
  }

  lemma {:induction false} JsonTakes(fs: seq<Frame>)
    requires JsonRun(fs).stop.Running?
    ensures JsonRun(fs).taken == Fragments(fs)
  {
    if fs != [] {
      assert JsonRun(fs[..|fs| - 1]).stop.Running?;
      JsonTakes(fs[..|fs| - 1]);
    }
  }

  lemma {:induction false} SseTakes(visible: string -> string, fs: seq<Frame>)
    requires SseRun(true, visible, fs).stop.Running?
    ensures SseRun(true, visible, fs).taken == Fragments(fs)
  {
    if fs != [] {
      var init, f := fs[..|fs| - 1], fs[|fs| - 1];
      assert SseRun(true, visible, init).stop.Running?;
      SseTakes(visible, init);
      SseStepTakes(SseRun(true, visible, init), visible, f);
    }
  }

  lemma SseStepTakes(s: Sse, visible: string -> string, f: Frame)
    requires SseStep(s, true, visible, f).stop.Running?
    ensures SseStep(s, true, visible, f).taken == s.taken + (if f.tool.Some? then [f.tool.value] else [])
  {
    hide Verdict;
    assert s.taken + [] == s.taken;
  }

  // ---------------------------------------------------------------- texts and calls

  /** There was text and nothing was shown of the thinking, or there was none and what is visible was shown. */
  predicate Fitting(texts: string, shown: string, vis: string) { if texts == "" then shown == vis else shown == "" }

  lemma MixedAgrees(content: string, texts: string, shown: string, vis: string)
    requires Mixed(content, texts, shown)
    ensures (if texts != "" then texts else vis) == content <==> Fitting(texts, shown, vis)
  {
  }

  lemma ShownOnly(content: string, shown: string, texts: string, vis: string)
    requires Mixed(content, "", shown)
    ensures (if texts != "" then texts else vis) == content <==> shown == if texts == "" then vis else texts
  {
  }

  lemma JsonSide(visible: string -> string, fs: seq<Frame>, n: nat)
    requires n == Until(fs, HeardInJson()) && !JsonRun(fs).stop.Failed?
    ensures var j, a, texts := JsonRun(fs), JsonAnswer(JsonRun(fs), true, visible), Texts(fs[..n]);
            && a.Message? && a.content == (if texts != "" then texts else visible(Thinking(fs[..n])))
            && a.calls == j.calls + Filter(NotIn(j.finalized), j.tools) && (a.toolFinish <==> HasTool(fs[..n]))
            && (a.calls != [] <==> HasTool(fs[..n]))
            && JsonOk(j) && j.taken == Fragments(fs[..n])
  {
    JsonUntil(fs);
    JsonRunning(fs[..n]);
    JsonTakes(fs[..n]);
    JsonInv(fs);
    JsonFinish(JsonRun(fs));
    FragmentsSome(fs[..n]);
    hide JsonRun, Texts, Thinking, HasTool, Filter, JsonOk, Until;
  }

  lemma SseSide(visible: string -> string, fs: seq<Frame>, n: nat)
    requires n == Until(fs, HeardInSse(visible)) && !SseRun(true, visible, fs).stop.Failed?
    ensures var b := SseAnswer(SseRun(true, visible, fs));
            && b.Stream? && Mixed(TextOf(b.deltas), Texts(fs[..n]), ShownBy(visible, fs[..n]).text)
            && CallsOf(b.deltas) == Gather(Fragments(fs[..n])) && (b.toolFinish <==> HasTool(fs[..n]))
  {
    SseUntil(visible, fs);
    SseRunning(visible, fs[..n]);
    SseTakes(visible, fs[..n]);
    FragmentsSome(fs[..n]);
    StreamShape(true, visible, fs);
    hide SseRun, Texts, Thinking, HasTool, ShownBy, Mixed, TextOf, CallsOf, Gather, Until;
  }

  ghost predicate AllKept(fs: seq<Fragment>) { forall id :: MarkKept(fs, id) }

  lemma CallsAgree(j: Json, fs: seq<Fragment>)
    requires JsonOk(j) && j.taken == fs
    ensures SameCalls(j.calls + Filter(NotIn(j.finalized), j.tools), Gather(fs)) <==> AllKept(fs)
  {
    forall id
      ensures Of(j.calls + Filter(NotIn(j.finalized), j.tools), id) == Of(Gather(fs), id) <==> MarkKept(fs, id)
    {
      JsonCallsWhole(j, id);
    }
    hide Of, Gather, Filter, MarkKept, JsonOk;
  }

  /** Two answers, when the decoders have decoded the frames `js` and `ss`. */
  ghost predicate Compared(a: Answer, b: Stream, visible: string -> string, js: seq<Frame>, ss: seq<Frame>)
    requires a.Message? && b.Stream?
  {
    var shown := ShownBy(visible, ss).text;
    if js == ss then
      && (a.content == TextOf(b.deltas) <==> Fitting(Texts(js), shown, visible(Thinking(js))))
      && a.toolFinish == b.toolFinish
      && (SameCalls(a.calls, CallsOf(b.deltas)) <==> AllKept(Fragments(js)))
    else
      && (a.content == TextOf(b.deltas) <==> shown == if Texts(js) == "" then visible(Thinking(js)) else Texts(js))
      && (a.toolFinish == b.toolFinish <==> !HasTool(js))
      && (SameCalls(a.calls, CallsOf(b.deltas)) <==> !HasTool(js))
  }

  lemma Comparison(a: Answer, b: Stream, visible: string -> string, js: seq<Frame>, ss: seq<Frame>)
    requires a.Message? && a.content == (if Texts(js) != "" then Texts(js) else visible(Thinking(js)))
    requires b.Stream? && Mixed(TextOf(b.deltas), Texts(ss), ShownBy(visible, ss).text)
    requires (a.toolFinish <==> HasTool(js)) && (b.toolFinish <==> HasTool(ss)) && (js != ss ==> Bare(ss))
    requires SameCalls(a.calls, CallsOf(b.deltas)) <==> if js == ss then AllKept(Fragments(js)) else !HasTool(js)
    ensures Compared(a, b, visible, js, ss)
  {
    hide Texts, Thinking, HasTool, ShownBy, TextOf, CallsOf, SameCalls, AllKept, Mixed, Fitting;
    if js == ss {
      MixedAgrees(TextOf(b.deltas), Texts(ss), ShownBy(visible, ss).text, visible(Thinking(js)));
    } else {
      ShownOnly(TextOf(b.deltas), ShownBy(visible, ss).text, Texts(js), visible(Thinking(js)));
    }
  }

  /** Without tools only an empty list is the same calls. */
  lemma BareCalls(fs: seq<Frame>, calls: seq<Call>)
    requires Bare(fs)
    ensures SameCalls(calls, Gather(Fragments(fs))) <==> calls == []
  {
    FragmentsSome(fs);
    GatherSome(Fragments(fs));
    var none: seq<Call> := [];
    assert forall id :: Of(none, id) == [];
    SomeCall(calls);
  }

  /** Two answers that are no errors, for any frames. The event decoder stops earlier if an error frame meets
      shown thinking, but neither text nor tools; then the calls and finish reasons agree if and only if the
      JSON decoder finds no tools behind that frame either. Otherwise the finish reasons are the same, the calls
      agree as for other models, and the texts agree if and only if there was text and nothing was shown of the
      thinking, or there was none and all that is visible at the end, and nothing else, was shown. */
  lemma ComposerTexts(visible: string -> string, fs: seq<Frame>)
    requires !JsonRun(fs).stop.Failed? && !SseRun(true, visible, fs).stop.Failed?
    ensures var a, b := JsonAnswer(JsonRun(fs), true, visible), SseAnswer(SseRun(true, visible, fs));
            var m, n := Until(fs, HeardInJson()), Until(fs, HeardInSse(visible));
            && a.Message? && b.Stream? && Compared(a, b, visible, fs[..m], fs[..n])
            && (m == n || (n < m && Troubled(fs[n]) && Bare(fs[..n]) && ShownBy(visible, fs[..n]).text != ""))
  {
    var m, n := Until(fs, HeardInJson()), Until(fs, HeardInSse(visible));
    JsonSide(visible, fs, m);
    SseSide(visible, fs, n);
    SseStopsFirst(visible, fs);
    if m == n {
      CallsAgree(JsonRun(fs), Fragments(fs[..m]));
    } else {
      assert |fs[..n]| < |fs[..m]|;
      BareCalls(fs[..n], JsonAnswer(JsonRun(fs), true, visible).calls);
    }
    hide JsonRun, SseRun, JsonAnswer, SseAnswer, Bare, Thinking, HasTool, ShownBy, TextOf, CallsOf, Until, Mixed;
    var a, b := JsonAnswer(JsonRun(fs), true, visible), SseAnswer(SseRun(true, visible, fs));
    Comparison(a, b, visible, fs[..m], fs[..n]);
  }

  /** Without error frames all frames are decoded. */
  lemma ComposerTextsWithoutErrors(visible: string -> string, fs: seq<Frame>)
    requires forall f :: f in fs ==> !Troubled(f)
    ensures var a, b := JsonAnswer(JsonRun(fs), true, visible), SseAnswer(SseRun(true, visible, fs));
            a.Message? && b.Stream? && Compared(a, b, visible, fs, fs)
  {
    NoTrouble(fs, HeardInJson());
    NoTrouble(fs, HeardInSse(visible));
    JsonUntil(fs);
    SseUntil(visible, fs);
    hide JsonRun, SseRun, Until;
    assert fs[..|fs|] == fs;
    ComposerTexts(visible, fs);
  }

  // ---------------------------------------------------------------- what is visible

  const END_TAG := "</think>"

  /** The thinking behind the last end tag. */
  function Visible(): string -> string {
    (thinking: string) =>
      match LastBefore(thinking, END_TAG, |thinking|)
      case None => ""
      case Some(i) => TrimStart(thinking[i + |END_TAG|..])
  }

  ghost predicate AtMostOnce(s: string, sub: string) {
    forall i, j :: 0 <= i < j && OccursAt(s, sub, i) ==> !OccursAt(s, sub, j)
  }

  lemma VisibleAt(s: string, i: nat)
    requires OccursAt(s, END_TAG, i) && AtMostOnce(s, END_TAG)
    ensures Visible()(s) == TrimStart(s[i + |END_TAG|..])
  {
    hide TrimStart;
    assert LastBefore(s, END_TAG, |s|) == Some(i);
  }

  /** Whatever comes before it, what lies behind the last end tag shows, without the white space it begins with. */
  lemma VisibleBehind(a: string, b: string)
    requires !Includes(b, END_TAG)
    ensures Visible()(a + (END_TAG + b)) == TrimStart(b)
  {
    hide TrimStart;
    var s, n := a + (END_TAG + b), |a| + |END_TAG|;
    assert s[|a|..n] == END_TAG && s[n..] == b;
    forall j | |a| < j ensures !OccursAt(s, END_TAG, j) {
      if j < n { NoneWithin(s, |a|, j); } else { NotBehind(s, n, j); }
    }
    assert OccursAt(s, END_TAG, |a|);
    LastIs(s, END_TAG, |a|);
  }

  lemma LastIs(s: string, sub: string, i: nat)
    requires OccursAt(s, sub, i) && sub != "" && forall j :: i < j ==> !OccursAt(s, sub, j)
    ensures LastBefore(s, sub, |s|) == Some(i)
  {
    hide OccursAt;
    FitsIn(s, sub, i);
  }

  /** No end tag begins within another. */
  lemma NoneWithin(s: string, i: nat, j: nat)
    requires OccursAt(s, END_TAG, i) && i < j < i + |END_TAG|
    ensures !OccursAt(s, END_TAG, j)
  {
    assert s[j] == s[i..i + |END_TAG|][j - i] == END_TAG[j - i] != '<';
    BeginsWith(s, END_TAG, j);
  }

  lemma BeginsWith(s: string, sub: string, j: nat)
    ensures sub != "" && OccursAt(s, sub, j) ==> s[j] == sub[0]
  {
    if sub != "" && OccursAt(s, sub, j) { assert s[j] == s[j..j + |sub|][0]; }
  }

  lemma NotBehind(s: string, n: nat, j: nat)
    requires n <= j && n <= |s| && !Includes(s[n..], END_TAG)
    ensures !OccursAt(s, END_TAG, j)
  {
    assert !OccursAt(s[n..], END_TAG, j - n);
    assert j + |END_TAG| <= |s| ==> s[n..][j - n..j - n + |END_TAG|] == s[j..j + |END_TAG|];
  }

  lemma VisibleNone(s: string)
    requires LastBefore(s, END_TAG, |s|).None?
    ensures Visible()(s) == ""
  {
  }

  lemma VisibleGrows(a: string, b: string)
    requires AtMostOnce(a + b, END_TAG)
    ensures Visible()(a) <= Visible()(a + b)
  {
    hide TrimStart, LastBefore, OccursAt, Visible;
    match LastBefore(a, END_TAG, |a|)
    case None => VisibleNone(a);
    case Some(i) =>
      KeepsPlace(a, a + b, END_TAG, i);
      FitsIn(a, END_TAG, i);
      OnceInPrefix(a, b, END_TAG);
      VisibleAt(a, i);
      VisibleAt(a + b, i);
      DropConcat(a, b, i + |END_TAG|);
      TrimStartGrows(a[i + |END_TAG|..], b);
  }

  lemma OnceInPrefix(a: string, b: string, sub: string)
    requires AtMostOnce(a + b, sub)
    ensures AtMostOnce(a, sub)
  {
    hide OccursAt;
    forall i, j | 0 <= i < j && OccursAt(a, sub, i) ensures !OccursAt(a, sub, j) {
      KeepsPlace(a, a + b, sub, i);
      KeepsPlace(a, a + b, sub, j);
    }
  }

  lemma {:induction false} ThinkingGrows(fs: seq<Frame>, n: nat)
    requires n <= |fs|
    ensures Thinking(fs[..n]) <= Thinking(fs)
  {
    if n < |fs| {
      ThinkingGrows(fs[..|fs| - 1], n);
      assert fs[..|fs| - 1][..n] == fs[..n];
    } else {
      assert fs[..n] == fs;
    }
  }

  /** A thinking with one end tag at most only grows. */
  lemma OneTagGrows(fs: seq<Frame>)
    requires AtMostOnce(Thinking(fs), END_TAG)
    ensures Growing(Visible(), fs)
  {
    forall n | 0 <= n < |fs| ensures Visible()(Thinking(fs[..n])) <= Visible()(Thinking(fs[..n + 1])) {
      hide Thinking;
      ThinkingGrows(fs, n + 1);
      assert fs[..n + 1][..n] == fs[..n];
      ThinkingGrows(fs[..n + 1], n);
      var a, all := Thinking(fs[..n]), Thinking(fs[..n + 1]);
      assert all == a + all[|a|..];
      forall i, j | 0 <= i < j && OccursAt(all, END_TAG, i) ensures !OccursAt(all, END_TAG, j) {
        KeepsPlace(all, Thinking(fs), END_TAG, i);
        KeepsPlace(all, Thinking(fs), END_TAG, j);
      }
      VisibleGrows(a, all[|a|..]);
    }
  }

  lemma KeepsPlace(a: string, all: string, sub: string, i: nat)
    requires a <= all
    ensures OccursAt(a, sub, i) ==> OccursAt(all, sub, i)
  {
    if i + |sub| <= |a| { assert all[i..i + |sub|] == a[i..i + |sub|]; }
  }

  /** What is visible only grows. */
  ghost predicate Growing(visible: string -> string, fs: seq<Frame>) {
    forall n :: 0 <= n < |fs| ==> visible(Thinking(fs[..n])) <= visible(Thinking(fs[..n + 1]))
  }

  lemma {:induction false} ShownAll(visible: string -> string, fs: seq<Frame>)
    requires Growing(visible, fs) && visible("") == ""
    ensures ShownBy(visible, fs) == Shown(Thinking(fs), |visible(Thinking(fs))|, visible(Thinking(fs)))
  {
    if fs != [] {
      var init, f := fs[..|fs| - 1], fs[|fs| - 1];
      assert forall n :: 0 <= n <= |init| ==> init[..n] == fs[..n];
      assert fs[..|fs|] == fs && fs == init + [f];
      assert visible(Thinking(fs[..|init|])) <= visible(Thinking(fs[..|init| + 1]));
      ShownAll(visible, init);
      Snoc(visible, init, f);
      hide Thinking, ShownBy, Growing, JsonRun, SseRun, Texts, HasTool, FirstFatal;
      ShowGrowing(visible, Thinking(init), f.thinking);
    }
  }

  lemma ShowGrowing(visible: string -> string, all: string, more: string)
    requires visible(all) <= visible(all + more)
    ensures Show(Shown(all, |visible(all)|, visible(all)), visible, more) ==
              Shown(all + more, |visible(all + more)|, visible(all + more))
  {
    if more == "" { assert all + more == all; }
  }

  /** If what is visible only grows, the texts agree if and only if there was no text or nothing is visible. */
  lemma ComposerAgrees(visible: string -> string, fs: seq<Frame>)
    requires (forall f :: f in fs ==> !Troubled(f)) && Growing(visible, fs) && visible("") == ""
    ensures var a, b := JsonAnswer(JsonRun(fs), true, visible), SseAnswer(SseRun(true, visible, fs));
            && a.Message? && b.Stream?
            && (a.content == TextOf(b.deltas) <==> Texts(fs) == "" || visible(Thinking(fs)) == "")
  {
    ShownAll(visible, fs);
    ComposerTextsWithoutErrors(visible, fs);
    hide JsonRun, SseRun, Texts, Thinking, ShownBy, TextOf, HasTool, AllKept, SameCalls;
  }

  function Says(text: string, thinking: string, error: string): Frame { Frame(NotError, error, None, text, thinking) }

  /** That is so for a thinking with one end tag at most. */
  lemma OneTagAgrees(fs: seq<Frame>)
    requires (forall f :: f in fs ==> !Troubled(f)) && AtMostOnce(Thinking(fs), END_TAG)
    ensures var a, b := JsonAnswer(JsonRun(fs), true, Visible()), SseAnswer(SseRun(true, Visible(), fs));
            && a.Message? && b.Stream?
            && (a.content == TextOf(b.deltas) <==> Texts(fs) == "" || Visible()(Thinking(fs)) == "")
  {
    hide JsonRun, SseRun, Texts, Thinking, TextOf;
    OneTagGrows(fs);
    ComposerAgrees(Visible(), fs);
  }

  const SHOWS := Says("", END_TAG + "a", "")

  lemma TwoFrames(f: Frame, g: Frame, visible: string -> string)
    ensures [f, g][..1] == [f] && [f][..0] == []
    ensures Texts([f, g]) == f.text + g.text && Thinking([f, g]) == f.thinking + g.thinking
    ensures Texts([f]) == f.text && Thinking([f]) == f.thinking && HasTool([f]) == f.tool.Some?
    ensures ShownBy(visible, [f]) == Show(Shown("", 0, ""), visible, f.thinking)
    ensures FirstFatal([f, g]) == if Fatal(f) then Some(0) else if Fatal(g) then Some(1) else None
  {
    var none: seq<Frame> := [];
    assert [] + [f] == [f] && [f] + [g] == [f, g];
    Snoc(visible, none, f);
    Snoc(visible, [f], g);
  }

  lemma NotAt(s: string, sub: string, i: nat)
    requires sub != "" && (i < |s| ==> s[i] != sub[0])
    ensures !OccursAt(s, sub, i)
  {
  }

  lemma ShowsA()
    ensures AtMostOnce(SHOWS.thinking, END_TAG) && Visible()(SHOWS.thinking) == "a"
  {
    TagThen(END_TAG, "a");
    var s := SHOWS.thinking;
    forall j | 0 < j ensures !OccursAt(s, END_TAG, j) {
      NotAt(s, END_TAG, j);
    }
    hide OccursAt, TrimStart, LastBefore, Visible;
    NothingToTrim("a");
    VisibleAt(s, 0);
  }

  lemma NothingToTrim(s: string)
    requires s != "" && !IsSpace(s[0])
    ensures TrimStart(s) == s
  {
  }

  lemma TagThen(tag: string, s: string)
    ensures OccursAt(tag + s, tag, 0) && (tag + s)[|tag|..] == s
  {
  }

  /** Text makes the decoders differ, before a visible thinking or behind it. */
  lemma ComposerTextDiffers(text: string, before: bool)
    requires text != ""
    ensures var fs := if before then [Says(text, "", ""), SHOWS] else [SHOWS, Says(text, "", "")];
            var a, b := JsonAnswer(JsonRun(fs), true, Visible()), SseAnswer(SseRun(true, Visible(), fs));
            a.Message? && b.Stream? && a.content != TextOf(b.deltas)
  {
    hide JsonRun, SseRun, TextOf, Texts, Thinking, Visible;
    ShowsA();
    var says := Says(text, "", "");
    TwoFrames(SHOWS, says, Visible());
    TwoFrames(says, SHOWS, Visible());
    assert SHOWS.thinking + "" == SHOWS.thinking && "" + SHOWS.thinking == SHOWS.thinking;
    assert text + "" == text && "" + text == text;
    OneTagAgrees(if before then [says, SHOWS] else [SHOWS, says]);
  }

  /** An error behind a visible thinking is the answer in JSON, and the end of the event stream. */
  lemma ComposerErrorDiffers(error: string)
    requires error != ""
    ensures var fs := [SHOWS, Says("", "", error)];
            !SameOutcome(JsonAnswer(JsonRun(fs), true, Visible()), SseAnswer(SseRun(true, Visible(), fs)))
  {
    hide JsonRun, SseRun, TextOf, Texts, Thinking, Visible, HasTool, ShownBy, FirstFatal;
    ShowsA();
    TwoFrames(SHOWS, Says("", "", error), Visible());
    assert [SHOWS, Says("", "", error)][..1] == [SHOWS];
    assert "" + SHOWS.thinking == SHOWS.thinking && "" + "a"[0..] == "a";
    OutcomesAgree(Visible(), [SHOWS, Says("", "", error)]);
  }
}
