/** When the clock shows in what a client gets of a Kiro stream (open-sse/executors/kiro.js): never, only
    in the ids that it made, or in the tools themselves. */
module KiroClockShows {
  import opened Basics
  import opened KiroEvents
  import opened KiroClock
  import KiroThinking

  // ---------------------------------------------------------------- the same but for the clock's ids

  ghost predicate SameId(a: string, b: string) { a == b || (IsClockId(a) && IsClockId(b)) }

  ghost predicate SameChunk(c: Chunk, d: Chunk) {
    c == d || (c.ToolStart? && d.ToolStart? && d == c.(id := d.id) && SameId(c.id, d.id))
  }

  /** The same chunks, up to the ids made from the clock. */
  ghost predicate SameOut(a: seq<Chunk>, b: seq<Chunk>) {
    |a| == |b| && forall k :: 0 <= k < |a| ==> SameChunk(a[k], b[k])
  }

  ghost predicate SameItem(x: Item, y: Item) {
    x == y || (x.Tool? && y.Tool? && y == x.(id := y.id) && SameId(x.id, y.id))
  }

  /** The same tool uses, up to the ids made from the clock, and two of them share an id in `xs` if and
      only if they do in `ys`. */
  ghost predicate SamePattern(xs: seq<Item>, ys: seq<Item>) {
    && |xs| == |ys|
    && (forall j :: 0 <= j < |xs| ==> SameItem(xs[j], ys[j]))
    && forall i, j :: 0 <= i < |xs| && 0 <= j < |xs| && xs[i].Tool? && xs[j].Tool? ==>
         (xs[i].id == xs[j].id <==> ys[i].id == ys[j].id)
  }

  ghost predicate SeenSame(a: map<string, nat>, b: map<string, nat>, xs: seq<Item>, ys: seq<Item>) {
    forall j :: 0 <= j < |xs| && j < |ys| && xs[j].Tool? && ys[j].Tool? ==>
      (xs[j].id in a <==> ys[j].id in b) && (xs[j].id in a && ys[j].id in b ==> a[xs[j].id] == b[ys[j].id])
  }

  ghost predicate SameState(s: State, t: State, xs: seq<Item>, ys: seq<Item>) {
    s.(seen := t.seen, out := t.out) == t && SameOut(s.out, t.out) && SeenSame(s.seen, t.seen, xs, ys)
  }

  lemma SameEmit(s: State, t: State, xs: seq<Item>, ys: seq<Item>, c: Chunk, d: Chunk)
    requires SameState(s, t, xs, ys) && SameChunk(c, d)
    ensures SameState(Emit(s, c), Emit(t, d), xs, ys) && SameState(Count(s, c), Count(t, d), xs, ys)
  {
    hide SameChunk, SeenSame;
  }

  lemma SeenMore(a: map<string, nat>, b: map<string, nat>, xs: seq<Item>, ys: seq<Item>, j: nat, n: nat)
    requires SeenSame(a, b, xs, ys) && SamePattern(xs, ys) && j < |xs| && xs[j].Tool?
    ensures ys[j].Tool? && SeenSame(a[xs[j].id := n], b[ys[j].id := n], xs, ys)
  {
    hide SameId;
    assert SameItem(xs[j], ys[j]);
    forall i | 0 <= i < |xs| && xs[i].Tool? ensures ys[i].Tool? { assert SameItem(xs[i], ys[i]); }
  }

  lemma SameNumbered(s: State, t: State, xs: seq<Item>, ys: seq<Item>, a: string, b: string)
    requires SameState(s, t, xs, ys) && SeenSame(s.seen[a := s.toolCallIndex], t.seen[b := t.toolCallIndex], xs, ys)
    ensures SameState(Numbered(s, a), Numbered(t, b), xs, ys)
  {
    hide SameOut, SeenSame;
  }

  /** The state in which a new tool is announced. */
  function Numbered(s: State, id: string): State {
    s.(toolCallIndex := s.toolCallIndex + 1, seen := s.seen[id := s.toolCallIndex])
  }

  lemma StartSees(s: State, id: string, name: string)
    ensures Start(s, id, name).seen == s.seen[id := s.toolCallIndex]
    ensures Start(s, id, name) == Count(Numbered(s, id), ToolStart(s.chunkIndex == 0, s.toolCallIndex, id, name))
  {
  }

  lemma SameStart(s: State, t: State, xs: seq<Item>, ys: seq<Item>, j: nat)
    requires SameState(s, t, xs, ys) && SamePattern(xs, ys) && j < |xs| && xs[j].Tool? && ys[j].Tool?
    ensures SameState(Start(s, xs[j].id, xs[j].name), Start(t, ys[j].id, ys[j].name), xs, ys)
  {
    assert SameItem(xs[j], ys[j]);
    var a, b := xs[j].id, ys[j].id;
    SeenMore(s.seen, t.seen, xs, ys, j, s.toolCallIndex);
    StartSees(s, a, xs[j].name);
    StartSees(t, b, ys[j].name);
    hide SameOut, SeenSame, SamePattern, SameId, Count, Start, Numbered;
    SameNumbered(s, t, xs, ys, a, b);
    assert s.chunkIndex == t.chunkIndex && s.toolCallIndex == t.toolCallIndex;
    hide SameState;
    SameEmit(Numbered(s, a), Numbered(t, b), xs, ys, ToolStart(s.chunkIndex == 0, s.toolCallIndex, a, xs[j].name),
             ToolStart(t.chunkIndex == 0, t.toolCallIndex, b, ys[j].name));
  }

  lemma SamePass(s: State, t: State, xs: seq<Item>, ys: seq<Item>, a: string, b: string, input: Input)
    requires SameState(s, t, xs, ys) && a in s.seen && b in t.seen && s.seen[a] == t.seen[b]
    ensures SameState(Pass(s, a, input), Pass(t, b, input), xs, ys)
  {
    hide SameState, Count;
    match input
    case Missing =>
    case Text(text) => SameEmit(s, t, xs, ys, ToolArgs(s.seen[a], text), ToolArgs(t.seen[b], text));
    case Object(json) => SameEmit(s, t, xs, ys, ToolArgs(s.seen[a], json), ToolArgs(t.seen[b], json));
    case Other =>
  }

  /** A tool use whose id is known, or is made known first. */
  lemma OneToolIs(s: State, i: Item)
    requires i.Tool? && !s.failed
    ensures i.id in s.seen ==> OneTool(s, i) == Pass(s, i.id, i.input)
    ensures i.id in Start(s, i.id, i.name).seen
    ensures i.id !in s.seen ==> OneTool(s, i) == Pass(Start(s, i.id, i.name), i.id, i.input)
    ensures Start(s, i.id, i.name).seen[i.id] == s.toolCallIndex
  {
    hide Pass;
  }

  lemma SameOneTool(s: State, t: State, xs: seq<Item>, ys: seq<Item>, j: nat)
    requires SameState(s, t, xs, ys) && SamePattern(xs, ys) && j < |xs|
    ensures SameState(OneTool(s, xs[j]), OneTool(t, ys[j]), xs, ys)
  {
    assert SameItem(xs[j], ys[j]);
    hide SamePattern, SameOut, SameId;
    if xs[j].Tool? && !s.failed {
      var x, y := xs[j], ys[j];
      OneToolIs(s, x);
      OneToolIs(t, y);
      assert x.id in s.seen <==> y.id in t.seen;
      if x.id in s.seen {
        hide SeenSame, OneTool, Pass, Start;
        SamePass(s, t, xs, ys, x.id, y.id, x.input);
      } else {
        assert s.toolCallIndex == t.toolCallIndex;
        SameStart(s, t, xs, ys, j);
        hide SameState, OneTool, Pass, Start;
        SamePass(Start(s, x.id, x.name), Start(t, y.id, y.name), xs, ys, x.id, y.id, x.input);
      }
    }
  }

  lemma ToolsSnoc(s: State, items: seq<Item>, from: nat, n: nat)
    requires from + n < |items|
    ensures Tools(s, items[from..from + n + 1]) == OneTool(Tools(s, items[from..from + n]), items[from + n])
  {
    hide OneTool;
    var more := items[from..from + n + 1];
    assert more[..n] == items[from..from + n] && more[n] == items[from + n];
  }

  lemma NoTools(s: State)
    ensures Tools(s, []) == s
  {
  }

  lemma {:induction false} SameTools(s: State, t: State, xs: seq<Item>, ys: seq<Item>, from: nat, n: nat)
    requires SameState(s, t, xs, ys) && SamePattern(xs, ys) && from + n <= |xs| == |ys|
    ensures SameState(Tools(s, xs[from..from + n]), Tools(t, ys[from..from + n]), xs, ys)
  {
    hide SameState, SamePattern, OneTool, Tools;
    if n == 0 {
      assert xs[from..from + n] == [] && ys[from..from + n] == [];
      NoTools(s);
      NoTools(t);
    } else {
      SameTools(s, t, xs, ys, from, n - 1);
      SameOneTool(Tools(s, xs[from..from + n - 1]), Tools(t, ys[from..from + n - 1]), xs, ys, from + n - 1);
      ToolsSnoc(s, xs, from, n - 1);
      ToolsSnoc(t, ys, from, n - 1);
    }
  }

  lemma SameThinking(s: State, t: State, xs: seq<Item>, ys: seq<Item>, inThinking: bool, n: nat)
    requires SameState(s, t, xs, ys)
    ensures s.inThinking == t.inThinking && s.hasReasoning == t.hasReasoning
    ensures s.chunkIndex == t.chunkIndex && s.contentLength == t.contentLength
    ensures SameState(s.(inThinking := inThinking), t.(inThinking := inThinking), xs, ys)
    ensures SameState(s.(inThinking := inThinking, contentLength := n),
                      t.(inThinking := inThinking, contentLength := n), xs, ys)
  {
    hide SameOut, SeenSame;
  }

  lemma SameAssistant(s: State, t: State, xs: seq<Item>, ys: seq<Item>, content: string)
    requires SameState(s, t, xs, ys)
    ensures SameState(AssistantTurn(s, content), AssistantTurn(t, content), xs, ys)
  {
    hide SameState, Count, KiroThinking.Strip;
    var (inThinking, text) := KiroThinking.Strip(s.inThinking, content);
    var n := s.contentLength + |text|;
    SameThinking(s, t, xs, ys, inThinking, n);
    SameEmit(s.(inThinking := inThinking, contentLength := n), t.(inThinking := inThinking, contentLength := n), xs, ys,
             ContentChunk(s.chunkIndex == 0, text), ContentChunk(t.chunkIndex == 0, text));
  }

  lemma SameReasoning(s: State, t: State, xs: seq<Item>, ys: seq<Item>, text: string)
    requires SameState(s, t, xs, ys)
    ensures SameState(ReasoningTurn(s, text), ReasoningTurn(t, text), xs, ys)
  {
    hide SameOut, SeenSame, Count;
    var c := ReasoningChunk(s.reasoningChunks == 0 && s.chunkIndex == 0, text);
    var n, k := s.contentLength + |text|, s.reasoningChunks + 1;
    SameEmit(s.(hasReasoning := true, contentLength := n, reasoningChunks := k),
             t.(hasReasoning := true, contentLength := n, reasoningChunks := k), xs, ys, c, c);
  }

  lemma SameCode(s: State, t: State, xs: seq<Item>, ys: seq<Item>, content: string)
    requires SameState(s, t, xs, ys)
    ensures SameState(CodeTurn(s, content), CodeTurn(t, content), xs, ys)
  {
    hide SameState, Count;
    SameEmit(s, t, xs, ys, CodeChunk(content), CodeChunk(content));
  }

  lemma SameOther(s: State, t: State, xs: seq<Item>, ys: seq<Item>, e: Event)
    requires SameState(s, t, xs, ys) && !e.Assistant? && !e.Reasoning? && !e.Code? && !e.ToolUses?
    ensures SameState(Turn(s, e), Turn(t, e), xs, ys)
  {
    hide SameOut, SeenSame, Emit;
    if e.MessageStop? {
      var c := Finish(s.hasToolCalls, None);
      SameEmit(s.(finishEmitted := true), t.(finishEmitted := true), xs, ys, c, c);
    }
  }

  lemma SameSettle(s: State, t: State, xs: seq<Item>, ys: seq<Item>, window: int)
    requires SameState(s, t, xs, ys)
    ensures SameState(Settle(s, window), Settle(t, window), xs, ys)
  {
    hide SameOut, SeenSame, Emit, Estimate;
    var usage := FinalUsage(s, window);
    var c := Finish(s.hasToolCalls, usage);
    SameEmit(s.(finishEmitted := true, usage := usage), t.(finishEmitted := true, usage := usage), xs, ys, c, c);
  }

  /** Equal, or tool uses at the same places of `xs` and `ys`. */
  ghost predicate SameEvent(e: Event, f: Event, xs: seq<Item>, ys: seq<Item>, from: nat) {
    if e.ToolUses? then
      f.ToolUses? && from + |e.items| <= |xs| == |ys|
      && e.items == xs[from..from + |e.items|] && f.items == ys[from..from + |e.items|]
    else e == f
  }

  lemma SameTurn(s: State, t: State, xs: seq<Item>, ys: seq<Item>, e: Event, f: Event, from: nat)
    requires SameState(s, t, xs, ys) && SamePattern(xs, ys) && SameEvent(e, f, xs, ys, from)
    ensures SameState(Turn(s, e), Turn(t, f), xs, ys)
  {
    TurnIs(s, e);
    TurnIs(t, f);
    hide SamePattern, Turn, AssistantTurn, ReasoningTurn, CodeTurn, Tools;
    match e
    case Assistant(content) => SameAssistant(s, t, xs, ys, content);
    case Reasoning(text) => SameReasoning(s, t, xs, ys, text);
    case Code(content) => SameCode(s, t, xs, ys, content);
    case ToolUses(items) =>
      SameFlag(s, t, xs, ys);
      SameTools(s.(hasToolCalls := true), t.(hasToolCalls := true), xs, ys, from, |items|);
    case _ => SameOther(s, t, xs, ys, e);
  }

  lemma SameFlag(s: State, t: State, xs: seq<Item>, ys: seq<Item>)
    requires SameState(s, t, xs, ys)
    ensures SameState(s.(hasToolCalls := true), t.(hasToolCalls := true), xs, ys)
  {
    hide SameOut, SeenSame;
  }

  lemma SameHandle(s: State, t: State, xs: seq<Item>, ys: seq<Item>, window: int, e: Event, f: Event, from: nat)
    requires SameState(s, t, xs, ys) && SamePattern(xs, ys) && SameEvent(e, f, xs, ys, from)
    ensures SameState(Handle(s, window, e), Handle(t, window, f), xs, ys)
  {
    hide SameState, SamePattern, Turn, Settle, Skips;
    SameTurn(s, t, xs, ys, e, f, from);
    SameSettle(Turn(s, e), Turn(t, f), xs, ys, window);
    SameEnds(s, t, xs, ys);
    SameEnds(Turn(s, e), Turn(t, f), xs, ys);
    SameSkips(s, t, xs, ys, e, f, from);
  }

  lemma SameEnds(s: State, t: State, xs: seq<Item>, ys: seq<Item>)
    requires SameState(s, t, xs, ys)
    ensures s.failed == t.failed
  {
    hide SameOut, SeenSame;
  }

  lemma SameSkips(s: State, t: State, xs: seq<Item>, ys: seq<Item>, e: Event, f: Event, from: nat)
    requires SameState(s, t, xs, ys) && SameEvent(e, f, xs, ys, from)
    ensures Skips(s, e) == Skips(t, f)
  {
    hide SameOut, SeenSame, KiroThinking.Strip;
  }

  // ---------------------------------------------------------------- whole streams

  /** What the client gets of a whole stream. */
  function Sent(window: int, es: seq<Event>): seq<Chunk> { Flush(Run(window, es)).out }

  lemma RunSnoc(window: int, es: seq<Event>, e: Event)
    ensures Run(window, es + [e]) == Handle(Run(window, es), window, e)
  {
    hide Handle;
    assert (es + [e])[..|es|] == es;
  }

  lemma {:induction false} SameRun(window: int, c: Clock, d: Clock, es: seq<Event>, xs: seq<Item>, ys: seq<Item>)
    requires SamePattern(xs, ys)
    requires DatedItems(c, 0, Items(es)) <= xs && DatedItems(d, 0, Items(es)) <= ys
    ensures SameState(Run(window, DatedAll(c, 0, es)), Run(window, DatedAll(d, 0, es)), xs, ys)
  {
    if es != [] {
      hide SameState, SamePattern, Run, Handle, DatedAll, DatedItems, Items, Readings, SameEvent;
      var init, e := es[..|es| - 1], es[|es| - 1];
      assert es == init + [e];
      SamePlace(c, init, e, xs);
      SamePlace(d, init, e, ys);
      SameRun(window, c, d, init, xs, ys);
      DatedAllSnoc(c, 0, init, e);
      DatedAllSnoc(d, 0, init, e);
      var k := Readings(init);
      SameDated(c, d, k, e, xs, ys, |Items(init)|);
      SameHandle(Run(window, DatedAll(c, 0, init)), Run(window, DatedAll(d, 0, init)), xs, ys, window,
                 DatedEvent(c, k, e), DatedEvent(d, k, e), |Items(init)|);
      RunSnoc(window, DatedAll(c, 0, init), DatedEvent(c, k, e));
      RunSnoc(window, DatedAll(d, 0, init), DatedEvent(d, k, e));
    }
  }

  lemma SamePlace(c: Clock, es: seq<Event>, e: Event, xs: seq<Item>)
    requires DatedItems(c, 0, Items(es + [e])) <= xs
    ensures DatedItems(c, 0, Items(es)) <= xs
    ensures e.ToolUses? ==>
              && |Items(es)| + |e.items| <= |xs|
              && DatedItems(c, Readings(es), e.items) == xs[|Items(es)|..|Items(es)| + |e.items|]
  {
    ItemsSnoc(es, e);
    ItemsDated(c, es);
    hide DatedItems, Items, DatedAll, Lacking, Readings;
    if e.ToolUses? { DatedConcat(c, 0, Items(es), e.items); }
  }

  lemma SameDated(c: Clock, d: Clock, k: nat, e: Event, xs: seq<Item>, ys: seq<Item>, from: nat)
    requires |xs| == |ys|
    requires e.ToolUses? ==>
               && from + |e.items| <= |xs| && DatedItems(c, k, e.items) == xs[from..from + |e.items|]
               && DatedItems(d, k, e.items) == ys[from..from + |e.items|]
    ensures SameEvent(DatedEvent(c, k, e), DatedEvent(d, k, e), xs, ys, from)
  {
    hide DatedItems;
  }

  /** Two clocks that give the tool uses without an id the same ids in common show the client the same, up
      to these ids. */
  lemma SamePatternSameSent(window: int, c: Clock, d: Clock, es: seq<Event>)
    requires SamePattern(DatedItems(c, 0, Items(es)), DatedItems(d, 0, Items(es)))
    ensures SameOut(Sent(window, DatedAll(c, 0, es)), Sent(window, DatedAll(d, 0, es)))
  {
    hide SamePattern, Run, DatedAll, DatedItems, Items;
    var xs, ys := DatedItems(c, 0, Items(es)), DatedItems(d, 0, Items(es));
    SameRun(window, c, d, es, xs, ys);
    SameFlush(Run(window, DatedAll(c, 0, es)), Run(window, DatedAll(d, 0, es)), xs, ys);
  }

  lemma SameFlush(s: State, t: State, xs: seq<Item>, ys: seq<Item>)
    requires SameState(s, t, xs, ys)
    ensures SameOut(Flush(s).out, Flush(t).out)
  {
    hide SameOut, SeenSame, SameChunk;
    assert SameChunk(Done, Done) by { SameItself(Done); }
    var c := Finish(s.hasToolCalls, None);
    SameEmit(s, t, xs, ys, Done, Done);
    SameItself(c);
    SameEmit(s.(finishEmitted := true), t.(finishEmitted := true), xs, ys, c, c);
    SameEmit(Emit(s.(finishEmitted := true), c), Emit(t.(finishEmitted := true), c), xs, ys, Done, Done);
  }

  lemma SameItself(c: Chunk)
    ensures SameChunk(c, c)
  {
  }

  // ---------------------------------------------------------------- which ids are started

  /** No tool use is null. */
  ghost predicate NoNull(es: seq<Event>) { forall i :: i in Items(es) ==> i.Tool? }

  lemma {:induction false} ToolsUnfailing(s: State, items: seq<Item>)
    requires !s.failed && forall i :: i in items ==> i.Tool?
    ensures !Tools(s, items).failed
  {
    if items != [] {
      var init, i := items[..|items| - 1], items[|items| - 1];
      assert items == init + [i];
      hide OneTool;
      ToolsUnfailing(s, init);
      OneToolUnfailing(Tools(s, init), i);
    }
  }

  lemma OneToolUnfailing(s: State, i: Item)
    requires !s.failed && i.Tool?
    ensures !OneTool(s, i).failed
  {
    hide OneTool, Pass, Start;
    OneToolIs(s, i);
    StartUnfailing(s, i.id, i.name);
    PassUnfailing(if i.id in s.seen then s else Start(s, i.id, i.name), i.id, i.input);
  }

  lemma StartUnfailing(s: State, id: string, name: string)
    ensures Start(s, id, name).failed == s.failed
  {
  }

  lemma PassUnfailing(s: State, id: string, input: Input)
    requires id in s.seen
    ensures Pass(s, id, input).failed == s.failed
  {
    hide Count;
    match input
    case Missing =>
    case Text(text) => CountUnfailing(s, ToolArgs(s.seen[id], text));
    case Object(json) => CountUnfailing(s, ToolArgs(s.seen[id], json));
    case Other =>
  }

  lemma CountUnfailing(s: State, c: Chunk)
    ensures Count(s, c).failed == s.failed
  {
  }

  lemma HandleUnfailing(s: State, window: int, e: Event)
    requires !s.failed && (e.ToolUses? ==> forall i :: i in e.items ==> i.Tool?)
    ensures !Handle(s, window, e).failed
  {
    hide Tools, Estimate, KiroThinking.Strip;
    if e.ToolUses? { ToolsUnfailing(s.(hasToolCalls := true), e.items); }
  }

  lemma {:induction false} Unfailing(window: int, es: seq<Event>)
    requires NoNull(es)
    ensures !Run(window, es).failed
  {
    if es != [] {
      var init, e := es[..|es| - 1], es[|es| - 1];
      assert es == init + [e];
      ItemsSnoc(init, e);
      hide Handle;
      assert NoNull(init);
      Unfailing(window, init);
      HandleUnfailing(Run(window, init), window, e);
    }
  }

  function Ids(items: seq<Item>): set<string> {
    if items == [] then {}
    else
      var i := items[|items| - 1];
      Ids(items[..|items| - 1]) + (if i.Tool? then {i.id} else {})
  }

  /** The ids that came with their tool use. */
  function OwnIds(items: seq<Item>): set<string> {
    if items == [] then {}
    else
      var i := items[|items| - 1];
      OwnIds(items[..|items| - 1]) + (if i.Tool? && i.id != "" then {i.id} else {})
  }

  lemma {:induction false} FirstsIds(items: seq<Item>)
    ensures |Firsts(items)| == |Ids(items)|
    ensures forall id :: Has(Firsts(items), id) <==> id in Ids(items)
  {
    if items != [] {
      var init, i := items[..|items| - 1], items[|items| - 1];
      FirstsIds(init);
      assert items == init + [i];
      FirstsSnoc(init, i);
      IdsSnoc(init, i);
      hide Has, Firsts, Ids;
      var was, ids := Firsts(init), Ids(init);
      if i.Tool? && !Has(was, i.id) {
        assert |ids + {i.id}| == |ids| + 1;
        forall id ensures Has(was + [Named(i.id, i.name)], id) <==> Has(was, id) || id == i.id { HasSnoc(was, i, id); }
      } else {
        assert Ids(items) == ids;
      }
    }
  }

  lemma IdsSnoc(items: seq<Item>, i: Item)
    ensures Ids(items + [i]) == Ids(items) + (if i.Tool? then {i.id} else {})
  {
    assert (items + [i])[..|items|] == items;
  }

  lemma HasSnoc(names: seq<Named>, i: Item, id: string)
    requires i.Tool?
    ensures Has(names + [Named(i.id, i.name)], id) <==> Has(names, id) || id == i.id
  {
    assert (names + [Named(i.id, i.name)])[..|names|] == names;
  }

  lemma FlushStarts(s: State)
    ensures Starts(Flush(s).out) == Starts(s.out)
  {
    var c := Finish(s.hasToolCalls, None);
    Snoc(s.out, Done);
    Snoc(s.out, c);
    Snoc(s.out + [c], Done);
    hide Filter, Starts, TextLength;
  }

  /** One tool is started for each id. */
  lemma SentIds(window: int, es: seq<Event>)
    requires NoNull(es)
    ensures |Starts(Sent(window, es))| == |Ids(Items(es))|
    ensures forall id :: Has(Names(Starts(Sent(window, es))), id) <==> id in Ids(Items(es))
  {
    Unfailing(window, es);
    InvRun(window, es);
    FlushStarts(Run(window, es));
    FirstsIds(Items(es));
    hide Run, Local, Starts, Firsts, Ids, Items, Has, Flush;
  }

  lemma DatedNoNull(clock: Clock, es: seq<Event>)
    requires NoNull(es)
    ensures NoNull(DatedAll(clock, 0, es)) && Items(DatedAll(clock, 0, es)) == DatedItems(clock, 0, Items(es))
  {
    hide DatedItems, Items, DatedAll;
    ItemsDated(clock, es);
    DatedTools(clock, 0, Items(es));
  }

  lemma {:induction false} DatedTools(clock: Clock, k: nat, items: seq<Item>)
    requires forall i :: i in items ==> i.Tool?
    ensures forall i :: i in DatedItems(clock, k, items) ==> i.Tool?
  {
    if items != [] {
      var init := items[..|items| - 1];
      assert items == init + [items[|items| - 1]];
      DatedTools(clock, k, init);
    }
  }

  // ---------------------------------------------------------------- two clocks that can be told apart

  /** A clock that stands still, and one that ticks at each reading. */
  function Still(t: nat): Clock { (k: nat) => t }

  function Ticking(t: nat): Clock { (k: nat) => t + k }

  function Made(t: nat, n: nat): set<string> { if n == 0 then {} else Made(t, n - 1) + {ClockId(t + n - 1)} }

  lemma {:induction false} StillIds(t: nat, items: seq<Item>)
    ensures Ids(DatedItems(Still(t), 0, items)) == OwnIds(items) + (if Lacking(items) > 0 then {ClockId(t)} else {})
  {
    if items != [] {
      hide ClockId;
      StillIds(t, items[..|items| - 1]);
    }
  }

  lemma MadeSnoc(t: nat, n: nat)
    requires n > 0
    ensures Made(t, n) == Made(t, n - 1) + {ClockId(t + n - 1)}
  {
    hide ClockId;
  }

  lemma OwnSnoc(items: seq<Item>, i: Item)
    ensures OwnIds(items + [i]) == OwnIds(items) + (if i.Tool? && i.id != "" then {i.id} else {})
  {
    assert (items + [i])[..|items|] == items;
  }

  lemma NoneMade(t: nat)
    ensures Made(t, 0) == {}
  {
  }

  lemma {:induction false} TickingIds(t: nat, items: seq<Item>)
    ensures Ids(DatedItems(Ticking(t), 0, items)) == OwnIds(items) + Made(t, Lacking(items))
  {
    NoneMade(t);
    if items != [] {
      var init, i := items[..|items| - 1], items[|items| - 1];
      var clock, n := Ticking(t), Lacking(init);
      assert items == init + [i];
      TickingIds(t, init);
      hide ClockId, Made, DatedItems, Lacking, Ids, OwnIds;
      DatedSnoc(clock, 0, init, i);
      IdsSnoc(DatedItems(clock, 0, init), Dated(clock, 0 + n, i));
      OwnSnoc(init, i);
      MadeSnoc(t, n + 1);
    }
  }

  lemma {:induction false} MadeWhen(t: nat, n: nat, id: string)
    requires id in Made(t, n)
    ensures exists u: nat :: t <= u < t + n && id == ClockId(u)
  {
    hide ClockId;
    if id != ClockId(t + n - 1) { MadeWhen(t, n - 1, id); }
  }

  lemma {:induction false} MadeSize(t: nat, n: nat)
    ensures |Made(t, n)| == n
  {
    if n > 0 {
      MadeSnoc(t, n);
      hide ClockId, Made;
      MadeSize(t, n - 1);
      var last := ClockId(t + n - 1);
      if last in Made(t, n - 1) {
        MadeWhen(t, n - 1, last);
        var u: nat :| t <= u < t + n - 1 && last == ClockId(u);
        ClockIdInjective(t + n - 1, u);
      }
    }
  }

  /** From some time on the clock gives none of these ids. */
  lemma {:induction false} FreshTime(ids: set<string>) returns (t: nat)
    ensures forall u: nat :: u >= t ==> ClockId(u) !in ids
  {
    hide ClockId;
    t := 0;
    if ids != {} {
      var id :| id in ids;
      t := FreshTime(ids - {id});
      if IsClockId(id) {
        var v: nat :| id == ClockId(v);
        t := Max(t, v + 1);
        forall u: nat | u >= t ensures ClockId(u) != id {
          if ClockId(u) == id { ClockIdInjective(u, v); }
        }
      }
    }
  }

  // ---------------------------------------------------------------- when the clock shows

  /** Whatever the clock reads, the client gets the same. */
  ghost predicate ClockNeverShows(window: int, es: seq<Event>) {
    forall c, d :: Forward(c) && Forward(d) ==> Sent(window, DatedAll(c, 0, es)) == Sent(window, DatedAll(d, 0, es))
  }

  /** Whatever the clock reads, the client gets the same, up to the ids made from it. */
  ghost predicate ClockShowsInIds(window: int, es: seq<Event>) {
    forall c, d :: Forward(c) && Forward(d) ==>
      SameOut(Sent(window, DatedAll(c, 0, es)), Sent(window, DatedAll(d, 0, es)))
  }

  lemma StillSent(window: int, es: seq<Event>, t: nat)
    requires NoNull(es)
    ensures var out := Sent(window, DatedAll(Still(t), 0, es));
            var ids := OwnIds(Items(es)) + (if Lacking(Items(es)) > 0 then {ClockId(t)} else {});
            && |Starts(out)| == |ids| && (forall id :: Has(Names(Starts(out)), id) <==> id in ids)
  {
    hide Sent, Starts, Has, DatedItems, DatedAll, Items, Ids, OwnIds, ClockId, NoNull;
    DatedNoNull(Still(t), es);
    SentIds(window, DatedAll(Still(t), 0, es));
    StillIds(t, Items(es));
  }

  lemma TickingSent(window: int, es: seq<Event>, t: nat)
    requires NoNull(es) && forall u: nat :: u >= t ==> ClockId(u) !in OwnIds(Items(es))
    ensures |Starts(Sent(window, DatedAll(Ticking(t), 0, es)))| == |OwnIds(Items(es))| + Lacking(Items(es))
  {
    hide Sent, Starts, Has, DatedItems, DatedAll, Items, Ids, OwnIds, ClockId, NoNull, Made;
    DatedNoNull(Ticking(t), es);
    SentIds(window, DatedAll(Ticking(t), 0, es));
    TickingIds(t, Items(es));
    var own, made := OwnIds(Items(es)), Made(t, Lacking(Items(es)));
    MadeSize(t, Lacking(Items(es)));
    forall id | id in own && id in made ensures false { MadeWhen(t, Lacking(Items(es)), id); }
    assert own * made == {};
  }

  /** The clock never shows if and only if every tool use brings its own id. */
  lemma ClockHidden(window: int, es: seq<Event>)
    requires NoNull(es)
    ensures ClockNeverShows(window, es) <==> Readings(es) == 0
  {
    hide Sent, DatedAll, NoNull;
    if Readings(es) == 0 {
      forall c ensures DatedAll(c, 0, es) == es { DatedAllOwn(c, 0, es); }
    } else {
      var t := FreshTime(OwnIds(Items(es)));
      hide ClockId, Has, Names, Starts, Items, OwnIds, Lacking, Readings;
      ItemsDated(Still(t), es);
      StillSent(window, es, t);
      StillSent(window, es, t + 1);
      if ClockId(t) == ClockId(t + 1) { ClockIdInjective(t, t + 1); }
      assert Forward(Still(t)) && Forward(Still(t + 1));
      assert Has(Names(Starts(Sent(window, DatedAll(Still(t), 0, es)))), ClockId(t));
      assert !Has(Names(Starts(Sent(window, DatedAll(Still(t + 1), 0, es)))), ClockId(t));
    }
  }

  lemma {:induction false} SameStarts(a: seq<Chunk>, b: seq<Chunk>)
    requires SameOut(a, b)
    ensures |Starts(a)| == |Starts(b)|
  {
    if a != [] {
      assert SameChunk(a[|a| - 1], b[|b| - 1]);
      hide SameChunk;
      SameStarts(a[..|a| - 1], b[..|b| - 1]);
    }
  }

  /** At most one tool use lacks an id, and if one does, no other brings one that looks as if made from the
      clock. */
  ghost predicate OneLacks(items: seq<Item>) {
    Lacking(items) == 0 || (Lacking(items) == 1 && forall id :: id in OwnIds(items) ==> !IsClockId(id))
  }

  lemma {:induction false} OnlyOne(items: seq<Item>, i: nat, j: nat)
    requires i < j < |items| && Lacks(items[i]) && Lacks(items[j])
    ensures Lacking(items) >= 2
  {
    var init := items[..|items| - 1];
    if j < |init| {
      OnlyOne(init, i, j);
    } else {
      assert init[i] in init;
      NothingLacks(init);
    }
  }

  lemma {:induction false} OwnIn(items: seq<Item>, j: nat)
    requires j < |items| && items[j].Tool? && items[j].id != ""
    ensures items[j].id in OwnIds(items)
  {
    if j < |items| - 1 { OwnIn(items[..|items| - 1], j); }
  }

  lemma DatedId(clock: Clock, items: seq<Item>, j: nat)
    requires j < |items| && items[j].Tool?
    ensures var i := DatedItems(clock, 0, items)[j];
            && i.Tool? && (if Lacks(items[j]) then IsClockId(i.id) else i == items[j] && i.id in OwnIds(items))
            && i == items[j].(id := i.id)
  {
    hide ClockId, DatedItems, OwnIds, Lacking;
    DatedAt(clock, 0, items, j);
    if !Lacks(items[j]) { OwnIn(items, j); }
  }

  lemma OnePattern(c: Clock, d: Clock, items: seq<Item>)
    requires OneLacks(items) && forall i :: i in items ==> i.Tool?
    ensures SamePattern(DatedItems(c, 0, items), DatedItems(d, 0, items))
  {
    hide DatedItems, OwnIds, IsClockId, Lacking;
    var xs, ys := DatedItems(c, 0, items), DatedItems(d, 0, items);
    forall j | 0 <= j < |items| ensures xs[j].Tool? && ys[j].Tool? && SameItem(xs[j], ys[j]) {
      assert items[j] in items;
      DatedId(c, items, j);
      DatedId(d, items, j);
    }
    forall i, j | 0 <= i < |xs| && 0 <= j < |xs| ensures xs[i].id == xs[j].id <==> ys[i].id == ys[j].id {
      SamePair(c, d, items, i, j);
    }
  }

  lemma SamePair(c: Clock, d: Clock, items: seq<Item>, i: nat, j: nat)
    requires OneLacks(items) && i < |items| && j < |items| && items[i].Tool? && items[j].Tool?
    ensures var xs, ys := DatedItems(c, 0, items), DatedItems(d, 0, items);
            && xs[i].Tool? && xs[j].Tool? && ys[i].Tool? && ys[j].Tool?
            && (xs[i].id == xs[j].id <==> ys[i].id == ys[j].id)
  {
    NothingLacks(items);
    assert items[i] in items && items[j] in items;
    if i < j && Lacks(items[i]) && Lacks(items[j]) { OnlyOne(items, i, j); }
    if j < i && Lacks(items[i]) && Lacks(items[j]) { OnlyOne(items, j, i); }
    DatedId(c, items, i);
    DatedId(c, items, j);
    DatedId(d, items, i);
    DatedId(d, items, j);
    hide DatedItems, OwnIds, IsClockId, Lacking;
  }

  /** The clock shows in no more than the ids made from it if and only if at most one tool use lacks an id
      and, if one does, the others' ids do not look like its own. */
  lemma ClockRenames(window: int, es: seq<Event>)
    requires NoNull(es)
    ensures ClockShowsInIds(window, es) <==> OneLacks(Items(es))
  {
    var items := Items(es);
    if OneLacks(items) {
      hide Sent, DatedAll, Items, OneLacks, SamePattern, SameOut;
      forall c, d ensures SameOut(Sent(window, DatedAll(c, 0, es)), Sent(window, DatedAll(d, 0, es))) {
        OnePattern(c, d, items);
        SamePatternSameSent(window, c, d, es);
      }
    } else {
      hide Sent, DatedAll, Items, ClockId, Starts, OwnIds, Lacking, Has, SameOut;
      var own := OwnIds(items);
      var t := FreshTime(own);
      var c, d := Still(t), Ticking(t);
      if Lacking(items) == 1 {
        var id :| id in own && IsClockId(id);
        var v: nat :| id == ClockId(v);
        d := Still(v);
        StillSent(window, es, v);
        assert own + {ClockId(v)} == own;
      } else {
        TickingSent(window, es, t);
      }
      StillSent(window, es, t);
      assert |own + {ClockId(t)}| == |own| + 1;
      assert Forward(c) && Forward(d);
      if SameOut(Sent(window, DatedAll(c, 0, es)), Sent(window, DatedAll(d, 0, es))) {
        SameStarts(Sent(window, DatedAll(c, 0, es)), Sent(window, DatedAll(d, 0, es)));
      }
    }
  }

  // ---------------------------------------------------------------- two clocks in particular

  /** The indexes under which arguments were sent. */
  function ArgIndexes(out: seq<Chunk>): seq<nat> {
    if out == [] then []
    else
      var c := out[|out| - 1];
      ArgIndexes(out[..|out| - 1]) + (if c.ToolArgs? then [c.index] else [])
  }

  lemma ArgIndexesSnoc(out: seq<Chunk>, c: Chunk)
    ensures ArgIndexes(out + [c]) == if c.ToolArgs? then ArgIndexes(out) + [c.index] else ArgIndexes(out)
  {
    assert (out + [c])[..|out|] == out;
  }

  /** A tool use that brings arguments. */
  predicate Speaks(i: Item) { i.Tool? && (i.input.Text? || i.input.Object?) }

  /** The arguments of each tool use were sent under the index of its id. */
  ghost predicate Spoken(s: State, items: seq<Item>) {
    && |ArgIndexes(s.out)| == |items|
    && forall j :: 0 <= j < |items| ==>
         items[j].Tool? && items[j].id in s.seen && s.seen[items[j].id] == ArgIndexes(s.out)[j]
  }

  lemma StartSpoken(s: State, items: seq<Item>, id: string, name: string)
    requires Spoken(s, items) && id !in s.seen
    ensures Spoken(Start(s, id, name), items)
  {
    ArgIndexesSnoc(s.out, ToolStart(s.chunkIndex == 0, s.toolCallIndex, id, name));
    hide ArgIndexes;
  }

  lemma CountSpoken(s: State, items: seq<Item>, i: Item, args: string)
    requires Spoken(s, items) && i.Tool? && i.id in s.seen
    ensures Spoken(Count(s, ToolArgs(s.seen[i.id], args)), items + [i])
  {
    ArgIndexesSnoc(s.out, ToolArgs(s.seen[i.id], args));
    hide ArgIndexes;
  }

  lemma PassSpoken(s: State, items: seq<Item>, i: Item)
    requires Spoken(s, items) && Speaks(i) && i.id in s.seen
    ensures Spoken(Pass(s, i.id, i.input), items + [i])
  {
    hide Spoken, Count;
    CountSpoken(s, items, i, if i.input.Text? then i.input.text else i.input.json);
  }

  lemma OneToolSpoken(s: State, items: seq<Item>, i: Item)
    requires Spoken(s, items) && Speaks(i) && !s.failed
    ensures Spoken(OneTool(s, i), items + [i])
  {
    OneToolIs(s, i);
    hide Spoken, OneTool, Pass, Start;
    if i.id in s.seen {
      PassSpoken(s, items, i);
    } else {
      StartSpoken(s, items, i.id, i.name);
      PassSpoken(Start(s, i.id, i.name), items, i);
    }
  }

  lemma {:induction false} ToolsSpoken(s: State, items: seq<Item>, more: seq<Item>)
    requires Spoken(s, items) && !s.failed && forall i :: i in more ==> Speaks(i)
    ensures Spoken(Tools(s, more), items + more)
  {
    if more == [] {
      assert items + more == items;
    } else {
      hide Spoken, OneTool, Speaks;
      var init, i := more[..|more| - 1], more[|more| - 1];
      assert more == init + [i];
      ToolsSpoken(s, items, init);
      AllTools(init);
      ToolsUnfailing(s, init);
      OneToolSpoken(Tools(s, init), items + init, i);
      Assoc(items, init, [i]);
    }
  }

  lemma AllTools(items: seq<Item>)
    requires forall i :: i in items ==> Speaks(i)
    ensures forall i :: i in items ==> i.Tool?
  {
    forall i | i in items ensures i.Tool? { assert Speaks(i); }
  }

  /** No tool was started and no arguments were sent. */
  ghost predicate Aloof(s: State, t: State) { t.seen == s.seen && ArgIndexes(t.out) == ArgIndexes(s.out) }

  lemma CountAloof(s: State, t: State, c: Chunk)
    requires t.seen == s.seen && t.out == s.out && !c.ToolArgs?
    ensures Aloof(s, Count(t, c)) && Aloof(s, Emit(t, c))
  {
    ArgIndexesSnoc(s.out, c);
    hide ArgIndexes;
  }

  lemma AssistantAloof(s: State, content: string)
    ensures Aloof(s, AssistantTurn(s, content))
  {
    hide Count, ArgIndexes, KiroThinking.Strip;
    var (inThinking, text) := KiroThinking.Strip(s.inThinking, content);
    CountAloof(s, s.(inThinking := inThinking, contentLength := s.contentLength + |text|),
               ContentChunk(s.chunkIndex == 0, text));
  }

  lemma ReasoningAloof(s: State, text: string)
    ensures Aloof(s, ReasoningTurn(s, text))
  {
    hide Count, ArgIndexes;
    CountAloof(s, s.(hasReasoning := true, contentLength := s.contentLength + |text|,
                     reasoningChunks := s.reasoningChunks + 1),
               ReasoningChunk(s.reasoningChunks == 0 && s.chunkIndex == 0, text));
  }

  lemma TurnAloof(s: State, e: Event)
    requires !e.ToolUses?
    ensures Aloof(s, Turn(s, e))
  {
    TurnIs(s, e);
    hide ArgIndexes, Turn, AssistantTurn, ReasoningTurn, Count, Emit, Tools;
    match e
    case Assistant(content) => AssistantAloof(s, content);
    case Reasoning(text) => ReasoningAloof(s, text);
    case Code(content) => CountAloof(s, s, CodeChunk(content));
    case MessageStop => CountAloof(s, s.(finishEmitted := true), Finish(s.hasToolCalls, None));
    case _ => TurnLeaves(s, e);
  }

  lemma SettleAloof(s: State, window: int)
    ensures Aloof(s, Settle(s, window))
  {
    hide ArgIndexes, Emit, Estimate;
    var usage := FinalUsage(s, window);
    CountAloof(s, s.(finishEmitted := true, usage := usage), Finish(s.hasToolCalls, usage));
  }

  lemma AloofSpoken(s: State, t: State, items: seq<Item>)
    requires Spoken(s, items) && Aloof(s, t)
    ensures Spoken(t, items)
  {
    hide ArgIndexes;
  }

  lemma HandleSpoken(s: State, window: int, e: Event, items: seq<Item>)
    requires Spoken(s, items) && !s.failed && (e.ToolUses? ==> forall i :: i in e.items ==> Speaks(i))
    ensures Spoken(Handle(s, window, e), items + (if e.ToolUses? then e.items else []))
  {
    hide Spoken, Turn, Settle, Skips, Tools, Aloof, Speaks;
    assert items + [] == items;
    if e.ToolUses? {
      FlagSpoken(s, items);
      ToolsSpoken(s.(hasToolCalls := true), items, e.items);
      TurnIs(s, e);
    } else {
      TurnAloof(s, e);
      AloofSpoken(s, Turn(s, e), items);
    }
    SettleAloof(Turn(s, e), window);
    AloofSpoken(Turn(s, e), Settle(Turn(s, e), window), items + (if e.ToolUses? then e.items else []));
  }

  lemma FlagSpoken(s: State, items: seq<Item>)
    requires Spoken(s, items)
    ensures Spoken(s.(hasToolCalls := true), items)
  {
  }

  ghost predicate AllSpeak(es: seq<Event>) { forall i :: i in Items(es) ==> Speaks(i) }

  lemma {:induction false} SpokenRun(window: int, es: seq<Event>)
    requires AllSpeak(es)
    ensures Spoken(Run(window, es), Items(es)) && !Run(window, es).failed
  {
    AllTools(Items(es));
    Unfailing(window, es);
    if es != [] {
      var init, e := es[..|es| - 1], es[|es| - 1];
      assert es == init + [e];
      ItemsSnoc(init, e);
      hide Spoken, Handle, Speaks;
      SpokenRun(window, init);
      HandleSpoken(Run(window, init), window, e, Items(init));
    }
  }

  /** Two tool uses share an id exactly if their arguments went under the same index. */
  lemma IndexMeansId(s: State, items: seq<Item>, i: nat, j: nat)
    requires Spoken(s, items) && IndexOk(s) && i < |items| && j < |items|
    ensures items[i].id == items[j].id <==> ArgIndexes(s.out)[i] == ArgIndexes(s.out)[j]
  {
    hide ArgIndexes, Starts;
  }

  lemma FlushAloof(s: State)
    ensures ArgIndexes(Flush(s).out) == ArgIndexes(s.out)
  {
    var c := Finish(s.hasToolCalls, None);
    ArgIndexesSnoc(s.out, Done);
    ArgIndexesSnoc(s.out, c);
    ArgIndexesSnoc(s.out + [c], Done);
    hide ArgIndexes;
  }

  lemma SpokenSent(window: int, es: seq<Event>, i: nat, j: nat)
    requires AllSpeak(es) && i < |Items(es)| && j < |Items(es)|
    ensures var indexes := ArgIndexes(Sent(window, es));
            && |indexes| == |Items(es)| && Items(es)[i].Tool? && Items(es)[j].Tool?
            && (Items(es)[i].id == Items(es)[j].id <==> indexes[i] == indexes[j])
  {
    SpokenRun(window, es);
    InvRun(window, es);
    FlushAloof(Run(window, es));
    hide Run, Items, ArgIndexes, IndexOk, ArgsOk, RoleOk, ArgsFollow, Flush;
    IndexMeansId(Run(window, es), Items(es), i, j);
  }

  lemma {:induction false} SameArgIndexes(a: seq<Chunk>, b: seq<Chunk>)
    requires SameOut(a, b)
    ensures ArgIndexes(a) == ArgIndexes(b)
  {
    if a != [] {
      assert SameChunk(a[|a| - 1], b[|b| - 1]);
      hide SameId;
      SameArgIndexes(a[..|a| - 1], b[..|b| - 1]);
    }
  }

  lemma {:induction false} DatedSpeak(clock: Clock, k: nat, items: seq<Item>)
    requires forall i :: i in items ==> Speaks(i)
    ensures forall i :: i in DatedItems(clock, k, items) ==> Speaks(i)
  {
    if items != [] {
      var init := items[..|items| - 1];
      var last := items[|items| - 1];
      assert items == init + [last];
      DatedSpeak(clock, k, init);
      hide ClockId;
      assert Speaks(last) && Speaks(Dated(clock, k + Lacking(init), last));
    }
  }

  /** Where every tool use brings arguments, two clocks show the client the same, up to the ids made from
      them, if and only if they make the same tool uses share an id. */
  lemma ClocksCompared(window: int, c: Clock, d: Clock, es: seq<Event>)
    requires AllSpeak(es)
    ensures SameOut(Sent(window, DatedAll(c, 0, es)), Sent(window, DatedAll(d, 0, es))) <==>
              SamePattern(DatedItems(c, 0, Items(es)), DatedItems(d, 0, Items(es)))
  {
    hide Sent, DatedAll, DatedItems, Items, ArgIndexes, SameOut, Speaks, SameItem;
    var items := Items(es);
    var xs, ys := DatedItems(c, 0, items), DatedItems(d, 0, items);
    var a, b := Sent(window, DatedAll(c, 0, es)), Sent(window, DatedAll(d, 0, es));
    if SameOut(a, b) {
      SameArgIndexes(a, b);
      AllTools(items);
      forall j | 0 <= j < |xs| ensures xs[j].Tool? && ys[j].Tool? && SameItem(xs[j], ys[j]) {
        assert items[j] in items;
        SameDatedItem(c, d, items, j);
      }
      forall i, j | 0 <= i < |xs| && 0 <= j < |xs|
        ensures xs[i].id == xs[j].id <==> ys[i].id == ys[j].id
      {
        DatedSent(window, c, es, i, j);
        DatedSent(window, d, es, i, j);
      }
    } else if SamePattern(xs, ys) {
      SamePatternSameSent(window, c, d, es);
    }
  }

  lemma DatedSent(window: int, clock: Clock, es: seq<Event>, i: nat, j: nat)
    requires AllSpeak(es) && i < |Items(es)| && j < |Items(es)|
    ensures var xs, indexes := DatedItems(clock, 0, Items(es)), ArgIndexes(Sent(window, DatedAll(clock, 0, es)));
            |indexes| == |xs| && xs[i].Tool? && xs[j].Tool? && (xs[i].id == xs[j].id <==> indexes[i] == indexes[j])
  {
    ItemsDated(clock, es);
    DatedSpeak(clock, 0, Items(es));
    AllTools(DatedItems(clock, 0, Items(es)));
    hide Sent, DatedAll, DatedItems, Items, ArgIndexes, Speaks;
    SpokenSent(window, DatedAll(clock, 0, es), i, j);
  }

  lemma SameDatedItem(c: Clock, d: Clock, items: seq<Item>, j: nat)
    requires j < |items| && items[j].Tool?
    ensures var x, y := DatedItems(c, 0, items)[j], DatedItems(d, 0, items)[j];
            x.Tool? && y.Tool? && SameItem(x, y)
  {
    DatedId(c, items, j);
    DatedId(d, items, j);
    hide DatedItems, OwnIds, IsClockId;
  }

  /** The first `n` readings of the two clocks are equal in the same places. */
  ghost predicate SameTicks(c: Clock, d: Clock, n: nat) {
    forall i: nat, j: nat :: i < n && j < n ==> (c(i) == c(j) <==> d(i) == d(j))
  }

  lemma DatedReading(clock: Clock, items: seq<Item>, j: nat)
    requires j < |items| && Lacks(items[j])
    ensures Lacking(items[..j]) < Lacking(items)
    ensures DatedItems(clock, 0, items)[j] == items[j].(id := ClockId(clock(Lacking(items[..j]))))
  {
    hide ClockId, DatedItems, Lacking;
    DatedAt(clock, 0, items, j);
    LackingBefore(items, j);
  }

  lemma LackingBefore(items: seq<Item>, j: nat)
    requires j < |items| && Lacks(items[j])
    ensures Lacking(items[..j]) < Lacking(items)
  {
    hide Lacking;
    var rest := items[j..];
    assert items == items[..j] + rest && rest[0] in rest;
    LackingConcat(items[..j], rest);
    NothingLacks(rest);
  }

  lemma {:induction false} WhichLacks(items: seq<Item>, r: nat) returns (j: nat)
    requires r < Lacking(items)
    ensures j < |items| && Lacks(items[j]) && Lacking(items[..j]) == r
  {
    var init := items[..|items| - 1];
    if r < Lacking(init) {
      j := WhichLacks(init, r);
      assert init[..j] == items[..j];
    } else {
      j := |init|;
    }
  }

  lemma PairTicks(c: Clock, items: seq<Item>, i: nat, j: nat)
    requires i < |items| && j < |items| && Lacks(items[i]) && Lacks(items[j])
    ensures var xs := DatedItems(c, 0, items);
            && Lacking(items[..i]) < Lacking(items) && Lacking(items[..j]) < Lacking(items)
            && xs[i].Tool? && xs[j].Tool?
            && (xs[i].id == xs[j].id <==> c(Lacking(items[..i])) == c(Lacking(items[..j])))
  {
    DatedReading(c, items, i);
    DatedReading(c, items, j);
    hide ClockId, DatedItems, Lacking;
    var t, u := c(Lacking(items[..i])), c(Lacking(items[..j]));
    if ClockId(t) == ClockId(u) { ClockIdInjective(t, u); }
  }

  lemma PairOther(c: Clock, items: seq<Item>, i: nat, j: nat)
    requires i < |items| && j < |items| && items[i].Tool? && items[j].Tool? && !(Lacks(items[i]) && Lacks(items[j]))
    requires forall id :: id in OwnIds(items) ==> !IsClockId(id)
    ensures var xs := DatedItems(c, 0, items);
            xs[i].Tool? && xs[j].Tool? && (xs[i].id == xs[j].id <==> items[i].id == items[j].id)
  {
    DatedId(c, items, i);
    DatedId(c, items, j);
    hide DatedItems, OwnIds, IsClockId;
  }

  /** Where no id brought looks as if made from the clock, the pattern is that of the readings. */
  lemma PatternMeansTicks(c: Clock, d: Clock, items: seq<Item>)
    requires (forall i :: i in items ==> i.Tool?) && forall id :: id in OwnIds(items) ==> !IsClockId(id)
    ensures SamePattern(DatedItems(c, 0, items), DatedItems(d, 0, items)) <==> SameTicks(c, d, Lacking(items))
  {
    hide DatedItems, OwnIds, IsClockId, Lacking, SameItem;
    var xs, ys := DatedItems(c, 0, items), DatedItems(d, 0, items);
    if SamePattern(xs, ys) {
      forall r: nat, s: nat | r < Lacking(items) && s < Lacking(items) ensures c(r) == c(s) <==> d(r) == d(s) {
        var i := WhichLacks(items, r);
        var j := WhichLacks(items, s);
        PairTicks(c, items, i, j);
        PairTicks(d, items, i, j);
      }
    }
    if SameTicks(c, d, Lacking(items)) {
      forall j | 0 <= j < |items| ensures xs[j].Tool? && ys[j].Tool? && SameItem(xs[j], ys[j]) {
        assert items[j] in items;
        SameDatedItem(c, d, items, j);
      }
      forall i, j | 0 <= i < |xs| && 0 <= j < |xs|
        ensures xs[i].id == xs[j].id <==> ys[i].id == ys[j].id
      {
        assert items[i] in items && items[j] in items;
        if Lacks(items[i]) && Lacks(items[j]) {
          PairTicks(c, items, i, j);
          PairTicks(d, items, i, j);
        } else {
          PairOther(c, items, i, j);
          PairOther(d, items, i, j);
        }
      }
    }
  }

  // ---------------------------------------------------------------- tool uses without arguments

  function Silent(id: string): Item { Tool(id, "", Input.Missing) }

  /** Of tool uses without arguments, only the first of each id is seen. */
  lemma SilentTool(s: State, id: string)
    requires !s.failed
    ensures OneTool(s, Silent(id)) == if id in s.seen then s else Start(s, id, "")
  {
    hide Start;
    OneToolIs(s, Silent(id));
  }

  lemma ThreeSilent(window: int, a: string, b: string, first: bool)
    requires a != b
    ensures Sent(window, [ToolUses([Silent(a), Silent(if first then a else b), Silent(b)])]) ==
              [ToolStart(true, 0, a, ""), ToolStart(false, 1, b, ""), Finish(true, None), Done]
  {
    var items := [Silent(a), Silent(if first then a else b), Silent(b)];
    var e := ToolUses(items);
    var s := INIT.(hasToolCalls := true);
    assert items[..2] == [items[0], items[1]] && items[..2][..1] == [items[0]] && [items[0]][..0] == [];
    assert Tools(s, []) == s;
    SilentTool(s, a);
    var one := Start(s, a, "");
    StartSees(s, a, "");
    assert Tools(s, [items[0]]) == one;
    SilentTool(one, items[1].id);
    SilentTool(one, b);
    var two := Start(one, b, "");
    StartSees(one, b, "");
    SilentTool(two, b);
    assert Tools(s, items[..2]) == if first then one else two;
    assert Tools(s, items) == two;
    assert [e][..0] == [] && Run(window, []) == INIT;
    assert Run(window, [e]) == two;
    assert [] + [ToolStart(true, 0, a, "")] == [ToolStart(true, 0, a, "")];
  }

  /** A clock that ticks once, behind the first `n` readings. */
  function TickAfter(t: nat, n: nat): Clock { (k: nat) => if k < n then t else t + 1 }

  lemma ThreeDated(t: nat, first: bool)
    ensures var three := [Silent(""), Silent(""), Silent("")];
            DatedItems(TickAfter(t, if first then 2 else 1), 0, three) ==
              [Silent(ClockId(t)), Silent(ClockId(if first then t else t + 1)), Silent(ClockId(t + 1))]
  {
    hide ClockId, DatedItems, Lacking;
    var clock, i := TickAfter(t, if first then 2 else 1), Silent("");
    NoItems(clock);
    assert [i] == [] + [i] && [i, i] == [i] + [i] && [i, i, i] == [i, i] + [i];
    DatedSnoc(clock, 0, [], i);
    DatedSnoc(clock, 0, [i], i);
    DatedSnoc(clock, 0, [i, i], i);
  }

  lemma NoItems(clock: Clock)
    ensures Lacking([]) == 0 && DatedItems(clock, 0, []) == []
  {
  }

  lemma OneEvent(clock: Clock, items: seq<Item>)
    ensures Items([ToolUses(items)]) == items
    ensures DatedAll(clock, 0, [ToolUses(items)]) == [ToolUses(DatedItems(clock, 0, items))]
  {
    hide DatedItems, DatedAll, Items, Readings;
    var e, none: seq<Event> := ToolUses(items), [];
    NoEvents(clock);
    assert none + [e] == [e] && [] + items == items;
    ItemsSnoc(none, e);
    DatedAllSnoc(clock, 0, none, e);
    assert [] + [DatedEvent(clock, 0, e)] == [DatedEvent(clock, 0, e)];
  }

  lemma NoEvents(clock: Clock)
    ensures Items([]) == [] && Readings([]) == 0 && DatedAll(clock, 0, []) == []
  {
  }

  lemma NotSamePattern(xs: seq<Item>, ys: seq<Item>)
    requires |xs| >= 2 && |ys| >= 2 && xs[0].Tool? && xs[1].Tool? && ys[0].Tool? && ys[1].Tool?
    requires xs[0].id == xs[1].id && ys[0].id != ys[1].id
    ensures !SamePattern(xs, ys)
  {
  }

  /** So where arguments are missing two clocks may show the same although they do not make the same tool
      uses share an id. */
  lemma SilentUses(window: int, t: nat)
    ensures var es := [ToolUses([Silent(""), Silent(""), Silent("")])];
            var c, d := TickAfter(t, 2), TickAfter(t, 1);
            && Sent(window, DatedAll(c, 0, es)) == Sent(window, DatedAll(d, 0, es))
            && !SamePattern(DatedItems(c, 0, Items(es)), DatedItems(d, 0, Items(es)))
  {
    hide ClockId, Sent, DatedItems, DatedAll, Items, SamePattern, TickAfter;
    var three := [Silent(""), Silent(""), Silent("")];
    if ClockId(t) == ClockId(t + 1) { ClockIdInjective(t, t + 1); }
    ThreeSilent(window, ClockId(t), ClockId(t + 1), true);
    ThreeSilent(window, ClockId(t), ClockId(t + 1), false);
    ThreeDated(t, true);
    ThreeDated(t, false);
    OneEvent(TickAfter(t, 2), three);
    OneEvent(TickAfter(t, 1), three);
    NotSamePattern(DatedItems(TickAfter(t, 2), 0, three), DatedItems(TickAfter(t, 1), 0, three));
  }
}
