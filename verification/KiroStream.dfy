/** The Kiro executor's transform as a whole (open-sse/executors/kiro.js): framing, frame parsing and
    the event loop for every chunk, and a keepalive for a chunk that gave the client nothing. */
module KiroStream {
  import opened Basics
  import opened Bytes
  import opened KiroFraming
  import opened KiroEvents
  import opened KiroThinking
  import opened Text
  import opened KiroClock
  import opened KiroClockShows
  import KiroFrame

  /** `interpret` stands for the text decoding, the JSON parser and the reading of the payload: it
      gives the event of a frame, in which a tool use that brings no id has an empty one. */
  type Interpret = seq<byte> -> Event

  /** `readings` counts how often the clock was read for an id. */
  datatype Pipe = Pipe(buffer: seq<byte>, state: State, readings: nat)

  function HandleAll(s: State, window: int, es: seq<Event>): State {
    if es == [] then s else Handle(HandleAll(s, window, es[..|es| - 1]), window, es[|es| - 1])
  }

  /** The frames of one call, when the clock was read `k` times before. */
  function HandleFrames(s: State, window: int, interpret: Interpret, clock: Clock, k: nat, frames: seq<seq<byte>>)
    : State
  {
    HandleAll(s, window, DatedAll(clock, k, Events(interpret, frames)))
  }

  /** The keepalive at the end of a call. */
  function Close(before: State, s: State): State {
    if !s.failed && s.chunkIndex == before.chunkIndex && !s.finishEmitted then Emit(s, KeepAlive) else s
  }

  function Transform(p: Pipe, window: int, interpret: Interpret, clock: Clock, chunk: seq<byte>): Pipe {
    var (frames, rest) := Take(p.buffer + chunk, MAX_ITERATIONS);
    Pipe(rest, Close(p.state, HandleFrames(p.state, window, interpret, clock, p.readings, frames)),
         p.readings + Readings(Events(interpret, frames)))
  }

  function TransformAll(window: int, interpret: Interpret, clock: Clock, chunks: seq<seq<byte>>): Pipe {
    if chunks == [] then Pipe([], INIT, 0)
    else
      Transform(TransformAll(window, interpret, clock, chunks[..|chunks| - 1]), window, interpret, clock,
                chunks[|chunks| - 1])
  }

  function Events(interpret: Interpret, frames: seq<seq<byte>>): seq<Event> {
    seq(|frames|, i requires 0 <= i < |frames| => interpret(frames[i]))
  }

  // ---------------------------------------------------------------- keepalives aside

  function IsReal(): Chunk -> bool { (c: Chunk) => !c.KeepAlive? }

  /** A client ignores keepalives. */
  function Quiet(s: State): State { s.(out := Filter(IsReal(), s.out)) }

  lemma QuietOut(out: seq<Chunk>, c: Chunk)
    ensures Filter(IsReal(), out + [c]) == if c.KeepAlive? then Filter(IsReal(), out) else Filter(IsReal(), out) + [c]
  {
    assert (out + [c])[..|out|] == out;
  }

  lemma QuietEmit(s: State, c: Chunk)
    requires !c.KeepAlive?
    ensures Quiet(Emit(s, c)) == Emit(Quiet(s), c)
  {
    hide Filter;
    QuietOut(s.out, c);
  }

  lemma QuietCount(s: State, c: Chunk)
    requires !c.KeepAlive?
    ensures Quiet(Count(s, c)) == Count(Quiet(s), c)
  {
    hide Filter;
    QuietOut(s.out, c);
  }

  lemma QuietPass(s: State, id: string, input: Input)
    requires id in s.seen
    ensures Quiet(Pass(s, id, input)) == Pass(Quiet(s), id, input)
  {
    hide Filter, Count;
    match input
    case Missing =>
    case Text(text) => QuietCount(s, ToolArgs(s.seen[id], text));
    case Object(json) => QuietCount(s, ToolArgs(s.seen[id], json));
    case Other =>
  }

  lemma QuietStart(s: State, id: string, name: string)
    ensures Quiet(Start(s, id, name)) == Start(Quiet(s), id, name)
  {
    hide Filter, Count;
    QuietCount(s.(toolCallIndex := s.toolCallIndex + 1, seen := s.seen[id := s.toolCallIndex]),
               ToolStart(s.chunkIndex == 0, s.toolCallIndex, id, name));
  }

  lemma StartSeen(s: State, id: string, name: string)
    ensures Start(s, id, name).seen == s.seen[id := s.toolCallIndex] && Grows(s, Start(s, id, name))
  {
  }

  lemma QuietOneTool(s: State, i: Item)
    ensures Quiet(OneTool(s, i)) == OneTool(Quiet(s), i)
  {
    hide Filter, Pass, Count;
    if i.Tool? && !s.failed {
      if i.id in s.seen {
        QuietPass(s, i.id, i.input);
      } else {
        QuietStart(s, i.id, i.name);
        StartSeen(s, i.id, i.name);
        hide Start;
        QuietPass(Start(s, i.id, i.name), i.id, i.input);
      }
    }
  }

  lemma {:induction false} QuietTools(s: State, items: seq<Item>)
    ensures Quiet(Tools(s, items)) == Tools(Quiet(s), items)
  {
    if items != [] {
      hide OneTool, Quiet;
      QuietTools(s, items[..|items| - 1]);
      QuietOneTool(Tools(s, items[..|items| - 1]), items[|items| - 1]);
    }
  }

  lemma QuietAssistant(s: State, content: string)
    ensures Quiet(AssistantTurn(s, content)) == AssistantTurn(Quiet(s), content)
  {
    hide Filter, Strip, Count;
    var (inThinking, text) := Strip(s.inThinking, content);
    QuietCount(s.(inThinking := inThinking, contentLength := s.contentLength + |text|),
               ContentChunk(s.chunkIndex == 0, text));
  }

  lemma QuietReasoning(s: State, text: string)
    ensures Quiet(ReasoningTurn(s, text)) == ReasoningTurn(Quiet(s), text)
  {
    hide Filter, Count;
    QuietCount(s.(hasReasoning := true, contentLength := s.contentLength + |text|,
                  reasoningChunks := s.reasoningChunks + 1),
               ReasoningChunk(s.reasoningChunks == 0 && s.chunkIndex == 0, text));
  }

  lemma QuietTurn(s: State, e: Event)
    ensures Quiet(Turn(s, e)) == Turn(Quiet(s), e)
  {
    hide Quiet, Turn, AssistantTurn, ReasoningTurn, CodeTurn, Tools;
    TurnIs(s, e);
    TurnIs(Quiet(s), e);
    match e
    case Assistant(content) => QuietAssistant(s, content);
    case Reasoning(text) => QuietReasoning(s, text);
    case Code(content) => QuietCode(s, content);
    case ToolUses(items) => QuietToolTurn(s, items);
    case _ => QuietOther(s, e);
  }

  lemma QuietCode(s: State, content: string)
    ensures Quiet(CodeTurn(s, content)) == CodeTurn(Quiet(s), content)
  {
    hide Filter, Count;
    QuietCount(s, CodeChunk(content));
  }

  lemma QuietToolTurn(s: State, items: seq<Item>)
    ensures Quiet(Tools(s.(hasToolCalls := true), items)) == Tools(Quiet(s).(hasToolCalls := true), items)
  {
    hide Filter, Tools;
    QuietTools(s.(hasToolCalls := true), items);
  }

  lemma QuietOther(s: State, e: Event)
    requires !e.Assistant? && !e.Reasoning? && !e.Code? && !e.ToolUses?
    ensures Quiet(Turn(s, e)) == Turn(Quiet(s), e)
  {
    hide Filter, Emit;
    if e.MessageStop? { QuietEmit(s.(finishEmitted := true), Finish(s.hasToolCalls, None)); }
  }

  lemma QuietSettle(s: State, window: int)
    ensures Quiet(Settle(s, window)) == Settle(Quiet(s), window)
  {
    hide Filter, Emit, Estimate;
    var usage := FinalUsage(s, window);
    QuietEmit(s.(finishEmitted := true, usage := usage), Finish(s.hasToolCalls, usage));
  }

  lemma QuietHandle(s: State, window: int, e: Event)
    ensures Quiet(Handle(s, window, e)) == Handle(Quiet(s), window, e)
  {
    hide Filter, Turn, Settle;
    QuietTurn(s, e);
    QuietSettle(Turn(s, e), window);
  }

  lemma QuietClose(before: State, s: State)
    ensures Quiet(Close(before, s)) == Quiet(s)
  {
    hide Filter;
    QuietOut(s.out, KeepAlive);
  }

  lemma {:induction false} QuietAll(s: State, window: int, done: seq<Event>, es: seq<Event>)
    requires Quiet(s) == Run(window, done)
    ensures Quiet(HandleAll(s, window, es)) == Run(window, done + es)
  {
    hide Quiet, Handle;
    if es == [] {
      assert done + es == done;
    } else {
      var init, e := es[..|es| - 1], es[|es| - 1];
      QuietAll(s, window, done, init);
      assert (done + es)[..|done + es| - 1] == done + init;
      QuietHandle(HandleAll(s, window, init), window, e);
    }
  }

  // ---------------------------------------------------------------- any way of cutting

  /** The pipe holds the framing's buffer, and the chunks sent, keepalives aside, are those of the events of
      the frames given out so far. */
  ghost predicate InStep(p: Pipe, r: Stream, window: int, interpret: Interpret, clock: Clock) {
    var es := Events(interpret, r.frames);
    && p.buffer == r.buffer && p.readings == Readings(es)
    && Quiet(p.state) == Run(window, DatedAll(clock, 0, es))
  }

  lemma PipeStep(p: Pipe, r: Stream, window: int, interpret: Interpret, clock: Clock, chunk: seq<byte>)
    requires InStep(p, r, window, interpret, clock)
    ensures InStep(Transform(p, window, interpret, clock, chunk), Receive(r, chunk), window, interpret, clock)
  {
    hide Quiet, Take, Close, Readings, DatedAll, Run, HandleAll, Events;
    var frames := Take(p.buffer + chunk, MAX_ITERATIONS).0;
    var done, es := Events(interpret, r.frames), Events(interpret, frames);
    QuietAll(p.state, window, DatedAll(clock, 0, done), DatedAll(clock, p.readings, es));
    QuietClose(p.state, HandleFrames(p.state, window, interpret, clock, p.readings, frames));
    EventsConcat(interpret, r.frames, frames);
    DatedAllConcat(clock, 0, done, es);
    ReadingsConcat(done, es);
  }

  lemma PipeStart(window: int, interpret: Interpret, clock: Clock)
    ensures InStep(Pipe([], INIT, 0), Stream([], []), window, interpret, clock)
  {
    assert Events(interpret, []) == [];
  }

  /** After any chunks. */
  lemma {:induction false} PipeRun(window: int, interpret: Interpret, clock: Clock, chunks: seq<seq<byte>>)
    ensures InStep(TransformAll(window, interpret, clock, chunks), ReceiveAll(chunks), window, interpret, clock)
  {
    hide InStep, Transform, Receive;
    if chunks == [] {
      PipeStart(window, interpret, clock);
    } else {
      var before := chunks[..|chunks| - 1];
      PipeRun(window, interpret, clock, before);
      PipeStep(TransformAll(window, interpret, clock, before), ReceiveAll(before), window, interpret, clock,
               chunks[|chunks| - 1]);
    }
  }

  lemma EventsConcat(interpret: Interpret, a: seq<seq<byte>>, b: seq<seq<byte>>)
    ensures Events(interpret, a + b) == Events(interpret, a) + Events(interpret, b)
  {
  }

  /** What a client sees of a whole response, keepalives aside. */
  function Output(window: int, interpret: Interpret, clock: Clock, chunks: seq<seq<byte>>): seq<Chunk> {
    Quiet(Flush(TransformAll(window, interpret, clock, chunks).state)).out
  }

  /** The events of the bytes: of all complete frames. */
  function EventsOf(interpret: Interpret, bytes: seq<byte>): seq<Event> { Events(interpret, Greedy(bytes)) }

  /** It depends on the bytes and the readings of the clock alone: it is the run over the events of the
      bytes, however they were cut, as long as the last call was not cut short by the iteration cap. */
  lemma CutsDoNotShow(window: int, interpret: Interpret, clock: Clock, chunks: seq<seq<byte>>, last: seq<byte>)
    requires !Capped(ReceiveAll(chunks), last)
    ensures var es := DatedAll(clock, 0, EventsOf(interpret, Flatten(chunks + [last])));
            && Quiet(TransformAll(window, interpret, clock, chunks + [last]).state) == Run(window, es)
            && Output(window, interpret, clock, chunks + [last]) == Sent(window, es)
  {
    hide Quiet, TransformAll, ReceiveAll, Greedy, Capped, Run, Flush, DatedAll, Readings;
    PipeRun(window, interpret, clock, chunks + [last]);
    ExactUnlessCapped(chunks, last);
    QuietFlush(TransformAll(window, interpret, clock, chunks + [last]).state);
  }

  lemma QuietFlush(s: State)
    ensures Quiet(Flush(s)) == Flush(Quiet(s))
  {
    hide Filter, Emit;
    var finished := Emit(s.(finishEmitted := true), Finish(s.hasToolCalls, None));
    QuietEmit(s.(finishEmitted := true), Finish(s.hasToolCalls, None));
    QuietEmit(s, Done);
    QuietEmit(finished, Done);
  }

  // ---------------------------------------------------------------- the clock and the cuts

  /** Two ways of cutting the same bytes, neither cut short by the iteration cap. */
  ghost predicate SameBytes(a: seq<seq<byte>>, x: seq<byte>, b: seq<seq<byte>>, y: seq<byte>) {
    && Flatten(a + [x]) == Flatten(b + [y])
    && !Capped(ReceiveAll(a), x) && !Capped(ReceiveAll(b), y)
  }

  /** The client sees the same, whatever the cut and the readings, if and only if every tool use of the
      stream brings its own id. */
  lemma CutsNeverShow(window: int, interpret: Interpret, a: seq<seq<byte>>, x: seq<byte>, b: seq<seq<byte>>,
                      y: seq<byte>)
    requires SameBytes(a, x, b, y) && NoNull(EventsOf(interpret, Flatten(a + [x])))
    ensures (forall c, d :: Forward(c) && Forward(d) ==>
               Output(window, interpret, c, a + [x]) == Output(window, interpret, d, b + [y])) <==>
              Readings(EventsOf(interpret, Flatten(a + [x]))) == 0
  {
    var es := EventsOf(interpret, Flatten(a + [x]));
    hide Output, Sent, DatedAll, Readings, NoNull, Flatten, Greedy, EventsOf, Capped, ReceiveAll;
    forall c ensures Output(window, interpret, c, a + [x]) == Sent(window, DatedAll(c, 0, es)) {
      CutsDoNotShow(window, interpret, c, a, x);
    }
    forall c ensures Output(window, interpret, c, b + [y]) == Sent(window, DatedAll(c, 0, es)) {
      CutsDoNotShow(window, interpret, c, b, y);
    }
    ClockHidden(window, es);
  }

  /** It sees the same up to the ids made from the clock if and only if at most one tool use lacks an id
      and, if one does, the others' ids do not look like its own. */
  lemma CutsOnlyRename(window: int, interpret: Interpret, a: seq<seq<byte>>, x: seq<byte>, b: seq<seq<byte>>,
                       y: seq<byte>)
    requires SameBytes(a, x, b, y) && NoNull(EventsOf(interpret, Flatten(a + [x])))
    ensures (forall c, d :: Forward(c) && Forward(d) ==>
               SameOut(Output(window, interpret, c, a + [x]), Output(window, interpret, d, b + [y]))) <==>
              OneLacks(Items(EventsOf(interpret, Flatten(a + [x]))))
  {
    var es := EventsOf(interpret, Flatten(a + [x]));
    hide Output, Sent, DatedAll, NoNull, Flatten, Greedy, EventsOf, Capped, ReceiveAll, SameOut, OneLacks, Items;
    forall c ensures Output(window, interpret, c, a + [x]) == Sent(window, DatedAll(c, 0, es)) {
      CutsDoNotShow(window, interpret, c, a, x);
    }
    forall c ensures Output(window, interpret, c, b + [y]) == Sent(window, DatedAll(c, 0, es)) {
      CutsDoNotShow(window, interpret, c, b, y);
    }
    ClockRenames(window, es);
  }

  /** Of two deliveries in particular the client sees the same up to those ids if they make the same tool
      uses share an id, and only if, where every tool use brings arguments. Unless an id that was brought
      looks like one from the clock, that is: if equal readings are in the same places. */
  lemma DeliveriesCompared(window: int, interpret: Interpret, c: Clock, d: Clock, a: seq<seq<byte>>, x: seq<byte>,
                           b: seq<seq<byte>>, y: seq<byte>)
    requires SameBytes(a, x, b, y)
    ensures var es := EventsOf(interpret, Flatten(a + [x]));
            var same := SameOut(Output(window, interpret, c, a + [x]), Output(window, interpret, d, b + [y]));
            var pattern := SamePattern(DatedItems(c, 0, Items(es)), DatedItems(d, 0, Items(es)));
            && (pattern ==> same) && (AllSpeak(es) ==> (same <==> pattern))
            && (NoNull(es) && (forall id :: id in OwnIds(Items(es)) ==> !IsClockId(id)) ==>
                  (pattern <==> SameTicks(c, d, Readings(es))))
  {
    var es := EventsOf(interpret, Flatten(a + [x]));
    hide Output, Sent, DatedAll, DatedItems, Flatten, Greedy, EventsOf, Capped, ReceiveAll, SameOut, SamePattern, Items;
    hide AllSpeak;
    CutsDoNotShow(window, interpret, c, a, x);
    CutsDoNotShow(window, interpret, d, b, y);
    if SamePattern(DatedItems(c, 0, Items(es)), DatedItems(d, 0, Items(es))) { SamePatternSameSent(window, c, d, es); }
    if AllSpeak(es) { ClocksCompared(window, c, d, es); }
    ItemsDated(c, es);
    hide IsClockId, OwnIds, SameTicks, Readings, Lacking;
    if NoNull(es) && forall id :: id in OwnIds(Items(es)) ==> !IsClockId(id) { PatternMeansTicks(c, d, Items(es)); }
  }

  /** The frame parser followed by a reading of headers and payload. A frame is never too short to be
      parsed. */
  function ParseThen(read: KiroFrame.Frame -> Event, beyond: int -> byte, decode: seq<byte> -> string): Interpret {
    (data: seq<byte>) =>
      match KiroFrame.Parse(data, beyond, decode)
      case None => Unknown
      case Some(frame) => read(frame)
  }

  /** The events that the messages' own headers and payloads stand for. */
  function EventsOfMessages(ms: seq<KiroFrame.Message>, read: KiroFrame.Frame -> Event, decode: seq<byte> -> string)
    : seq<Event>
  {
    seq(|ms|, i requires 0 <= i < |ms| =>
      read(KiroFrame.Frame(KiroFrame.HeaderMap(ms[i].headers, decode, map[]), ms[i].payload)))
  }

  /** End to end: of any encoded messages, cut into any chunks, the client sees the run over the events
      that the messages stand for, with ids from the clock where they bring none, ended by the flush. */
  lemma MessagesToChunks(ms: seq<KiroFrame.Message>, window: int, read: KiroFrame.Frame -> Event, beyond: int -> byte,
                         decode: seq<byte> -> string, clock: Clock, chunks: seq<seq<byte>>, last: seq<byte>)
    requires KiroFrame.AreMessages(ms) && Flatten(chunks + [last]) == Flatten(KiroFrame.EncodeAll(ms))
    requires !Capped(ReceiveAll(chunks), last)
    ensures var es := EventsOfMessages(ms, read, decode);
            var out := Output(window, ParseThen(read, beyond, decode), clock, chunks + [last]);
            && out == Sent(window, DatedAll(clock, 0, es))
            && (Readings(es) == 0 ==> out == Sent(window, es))
  {
    hide Output, Sent, DatedAll, Readings, TransformAll, ReceiveAll, Run, Capped, Greedy, Flatten, KiroFrame.Parse;
    hide KiroFrame.HeaderMap;
    var interpret, es := ParseThen(read, beyond, decode), EventsOfMessages(ms, read, decode);
    KiroFrame.StreamRoundTrip(ms, chunks, last, beyond, decode);
    ExactUnlessCapped(chunks, last);
    CutsDoNotShow(window, interpret, clock, chunks, last);
    assert Events(interpret, Greedy(Flatten(chunks + [last]))) == es;
    if Readings(es) == 0 { DatedAllOwn(clock, 0, es); }
  }

  // ---------------------------------------------------------------- no silence

  /** Nothing sent is taken back. Each chunk that counts was sent, and none of those sent keeps the stream
      alive or ends it; if none counts and the stream is not finished, none was sent. */
  ghost predicate Grows(s: State, t: State) {
    && s.out <= t.out && (s.finishEmitted ==> t.finishEmitted)
    && t.chunkIndex >= s.chunkIndex && |t.out| - |s.out| >= t.chunkIndex - s.chunkIndex
    && (t.chunkIndex == s.chunkIndex && !t.finishEmitted ==> t.out == s.out)
    && forall k :: |s.out| <= k < |t.out| ==> !t.out[k].KeepAlive? && !t.out[k].Done?
  }

  lemma GrowsOn(s: State, t: State, u: State)
    requires Grows(s, t) && Grows(t, u)
    ensures Grows(s, u)
  {
  }

  lemma PassGrows(s: State, id: string, input: Input)
    requires id in s.seen
    ensures Grows(s, Pass(s, id, input))
  {
  }

  lemma OneToolGrows(s: State, i: Item)
    ensures Grows(s, OneTool(s, i))
  {
    hide Start, Pass;
    if i.Tool? && !s.failed {
      if i.id in s.seen {
        PassGrows(s, i.id, i.input);
      } else {
        StartSeen(s, i.id, i.name);
        PassGrows(Start(s, i.id, i.name), i.id, i.input);
      }
    }
  }

  lemma {:induction false} ToolsGrow(s: State, items: seq<Item>)
    ensures Grows(s, Tools(s, items))
  {
    if items != [] {
      hide OneTool, Grows;
      var init := Tools(s, items[..|items| - 1]);
      ToolsGrow(s, items[..|items| - 1]);
      OneToolGrows(init, items[|items| - 1]);
      GrowsOn(s, init, Tools(s, items));
    } else {
      assert Grows(s, s);
    }
  }

  lemma TurnGrows(s: State, e: Event)
    ensures Grows(s, Turn(s, e))
  {
    TurnIs(s, e);
    hide Turn, Strip, Tools, AssistantTurn, ReasoningTurn;
    match e
    case Assistant(content) => AssistantGrows(s, content);
    case Reasoning(text) => ReasoningGrows(s, text);
    case Code(content) =>
    case ToolUses(items) => ToolsGrow(s.(hasToolCalls := true), items);
    case MessageStop =>
    case _ => NoteGrows(s, e);
  }

  lemma NoteGrows(s: State, e: Event)
    requires e.ContextUsage? || e.Metering? || e.Metrics? || e.Unknown?
    ensures Grows(s, Turn(s, e))
  {
    match e
    case ContextUsage(p) =>
    case Metering =>
    case Metrics(input, output) =>
    case Unknown =>
  }

  lemma AssistantGrows(s: State, content: string)
    ensures Grows(s, AssistantTurn(s, content))
  {
    hide Strip, Count;
    var (inThinking, text) := Strip(s.inThinking, content);
    CountGrows(s, s.(inThinking := inThinking, contentLength := s.contentLength + |text|),
               ContentChunk(s.chunkIndex == 0, text));
  }

  lemma CountGrows(s: State, t: State, c: Chunk)
    requires t.out == s.out && t.chunkIndex == s.chunkIndex && t.finishEmitted == s.finishEmitted && Counts(c)
    ensures Grows(s, Count(t, c))
  {
  }

  lemma ReasoningGrows(s: State, text: string)
    ensures Grows(s, ReasoningTurn(s, text))
  {
  }

  lemma HandleGrows(s: State, window: int, e: Event)
    ensures Grows(s, Handle(s, window, e))
  {
    hide Strip, Turn;
    TurnGrows(s, e);
  }

  lemma {:induction false} AllGrow(s: State, window: int, es: seq<Event>)
    ensures Grows(s, HandleAll(s, window, es))
  {
    if es != [] {
      hide Handle, Grows;
      var init := HandleAll(s, window, es[..|es| - 1]);
      AllGrow(s, window, es[..|es| - 1]);
      HandleGrows(init, window, es[|es| - 1]);
      GrowsOn(s, init, HandleAll(s, window, es));
    } else {
      assert Grows(s, s);
    }
  }

  lemma HandleLast(s: State, window: int, e: Event)
    requires Finals(Handle(s, window, e).out) != Finals(s.out)
    ensures var out := Handle(s, window, e).out; out != [] && out[|out| - 1].Finish?
  {
    TurnNotes(s, e);
    TurnIs(s, e);
    hide Turn, Finals, Ends, Skips;
  }

  /** Nothing sent is taken back, and the finish chunk of an event is the last that it sends. */
  lemma SentInOrder(window: int, es: seq<Event>, e: Event)
    ensures var was, now := Run(window, es).out, Run(window, es + [e]).out;
            && was <= now
            && (Finals(now) != Finals(was) ==> now[|now| - 1].Finish?)
  {
    hide Run, Handle, Finals;
    RunSnoc(window, es, e);
    var s := Run(window, es);
    HandleGrows(s, window, e);
    if Finals(Handle(s, window, e).out) != Finals(s.out) { HandleLast(s, window, e); }
  }

  /** Until the finish is out, every call sends something: a watchdog never sees a silent call. What a call
      sends comes behind what was sent before, and it is a keepalive alone or has none. */
  lemma NeverSilent(p: Pipe, window: int, interpret: Interpret, clock: Clock, chunk: seq<byte>)
    ensures var t := Transform(p, window, interpret, clock, chunk).state;
            && (t.failed || t.finishEmitted || |t.out| > |p.state.out|)
            && p.state.out <= t.out
            && (t.out == p.state.out + [KeepAlive] ||
                forall k :: |p.state.out| <= k < |t.out| ==> !t.out[k].KeepAlive?)
  {
    hide Take, HandleAll, DatedAll, Readings;
    var frames := Take(p.buffer + chunk, MAX_ITERATIONS).0;
    AllGrow(p.state, window, DatedAll(clock, p.readings, Events(interpret, frames)));
  }

  // ---------------------------------------------------------------- failures

  lemma {:induction false} ToolsFailed(s: State, items: seq<Item>, k: nat)
    requires k <= |items| && Tools(s, items[..k]).failed
    ensures Tools(s, items) == Tools(s, items[..k])
    decreases |items|
  {
    if k < |items| {
      var init := items[..|items| - 1];
      assert init[..k] == items[..k];
      ToolsFailed(s, init, k);
    } else {
      assert items[..k] == items;
    }
  }

  lemma {:induction false} AllFailed(s: State, window: int, es: seq<Event>, k: nat)
    requires k <= |es| && HandleAll(s, window, es[..k]).failed
    ensures HandleAll(s, window, es) == HandleAll(s, window, es[..k])
    decreases |es|
  {
    if k < |es| {
      var init := es[..|es| - 1];
      assert init[..k] == es[..k];
      AllFailed(s, window, init, k);
    } else {
      assert es[..k] == es;
    }
  }

  // ---------------------------------------------------------------- the program

  lemma NoFrames(s: State, window: int, interpret: Interpret, clock: Clock, start: nat, b: seq<byte>)
    ensures Take(b, 0) == ([], b) && HandleFrames(s, window, interpret, clock, start, []) == s
    ensures Readings(Events(interpret, [])) == 0
  {
  }

  lemma OneMoreFrame(s: State, window: int, interpret: Interpret, clock: Clock, start: nat, b: seq<byte>, k: nat)
    requires |Take(b, k).0| == k && Head(Take(b, k).1).Some?
    ensures var (frames, rest) := Take(b, k);
            var n := Head(rest).value;
            var e, readings := interpret(rest[..n]), Readings(Events(interpret, frames));
            && |Take(b, k + 1).0| == k + 1 && Take(b, k + 1).1 == rest[n..]
            && HandleFrames(s, window, interpret, clock, start, Take(b, k + 1).0)
               == Handle(HandleFrames(s, window, interpret, clock, start, frames), window,
                         DatedEvent(clock, start + readings, e))
            && Readings(Events(interpret, Take(b, k + 1).0)) == readings + LackingIn(e)
  {
    hide Take, Head, Handle, DatedEvent, DatedAll, Readings, LackingIn, HandleAll;
    TakeOneMore(b, k);
    var frames, rest := Take(b, k).0, Take(b, k).1;
    var es, e := Events(interpret, frames), interpret(rest[..Head(rest).value]);
    assert Events(interpret, Take(b, k + 1).0) == es + [e];
    DatedAllSnoc(clock, start, es, e);
    AllSnoc(s, window, DatedAll(clock, start, es), DatedEvent(clock, start + Readings(es), e));
  }

  lemma AllSnoc(s: State, window: int, es: seq<Event>, e: Event)
    ensures HandleAll(s, window, es + [e]) == Handle(HandleAll(s, window, es), window, e)
  {
    hide Handle;
    assert (es + [e])[..|es|] == es;
  }

  lemma FailedEarly(s: State, window: int, interpret: Interpret, clock: Clock, start: nat, b: seq<byte>, k: nat)
    requires k <= MAX_ITERATIONS && |Take(b, k).0| == k
    requires HandleFrames(s, window, interpret, clock, start, Take(b, k).0).failed
    ensures HandleFrames(s, window, interpret, clock, start, Take(b, MAX_ITERATIONS).0) ==
              HandleFrames(s, window, interpret, clock, start, Take(b, k).0)
  {
    hide Take, HandleAll, DatedAll;
    TakeFewer(b, k, MAX_ITERATIONS);
    var frames := Take(b, MAX_ITERATIONS).0;
    var es := Events(interpret, frames);
    assert frames[..k] == Take(b, k).0 && es[..k] == Events(interpret, frames[..k]);
    DatedAllPrefix(clock, start, es, k);
    AllFailed(s, window, DatedAll(clock, start, es), k);
  }

  lemma TransformIs(b: seq<byte>, s: State, k: nat, window: int, interpret: Interpret, clock: Clock, chunk: seq<byte>)
    ensures var frames := Take(b + chunk, MAX_ITERATIONS).0;
            Transform(Pipe(b, s, k), window, interpret, clock, chunk) ==
              Pipe(Take(b + chunk, MAX_ITERATIONS).1, Close(s, HandleFrames(s, window, interpret, clock, k, frames)),
                   k + Readings(Events(interpret, frames)))
  {
    hide Take, Close, HandleFrames, Readings;
  }

  lemma NoToolUses(s: State, clock: Clock, k: nat, items: seq<Item>)
    ensures Tools(s, DatedItems(clock, k, items[..0])) == s && Lacking(items[..0]) == 0
  {
  }

  lemma OneMoreTool(s: State, clock: Clock, k: nat, items: seq<Item>, i: nat)
    requires i < |items|
    ensures Tools(s, DatedItems(clock, k, items[..i + 1])) ==
              OneTool(Tools(s, DatedItems(clock, k, items[..i])), Dated(clock, k + Lacking(items[..i]), items[i]))
    ensures Lacking(items[..i + 1]) == Lacking(items[..i]) + (if Lacks(items[i]) then 1 else 0)
  {
    hide OneTool, Tools, Dated, DatedItems, Lacks, Lacking;
    assert items[..i + 1] == items[..i] + [items[i]];
    DatedSnoc(clock, k, items[..i], items[i]);
    ToolsMore(s, DatedItems(clock, k, items[..i]), Dated(clock, k + Lacking(items[..i]), items[i]));
  }

  lemma ToolsMore(s: State, items: seq<Item>, i: Item)
    ensures Tools(s, items + [i]) == OneTool(Tools(s, items), i)
  {
    hide OneTool;
    assert (items + [i])[..|items|] == items;
  }

  lemma DatedFailed(s: State, clock: Clock, k: nat, items: seq<Item>, n: nat)
    requires n <= |items| && Tools(s, DatedItems(clock, k, items[..n])).failed
    ensures Tools(s, DatedItems(clock, k, items)) == Tools(s, DatedItems(clock, k, items[..n]))
  {
    hide Tools, DatedItems;
    DatedPrefix(clock, k, items, n);
    ToolsFailed(s, DatedItems(clock, k, items), n);
  }

  lemma HeadOf(b: seq<byte>)
    ensures Head(b) == if |b| < 16 || U32(b, 0) < 16 || U32(b, 0) > |b| then None else Some(U32(b, 0))
  {
  }

  class EventStream {
    const window: int
    const interpret: Interpret
    const clock: Clock
    var readings: nat
    var buffer: seq<byte>
    var chunkIndex: nat
    var finishEmitted: bool
    var hasToolCalls: bool
    var hasReasoningContent: bool
    var reasoningChunkCount: nat
    var toolCallIndex: nat
    var seenToolIds: map<string, nat>
    var inThinking: bool
    var totalContentLength: nat
    var contextUsagePercentage: real
    var hasContextUsage: bool
    var hasMeteringEvent: bool
    var usage: Option<Usage>
    var failed: bool
    var out: seq<Chunk>

    ghost function View(): State
      reads this
    {
      State(chunkIndex, finishEmitted, hasToolCalls, hasReasoningContent, reasoningChunkCount, toolCallIndex,
            seenToolIds, inThinking, totalContentLength, contextUsagePercentage, hasContextUsage, hasMeteringEvent,
            usage, failed, out)
    }

    constructor (window: int, interpret: Interpret, clock: Clock)
      ensures this.window == window && this.interpret == interpret && this.clock == clock
      ensures View() == INIT && buffer == [] && readings == 0
    {
      this.window, this.interpret, this.clock, buffer, readings := window, interpret, clock, [], 0;
      chunkIndex, finishEmitted, hasToolCalls, hasReasoningContent := 0, false, false, false;
      reasoningChunkCount, toolCallIndex, seenToolIds, inThinking := 0, 0, map[], false;
      totalContentLength, contextUsagePercentage, hasContextUsage, hasMeteringEvent := 0, 0.0, false, false;
      usage, failed, out := None, false, [];
    }

    method Enqueue(c: Chunk)
      modifies this`chunkIndex, this`out
      ensures View() == Count(old(View()), c)
    {
      chunkIndex := chunkIndex + 1;
      out := out + [c];
    }

    method StripThinking(content: string) returns (text: string)
      modifies this`inThinking
      ensures (inThinking, text) == Strip(old(inThinking), content)
    {
      text := content;
      if inThinking {
        if Includes(content, CLOSE) {
          inThinking := false;
          text := DropNewline(After(content, CLOSE));
        } else {
          text := "";
        }
      } else if Includes(content, OPEN) {
        inThinking := true;
        if Includes(content, CLOSE) {
          inThinking := false;
          text := Before(content, OPEN) + DropNewline(After(content, CLOSE));
        } else {
          text := Before(content, OPEN);
        }
      }
    }

    method HandleAssistant(content: string) returns (skipped: bool)
      requires !failed
      modifies this`inThinking, this`totalContentLength, this`chunkIndex, this`out
      ensures View() == AssistantTurn(old(View()), content)
      ensures skipped == Skips(old(View()), Assistant(content))
    {
      hide Strip;
      if content == "" { return false; }
      var text := StripThinking(content);
      if text == "" && hasReasoningContent { return true; }
      totalContentLength := totalContentLength + |text|;
      Enqueue(ContentChunk(chunkIndex == 0, text));
      return false;
    }

    method HandleReasoning(text: string)
      modifies this`hasReasoningContent, this`totalContentLength, this`reasoningChunkCount, this`chunkIndex, this`out
      ensures View() == ReasoningTurn(old(View()), text)
    {
      if text != "" {
        hasReasoningContent := true;
        totalContentLength := totalContentLength + |text|;
        var c := ReasoningChunk(reasoningChunkCount == 0 && chunkIndex == 0, text);
        reasoningChunkCount := reasoningChunkCount + 1;
        Enqueue(c);
      }
    }

    method StartTool(id: string, name: string)
      modifies this`toolCallIndex, this`seenToolIds, this`chunkIndex, this`out
      ensures View() == Start(old(View()), id, name)
    {
      var toolIndex := toolCallIndex;
      toolCallIndex := toolCallIndex + 1;
      seenToolIds := seenToolIds[id := toolIndex];
      Enqueue(ToolStart(chunkIndex == 0, toolIndex, id, name));
    }

    /** The time of day. */
    method Now() returns (t: nat)
      modifies this`readings
      ensures t == clock(old(readings)) && readings == old(readings) + 1
    {
      t := clock(readings);
      readings := readings + 1;
    }

    method HandleToolUse(item: Item)
      requires !failed
      modifies this`failed, this`toolCallIndex, this`seenToolIds, this`chunkIndex, this`out, this`readings
      ensures View() == OneTool(old(View()), Dated(clock, old(readings), item))
      ensures readings == old(readings) + if Lacks(item) then 1 else 0
    {
      hide ClockId;
      if item.Null? {
        failed := true;
        return;
      }
      var id := item.id;
      if id == "" {
        var now := Now();
        id := ClockId(now);
      }
      hide Start;
      if id !in seenToolIds {
        StartSeen(View(), id, item.name);
        StartTool(id, item.name);
      }
      var index := seenToolIds[id];
      match item.input
      case Text(text) => Enqueue(ToolArgs(index, text));
      case Object(json) => Enqueue(ToolArgs(index, json));
      case _ =>
    }

    method HandleToolUses(items: seq<Item>)
      requires !failed
      modifies this`hasToolCalls, this`failed, this`toolCallIndex, this`seenToolIds, this`chunkIndex, this`out,
               this`readings
      ensures View() == Tools(old(View()).(hasToolCalls := true), DatedItems(clock, old(readings), items))
      ensures !failed ==> readings == old(readings) + Lacking(items)
    {
      hide OneTool, Dated, DatedItems, Lacks, Lacking, Tools;
      hasToolCalls := true;
      ghost var start, k := View(), readings;
      NoToolUses(start, clock, k, items);
      for i := 0 to |items|
        invariant !failed && View() == Tools(start, DatedItems(clock, k, items[..i]))
        invariant readings == k + Lacking(items[..i])
      {
        OneMoreTool(start, clock, k, items, i);
        HandleToolUse(items[i]);
        if failed {
          DatedFailed(start, clock, k, items, i + 1);
          return;
        }
      }
      assert items[..|items|] == items;
    }

    method EmitFinal()
      modifies this`finishEmitted, this`usage, this`out
      ensures View() == Settle(old(View()), window)
    {
      hide Estimate;
      if hasMeteringEvent && hasContextUsage && !finishEmitted {
        finishEmitted := true;
        if usage.None? {
          usage := Some(Estimate(contextUsagePercentage, totalContentLength, window));
        }
        out := out + [Finish(hasToolCalls, usage)];
      }
    }

    method HandleTurn(e: Event) returns (skipped: bool)
      requires !failed
      modifies this`finishEmitted, this`hasToolCalls, this`hasReasoningContent, this`reasoningChunkCount,
               this`toolCallIndex, this`seenToolIds, this`inThinking, this`totalContentLength,
               this`contextUsagePercentage, this`hasContextUsage,
               this`hasMeteringEvent, this`usage, this`failed, this`chunkIndex, this`out, this`readings
      ensures View() == Turn(old(View()), DatedEvent(clock, old(readings), e))
      ensures skipped == Skips(old(View()), DatedEvent(clock, old(readings), e))
      ensures !failed ==> readings == old(readings) + LackingIn(e)
    {
      hide AssistantTurn, ReasoningTurn, CodeTurn, Tools, Count, Strip, Turn, DatedItems, Lacking;
      skipped := false;
      TurnIs(View(), DatedEvent(clock, readings, e));
      if e.ContextUsage? || e.Metering? || e.Metrics? || e.Unknown? {
        HandleNote(e);
        return;
      }
      match e
      case Assistant(content) => skipped := HandleAssistant(content);
      case Reasoning(text) => HandleReasoning(text);
      case Code(content) => HandleCode(content);
      case ToolUses(items) => HandleToolUses(items);
      case MessageStop =>
        finishEmitted := true;
        out := out + [Finish(hasToolCalls, None)];
      case _ =>
    }

    /** The events that only leave a note for the final usage. */
    method HandleNote(e: Event)
      requires e.ContextUsage? || e.Metering? || e.Metrics? || e.Unknown?
      modifies this`contextUsagePercentage, this`hasContextUsage, this`hasMeteringEvent, this`usage
      ensures View() == Turn(old(View()), e)
    {
      match e
      case ContextUsage(percentage) =>
        if percentage != 0.0 {
          contextUsagePercentage := percentage;
          hasContextUsage := true;
        }
      case Metering => hasMeteringEvent := true;
      case Metrics(input, output) => if input > 0 || output > 0 { usage := Some(Usage(input, output)); }
      case Unknown =>
    }

    method HandleCode(content: string)
      requires !failed
      modifies this`chunkIndex, this`out
      ensures View() == CodeTurn(old(View()), content)
    {
      if content != "" { Enqueue(CodeChunk(content)); }
    }

    method HandleEvent(e: Event)
      requires !failed
      modifies this`finishEmitted, this`hasToolCalls, this`hasReasoningContent, this`reasoningChunkCount,
               this`toolCallIndex, this`seenToolIds, this`inThinking, this`totalContentLength,
               this`contextUsagePercentage, this`hasContextUsage,
               this`hasMeteringEvent, this`usage, this`failed, this`chunkIndex, this`out, this`readings
      ensures View() == Handle(old(View()), window, DatedEvent(clock, old(readings), e))
      ensures !failed ==> readings == old(readings) + LackingIn(e)
    {
      hide Turn, Settle, Skips, DatedEvent, LackingIn;
      var skipped := HandleTurn(e);
      if !failed && !skipped { EmitFinal(); }
    }

    /** One chunk of the upstream. A failed call leaves the buffer where it was when it failed. */
    method TransformChunk(chunk: seq<byte>)
      requires !failed
      modifies this
      ensures var p := Transform(Pipe(old(buffer), old(View()), old(readings)), window, interpret, clock, chunk);
              View() == p.state && (!failed ==> buffer == p.buffer && readings == p.readings)
    {
      hide Handle, Take, Head, HandleFrames, Readings, Events, DatedEvent, LackingIn, Transform, U32;
      ghost var start, k := View(), readings;
      var enqueueCountBefore := chunkIndex;
      buffer := buffer + chunk;
      ghost var all := buffer;
      var iterations := 0;
      NoFrames(start, window, interpret, clock, k, all);
      while |buffer| >= 16 && iterations < MAX_ITERATIONS
        invariant iterations <= MAX_ITERATIONS && !failed
        invariant View() == HandleFrames(start, window, interpret, clock, k, Take(all, iterations).0)
        invariant readings == k + Readings(Events(interpret, Take(all, iterations).0))
        invariant buffer == Take(all, iterations).1 && |Take(all, iterations).0| == iterations
      {
        HeadOf(buffer);
        var totalLength := U32(buffer, 0);
        if totalLength < 16 || totalLength > |buffer| { break; }
        var eventData := buffer[..totalLength];
        OneMoreFrame(start, window, interpret, clock, k, all, iterations);
        buffer := buffer[totalLength..];
        iterations := iterations + 1;
        HandleEvent(interpret(eventData));
        if failed {
          FailedEarly(start, window, interpret, clock, k, all, iterations);
          TransformIs(old(buffer), start, k, window, interpret, clock, chunk);
          return;
        }
      }
      HeadOf(buffer);
      TakeStuck(all, iterations, MAX_ITERATIONS);
      TransformIs(old(buffer), start, k, window, interpret, clock, chunk);
      if chunkIndex == enqueueCountBefore && !finishEmitted {
        out := out + [KeepAlive];
      }
    }

    method FlushStream()
      requires !failed
      modifies this`finishEmitted, this`out
      ensures View() == Flush(old(View()))
    {
      if !finishEmitted {
        finishEmitted := true;
        out := out + [Finish(hasToolCalls, None)];
      }
      out := out + [Done];
    }
  }
}
