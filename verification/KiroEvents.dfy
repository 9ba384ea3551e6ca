/** What the Kiro executor turns its decoded events into (open-sse/executors/kiro.js).

    `Handle` is one turn of the event loop, `Run` a whole stream. A null entry in a list of tool uses
    throws, which fails the stream for good. */
module KiroEvents {
  import opened Basics
  import opened KiroThinking
  import KiroBlocks

  /** `Missing` is undefined, `Object` is the JSON text of an object, `Other` any other value. */
  datatype Input = Missing | Text(text: string) | Object(json: string) | Other

  /** `id` is the upstream's id, or the one made from the clock where there is none (see KiroClock). */
  datatype Item = Null | Tool(id: string, name: string, input: Input)

  datatype Usage = Usage(prompt: int, completion: int)

  /** A frame by its event type; texts that are absent or empty upstream are empty here. */
  datatype Event =
    | Assistant(content: string)
    | Reasoning(text: string)
    | Code(content: string)
    | ToolUses(items: seq<Item>)
    | MessageStop
    | ContextUsage(percentage: real)
    | Metering
    | Metrics(input: int, output: int)
    | Unknown

  datatype Chunk =
    | ContentChunk(role: bool, text: string)
    | ReasoningChunk(role: bool, text: string)
    | CodeChunk(text: string)
    | ToolStart(role: bool, index: nat, id: string, name: string)
    | ToolArgs(index: nat, args: string)
    | Finish(toolCalls: bool, usage: Option<Usage>)
    | KeepAlive
    | Done

  datatype State = State(
    chunkIndex: nat, finishEmitted: bool, hasToolCalls: bool, hasReasoning: bool, reasoningChunks: nat,
    toolCallIndex: nat, seen: map<string, nat>, inThinking: bool, contentLength: nat, percentage: real,
    hasContext: bool, hasMetering: bool, usage: Option<Usage>, failed: bool, out: seq<Chunk>)

  const INIT := State(0, false, false, false, 0, 0, map[], false, 0, 0.0, false, false, None, false, [])

  // ---------------------------------------------------------------- one event

  function Emit(s: State, c: Chunk): State { s.(out := s.out + [c]) }

  /** Emits a chunk that counts. */
  function Count(s: State, c: Chunk): State { Emit(s, c).(chunkIndex := s.chunkIndex + 1) }

  function Estimate(percentage: real, contentLength: nat, window: int): Usage {
    Usage(if percentage > 0.0 then (percentage * window as real / 100.0).Floor else 0,
          if contentLength > 0 then Max(1, contentLength / 4) else 0)
  }

  function FinalUsage(s: State, window: int): Option<Usage> {
    if s.usage.Some? then s.usage else Some(Estimate(s.percentage, s.contentLength, window))
  }

  /** The end of a turn: the final chunk goes out once both metering and context usage are known. */
  function Settle(s: State, window: int): State {
    if s.hasMetering && s.hasContext && !s.finishEmitted then
      var usage := FinalUsage(s, window);
      Emit(s.(finishEmitted := true, usage := usage), Finish(s.hasToolCalls, usage))
    else s
  }

  function OneTool(s: State, item: Item): State {
    if s.failed then s
    else
      match item
      case Null => s.(failed := true)
      case Tool(id, name, input) =>
        Pass(if id in s.seen then s else Start(s, id, name), id, input)
  }

  function Pass(s: State, id: string, input: Input): State
    requires id in s.seen
  {
    match input
    case Missing => s
    case Text(text) => Count(s, ToolArgs(s.seen[id], text))
    case Object(json) => Count(s, ToolArgs(s.seen[id], json))
    case Other => s
  }

  function Start(s: State, id: string, name: string): State {
    Count(s.(toolCallIndex := s.toolCallIndex + 1, seen := s.seen[id := s.toolCallIndex]),
          ToolStart(s.chunkIndex == 0, s.toolCallIndex, id, name))
  }

  function Tools(s: State, items: seq<Item>): State {
    if items == [] then s else OneTool(Tools(s, items[..|items| - 1]), items[|items| - 1])
  }

  function AssistantTurn(s: State, content: string): State {
    if content == "" then s
    else
      var (inThinking, text) := Strip(s.inThinking, content);
      if text == "" && s.hasReasoning then s.(inThinking := inThinking)
      else
        Count(s.(inThinking := inThinking, contentLength := s.contentLength + |text|),
              ContentChunk(s.chunkIndex == 0, text))
  }

  function ReasoningTurn(s: State, text: string): State {
    if text == "" then s
    else Count(s.(hasReasoning := true, contentLength := s.contentLength + |text|,
                  reasoningChunks := s.reasoningChunks + 1),
               ReasoningChunk(s.reasoningChunks == 0 && s.chunkIndex == 0, text))
  }

  function CodeTurn(s: State, content: string): State { if content == "" then s else Count(s, CodeChunk(content)) }

  /** What one event does before the turn is settled. */
  function Turn(s: State, e: Event): State {
    match e
    case Assistant(content) => AssistantTurn(s, content)
    case Reasoning(text) => ReasoningTurn(s, text)
    case Code(content) => CodeTurn(s, content)
    case ToolUses(items) => Tools(s.(hasToolCalls := true), items)
    case MessageStop => Emit(s.(finishEmitted := true), Finish(s.hasToolCalls, None))
    case ContextUsage(p) => if p == 0.0 then s else s.(percentage := p, hasContext := true)
    case Metering => s.(hasMetering := true)
    case Metrics(input, output) => if input > 0 || output > 0 then s.(usage := Some(Usage(input, output))) else s
    case Unknown => s
  }

  lemma TurnIs(s: State, e: Event)
    ensures e.Assistant? ==> Turn(s, e) == AssistantTurn(s, e.content)
    ensures e.Reasoning? ==> Turn(s, e) == ReasoningTurn(s, e.text)
    ensures e.Code? ==> Turn(s, e) == CodeTurn(s, e.content)
    ensures e.ToolUses? ==> Turn(s, e) == Tools(s.(hasToolCalls := true), e.items)
    ensures e.MessageStop? ==> Turn(s, e) == Emit(s.(finishEmitted := true), Finish(s.hasToolCalls, None))
  {
    hide AssistantTurn, ReasoningTurn, CodeTurn, Tools, Emit;
  }

  /** What the other events leave alone. */
  lemma TurnLeaves(s: State, e: Event)
    requires e.ContextUsage? || e.Metering? || e.Metrics? || e.Unknown?
    ensures var t := Turn(s, e);
            && t.out == s.out && t.chunkIndex == s.chunkIndex && t.toolCallIndex == s.toolCallIndex && t.seen == s.seen
            && t.reasoningChunks == s.reasoningChunks && t.contentLength == s.contentLength
            && t.inThinking == s.inThinking
  {
    hide AssistantTurn, ReasoningTurn, CodeTurn, Tools, Emit;
    match e
    case ContextUsage(p) =>
    case Metering =>
    case Metrics(input, output) =>
    case Unknown =>
  }

  /** A text event of which nothing is left, after reasoning, ends its turn early. */
  predicate Skips(s: State, e: Event) {
    e.Assistant? && e.content != "" && Strip(s.inThinking, e.content).1 == "" && s.hasReasoning
  }

  function Handle(s: State, window: int, e: Event): State {
    if s.failed then s
    else
      var t := Turn(s, e);
      if t.failed || Skips(s, e) then t else Settle(t, window)
  }

  function Run(window: int, es: seq<Event>): State {
    if es == [] then INIT else Handle(Run(window, es[..|es| - 1]), window, es[|es| - 1])
  }

  /** The end of the upstream, which a failed stream does not see. */
  function Flush(s: State): State {
    var t := if s.finishEmitted then s else Emit(s.(finishEmitted := true), Finish(s.hasToolCalls, None));
    Emit(t, Done)
  }

  // ---------------------------------------------------------------- reading the output

  predicate Counts(c: Chunk) { c.ContentChunk? || c.ReasoningChunk? || c.CodeChunk? || c.ToolStart? || c.ToolArgs? }

  predicate HasRole(c: Chunk) { (c.ContentChunk? || c.ReasoningChunk? || c.ToolStart?) && c.role }

  function IsCounted(): Chunk -> bool { (c: Chunk) => Counts(c) }

  datatype Named = Named(id: string, name: string)

  datatype Started = Started(index: nat, id: string, name: string)

  /** The tools started, in order. */
  function Starts(out: seq<Chunk>): seq<Started> {
    if out == [] then []
    else
      var c := out[|out| - 1];
      Starts(out[..|out| - 1]) + (if c.ToolStart? then [Started(c.index, c.id, c.name)] else [])
  }

  /** What a client puts together: per index, all arguments streamed for it. */
  function Arguments(out: seq<Chunk>): seq<string> {
    if out == [] then []
    else
      var args := Arguments(out[..|out| - 1]);
      match out[|out| - 1]
      case ToolStart(_, _, _, _) => args + [""]
      case ToolArgs(index, more) => if index < |args| then args[index := args[index] + more] else args
      case _ => args
  }

  /** The length of all text streamed, code apart. */
  function TextLength(out: seq<Chunk>): nat {
    if out == [] then 0
    else
      var c := out[|out| - 1];
      TextLength(out[..|out| - 1]) + (if c.ContentChunk? || c.ReasoningChunk? then |c.text| else 0)
  }

  function InputText(i: Item): string {
    if i.Null? then ""
    else
      match i.input
      case Missing => ""
      case Text(text) => text
      case Object(json) => json
      case Other => ""
  }

  /** All inputs that the upstream sent for one id, joined. */
  function InputsOf(items: seq<Item>, id: string): string {
    if items == [] then ""
    else
      var i := items[|items| - 1];
      InputsOf(items[..|items| - 1], id) + (if i.Tool? && i.id == id then InputText(i) else "")
  }

  predicate Has(names: seq<Named>, id: string) {
    names != [] && (names[|names| - 1].id == id || Has(names[..|names| - 1], id))
  }

  /** The ids that came, each where it first appears, with the name it then had. */
  function Firsts(items: seq<Item>): seq<Named> {
    if items == [] then []
    else
      var names := Firsts(items[..|items| - 1]);
      var i := items[|items| - 1];
      if i.Tool? && !Has(names, i.id) then names + [Named(i.id, i.name)] else names
  }

  function Names(st: seq<Started>): seq<Named> { seq(|st|, k requires 0 <= k < |st| => Named(st[k].id, st[k].name)) }

  function Items(es: seq<Event>): seq<Item> {
    if es == [] then []
    else Items(es[..|es| - 1]) + (if es[|es| - 1].ToolUses? then es[|es| - 1].items else [])
  }

  /** How one more chunk changes each reading. */
  lemma Snoc(out: seq<Chunk>, c: Chunk)
    ensures Filter(IsCounted(), out + [c]) == Filter(IsCounted(), out) + (if Counts(c) then [c] else [])
    ensures Starts(out + [c]) == Starts(out) + (if c.ToolStart? then [Started(c.index, c.id, c.name)] else [])
    ensures TextLength(out + [c]) == TextLength(out) + (if c.ContentChunk? || c.ReasoningChunk? then |c.text| else 0)
  {
    assert (out + [c])[..|out|] == out;
  }

  lemma SnocArguments(out: seq<Chunk>, c: Chunk)
    ensures c.ToolStart? ==> Arguments(out + [c]) == Arguments(out) + [""]
    ensures c.ToolArgs? && c.index < |Arguments(out)| ==>
              Arguments(out + [c]) == Arguments(out)[c.index := Arguments(out)[c.index] + c.args]
    ensures !c.ToolStart? && !c.ToolArgs? ==> Arguments(out + [c]) == Arguments(out)
  {
    assert (out + [c])[..|out|] == out;
  }

  // ---------------------------------------------------------------- the invariant

  /** The role goes to the first chunk that counts, unless that one is code. */
  ghost predicate RoleOk(s: State) {
    var f := Filter(IsCounted(), s.out);
    && |f| == s.chunkIndex >= s.toolCallIndex
    && (forall j :: 0 <= j < |f| ==> (HasRole(f[j]) <==> j == 0 && !f[j].CodeChunk?))
    && (s.reasoningChunks > 0 ==> s.chunkIndex > 0)
  }

  /** Tools are numbered 0, 1, 2, ... as they start, one number per id. */
  ghost predicate Indexed(st: seq<Started>, n: nat, seen: map<string, nat>) {
    && |st| == n
    && (forall j :: 0 <= j < |st| ==> st[j].index == j && st[j].id in seen && seen[st[j].id] == j)
    && (forall id :: id in seen ==> seen[id] < |st| && st[seen[id]].id == id)
  }

  ghost predicate IndexOk(s: State) { Indexed(Starts(s.out), s.toolCallIndex, s.seen) }

  /** Arguments come after the start of their tool. */
  ghost predicate ArgsFollow(out: seq<Chunk>) {
    forall p :: 0 <= p < |out| && out[p].ToolArgs? ==> out[p].index < |Starts(out[..p])|
  }

  /** Each index has streamed exactly the inputs of its id, and every id that came has an index. */
  ghost predicate Matches(st: seq<Started>, args: seq<string>, seen: map<string, nat>, items: seq<Item>) {
    && |args| == |st|
    && (forall k :: 0 <= k < |st| ==> args[k] == InputsOf(items, st[k].id))
    && (forall i :: i in items && i.Tool? ==> i.id in seen)
  }

  ghost predicate ArgsOk(s: State, items: seq<Item>) { Matches(Starts(s.out), Arguments(s.out), s.seen, items) }

  ghost predicate Local(s: State, items: seq<Item>) {
    RoleOk(s) && IndexOk(s) && ArgsFollow(s.out) && ArgsOk(s, items) && TextLength(s.out) == s.contentLength
  }

  ghost predicate Inv(s: State, items: seq<Item>) { Local(s, items) && Names(Starts(s.out)) == Firsts(items) }

  /** One more chunk that starts no tool and carries no arguments. */
  ghost predicate PlainStep(s: State, t: State, c: Chunk) {
    && !c.ToolStart? && !c.ToolArgs? && t.out == s.out + [c]
    && t.seen == s.seen && t.toolCallIndex == s.toolCallIndex
    && t.chunkIndex == s.chunkIndex + (if Counts(c) then 1 else 0)
    && (Counts(c) ==> (HasRole(c) <==> s.chunkIndex == 0 && !c.CodeChunk?))
    && (t.reasoningChunks > s.reasoningChunks ==> Counts(c))
    && t.contentLength == s.contentLength + (if c.ContentChunk? || c.ReasoningChunk? then |c.text| else 0)
  }

  lemma FollowSnoc(out: seq<Chunk>, c: Chunk)
    requires ArgsFollow(out) && (c.ToolArgs? ==> c.index < |Starts(out)|)
    ensures ArgsFollow(out + [c])
  {
    hide Starts;
    var more := out + [c];
    forall p | 0 <= p < |more| && more[p].ToolArgs? ensures more[p].index < |Starts(more[..p])| {
      if p < |out| {
        assert more[..p] == out[..p];
      } else {
        assert more[..p] == out;
      }
    }
  }

  lemma RolePlain(s: State, t: State, c: Chunk)
    requires RoleOk(s) && PlainStep(s, t, c)
    ensures RoleOk(t)
  {
    Snoc(s.out, c);
    hide Filter, Starts, Arguments, TextLength;
  }

  lemma ArgsPlain(s: State, t: State, c: Chunk, items: seq<Item>)
    requires ArgsOk(s, items) && PlainStep(s, t, c)
    ensures ArgsOk(t, items)
  {
    Snoc(s.out, c);
    SnocArguments(s.out, c);
    hide Filter, Starts, Arguments, TextLength, Matches;
    assert Starts(t.out) == Starts(s.out);
  }

  lemma PlainKeeps(s: State, t: State, c: Chunk, items: seq<Item>)
    requires Inv(s, items) && PlainStep(s, t, c)
    ensures Inv(t, items)
  {
    hide ArgsOk, RoleOk, ArgsFollow;
    RolePlain(s, t, c);
    ArgsPlain(s, t, c, items);
    FollowSnoc(s.out, c);
    Snoc(s.out, c);
    hide Filter, Starts, Arguments, TextLength, Firsts, Names;
    assert Starts(t.out) == Starts(s.out);
  }

  lemma StartIndex(s: State, id: string, name: string)
    requires IndexOk(s) && id !in s.seen
    ensures IndexOk(Start(s, id, name))
    ensures Starts(Start(s, id, name).out) == Starts(s.out) + [Started(s.toolCallIndex, id, name)]
  {
    Snoc(s.out, ToolStart(s.chunkIndex == 0, s.toolCallIndex, id, name));
    hide Filter, Starts, Arguments, TextLength;
  }

  lemma {:induction false} NoInputs(items: seq<Item>, id: string)
    requires forall i :: i in items && i.Tool? ==> i.id != id
    ensures InputsOf(items, id) == ""
  {
    if items != [] { NoInputs(items[..|items| - 1], id); }
  }

  lemma StartMatches(st: seq<Started>, args: seq<string>, seen: map<string, nat>, items: seq<Item>, id: string,
                     name: string, n: nat)
    requires Matches(st, args, seen, items) && id !in seen
    ensures Matches(st + [Started(n, id, name)], args + [""], seen[id := n], items)
  {
    NoInputs(items, id);
    hide InputsOf;
  }

  lemma StartArgs(s: State, id: string, name: string, items: seq<Item>)
    requires IndexOk(s) && ArgsOk(s, items) && id !in s.seen
    ensures ArgsOk(Start(s, id, name), items)
  {
    Snoc(s.out, ToolStart(s.chunkIndex == 0, s.toolCallIndex, id, name));
    SnocArguments(s.out, ToolStart(s.chunkIndex == 0, s.toolCallIndex, id, name));
    StartMatches(Starts(s.out), Arguments(s.out), s.seen, items, id, name, s.toolCallIndex);
    hide Filter, Starts, Arguments, TextLength, InputsOf, Matches;
  }

  lemma StartRole(s: State, id: string, name: string)
    requires RoleOk(s)
    ensures RoleOk(Start(s, id, name))
  {
    Snoc(s.out, ToolStart(s.chunkIndex == 0, s.toolCallIndex, id, name));
    hide Filter, Starts, TextLength;
  }

  lemma StartKeeps(s: State, id: string, name: string, items: seq<Item>)
    requires Local(s, items) && id !in s.seen
    ensures Local(Start(s, id, name), items)
  {
    hide ArgsOk, ArgsFollow, RoleOk;
    var c := ToolStart(s.chunkIndex == 0, s.toolCallIndex, id, name);
    StartRole(s, id, name);
    StartIndex(s, id, name);
    StartArgs(s, id, name, items);
    FollowSnoc(s.out, c);
    Snoc(s.out, c);
    hide Filter, Starts, TextLength, IndexOk;
  }

  lemma InputsSnoc(items: seq<Item>, i: Item, id: string)
    ensures InputsOf(items + [i], id) == InputsOf(items, id) + (if i.Tool? && i.id == id then InputText(i) else "")
  {
    assert (items + [i])[..|items|] == items;
  }

  /** An item that streams no arguments. */
  lemma SilentArgs(s: State, items: seq<Item>, i: Item)
    requires ArgsOk(s, items) && InputText(i) == "" && (i.Tool? ==> i.id in s.seen)
    ensures ArgsOk(s, items + [i])
  {
    forall id ensures InputsOf(items + [i], id) == InputsOf(items, id) {
      InputsSnoc(items, i, id);
      hide InputsOf;
      assert InputsOf(items, id) + "" == InputsOf(items, id);
    }
    hide InputsOf, Starts, Arguments, InputText;
  }

  lemma StreamedMatches(st: seq<Started>, args: seq<string>, seen: map<string, nat>, items: seq<Item>, i: Item)
    requires Matches(st, args, seen, items) && i.Tool? && i.id in seen && seen[i.id] < |st|
    requires forall k :: 0 <= k < |st| ==> (k == seen[i.id] <==> st[k].id == i.id)
    ensures |args| == |st| && Matches(st, args[seen[i.id] := args[seen[i.id]] + InputText(i)], seen, items + [i])
  {
    forall id ensures InputsOf(items + [i], id) == InputsOf(items, id) + (if i.id == id then InputText(i) else "") {
      InputsSnoc(items, i, id);
    }
    hide InputsOf, InputText;
    forall k | 0 <= k < |st| && k != seen[i.id] ensures InputsOf(items + [i], st[k].id) == InputsOf(items, st[k].id) {
      assert InputsOf(items, st[k].id) + "" == InputsOf(items, st[k].id);
    }
  }

  lemma StreamedArgs(s: State, items: seq<Item>, i: Item)
    requires IndexOk(s) && ArgsOk(s, items) && i.Tool? && i.id in s.seen
    ensures ArgsOk(Count(s, ToolArgs(s.seen[i.id], InputText(i))), items + [i])
  {
    var c := ToolArgs(s.seen[i.id], InputText(i));
    Snoc(s.out, c);
    SnocArguments(s.out, c);
    hide Starts, Arguments, InputText, Filter, TextLength, InputsOf, Matches;
    StreamedMatches(Starts(s.out), Arguments(s.out), s.seen, items, i);
  }

  lemma StreamedRole(s: State, id: string, args: string)
    requires RoleOk(s) && IndexOk(s) && id in s.seen
    ensures RoleOk(Count(s, ToolArgs(s.seen[id], args)))
  {
    assert s.chunkIndex > 0 by { hide Starts, Filter; }
    hide IndexOk;
    Snoc(s.out, ToolArgs(s.seen[id], args));
    hide Filter, Starts, TextLength;
  }

  lemma StreamedIndex(s: State, id: string, args: string)
    requires IndexOk(s) && id in s.seen
    ensures IndexOk(Count(s, ToolArgs(s.seen[id], args)))
  {
    Snoc(s.out, ToolArgs(s.seen[id], args));
    hide Filter, Starts, TextLength, Indexed;
    assert Starts(s.out + [ToolArgs(s.seen[id], args)]) == Starts(s.out);
  }

  lemma StreamedKeeps(s: State, items: seq<Item>, i: Item)
    requires Local(s, items) && i.Tool? && i.id in s.seen
    ensures Local(Count(s, ToolArgs(s.seen[i.id], InputText(i))), items + [i])
  {
    hide ArgsOk, ArgsFollow, RoleOk;
    var c := ToolArgs(s.seen[i.id], InputText(i));
    StreamedRole(s, i.id, InputText(i));
    StreamedIndex(s, i.id, InputText(i));
    StreamedArgs(s, items, i);
    FollowSnoc(s.out, c);
    Snoc(s.out, c);
    hide Filter, Starts, TextLength, InputText;
  }

  lemma PassKeeps(s: State, items: seq<Item>, i: Item)
    requires Local(s, items) && i.Tool? && i.id in s.seen
    ensures Local(Pass(s, i.id, i.input), items + [i])
  {
    hide RoleOk, IndexOk, ArgsFollow, ArgsOk, TextLength, Count;
    if i.input.Missing? || i.input.Other? {
      SilentArgs(s, items, i);
    } else {
      hide Local;
      StreamedKeeps(s, items, i);
    }
  }

  lemma NullLocal(s: State, items: seq<Item>)
    requires Local(s, items)
    ensures Local(s.(failed := true), items + [Null])
  {
    SilentArgs(s, items, Null);
    hide Starts, Arguments, InputsOf, TextLength, Filter, Indexed, Matches, ArgsFollow;
  }

  lemma OneToolLocal(s: State, items: seq<Item>, i: Item)
    requires Local(s, items) && !s.failed
    ensures Local(OneTool(s, i), items + [i])
  {
    hide Local, Pass, Start;
    match i
    case Null => NullLocal(s, items);
    case Tool(id, name, input) =>
      if id !in s.seen {
        StartKeeps(s, id, name, items);
        StartSees(s, id, name);
        PassKeeps(Start(s, id, name), items, i);
      } else {
        PassKeeps(s, items, i);
      }
  }

  lemma StartSees(s: State, id: string, name: string)
    ensures id in Start(s, id, name).seen
  {
  }

  lemma FirstsSnoc(items: seq<Item>, i: Item)
    ensures Firsts(items + [i]) ==
              if i.Tool? && !Has(Firsts(items), i.id) then Firsts(items) + [Named(i.id, i.name)] else Firsts(items)
  {
    assert (items + [i])[..|items|] == items;
  }

  lemma PassStarts(s: State, id: string, input: Input)
    requires id in s.seen
    ensures Starts(Pass(s, id, input).out) == Starts(s.out)
  {
    if input.Text? || input.Object? {
      var t := Pass(s, id, input);
      Snoc(s.out, t.out[|s.out|]);
      hide Starts, Arguments, Filter, TextLength;
      assert Starts(t.out) == Starts(s.out);
    }
  }

  lemma OneToolFirsts(s: State, items: seq<Item>, i: Item)
    requires IndexOk(s) && Names(Starts(s.out)) == Firsts(items) && !s.failed
    ensures Names(Starts(OneTool(s, i).out)) == Firsts(items + [i])
  {
    hide IndexOk, Names, Has;
    FirstsSnoc(items, i);
    if i.Tool? {
      KnownIds(s, i.id);
      if i.id in s.seen {
        PassStarts(s, i.id, i.input);
      } else {
        StartIndex(s, i.id, i.name);
        PassStarts(Start(s, i.id, i.name), i.id, i.input);
        hide Starts, Firsts, Start, Pass;
        NamesSnoc(Starts(s.out), Started(s.toolCallIndex, i.id, i.name));
      }
    }
  }

  lemma NamesSnoc(st: seq<Started>, one: Started)
    ensures Names(st + [one]) == Names(st) + [Named(one.id, one.name)]
  {
  }

  lemma {:induction false} HasMeans(names: seq<Named>, id: string)
    ensures Has(names, id) <==> exists k :: 0 <= k < |names| && names[k].id == id
  {
    if names != [] { HasMeans(names[..|names| - 1], id); }
  }

  lemma KnownIds(s: State, id: string)
    requires IndexOk(s)
    ensures id in s.seen <==> Has(Names(Starts(s.out)), id)
  {
    hide Starts, Has;
    HasMeans(Names(Starts(s.out)), id);
    if id in s.seen { assert Names(Starts(s.out))[s.seen[id]].id == id; }
  }

  lemma OneToolKeeps(s: State, items: seq<Item>, i: Item)
    requires Inv(s, items) && !s.failed
    ensures Inv(OneTool(s, i), items + [i])
  {
    hide RoleOk, IndexOk, ArgsFollow, ArgsOk, TextLength, Firsts, Starts, OneTool;
    OneToolLocal(s, items, i);
    OneToolFirsts(s, items, i);
  }

  lemma {:induction false} ToolsKeep(s: State, items: seq<Item>, more: seq<Item>)
    requires Inv(s, items) && !Tools(s, more).failed
    ensures Inv(Tools(s, more), items + more)
  {
    hide Inv, OneTool;
    if more == [] {
      assert items + more == items;
    } else {
      var init := more[..|more| - 1];
      ToolsUnfailed(s, more);
      ToolsKeep(s, items, init);
      OneToolKeeps(Tools(s, init), items + init, more[|more| - 1]);
      assert items + more == items + init + [more[|more| - 1]];
    }
  }

  lemma ToolsUnfailed(s: State, more: seq<Item>)
    requires more != [] && !Tools(s, more).failed
    ensures !Tools(s, more[..|more| - 1]).failed
  {
  }

  lemma SettleKeeps(s: State, window: int, items: seq<Item>)
    requires Inv(s, items)
    ensures Inv(Settle(s, window), items)
  {
    if s.hasMetering && s.hasContext && !s.finishEmitted {
      hide Estimate;
      var usage := FinalUsage(s, window);
      PlainKeeps(s, Settle(s, window), Finish(s.hasToolCalls, usage), items);
    }
  }

  lemma QuietKeeps(s: State, t: State, items: seq<Item>)
    requires Inv(s, items) && t.out == s.out && t.chunkIndex == s.chunkIndex && t.toolCallIndex == s.toolCallIndex
    requires t.seen == s.seen && t.reasoningChunks == s.reasoningChunks && t.contentLength == s.contentLength
    ensures Inv(t, items)
  {
    hide Filter, Starts, Arguments, TextLength, InputsOf, Firsts, Names;
  }

  lemma TurnKeeps(s: State, e: Event, items: seq<Item>)
    requires Inv(s, items) && !s.failed && !Turn(s, e).failed
    ensures Inv(Turn(s, e), items + (if e.ToolUses? then e.items else []))
  {
    hide Inv, Turn;
    if e.ToolUses? {
      ToolTurnKeeps(s, e, items);
    } else {
      assert items + [] == items;
      if e.Assistant? || e.Reasoning? || e.Code? { TextKeeps(s, e, items); } else { OtherKeeps(s, e, items); }
    }
  }

  lemma ToolTurnKeeps(s: State, e: Event, items: seq<Item>)
    requires Inv(s, items) && e.ToolUses? && !Turn(s, e).failed
    ensures Inv(Turn(s, e), items + e.items)
  {
    hide Inv, Tools;
    QuietKeeps(s, s.(hasToolCalls := true), items);
    ToolsKeep(s.(hasToolCalls := true), items, e.items);
  }

  lemma OtherKeeps(s: State, e: Event, items: seq<Item>)
    requires Inv(s, items) && !e.ToolUses? && !e.Assistant? && !e.Reasoning? && !e.Code?
    ensures Inv(Turn(s, e), items)
  {
    hide Inv, Turn;
    TurnIs(s, e);
    if e.MessageStop? {
      PlainKeeps(s, Turn(s, e), Finish(s.hasToolCalls, None), items);
    } else {
      TurnLeaves(s, e);
      QuietKeeps(s, Turn(s, e), items);
    }
  }

  lemma TextKeeps(s: State, e: Event, items: seq<Item>)
    requires Inv(s, items) && (e.Assistant? || e.Reasoning? || e.Code?)
    ensures Inv(Turn(s, e), items)
  {
    hide AssistantTurn, ReasoningTurn, CodeTurn;
    match e
    case Assistant(content) => AssistantKeeps(s, content, items);
    case Reasoning(text) => ReasoningKeeps(s, text, items);
    case Code(content) => CodeKeeps(s, content, items);
    hide Inv;
  }

  lemma AssistantKeeps(s: State, content: string, items: seq<Item>)
    requires Inv(s, items)
    ensures Inv(AssistantTurn(s, content), items)
  {
    hide Inv, Strip;
    if content != "" {
      var (inThinking, text) := Strip(s.inThinking, content);
      if text != "" || !s.hasReasoning {
        PlainKeeps(s, AssistantTurn(s, content), ContentChunk(s.chunkIndex == 0, text), items);
      } else {
        QuietKeeps(s, s.(inThinking := inThinking), items);
      }
    }
  }

  lemma ReasoningKeeps(s: State, text: string, items: seq<Item>)
    requires Inv(s, items)
    ensures Inv(ReasoningTurn(s, text), items)
  {
    assert s.reasoningChunks > 0 ==> s.chunkIndex > 0 by { assert RoleOk(s); }
    hide Inv;
    if text != "" {
      PlainKeeps(s, ReasoningTurn(s, text), ReasoningChunk(s.reasoningChunks == 0 && s.chunkIndex == 0, text), items);
    }
  }

  lemma CodeKeeps(s: State, content: string, items: seq<Item>)
    requires Inv(s, items)
    ensures Inv(CodeTurn(s, content), items)
  {
    hide Inv;
    if content != "" { PlainKeeps(s, CodeTurn(s, content), CodeChunk(content), items); }
  }

  lemma HandleKeeps(s: State, window: int, e: Event, items: seq<Item>)
    requires Inv(s, items) && !s.failed && !Handle(s, window, e).failed
    ensures Inv(Handle(s, window, e), items + (if e.ToolUses? then e.items else []))
  {
    hide Inv, Turn, Settle, Skips;
    TurnKeeps(s, e, items);
    SettleKeeps(Turn(s, e), window, items + (if e.ToolUses? then e.items else []));
  }

  lemma RunUnfailed(window: int, es: seq<Event>)
    requires es != [] && !Run(window, es).failed
    ensures !Run(window, es[..|es| - 1]).failed
  {
  }

  /** In every run that has not failed. */
  lemma {:induction false} InvRun(window: int, es: seq<Event>)
    requires !Run(window, es).failed
    ensures Inv(Run(window, es), Items(es))
  {
    if es != [] {
      hide Inv, Handle;
      var init := es[..|es| - 1];
      RunUnfailed(window, es);
      InvRun(window, init);
      HandleKeeps(Run(window, init), window, es[|es| - 1], Items(init));
    }
  }

  // ---------------------------------------------------------------- what every run promises

  /** The tool calls of a stream that has not failed: tools are numbered 0, 1, 2, ... in the order in
      which their ids first appear, and carry the name they then have; arguments follow the start of
      their tool, and what a client puts together for each number is exactly what the upstream sent for
      that id, in order. */
  lemma ToolStream(window: int, es: seq<Event>)
    requires !Run(window, es).failed
    ensures var out, items := Run(window, es).out, Items(es);
            && |Arguments(out)| == |Starts(out)| == |Firsts(items)|
            && ArgsFollow(out)
            && forall k :: 0 <= k < |Starts(out)| ==>
                 && Starts(out)[k] == Started(k, Firsts(items)[k].id, Firsts(items)[k].name)
                 && Arguments(out)[k] == InputsOf(items, Firsts(items)[k].id)
  {
    InvRun(window, es);
    var s := Run(window, es);
    hide Run, Arguments, Starts, Firsts, InputsOf, Items, ArgsFollow, RoleOk, TextLength;
    forall k | 0 <= k < |Starts(s.out)|
      ensures Firsts(Items(es))[k] == Named(Starts(s.out)[k].id, Starts(s.out)[k].name)
    {
      assert Names(Starts(s.out))[k] == Named(Starts(s.out)[k].id, Starts(s.out)[k].name);
    }
  }

  /** Every id that came is among the numbered ones, once. */
  lemma {:induction false} FirstsComplete(items: seq<Item>)
    ensures forall id :: Has(Firsts(items), id) <==> exists i :: i in items && i.Tool? && i.id == id
    ensures forall j, k :: 0 <= j < k < |Firsts(items)| ==> Firsts(items)[j].id != Firsts(items)[k].id
  {
    if items != [] {
      var init, last := items[..|items| - 1], items[|items| - 1];
      FirstsComplete(init);
      assert items == init + [last];
      var was, now := Firsts(init), Firsts(items);
      if now != was { assert now[..|now| - 1] == was; }
      forall id ensures Has(was, id) <==> exists k :: 0 <= k < |was| && was[k].id == id { HasMeans(was, id); }
    }
  }

  /** The role comes once, with the first chunk that counts, unless that chunk is code: then the
      stream has no role at all. All streamed text but code is in the length that estimates tokens. */
  lemma RoleOnce(window: int, es: seq<Event>)
    requires !Run(window, es).failed
    ensures var s := Run(window, es);
            var f := Filter(IsCounted(), s.out);
            && (forall j :: 0 <= j < |f| ==> (HasRole(f[j]) <==> j == 0 && !f[j].CodeChunk?))
            && |f| == s.chunkIndex && TextLength(s.out) == s.contentLength
  {
    InvRun(window, es);
  }

  // ---------------------------------------------------------------- finish chunks

  function Stops(es: seq<Event>): nat {
    if es == [] then 0 else Stops(es[..|es| - 1]) + (if es[|es| - 1].MessageStop? then 1 else 0)
  }

  predicate IsContext(e: Event) { e.ContextUsage? && e.percentage != 0.0 }

  /** Metrics that report something. */
  predicate IsMetrics(e: Event) { e.Metrics? && (e.input > 0 || e.output > 0) }

  ghost predicate HasMetering(es: seq<Event>) { exists e :: e in es && e.Metering? }
  ghost predicate HasContext(es: seq<Event>) { exists e :: e in es && IsContext(e) }
  ghost predicate HasTools(es: seq<Event>) { exists e :: e in es && e.ToolUses? }

  /** Both metering and context usage have arrived. */
  ghost predicate Metered(es: seq<Event>) { HasMetering(es) && HasContext(es) }

  /** Both had arrived before the first stop. */
  ghost predicate MeteredFirst(es: seq<Event>) {
    exists n :: 0 <= n <= |es| && Stops(es[..n]) == 0 && Metered(es[..n])
  }

  /** The finish chunks sent. */
  function Finals(out: seq<Chunk>): seq<Chunk> {
    if out == [] then []
    else Finals(out[..|out| - 1]) + (if out[|out| - 1].Finish? then [out[|out| - 1]] else [])
  }

  function Finishes(out: seq<Chunk>): nat { |Finals(out)| }

  /** Keepalives and ends. */
  function Ends(out: seq<Chunk>): nat {
    if out == [] then 0
    else
      var last := out[|out| - 1];
      Ends(out[..|out| - 1]) + (if last.KeepAlive? || last.Done? then 1 else 0)
  }

  ghost predicate FinishOk(s: State, es: seq<Event>) {
    && s.hasMetering == HasMetering(es) && s.hasContext == HasContext(es) && s.hasToolCalls == HasTools(es)
    && (s.hasMetering && s.hasContext ==> s.finishEmitted)
    && (s.finishEmitted <==> Finishes(s.out) > 0)
    && Finishes(s.out) == Stops(es) + (if MeteredFirst(es) then 1 else 0)
    && Ends(s.out) == 0
  }

  lemma MeteredSnoc(es: seq<Event>, e: Event)
    ensures MeteredFirst(es + [e]) <==> MeteredFirst(es) || (Stops(es + [e]) == 0 && Metered(es + [e]))
  {
    var more := es + [e];
    hide Stops, Metered;
    if MeteredFirst(es) {
      var n :| 0 <= n <= |es| && Stops(es[..n]) == 0 && Metered(es[..n]);
      assert more[..n] == es[..n];
    }
    assert more[..|more|] == more;
    if MeteredFirst(more) {
      var n :| 0 <= n <= |more| && Stops(more[..n]) == 0 && Metered(more[..n]);
      if n <= |es| { assert more[..n] == es[..n]; } else { assert more[..n] == more; }
    }
  }

  lemma MeteredNow(es: seq<Event>)
    requires Stops(es) == 0 && Metered(es)
    ensures MeteredFirst(es)
  {
    assert es[..|es|] == es;
  }

  lemma SnocCounts(out: seq<Chunk>, c: Chunk)
    ensures Finals(out + [c]) == if c.Finish? then Finals(out) + [c] else Finals(out)
    ensures Ends(out + [c]) == Ends(out) + (if c.KeepAlive? || c.Done? then 1 else 0)
  {
    assert (out + [c])[..|out|] == out;
  }

  /** Nothing that concerns the finish changes. */
  ghost predicate Aside(s: State, t: State) {
    && Finals(t.out) == Finals(s.out) && Ends(t.out) == Ends(s.out)
    && t.usage == s.usage && t.percentage == s.percentage
    && t.finishEmitted == s.finishEmitted && t.hasMetering == s.hasMetering && t.hasContext == s.hasContext
    && t.hasToolCalls == s.hasToolCalls
  }

  lemma CountAside(s: State, t: State, c: Chunk)
    requires Counts(c) && t.out == s.out + [c] && t.hasToolCalls == s.hasToolCalls
    requires t.finishEmitted == s.finishEmitted && t.hasMetering == s.hasMetering && t.hasContext == s.hasContext
    requires t.usage == s.usage && t.percentage == s.percentage
    ensures Aside(s, t)
  {
    hide Finals, Ends;
    SnocCounts(s.out, c);
  }

  lemma PassAside(s: State, id: string, input: Input)
    requires id in s.seen
    ensures Aside(s, Pass(s, id, input))
  {
    hide Finals, Ends;
    match input
    case Missing =>
    case Text(text) => CountAside(s, Pass(s, id, input), ToolArgs(s.seen[id], text));
    case Object(json) => CountAside(s, Pass(s, id, input), ToolArgs(s.seen[id], json));
    case Other =>
  }

  lemma OneToolAside(s: State, i: Item)
    ensures Aside(s, OneTool(s, i))
  {
    if i.Tool? && !s.failed {
      if i.id in s.seen {
        PassAside(s, i.id, i.input);
      } else {
        SnocCounts(s.out, ToolStart(s.chunkIndex == 0, s.toolCallIndex, i.id, i.name));
        PassAside(Start(s, i.id, i.name), i.id, i.input);
      }
      hide Finals, Ends, Pass;
    }
  }

  lemma {:induction false} ToolsAside(s: State, items: seq<Item>)
    ensures Aside(s, Tools(s, items))
  {
    if items != [] {
      hide OneTool, Finals, Ends;
      ToolsAside(s, items[..|items| - 1]);
      OneToolAside(Tools(s, items[..|items| - 1]), items[|items| - 1]);
    }
  }

  lemma AssistantAside(s: State, content: string)
    ensures Aside(s, AssistantTurn(s, content))
  {
    hide Strip, Finals, Ends;
    if content != "" {
      var (inThinking, text) := Strip(s.inThinking, content);
      if text != "" || !s.hasReasoning {
        CountAside(s, AssistantTurn(s, content), ContentChunk(s.chunkIndex == 0, text));
      }
    }
  }

  lemma TextAside(s: State, e: Event)
    requires e.Assistant? || e.Reasoning? || e.Code?
    ensures Aside(s, Turn(s, e))
  {
    hide Finals, Ends, Tools, AssistantTurn;
    match e
    case Assistant(content) => AssistantAside(s, content);
    case Reasoning(text) =>
      if text != "" { CountAside(s, Turn(s, e), ReasoningChunk(s.reasoningChunks == 0 && s.chunkIndex == 0, text)); }
    case Code(content) => if content != "" { CountAside(s, Turn(s, e), CodeChunk(content)); }
  }

  lemma Arrived(es: seq<Event>, e: Event)
    ensures HasMetering(es + [e]) <==> HasMetering(es) || e.Metering?
    ensures HasContext(es + [e]) <==> HasContext(es) || IsContext(e)
    ensures HasTools(es + [e]) <==> HasTools(es) || e.ToolUses?
    ensures Stops(es + [e]) == Stops(es) + (if e.MessageStop? then 1 else 0)
  {
    assert (es + [e])[|es|] == e && (es + [e])[..|es|] == es;
    forall x | x in es ensures x in es + [e] {}
  }

  /** What one event does to everything that concerns the finish, before the turn is settled. */
  ghost predicate Noted(s: State, t: State, e: Event) {
    && t.hasMetering == (s.hasMetering || e.Metering?)
    && t.hasContext == (s.hasContext || IsContext(e))
    && t.hasToolCalls == (s.hasToolCalls || e.ToolUses?)
    && t.finishEmitted == (s.finishEmitted || e.MessageStop?)
    && Finals(t.out) == Finals(s.out) + (if e.MessageStop? then [Finish(s.hasToolCalls, None)] else [])
    && Ends(t.out) == Ends(s.out)
    && t.percentage == (if IsContext(e) then e.percentage else s.percentage)
    && t.usage == (if IsMetrics(e) then Some(Usage(e.input, e.output)) else s.usage)
  }

  lemma QuietNotes(s: State, e: Event)
    requires e.ContextUsage? || e.Metering? || e.Metrics? || e.Unknown?
    ensures Noted(s, Turn(s, e), e)
  {
    hide Finals, Ends, Tools, AssistantTurn, ReasoningTurn, CodeTurn, Emit;
    TurnLeaves(s, e);
  }

  lemma StopNotes(s: State)
    ensures Noted(s, Emit(s.(finishEmitted := true), Finish(s.hasToolCalls, None)), MessageStop)
  {
    hide Finals, Ends;
    SnocCounts(s.out, Finish(s.hasToolCalls, None));
  }

  lemma AsideNotes(s: State, t: State, e: Event)
    requires Aside(s.(hasToolCalls := s.hasToolCalls || e.ToolUses?), t)
    requires e.Assistant? || e.Reasoning? || e.Code? || e.ToolUses?
    ensures Noted(s, t, e)
  {
    hide Finals, Ends;
  }

  lemma TurnNotes(s: State, e: Event)
    ensures Noted(s, Turn(s, e), e)
  {
    hide Turn, Noted, Aside, Emit, Tools;
    TurnIs(s, e);
    if e.MessageStop? {
      StopNotes(s);
    } else if e.ToolUses? {
      ToolsAside(s.(hasToolCalls := true), e.items);
      AsideNotes(s, Turn(s, e), e);
    } else if e.Assistant? || e.Reasoning? || e.Code? {
      TextAside(s, e);
      AsideNotes(s, Turn(s, e), e);
    } else {
      QuietNotes(s, e);
    }
  }

  lemma SettleNotes(s: State, window: int)
    ensures var t := Settle(s, window);
            && t.hasMetering == s.hasMetering && t.hasContext == s.hasContext && t.hasToolCalls == s.hasToolCalls
            && t.finishEmitted == (s.finishEmitted || (s.hasMetering && s.hasContext))
            && Finals(t.out) ==
                 Finals(s.out) + (if t.finishEmitted && !s.finishEmitted
                                  then [Finish(s.hasToolCalls, FinalUsage(s, window))] else [])
            && Ends(t.out) == Ends(s.out)
            && t.percentage == s.percentage && (!t.finishEmitted ==> t.usage == s.usage)
  {
    hide Finals, Ends;
    if s.hasMetering && s.hasContext && !s.finishEmitted {
      var usage := FinalUsage(s, window);
      SnocCounts(s.out, Finish(s.hasToolCalls, usage));
    }
  }

  lemma FinishStep(s: State, window: int, es: seq<Event>, e: Event)
    requires FinishOk(s, es) && !s.failed && !Handle(s, window, e).failed
    ensures FinishOk(Handle(s, window, e), es + [e])
  {
    hide Turn, Settle, Finals, Ends, Strip, Stops, MeteredFirst, HasMetering, HasContext, HasTools;
    Arrived(es, e);
    MeteredSnoc(es, e);
    if Metered(es) && Stops(es) == 0 { MeteredNow(es); }
    TurnNotes(s, e);
    SettleNotes(Turn(s, e), window);
  }

  lemma {:induction false} FinishRun(window: int, es: seq<Event>)
    requires !Run(window, es).failed
    ensures FinishOk(Run(window, es), es)
  {
    if es != [] {
      hide FinishOk, Handle;
      var init := es[..|es| - 1];
      RunUnfailed(window, es);
      FinishRun(window, init);
      FinishStep(Run(window, init), window, init, es[|es| - 1]);
      assert es == init + [es[|es| - 1]];
    } else {
      assert es[..0] == es;
    }
  }

  /** A completed stream ends with its one `Done`, after at least one finish chunk; there is one finish
      per stop message and one more when metering and context usage came first, so exactly one if and
      only if these are at most one together. */
  lemma Completed(window: int, es: seq<Event>)
    requires !Run(window, es).failed
    ensures var out := Flush(Run(window, es)).out;
            && out != [] && out[|out| - 1] == Done && Ends(out) == 1
            && Finishes(out) == Max(1, Stops(es) + (if MeteredFirst(es) then 1 else 0))
  {
    hide Run, Finals, Ends, Stops, MeteredFirst, HasMetering, HasContext, HasTools, Flush;
    FinishRun(window, es);
    FlushNotes(Run(window, es));
  }

  lemma FlushNotes(s: State)
    ensures var out := Flush(s).out;
            && out != [] && out[|out| - 1] == Done && Ends(out) == Ends(s.out) + 1
            && Finals(out) == Finals(s.out) + (if s.finishEmitted then [] else [Finish(s.hasToolCalls, None)])
  {
    hide Finals, Ends;
    if s.finishEmitted {
      SnocCounts(s.out, Done);
    } else {
      SnocCounts(s.out, Finish(s.hasToolCalls, None));
      SnocCounts(s.out + [Finish(s.hasToolCalls, None)], Done);
    }
  }

  // ---------------------------------------------------------------- what is said

  /** All text streamed: of the answer, of the reasoning, and of code. */
  datatype Heard = Heard(said: string, reasoned: string, coded: string)

  function HeardOf(out: seq<Chunk>): Heard {
    if out == [] then Heard("", "", "")
    else
      var h := HeardOf(out[..|out| - 1]);
      match out[|out| - 1]
      case ContentChunk(_, text) => h.(said := h.said + text)
      case ReasoningChunk(_, text) => h.(reasoned := h.reasoned + text)
      case CodeChunk(text) => h.(coded := h.coded + text)
      case _ => h
  }

  /** The same, as the upstream sent it, with the pieces of the answer. */
  datatype Told = Told(pieces: seq<string>, reasoned: string, coded: string)

  function ToldBy(es: seq<Event>): Told {
    if es == [] then Told([], "", "")
    else
      var t := ToldBy(es[..|es| - 1]);
      match es[|es| - 1]
      case Assistant(content) => if content == "" then t else t.(pieces := t.pieces + [content])
      case Reasoning(text) => t.(reasoned := t.reasoned + text)
      case Code(content) => t.(coded := t.coded + content)
      case _ => t
  }

  ghost predicate HeardOk(s: State, told: Told) {
    && (s.inThinking, HeardOf(s.out).said) == StripAll(false, told.pieces)
    && HeardOf(s.out).reasoned == told.reasoned && HeardOf(s.out).coded == told.coded
  }

  lemma HeardSnoc(out: seq<Chunk>, c: Chunk)
    ensures var h := HeardOf(out);
            HeardOf(out + [c]) ==
              match c
              case ContentChunk(_, text) => h.(said := h.said + text)
              case ReasoningChunk(_, text) => h.(reasoned := h.reasoned + text)
              case CodeChunk(text) => h.(coded := h.coded + text)
              case _ => h
  {
    assert (out + [c])[..|out|] == out;
  }

  ghost predicate Unheard(s: State, t: State) { HeardOf(t.out) == HeardOf(s.out) && t.inThinking == s.inThinking }

  lemma PassUnheard(s: State, id: string, input: Input)
    requires id in s.seen
    ensures Unheard(s, Pass(s, id, input))
  {
    hide HeardOf;
    match input
    case Text(text) => HeardSnoc(s.out, ToolArgs(s.seen[id], text));
    case Object(json) => HeardSnoc(s.out, ToolArgs(s.seen[id], json));
    case _ =>
  }

  lemma OneToolUnheard(s: State, i: Item)
    ensures Unheard(s, OneTool(s, i))
  {
    hide HeardOf, Pass;
    if i.Tool? && !s.failed {
      if i.id in s.seen {
        PassUnheard(s, i.id, i.input);
      } else {
        HeardSnoc(s.out, ToolStart(s.chunkIndex == 0, s.toolCallIndex, i.id, i.name));
        PassUnheard(Start(s, i.id, i.name), i.id, i.input);
      }
    }
  }

  lemma {:induction false} ToolsUnheard(s: State, items: seq<Item>)
    ensures Unheard(s, Tools(s, items))
  {
    if items != [] {
      hide OneTool, HeardOf;
      ToolsUnheard(s, items[..|items| - 1]);
      OneToolUnheard(Tools(s, items[..|items| - 1]), items[|items| - 1]);
    }
  }

  lemma SettleUnheard(s: State, window: int)
    ensures Unheard(s, Settle(s, window))
  {
    hide HeardOf, Estimate;
    HeardSnoc(s.out, Finish(s.hasToolCalls, FinalUsage(s, window)));
  }

  lemma AssistantHeard(s: State, content: string, told: Told)
    requires HeardOk(s, told) && content != ""
    ensures HeardOk(AssistantTurn(s, content), told.(pieces := told.pieces + [content]))
  {
    hide StripAll, Strip, HeardOf;
    StripSnoc(false, told.pieces, content);
    var (inThinking, text) := Strip(s.inThinking, content);
    if text == "" && s.hasReasoning {
      AddNothing(HeardOf(s.out).said);
    } else {
      HeardSnoc(s.out, ContentChunk(s.chunkIndex == 0, text));
    }
  }

  lemma AddNothing(s: string)
    ensures s + "" == s
  {
  }

  lemma ReasoningHeard(s: State, text: string, told: Told)
    requires HeardOk(s, told)
    ensures HeardOk(ReasoningTurn(s, text), told.(reasoned := told.reasoned + text))
  {
    hide StripAll, HeardOf;
    HeardSnoc(s.out, ReasoningChunk(s.reasoningChunks == 0 && s.chunkIndex == 0, text));
    if text == "" { assert told.reasoned + "" == told.reasoned; }
  }

  lemma CodeHeard(s: State, content: string, told: Told)
    requires HeardOk(s, told)
    ensures HeardOk(CodeTurn(s, content), told.(coded := told.coded + content))
  {
    hide StripAll, HeardOf;
    HeardSnoc(s.out, CodeChunk(content));
    if content == "" { assert told.coded + "" == told.coded; }
  }

  lemma TurnHeard(s: State, e: Event, es: seq<Event>)
    requires HeardOk(s, ToldBy(es))
    ensures HeardOk(Turn(s, e), ToldBy(es + [e]))
  {
    assert (es + [e])[..|es|] == es;
    hide StripAll, HeardOf, AssistantTurn, ReasoningTurn, CodeTurn, Tools, Turn;
    TurnIs(s, e);
    match e
    case Assistant(content) => if content != "" { AssistantHeard(s, content, ToldBy(es)); } else { NothingSaid(s); }
    case Reasoning(text) => ReasoningHeard(s, text, ToldBy(es));
    case Code(content) => CodeHeard(s, content, ToldBy(es));
    case ToolUses(items) => ToolsUnheard(s.(hasToolCalls := true), items);
    case MessageStop => HeardSnoc(s.out, Finish(s.hasToolCalls, None));
    case _ => TurnLeaves(s, e);
  }

  lemma NothingSaid(s: State)
    ensures AssistantTurn(s, "") == s
  {
  }

  /** What the program makes of it: the answer is its own stripping of the pieces; reasoning and code come
      through as they are. */
  lemma {:induction false} HeardRun(window: int, es: seq<Event>)
    requires !Run(window, es).failed
    ensures HeardOk(Run(window, es), ToldBy(es))
  {
    if es != [] {
      var init, last := es[..|es| - 1], es[|es| - 1];
      RunUnfailed(window, es);
      HeardRun(window, init);
      assert es == init + [last];
      hide HeardOf, StripAll, Turn, Settle, Skips, ToldBy;
      TurnHeard(Run(window, init), last, init);
      SettleUnheard(Turn(Run(window, init), last), window);
    }
  }

  /** The client hears what the upstream said. Where the pieces of the answer are cut cleanly, the answer is
      the upstream's text without its thinking blocks if and only if no piece has an opening tag behind a
      closing tag; reasoning and code come through as they are in any case. */
  lemma AnswerHeard(window: int, es: seq<Event>)
    requires !Run(window, es).failed && KiroBlocks.CleanCuts(ToldBy(es).pieces)
    ensures var heard, told := HeardOf(Run(window, es).out), ToldBy(es);
            && (heard.said == KiroBlocks.Clean(false, Flatten(told.pieces)) <==> KiroBlocks.AllTidy(told.pieces))
            && heard.reasoned == told.reasoned && heard.coded == told.coded
  {
    HeardRun(window, es);
    hide Run, HeardOf, ToldBy, StripAll;
    KiroBlocks.BlocksDropped(ToldBy(es).pieces);
  }
}
