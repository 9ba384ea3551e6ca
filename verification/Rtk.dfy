/** The tool-result compressor's traversal and accounting (open-sse/rtk/index.js).

    Whether a text may be compressed depends on where it stands in the body; what it becomes depends on
    an arbitrary filter. `Map...` applies a function to the eligible texts of a part of the body, and
    `Texts...` lists them in the order in which they are visited. */
module Rtk {
  import opened Basics

  // ---------------------------------------------------------------- one text

  /** What a filter does: it may throw, or return something that is no string. */
  datatype Applied = Out(text: string) | Threw | NoString

  datatype Filter = Filter(name: string, apply: string -> Applied)

  /** The detector: the filter for a text, if any. */
  type Detect = string -> Option<Filter>

  const RAW_CAP := 10 * 1024 * 1024
  const MIN_COMPRESS_SIZE := 500

  datatype Hit = Hit(shape: string, filter: string, saved: int)

  datatype Stats = Stats(bytesBefore: int, bytesAfter: int, hits: seq<Hit>)

  const NO_STATS := Stats(0, 0, [])

  /** An eligible text and the shape it was found in. */
  datatype Eligible = Eligible(shape: string, text: string)

  /** A filter that throws, or returns no string, leaves the text as it is. */
  function SafeApply(f: Filter, text: string): string {
    match f.apply(text) case Out(out) => out case _ => text
  }

  /** The filter that a text is replaced with, if it is. */
  function Replaces(detect: Detect, text: string): Option<Filter> {
    if |text| < MIN_COMPRESS_SIZE || |text| > RAW_CAP then None
    else
      match detect(text)
      case None => None
      case Some(f) => if 0 < |SafeApply(f, text)| < |text| then Some(f) else None
  }

  function Compressed(detect: Detect, text: string): string {
    match Replaces(detect, text) case None => text case Some(f) => SafeApply(f, text)
  }

  function Counted(detect: Detect, s: Stats, e: Eligible): Stats {
    Stats(s.bytesBefore + |e.text|, s.bytesAfter + |Compressed(detect, e.text)|,
          match Replaces(detect, e.text)
          case None => s.hits
          case Some(f) => s.hits + [Hit(e.shape, f.name, |e.text| - |SafeApply(f, e.text)|)])
  }

  function CountedAll(detect: Detect, s: Stats, es: seq<Eligible>): Stats {
    if es == [] then s else Counted(detect, CountedAll(detect, s, es[..|es| - 1]), es[|es| - 1])
  }

  lemma {:induction false} CountedConcat(detect: Detect, s: Stats, a: seq<Eligible>, b: seq<Eligible>)
    ensures CountedAll(detect, s, a + b) == CountedAll(detect, CountedAll(detect, s, a), b)
  {
    if b == [] {
      assert a + b == a;
    } else {
      hide Counted;
      assert (a + b)[..|a + b| - 1] == a + b[..|b| - 1];
      CountedConcat(detect, s, a, b[..|b| - 1]);
    }
  }

  // ---------------------------------------------------------------- the body

  /** `rest` stands for all other fields of an entity. A text that is no string is `None`. */
  datatype Part = NullPart | Part(kind: string, text: Option<string>, rest: int)

  datatype Inner = InnerText(text: string) | InnerParts(parts: seq<Part>) | InnerOther(rest: int)

  datatype Block = NullBlock | Block(kind: string, text: Option<string>, isError: bool, content: Inner, rest: int)

  datatype Content = ContentText(text: string) | Blocks(blocks: seq<Block>) | ContentOther(rest: int)

  datatype Message = NullMessage | Message(kind: string, role: string, output: Inner, content: Content, rest: int)

  datatype ToolResult = NullResult | ToolResult(status: string, content: Option<seq<Part>>, rest: int)

  /** A Kiro message; `results` is `None` where there is no list of tool results. */
  datatype KiroMessage = KiroMessage(results: Option<seq<ToolResult>>, rest: int)

  /** A Kiro conversation is its history and, last, the current message. */
  datatype Body = Body(kiro: Option<seq<KiroMessage>>, messages: Option<seq<Message>>, input: Option<seq<Message>>,
                       rest: int)

  type Edit = string -> string

  function MapSeq<T>(f: T -> T, s: seq<T>): seq<T> { seq(|s|, i requires 0 <= i < |s| => f(s[i])) }

  function TextsOf<T>(texts: T -> seq<Eligible>, s: seq<T>): seq<Eligible> {
    if s == [] then [] else TextsOf(texts, s[..|s| - 1]) + texts(s[|s| - 1])
  }

  // ---------------------------------------------------------------- where texts stand

  /** The text of a part of the wanted kind; any kind will do where none is wanted. */
  function MapPart(f: Edit, kind: string): Part -> Part {
    (p: Part) =>
      if p.Part? && p.text.Some? && (kind == "" || p.kind == kind) then p.(text := Some(f(p.text.value))) else p
  }

  function PartTexts(kind: string, shape: string): Part -> seq<Eligible> {
    (p: Part) =>
      if p.Part? && p.text.Some? && (kind == "" || p.kind == kind) then [Eligible(shape, p.text.value)] else []
  }

  function MapInner(f: Edit, kind: string, i: Inner): Inner {
    match i
    case InnerText(text) => InnerText(f(text))
    case InnerParts(parts) => InnerParts(MapSeq(MapPart(f, kind), parts))
    case InnerOther(_) => i
  }

  function InnerTexts(kind: string, ofText: string, ofParts: string, i: Inner): seq<Eligible> {
    match i
    case InnerText(text) => [Eligible(ofText, text)]
    case InnerParts(parts) => TextsOf(PartTexts(kind, ofParts), parts)
    case InnerOther(_) => []
  }

  /** A text block of a tool message. */
  function MapToolBlock(f: Edit): Block -> Block {
    (b: Block) => if b.Block? && b.kind == "text" && b.text.Some? then b.(text := Some(f(b.text.value))) else b
  }

  function ToolBlockTexts(): Block -> seq<Eligible> {
    (b: Block) =>
      if b.Block? && b.kind == "text" && b.text.Some? then [Eligible("openai-tool-array", b.text.value)] else []
  }

  /** A tool result among the blocks of any other message, unless it reports an error. */
  function MapResultBlock(f: Edit): Block -> Block {
    (b: Block) =>
      if b.Block? && b.kind == "tool_result" && !b.isError then b.(content := MapInner(f, "text", b.content)) else b
  }

  function ResultBlockTexts(): Block -> seq<Eligible> {
    (b: Block) =>
      if b.Block? && b.kind == "tool_result" && !b.isError
      then InnerTexts("text", "claude-string", "claude-array", b.content)
      else []
  }

  function MapMessage(f: Edit): Message -> Message {
    (m: Message) =>
      if m.NullMessage? then m
      else if m.kind == "function_call_output" then m.(output := MapInner(f, "input_text", m.output))
      else
        match m.content
        case ContentText(text) => if m.role == "tool" then m.(content := ContentText(f(text))) else m
        case Blocks(blocks) =>
          m.(content := Blocks(MapSeq(if m.role == "tool" then MapToolBlock(f) else MapResultBlock(f), blocks)))
        case ContentOther(_) => m
  }

  function MessageTexts(): Message -> seq<Eligible> {
    (m: Message) =>
      if m.NullMessage? then []
      else if m.kind == "function_call_output"
      then InnerTexts("input_text", "openai-responses-string", "openai-responses-array", m.output)
      else
        match m.content
        case ContentText(text) => if m.role == "tool" then [Eligible("openai-tool", text)] else []
        case Blocks(blocks) => TextsOf(if m.role == "tool" then ToolBlockTexts() else ResultBlockTexts(), blocks)
        case ContentOther(_) => []
  }

  // ---------------------------------------------------------------- Kiro bodies

  /** A tool result that is null cannot be read: the traversal stops there with an exception. */
  predicate Breaks(m: KiroMessage) { m.results.Some? && NullResult in m.results.value }

  /** How many of the results are read. */
  function ReadResults(rs: seq<ToolResult>): (n: nat)
    ensures n <= |rs| && (n < |rs| ==> rs[n].NullResult?) && forall i :: 0 <= i < n ==> rs[i].ToolResult?
  {
    if rs == [] then 0
    else
      var n := ReadResults(rs[..|rs| - 1]);
      if n == |rs| - 1 && rs[|rs| - 1].ToolResult? then |rs| else n
  }

  function MapResult(f: Edit): ToolResult -> ToolResult {
    (r: ToolResult) =>
      if r.ToolResult? && r.status != "error" && r.content.Some?
      then r.(content := Some(MapSeq(MapPart(f, ""), r.content.value)))
      else r
  }

  function ResultTexts(): ToolResult -> seq<Eligible> {
    (r: ToolResult) =>
      if r.ToolResult? && r.status != "error" && r.content.Some?
      then TextsOf(PartTexts("", "kiro-tool-result"), r.content.value)
      else []
  }

  function MapKiro(f: Edit): KiroMessage -> KiroMessage {
    (m: KiroMessage) =>
      if m.results.None? then m
      else
        var rs := m.results.value;
        var n := ReadResults(rs);
        m.(results := Some(MapSeq(MapResult(f), rs[..n]) + rs[n..]))
  }

  function KiroTexts(): KiroMessage -> seq<Eligible> {
    (m: KiroMessage) =>
      if m.results.None? then [] else TextsOf(ResultTexts(), m.results.value[..ReadResults(m.results.value)])
  }

  /** How many messages are visited: up to the first that breaks, and that one in part. */
  function Visited(ms: seq<KiroMessage>): (n: nat)
    ensures n <= |ms|
  {
    if ms == [] then 0
    else
      var n := Visited(ms[..|ms| - 1]);
      if n == |ms| - 1 && !(n > 0 && Breaks(ms[n - 1])) then |ms| else n
  }

  // ---------------------------------------------------------------- the whole body

  function Items(b: Body): Option<seq<Message>> { if b.messages.Some? then b.messages else b.input }

  function MapBody(f: Edit, b: Body): Body {
    if b.kiro.Some? then
      var n := Visited(b.kiro.value);
      b.(kiro := Some(MapSeq(MapKiro(f), b.kiro.value[..n]) + b.kiro.value[n..]))
    else if b.messages.Some? then b.(messages := Some(MapSeq(MapMessage(f), b.messages.value)))
    else if b.input.Some? then b.(input := Some(MapSeq(MapMessage(f), b.input.value)))
    else b
  }

  function BodyTexts(b: Body): seq<Eligible> {
    if b.kiro.Some? then TextsOf(KiroTexts(), b.kiro.value[..Visited(b.kiro.value)])
    else if Items(b).Some? then TextsOf(MessageTexts(), Items(b).value)
    else []
  }

  /** Whether the traversal ends with an exception, so that there are no statistics. */
  predicate BodyBreaks(b: Body) { b.kiro.Some? && exists m :: m in b.kiro.value && Breaks(m) }

  function Compressor(detect: Detect): Edit { (text: string) => Compressed(detect, text) }

  /** What `compressMessages` leaves and returns. */
  function Compress(detect: Detect, enabled: bool, b: Body): (Body, Option<Stats>) {
    if !enabled || (b.kiro.None? && Items(b).None?) then (b, None)
    else
      (MapBody(Compressor(detect), b), if BodyBreaks(b) then None else Some(CountedAll(detect, NO_STATS, BodyTexts(b))))
  }

  // ---------------------------------------------------------------- only eligible texts change

  /** Erases a text. */
  function Blank(): Edit { (text: string) => "" }

  /** Everything of a body but its eligible texts. */
  function Skeleton(b: Body): Body { MapBody(Blank(), b) }

  function Lift(f: Edit, es: seq<Eligible>): seq<Eligible> {
    seq(|es|, i requires 0 <= i < |es| => Eligible(es[i].shape, f(es[i].text)))
  }

  lemma LiftConcat(f: Edit, a: seq<Eligible>, b: seq<Eligible>)
    ensures Lift(f, a + b) == Lift(f, a) + Lift(f, b)
  {
  }

  /** A map and a listing agree, on one entity: the map changes the listed texts, and nothing else. */
  ghost predicate Fits<T>(change: T -> T, erase: T -> T, texts: T -> seq<Eligible>, f: Edit, x: T) {
    && texts(change(x)) == Lift(f, texts(x))
    && erase(change(x)) == erase(x)
  }

  /** Then they agree on a list of such entities. */
  lemma {:induction false} FitsAll<T>(change: T -> T, erase: T -> T, texts: T -> seq<Eligible>, f: Edit, s: seq<T>)
    requires forall x :: x in s ==> Fits(change, erase, texts, f, x)
    ensures TextsOf(texts, MapSeq(change, s)) == Lift(f, TextsOf(texts, s))
    ensures MapSeq(erase, MapSeq(change, s)) == MapSeq(erase, s)
  {
    if s == [] {
      assert MapSeq(change, s) == [];
    } else {
      var init, last := s[..|s| - 1], s[|s| - 1];
      FitsAll(change, erase, texts, f, init);
      assert last in s && MapSeq(change, s)[|s| - 1] == change(last);
      assert MapSeq(change, s)[..|s| - 1] == MapSeq(change, init);
      LiftConcat(f, TextsOf(texts, init), texts(last));
      assert texts(change(last)) == Lift(f, texts(last));
      forall i | 0 <= i < |s| ensures erase(change(s[i])) == erase(s[i]) {
        assert s[i] in s;
      }
    }
  }

  lemma PartFits(f: Edit, kind: string, shape: string, p: Part)
    ensures Fits(MapPart(f, kind), MapPart(Blank(), kind), PartTexts(kind, shape), f, p)
  {
  }

  lemma InnerFits(f: Edit, kind: string, ofText: string, ofParts: string, i: Inner)
    ensures InnerTexts(kind, ofText, ofParts, MapInner(f, kind, i)) == Lift(f, InnerTexts(kind, ofText, ofParts, i))
    ensures MapInner(Blank(), kind, MapInner(f, kind, i)) == MapInner(Blank(), kind, i)
  {
    if i.InnerParts? {
      forall p | p in i.parts ensures Fits(MapPart(f, kind), MapPart(Blank(), kind), PartTexts(kind, ofParts), f, p) {
        PartFits(f, kind, ofParts, p);
      }
      FitsAll(MapPart(f, kind), MapPart(Blank(), kind), PartTexts(kind, ofParts), f, i.parts);
    }
  }

  lemma ToolBlockFits(f: Edit, b: Block)
    ensures Fits(MapToolBlock(f), MapToolBlock(Blank()), ToolBlockTexts(), f, b)
  {
  }

  lemma ResultBlockFits(f: Edit, b: Block)
    ensures Fits(MapResultBlock(f), MapResultBlock(Blank()), ResultBlockTexts(), f, b)
  {
    if b.Block? { InnerFits(f, "text", "claude-string", "claude-array", b.content); }
    hide MapInner, InnerTexts;
  }

  lemma MessageFits(f: Edit, m: Message)
    ensures Fits(MapMessage(f), MapMessage(Blank()), MessageTexts(), f, m)
  {
    if m.Message? {
      if m.kind == "function_call_output" {
        InnerFits(f, "input_text", "openai-responses-string", "openai-responses-array", m.output);
      } else if m.content.Blocks? {
        BlocksFit(f, m.role == "tool", m.content.blocks);
      }
    }
    hide MapInner, InnerTexts, MapSeq, TextsOf;
  }

  lemma BlocksFit(f: Edit, tool: bool, blocks: seq<Block>)
    ensures var change, erase, texts := if tool then MapToolBlock(f) else MapResultBlock(f),
                                      if tool then MapToolBlock(Blank()) else MapResultBlock(Blank()),
                                      if tool then ToolBlockTexts() else ResultBlockTexts();
            && TextsOf(texts, MapSeq(change, blocks)) == Lift(f, TextsOf(texts, blocks))
            && MapSeq(erase, MapSeq(change, blocks)) == MapSeq(erase, blocks)
  {
    forall b | b in blocks
      ensures Fits(MapToolBlock(f), MapToolBlock(Blank()), ToolBlockTexts(), f, b)
      ensures Fits(MapResultBlock(f), MapResultBlock(Blank()), ResultBlockTexts(), f, b)
    {
      ToolBlockFits(f, b);
      ResultBlockFits(f, b);
    }
    hide MapToolBlock, MapResultBlock, ToolBlockTexts, ResultBlockTexts, Fits;
    FitsAll(MapToolBlock(f), MapToolBlock(Blank()), ToolBlockTexts(), f, blocks);
    FitsAll(MapResultBlock(f), MapResultBlock(Blank()), ResultBlockTexts(), f, blocks);
  }

  lemma MessagesFit(f: Edit, ms: seq<Message>)
    ensures TextsOf(MessageTexts(), MapSeq(MapMessage(f), ms)) == Lift(f, TextsOf(MessageTexts(), ms))
    ensures MapSeq(MapMessage(Blank()), MapSeq(MapMessage(f), ms)) == MapSeq(MapMessage(Blank()), ms)
  {
    forall m | m in ms ensures Fits(MapMessage(f), MapMessage(Blank()), MessageTexts(), f, m) {
      MessageFits(f, m);
    }
    FitsAll(MapMessage(f), MapMessage(Blank()), MessageTexts(), f, ms);
  }

  lemma ResultFits(f: Edit, r: ToolResult)
    ensures Fits(MapResult(f), MapResult(Blank()), ResultTexts(), f, r)
  {
    if r.ToolResult? && r.content.Some? {
      var parts := r.content.value;
      forall p | p in parts
        ensures Fits(MapPart(f, ""), MapPart(Blank(), ""), PartTexts("", "kiro-tool-result"), f, p)
      {
        PartFits(f, "", "kiro-tool-result", p);
      }
      FitsAll(MapPart(f, ""), MapPart(Blank(), ""), PartTexts("", "kiro-tool-result"), f, parts);
      hide MapSeq, TextsOf;
    }
  }

  lemma {:induction false} ReadSame(a: seq<ToolResult>, b: seq<ToolResult>)
    requires |a| == |b| && forall i :: 0 <= i < |a| ==> (a[i].NullResult? <==> b[i].NullResult?)
    ensures ReadResults(a) == ReadResults(b) && (NullResult in a <==> NullResult in b)
  {
    if a != [] {
      ReadSame(a[..|a| - 1], b[..|b| - 1]);
      assert a == a[..|a| - 1] + [a[|a| - 1]] && b == b[..|b| - 1] + [b[|b| - 1]];
    }
  }

  /** Mapping a Kiro message leaves alone what decides how far it is read. */
  lemma KiroShape(f: Edit, m: KiroMessage)
    requires m.results.Some?
    ensures var rs, rs' := m.results.value, MapKiro(f)(m).results.value;
            && MapKiro(f)(m).results.Some? && |rs'| == |rs|
            && ReadResults(rs') == ReadResults(rs) && (Breaks(MapKiro(f)(m)) <==> Breaks(m))
            && rs'[..ReadResults(rs)] == MapSeq(MapResult(f), rs[..ReadResults(rs)])
            && rs'[ReadResults(rs)..] == rs[ReadResults(rs)..]
  {
    var rs := m.results.value;
    var n := ReadResults(rs);
    ReadSame(rs, MapSeq(MapResult(f), rs[..n]) + rs[n..]);
  }

  lemma KiroFits(f: Edit, m: KiroMessage)
    ensures Fits(MapKiro(f), MapKiro(Blank()), KiroTexts(), f, m)
    ensures Breaks(MapKiro(f)(m)) <==> Breaks(m)
  {
    if m.results.Some? {
      var rs := m.results.value;
      KiroShape(f, m);
      ResultsFit(f, rs[..ReadResults(rs)]);
      hide MapSeq, TextsOf, ReadResults;
    }
  }

  lemma ResultsFit(f: Edit, rs: seq<ToolResult>)
    ensures TextsOf(ResultTexts(), MapSeq(MapResult(f), rs)) == Lift(f, TextsOf(ResultTexts(), rs))
    ensures MapSeq(MapResult(Blank()), MapSeq(MapResult(f), rs)) == MapSeq(MapResult(Blank()), rs)
  {
    forall r | r in rs ensures Fits(MapResult(f), MapResult(Blank()), ResultTexts(), f, r) {
      ResultFits(f, r);
    }
    FitsAll(MapResult(f), MapResult(Blank()), ResultTexts(), f, rs);
  }

  lemma {:induction false} VisitedSame(a: seq<KiroMessage>, b: seq<KiroMessage>)
    requires |a| == |b| && forall i :: 0 <= i < |a| ==> (Breaks(a[i]) <==> Breaks(b[i]))
    ensures Visited(a) == Visited(b)
  {
    if a != [] { VisitedSame(a[..|a| - 1], b[..|b| - 1]); }
  }

  lemma KirosFit(f: Edit, ms: seq<KiroMessage>)
    ensures TextsOf(KiroTexts(), MapSeq(MapKiro(f), ms)) == Lift(f, TextsOf(KiroTexts(), ms))
    ensures MapSeq(MapKiro(Blank()), MapSeq(MapKiro(f), ms)) == MapSeq(MapKiro(Blank()), ms)
    ensures forall i :: 0 <= i < |ms| ==> (Breaks(MapSeq(MapKiro(f), ms)[i]) <==> Breaks(ms[i]))
  {
    forall m ensures Fits(MapKiro(f), MapKiro(Blank()), KiroTexts(), f, m) && (Breaks(MapKiro(f)(m)) <==> Breaks(m)) {
      KiroFits(f, m);
    }
    FitsAll(MapKiro(f), MapKiro(Blank()), KiroTexts(), f, ms);
  }

  /** Compressing changes the eligible texts, each as the function says, and nothing else: no other
      field, no entity that reports an error, no order. */
  lemma OnlyTextsChange(f: Edit, b: Body)
    ensures BodyTexts(MapBody(f, b)) == Lift(f, BodyTexts(b))
    ensures Skeleton(MapBody(f, b)) == Skeleton(b)
  {
    hide MapSeq, TextsOf, Lift, MapKiro, MapMessage, MessageTexts, KiroTexts, Visited;
    if b.kiro.Some? {
      KiroBodyFits(f, b.kiro.value);
    } else if Items(b).Some? {
      MessagesFit(f, Items(b).value);
    } else {
      LiftNone(f);
    }
  }

  lemma LiftNone(f: Edit)
    ensures Lift(f, []) == []
  {
  }

  lemma KiroBodyFits(f: Edit, ms: seq<KiroMessage>)
    ensures var n := Visited(ms);
            var ms' := MapSeq(MapKiro(f), ms[..n]) + ms[n..];
            && Visited(ms') == n
            && TextsOf(KiroTexts(), ms'[..n]) == Lift(f, TextsOf(KiroTexts(), ms[..n]))
            && MapSeq(MapKiro(Blank()), ms'[..n]) + ms'[n..] == MapSeq(MapKiro(Blank()), ms[..n]) + ms[n..]
  {
    hide TextsOf, Lift, MapKiro, KiroTexts, Breaks;
    var n := Visited(ms);
    var ms' := MapSeq(MapKiro(f), ms[..n]) + ms[n..];
    KirosFit(f, ms[..n]);
    assert ms'[..n] == MapSeq(MapKiro(f), ms[..n]) && ms'[n..] == ms[n..];
    forall i | 0 <= i < |ms| ensures Breaks(ms'[i]) <==> Breaks(ms[i]) {
      if i < n { assert ms'[i] == MapSeq(MapKiro(f), ms[..n])[i] && ms[..n][i] == ms[i]; }
    }
    VisitedSame(ms', ms);
  }

  // ---------------------------------------------------------------- the accounts

  function TotalLength(es: seq<Eligible>): int {
    if es == [] then 0 else TotalLength(es[..|es| - 1]) + |es[|es| - 1].text|
  }

  function TotalSaved(hits: seq<Hit>): int {
    if hits == [] then 0 else TotalSaved(hits[..|hits| - 1]) + hits[|hits| - 1].saved
  }

  /** How many texts became another, shorter one. */
  function Shortened(detect: Detect, es: seq<Eligible>): nat {
    if es == [] then 0
    else
      var text := es[|es| - 1].text;
      Shortened(detect, es[..|es| - 1]) + (if |Compressed(detect, text)| < |text| then 1 else 0)
  }

  /** No text grows, none that is not empty becomes empty, and one that is not shortened is unchanged. */
  lemma NeverWorse(detect: Detect, text: string)
    ensures var out := Compressor(detect)(text);
            |out| <= |text| && (text != "" ==> out != "") && (|out| == |text| ==> out == text)
  {
  }

  lemma SavedSnoc(hits: seq<Hit>, h: Hit)
    ensures TotalSaved(hits + [h]) == TotalSaved(hits) + h.saved
  {
    assert (hits + [h])[..|hits|] == hits;
  }

  /** The statistics are the total lengths before and after; their difference is what the hits saved;
      and there is one hit, saving something, for each text that became shorter. */
  lemma {:induction false} Accounts(detect: Detect, es: seq<Eligible>)
    ensures var s := CountedAll(detect, NO_STATS, es);
            && s.bytesBefore == TotalLength(es)
            && s.bytesAfter == TotalLength(Lift(Compressor(detect), es))
            && s.bytesBefore - s.bytesAfter == TotalSaved(s.hits)
            && |s.hits| == Shortened(detect, es)
            && forall h :: h in s.hits ==> h.saved > 0
  {
    var f := Compressor(detect);
    if es != [] {
      var init, last := es[..|es| - 1], es[|es| - 1];
      Accounts(detect, init);
      assert Lift(f, es)[..|es| - 1] == Lift(f, init);
      var was := CountedAll(detect, NO_STATS, init);
      hide CountedAll, SafeApply, Lift;
      match Replaces(detect, last.text)
      case None =>
      case Some(filter) =>
        SavedSnoc(was.hits, Hit(last.shape, filter.name, |last.text| - |SafeApply(filter, last.text)|));
    }
  }

  /** The whole of it. There are statistics exactly when compression is on, the body has a list of items,
      and no null tool result broke off the traversal; whether or not, only eligible texts change. */
  lemma Conservation(detect: Detect, enabled: bool, b: Body)
    ensures var (b', stats) := Compress(detect, enabled, b);
            && (stats.Some? <==> enabled && (b.kiro.Some? || Items(b).Some?) && !BodyBreaks(b))
            && Skeleton(b') == Skeleton(b)
            && (if enabled then BodyTexts(b') == Lift(Compressor(detect), BodyTexts(b)) else b' == b)
            && (stats.Some? ==>
                 && stats.value.bytesBefore == TotalLength(BodyTexts(b))
                 && stats.value.bytesAfter == TotalLength(BodyTexts(b'))
                 && stats.value.bytesBefore - stats.value.bytesAfter == TotalSaved(stats.value.hits) >= 0
                 && |stats.value.hits| == Shortened(detect, BodyTexts(b)))
  {
    OnlyTextsChange(Compressor(detect), b);
    Accounts(detect, BodyTexts(b));
    if b.kiro.None? && Items(b).None? { LiftNone(Compressor(detect)); }
    hide MapSeq, TextsOf, Visited, MapKiro, KiroTexts, MapMessage, MessageTexts, CountedAll, Lift, Compressor,
         Shortened, TotalLength;
    if enabled { SavedNonNegative(CountedAll(detect, NO_STATS, BodyTexts(b)).hits); }
  }

  lemma {:induction false} SavedNonNegative(hits: seq<Hit>)
    requires forall h :: h in hits ==> h.saved > 0
    ensures TotalSaved(hits) >= |hits|
  {
    if hits != [] { SavedNonNegative(hits[..|hits| - 1]); }
  }

  // ---------------------------------------------------------------- the program

  class Compression {
    const detect: Detect
    var stats: Stats

    constructor (detect: Detect)
      ensures this.detect == detect && stats == NO_STATS
    {
      this.detect, stats := detect, NO_STATS;
    }

    method CompressText(text: string, shape: string) returns (out: string)
      modifies this
      ensures out == Compressor(detect)(text)
      ensures stats == Counted(detect, old(stats), Eligible(shape, text))
    {
      var bytesIn := |text|;
      stats := stats.(bytesBefore := stats.bytesBefore + bytesIn);
      if bytesIn < MIN_COMPRESS_SIZE || bytesIn > RAW_CAP {
        stats := stats.(bytesAfter := stats.bytesAfter + bytesIn);
        return text;
      }
      var fn := detect(text);
      if fn.None? {
        stats := stats.(bytesAfter := stats.bytesAfter + bytesIn);
        return text;
      }
      out := SafeApply(fn.value, text);
      if |out| == 0 || |out| >= bytesIn {
        stats := stats.(bytesAfter := stats.bytesAfter + bytesIn);
        return text;
      }
      stats := stats.(bytesAfter := stats.bytesAfter + |out|,
                      hits := stats.hits + [Hit(shape, fn.value.name, bytesIn - |out|)]);
    }

    /** A list of parts; `kind` is empty where any part with a text will do. */
    method CompressParts(parts: seq<Part>, kind: string, shape: string) returns (out: seq<Part>)
      modifies this
      ensures out == MapSeq(MapPart(Compressor(detect), kind), parts)
      ensures stats == CountedAll(detect, old(stats), TextsOf(PartTexts(kind, shape), parts))
    {
      hide Compressor, Counted;
      out := parts;
      for k := 0 to |parts|
        invariant |out| == |parts|
        invariant forall j :: 0 <= j < |parts| ==>
                    out[j] == if j < k then MapPart(Compressor(detect), kind)(parts[j]) else parts[j]
        invariant stats == CountedAll(detect, old(stats), TextsOf(PartTexts(kind, shape), parts[..k]))
      {
        OneMoreText(detect, old(stats), PartTexts(kind, shape), parts, k);
        var part := parts[k];
        if part.Part? && part.text.Some? && (kind == "" || part.kind == kind) {
          var text := CompressText(part.text.value, shape);
          out := out[k := part.(text := Some(text))];
        }
      }
      assert parts[..|parts|] == parts;
    }

    method CompressInner(inner: Inner, kind: string, ofText: string, ofParts: string) returns (out: Inner)
      modifies this
      ensures out == MapInner(Compressor(detect), kind, inner)
      ensures stats == CountedAll(detect, old(stats), InnerTexts(kind, ofText, ofParts, inner))
    {
      hide Compressor, Counted;
      match inner
      case InnerText(text) =>
        var t := CompressText(text, ofText);
        JustOne(detect, old(stats), Eligible(ofText, text));
        out := InnerText(t);
      case InnerParts(parts) =>
        var ps := CompressParts(parts, kind, ofParts);
        out := InnerParts(ps);
      case InnerOther(_) => out := inner;
    }

    method CompressToolBlocks(blocks: seq<Block>) returns (out: seq<Block>)
      modifies this
      ensures out == MapSeq(MapToolBlock(Compressor(detect)), blocks)
      ensures stats == CountedAll(detect, old(stats), TextsOf(ToolBlockTexts(), blocks))
    {
      hide Compressor, Counted;
      out := blocks;
      for k := 0 to |blocks|
        invariant |out| == |blocks|
        invariant forall j :: 0 <= j < |blocks| ==>
                    out[j] == if j < k then MapToolBlock(Compressor(detect))(blocks[j]) else blocks[j]
        invariant stats == CountedAll(detect, old(stats), TextsOf(ToolBlockTexts(), blocks[..k]))
      {
        OneMoreText(detect, old(stats), ToolBlockTexts(), blocks, k);
        var part := blocks[k];
        if part.Block? && part.kind == "text" && part.text.Some? {
          var text := CompressText(part.text.value, "openai-tool-array");
          out := out[k := part.(text := Some(text))];
        }
      }
      assert blocks[..|blocks|] == blocks;
    }

    method CompressResultBlocks(blocks: seq<Block>) returns (out: seq<Block>)
      modifies this
      ensures out == MapSeq(MapResultBlock(Compressor(detect)), blocks)
      ensures stats == CountedAll(detect, old(stats), TextsOf(ResultBlockTexts(), blocks))
    {
      hide Compressor, Counted, MapInner, InnerTexts;
      out := blocks;
      for j := 0 to |blocks|
        invariant |out| == |blocks|
        invariant forall i :: 0 <= i < |blocks| ==>
                    out[i] == if i < j then MapResultBlock(Compressor(detect))(blocks[i]) else blocks[i]
        invariant stats == CountedAll(detect, old(stats), TextsOf(ResultBlockTexts(), blocks[..j]))
      {
        OneMoreText(detect, old(stats), ResultBlockTexts(), blocks, j);
        var block := blocks[j];
        if block.Block? && block.kind == "tool_result" && !block.isError {
          var content := CompressInner(block.content, "text", "claude-string", "claude-array");
          out := out[j := block.(content := content)];
        }
      }
      assert blocks[..|blocks|] == blocks;
    }

    method CompressMessage(msg: Message) returns (out: Message)
      modifies this
      ensures out == MapMessage(Compressor(detect))(msg)
      ensures stats == CountedAll(detect, old(stats), MessageTexts()(msg))
    {
      hide Compressor, Counted, MapInner, InnerTexts, MapSeq, TextsOf;
      out := msg;
      if msg.NullMessage? { return; }
      if msg.kind == "function_call_output" {
        var output := CompressInner(msg.output, "input_text", "openai-responses-string", "openai-responses-array");
        return msg.(output := output);
      }
      match msg.content
      case ContentText(text) =>
        if msg.role == "tool" {
          var t := CompressText(text, "openai-tool");
          JustOne(detect, old(stats), Eligible("openai-tool", text));
          out := msg.(content := ContentText(t));
        }
      case Blocks(blocks) =>
        if msg.role == "tool" {
          var bs := CompressToolBlocks(blocks);
          out := msg.(content := Blocks(bs));
        } else {
          var bs := CompressResultBlocks(blocks);
          out := msg.(content := Blocks(bs));
        }
      case ContentOther(_) =>
    }

    method CompressItems(items: seq<Message>) returns (out: seq<Message>)
      modifies this
      ensures out == MapSeq(MapMessage(Compressor(detect)), items)
      ensures stats == CountedAll(detect, old(stats), TextsOf(MessageTexts(), items))
    {
      hide Compressor, Counted, MapMessage, MessageTexts;
      out := items;
      for i := 0 to |items|
        invariant |out| == |items|
        invariant forall j :: 0 <= j < |items| ==>
                    out[j] == if j < i then MapMessage(Compressor(detect))(items[j]) else items[j]
        invariant stats == CountedAll(detect, old(stats), TextsOf(MessageTexts(), items[..i]))
      {
        OneMoreText(detect, old(stats), MessageTexts(), items, i);
        var msg := CompressMessage(items[i]);
        out := out[i := msg];
      }
      assert items[..|items|] == items;
    }

    /** The tool results of a Kiro message; `threw` when a null one was met. */
    method CompressResult(tr: ToolResult) returns (out: ToolResult)
      requires tr.ToolResult?
      modifies this
      ensures out == MapResult(Compressor(detect))(tr)
      ensures stats == CountedAll(detect, old(stats), ResultTexts()(tr))
    {
      hide Compressor, Counted, MapSeq, TextsOf;
      out := tr;
      if tr.status != "error" && tr.content.Some? {
        var parts := CompressParts(tr.content.value, "", "kiro-tool-result");
        out := tr.(content := Some(parts));
      }
    }

    method CompressResults(results: seq<ToolResult>) returns (out: seq<ToolResult>, threw: bool)
      modifies this
      ensures var n := ReadResults(results);
              && out == MapSeq(MapResult(Compressor(detect)), results[..n]) + results[n..]
              && stats == CountedAll(detect, old(stats), TextsOf(ResultTexts(), results[..n]))
              && (threw <==> NullResult in results)
    {
      hide Compressor, Counted, CountedAll, TextsOf, MapResult, ResultTexts, MapSeq;
      out, threw := results, false;
      NothingYet(detect, stats, ResultTexts(), results);
      ReadsTo(results);
      ghost var n := ReadResults(results);
      for i := 0 to |results|
        invariant |out| == |results| && i <= n && !threw
        invariant forall j :: 0 <= j < |results| ==>
                    out[j] == if j < i then MapResult(Compressor(detect))(results[j]) else results[j]
        invariant stats == CountedAll(detect, old(stats), TextsOf(ResultTexts(), results[..i]))
      {
        if results[i].NullResult? {
          threw := true;
          MappedTo(MapResult(Compressor(detect)), results, out, i);
          return;
        }
        OneMoreText(detect, old(stats), ResultTexts(), results, i);
        var tr := CompressResult(results[i]);
        out := out[i := tr];
      }
      MappedTo(MapResult(Compressor(detect)), results, out, |results|);
    }

    /** One message of a Kiro conversation. */
    method CompressKiroMessage(m: KiroMessage) returns (out: KiroMessage, threw: bool)
      modifies this
      ensures out == MapKiro(Compressor(detect))(m)
      ensures stats == CountedAll(detect, old(stats), KiroTexts()(m))
      ensures threw <==> Breaks(m)
    {
      hide Compressor, Counted, ReadResults, MapSeq;
      out, threw := m, false;
      if m.results.Some? {
        var results;
        results, threw := CompressResults(m.results.value);
        out := m.(results := Some(results));
      }
    }

    /** The messages of a Kiro conversation. */
    method CompressKiro(ms: seq<KiroMessage>) returns (out: seq<KiroMessage>, threw: bool)
      modifies this
      ensures var n := Visited(ms);
              && out == MapSeq(MapKiro(Compressor(detect)), ms[..n]) + ms[n..]
              && stats == CountedAll(detect, old(stats), TextsOf(KiroTexts(), ms[..n]))
              && (threw <==> exists m :: m in ms && Breaks(m))
    {
      hide Compressor, CountedAll, MapKiro, KiroTexts, TextsOf, Breaks, MapSeq;
      out, threw := ms, false;
      NothingYet(detect, stats, KiroTexts(), ms);
      for i := 0 to |ms|
        invariant |out| == |ms| && !threw && forall j :: 0 <= j < i ==> !Breaks(ms[j])
        invariant forall j :: 0 <= j < |ms| ==> out[j] == if j < i then MapKiro(Compressor(detect))(ms[j]) else ms[j]
        invariant stats == CountedAll(detect, old(stats), TextsOf(KiroTexts(), ms[..i]))
      {
        OneMoreText(detect, old(stats), KiroTexts(), ms, i);
        var m;
        m, threw := CompressKiroMessage(ms[i]);
        out := out[i := m];
        if threw {
          VisitsTo(ms, i);
          MappedTo(MapKiro(Compressor(detect)), ms, out, i + 1);
          return;
        }
      }
      VisitsAll(ms);
      MappedTo(MapKiro(Compressor(detect)), ms, out, |ms|);
      assert ms[..|ms|] == ms;
    }

    /** compressMessages. */
    method CompressMessages(body: Body, enabled: bool) returns (out: Body, result: Option<Stats>)
      requires stats == NO_STATS
      modifies this
      ensures (out, result) == Compress(detect, enabled, body)
    {
      hide Compressor, MapSeq, TextsOf, CountedAll, Visited;
      out, result := body, None;
      if !enabled { return; }
      if body.kiro.Some? {
        var ms, threw := CompressKiro(body.kiro.value);
        out := body.(kiro := Some(ms));
        return out, if threw then None else Some(stats);
      }
      if body.messages.Some? {
        var items := CompressItems(body.messages.value);
        return body.(messages := Some(items)), Some(stats);
      }
      if body.input.Some? {
        var items := CompressItems(body.input.value);
        return body.(input := Some(items)), Some(stats);
      }
    }
  }

  lemma JustOne(detect: Detect, s: Stats, e: Eligible)
    ensures CountedAll(detect, s, [e]) == Counted(detect, s, e)
    ensures CountedAll(detect, s, []) == s
  {
    var none: seq<Eligible> := [];
    assert [e][..0] == none;
  }

  lemma OneMoreText<T>(detect: Detect, s: Stats, texts: T -> seq<Eligible>, xs: seq<T>, i: nat)
    requires i < |xs|
    ensures CountedAll(detect, s, TextsOf(texts, xs[..i + 1])) ==
              CountedAll(detect, CountedAll(detect, s, TextsOf(texts, xs[..i])), texts(xs[i]))
    ensures forall e :: texts(xs[i]) == [e] ==>
              CountedAll(detect, s, TextsOf(texts, xs[..i + 1])) ==
                Counted(detect, CountedAll(detect, s, TextsOf(texts, xs[..i])), e)
    ensures texts(xs[i]) == [] ==>
              CountedAll(detect, s, TextsOf(texts, xs[..i + 1])) == CountedAll(detect, s, TextsOf(texts, xs[..i]))
  {
    assert xs[..i + 1][..i] == xs[..i];
    CountedConcat(detect, s, TextsOf(texts, xs[..i]), texts(xs[i]));
    hide Counted;
    forall e | texts(xs[i]) == [e]
      ensures CountedAll(detect, s, TextsOf(texts, xs[..i + 1])) ==
                Counted(detect, CountedAll(detect, s, TextsOf(texts, xs[..i])), e)
    {
      JustOne(detect, CountedAll(detect, s, TextsOf(texts, xs[..i])), e);
    }
  }

  lemma NothingYet<T>(detect: Detect, s: Stats, texts: T -> seq<Eligible>, xs: seq<T>)
    ensures CountedAll(detect, s, TextsOf(texts, xs[..0])) == s
  {
  }

  lemma {:induction false} ReadsTo(rs: seq<ToolResult>)
    ensures ReadResults(rs) == |rs| <==> NullResult !in rs
  {
    if rs != [] {
      ReadsTo(rs[..|rs| - 1]);
      assert rs == rs[..|rs| - 1] + [rs[|rs| - 1]];
    }
  }

  lemma {:induction false} VisitsTo(ms: seq<KiroMessage>, i: nat)
    requires i < |ms| && Breaks(ms[i]) && forall j :: 0 <= j < i ==> !Breaks(ms[j])
    ensures Visited(ms) == i + 1
  {
    if i < |ms| - 1 {
      VisitsTo(ms[..|ms| - 1], i);
    } else {
      VisitsAll(ms[..|ms| - 1]);
    }
  }

  lemma {:induction false} VisitsAll(ms: seq<KiroMessage>)
    requires forall j :: 0 <= j < |ms| ==> !Breaks(ms[j])
    ensures Visited(ms) == |ms|
  {
    if ms != [] { VisitsAll(ms[..|ms| - 1]); }
  }

  lemma MappedTo<T>(f: T -> T, xs: seq<T>, out: seq<T>, n: nat)
    requires n <= |xs| == |out| && forall j :: 0 <= j < |xs| ==> out[j] == if j < n then f(xs[j]) else xs[j]
    ensures out == MapSeq(f, xs[..n]) + xs[n..]
  {
  }
}
