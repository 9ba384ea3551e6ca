/** What the tool-result compressor of open-sse/rtk/index.js does to a body, place by place: what becomes of a
    text, which texts are eligible, and that the list of texts in `Rtk` leaves none of them out. */
module RtkShapes {
  import opened Basics
  import opened Rtk

  // ---------------------------------------------------------------- one text

  /** A text changes exactly if it has between 500 characters and ten mebibytes and the filter that is detected for
      it returns a shorter text that is not empty; and then it becomes that text. */
  lemma TextBecomes(detect: Detect, text: string, out: string)
    requires out != text
    ensures Compressor(detect)(text) == out <==>
              && 500 <= |text| <= 10 * 1024 * 1024
              && detect(text).Some?
              && detect(text).value.apply(text) == Out(out)
              && 0 < |out| < |text|
  {
  }

  ghost predicate Changes(detect: Detect, e: Eligible) { Compressor(detect)(e.text) != e.text }

  /** One hit for each text that changed, in order: with its shape, the name of the filter, and what it saved. */
  ghost function HitsOf(detect: Detect, es: seq<Eligible>): seq<Hit> {
    if es == [] then []
    else
      var e, before := es[|es| - 1], HitsOf(detect, es[..|es| - 1]);
      if Changes(detect, e) && detect(e.text).Some?
      then before + [Hit(e.shape, detect(e.text).value.name, |e.text| - |Compressor(detect)(e.text)|)]
      else before
  }

  lemma {:induction false} HitsListed(detect: Detect, es: seq<Eligible>)
    ensures CountedAll(detect, NO_STATS, es).hits == HitsOf(detect, es)
  {
    if es != [] { HitsListed(detect, es[..|es| - 1]); }
  }

  // ---------------------------------------------------------------- place by place

  ghost predicate Pairwise<T(!new)>(after: (T, T) -> bool, s: seq<T>, s': seq<T>) {
    |s'| == |s| && forall i :: 0 <= i < |s| ==> after(s[i], s'[i])
  }

  /** The text of a part is rewritten if the part is of the wanted kind, or if any kind will do. */
  ghost predicate PartAfter(f: Edit, kind: string, p: Part, p': Part) {
    match p
    case Part(k, Some(text), rest) => p' == Part(k, Some(if kind == "" || k == kind then f(text) else text), rest)
    case _ => p' == p
  }

  ghost predicate InnerAfter(f: Edit, kind: string, i: Inner, i': Inner) {
    match i
    case InnerText(text) => i' == InnerText(f(text))
    case InnerParts(ps) => i'.InnerParts? && Pairwise((p, p') => PartAfter(f, kind, p, p'), ps, i'.parts)
    case InnerOther(_) => i' == i
  }

  /** In a tool message the text blocks are rewritten; in any other the tool results that report no error. */
  ghost predicate BlockAfter(f: Edit, tool: bool, b: Block, b': Block) {
    match b
    case NullBlock => b' == b
    case Block(kind, text, isError, content, rest) =>
      && b'.Block? && b'.kind == kind && b'.isError == isError && b'.rest == rest
      && b'.text == (if tool && kind == "text" && text.Some? then Some(f(text.value)) else text)
      && (if !tool && kind == "tool_result" && !isError then InnerAfter(f, "text", content, b'.content)
          else b'.content == content)
  }

  /** Of a function call's output only the output is rewritten; of any other message only the content, and a
      content that is one text only in a tool message. */
  ghost predicate MessageAfter(f: Edit, m: Message, m': Message) {
    match m
    case NullMessage => m' == m
    case Message(kind, role, output, content, rest) =>
      && m'.Message? && m'.kind == kind && m'.role == role && m'.rest == rest
      && (if kind == "function_call_output"
          then InnerAfter(f, "input_text", output, m'.output) && m'.content == content
          else m'.output == output && ContentAfter(f, role == "tool", content, m'.content))
  }

  ghost predicate ContentAfter(f: Edit, tool: bool, c: Content, c': Content) {
    match c
    case ContentText(text) => c' == ContentText(if tool then f(text) else text)
    case Blocks(bs) => c'.Blocks? && Pairwise((b, b') => BlockAfter(f, tool, b, b'), bs, c'.blocks)
    case ContentOther(_) => c' == c
  }

  /** Kiro's tool results that report no error: the text of every part is rewritten. */
  ghost predicate ResultAfter(f: Edit, r: ToolResult, r': ToolResult) {
    match r
    case ToolResult(status, Some(ps), rest) =>
      && r'.ToolResult? && r'.status == status && r'.rest == rest && r'.content.Some?
      && (if status == "error" then r' == r else Pairwise((p, p') => PartAfter(f, "", p, p'), ps, r'.content.value))
    case _ => r' == r
  }

  /** All results up to the first null one are rewritten; those behind it stay. */
  ghost predicate KiroAfter(f: Edit, m: KiroMessage, m': KiroMessage) {
    && m'.rest == m.rest
    && (m.results.None? ==> m'.results.None?)
    && (m.results.Some? ==>
          && m'.results.Some? && |m'.results.value| == |m.results.value|
          && forall i :: 0 <= i < |m.results.value| ==>
               if NullResult in m.results.value[..i] then m'.results.value[i] == m.results.value[i]
               else ResultAfter(f, m.results.value[i], m'.results.value[i]))
  }

  ghost predicate BrokenBefore(ms: seq<KiroMessage>, i: nat)
    requires i <= |ms|
  {
    exists j :: 0 <= j < i && Breaks(ms[j])
  }

  /** The first list that is there is rewritten: a Kiro conversation up to the first message with a null tool
      result, or else all messages, or else all input items. */
  ghost predicate BodyAfter(f: Edit, b: Body, b': Body) {
    && b'.rest == b.rest
    && (if b.kiro.Some? then
          && b'.messages == b.messages && b'.input == b.input
          && b'.kiro.Some? && |b'.kiro.value| == |b.kiro.value|
          && forall i :: 0 <= i < |b.kiro.value| ==>
               if BrokenBefore(b.kiro.value, i) then b'.kiro.value[i] == b.kiro.value[i]
               else KiroAfter(f, b.kiro.value[i], b'.kiro.value[i])
        else if b.messages.Some? then
          && b'.kiro == b.kiro && b'.input == b.input
          && b'.messages.Some? && Pairwise((m, m') => MessageAfter(f, m, m'), b.messages.value, b'.messages.value)
        else if b.input.Some? then
          && b'.kiro == b.kiro && b'.messages == b.messages
          && b'.input.Some? && Pairwise((m, m') => MessageAfter(f, m, m'), b.input.value, b'.input.value)
        else b' == b)
  }

  lemma InnerBecomes(f: Edit, kind: string, i: Inner)
    ensures InnerAfter(f, kind, i, MapInner(f, kind, i))
  {
  }

  lemma BlockBecomes(f: Edit, b: Block)
    ensures BlockAfter(f, true, b, MapToolBlock(f)(b)) && BlockAfter(f, false, b, MapResultBlock(f)(b))
  {
    if b.Block? { InnerBecomes(f, "text", b.content); }
    hide InnerAfter, MapInner;
  }

  lemma ContentBecomes(f: Edit, tool: bool, c: Content)
    requires c.Blocks?
    ensures ContentAfter(f, tool, c, Blocks(MapSeq(if tool then MapToolBlock(f) else MapResultBlock(f), c.blocks)))
  {
    forall b | b in c.blocks
      ensures BlockAfter(f, true, b, MapToolBlock(f)(b)) && BlockAfter(f, false, b, MapResultBlock(f)(b))
    {
      BlockBecomes(f, b);
    }
    hide BlockAfter, MapToolBlock, MapResultBlock;
  }

  lemma MessageBecomes(f: Edit, m: Message)
    ensures MessageAfter(f, m, MapMessage(f)(m))
  {
    if m.Message? {
      InnerBecomes(f, "input_text", m.output);
      if m.content.Blocks? { ContentBecomes(f, m.role == "tool", m.content); }
    }
    hide InnerAfter, MapInner, MapToolBlock, MapResultBlock;
  }

  lemma ResultBecomes(f: Edit, r: ToolResult)
    ensures ResultAfter(f, r, MapResult(f)(r))
  {
  }

  lemma ReadMeans(rs: seq<ToolResult>, i: nat)
    requires i < |rs|
    ensures NullResult in rs[..i] <==> ReadResults(rs) < i
  {
    var n := ReadResults(rs);
    if n < i { assert rs[..i][n] == NullResult; }
  }

  /** The i-th result of a list whose first `n` are rewritten. */
  lemma RewrittenAt(f: Edit, rs: seq<ToolResult>, n: nat, i: nat)
    requires i < |rs| && n <= |rs|
    ensures var rs' := MapSeq(MapResult(f), rs[..n]) + rs[n..];
            |rs'| == |rs| && rs'[i] == if i < n then MapResult(f)(rs[i]) else rs[i]
  {
    hide MapResult;
  }

  lemma ResultsBecome(f: Edit, rs: seq<ToolResult>, i: nat)
    requires i < |rs|
    ensures var rs' := MapSeq(MapResult(f), rs[..ReadResults(rs)]) + rs[ReadResults(rs)..];
            |rs'| == |rs| && if NullResult in rs[..i] then rs'[i] == rs[i] else ResultAfter(f, rs[i], rs'[i])
  {
    ReadMeans(rs, i);
    RewrittenAt(f, rs, ReadResults(rs), i);
    ResultBecomes(f, rs[i]);
    hide MapResult, MapSeq;
  }

  lemma KiroBecomes(f: Edit, m: KiroMessage)
    ensures KiroAfter(f, m, MapKiro(f)(m))
  {
    if m.results.Some? {
      var rs := m.results.value;
      var rs' := MapSeq(MapResult(f), rs[..ReadResults(rs)]) + rs[ReadResults(rs)..];
      assert MapKiro(f)(m) == m.(results := Some(rs'));
      hide MapKiro, ReadResults, MapSeq, MapResult, ResultAfter;
      forall i: nat | i < |rs|
        ensures |rs'| == |rs| && if NullResult in rs[..i] then rs'[i] == rs[i] else ResultAfter(f, rs[i], rs'[i])
      {
        ResultsBecome(f, rs, i);
      }
      assert |rs'| == |rs| by { SameLength(f, rs); }
    }
  }

  lemma SameLength(f: Edit, rs: seq<ToolResult>)
    ensures |MapSeq(MapResult(f), rs[..ReadResults(rs)]) + rs[ReadResults(rs)..]| == |rs|
  {
  }

  lemma {:induction false} VisitedMeans(ms: seq<KiroMessage>, i: nat)
    requires i < |ms|
    ensures BrokenBefore(ms, i) <==> Visited(ms) <= i
  {
    hide Breaks;
    if |ms| > 1 {
      VisitedMeans(ms[..|ms| - 1], Min(i, |ms| - 2));
    }
  }

  /** Compression turns a body into one that is changed in just these places. */
  lemma BodyBecomes(detect: Detect, b: Body)
    ensures BodyAfter(Compressor(detect), b, Compress(detect, true, b).0)
  {
    var f := Compressor(detect);
    hide Compressor, MapMessage, MapKiro, MessageAfter, KiroAfter, CountedAll, BodyTexts, Visited, BrokenBefore;
    forall m ensures MessageAfter(f, m, MapMessage(f)(m)) { MessageBecomes(f, m); }
    forall m ensures KiroAfter(f, m, MapKiro(f)(m)) { KiroBecomes(f, m); }
    if b.kiro.Some? {
      forall i: nat | i < |b.kiro.value|
        ensures BrokenBefore(b.kiro.value, i) <==> Visited(b.kiro.value) <= i
      {
        VisitedMeans(b.kiro.value, i);
      }
    }
  }

  // ---------------------------------------------------------------- no text is left out

  /** What two entities have in common that differ in their eligible texts alone. */
  ghost predicate Recovers<T(!new)>(erase: T -> T, texts: T -> seq<Eligible>, x: T, y: T) {
    erase(x) == erase(y) ==> |texts(x)| == |texts(y)| && (texts(x) == texts(y) ==> x == y)
  }

  lemma {:induction false} RecoversAll<T(!new)>(erase: T -> T, texts: T -> seq<Eligible>, s: seq<T>, s': seq<T>)
    requires forall x, y :: x in s && y in s' ==> Recovers(erase, texts, x, y)
    requires MapSeq(erase, s) == MapSeq(erase, s')
    ensures |TextsOf(texts, s)| == |TextsOf(texts, s')|
    ensures TextsOf(texts, s) == TextsOf(texts, s') ==> s == s'
  {
    assert |s| == |MapSeq(erase, s)| == |s'|;
    if s != [] {
      var n := |s| - 1;
      assert MapSeq(erase, s)[n] == MapSeq(erase, s')[n] && s[n] in s && s'[n] in s';
      assert MapSeq(erase, s[..n]) == MapSeq(erase, s)[..n] && MapSeq(erase, s'[..n]) == MapSeq(erase, s')[..n];
      RecoversAll(erase, texts, s[..n], s'[..n]);
      assert Recovers(erase, texts, s[n], s'[n]);
      SplitEqual(TextsOf(texts, s[..n]), texts(s[n]), TextsOf(texts, s'[..n]), texts(s'[n]));
      assert s == s[..n] + [s[n]] && s' == s'[..n] + [s'[n]];
    }
  }

  lemma SplitEqual<T>(a: seq<T>, b: seq<T>, c: seq<T>, d: seq<T>)
    requires |a| == |c|
    ensures a + b == c + d ==> a == c && b == d
  {
    assert a + b == c + d ==> a == (a + b)[..|a|] && c == (c + d)[..|a|] && b == (a + b)[|a|..] && d == (c + d)[|a|..];
  }

  lemma PartRecovers(kind: string, shape: string, p: Part, q: Part)
    ensures Recovers(MapPart(Blank(), kind), PartTexts(kind, shape), p, q)
  {
  }

  lemma PartsRecover(kind: string, shape: string, ps: seq<Part>, qs: seq<Part>)
    requires MapSeq(MapPart(Blank(), kind), ps) == MapSeq(MapPart(Blank(), kind), qs)
    ensures |TextsOf(PartTexts(kind, shape), ps)| == |TextsOf(PartTexts(kind, shape), qs)|
    ensures TextsOf(PartTexts(kind, shape), ps) == TextsOf(PartTexts(kind, shape), qs) ==> ps == qs
  {
    forall p, q | p in ps && q in qs ensures Recovers(MapPart(Blank(), kind), PartTexts(kind, shape), p, q) {
      PartRecovers(kind, shape, p, q);
    }
    RecoversAll(MapPart(Blank(), kind), PartTexts(kind, shape), ps, qs);
  }

  lemma InnerRecovers(kind: string, ofText: string, ofParts: string, i: Inner, j: Inner)
    requires MapInner(Blank(), kind, i) == MapInner(Blank(), kind, j)
    ensures |InnerTexts(kind, ofText, ofParts, i)| == |InnerTexts(kind, ofText, ofParts, j)|
    ensures InnerTexts(kind, ofText, ofParts, i) == InnerTexts(kind, ofText, ofParts, j) ==> i == j
  {
    if i.InnerParts? { PartsRecover(kind, ofParts, i.parts, j.parts); }
    hide TextsOf, MapSeq;
  }

  lemma BlockRecovers(b: Block, c: Block)
    ensures Recovers(MapToolBlock(Blank()), ToolBlockTexts(), b, c)
    ensures Recovers(MapResultBlock(Blank()), ResultBlockTexts(), b, c)
  {
    if MapResultBlock(Blank())(b) == MapResultBlock(Blank())(c) && b.Block? && b.kind == "tool_result" && !b.isError {
      InnerRecovers("text", "claude-string", "claude-array", b.content, c.content);
    }
    hide MapInner, InnerTexts;
  }

  lemma BlocksRecover(tool: bool, bs: seq<Block>, cs: seq<Block>)
    ensures var erase, texts := if tool then MapToolBlock(Blank()) else MapResultBlock(Blank()),
                                if tool then ToolBlockTexts() else ResultBlockTexts();
            MapSeq(erase, bs) == MapSeq(erase, cs) ==>
              && |TextsOf(texts, bs)| == |TextsOf(texts, cs)|
              && (TextsOf(texts, bs) == TextsOf(texts, cs) ==> bs == cs)
  {
    var erase, texts := if tool then MapToolBlock(Blank()) else MapResultBlock(Blank()),
                        if tool then ToolBlockTexts() else ResultBlockTexts();
    if MapSeq(erase, bs) == MapSeq(erase, cs) {
      forall b, c | b in bs && c in cs ensures Recovers(erase, texts, b, c) { BlockRecovers(b, c); }
      hide MapSeq, TextsOf;
      RecoversAll(erase, texts, bs, cs);
    }
  }

  lemma MessageRecovers(m: Message, n: Message)
    ensures Recovers(MapMessage(Blank()), MessageTexts(), m, n)
  {
    if m.Message? && n.Message? && MapMessage(Blank())(m) == MapMessage(Blank())(n) {
      if m.kind == "function_call_output" {
        InnerRecovers("input_text", "openai-responses-string", "openai-responses-array", m.output, n.output);
      } else if m.content.Blocks? {
        BlocksRecover(m.role == "tool", m.content.blocks, n.content.blocks);
      }
    }
    hide MapInner, InnerTexts, MapSeq, TextsOf;
  }

  lemma ResultRecovers(r: ToolResult, t: ToolResult)
    ensures Recovers(MapResult(Blank()), ResultTexts(), r, t)
  {
    if r.ToolResult? && r.status != "error" && r.content.Some? && MapResult(Blank())(r) == MapResult(Blank())(t) {
      PartsRecover("", "kiro-tool-result", r.content.value, t.content.value);
    }
    hide MapSeq, TextsOf;
  }

  lemma ResultsRecover(rs: seq<ToolResult>, ts: seq<ToolResult>)
    requires MapSeq(MapResult(Blank()), rs) == MapSeq(MapResult(Blank()), ts)
    ensures |TextsOf(ResultTexts(), rs)| == |TextsOf(ResultTexts(), ts)|
    ensures TextsOf(ResultTexts(), rs) == TextsOf(ResultTexts(), ts) ==> rs == ts
  {
    forall r, t | r in rs && t in ts ensures Recovers(MapResult(Blank()), ResultTexts(), r, t) { ResultRecovers(r, t); }
    RecoversAll(MapResult(Blank()), ResultTexts(), rs, ts);
  }

  lemma KiroRecovers(m: KiroMessage, n: KiroMessage)
    ensures Recovers(MapKiro(Blank()), KiroTexts(), m, n)
    ensures MapKiro(Blank())(m) == MapKiro(Blank())(n) ==> (Breaks(m) <==> Breaks(n))
  {
    hide MapSeq, TextsOf, ReadResults, Breaks;
    KiroFits(Blank(), m);
    KiroFits(Blank(), n);
    if m.results.Some? && n.results.Some? && MapKiro(Blank())(m) == MapKiro(Blank())(n) {
      KiroShape(Blank(), m);
      KiroShape(Blank(), n);
      var rs, ts := m.results.value, n.results.value;
      var k := ReadResults(rs);
      ResultsRecover(rs[..k], ts[..k]);
      assert rs == rs[..k] + rs[k..] && ts == ts[..k] + ts[k..];
    }
  }

  lemma KirosRecover(ms: seq<KiroMessage>, ns: seq<KiroMessage>)
    requires MapSeq(MapKiro(Blank()), ms) == MapSeq(MapKiro(Blank()), ns)
    ensures |TextsOf(KiroTexts(), ms)| == |TextsOf(KiroTexts(), ns)|
    ensures TextsOf(KiroTexts(), ms) == TextsOf(KiroTexts(), ns) ==> ms == ns
  {
    forall m, n | m in ms && n in ns ensures Recovers(MapKiro(Blank()), KiroTexts(), m, n) { KiroRecovers(m, n); }
    hide MapKiro, KiroTexts;
    RecoversAll(MapKiro(Blank()), KiroTexts(), ms, ns);
  }

  lemma MessagesRecover(ms: seq<Message>, ns: seq<Message>)
    requires MapSeq(MapMessage(Blank()), ms) == MapSeq(MapMessage(Blank()), ns)
    ensures |TextsOf(MessageTexts(), ms)| == |TextsOf(MessageTexts(), ns)|
    ensures TextsOf(MessageTexts(), ms) == TextsOf(MessageTexts(), ns) ==> ms == ns
  {
    forall m, n | m in ms && n in ns ensures Recovers(MapMessage(Blank()), MessageTexts(), m, n) {
      MessageRecovers(m, n);
    }
    hide MapMessage, MessageTexts;
    RecoversAll(MapMessage(Blank()), MessageTexts(), ms, ns);
  }

  lemma SkeletonVisited(ms: seq<KiroMessage>)
    ensures var erased := MapSeq(MapKiro(Blank()), ms[..Visited(ms)]);
            |erased| == Visited(ms) && Visited(erased + ms[Visited(ms)..]) == Visited(ms)
  {
    KiroBodyFits(Blank(), ms);
    hide MapKiro, KiroTexts, TextsOf, Breaks, Lift, Visited;
  }

  lemma KiroBodyRecovers(ms: seq<KiroMessage>, ns: seq<KiroMessage>)
    requires MapSeq(MapKiro(Blank()), ms[..Visited(ms)]) + ms[Visited(ms)..] ==
             MapSeq(MapKiro(Blank()), ns[..Visited(ns)]) + ns[Visited(ns)..]
    requires TextsOf(KiroTexts(), ms[..Visited(ms)]) == TextsOf(KiroTexts(), ns[..Visited(ns)])
    ensures ms == ns
  {
    hide MapKiro, KiroTexts, TextsOf, MapSeq, Visited;
    SkeletonVisited(ms);
    SkeletonVisited(ns);
    var k := Visited(ms);
    SplitEqual(MapSeq(MapKiro(Blank()), ms[..k]), ms[k..], MapSeq(MapKiro(Blank()), ns[..k]), ns[k..]);
    KirosRecover(ms[..k], ns[..k]);
    assert ms == ms[..k] + ms[k..] && ns == ns[..k] + ns[k..];
  }

  /** What compression leaves alone and the list of eligible texts make up the whole body: two bodies that agree in
      both are the same. So the list leaves out no text that compression changes. */
  lemma NothingElse(a: Body, b: Body)
    requires Skeleton(a) == Skeleton(b) && BodyTexts(a) == BodyTexts(b)
    ensures a == b
  {
    hide MapKiro, MapMessage, MessageTexts, KiroTexts, Visited, MapSeq, TextsOf;
    if a.kiro.Some? {
      KiroBodyRecovers(a.kiro.value, b.kiro.value);
    } else if Items(a).Some? {
      MessagesRecover(Items(a).value, Items(b).value);
    }
  }
}
