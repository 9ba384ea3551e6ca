/** When the chunks of a Kiro stream arrive (open-sse/executors/kiro.js). A tool use that brings no id gets one
    from the time at which its frame is handled: when the chunk that completes the frame has arrived. */
module KiroArrival {
  import opened Basics
  import opened Bytes
  import opened KiroFraming
  import opened KiroEvents
  import opened KiroClock
  import opened KiroClockShows
  import opened KiroStream

  /** How often the clock has been read when the first `n` chunks have been handled. */
  function ReadingsBy(interpret: Interpret, chunks: seq<seq<byte>>, n: nat): nat
    requires n <= |chunks|
  {
    Readings(Events(interpret, ReceiveAll(chunks[..n]).frames))
  }

  /** All readings of a call give the time at which its chunk arrived. */
  ghost predicate Timed(interpret: Interpret, chunks: seq<seq<byte>>, times: seq<nat>, clock: Clock)
    requires |times| == |chunks|
  {
    forall n, k: nat :: 0 <= n < |chunks| ==>
      ReadingsBy(interpret, chunks, n) <= k < ReadingsBy(interpret, chunks, n + 1) ==> clock(k) == times[n]
  }

  // ---------------------------------------------------------------- two frames, in one chunk or in two

  ghost predicate IsFrame(f: seq<byte>) { Head(f) == Some(|f|) }

  lemma TakeFrame(f: seq<byte>, more: seq<byte>, k: nat)
    requires IsFrame(f)
    ensures Take(f + more, k + 1) == ([f] + Take(more, k).0, Take(more, k).1)
    ensures Greedy(f + more) == [f] + Greedy(more)
  {
    HeadStays(f, more);
    hide Head;
    assert f[..|f|] == f && f[|f|..] + more == more;
  }

  lemma NoBytes(k: nat)
    ensures Take([], k) == ([], []) && Greedy([]) == []
  {
  }

  lemma OneFrame(f: seq<byte>, k: nat)
    requires IsFrame(f)
    ensures Take(f, k + 1) == ([f], []) && Greedy(f) == [f]
  {
    hide Head, Take, Greedy;
    TakeFrame(f, [], k);
    NoBytes(k);
    assert f + [] == f && [f] + [] == [f];
  }

  lemma TwoFrames(f: seq<byte>, g: seq<byte>, k: nat)
    requires IsFrame(f) && IsFrame(g)
    ensures Take(f + g, k + 2) == ([f, g], []) && Greedy(f + g) == [f, g]
  {
    hide Head, Take, Greedy;
    TakeFrame(f, g, k + 1);
    OneFrame(g, k);
    assert [f] + [g] == [f, g];
  }

  lemma ReceiveOne(chunk: seq<byte>)
    ensures ReceiveAll([chunk][..0]) == Stream([], []) && [chunk][..1] == [chunk]
    ensures ReceiveAll([chunk]) == Stream(Take(chunk, MAX_ITERATIONS).0, Take(chunk, MAX_ITERATIONS).1)
  {
    hide Take;
    assert [] + chunk == chunk;
    var none: seq<seq<byte>> := [];
    assert [chunk][..0] == none && none + Take(chunk, MAX_ITERATIONS).0 == Take(chunk, MAX_ITERATIONS).0;
  }

  lemma ReceiveTwo(f: seq<byte>, g: seq<byte>)
    requires IsFrame(f) && IsFrame(g)
    ensures ReceiveAll([f]).frames == [f] && ReceiveAll([f]).buffer == []
    ensures ReceiveAll([f, g]).frames == [f, g] && [f, g][..1] == [f] && [f, g][..2] == [f, g]
    ensures ReceiveAll([f, g][..0]) == Stream([], [])
  {
    hide Take, Head;
    ReceiveOne(f);
    OneFrame(f, MAX_ITERATIONS - 1);
    OneFrame(g, MAX_ITERATIONS - 1);
    assert [f, g][..1] == [f] && [] + g == g && [f] + [g] == [f, g];
  }

  /** A frame with one tool use that brings no id. */
  predicate Asks(interpret: Interpret, f: seq<byte>, name: string, args: string) {
    interpret(f) == ToolUses([Tool("", name, Input.Text(args))])
  }

  lemma EventsTwo(interpret: Interpret, f: seq<byte>, g: seq<byte>, x: string, y: string, a: string, b: string)
    requires Asks(interpret, f, x, a) && Asks(interpret, g, y, b)
    ensures Readings(Events(interpret, [])) == 0 && Readings(Events(interpret, [f])) == 1
    ensures Readings(Events(interpret, [f, g])) == 2
    ensures Items(Events(interpret, [f, g])) == [Tool("", x, Input.Text(a)), Tool("", y, Input.Text(b))]
  {
    var e, h := interpret(f), interpret(g);
    assert Events(interpret, []) == [] && Events(interpret, [f]) == [] + [e] && Events(interpret, [f, g]) == [e] + [h];
    LackingOne(x, a);
    LackingOne(y, b);
    DatedAllSnoc(Still(0), 0, [], e);
    DatedAllSnoc(Still(0), 0, [e], h);
    ItemsSnoc([], e);
    ItemsSnoc([e], h);
  }

  lemma LackingOne(name: string, args: string)
    ensures Lacking([Tool("", name, Input.Text(args))]) == 1
  {
  }

  /** What two tool uses that bring no id make, when the clock is read for them. */
  lemma TwoUses(window: int, es: seq<Event>, clock: Clock, x: string, y: string, a: string, b: string)
    requires Items(es) == [Tool("", x, Input.Text(a)), Tool("", y, Input.Text(b))]
    ensures Arguments(Sent(window, DatedAll(clock, 0, es))) == if clock(0) == clock(1) then [a + b] else [a, b]
  {
    hide ClockId, DatedAll, Sent, Items, Firsts, InputsOf, Arguments;
    var dated := DatedAll(clock, 0, es);
    TwoTools(x, y, a, b);
    DatedNoNull(clock, es);
    TwoDated(clock, x, y, a, b);
    if clock(0) != clock(1) && ClockId(clock(0)) == ClockId(clock(1)) { ClockIdInjective(clock(0), clock(1)); }
    SentArguments(window, dated);
    TwoFirsts(Tool(ClockId(clock(0)), x, Input.Text(a)), Tool(ClockId(clock(1)), y, Input.Text(b)));
    var args := Arguments(Sent(window, dated));
    if clock(0) == clock(1) {
      assert args == [args[0]];
    } else {
      assert args == [args[0], args[1]];
    }
  }

  lemma TwoTools(x: string, y: string, a: string, b: string)
    ensures forall i :: i in [Tool("", x, Input.Text(a)), Tool("", y, Input.Text(b))] ==> i.Tool?
  {
  }

  lemma TwoDated(clock: Clock, x: string, y: string, a: string, b: string)
    ensures DatedItems(clock, 0, [Tool("", x, Input.Text(a)), Tool("", y, Input.Text(b))]) ==
              [Tool(ClockId(clock(0)), x, Input.Text(a)), Tool(ClockId(clock(1)), y, Input.Text(b))]
  {
    hide ClockId;
    var i, j := Tool("", x, Input.Text(a)), Tool("", y, Input.Text(b));
    assert [i] == [] + [i] && [i, j] == [i] + [j];
    DatedSnoc(clock, 0, [], i);
    DatedSnoc(clock, 0, [i], j);
  }

  lemma FlushArguments(s: State)
    ensures Arguments(Flush(s).out) == Arguments(s.out)
  {
    var c := Finish(s.hasToolCalls, None);
    SnocArguments(s.out, Done);
    SnocArguments(s.out, c);
    SnocArguments(s.out + [c], Done);
    hide Arguments;
  }

  lemma SentArguments(window: int, es: seq<Event>)
    requires NoNull(es)
    ensures var args, firsts := Arguments(Sent(window, es)), Firsts(Items(es));
            |args| == |firsts| && forall k :: 0 <= k < |args| ==> args[k] == InputsOf(Items(es), firsts[k].id)
  {
    Unfailing(window, es);
    ToolStream(window, es);
    FlushArguments(Run(window, es));
    hide Run, Arguments, Starts, Firsts, InputsOf, Items, Flush;
  }

  lemma OneFirst(i: Item)
    requires i.Tool?
    ensures Firsts([i]) == [Named(i.id, i.name)]
    ensures forall id :: Has([Named(i.id, i.name)], id) <==> id == i.id
    ensures forall id :: InputsOf([i], id) == if id == i.id then InputText(i) else ""
  {
    assert [] + [i] == [i] && [i][..0] == [] && [Named(i.id, i.name)][..0] == [];
    FirstsSnoc([], i);
    forall id ensures InputsOf([i], id) == if id == i.id then InputText(i) else "" {
      InputsSnoc([], i, id);
      assert "" + InputText(i) == InputText(i);
    }
  }

  lemma TwoFirsts(i: Item, j: Item)
    requires i.Tool? && j.Tool? && i.input.Text? && j.input.Text?
    ensures Firsts([i, j]) == if i.id == j.id then [Named(i.id, i.name)] else [Named(i.id, i.name), Named(j.id, j.name)]
    ensures InputsOf([i, j], i.id) == if i.id == j.id then i.input.text + j.input.text else i.input.text
    ensures i.id != j.id ==> InputsOf([i, j], j.id) == j.input.text
  {
    hide Firsts, InputsOf, Has;
    OneFirst(i);
    FirstsSnoc([i], j);
    InputsSnoc([i], j, i.id);
    InputsSnoc([i], j, j.id);
    assert [i] + [j] == [i, j];
    assert "" + j.input.text == j.input.text && i.input.text + "" == i.input.text;
  }

  /** Two tool uses without an id: in one chunk they are one tool with both arguments, in two chunks that
      arrive at different times they are two tools. */
  lemma TwoCuttings(window: int, interpret: Interpret, f: seq<byte>, g: seq<byte>, x: string, y: string, a: string,
                    b: string, t: nat, u: nat, v: nat, c: Clock, d: Clock)
    requires IsFrame(f) && IsFrame(g) && Asks(interpret, f, x, a) && Asks(interpret, g, y, b) && u != v
    requires Timed(interpret, [f + g], [t], c) && Timed(interpret, [f, g], [u, v], d)
    ensures Arguments(Output(window, interpret, c, [f + g])) == [a + b]
    ensures Arguments(Output(window, interpret, d, [f, g])) == [a, b]
  {
    hide IsFrame, Asks, Take, Greedy, Readings, Events, Sent, DatedAll, Arguments, Items, Output, ReceiveAll;
    var es := Events(interpret, [f, g]);
    EventsTwo(interpret, f, g, x, y, a, b);
    TwoFrames(f, g, MAX_ITERATIONS - 2);
    ReceiveOne(f + g);
    ReceiveTwo(f, g);
    assert ReadingsBy(interpret, [f + g], 0) == 0 && ReadingsBy(interpret, [f + g], 1) == 2;
    assert c(0) == t && c(1) == t;
    assert ReadingsBy(interpret, [f, g], 0) == 0 && ReadingsBy(interpret, [f, g], 1) == 1;
    assert ReadingsBy(interpret, [f, g], 2) == 2;
    assert d(0) == u && d(1) == v;
    BothDelivered(window, interpret, f, g, c);
    BothDelivered(window, interpret, f, g, d);
    TwoUses(window, es, c, x, y, a, b);
    TwoUses(window, es, d, x, y, a, b);
  }

  lemma BothDelivered(window: int, interpret: Interpret, f: seq<byte>, g: seq<byte>, clock: Clock)
    requires IsFrame(f) && IsFrame(g)
    ensures Output(window, interpret, clock, [f + g]) == Sent(window, DatedAll(clock, 0, Events(interpret, [f, g])))
    ensures Output(window, interpret, clock, [f, g]) == Sent(window, DatedAll(clock, 0, Events(interpret, [f, g])))
  {
    var none: seq<seq<byte>> := [];
    hide IsFrame, Take, Greedy, Readings, Events, Sent, DatedAll, Output;
    TwoFrames(f, g, 0);
    OneFrame(g, 0);
    ReceiveTwo(f, g);
    assert ReceiveAll(none) == Stream([], []) && [] + (f + g) == f + g && [] + g == g;
    FlattenOne(f + g);
    FlattenOne(f);
    FlattenOne(g);
    FlattenConcat([f], [g]);
    assert none + [f + g] == [f + g] && [f] + [g] == [f, g];
    hide ReceiveAll, Flatten;
    CutsDoNotShow(window, interpret, clock, none, f + g);
    CutsDoNotShow(window, interpret, clock, [f], g);
  }
}
