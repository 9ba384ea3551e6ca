/** Tool uses that come without an id (open-sse/executors/kiro.js). The program makes them one from the
    clock when it handles them, so that what a client sees may depend on when that is. */
module KiroClock {
  import opened Basics
  import opened KiroEvents

  // ---------------------------------------------------------------- ids from the clock

  /** The readings of the clock that one stream takes, in milliseconds: one for each tool use without an
      id, in the order in which they are handled. */
  type Clock = nat -> nat

  /** The clock does not run backwards. */
  ghost predicate Forward(clock: Clock) { forall i: nat, j: nat :: i <= j ==> clock(i) <= clock(j) }

  function Digit(n: nat): char
    requires n < 10
  {
    "0123456789"[n]
  }

  function Decimal(n: nat): string { if n < 10 then [Digit(n)] else Decimal(n / 10) + [Digit(n % 10)] }

  function ClockId(t: nat): string { "call_" + Decimal(t) }

  ghost predicate IsClockId(id: string) { exists t: nat :: id == ClockId(t) }

  /** Whether a tool use comes without an id, and how many do. */
  predicate Lacks(i: Item) { i.Tool? && i.id == "" }

  function Lacking(items: seq<Item>): nat {
    if items == [] then 0 else Lacking(items[..|items| - 1]) + (if Lacks(items[|items| - 1]) then 1 else 0)
  }

  function LackingIn(e: Event): nat { if e.ToolUses? then Lacking(e.items) else 0 }

  function Readings(es: seq<Event>): nat {
    if es == [] then 0 else Readings(es[..|es| - 1]) + LackingIn(es[|es| - 1])
  }

  /** With the ids in place, when `k` readings have been taken before. */
  function Dated(clock: Clock, k: nat, i: Item): Item { if Lacks(i) then i.(id := ClockId(clock(k))) else i }

  function DatedItems(clock: Clock, k: nat, items: seq<Item>): (r: seq<Item>)
    ensures |r| == |items|
  {
    if items == [] then []
    else
      var init := items[..|items| - 1];
      DatedItems(clock, k, init) + [Dated(clock, k + Lacking(init), items[|items| - 1])]
  }

  function DatedEvent(clock: Clock, k: nat, e: Event): Event {
    if e.ToolUses? then ToolUses(DatedItems(clock, k, e.items)) else e
  }

  function DatedAll(clock: Clock, k: nat, es: seq<Event>): (r: seq<Event>)
    ensures |r| == |es|
  {
    if es == [] then []
    else
      var init := es[..|es| - 1];
      DatedAll(clock, k, init) + [DatedEvent(clock, k + Readings(init), es[|es| - 1])]
  }

  lemma {:induction false} DecimalInjective(a: nat, b: nat)
    requires Decimal(a) == Decimal(b)
    ensures a == b
  {
    var s := Decimal(a);
    if a >= 10 && b >= 10 {
      assert Decimal(a / 10) == s[..|s| - 1] == Decimal(b / 10);
      DecimalInjective(a / 10, b / 10);
      assert s[|s| - 1] == Digit(a % 10) == Digit(b % 10);
    } else {
      DecimalLength(a);
      DecimalLength(b);
      assert a < 10 && b < 10;
      assert s[0] == Digit(a) == Digit(b);
    }
  }

  lemma DecimalLength(n: nat)
    ensures |Decimal(n)| >= 1 && (|Decimal(n)| == 1 <==> n < 10)
  {
  }

  lemma ClockIdInjective(a: nat, b: nat)
    requires ClockId(a) == ClockId(b)
    ensures a == b
  {
    assert ClockId(a)[5..] == Decimal(a) && ClockId(b)[5..] == Decimal(b);
    DecimalInjective(a, b);
  }

  // ---------------------------------------------------------------- one after the other

  lemma {:induction false} LackingConcat(a: seq<Item>, b: seq<Item>)
    ensures Lacking(a + b) == Lacking(a) + Lacking(b)
  {
    if b == [] {
      assert a + b == a;
    } else {
      var init := b[..|b| - 1];
      assert (a + b)[..|a + b| - 1] == a + init;
      LackingConcat(a, init);
    }
  }

  lemma DatedSnoc(clock: Clock, k: nat, items: seq<Item>, i: Item)
    ensures DatedItems(clock, k, items + [i]) == DatedItems(clock, k, items) + [Dated(clock, k + Lacking(items), i)]
    ensures Lacking(items + [i]) == Lacking(items) + (if Lacks(i) then 1 else 0)
  {
    assert (items + [i])[..|items|] == items;
  }

  lemma {:induction false} DatedConcat(clock: Clock, k: nat, a: seq<Item>, b: seq<Item>)
    ensures DatedItems(clock, k, a + b) == DatedItems(clock, k, a) + DatedItems(clock, k + Lacking(a), b)
  {
    if b == [] {
      assert a + b == a;
    } else {
      hide Dated, Lacking;
      var init, i := b[..|b| - 1], b[|b| - 1];
      assert (a + b)[..|a + b| - 1] == a + init;
      DatedConcat(clock, k, a, init);
      LackingConcat(a, init);
      Assoc(DatedItems(clock, k, a), DatedItems(clock, k + Lacking(a), init),
            [Dated(clock, k + Lacking(a) + Lacking(init), i)]);
    }
  }

  lemma {:induction false} DatedAt(clock: Clock, k: nat, items: seq<Item>, j: nat)
    requires j < |items|
    ensures DatedItems(clock, k, items)[j] == Dated(clock, k + Lacking(items[..j]), items[j])
  {
    var init := items[..|items| - 1];
    if j < |init| {
      assert init[..j] == items[..j];
      DatedAt(clock, k, init, j);
    }
  }

  lemma {:induction false} ReadingsConcat(a: seq<Event>, b: seq<Event>)
    ensures Readings(a + b) == Readings(a) + Readings(b)
  {
    if b == [] {
      assert a + b == a;
    } else {
      var init := b[..|b| - 1];
      assert (a + b)[..|a + b| - 1] == a + init;
      ReadingsConcat(a, init);
    }
  }

  lemma DatedAllSnoc(clock: Clock, k: nat, es: seq<Event>, e: Event)
    ensures DatedAll(clock, k, es + [e]) == DatedAll(clock, k, es) + [DatedEvent(clock, k + Readings(es), e)]
    ensures Readings(es + [e]) == Readings(es) + LackingIn(e)
  {
    assert (es + [e])[..|es|] == es;
  }

  lemma {:induction false} DatedAllConcat(clock: Clock, k: nat, a: seq<Event>, b: seq<Event>)
    ensures DatedAll(clock, k, a + b) == DatedAll(clock, k, a) + DatedAll(clock, k + Readings(a), b)
  {
    if b == [] {
      assert a + b == a;
    } else {
      hide DatedEvent, Readings;
      var init, e := b[..|b| - 1], b[|b| - 1];
      assert (a + b)[..|a + b| - 1] == a + init;
      DatedAllConcat(clock, k, a, init);
      ReadingsConcat(a, init);
      Assoc(DatedAll(clock, k, a), DatedAll(clock, k + Readings(a), init),
            [DatedEvent(clock, k + Readings(a) + Readings(init), e)]);
    }
  }

  /** The tool uses of the dated events are the dated tool uses. */
  lemma {:induction false} ItemsDated(clock: Clock, es: seq<Event>)
    ensures Items(DatedAll(clock, 0, es)) == DatedItems(clock, 0, Items(es))
    ensures Lacking(Items(es)) == Readings(es)
  {
    if es != [] {
      var init, e := es[..|es| - 1], es[|es| - 1];
      ItemsDated(clock, init);
      hide DatedItems, Lacking, DatedAll, Items;
      ItemsStep(clock, init, e);
      assert es == init + [e];
    }
  }

  lemma ItemsStep(clock: Clock, es: seq<Event>, e: Event)
    requires Items(DatedAll(clock, 0, es)) == DatedItems(clock, 0, Items(es)) && Lacking(Items(es)) == Readings(es)
    ensures Items(DatedAll(clock, 0, es + [e])) == DatedItems(clock, 0, Items(es + [e]))
    ensures Lacking(Items(es + [e])) == Readings(es + [e])
  {
    hide DatedItems, Lacking, DatedAll, DatedEvent, Items, Readings;
    DatedAllSnoc(clock, 0, es, e);
    ItemsSnoc(es, e);
    DatedEventIs(clock, Readings(es), e);
    ItemsSnoc(DatedAll(clock, 0, es), DatedEvent(clock, Readings(es), e));
    if e.ToolUses? {
      DatedConcat(clock, 0, Items(es), e.items);
      LackingConcat(Items(es), e.items);
    }
  }

  lemma DatedEventIs(clock: Clock, k: nat, e: Event)
    ensures !e.ToolUses? ==> DatedEvent(clock, k, e) == e
    ensures e.ToolUses? ==> DatedEvent(clock, k, e) == ToolUses(DatedItems(clock, k, e.items))
  {
  }

  lemma ItemsSnoc(es: seq<Event>, e: Event)
    ensures Items(es + [e]) == if e.ToolUses? then Items(es) + e.items else Items(es)
  {
    assert (es + [e])[..|es|] == es;
    assert Items(es) + [] == Items(es);
  }

  /** Where every tool use brings its own id the clock is not read. */
  lemma {:induction false} NothingLacks(items: seq<Item>)
    ensures Lacking(items) == 0 <==> forall i :: i in items ==> !Lacks(i)
  {
    if items != [] {
      var init := items[..|items| - 1];
      assert items == init + [items[|items| - 1]];
      NothingLacks(init);
    }
  }

  lemma {:induction false} DatedOwn(clock: Clock, k: nat, items: seq<Item>)
    requires Lacking(items) == 0
    ensures DatedItems(clock, k, items) == items
  {
    if items != [] {
      DatedOwn(clock, k, items[..|items| - 1]);
      assert items == items[..|items| - 1] + [items[|items| - 1]];
    }
  }

  lemma {:induction false} DatedAllOwn(clock: Clock, k: nat, es: seq<Event>)
    requires Readings(es) == 0
    ensures DatedAll(clock, k, es) == es
  {
    if es != [] {
      var init, e := es[..|es| - 1], es[|es| - 1];
      assert es == init + [e];
      DatedAllOwn(clock, k, init);
      if e.ToolUses? { DatedOwn(clock, k, e.items); }
    }
  }

  lemma DatedPrefix(clock: Clock, k: nat, items: seq<Item>, n: nat)
    requires n <= |items|
    ensures DatedItems(clock, k, items)[..n] == DatedItems(clock, k, items[..n])
  {
    assert items == items[..n] + items[n..];
    DatedConcat(clock, k, items[..n], items[n..]);
  }

  lemma DatedAllPrefix(clock: Clock, k: nat, es: seq<Event>, n: nat)
    requires n <= |es|
    ensures n <= |DatedAll(clock, k, es)| && DatedAll(clock, k, es)[..n] == DatedAll(clock, k, es[..n])
  {
    assert es == es[..n] + es[n..];
    DatedAllConcat(clock, k, es[..n], es[n..]);
  }
}
