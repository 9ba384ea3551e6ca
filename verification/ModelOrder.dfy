/** The reorderings that open-sse/services/combo.js applies to a combo before trying its models:
    by capability, by sticky session, and by cooldown. What matters of each is that no fallback is
    lost. */
module ModelOrder {
  import opened Basics
  import opened Rotation

  const HARD_CAPS := {"vision", "pdf", "audioInput", "videoInput"}

  // ---------------------------------------------------------------- capability order

  /** Tier 0 satisfies everything required, tier 1 the hard requirements, tier 2 the rest. */
  function TierOf(required: set<string>, caps: set<string>): nat {
    if !(required * HARD_CAPS <= caps) then 2
    else if required - HARD_CAPS <= caps then 0
    else 1
  }

  /** A model with its position and tier, as the source decorates it for sorting. */
  datatype Entry = Entry(m: string, i: nat, t: nat)

  /** The comparator a.t - b.t || a.i - b.i is negative. */
  predicate Before(a: Entry, b: Entry) {
    a.t < b.t || (a.t == b.t && a.i < b.i)
  }

  function Decorate(models: seq<string>, tier: string -> nat): (r: seq<Entry>)
    ensures |r| == |models|
    ensures forall j :: 0 <= j < |r| ==> r[j] == Entry(models[j], j, tier(models[j]))
  {
    if models == [] then []
    else
      var n := |models| - 1;
      Decorate(models[..n], tier) + [Entry(models[n], n, tier(models[n]))]
  }

  function Names(es: seq<Entry>): (r: seq<string>)
    ensures |r| == |es|
  {
    if es == [] then [] else Names(es[..|es| - 1]) + [es[|es| - 1].m]
  }

  function Insert(e: Entry, es: seq<Entry>): seq<Entry> {
    if es == [] || Before(e, es[0]) then [e] + es else [es[0]] + Insert(e, es[1..])
  }

  /** Any sort by the comparator gives this; `SortUnique` says so. */
  function Sort(es: seq<Entry>): seq<Entry> {
    if es == [] then [] else Insert(es[0], Sort(es[1..]))
  }

  function TierFor(required: set<string>, capsOf: string -> set<string>): string -> nat {
    m => TierOf(required, capsOf(m))
  }

  lemma TierBound(required: set<string>, capsOf: string -> set<string>)
    ensures forall m :: TierFor(required, capsOf)(m) <= 2
  {
    forall m ensures TierFor(required, capsOf)(m) <= 2 {
      assert TierFor(required, capsOf)(m) == TierOf(required, capsOf(m));
    }
  }

  function ReorderByCapabilities(models: seq<string>, required: set<string>, capsOf: string -> set<string>)
    : seq<string>
  {
    if required == {} || |models| <= 1 then models
    else Names(Sort(Decorate(models, TierFor(required, capsOf))))
  }

  ghost predicate Ordered(es: seq<Entry>) {
    forall i, j :: 0 <= i < j < |es| ==> Before(es[i], es[j])
  }

  /** Entries come from different positions, so the comparator never calls two of them equal. */
  ghost predicate Positions(es: seq<Entry>) {
    forall i, j :: 0 <= i < j < |es| ==> es[i].i != es[j].i
  }

  lemma InsertLater(e: Entry, es: seq<Entry>)
    requires es != [] && !Before(e, es[0])
    ensures Insert(e, es) == [es[0]] + Insert(e, es[1..])
  {
  }

  lemma InsertHere(e: Entry, es: seq<Entry>)
    requires es == [] || Before(e, es[0])
    ensures Insert(e, es) == [e] + es
  {
  }

  lemma {:induction false} InsertKeepsAll(e: Entry, es: seq<Entry>)
    ensures multiset(Insert(e, es)) == multiset{e} + multiset(es) && |Insert(e, es)| == |es| + 1
  {
    hide Insert, Before;
    if es != [] && !Before(e, es[0]) {
      InsertKeepsAll(e, es[1..]);
      InsertLater(e, es);
      TailOf(es);
    } else {
      InsertHere(e, es);
    }
  }

  lemma ConsOrdered(e: Entry, es: seq<Entry>)
    requires Ordered(es) && forall x :: x in es ==> Before(e, x)
    ensures Ordered([e] + es)
  {
    hide Before;
  }

  lemma {:induction false} InsertOrdered(e: Entry, es: seq<Entry>)
    requires Ordered(es) && forall x :: x in es ==> x.i != e.i
    ensures Ordered(Insert(e, es))
  {
    hide Insert;
    if es != [] && !Before(e, es[0]) {
      InsertOrdered(e, es[1..]);
      forall x | x in Insert(e, es[1..]) ensures Before(es[0], x) {
        InsertKeepsAll(e, es[1..]);
        assert x in multiset(Insert(e, es[1..]));
      }
      InsertLater(e, es);
      ConsOrdered(es[0], Insert(e, es[1..]));
    } else {
      InsertHere(e, es);
      ConsOrdered(e, es);
    }
  }

  lemma {:induction false} SortOrdered(es: seq<Entry>)
    requires Positions(es)
    ensures Ordered(Sort(es)) && multiset(Sort(es)) == multiset(es)
  {
    if es != [] {
      SortOrdered(es[1..]);
      assert es == [es[0]] + es[1..];
      forall x | x in Sort(es[1..]) ensures x.i != es[0].i {
        assert x in multiset(es[1..]);
      }
      InsertOrdered(es[0], Sort(es[1..]));
      InsertKeepsAll(es[0], Sort(es[1..]));
    }
  }

  /** Two orderings of the same entries by the comparator are equal. */
  lemma {:induction false} SortUnique(a: seq<Entry>, b: seq<Entry>)
    requires Ordered(a) && Ordered(b) && multiset(a) == multiset(b)
    ensures a == b
  {
    if a == [] {
      assert |multiset(b)| == 0;
    } else {
      assert a[0] in multiset(b) && |b| > 0;
      assert b[0] in multiset(a);
      assert a[0] == b[0] by { HeadsEqual(a, b); }
      TailOf(a);
      TailOf(b);
      SortUnique(a[1..], b[1..]);
    }
  }

  lemma TailOf(a: seq<Entry>)
    requires a != []
    ensures a == [a[0]] + a[1..] && multiset(a[1..]) == multiset(a) - multiset{a[0]}
  {
    assert a == [a[0]] + a[1..];
  }

  lemma HeadsEqual(a: seq<Entry>, b: seq<Entry>)
    requires Ordered(a) && Ordered(b) && |a| > 0 && |b| > 0 && a[0] in b && b[0] in a
    ensures a[0] == b[0]
  {
    var i :| 0 <= i < |b| && b[i] == a[0];
    var j :| 0 <= j < |a| && a[j] == b[0];
    assert i == 0 || Before(b[0], b[i]);
    assert j == 0 || Before(a[0], a[j]);
  }

  function InTier(t: nat): Entry -> bool { (e: Entry) => e.t == t }

  function HasTier(tier: string -> nat, t: nat): string -> bool { (m: string) => tier(m) == t }

  lemma FilterAppend<T>(keep: T -> bool, s: seq<T>, x: T)
    ensures Filter(keep, s + [x]) == if keep(x) then Filter(keep, s) + [x] else Filter(keep, s)
  {
    assert (s + [x])[..|s|] == s;
  }

  lemma DecorateAppend(models: seq<string>, tier: string -> nat, n: nat)
    requires |models| == n + 1
    ensures Decorate(models, tier) == Decorate(models[..n], tier) + [Entry(models[n], n, tier(models[n]))]
  {
  }

  /** Filtering the decorated list by tier is filtering the models by tier. */
  lemma {:induction false} TierNames(models: seq<string>, tier: string -> nat, t: nat)
    ensures Names(Filter(InTier(t), Decorate(models, tier))) == Filter(HasTier(tier, t), models)
  {
    hide Decorate, Names, Filter;
    if models == [] {
      TierNamesNone(tier, t);
    } else {
      var n := |models| - 1;
      var e := Entry(models[n], n, tier(models[n]));
      TierNames(models[..n], tier, t);
      DecorateAppend(models, tier, n);
      FilterAppend(InTier(t), Decorate(models[..n], tier), e);
      NamesAppend(Filter(InTier(t), Decorate(models[..n], tier)), e);
      FilterAppend(HasTier(tier, t), models[..n], models[n]);
      assert models == models[..n] + [models[n]];
    }
  }

  lemma TierNamesNone(tier: string -> nat, t: nat)
    ensures Names(Filter(InTier(t), Decorate([], tier))) == [] == Filter(HasTier(tier, t), [])
  {
  }

  ghost predicate Rising(es: seq<Entry>) {
    forall i, j :: 0 <= i < j < |es| ==> es[i].i < es[j].i
  }

  lemma {:induction false} FilterRising(keep: Entry -> bool, es: seq<Entry>)
    requires Rising(es)
    ensures Rising(Filter(keep, es))
  {
    if es != [] {
      var n := |es| - 1;
      FilterRising(keep, es[..n]);
      forall e | e in Filter(keep, es[..n]) ensures e.i < es[n].i {
        assert e in es[..n];
      }
    }
  }

  lemma NamesAppend(es: seq<Entry>, e: Entry)
    ensures Names(es + [e]) == Names(es) + [e.m]
  {
    assert (es + [e])[..|es|] == es;
  }

  lemma {:induction false} NamesConcat(a: seq<Entry>, b: seq<Entry>)
    ensures Names(a + b) == Names(a) + Names(b)
  {
    if b == [] {
      assert a + b == a;
    } else {
      hide Names;
      var n := |b| - 1;
      NamesConcat(a, b[..n]);
      NamesAppend(a + b[..n], b[n]);
      NamesAppend(b[..n], b[n]);
      assert b == b[..n] + [b[n]] && a + b == (a + b[..n]) + [b[n]];
    }
  }

  lemma {:induction false} FilterMultiset<T>(keep: T -> bool, s: seq<T>, x: T)
    ensures multiset(Filter(keep, s))[x] == if keep(x) then multiset(s)[x] else 0
  {
    if s != [] {
      FilterMultiset(keep, s[..|s| - 1], x);
      assert s == s[..|s| - 1] + [s[|s| - 1]];
    }
  }

  /** Three filters of which every element passes exactly one split a list without loss. */
  lemma {:induction false} SplitThree<T>(p: T -> bool, q: T -> bool, r: T -> bool, s: seq<T>)
    requires forall x :: x in s ==> (p(x) && !q(x) && !r(x)) || (!p(x) && q(x) && !r(x)) || (!p(x) && !q(x) && r(x))
    ensures multiset(Filter(p, s) + Filter(q, s) + Filter(r, s)) == multiset(s)
  {
    hide Filter;
    if s == [] {
      FilterNone(p, s);
      FilterNone(q, s);
      FilterNone(r, s);
    } else {
      var n := |s| - 1;
      SplitThree(p, q, r, s[..n]);
      FilterAppend(p, s[..n], s[n]);
      FilterAppend(q, s[..n], s[n]);
      FilterAppend(r, s[..n], s[n]);
      assert s == s[..n] + [s[n]];
    }
  }

  /** The three tiers one after the other, each in the original order. */
  function TierEntriesInOrder(es: seq<Entry>): seq<Entry> {
    Filter(InTier(0), es) + Filter(InTier(1), es) + Filter(InTier(2), es)
  }

  lemma TiersSorted(models: seq<string>, tier: string -> nat)
    requires forall m :: tier(m) <= 2
    ensures var es := Decorate(models, tier);
            Ordered(TierEntriesInOrder(es)) && multiset(TierEntriesInOrder(es)) == multiset(es)
  {
    var es := Decorate(models, tier);
    var r := TierEntriesInOrder(es);
    hide Filter;
    FilterRising(InTier(0), es);
    FilterRising(InTier(1), es);
    FilterRising(InTier(2), es);
    assert Ordered(r) by {
      OrderedTiers(Filter(InTier(0), es), Filter(InTier(1), es), Filter(InTier(2), es));
    }
    SplitThree(InTier(0), InTier(1), InTier(2), es);
  }

  lemma OrderedTiers(a: seq<Entry>, b: seq<Entry>, c: seq<Entry>)
    requires Rising(a)
    requires Rising(b)
    requires Rising(c)
    requires (forall e :: e in a ==> e.t == 0) && (forall e :: e in b ==> e.t == 1) && (forall e :: e in c ==> e.t == 2)
    ensures Ordered(a + b + c)
  {
    forall i, j | 0 <= i < j < |a + b + c| ensures Before((a + b + c)[i], (a + b + c)[j]) {
      var x, y := (a + b + c)[i], (a + b + c)[j];
      if j < |a| {
        assert x == a[i] && y == a[j];
      } else if |a| <= i && j < |a| + |b| {
        assert x == b[i - |a|] && y == b[j - |a|];
      } else if |a| + |b| <= i {
        assert x == c[i - |a| - |b|] && y == c[j - |a| - |b|];
      } else {
        assert x in a || x in b;
        assert y in b || y in c;
      }
    }
  }

  lemma SortSmall(es: seq<Entry>)
    requires |es| <= 1
    ensures Sort(es) == es
  {
    if |es| == 1 { assert es == [es[0]] && Sort(es[1..]) == []; }
  }

  lemma {:induction false} NamesDecorate(models: seq<string>, tier: string -> nat)
    ensures Names(Decorate(models, tier)) == models
  {
    if models != [] {
      var n := |models| - 1;
      NamesDecorate(models[..n], tier);
      DecorateAppend(models, tier, n);
      NamesAppend(Decorate(models[..n], tier), Entry(models[n], n, tier(models[n])));
    }
  }

  /** Capability reordering is the unique stable sort by tier: whatever the sorting algorithm, the
      result is tier 0, then tier 1, then tier 2, each in its original order. */
  lemma ReorderIsStable(models: seq<string>, required: set<string>, capsOf: string -> set<string>)
    requires required != {}
    ensures var tier := TierFor(required, capsOf);
            ReorderByCapabilities(models, required, capsOf)
            == Filter(HasTier(tier, 0), models) + Filter(HasTier(tier, 1), models) + Filter(HasTier(tier, 2), models)
  {
    hide Sort, Decorate, Names, Ordered, Filter;
    var tier := TierFor(required, capsOf);
    var es := Decorate(models, tier);
    TierBound(required, capsOf);
    TiersSorted(models, tier);
    SortOrdered(es);
    SortUnique(Sort(es), TierEntriesInOrder(es));
    NamesConcat(Filter(InTier(0), es) + Filter(InTier(1), es), Filter(InTier(2), es));
    NamesConcat(Filter(InTier(0), es), Filter(InTier(1), es));
    TierNames(models, tier, 0);
    TierNames(models, tier, 1);
    TierNames(models, tier, 2);
    if |models| <= 1 { SortSmall(es); NamesDecorate(models, tier); }
  }

  /** No fallback is lost or doubled. */
  lemma ReorderKeepsAll(models: seq<string>, required: set<string>, capsOf: string -> set<string>)
    ensures multiset(ReorderByCapabilities(models, required, capsOf)) == multiset(models)
  {
    hide Filter, Sort, Decorate, Names;
    if required != {} {
      var tier := TierFor(required, capsOf);
      ReorderIsStable(models, required, capsOf);
      TierBound(required, capsOf);
      SplitThree(HasTier(tier, 0), HasTier(tier, 1), HasTier(tier, 2), models);
    }
  }

  /** A model that can do all that is required, and one that can do what nothing can stand in for. */
  predicate CanDo(required: set<string>, caps: set<string>) { forall c :: c in required ==> c in caps }

  predicate CanRead(required: set<string>, caps: set<string>) {
    forall c :: c in required && c in {"vision", "pdf", "audioInput", "videoInput"} ==> c in caps
  }

  function Best(required: set<string>, capsOf: string -> set<string>): string -> bool {
    (m: string) => CanDo(required, capsOf(m))
  }

  function Next(required: set<string>, capsOf: string -> set<string>): string -> bool {
    (m: string) => CanRead(required, capsOf(m)) && !CanDo(required, capsOf(m))
  }

  function Worst(required: set<string>, capsOf: string -> set<string>): string -> bool {
    (m: string) => !CanRead(required, capsOf(m))
  }

  lemma {:induction false} FilterSame<T>(p: T -> bool, q: T -> bool, s: seq<T>)
    requires forall x :: p(x) <==> q(x)
    ensures Filter(p, s) == Filter(q, s)
  {
    if s != [] { FilterSame(p, q, s[..|s| - 1]); }
  }

  lemma TierMeans(required: set<string>, caps: set<string>)
    ensures TierOf(required, caps) == 0 <==> CanDo(required, caps)
    ensures TierOf(required, caps) == 2 <==> !CanRead(required, caps)
    ensures TierOf(required, caps) <= 2
  {
    assert CanRead(required, caps) <==> required * HARD_CAPS <= caps;
    assert CanDo(required, caps) <==> required * HARD_CAPS <= caps && required - HARD_CAPS <= caps;
  }

  /** The models that can do all come first, then those that lack no hard capability, then the rest, each in
      their original order. */
  lemma BestFirst(models: seq<string>, required: set<string>, capsOf: string -> set<string>)
    requires required != {}
    ensures ReorderByCapabilities(models, required, capsOf) ==
              Filter(Best(required, capsOf), models) + Filter(Next(required, capsOf), models)
              + Filter(Worst(required, capsOf), models)
  {
    var tier := TierFor(required, capsOf);
    hide Filter, CanDo, CanRead, ReorderByCapabilities;
    forall m
      ensures HasTier(tier, 0)(m) <==> Best(required, capsOf)(m)
      ensures HasTier(tier, 1)(m) <==> Next(required, capsOf)(m)
      ensures HasTier(tier, 2)(m) <==> Worst(required, capsOf)(m)
    {
      TierMeans(required, capsOf(m));
      ReadsIfCan(required, capsOf(m));
    }
    ReorderIsStable(models, required, capsOf);
    FilterSame(HasTier(tier, 0), Best(required, capsOf), models);
    FilterSame(HasTier(tier, 1), Next(required, capsOf), models);
    FilterSame(HasTier(tier, 2), Worst(required, capsOf), models);
  }

  lemma ReadsIfCan(required: set<string>, caps: set<string>)
    ensures CanDo(required, caps) ==> CanRead(required, caps)
  {
  }

  // ---------------------------------------------------------------- sticky session

  function OtherThan(model: string): string -> bool { (m: string) => m != model }

  function StickyFirst(models: seq<string>, sticky: string): seq<string> {
    if sticky in models then [sticky] + Filter(OtherThan(sticky), models) else models
  }

  /** Moving the sticky model to the front keeps every fallback exactly when the combo does not
      list that model twice. */
  lemma StickyKeepsAll(models: seq<string>, sticky: string)
    ensures multiset(StickyFirst(models, sticky)) == multiset(models) <==> multiset(models)[sticky] <= 1
  {
    hide Filter;
    if sticky in models {
      var rest := Filter(OtherThan(sticky), models);
      assert multiset([sticky] + rest) == multiset{sticky} + multiset(rest);
      forall x ensures multiset([sticky] + rest)[x] == if x == sticky then 1 else multiset(models)[x] {
        FilterMultiset(OtherThan(sticky), models, x);
      }
    }
  }

  /** The other models keep their order. */
  lemma StickyKeepsOrder(models: seq<string>, sticky: string)
    ensures Filter(OtherThan(sticky), StickyFirst(models, sticky)) == Filter(OtherThan(sticky), models)
    ensures sticky in models ==> StickyFirst(models, sticky)[0] == sticky
  {
    hide Filter;
    var rest := Filter(OtherThan(sticky), models);
    FilterConcat(OtherThan(sticky), [sticky], rest);
    FilterNone(OtherThan(sticky), [sticky]);
    FilterAll(OtherThan(sticky), rest);
    assert [] + rest == rest;
  }

  // ---------------------------------------------------------------- cooldown partition

  function Not<T>(p: T -> bool): T -> bool { (x: T) => !p(x) }

  /** The reordering of a retry round. The source asks for the cooldowns twice, once per filter;
      `first` and `second` are the two answers. */
  function CoolingLast(models: seq<string>, first: string -> bool, second: string -> bool): (r: seq<string>) {
    Filter(Not(first), models) + Filter(second, models)
  }

  lemma CoolingCount(models: seq<string>, first: string -> bool, second: string -> bool, m: string)
    ensures multiset(CoolingLast(models, first, second))[m]
         == (if first(m) then 0 else multiset(models)[m]) + (if second(m) then multiset(models)[m] else 0)
  {
    FilterMultiset(Not(first), models, m);
    FilterMultiset(second, models, m);
  }

  /** The partition keeps every fallback exactly when both readings agree on every listed model.
      Between the readings a cooldown can only end; each model whose cooldown does end is dropped
      from this request altogether. */
  lemma CoolingKeepsAll(models: seq<string>, first: string -> bool, second: string -> bool)
    ensures multiset(CoolingLast(models, first, second)) == multiset(models)
              <==> forall m :: m in models ==> first(m) == second(m)
    ensures forall m :: m in models && first(m) && !second(m) ==> m !in CoolingLast(models, first, second)
    ensures (forall m :: second(m) ==> first(m)) ==> |CoolingLast(models, first, second)| <= |models|
  {
    hide Filter;
    var r := CoolingLast(models, first, second);
    forall m
      ensures multiset(r)[m] ==
                (if first(m) then 0 else multiset(models)[m]) + (if second(m) then multiset(models)[m] else 0)
    {
      CoolingCount(models, first, second, m);
    }
    if multiset(r) == multiset(models) {
      forall m | m in models ensures first(m) == second(m) {
        assert multiset(models)[m] > 0;
      }
    }
    if forall m :: m in models ==> first(m) == second(m) {
      forall m ensures multiset(r)[m] == multiset(models)[m] {
        if m !in models { assert multiset(models)[m] == 0; }
      }
    }
    if forall m :: second(m) ==> first(m) { CoolingShorter(models, first, second); }
  }

  lemma {:induction false} CoolingShorter(models: seq<string>, first: string -> bool, second: string -> bool)
    requires forall m :: second(m) ==> first(m)
    ensures |Filter(Not(first), models)| + |Filter(second, models)| <= |models|
  {
    if models != [] { CoolingShorter(models[..|models| - 1], first, second); }
  }

  /** Models that do not cool come first, and within each part the order stays, as far as the readings agree. */
  lemma CoolingOrder(models: seq<string>, cooling: string -> bool)
    ensures var r := CoolingLast(models, cooling, cooling);
            && (forall i, j :: 0 <= i < j < |r| && cooling(r[i]) ==> cooling(r[j]))
            && Filter(cooling, r) == Filter(cooling, models)
            && Filter(Not(cooling), r) == Filter(Not(cooling), models)
  {
    var a, b := Filter(Not(cooling), models), Filter(cooling, models);
    hide Filter;
    FilterConcat(cooling, a, b);
    FilterConcat(Not(cooling), a, b);
    FilterNone(cooling, a);
    FilterAll(cooling, b);
    FilterAll(Not(cooling), a);
    FilterNone(Not(cooling), b);
    assert [] + b == b && a + [] == a;
    forall i, j | 0 <= i < j < |a + b| && cooling((a + b)[i]) ensures cooling((a + b)[j]) {
      assert (a + b)[i] in (if i < |a| then a else b);
      assert (a + b)[j] in (if j < |a| then a else b);
    }
  }

  /** And if they do not: what is tried begins with models that the first reading calls free, and goes on with
      models that the second calls cooling. */
  lemma CoolingParts(models: seq<string>, first: string -> bool, second: string -> bool) returns (k: nat)
    ensures var r := CoolingLast(models, first, second);
            k <= |r| && (forall i :: 0 <= i < k ==> !first(r[i])) && (forall i :: k <= i < |r| ==> second(r[i]))
  {
    var a, b := Filter(Not(first), models), Filter(second, models);
    hide Filter;
    k := |a|;
    forall i | 0 <= i < |a + b| ensures if i < k then !first((a + b)[i]) else second((a + b)[i]) {
      if i < k { assert (a + b)[i] in a; } else { assert (a + b)[i] in b; }
    }
  }

  // ---------------------------------------------------------------- the list that is tried

  /** The two answers about cooldowns that a retry round gets. */
  datatype Readings = Readings(first: string -> bool, second: string -> bool)

  function Retried(models: seq<string>, rounds: seq<Readings>): seq<string> {
    if rounds == [] then models
    else
      var last := rounds[|rounds| - 1];
      CoolingLast(Retried(models, rounds[..|rounds| - 1]), last.first, last.second)
  }

  /** The models in the order in which they are tried: rotated, by capability, the sticky one first if
      there is one that counts, and reordered in every retry round that asks for cooldowns. */
  function Tried(models: seq<string>, lead: nat, required: set<string>, capsOf: string -> set<string>,
                 sticky: Option<string>, rounds: seq<Readings>): seq<string>
    requires lead <= |models|
  {
    var ordered := ReorderByCapabilities(Rotated(models, lead), required, capsOf);
    Retried(match sticky case Some(m) => StickyFirst(ordered, m) case None => ordered, rounds)
  }

  /** Between two readings a cooldown can only end. */
  ghost predicate OnlyEnds(reading: Readings) { forall m :: reading.second(m) ==> reading.first(m) }

  /** No cooldown of these models ends between the two readings. */
  ghost predicate Agreeing(models: seq<string>, reading: Readings) {
    forall m :: m in models ==> reading.first(m) == reading.second(m)
  }

  lemma StickyWithin(models: seq<string>, sticky: string)
    ensures multiset(StickyFirst(models, sticky)) <= multiset(models)
  {
    hide Filter;
    if sticky in models {
      var rest := Filter(OtherThan(sticky), models);
      assert multiset([sticky] + rest) == multiset{sticky} + multiset(rest);
      forall x ensures multiset([sticky] + rest)[x] <= multiset(models)[x] {
        FilterMultiset(OtherThan(sticky), models, x);
      }
    }
  }

  lemma CoolingWithin(models: seq<string>, first: string -> bool, second: string -> bool)
    requires forall m :: second(m) ==> first(m)
    ensures multiset(CoolingLast(models, first, second)) <= multiset(models)
  {
    hide CoolingLast;
    forall m ensures multiset(CoolingLast(models, first, second))[m] <= multiset(models)[m] {
      CoolingCount(models, first, second, m);
    }
  }

  lemma {:induction false} RetriedKeepsAll(models: seq<string>, rounds: seq<Readings>)
    requires forall reading :: reading in rounds ==> OnlyEnds(reading)
    ensures multiset(Retried(models, rounds)) <= multiset(models)
    ensures multiset(Retried(models, rounds)) == multiset(models) <==>
              forall reading :: reading in rounds ==> Agreeing(models, reading)
  {
    if rounds != [] {
      hide CoolingLast, OnlyEnds, Agreeing;
      var init, last := rounds[..|rounds| - 1], rounds[|rounds| - 1];
      assert rounds == init + [last];
      RetriedKeepsAll(models, init);
      CoolingStep(models, Retried(models, init), last);
    }
  }

  lemma CoolingStep(models: seq<string>, was: seq<string>, last: Readings)
    requires OnlyEnds(last) && multiset(was) <= multiset(models)
    ensures var next := CoolingLast(was, last.first, last.second);
            && multiset(next) <= multiset(models)
            && (multiset(next) == multiset(models) <==> multiset(was) == multiset(models) && Agreeing(models, last))
  {
    CoolingWithin(was, last.first, last.second);
    CoolingKeepsAll(was, last.first, last.second);
    hide CoolingLast, OnlyEnds;
    if multiset(was) == multiset(models) { AgreeingSame(was, models, last); }
  }

  lemma SameMembers(a: seq<string>, b: seq<string>)
    ensures multiset(a) == multiset(b) ==> forall m :: m in a <==> m in b
  {
    if multiset(a) == multiset(b) {
      forall m ensures m in a <==> m in b {
        assert m in a <==> m in multiset(a);
        assert m in b <==> m in multiset(b);
      }
    }
  }

  /** What is tried is never more than the combo lists, and it is all of it if and only if the sticky model
      is not listed twice and no cooldown ends between two readings of one round. */
  lemma NoFallbackLost(models: seq<string>, lead: nat, required: set<string>, capsOf: string -> set<string>,
                       sticky: Option<string>, rounds: seq<Readings>)
    requires lead <= |models| && forall reading :: reading in rounds ==> OnlyEnds(reading)
    ensures var tried := Tried(models, lead, required, capsOf, sticky, rounds);
            && multiset(tried) <= multiset(models)
            && (multiset(tried) == multiset(models) <==>
                  && (sticky.Some? ==> multiset(models)[sticky.value] <= 1)
                  && forall reading :: reading in rounds ==> Agreeing(models, reading))
  {
    hide ReorderByCapabilities, Retried, StickyFirst, Agreeing, OnlyEnds;
    RotatedKeepsAll(models, lead);
    ReorderKeepsAll(Rotated(models, lead), required, capsOf);
    var ordered := ReorderByCapabilities(Rotated(models, lead), required, capsOf);
    var first := match sticky case Some(m) => StickyFirst(ordered, m) case None => ordered;
    if sticky.Some? {
      StickyKeepsAll(ordered, sticky.value);
      StickyWithin(ordered, sticky.value);
    }
    RetriedKeepsAll(first, rounds);
    if multiset(first) == multiset(models) {
      forall reading ensures Agreeing(first, reading) <==> Agreeing(models, reading) {
        AgreeingSame(first, models, reading);
      }
    }
  }

  lemma AgreeingSame(a: seq<string>, b: seq<string>, reading: Readings)
    requires multiset(a) == multiset(b)
    ensures Agreeing(a, reading) <==> Agreeing(b, reading)
  {
    SameMembers(a, b);
  }
}
