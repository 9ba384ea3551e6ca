/** The sticky round robin of open-sse/services/combo.js: `getRotatedModels` and its state. */
module Rotation {
  import opened Basics
  import opened Arithmetic

  const DEFAULT_COMBO := "__default__"

  /** Per combo: the model to start from and how many requests it has led in a row. */
  datatype Turn = Turn(index: nat, used: nat)

  function Rotated<T>(s: seq<T>, i: nat): seq<T>
    requires i <= |s|
  {
    s[i..] + s[..i]
  }

  lemma RotatedKeepsAll<T>(s: seq<T>, i: nat)
    requires i <= |s|
    ensures multiset(Rotated(s, i)) == multiset(s)
  {
    assert s == s[..i] + s[i..];
  }

  /** Position j of the rotated list is position i + j of the list, counted round. */
  lemma RotatedAt<T>(s: seq<T>, i: nat, j: nat)
    requires i <= |s| && j < |s|
    ensures |Rotated(s, i)| == |s| && Rotated(s, i)[j] == s[(i + j) % |s|]
  {
    if i + j < |s| { DivModUnique(i + j, 0, i + j, |s|); } else { DivModUnique(i + j, 1, i + j - |s|, |s|); }
  }

  /** The state after one more request. */
  function Next(t: Turn, n: nat, k: int): Turn
    requires n > 0
  {
    var current := t.index % n;
    if t.used + 1 >= k then Turn((current + 1) % n, 0) else Turn(current, t.used + 1)
  }

  function After(t: Turn, n: nat, k: int, calls: nat): Turn
    requires n > 0
  {
    if calls == 0 then t else Next(After(t, n, k, calls - 1), n, k)
  }

  /** The position that leads the list returned by the `calls`-th call, counting from 0. */
  function Lead(t: Turn, n: nat, k: int, calls: nat): nat
    requires n > 0
  {
    After(t, n, k, calls).index % n
  }

  // ---------------------------------------------------------------- closed form

  lemma ModNext(a: nat, n: nat)
    requires n > 0
    ensures (a % n + 1) % n == (a + 1) % n
  {
    var q, r := a / n, a % n;
    assert a == q * n + r;
    if r + 1 < n {
      DivModUnique(a + 1, q, r + 1, n);
      DivModUnique(r + 1, 0, r + 1, n);
    } else {
      assert (q + 1) * n == q * n + n;
      DivModUnique(a + 1, q + 1, 0, n);
      DivModUnique(n, 1, 0, n);
    }
  }

  lemma NextClosed(i0: nat, x: nat, n: nat, k: nat)
    requires n > 0 && k > 0
    ensures Next(Turn((i0 + x / k) % n, x % k), n, k) == Turn((i0 + (x + 1) / k) % n, (x + 1) % k)
  {
    var t := Turn((i0 + x / k) % n, x % k);
    assert t.index % n == t.index by { DivModUnique(t.index, 0, t.index, n); }
    if x % k + 1 < k {
      DivModUnique(x + 1, x / k, x % k + 1, k);
    } else {
      DivModUnique(x + 1, x / k + 1, 0, k);
      ModNext(i0 + x / k, n);
    }
  }

  /** With n models and sticky limit k, from any state (i0 < n, c0 < k) the state after `calls`
      requests is a closed expression in i0, c0 and the number of requests. */
  lemma {:induction false} ClosedForm(i0: nat, c0: nat, n: nat, k: nat, calls: nat)
    requires i0 < n && c0 < k
    ensures After(Turn(i0, c0), n, k, calls) == Turn((i0 + (c0 + calls) / k) % n, (c0 + calls) % k)
    ensures Lead(Turn(i0, c0), n, k, calls) == (i0 + (c0 + calls) / k) % n
  {
    if calls == 0 {
      DivModUnique(c0, 0, c0, k);
      DivModUnique(i0, 0, i0, n);
    } else {
      ClosedForm(i0, c0, n, k, calls - 1);
      NextClosed(i0, c0 + calls - 1, n, k);
    }
    var index := (i0 + (c0 + calls) / k) % n;
    DivModUnique(index, 0, index, n);
  }

  // ---------------------------------------------------------------- fairness

  /** How many of the calls from .. from + len - 1 lead with position `p`. */
  function LeadCount(t: Turn, n: nat, k: int, p: nat, from: nat, len: nat): nat
    requires n > 0
  {
    if len == 0 then 0
    else LeadCount(t, n, k, p, from, len - 1) + if Lead(t, n, k, from + len - 1) == p then 1 else 0
  }

  function Position(i0: nat, n: nat, k: nat, x: nat): nat
    requires n > 0 && k > 0
  {
    (i0 + x / k) % n
  }

  /** The same count over the closed form. */
  function Count(i0: nat, n: nat, k: nat, p: nat, from: nat, len: nat): nat
    requires n > 0 && k > 0
  {
    if len == 0 then 0 else Count(i0, n, k, p, from, len - 1) + if Position(i0, n, k, from + len - 1) == p then 1 else 0
  }

  lemma {:induction false} CountIsLeadCount(i0: nat, c0: nat, n: nat, k: nat, p: nat, from: nat, len: nat)
    requires i0 < n && c0 < k
    ensures LeadCount(Turn(i0, c0), n, k, p, from, len) == Count(i0, n, k, p, c0 + from, len)
  {
    if len > 0 {
      CountIsLeadCount(i0, c0, n, k, p, from, len - 1);
      ClosedForm(i0, c0, n, k, from + len - 1);
    }
  }

  lemma {:induction false} CountShift(i0: nat, n: nat, k: nat, p: nat, from: nat, len: nat)
    requires n > 0 && k > 0
    ensures Count(i0, n, k, p, from + 1, len) + (if Position(i0, n, k, from) == p then 1 else 0)
         == Count(i0, n, k, p, from, len) + (if Position(i0, n, k, from + len) == p then 1 else 0)
  {
    hide Position;
    if len > 0 { CountShift(i0, n, k, p, from, len - 1); }
  }

  lemma {:induction false} DivAdd(x: nat, n: nat, k: nat)
    requires k > 0
    ensures (x + n * k) / k == x / k + n
  {
    assert (x / k + n) * k == x / k * k + n * k;
    DivModUnique(x + n * k, x / k + n, x % k, k);
  }

  lemma Periodic(i0: nat, n: nat, k: nat, x: nat)
    requires n > 0 && k > 0
    ensures Position(i0, n, k, x + n * k) == Position(i0, n, k, x)
  {
    DivAdd(x, n, k);
    DivNext(i0 + x / k, n);
  }

  lemma {:induction false} CountFromZero(i0: nat, n: nat, k: nat, p: nat, from: nat)
    requires n > 0 && k > 0
    ensures Count(i0, n, k, p, from, n * k) == Count(i0, n, k, p, 0, n * k)
  {
    hide Count, Position;
    if from > 0 {
      CountFromZero(i0, n, k, p, from - 1);
      CountShift(i0, n, k, p, from - 1, n * k);
      Periodic(i0, n, k, from - 1);
    }
  }

  /** Among the first m of n rounds, position `p` leads in at most one. */
  function Hits(i0: nat, n: nat, p: nat, m: nat): nat
    requires n > 0
  {
    if m == 0 then 0 else Hits(i0, n, p, m - 1) + if (i0 + m - 1) % n == p then 1 else 0
  }

  lemma {:induction false} HitsOne(i0: nat, n: nat, p: nat, m: nat)
    requires i0 < n && p < n && m <= n
    ensures Hits(i0, n, p, m) == if (if i0 <= p then p - i0 else p - i0 + n) < m then 1 else 0
  {
    if m > 0 {
      HitsOne(i0, n, p, m - 1);
      var x := i0 + m - 1;
      if x < n { DivModUnique(x, 0, x, n); } else { DivModUnique(x, 1, x - n, n); }
    }
  }

  /** Within one round of k requests the leader does not change. */
  lemma {:induction false} CountRound(i0: nat, n: nat, k: nat, p: nat, m: nat, r: nat)
    requires n > 0 && k > 0 && r <= k
    ensures Count(i0, n, k, p, 0, m * k + r) ==
            Count(i0, n, k, p, 0, m * k) + if (i0 + m) % n == p then r else 0
  {
    if r > 0 {
      CountRound(i0, n, k, p, m, r - 1);
      DivModUnique(m * k + r - 1, m, r - 1, k);
    }
  }

  lemma {:induction false} CountRounds(i0: nat, n: nat, k: nat, p: nat, m: nat)
    requires n > 0 && k > 0
    ensures Count(i0, n, k, p, 0, m * k) == Hits(i0, n, p, m) * k
  {
    hide Count;
    if m == 0 {
      CountNone(i0, n, k, p);
    } else {
      CountRounds(i0, n, k, p, m - 1);
      CountRound(i0, n, k, p, m - 1, k);
      assert (m - 1) * k + k == m * k;
      if (i0 + m - 1) % n == p { assert (Hits(i0, n, p, m - 1) + 1) * k == Hits(i0, n, p, m - 1) * k + k; }
    }
  }

  lemma CountNone(i0: nat, n: nat, k: nat, p: nat)
    requires n > 0 && k > 0
    ensures Count(i0, n, k, p, 0, 0) == 0
  {
  }

  /** Fairness: whatever the state, any n * k consecutive requests lead with each of the n
      positions exactly k times. */
  lemma Fair(i0: nat, c0: nat, n: nat, k: nat, p: nat, from: nat)
    requires i0 < n && c0 < k && p < n
    ensures LeadCount(Turn(i0, c0), n, k, p, from, n * k) == k
  {
    hide LeadCount, Count, Hits;
    CountIsLeadCount(i0, c0, n, k, p, from, n * k);
    CountFromZero(i0, n, k, p, c0 + from);
    CountRounds(i0, n, k, p, n);
    HitsOne(i0, n, p, n);
  }

  // ---------------------------------------------------------------- the lists returned

  /** The list that is returned in state t. */
  function Returned(models: seq<string>, t: Turn): seq<string>
    requires models != []
  {
    Rotated(models, t.index % |models|)
  }

  /** All of the models, from position x on, counted round. */
  ghost predicate BeginsAt(list: seq<string>, models: seq<string>, x: nat) {
    |list| == |models| && forall j :: 0 <= j < |models| ==> list[j] == models[(x + j) % |models|]
  }

  /** What the `calls`-th call returns, counting from 0: the models from position i0 + (c0 + calls) / k on. */
  lemma CallReturns(models: seq<string>, i0: nat, c0: nat, k: nat, calls: nat)
    requires i0 < |models| && c0 < k
    ensures BeginsAt(Returned(models, After(Turn(i0, c0), |models|, k, calls)), models, i0 + (c0 + calls) / k)
  {
    hide After, Returned;
    ClosedForm(i0, c0, |models|, k, calls);
    var t, x := After(Turn(i0, c0), |models|, k, calls), i0 + (c0 + calls) / k;
    ReturnsAt(models, t, x, 0);
    forall j | 0 <= j < |models| ensures Returned(models, t)[j] == models[(x + j) % |models|] {
      ReturnsAt(models, t, x, j);
    }
  }

  lemma ReturnsAt(models: seq<string>, t: Turn, x: nat, j: nat)
    requires j < |models| && t.index == x % |models|
    ensures |Returned(models, t)| == |models| && Returned(models, t)[j] == models[(x + j) % |models|]
  {
    var n := |models|;
    DivModUnique(t.index, 0, t.index, n);
    RotatedAt(models, t.index, j);
    ModPlus(x, j, n);
  }

  lemma ModPlus(x: nat, j: nat, n: nat)
    requires n > 0
    ensures (x % n + j) % n == (x + j) % n
  {
    var y := x % n + j;
    assert (x / n + y / n) * n == x / n * n + y / n * n;
    DivModUnique(x + j, x / n + y / n, y % n, n);
  }

  lemma LeaderOf(models: seq<string>, i0: nat, c0: nat, k: nat, calls: nat)
    requires i0 < |models| && c0 < k
    ensures var n := |models|;
            var list := Returned(models, After(Turn(i0, c0), n, k, calls));
            && list != [] && list[0] == models[(i0 + (c0 + calls) / k) % n]
            && Lead(Turn(i0, c0), n, k, calls) == (i0 + (c0 + calls) / k) % n
  {
    CallReturns(models, i0, c0, k, calls);
    ClosedForm(i0, c0, |models|, k, calls);
  }

  /** How many of the calls from .. from + len - 1 return a list that begins with model `m`. */
  function LedBy(models: seq<string>, i0: nat, c0: nat, k: nat, m: string, from: nat, len: nat): nat
    requires models != []
  {
    if len == 0 then 0
    else
      var list := Returned(models, After(Turn(i0, c0), |models|, k, from + len - 1));
      LedBy(models, i0, c0, k, m, from, len - 1) + if list != [] && list[0] == m then 1 else 0
  }

  /** The counts of the first `n` positions that hold model `m`. */
  function LeadSum(models: seq<string>, t: Turn, k: nat, m: string, from: nat, len: nat, n: nat): nat
    requires n <= |models| && models != []
  {
    if n == 0 then 0
    else
      LeadSum(models, t, k, m, from, len, n - 1)
      + if models[n - 1] == m then LeadCount(t, |models|, k, n - 1, from, len) else 0
  }

  lemma {:induction false} LeadSumNone(models: seq<string>, t: Turn, k: nat, m: string, from: nat, n: nat)
    requires n <= |models| && models != []
    ensures LeadSum(models, t, k, m, from, 0, n) == 0
  {
    if n > 0 { LeadSumNone(models, t, k, m, from, n - 1); }
  }

  lemma {:induction false} LeadSumStep(models: seq<string>, t: Turn, k: nat, m: string, from: nat, len: nat, n: nat)
    requires n <= |models| && models != [] && len > 0
    ensures var lead := Lead(t, |models|, k, from + len - 1);
            LeadSum(models, t, k, m, from, len, n) ==
              LeadSum(models, t, k, m, from, len - 1, n) + if lead < n && models[lead] == m then 1 else 0
  {
    hide Lead;
    if n > 0 { LeadSumStep(models, t, k, m, from, len, n - 1); }
  }

  lemma {:induction false} LedBySum(models: seq<string>, i0: nat, c0: nat, k: nat, m: string, from: nat, len: nat)
    requires i0 < |models| && c0 < k
    ensures LedBy(models, i0, c0, k, m, from, len) == LeadSum(models, Turn(i0, c0), k, m, from, len, |models|)
  {
    hide Returned, After, LeadSum, Lead;
    if len == 0 {
      LeadSumNone(models, Turn(i0, c0), k, m, from, |models|);
    } else {
      LedBySum(models, i0, c0, k, m, from, len - 1);
      LeaderOf(models, i0, c0, k, from + len - 1);
      LeadSumStep(models, Turn(i0, c0), k, m, from, len, |models|);
    }
  }

  lemma LeadSumLast(models: seq<string>, t: Turn, k: nat, m: string, from: nat, len: nat, n: nat)
    requires 0 < n <= |models|
    ensures LeadSum(models, t, k, m, from, len, n) ==
              LeadSum(models, t, k, m, from, len, n - 1)
              + if models[n - 1] == m then LeadCount(t, |models|, k, n - 1, from, len) else 0
  {
    hide LeadCount;
  }

  lemma {:induction false} FairSum(models: seq<string>, i0: nat, c0: nat, k: nat, m: string, from: nat, n: nat)
    requires i0 < |models| && c0 < k && n <= |models|
    ensures LeadSum(models, Turn(i0, c0), k, m, from, |models| * k, n) == multiset(models[..n])[m] * k
  {
    if n > 0 {
      hide LeadCount, LeadSum;
      LeadSumLast(models, Turn(i0, c0), k, m, from, |models| * k, n);
      FairSum(models, i0, c0, k, m, from, n - 1);
      Fair(i0, c0, |models|, k, n - 1, from);
      Listed(models, n - 1, m);
      OnceMore(multiset(models[..n - 1])[m], k);
    }
  }

  lemma Listed(models: seq<string>, n: nat, m: string)
    requires n < |models|
    ensures multiset(models[..n + 1])[m] == multiset(models[..n])[m] + if models[n] == m then 1 else 0
  {
    assert models[..n + 1] == models[..n] + [models[n]];
  }

  lemma OnceMore(a: nat, k: nat)
    ensures (a + 1) * k == a * k + k
  {
  }

  /** Fairness over the lists: of any n * k consecutive requests, exactly k lead with each model, or k for
      each time that it is listed. */
  lemma FairLists(models: seq<string>, i0: nat, c0: nat, k: nat, m: string, from: nat)
    requires i0 < |models| && c0 < k
    ensures LedBy(models, i0, c0, k, m, from, |models| * k) == multiset(models)[m] * k
  {
    hide LedBy, LeadSum;
    LedBySum(models, i0, c0, k, m, from, |models| * k);
    FairSum(models, i0, c0, k, m, from, |models|);
    assert models[..|models|] == models;
  }

  // ---------------------------------------------------------------- the code

  method RotateModelsFromIndex(models: seq<string>, currentIndex: nat) returns (rotated: seq<string>)
    requires currentIndex <= |models|
    ensures rotated == Rotated(models, currentIndex) && BeginsAt(rotated, models, currentIndex)
  {
    rotated := models;
    for i := 0 to currentIndex
      invariant rotated == models[i..] + models[..i]
    {
      var moved := rotated[0];
      rotated := rotated[1..];
      rotated := rotated + [moved];
      assert models[i..][0] == models[i] && models[..i + 1] == models[..i] + [models[i]];
    }
    forall j | 0 <= j < |models| ensures rotated[j] == models[(currentIndex + j) % |models|] {
      RotatedAt(models, currentIndex, j);
    }
  }

  /** `parsed` is the sticky limit after parseInt; None stands for not a number. A limit that can be met is
      kept, and every other one is the least that can. */
  function NormalizeStickyLimit(parsed: Option<int>): (k: int)
    ensures k >= 1
    ensures forall v :: v >= 1 && parsed == Some(v) ==> k == v
    ensures (forall v :: v >= 1 ==> parsed != Some(v)) ==> k == 1
  {
    if parsed.Some? && parsed.value > 0 then parsed.value else 1
  }

  class ComboRotation {
    var states: map<string, Turn>

    function StateOf(comboName: string): Turn
      reads this
    {
      var key := if comboName == "" then DEFAULT_COMBO else comboName;
      if key in states then states[key] else Turn(0, 0)
    }

    constructor ()
      ensures states == map[]
    {
      states := map[];
    }

    method GetRotatedModels(models: seq<string>, comboName: string, strategy: string, stickyLimit: Option<int>)
      returns (rotated: seq<string>)
      modifies this
      ensures |models| <= 1 || strategy != "round-robin" ==> rotated == models && states == old(states)
      ensures |models| > 1 && strategy == "round-robin" ==>
                && rotated == Returned(models, old(StateOf(comboName)))
                && BeginsAt(rotated, models, old(StateOf(comboName)).index % |models|)
                && StateOf(comboName) == Next(old(StateOf(comboName)), |models|, NormalizeStickyLimit(stickyLimit))
                && states - {if comboName == "" then DEFAULT_COMBO else comboName}
                   == old(states) - {if comboName == "" then DEFAULT_COMBO else comboName}
    {
      if |models| <= 1 || strategy != "round-robin" { return models; }
      var rotationKey := if comboName == "" then DEFAULT_COMBO else comboName;
      var limit := NormalizeStickyLimit(stickyLimit);
      var state := if rotationKey in states then states[rotationKey] else Turn(0, 0);
      var currentIndex := state.index % |models|;
      rotated := RotateModelsFromIndex(models, currentIndex);
      var nextUseCount := state.used + 1;
      if nextUseCount >= limit {
        states := states[rotationKey := Turn((currentIndex + 1) % |models|, 0)];
      } else {
        states := states[rotationKey := Turn(currentIndex, nextUseCount)];
      }
    }

    method ResetComboRotation(comboName: string)
      modifies this
      ensures comboName == "" ==> states == map[]
      ensures comboName != "" ==> states == old(states) - {comboName}
    {
      if comboName != "" { states := states - {comboName}; } else { states := map[]; }
    }
  }

  /** Any number of calls for one combo, one after the other: what each of them returns. */
  method Serve(rotation: ComboRotation, models: seq<string>, comboName: string, stickyLimit: Option<int>, calls: nat)
    returns (lists: seq<seq<string>>)
    requires |models| > 1
    requires var t := rotation.StateOf(comboName); t.index < |models| && t.used < NormalizeStickyLimit(stickyLimit)
    modifies rotation
    ensures |lists| == calls
    ensures var t, k := old(rotation.StateOf(comboName)), NormalizeStickyLimit(stickyLimit);
            forall c :: 0 <= c < calls ==> BeginsAt(lists[c], models, t.index + (t.used + c) / k)
  {
    hide After, Next, Returned, BeginsAt;
    ghost var t, k := rotation.StateOf(comboName), NormalizeStickyLimit(stickyLimit);
    lists := [];
    AfterNext(t, |models|, k, 0);
    for i := 0 to calls
      invariant |lists| == i && rotation.StateOf(comboName) == After(t, |models|, k, i)
      invariant forall c :: 0 <= c < i ==> lists[c] == Returned(models, After(t, |models|, k, c))
    {
      AfterNext(t, |models|, k, i);
      var list := rotation.GetRotatedModels(models, comboName, "round-robin", stickyLimit);
      lists := lists + [list];
    }
    AllReturned(lists, models, t, k);
  }

  lemma AllReturned(lists: seq<seq<string>>, models: seq<string>, t: Turn, k: nat)
    requires t.index < |models| && t.used < k
    requires forall c :: 0 <= c < |lists| ==> lists[c] == Returned(models, After(t, |models|, k, c))
    ensures forall c :: 0 <= c < |lists| ==> BeginsAt(lists[c], models, t.index + (t.used + c) / k)
  {
    hide After, Returned, BeginsAt;
    forall c | 0 <= c < |lists| ensures BeginsAt(lists[c], models, t.index + (t.used + c) / k) {
      CallReturns(models, t.index, t.used, k, c);
    }
  }

  lemma AfterNext(t: Turn, n: nat, k: int, calls: nat)
    requires n > 0
    ensures After(t, n, k, 0) == t && After(t, n, k, calls + 1) == Next(After(t, n, k, calls), n, k)
  {
    hide Next;
  }
}
