/** The concurrency-limited fan-out of a fusion panel, `runWithConcurrency` in
    open-sse/services/combo.js, as a machine over a logical clock. */
module RunnerPool {
  import opened Basics
  import opened Arithmetic

  /** `starts[i]` is the time at which slot i was launched; slots are launched in index order, so
      the slots launched so far are 0 .. |starts| - 1. */
  datatype Pool = Pool(starts: seq<int>, running: set<int>, now: int)

  datatype Event = Settles(slot: int) | Clock(at: int)

  /** The worker cap: everything at once unless `maxConcurrency` is positive and below the number of slots. */
  function Workers(maxConcurrency: int, n: nat): (cap: int)
    ensures n > 0 ==> 0 < cap <= n
    ensures cap <= n && (maxConcurrency > 0 ==> cap <= maxConcurrency)
  {
    if maxConcurrency <= 0 || maxConcurrency >= n then n else maxConcurrency
  }

  /** It is the most workers that there are slots for and that the limit, if there is one, allows. */
  lemma MostWorkers(maxConcurrency: int, n: nat, k: int)
    ensures k <= Workers(maxConcurrency, n) <==> k <= n && (maxConcurrency > 0 ==> k <= maxConcurrency)
  {
  }

  function Launched(p: Pool, n: nat, cap: int): Pool
    decreases n - |p.starts|
  {
    if |p.running| < cap && |p.starts| < n then
      Launched(Pool(p.starts + [p.now], p.running + {|p.starts|}, p.now), n, cap)
    else p
  }

  function Init(n: nat, cap: int, at: int): Pool { Launched(Pool([], {}, at), n, cap) }

  function Step(p: Pool, e: Event, n: nat, cap: int): Pool {
    match e
    case Settles(i) => Launched(p.(running := p.running - {i}), n, cap)
    case Clock(at) => p.(now := at)
  }

  /** Only running slots settle, and no slot runs longer than `latency`. */
  ghost predicate Allows(p: Pool, e: Event, latency: int) {
    match e
    case Settles(i) => i in p.running
    case Clock(at) => p.now <= at && forall i :: i in p.running && 0 <= i < |p.starts| ==> at <= p.starts[i] + latency
  }

  function Run(n: nat, cap: int, at: int, es: seq<Event>): Pool {
    if es == [] then Init(n, cap, at) else Step(Run(n, cap, at, es[..|es| - 1]), es[|es| - 1], n, cap)
  }

  ghost predicate Legal(n: nat, cap: int, at: int, es: seq<Event>, latency: int) {
    es == [] ||
    (Legal(n, cap, at, es[..|es| - 1], latency) &&
     Allows(Run(n, cap, at, es[..|es| - 1]), es[|es| - 1], latency))
  }

  // ---------------------------------------------------------------- the invariant

  function Deadline(at: int, i: nat, cap: int, latency: int): int
    requires cap > 0
  {
    at + i / cap * latency
  }

  ghost predicate Shape(p: Pool, n: nat, cap: int) {
    && |p.starts| <= n
    && |p.running| <= cap
    && (forall i :: i in p.running ==> 0 <= i < |p.starts|)
  }

  /** A free worker means that no slot waits. */
  ghost predicate Busy(p: Pool, n: nat, cap: int) {
    |p.starts| < n ==> |p.running| == cap
  }

  ghost predicate OnTime(p: Pool, cap: int, at: int, latency: int)
    requires cap > 0
  {
    && (forall i :: 0 <= i < |p.starts| ==> at <= p.starts[i] <= Deadline(at, i, cap, latency) && p.starts[i] <= p.now)
    && (forall i :: i in p.running && 0 <= i < |p.starts| ==> p.now <= p.starts[i] + latency)
    && Sorted(p.starts)
  }

  lemma {:induction false} Few(s: set<int>, lo: int, hi: int)
    requires lo <= hi && forall x :: x in s ==> lo <= x < hi
    ensures |s| <= hi - lo
    decreases hi - lo
  {
    if lo < hi {
      var t := s - {hi - 1};
      Few(t, lo, hi - 1);
      assert s <= t + {hi - 1};
      if hi - 1 in s { assert s == t + {hi - 1}; } else { assert s == t; }
    } else {
      assert s == {};
    }
  }

  lemma DeadlineStep(at: int, j: nat, i: nat, cap: int, latency: int)
    requires cap > 0 && latency >= 0 && j + cap <= i
    ensures Deadline(at, j, cap, latency) + latency <= Deadline(at, i, cap, latency)
  {
    DivNext(j, cap);
    DivMono(j + cap, i, cap);
    MulNext(j / cap, i / cap, latency);
  }

  /** The pigeonhole step: when slot i is the next to be launched and `cap` earlier slots are
      running, one of them was launched a whole round earlier. */
  lemma SlotDue(p: Pool, n: nat, cap: int, at: int, latency: int)
    requires cap > 0 && latency >= 0 && Shape(p, n, cap) && OnTime(p, cap, at, latency)
    requires |p.running| == cap
    ensures p.now <= Deadline(at, |p.starts|, cap, latency)
  {
    var i := |p.starts|;
    if j :| j in p.running && j + cap <= i {
      DeadlineStep(at, j, i, cap, latency);
    } else {
      Few(p.running, i - cap + 1, i);
    }
  }

  /** Launching keeps the shape and stays on time, provided the next slot may start now. */
  lemma {:induction false} LaunchKeeps(p: Pool, n: nat, cap: int, at: int, latency: int)
    requires cap > 0 && latency >= 0 && Shape(p, n, cap) && OnTime(p, cap, at, latency) && at <= p.now
    requires p.now <= Deadline(at, |p.starts|, cap, latency)
    ensures var q := Launched(p, n, cap);
            Shape(q, n, cap) && Busy(q, n, cap) && OnTime(q, cap, at, latency) && q.now == p.now
    decreases n - |p.starts|
  {
    if |p.running| < cap && |p.starts| < n {
      var i := |p.starts|;
      var q := Pool(p.starts + [p.now], p.running + {i}, p.now);
      LaunchOne(p, n, cap, at, latency);
      DivMono(i, i + 1, cap);
      MulMono(i / cap, (i + 1) / cap, latency);
      LaunchKeeps(q, n, cap, at, latency);
    }
  }

  lemma LaunchOne(p: Pool, n: nat, cap: int, at: int, latency: int)
    requires cap > 0 && latency >= 0 && Shape(p, n, cap) && OnTime(p, cap, at, latency) && at <= p.now
    requires p.now <= Deadline(at, |p.starts|, cap, latency)
    requires |p.running| < cap && |p.starts| < n
    ensures var q := Pool(p.starts + [p.now], p.running + {|p.starts|}, p.now);
            Shape(q, n, cap) && OnTime(q, cap, at, latency)
  {
    hide Deadline;
    var q := Pool(p.starts + [p.now], p.running + {|p.starts|}, p.now);
    assert forall i :: 0 <= i < |p.starts| ==> q.starts[i] == p.starts[i];
  }

  ghost predicate Inv(p: Pool, n: nat, cap: int, at: int, latency: int) {
    cap > 0 && Shape(p, n, cap) && Busy(p, n, cap) && OnTime(p, cap, at, latency) && at <= p.now
  }

  lemma InvStep(p: Pool, e: Event, n: nat, cap: int, at: int, latency: int)
    requires latency >= 0 && Inv(p, n, cap, at, latency) && Allows(p, e, latency)
    ensures Inv(Step(p, e, n, cap), n, cap, at, latency)
  {
    if e.Settles? {
      var q := p.(running := p.running - {e.slot});
      if |p.starts| < n {
        SlotDue(p, n, cap, at, latency);
        LaunchKeeps(q, n, cap, at, latency);
      } else {
        assert Launched(q, n, cap) == q;
      }
    }
  }

  lemma {:induction false} InvRun(n: nat, cap: int, at: int, es: seq<Event>, latency: int)
    requires cap > 0 && latency >= 0 && Legal(n, cap, at, es, latency)
    ensures Inv(Run(n, cap, at, es), n, cap, at, latency)
  {
    if es == [] {
      LaunchKeeps(Pool([], {}, at), n, cap, at, latency);
    } else {
      hide Inv, Step;
      InvRun(n, cap, at, es[..|es| - 1], latency);
      InvStep(Run(n, cap, at, es[..|es| - 1]), es[|es| - 1], n, cap, at, latency);
    }
  }

  // ---------------------------------------------------------------- main results

  /** Bounded delay. In every reachable state at most `cap` slots run, no slot waits while a
      worker is free, slots were launched in index order, and if no runner takes longer than
      `latency` then slot i is launched no later than floor(i / cap) * latency after the start: one that
      was, was in time, and one that waits is not late yet. */
  lemma BoundedDelay(n: nat, maxConcurrency: int, at: int, es: seq<Event>, latency: int)
    requires n > 0 && latency >= 0 && Legal(n, Workers(maxConcurrency, n), at, es, latency)
    ensures var cap := Workers(maxConcurrency, n);
            var p := Run(n, cap, at, es);
            && |p.running| <= cap
            && (|p.starts| < n ==> |p.running| == cap)
            && (forall i :: i in p.running ==> 0 <= i < |p.starts|)
            && (forall i :: 0 <= i < |p.starts| ==> p.starts[i] <= at + i / cap * latency)
            && (forall i :: |p.starts| <= i < n ==> p.now <= at + i / cap * latency)
            && Sorted(p.starts)
  {
    hide Run, Legal, Workers, Sorted;
    var cap := Workers(maxConcurrency, n);
    var p := Run(n, cap, at, es);
    InvRun(n, cap, at, es, latency);
    forall i | |p.starts| <= i < n ensures p.now <= at + i / cap * latency {
      StillWaiting(p, n, cap, at, latency, i);
    }
  }

  lemma StillWaiting(p: Pool, n: nat, cap: int, at: int, latency: int, i: nat)
    requires latency >= 0 && Inv(p, n, cap, at, latency) && |p.starts| <= i < n
    ensures p.now <= at + i / cap * latency
  {
    hide Sorted;
    SlotDue(p, n, cap, at, latency);
    DivMono(|p.starts|, i, cap);
    MulMono(|p.starts| / cap, i / cap, latency);
  }

  /** A slot launched before the last clock reading is not launched again: its start time stays. */
  lemma {:induction false} LaunchedOnce(p: Pool, n: nat, cap: int)
    ensures var q := Launched(p, n, cap);
            |p.starts| <= |q.starts| && q.starts[..|p.starts|] == p.starts && p.running <= q.running
    ensures var q := Launched(p, n, cap);
            forall i :: i in q.running && i !in p.running ==> |p.starts| <= i < |q.starts| && q.starts[i] == p.now
    decreases n - |p.starts|
  {
    if |p.running| < cap && |p.starts| < n {
      LaunchedOnce(Pool(p.starts + [p.now], p.running + {|p.starts|}, p.now), n, cap);
    }
  }

  lemma RunsUntil(p: Pool, n: nat, cap: int, at: int, latency: int, i: int)
    requires latency >= 0 && Inv(p, n, cap, at, latency) && i in p.running
    ensures p.now <= at + ((n - 1) / cap + 1) * latency
  {
    DivMono(i, n - 1, cap);
    MulMono(i / cap, (n - 1) / cap, latency);
    assert ((n - 1) / cap + 1) * latency == (n - 1) / cap * latency + latency;
  }

  /** The whole fan-out is over once ceil(n / cap) latencies have passed. */
  lemma Makespan(n: nat, maxConcurrency: int, at: int, es: seq<Event>, latency: int)
    requires n > 0 && latency >= 0 && Legal(n, Workers(maxConcurrency, n), at, es, latency)
    requires Run(n, Workers(maxConcurrency, n), at, es).now
               > at + ((n - 1) / Workers(maxConcurrency, n) + 1) * latency
    ensures var p := Run(n, Workers(maxConcurrency, n), at, es); |p.starts| == n && p.running == {}
  {
    hide Run, Legal, Workers;
    var cap := Workers(maxConcurrency, n);
    var p := Run(n, cap, at, es);
    InvRun(n, cap, at, es, latency);
    forall i ensures i !in p.running {
      if i in p.running { RunsUntil(p, n, cap, at, latency, i); }
    }
  }

  // ---------------------------------------------------------------- the code

  /** The closure variables of `runWithConcurrency`, with the history the results speak of. */
  class Scheduler {
    const n: nat
    const cap: int
    var cursor: int
    var active: int
    ghost var state: Pool

    ghost predicate Valid()
      reads this
    {
      cap > 0 && Shape(state, n, cap) && cursor == |state.starts| && active == |state.running|
    }

    constructor (n: nat, maxConcurrency: int, ghost at: int)
      requires n > 0
      ensures Valid() && this.n == n && cap == Workers(maxConcurrency, n)
      ensures state == Init(n, cap, at)
    {
      this.n := n;
      this.cap := if maxConcurrency <= 0 || maxConcurrency >= n then n else maxConcurrency;
      cursor, active := 0, 0;
      state := Pool([], {}, at);
      new;
      Launch();
    }

    /** `launch`: start slots while a worker is free. */
    method Launch()
      requires Valid()
      modifies this
      ensures Valid() && state == Launched(old(state), n, cap)
    {
      while active < cap && cursor < n
        invariant Valid() && Launched(state, n, cap) == Launched(old(state), n, cap)
        decreases n - cursor
      {
        var idx := cursor;
        cursor := cursor + 1;
        active := active + 1;
        state := Pool(state.starts + [state.now], state.running + {idx}, state.now);
      }
    }

    /** The `finally` of one runner. */
    method OnSettled(idx: int)
      requires Valid() && idx in state.running
      modifies this
      ensures Valid() && state == Step(old(state), Settles(idx), n, cap)
    {
      active := active - 1;
      state := state.(running := state.running - {idx});
      if cursor < n { Launch(); }
    }

    ghost method Advance(at: int)
      requires Valid()
      modifies this`state
      ensures Valid() && state == Step(old(state), Clock(at), n, cap)
    {
      state := state.(now := at);
    }
  }
}
