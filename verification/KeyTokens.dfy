/** The token window of open-sse/services/keyBudget.js. The list of usages is truncated as the list of
    requests is, but no limit on its length protects it: it decides exactly as long as the truncation
    leaves all usages that are live. */
module KeyTokens {
  import opened Basics
  import opened KeyBudget

  // ---------------------------------------------------------------- the stored usages

  function Times(us: seq<Usage>): seq<int> { seq(|us|, i requires 0 <= i < |us| => us[i].ts) }

  /** The usages stored are the last ones recorded, and a dropped one has left the window, or at least
      TRIM_TO newer ones stayed. */
  ghost predicate Kept(stored: seq<Usage>, all: seq<Usage>, clock: int) {
    && |stored| <= |all| && |stored| <= TRIM_ABOVE
    && stored == all[|all| - |stored|..]
    && Tail(Times(stored), Times(all), clock, TRIM_TO)
    && forall u :: u in all ==> u.count > 0
  }

  lemma UsageSplit(us: seq<Usage>, now: int) returns (k: nat)
    requires Sorted(Times(us))
    ensures k <= |us| && LiveUsage(us, now) == us[k..] && Live(Times(us), now) == Times(us[k..])
    ensures forall i :: 0 <= i < |us| ==> (k <= i <==> now - us[i].ts < WINDOW_MS)
  {
    hide Filter, Sorted;
    k := LiveSplit(Times(us), now);
    assert Times(us)[k..] == Times(us[k..]);
    assert forall i :: 0 <= i < |us| ==> Times(us)[i] == us[i].ts;
    assert us == us[..k] + us[k..];
    FilterConcat(UsageLiveAt(now), us[..k], us[k..]);
    FilterNone(UsageLiveAt(now), us[..k]);
    FilterAll(UsageLiveAt(now), us[k..]);
  }

  lemma KeptSorted(stored: seq<Usage>, all: seq<Usage>, clock: int)
    requires Kept(stored, all, clock)
    ensures Sorted(Times(stored)) && Sorted(Times(all))
  {
    assert Times(stored) == Times(all)[|all| - |stored|..];
    SortedSuffix(Times(all), |all| - |stored|);
  }

  lemma KeptPrune(stored: seq<Usage>, all: seq<Usage>, clock: int, now: int)
    requires Kept(stored, all, clock) && clock <= now
    ensures Kept(LiveUsage(stored, now), all, now) && Kept(stored, all, now)
  {
    hide Sorted, Tail, LiveUsage, Live;
    KeptSorted(stored, all, clock);
    TailPrune(Times(stored), Times(all), clock, TRIM_TO, now);
    var k := UsageSplit(stored, now);
    SubSlice(all, |all| - |stored|, |all|, k, |stored|);
  }

  lemma TrimKept(s: seq<Usage>, all: seq<Usage>)
    requires |s| <= |all| && s == all[|all| - |s|..] && |s| <= TRIM_ABOVE + 1
    ensures |Trim(s)| <= |s| && |Trim(s)| <= TRIM_ABOVE && Trim(s) == all[|all| - |Trim(s)|..]
    ensures Times(Trim(s)) == Trim(Times(s))
  {
    if |s| > TRIM_ABOVE { SubSlice(all, |all| - |s|, |all|, |s| - TRIM_TO, |s|); }
  }

  lemma KeptRecord(stored: seq<Usage>, all: seq<Usage>, clock: int, u: Usage)
    requires Kept(stored, all, clock) && clock <= u.ts && u.count > 0
    ensures Kept(Trim(stored + [u]), all + [u], u.ts)
  {
    hide Sorted, Tail;
    TailRecord(Times(stored), Times(all), clock, TRIM_TO, u.ts);
    assert Times(stored + [u]) == Times(stored) + [u.ts] && Times(all + [u]) == Times(all) + [u.ts];
    DropConcat(all, [u], |all| - |stored|);
    TrimKept(stored + [u], all + [u]);
  }

  lemma CheckKeepsTokens(l: Ledger, cfg: Config, model: string, est: int, now: int)
    ensures Checked(l, cfg, model, est, now).0.tokens in [l.tokens, LiveUsage(l.tokens, now)]
  {
  }

  lemma KeptStep(cfg: Config, w: World, e: Event)
    requires Kept(w.ledger.tokens, w.usages, w.clock) && w.clock <= e.at
    ensures var w' := Step(cfg, w, e); Kept(w'.ledger.tokens, w'.usages, w'.clock)
  {
    KeptPrune(w.ledger.tokens, w.usages, w.clock, e.at);
    match e
    case Check(model, est, at) =>
      hide Kept, LiveUsage, Checked;
      CheckKeepsTokens(w.ledger, cfg, model, est, at);
    case Record(tokensUsed, cost, at) =>
      if tokensUsed > 0 { KeptRecord(w.ledger.tokens, w.usages, w.clock, Usage(at, tokensUsed)); }
    case Fail(at) =>
  }

  lemma {:induction false} KeptRun(cfg: Config, at: int, es: seq<Event>, c: int)
    requires Legal(cfg, Start(at), es, c)
    ensures var w := Run(cfg, Start(at), es); Kept(w.ledger.tokens, w.usages, w.clock)
  {
    if es == [] {
      assert Times([]) == [];
    } else {
      hide Step, Kept;
      KeptRun(cfg, at, es[..|es| - 1], c);
      KeptStep(cfg, Run(cfg, Start(at), es[..|es| - 1]), es[|es| - 1]);
    }
  }

  // ---------------------------------------------------------------- what they weigh

  lemma {:induction false} TokenSumConcat(a: seq<Usage>, b: seq<Usage>)
    ensures TokenSum(a + b) == TokenSum(a) + TokenSum(b)
  {
    if b == [] {
      assert a + b == a;
    } else {
      assert (a + b)[..|a + b| - 1] == a + b[..|b| - 1];
      TokenSumConcat(a, b[..|b| - 1]);
    }
  }

  lemma {:induction false} TokenSumPositive(a: seq<Usage>)
    requires forall u :: u in a ==> u.count > 0
    ensures TokenSum(a) >= 0
  {
    if a != [] { TokenSumPositive(a[..|a| - 1]); }
  }

  /** The stored usages never weigh more than all of them. */
  lemma NeverHeavier(stored: seq<Usage>, all: seq<Usage>, clock: int, now: int)
    requires Kept(stored, all, clock)
    ensures TokenSum(LiveUsage(stored, now)) <= TokenSum(LiveUsage(all, now))
  {
    var dropped := all[..|all| - |stored|];
    assert all == dropped + stored;
    FilterConcat(UsageLiveAt(now), dropped, stored);
    TokenSumConcat(LiveUsage(dropped, now), LiveUsage(stored, now));
    TokenSumPositive(LiveUsage(dropped, now));
  }

  lemma DroppedAreDead(stored: seq<Usage>, all: seq<Usage>, clock: int, now: int, i: nat)
    requires Kept(stored, all, clock) && clock <= now && |LiveUsage(all, now)| <= TRIM_TO && i < |all| - |stored|
    ensures now - all[i].ts >= WINDOW_MS
  {
    KeptSorted(stored, all, clock);
    var last := |all| - |stored| - 1;
    assert Times(all)[i] == all[i].ts && Times(all)[last] == all[last].ts && Times(all)[i] <= Times(all)[last];
    hide Sorted, LiveUsage;
    var k := UsageSplit(all, now);
  }

  /** And what is live of them is all that is live, as long as that is at most TRIM_TO usages. */
  lemma LiveExact(stored: seq<Usage>, all: seq<Usage>, clock: int, now: int)
    requires Kept(stored, all, clock) && clock <= now && |LiveUsage(all, now)| <= TRIM_TO
    ensures LiveUsage(stored, now) == LiveUsage(all, now)
  {
    var dropped := all[..|all| - |stored|];
    assert all == dropped + stored;
    forall u | u in dropped ensures now - u.ts >= WINDOW_MS {
      var i :| 0 <= i < |dropped| && dropped[i] == u;
      DroppedAreDead(stored, all, clock, now, i);
    }
    FilterConcat(UsageLiveAt(now), dropped, stored);
    FilterNone(UsageLiveAt(now), dropped);
  }

  // ---------------------------------------------------------------- the verdict

  /** What the token limit says is what the complete history says. */
  ghost predicate Exact(cfg: Config, w: World, model: string, est: int, now: int) {
    var d := Checked(w.ledger, cfg, model, est, now).1;
    d.Allowed? || d.OverTpm? ==> (d.OverTpm? <==> TokenSum(LiveUsage(w.usages, now)) + est > cfg.tpmLimit)
  }

  /** The token limiter never turns away a request the full history would admit, and is exact while at
      most TRIM_TO usages are live. */
  lemma TokenVerdict(cfg: Config, at: int, es: seq<Event>, c: int, model: string, est: int, now: int)
    requires Legal(cfg, Start(at), es, c) && Run(cfg, Start(at), es).clock <= now
    requires cfg.tpmLimit > 0 && est > 0
    ensures var w := Run(cfg, Start(at), es);
            && (Checked(w.ledger, cfg, model, est, now).1.OverTpm? ==>
                  TokenSum(LiveUsage(w.usages, now)) + est > cfg.tpmLimit)
            && (|LiveUsage(w.usages, now)| <= TRIM_TO ==> Exact(cfg, w, model, est, now))
  {
    hide Run, Legal, Kept, Live, LiveUsage, TokenSum;
    KeptRun(cfg, at, es, c);
    var w := Run(cfg, Start(at), es);
    NeverHeavier(w.ledger.tokens, w.usages, w.clock, now);
    if |LiveUsage(w.usages, now)| <= TRIM_TO { LiveExact(w.ledger.tokens, w.usages, w.clock, now); }
  }

  /** In every state of every run in which at most `n` usages are live the verdict is exact. */
  ghost predicate AlwaysExact(n: int) {
    forall cfg: Config, at: int, es: seq<Event>, c: int, model: string, est: int, now: int ::
      Legal(cfg, Start(at), es, c) && Run(cfg, Start(at), es).clock <= now && cfg.tpmLimit > 0 && est > 0 &&
      |LiveUsage(Run(cfg, Start(at), es).usages, now)| <= n ==>
        Exact(cfg, Run(cfg, Start(at), es), model, est, now)
  }

  // ---------------------------------------------------------------- one live usage too many

  const TIGHT := Config(0.0, 0, TRIM_TO + 1, [], Lifetime)

  function TimeOf(n: int): int { if n < TRIM_TO then 0 else 1 }

  /** One token each, TRIM_TO at time 0 and the rest at time 1. */
  function Singles(n: nat): seq<Usage> { seq(n, i => Usage(TimeOf(i), 1)) }

  ghost predicate After(es: seq<Event>, n: nat) {
    var w := Run(TIGHT, Start(0), es);
    && Legal(TIGHT, Start(0), es, 1)
    && w.ledger.tokens == Trim(Singles(n)) && w.usages == Singles(n) && w.open == 0 && w.clock <= TimeOf(n)
  }

  lemma OneMore(es: seq<Event>, n: nat) returns (r: seq<Event>)
    requires After(es, n) && n <= TRIM_ABOVE
    ensures After(r, n + 1)
  {
    hide Run, Legal;
    var check, record := Check("", 0, TimeOf(n)), Record(1, 0.0, TimeOf(n));
    r := es + [check] + [record];
    Extend(TIGHT, Start(0), es, check, 1);
    Extend(TIGHT, Start(0), es + [check], record, 1);
    assert Singles(n + 1) == Singles(n) + [Usage(TimeOf(n), 1)];
  }

  lemma {:induction false} Many(n: nat) returns (r: seq<Event>)
    requires n <= TRIM_ABOVE + 1
    ensures After(r, n)
  {
    if n == 0 {
      r := [];
    } else {
      hide After;
      r := Many(n - 1);
      r := OneMore(r, n - 1);
    }
  }

  lemma {:induction false} OnesSum(us: seq<Usage>)
    requires forall u :: u in us ==> u.count == 1
    ensures TokenSum(us) == |us|
  {
    if us != [] { OnesSum(us[..|us| - 1]); }
  }

  /** With one live usage more than TRIM_TO a request is admitted that the complete history would refuse. */
  lemma TokensMissed() returns (es: seq<Event>)
    ensures Legal(TIGHT, Start(0), es, 1) && Run(TIGHT, Start(0), es).clock <= WINDOW_MS
    ensures var w := Run(TIGHT, Start(0), es);
            |LiveUsage(w.usages, WINDOW_MS)| == TRIM_TO + 1 && !Exact(TIGHT, w, "", 1, WINDOW_MS)
  {
    hide Run, Legal, Live, LiveUsage, TokenSum;
    es := Many(TRIM_ABOVE + 1);
    var all := Singles(TRIM_ABOVE + 1);
    var live, stored := all[TRIM_TO..], all[TRIM_TO + 1..];
    assert all[TRIM_TO - 1].ts == 0 && all[TRIM_TO].ts == stored[0].ts == 1;
    var k := UsageSplit(all, WINDOW_MS);
    var j := UsageSplit(stored, WINDOW_MS);
    assert k == TRIM_TO && j == 0;
    OnesSum(live);
    OnesSum(stored);
  }

  /** So TRIM_TO live usages are exactly how far the token limit can be relied on. */
  lemma TokenVerdictExactly(n: int)
    ensures AlwaysExact(n) <==> n <= TRIM_TO
  {
    hide Run, Legal, LiveUsage, Exact;
    if n <= TRIM_TO {
      forall cfg: Config, at: int, es: seq<Event>, c: int, model: string, est: int, now: int |
        Legal(cfg, Start(at), es, c) && Run(cfg, Start(at), es).clock <= now && cfg.tpmLimit > 0 && est > 0 &&
        |LiveUsage(Run(cfg, Start(at), es).usages, now)| <= n
        ensures Exact(cfg, Run(cfg, Start(at), es), model, est, now)
      {
        TokenVerdict(cfg, at, es, c, model, est, now);
      }
    } else {
      var es := TokensMissed();
    }
  }
}
