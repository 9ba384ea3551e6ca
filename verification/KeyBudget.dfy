/** The per-key budget and rate limiter of open-sse/services/keyBudget.js.

    `Checked` and `Recorded` say what one call does to one key's ledger; the classes at the end
    are the code itself and are proved to do exactly that. In between stand the results about
    whole runs, in which checks and records of one key interleave freely. */
module KeyBudget {
  import opened Basics

  const WINDOW_MS := 60000
  const DAY_MS := 24 * 3600 * 1000
  const TRIM_ABOVE := 1000
  const TRIM_TO := 500

  datatype Period = Lifetime | Daily | Monthly

  /** A limit that is absent in the source is 0 here: both are falsy there. */
  datatype Config = Config(maxBudget: real, rpmLimit: int, tpmLimit: int, whitelist: seq<string>, period: Period)

  datatype Usage = Usage(ts: int, count: int)

  datatype Decision =
    | Allowed
    | NotWhitelisted
    | OverBudget(retryMs: int)
    | OverRpm(retryMs: int)
    | OverTpm(retryMs: int)

  /** What the source keeps for one key, apart from its configuration. */
  datatype Ledger = Ledger(requests: seq<int>, tokens: seq<Usage>, totalSpend: real, periodSpend: real,
                           periodStart: int)

  // ---------------------------------------------------------------- one call

  function LiveAt(now: int): int -> bool { (t: int) => now - t < WINDOW_MS }

  function Live(times: seq<int>, now: int): seq<int> { Filter(LiveAt(now), times) }

  function UsageLiveAt(now: int): Usage -> bool { (u: Usage) => now - u.ts < WINDOW_MS }

  function LiveUsage(tokens: seq<Usage>, now: int): seq<Usage> { Filter(UsageLiveAt(now), tokens) }

  function TokenSum(tokens: seq<Usage>): int {
    if tokens == [] then 0 else TokenSum(tokens[..|tokens| - 1]) + tokens[|tokens| - 1].count
  }

  function PeriodMs(p: Period): Option<int> {
    match p
    case Lifetime => None
    case Daily => Some(DAY_MS)
    case Monthly => Some(30 * DAY_MS)
  }

  predicate Listed(cfg: Config, model: string) {
    |cfg.whitelist| == 0 || model == "" || model in cfg.whitelist || "*" in cfg.whitelist
  }

  /** The ledger after the period reset that a check performs, if one is due. */
  function Renewed(l: Ledger, cfg: Config, now: int): Ledger {
    match PeriodMs(cfg.period)
    case Some(ms) => if now - l.periodStart > ms then l.(periodSpend := 0.0, periodStart := now) else l
    case None => l
  }

  function Pruned(l: Ledger, cfg: Config, now: int): Ledger {
    if cfg.rpmLimit > 0 then l.(requests := Live(l.requests, now)) else l
  }

  function PrunedTokens(l: Ledger, cfg: Config, est: int, now: int): Ledger {
    if cfg.tpmLimit > 0 && est > 0 then l.(tokens := LiveUsage(l.tokens, now)) else l
  }

  /** The two sliding-window checks. */
  function RateChecked(l: Ledger, cfg: Config, est: int, now: int): (r: (Ledger, Decision)) {
    var l2 := Pruned(l, cfg, now);
    if cfg.rpmLimit > 0 && |l2.requests| >= cfg.rpmLimit then
      (l2, OverRpm(Max(1000, WINDOW_MS - (now - l2.requests[0]))))
    else
      var l3 := PrunedTokens(l2, cfg, est, now);
      if cfg.tpmLimit > 0 && est > 0 && TokenSum(l3.tokens) + est > cfg.tpmLimit then (l3, OverTpm(5000))
      else (l3, Allowed)
  }

  /** One admission check: the new ledger and the decision. */
  function Checked(l: Ledger, cfg: Config, model: string, est: int, now: int): (r: (Ledger, Decision)) {
    if !Listed(cfg, model) then (l, NotWhitelisted)
    else
      var l1 := if cfg.maxBudget > 0.0 then Renewed(l, cfg, now) else l;
      if cfg.maxBudget > 0.0 && l1.periodSpend >= cfg.maxBudget then
        (l1, OverBudget(match PeriodMs(cfg.period)
                        case None => 0
                        case Some(ms) => ms - (now - l1.periodStart)))
      else RateChecked(l1, cfg, est, now)
  }

  function Trim<T>(s: seq<T>): seq<T> {
    if |s| > TRIM_ABOVE then s[|s| - TRIM_TO..] else s
  }

  function Recorded(l: Ledger, tokensUsed: int, cost: real, now: int): Ledger {
    Ledger(Trim(l.requests + [now]),
           Trim(if tokensUsed > 0 then l.tokens + [Usage(now, tokensUsed)] else l.tokens),
           l.totalSpend + cost, l.periodSpend + cost, l.periodStart)
  }

  // ---------------------------------------------------------------- runs of one key

  /** A check, the record of a completed request, or the end of a request that failed and is never
      recorded. */
  datatype Event =
    | Check(model: string, est: int, at: int)
    | Record(tokensUsed: int, cost: real, at: int)
    | Fail(at: int)

  /** The ledger together with what an observer remembers: every recorded time and usage, the
      latest clock reading, and how many admitted requests have not ended yet. */
  datatype World = World(ledger: Ledger, times: seq<int>, usages: seq<Usage>, clock: int, open: int)

  function Start(at: int): World {
    World(Ledger([], [], 0.0, 0.0, at), [], [], at, 0)
  }

  function Step(cfg: Config, w: World, e: Event): World {
    match e
    case Check(model, est, at) =>
      var (l, d) := Checked(w.ledger, cfg, model, est, at);
      w.(ledger := l, clock := at, open := if d.Allowed? then w.open + 1 else w.open)
    case Record(tokensUsed, cost, at) =>
      World(Recorded(w.ledger, tokensUsed, cost, at), w.times + [at],
            if tokensUsed > 0 then w.usages + [Usage(at, tokensUsed)] else w.usages, at, w.open - 1)
    case Fail(at) => w.(clock := at, open := w.open - 1)
  }

  function Run(cfg: Config, w: World, es: seq<Event>): World {
    if es == [] then w else Step(cfg, Run(cfg, w, es[..|es| - 1]), es[|es| - 1])
  }

  /** The clock does not run backwards, only admitted requests end, and at most `c` admitted requests
      are outstanding. */
  ghost predicate Allows(cfg: Config, w: World, e: Event, c: int) {
    && w.clock <= e.at
    && (!e.Check? ==> w.open > 0)
    && Step(cfg, w, e).open <= c
  }

  ghost predicate Legal(cfg: Config, w: World, es: seq<Event>, c: int) {
    es == [] || (Legal(cfg, w, es[..|es| - 1], c) && Allows(cfg, Run(cfg, w, es[..|es| - 1]), es[|es| - 1], c))
  }

  // ---------------------------------------------------------------- the stored window

  /** `stored` is what is left of `all`; an entry was dropped only once it had left the window,
      or while at least `keep` newer entries stayed stored. */
  ghost predicate Tail(stored: seq<int>, all: seq<int>, clock: int, keep: int) {
    && |stored| <= |all|
    && stored == all[|all| - |stored|..]
    && Sorted(all)
    && (all != [] ==> all[|all| - 1] <= clock)
    && (|stored| < |all| ==> |stored| >= keep || clock - all[|all| - |stored| - 1] >= WINDOW_MS)
  }

  /** In a sorted history the entries above a bound are a suffix. */
  lemma {:induction false} Cut(all: seq<int>, bound: int) returns (k: nat)
    requires Sorted(all)
    ensures k <= |all| && forall i :: 0 <= i < |all| ==> (k <= i <==> all[i] > bound)
  {
    if all == [] || all[|all| - 1] <= bound {
      k := |all|;
    } else {
      k := Cut(all[..|all| - 1], bound);
      assert forall i :: 0 <= i < |all| - 1 ==> all[i] == all[..|all| - 1][i];
    }
  }

  lemma LiveSplit(all: seq<int>, now: int) returns (k: nat)
    requires Sorted(all)
    ensures k <= |all| && Live(all, now) == all[k..]
    ensures forall i :: 0 <= i < |all| ==> (k <= i <==> now - all[i] < WINDOW_MS)
  {
    hide Filter, Sorted;
    k := Cut(all, now - WINDOW_MS);
    assert all == all[..k] + all[k..];
    FilterConcat(LiveAt(now), all[..k], all[k..]);
    FilterNone(LiveAt(now), all[..k]);
    FilterAll(LiveAt(now), all[k..]);
  }

  /** The exactness result: as long as the limit is at most `keep`, the count the limiter sees
      reaches the limit exactly when the count over the untruncated history does. */
  lemma VerdictExact(stored: seq<int>, all: seq<int>, clock: int, keep: int, now: int, limit: int)
    requires Tail(stored, all, clock, keep) && clock <= now && limit <= keep
    ensures |Live(stored, now)| >= limit <==> |Live(all, now)| >= limit
    ensures |Live(stored, now)| < limit ==> Live(stored, now) == Live(all, now)
  {
    var k := LiveSplit(all, now);
    var d := |all| - |stored|;
    assert Sorted(stored);
    var j := LiveSplit(stored, now);
    if k < d {
      assert now - all[d - 1] < WINDOW_MS;
      if j < |stored| { assert stored[0] == all[d] && all[d - 1] <= all[d]; }
      if |stored| > 0 { assert stored[0] == all[d] && all[d - 1] <= all[d]; assert j == 0; }
    } else {
      if j < |stored| { assert stored[j] == all[d + j]; }
      if j > 0 { assert stored[j - 1] == all[d + j - 1]; }
      if k < |all| { assert stored[k - d] == all[k]; }
      assert stored[j..] == all[k..];
    }
  }

  lemma SortedSuffix(all: seq<int>, d: nat)
    requires Sorted(all) && d <= |all|
    ensures Sorted(all[d..])
  {
  }

  lemma TailPrune(stored: seq<int>, all: seq<int>, clock: int, keep: int, now: int)
    requires Tail(stored, all, clock, keep) && clock <= now
    ensures Tail(Live(stored, now), all, now, keep) && Tail(stored, all, now, keep)
  {
    hide Live, Sorted;
    var d := |all| - |stored|;
    SortedSuffix(all, d);
    var j := LiveSplit(stored, now);
    SubSlice(all, d, |all|, j, |stored|);
    if j > 0 { assert stored[j - 1] == all[d + j - 1]; }
  }

  lemma SortedAppend(all: seq<int>, clock: int, now: int)
    requires Sorted(all) && (all != [] ==> all[|all| - 1] <= clock) && clock <= now
    ensures Sorted(all + [now])
  {
  }

  lemma TrimIsSuffix(s: seq<int>, all: seq<int>, d: nat)
    requires d <= |all| && s == all[d..]
    ensures |Trim(s)| <= |s| && Trim(s) == all[|all| - |Trim(s)|..]
  {
    if |s| > TRIM_ABOVE { SubSlice(all, d, |all|, |s| - TRIM_TO, |s|); }
  }

  lemma TrimKeeps(s: seq<int>, keep: int)
    requires keep <= TRIM_TO || |s| <= TRIM_ABOVE
    ensures |Trim(s)| == |s| || |Trim(s)| >= keep
  {
  }

  /** The new entry is stored, and either everything that was, or enough. */
  lemma TailMore(rest: seq<int>, n: nat, all: seq<int>, clock: int, keep: int, now: int)
    requires Sorted(all + [now]) && |rest| <= |all| + 1 && rest == (all + [now])[|all| + 1 - |rest|..]
    requires n <= |all| && clock <= now && (|rest| == n + 1 || |rest| >= keep)
    requires n < |all| ==> n >= keep || clock - all[|all| - n - 1] >= WINDOW_MS
    ensures Tail(rest, all + [now], now, keep)
  {
    hide Sorted;
    var more := all + [now];
    assert more[|more| - 1] == now;
    if |rest| == n + 1 && n < |all| { assert more[|more| - |rest| - 1] == all[|all| - n - 1]; }
  }

  lemma TailRecord(stored: seq<int>, all: seq<int>, clock: int, keep: int, now: int)
    requires Tail(stored, all, clock, keep) && clock <= now
    requires keep <= TRIM_TO || |stored| < TRIM_ABOVE
    ensures Tail(Trim(stored + [now]), all + [now], now, keep)
  {
    hide Sorted, Trim;
    SortedAppend(all, clock, now);
    DropConcat(all, [now], |all| - |stored|);
    TrimIsSuffix(stored + [now], all + [now], |all| - |stored|);
    TrimKeeps(stored + [now], keep);
    TailMore(Trim(stored + [now]), |stored|, all, clock, keep, now);
  }

  // ---------------------------------------------------------------- rate safety

  function Within(end: int): int -> bool { (t: int) => end - WINDOW_MS < t <= end }

  function InWindow(times: seq<int>, end: int): seq<int> { Filter(Within(end), times) }

  /** No window of WINDOW_MS, wherever it ends, holds more than `bound` recorded requests. */
  ghost predicate RateSafe(times: seq<int>, bound: int) {
    forall end :: |InWindow(times, end)| <= bound
  }

  /** At most `room` entries are still live at `clock`. */
  ghost predicate Recent(times: seq<int>, clock: int, room: int) {
    forall i :: 0 <= i < |times| && clock - times[i] < WINDOW_MS ==> |times| - i <= room
  }

  /** Entries closer together than a window are at most `bound` many. */
  ghost predicate Spread(times: seq<int>, bound: int) {
    forall i, j :: 0 <= i <= j < |times| && times[j] - times[i] < WINDOW_MS ==> j - i + 1 <= bound
  }

  /** What a run keeps: an admitted request that is still outstanding already counts against the
      window it will be recorded in. */
  ghost predicate Accounted(limit: int, c: int, requests: seq<int>, times: seq<int>, clock: int, open: int) {
    && 0 <= open <= c
    && (limit <= TRIM_TO || |requests| + open <= limit - 1 + c)
    && Tail(requests, times, clock, Max(TRIM_TO, limit))
    && Recent(times, clock, limit - 1 + c - open)
    && Spread(times, limit - 1 + c)
  }

  ghost predicate Inv(cfg: Config, c: int, w: World) {
    Accounted(cfg.rpmLimit, c, w.ledger.requests, w.times, w.clock, w.open)
  }

  /** The condition on limit and concurrency under which the limiter keeps its promise. */
  predicate Enforceable(limit: int, c: int) {
    limit <= TRIM_TO || limit + c <= TRIM_ABOVE + 1
  }

  lemma CheckKeepsRequests(l: Ledger, cfg: Config, model: string, est: int, now: int)
    ensures var r := Checked(l, cfg, model, est, now);
            r.0.requests == l.requests || (cfg.rpmLimit > 0 && r.0.requests == Live(l.requests, now))
    ensures var r := Checked(l, cfg, model, est, now);
            r.1.Allowed? && cfg.rpmLimit > 0 ==>
              r.0.requests == Live(l.requests, now) && |Live(l.requests, now)| < cfg.rpmLimit
  {
  }

  lemma RecentAt(times: seq<int>, now: int)
    requires Sorted(times)
    ensures Recent(times, now, |Live(times, now)|)
  {
    var k := LiveSplit(times, now);
  }

  lemma RecentLater(times: seq<int>, clock: int, now: int, room: int)
    requires Recent(times, clock, room) && clock <= now
    ensures Recent(times, now, room)
  {
  }

  lemma RecentAppend(times: seq<int>, clock: int, now: int, room: int)
    requires Recent(times, clock, room) && clock <= now && room >= 0
    ensures Recent(times + [now], now, room + 1)
  {
    var t := times + [now];
    forall i | 0 <= i < |t| && now - t[i] < WINDOW_MS ensures |t| - i <= room + 1 {
      if i < |times| { assert times[i] == t[i]; }
    }
  }

  lemma SpreadAppend(times: seq<int>, now: int, bound: int)
    requires Spread(times, bound) && Recent(times + [now], now, bound)
    ensures Spread(times + [now], bound)
  {
    var t := times + [now];
    forall i, j | 0 <= i <= j < |t| && t[j] - t[i] < WINDOW_MS ensures j - i + 1 <= bound {
      if j < |times| { assert times[i] == t[i] && times[j] == t[j]; }
    }
  }

  lemma AccountCheck(limit: int, c: int, requests: seq<int>, times: seq<int>, clock: int, open: int, now: int)
    requires limit >= 1 && Accounted(limit, c, requests, times, clock, open) && clock <= now
    ensures Accounted(limit, c, requests, times, now, open)
    ensures Accounted(limit, c, Live(requests, now), times, now, open)
    ensures |Live(requests, now)| < limit && open < c ==>
              Accounted(limit, c, Live(requests, now), times, now, open + 1)
  {
    hide Spread, Filter;
    TailPrune(requests, times, clock, Max(TRIM_TO, limit), now);
    VerdictExact(requests, times, clock, Max(TRIM_TO, limit), now, limit);
    RecentAt(times, now);
    RecentLater(times, clock, now, limit - 1 + c - open);
  }

  lemma AccountRecord(limit: int, c: int, requests: seq<int>, times: seq<int>, clock: int, open: int, now: int)
    requires limit >= 1 && c >= 1 && Enforceable(limit, c)
    requires Accounted(limit, c, requests, times, clock, open) && clock <= now && open > 0
    ensures Accounted(limit, c, Trim(requests + [now]), times + [now], now, open - 1)
  {
    hide Sorted, Tail, Recent, Spread;
    TailRecord(requests, times, clock, Max(TRIM_TO, limit), now);
    RecentAppend(times, clock, now, limit - 1 + c - open);
    RecentWiden(times + [now], now, limit - 1 + c - open + 1, limit - 1 + c);
    SpreadAppend(times, now, limit - 1 + c);
  }

  lemma AccountFail(limit: int, c: int, requests: seq<int>, times: seq<int>, clock: int, open: int, now: int)
    requires limit >= 1 && Accounted(limit, c, requests, times, clock, open) && clock <= now && open > 0
    ensures Accounted(limit, c, requests, times, now, open - 1)
  {
    hide Sorted, Spread;
    AccountCheck(limit, c, requests, times, clock, open, now);
    RecentWiden(times, now, limit - 1 + c - open, limit - 1 + c - open + 1);
  }

  lemma RecentWiden(times: seq<int>, clock: int, room: int, more: int)
    requires Recent(times, clock, room) && room <= more
    ensures Recent(times, clock, more)
  {
  }

  lemma InvStep(cfg: Config, c: int, w: World, e: Event)
    requires cfg.rpmLimit >= 1 && c >= 1 && Enforceable(cfg.rpmLimit, c)
    requires Inv(cfg, c, w) && Allows(cfg, w, e, c)
    ensures Inv(cfg, c, Step(cfg, w, e))
  {
    hide Accounted, Checked;
    if e.Check? {
      CheckKeepsRequests(w.ledger, cfg, e.model, e.est, e.at);
      AccountCheck(cfg.rpmLimit, c, w.ledger.requests, w.times, w.clock, w.open, e.at);
    } else if e.Fail? {
      AccountFail(cfg.rpmLimit, c, w.ledger.requests, w.times, w.clock, w.open, e.at);
    } else {
      AccountRecord(cfg.rpmLimit, c, w.ledger.requests, w.times, w.clock, w.open, e.at);
    }
  }

  lemma {:induction false} InvRun(cfg: Config, c: int, at: int, es: seq<Event>)
    requires cfg.rpmLimit >= 1 && c >= 1 && Enforceable(cfg.rpmLimit, c)
    requires Legal(cfg, Start(at), es, c)
    ensures Inv(cfg, c, Run(cfg, Start(at), es))
  {
    if es != [] {
      InvRun(cfg, c, at, es[..|es| - 1]);
      InvStep(cfg, c, Run(cfg, Start(at), es[..|es| - 1]), es[|es| - 1]);
    }
  }

  lemma CountFrom(times: seq<int>, end: int, k: int)
    requires 0 <= k <= |times| && forall i :: 0 <= i < k ==> times[i] <= end - WINDOW_MS
    ensures |InWindow(times, end)| <= |times| - k
  {
    assert times == times[..k] + times[k..];
    FilterConcat(Within(end), times[..k], times[k..]);
    FilterNone(Within(end), times[..k]);
  }

  lemma SpreadPrefix(times: seq<int>, n: nat, bound: int)
    requires n <= |times| && Spread(times, bound)
    ensures Spread(times[..n], bound)
  {
    var rest := times[..n];
    forall i, j | 0 <= i <= j < n && rest[j] - rest[i] < WINDOW_MS ensures j - i + 1 <= bound {
      assert times[i] == rest[i] && times[j] == rest[j];
    }
  }

  lemma {:induction false} WindowCount(times: seq<int>, end: int, bound: int)
    requires Sorted(times) && bound >= 0 && Spread(times, bound)
    ensures |InWindow(times, end)| <= bound
  {
    if times != [] {
      var n := |times| - 1;
      if Within(end)(times[n]) {
        var k := Cut(times, end - WINDOW_MS);
        CountFrom(times, end, k);
        assert times[n] - times[k] < WINDOW_MS;
      } else {
        SpreadPrefix(times, n, bound);
        WindowCount(times[..n], end, bound);
      }
    }
  }

  /** Every interleaving of checks and records of a key with limit `limit` and at most `c`
      outstanding requests stays within limit - 1 + c recorded requests per window. */
  ghost predicate AlwaysRateSafe(limit: int, c: int) {
    forall cfg: Config, at: int, es: seq<Event> ::
      cfg.rpmLimit == limit && Legal(cfg, Start(at), es, c) ==>
        RateSafe(Run(cfg, Start(at), es).times, limit - 1 + c)
  }

  lemma RateSafety(limit: int, c: int)
    requires limit >= 1 && c >= 1 && Enforceable(limit, c)
    ensures AlwaysRateSafe(limit, c)
  {
    forall cfg: Config, at: int, es: seq<Event> | cfg.rpmLimit == limit && Legal(cfg, Start(at), es, c)
      ensures RateSafe(Run(cfg, Start(at), es).times, limit - 1 + c)
    {
      InvRun(cfg, c, at, es);
      var w := Run(cfg, Start(at), es);
      forall end ensures |InWindow(w.times, end)| <= limit - 1 + c {
        WindowCount(w.times, end, limit - 1 + c);
      }
    }
  }

  lemma {:induction false} TailRun(cfg: Config, c: int, at: int, es: seq<Event>)
    requires Legal(cfg, Start(at), es, c)
    ensures var w := Run(cfg, Start(at), es); Tail(w.ledger.requests, w.times, w.clock, TRIM_TO)
  {
    hide Tail, Checked;
    if es == [] {
      TailStart(at);
    } else {
      var w, e := Run(cfg, Start(at), es[..|es| - 1]), es[|es| - 1];
      TailRun(cfg, c, at, es[..|es| - 1]);
      TailPrune(w.ledger.requests, w.times, w.clock, TRIM_TO, e.at);
      if e.Check? {
        CheckKeepsRequests(w.ledger, cfg, e.model, e.est, e.at);
      } else if e.Record? {
        TailRecord(w.ledger.requests, w.times, w.clock, TRIM_TO, e.at);
      }
    }
  }

  lemma TailStart(at: int)
    ensures Tail([], [], at, TRIM_TO)
  {
  }

  /** In every reachable state of a key with a limit of at most TRIM_TO, a request that passes the
      whitelist and the budget is refused for its rate exactly when the complete history of the
      last WINDOW_MS already holds `rpmLimit` requests. */
  lemma RpmVerdict(cfg: Config, c: int, at: int, es: seq<Event>, model: string, est: int, now: int)
    requires Legal(cfg, Start(at), es, c) && Run(cfg, Start(at), es).clock <= now
    requires 1 <= cfg.rpmLimit <= TRIM_TO
    ensures var w := Run(cfg, Start(at), es);
            var d := Checked(w.ledger, cfg, model, est, now).1;
            !d.NotWhitelisted? && !d.OverBudget? ==>
              (d.OverRpm? <==> |InWindow(w.times, now)| >= cfg.rpmLimit)
  {
    hide Run, Legal, Live, InWindow;
    TailRun(cfg, c, at, es);
    var w := Run(cfg, Start(at), es);
    VerdictExact(w.ledger.requests, w.times, w.clock, TRIM_TO, now, cfg.rpmLimit);
    WindowIsLive(w.times, now);
  }

  /** For a history that ends by `now`, what is live is what lies in the window ending now. */
  lemma {:induction false} WindowIsLive(times: seq<int>, now: int)
    requires forall t :: t in times ==> t <= now
    ensures InWindow(times, now) == Live(times, now)
  {
    if times != [] {
      var init := times[..|times| - 1];
      forall t | t in init ensures t <= now {
        assert t in times;
      }
      WindowIsLive(init, now);
    }
  }

  /** The retry hint of a rate refusal: no stored request expires earlier, and one has expired by
      then (the hint is never below one second). */
  lemma RetryHint(l: Ledger, cfg: Config, model: string, est: int, now: int, t: int)
    requires Sorted(l.requests) && Checked(l, cfg, model, est, now).1.OverRpm? && cfg.rpmLimit >= 1
    requires forall x :: x in l.requests ==> x <= now
    ensures var r := Checked(l, cfg, model, est, now);
            && (t >= now + r.1.retryMs ==> |Live(r.0.requests, t)| < |r.0.requests|)
            && (now <= t < now + r.1.retryMs && r.1.retryMs > 1000 ==> Live(r.0.requests, t) == r.0.requests)
  {
    var k := LiveSplit(l.requests, now);
    var kept := Live(l.requests, now);
    assert kept == l.requests[k..] && Checked(l, cfg, model, est, now).0.requests == kept;
    assert Sorted(kept);
    var j := LiveSplit(kept, t);
  }

  // ---------------------------------------------------------------- where the promise breaks

  function Zeros(n: nat): seq<int> { seq(n, _ => 0) }

  function RpmOnly(limit: int): Config { Config(0.0, limit, 0, [], Lifetime) }

  /** Everything so far happened at time 0. */
  ghost predicate AtZero(w: World, stored: nat, recorded: nat, open: nat) {
    w.ledger.requests == Zeros(stored) && w.times == Zeros(recorded) && w.clock == 0 && w.open == open
  }

  /** `es` is a run within bound `c`, all at time 0, that leaves these counts behind. */
  ghost predicate Burst(limit: int, c: int, es: seq<Event>, stored: nat, recorded: nat, open: nat) {
    Legal(RpmOnly(limit), Start(0), es, c) && AtZero(Run(RpmOnly(limit), Start(0), es), stored, recorded, open)
  }

  lemma LiveZeros(n: nat)
    ensures Live(Zeros(n), 0) == Zeros(n)
    ensures InWindow(Zeros(n), 0) == Zeros(n)
  {
    FilterAll(LiveAt(0), Zeros(n));
    FilterAll(Within(0), Zeros(n));
  }

  lemma Extend(cfg: Config, w: World, es: seq<Event>, e: Event, c: int)
    requires Legal(cfg, w, es, c) && Allows(cfg, Run(cfg, w, es), e, c)
    ensures Legal(cfg, w, es + [e], c) && Run(cfg, w, es + [e]) == Step(cfg, Run(cfg, w, es), e)
  {
    assert (es + [e])[..|es + [e]| - 1] == es;
  }

  function StoredNext(stored: nat): nat {
    if stored + 1 > TRIM_ABOVE then TRIM_TO else stored + 1
  }

  function StoredAfter(stored: nat, n: nat): nat {
    if n == 0 then stored else StoredNext(StoredAfter(stored, n - 1))
  }

  lemma RecordAtZero(limit: int, w: World, stored: nat, recorded: nat, open: nat)
    requires AtZero(w, stored, recorded, open) && open > 0
    ensures AtZero(Step(RpmOnly(limit), w, Record(0, 0.0, 0)), StoredNext(stored), recorded + 1, open - 1)
  {
    assert Zeros(stored) + [0] == Zeros(stored + 1);
    assert Zeros(recorded) + [0] == Zeros(recorded + 1);
    if stored + 1 > TRIM_ABOVE { assert Trim(Zeros(stored + 1)) == Zeros(TRIM_TO); }
  }

  lemma AdmitOne(limit: int, c: int, es: seq<Event>, stored: nat, recorded: nat, open: nat) returns (r: seq<Event>)
    requires Burst(limit, c, es, stored, recorded, open) && stored < limit && open < c
    ensures Burst(limit, c, r, stored, recorded, open + 1)
  {
    hide Run, Legal;
    r := es + [Check("", 0, 0)];
    LiveZeros(stored);
    Extend(RpmOnly(limit), Start(0), es, Check("", 0, 0), c);
  }

  lemma FillOne(limit: int, c: int, es: seq<Event>, stored: nat, recorded: nat, open: nat) returns (r: seq<Event>)
    requires Burst(limit, c, es, stored, recorded, open) && 0 < open <= c
    ensures Burst(limit, c, r, StoredNext(stored), recorded + 1, open - 1)
  {
    hide Run, Legal;
    r := es + [Record(0, 0.0, 0)];
    RecordAtZero(limit, Run(RpmOnly(limit), Start(0), es), stored, recorded, open);
    Extend(RpmOnly(limit), Start(0), es, Record(0, 0.0, 0), c);
  }

  /** Appends `n` admitted checks at time 0; the stored window does not move. */
  lemma {:induction false} Admit(limit: int, c: int, es: seq<Event>, n: nat, stored: nat, recorded: nat, open: nat)
    returns (r: seq<Event>)
    requires Burst(limit, c, es, stored, recorded, open) && stored < limit && open + n <= c
    ensures Burst(limit, c, r, stored, recorded, open + n)
  {
    hide Burst;
    r := es;
    if n > 0 {
      r := Admit(limit, c, es, n - 1, stored, recorded, open);
      r := AdmitOne(limit, c, r, stored, recorded, open + n - 1);
    }
  }

  /** Appends `n` records at time 0. */
  lemma {:induction false} Fill(limit: int, c: int, es: seq<Event>, n: nat, stored: nat, recorded: nat, open: nat)
    returns (r: seq<Event>)
    requires Burst(limit, c, es, stored, recorded, open) && n <= open <= c
    ensures Burst(limit, c, r, StoredAfter(stored, n), recorded + n, open - n)
  {
    hide Burst;
    r := es;
    if n > 0 {
      r := Fill(limit, c, es, n - 1, stored, recorded, open);
      r := FillOne(limit, c, r, StoredAfter(stored, n - 1), recorded + n - 1, open - n + 1);
    }
  }

  lemma {:induction false} StoredBelow(stored: nat, n: nat)
    requires stored <= TRIM_ABOVE
    ensures StoredAfter(stored, n) <= TRIM_ABOVE
    ensures stored + n <= TRIM_ABOVE ==> StoredAfter(stored, n) == stored + n
    ensures stored + n == TRIM_ABOVE + 1 ==> StoredAfter(stored, n) == TRIM_TO
  {
    if n > 0 { StoredBelow(stored, n - 1); }
  }

  lemma BurstStart(limit: int, c: int)
    ensures Burst(limit, c, [], 0, 0, 0)
  {
  }

  /** `n` requests, each checked and recorded before the next one arrives. */
  lemma {:induction false} OneByOne(limit: int, c: int, n: nat) returns (r: seq<Event>)
    requires c >= 1 && (n <= limit <= TRIM_ABOVE || limit > TRIM_ABOVE)
    ensures Burst(limit, c, r, StoredAfter(0, n), n, 0)
  {
    hide Burst;
    r := [];
    BurstStart(limit, c);
    if n > 0 {
      r := OneByOne(limit, c, n - 1);
      StoredBelow(0, n - 1);
      r := AdmitOne(limit, c, r, StoredAfter(0, n - 1), n - 1, 0);
      r := FillOne(limit, c, r, StoredAfter(0, n - 1), n - 1, 1);
    }
  }

  lemma BurstCount(limit: int, c: int, es: seq<Event>, stored: nat, recorded: nat, open: nat)
    requires Burst(limit, c, es, stored, recorded, open)
    ensures Legal(RpmOnly(limit), Start(0), es, c)
    ensures |InWindow(Run(RpmOnly(limit), Start(0), es).times, 0)| == recorded
  {
    hide Run, Legal;
    LiveZeros(recorded);
  }

  /** Outside the condition there is a run that puts limit + c requests into one instant: fill
      the window until it is trimmed, then use the room the trimming left. */
  lemma RateOverrun(limit: int, c: int) returns (es: seq<Event>)
    requires limit >= 1 && c >= 1 && !Enforceable(limit, c)
    ensures Legal(RpmOnly(limit), Start(0), es, c)
    ensures |InWindow(Run(RpmOnly(limit), Start(0), es).times, 0)| == limit + c
  {
    hide Burst, Legal, Run, StoredAfter;
    if limit > TRIM_ABOVE {
      es := OneByOne(limit, c, limit + c);
      BurstCount(limit, c, es, StoredAfter(0, limit + c), limit + c, 0);
    } else {
      var n := TRIM_ABOVE + 2 - limit;
      es := OneByOne(limit, c, limit - 1);
      StoredBelow(0, limit - 1);
      es := Admit(limit, c, es, c, limit - 1, limit - 1, 0);
      es := Fill(limit, c, es, n, limit - 1, limit - 1, c);
      StoredBelow(limit - 1, n);
      es := AdmitOne(limit, c, es, TRIM_TO, TRIM_ABOVE + 1, c - n);
      es := Fill(limit, c, es, c - n + 1, TRIM_TO, TRIM_ABOVE + 1, c - n + 1);
      BurstCount(limit, c, es, StoredAfter(TRIM_TO, c - n + 1), limit + c, 0);
    }
  }

  /** The limiter's promise holds for all runs exactly when the limit is at most TRIM_TO or the
      window never grows past TRIM_ABOVE; both are visible in the configuration. */
  lemma RateSafetyExactly(limit: int, c: int)
    requires limit >= 1 && c >= 1
    ensures AlwaysRateSafe(limit, c) <==> Enforceable(limit, c)
  {
    hide Run, Legal;
    if Enforceable(limit, c) {
      RateSafety(limit, c);
    } else {
      var es := RateOverrun(limit, c);
      assert !RateSafe(Run(RpmOnly(limit), Start(0), es).times, limit - 1 + c);
    }
  }

  /** The bound is attained: limit - 1 requests one by one, then `c` at once. */
  lemma RateBoundTight(limit: int, c: int) returns (es: seq<Event>)
    requires limit >= 1 && c >= 1 && Enforceable(limit, c)
    ensures Legal(RpmOnly(limit), Start(0), es, c)
    ensures |InWindow(Run(RpmOnly(limit), Start(0), es).times, 0)| == limit - 1 + c
  {
    hide Burst, Legal, Run;
    es := OneByOne(limit, c, limit - 1);
    StoredBelow(0, limit - 1);
    es := Admit(limit, c, es, c, limit - 1, limit - 1, 0);
    es := Fill(limit, c, es, c, limit - 1, limit - 1, c);
    BurstCount(limit, c, es, StoredAfter(limit - 1, c), limit - 1 + c, 0);
  }

  // ---------------------------------------------------------------- spend

  ghost function Costs(es: seq<Event>): real {
    if es == [] then 0.0
    else
      var e := es[|es| - 1];
      Costs(es[..|es| - 1]) + if e.Record? then e.cost else 0.0
  }

  /** No spend is lost or counted twice: the lifetime total is the sum over all records, and the
      period total is the sum over the records since its last reset. */
  lemma {:induction false} SpendConserved(cfg: Config, at: int, es: seq<Event>) returns (k: nat)
    ensures k <= |es| && Run(cfg, Start(at), es).ledger.totalSpend == Costs(es)
    ensures Run(cfg, Start(at), es).ledger.periodSpend == Costs(es) - Costs(es[..k])
    ensures Run(cfg, Start(at), es).ledger.periodStart == if k == 0 then at else es[k - 1].at
  {
    if es == [] {
      k := 0;
    } else {
      var init, e := es[..|es| - 1], es[|es| - 1];
      k := SpendConserved(cfg, at, init);
      assert init[..k] == es[..k];
      var before, after := Run(cfg, Start(at), init).ledger, Run(cfg, Start(at), es).ledger;
      if e.Check? {
        CheckSpend(before, cfg, e.model, e.est, e.at);
        if after.periodStart != before.periodStart || after.periodSpend != before.periodSpend {
          k := |es|;
          assert es[..k] == es;
        }
      }
    }
  }

  lemma CheckSpend(l: Ledger, cfg: Config, model: string, est: int, now: int)
    ensures var l' := Checked(l, cfg, model, est, now).0;
            && l'.totalSpend == l.totalSpend
            && ((l'.periodSpend == l.periodSpend && l'.periodStart == l.periodStart) ||
                (l'.periodSpend == 0.0 && l'.periodStart == now))
  {
    hide Live, LiveUsage, TokenSum;
  }

  // ---------------------------------------------------------------- the code

  /** The state object the source keeps for one key. */
  class KeyState {
    var requests: seq<int>
    var tokens: seq<Usage>
    var totalSpend: real
    var periodSpend: real
    var periodStart: int
    var config: Config

    ghost function View(): Ledger
      reads this
    {
      Ledger(requests, tokens, totalSpend, periodSpend, periodStart)
    }

    constructor (config: Config, now: int)
      ensures View() == Start(now).ledger && this.config == config
    {
      requests, tokens, totalSpend, periodSpend, periodStart := [], [], 0.0, 0.0, now;
      this.config := config;
    }

    method Check(model: string, estimatedTokens: int, now: int) returns (d: Decision)
      modifies this
      ensures (View(), d) == Checked(old(View()), config, model, estimatedTokens, now)
      ensures config == old(config)
    {
      hide RateChecked;
      if |config.whitelist| > 0 && model != "" {
        if model !in config.whitelist && "*" !in config.whitelist {
          return NotWhitelisted;
        }
      }
      if config.maxBudget > 0.0 {
        var period := PeriodMs(config.period);
        if period.Some? && now - periodStart > period.value {
          periodSpend := 0.0;
          periodStart := now;
        }
        if periodSpend >= config.maxBudget {
          return OverBudget(if period.None? then 0 else period.value - (now - periodStart));
        }
      }
      d := CheckRates(estimatedTokens, now);
    }

    /** The sliding-window half of Check. */
    method CheckRates(estimatedTokens: int, now: int) returns (d: Decision)
      modifies this
      ensures (View(), d) == RateChecked(old(View()), config, estimatedTokens, now)
      ensures config == old(config)
    {
      hide Filter, TokenSum;
      if config.rpmLimit > 0 {
        requests := Live(requests, now);
        if |requests| >= config.rpmLimit {
          var oldest := requests[0];
          return OverRpm(Max(1000, WINDOW_MS - (now - oldest)));
        }
      }
      if config.tpmLimit > 0 && estimatedTokens > 0 {
        tokens := LiveUsage(tokens, now);
        var currentTpm := TokenSum(tokens);
        if currentTpm + estimatedTokens > config.tpmLimit {
          return OverTpm(5000);
        }
      }
      return Allowed;
    }

    method Record(tokensUsed: int, cost: real, now: int)
      modifies this
      ensures View() == Recorded(old(View()), tokensUsed, cost, now)
      ensures config == old(config)
    {
      requests := requests + [now];
      if tokensUsed > 0 { tokens := tokens + [Usage(now, tokensUsed)]; }
      totalSpend := totalSpend + cost;
      periodSpend := periodSpend + cost;
      if |requests| > TRIM_ABOVE { requests := requests[|requests| - TRIM_TO..]; }
      if |tokens| > TRIM_ABOVE { tokens := tokens[|tokens| - TRIM_TO..]; }
    }
  }

  /** The module-level table of tracked keys. */
  class KeyBudgets {
    var keyStates: map<string, KeyState>

    ghost predicate Valid()
      reads this
    {
      && "" !in keyStates
      && forall a, b :: a in keyStates && b in keyStates && keyStates[a] == keyStates[b] ==> a == b
    }

    ghost function Ledgers(): map<string, Ledger>
      reads this, keyStates.Values
    {
      map k | k in keyStates :: keyStates[k].View()
    }

    constructor ()
      ensures Valid() && keyStates == map[]
    {
      keyStates := map[];
    }

    method SetKeyBudget(apiKey: string, config: Config, now: int)
      requires Valid()
      modifies this, keyStates.Values
      ensures Valid()
      ensures apiKey == "" ==> Ledgers() == old(Ledgers())
      ensures apiKey != "" ==> apiKey in keyStates && keyStates[apiKey].config == config
      ensures apiKey != "" ==>
                Ledgers() == if apiKey in old(keyStates) then old(Ledgers())
                             else old(Ledgers())[apiKey := Start(now).ledger]
    {
      if apiKey == "" { return; }
      if apiKey in keyStates {
        keyStates[apiKey].config := config;
      } else {
        var state := new KeyState(config, now);
        keyStates := keyStates[apiKey := state];
      }
    }

    method RemoveKeyBudget(apiKey: string)
      requires Valid()
      modifies this
      ensures Valid() && Ledgers() == old(Ledgers()) - {apiKey}
    {
      keyStates := keyStates - {apiKey};
    }

    /** A key without a state is unlimited. */
    method CheckKeyBudget(apiKey: string, model: string, estimatedTokens: int, now: int) returns (d: Decision)
      requires Valid()
      modifies keyStates.Values
      ensures Valid()
      ensures apiKey !in keyStates ==> d == Allowed && Ledgers() == old(Ledgers())
      ensures apiKey in keyStates ==>
                var r := Checked(old(Ledgers())[apiKey], old(keyStates[apiKey].config), model, estimatedTokens, now);
                d == r.1 && Ledgers() == old(Ledgers())[apiKey := r.0]
    {
      if apiKey !in keyStates { return Allowed; }
      d := keyStates[apiKey].Check(model, estimatedTokens, now);
    }

    method RecordKeyUsage(apiKey: string, tokensUsed: int, cost: real, now: int)
      requires Valid()
      modifies keyStates.Values
      ensures Valid()
      ensures Ledgers() == if apiKey in keyStates
                           then old(Ledgers())[apiKey := Recorded(old(Ledgers())[apiKey], tokensUsed, cost, now)]
                           else old(Ledgers())
    {
      if apiKey !in keyStates { return; }
      keyStates[apiKey].Record(tokensUsed, cost, now);
    }
  }
}
