/** The 429/403 monitor of open-sse/services/oauthAntiBan.js.

    `RecordError` and its siblings say what one call does to the table. The results compare the
    table with an observer who remembers, per entry, every error since the entry was created. */
module ErrorMonitor {
  import opened Basics
  import opened Eviction

  datatype Config = Config(enabled: bool, trackerMax: int, errorWindowMs: nat, minSampleSize: int,
                           cooldownThreshold: real, alertThreshold: real, coolDownMs: nat, alertDedupMs: int)

  datatype Seen = Seen(at: int, status: int)

  datatype Stats = Stats(window: seq<Seen>, coolUntil: int, lastAlerted: int, total: int, errors: int)

  /** `order` lists the keys of `stats`, oldest first. */
  datatype Table = Table(order: seq<string>, stats: map<string, Stats>)

  const NEW_STATS := Stats([], 0, 0, 0, 0)

  // ---------------------------------------------------------------- one call

  /** The keys that may be evicted at time `now`. */
  function NotCooling(t: Table, now: int): set<string> {
    set k | k in t.stats && t.stats[k].coolUntil <= now
  }

  function Restrict(stats: map<string, Stats>, order: seq<string>): map<string, Stats> {
    map k | k in order && k in stats :: stats[k]
  }

  /** The table after `ensureErrorEntry`: a new entry may be the one that is evicted. */
  function Ensured(t: Table, cfg: Config, key: string, now: int): Table {
    if key in t.stats then t
    else
      var added := Table(t.order + [key], t.stats[key := NEW_STATS]);
      var order := Evicted(added.order, NotCooling(added, now), cfg.trackerMax);
      Table(order, Restrict(added.stats, order))
  }

  function Pruned(window: seq<Seen>, horizon: int): seq<Seen> {
    if window != [] && window[0].at < horizon then Pruned(window[1..], horizon) else window
  }

  function Rate(sample: int, total: int): real { sample as real / Max(1, total) as real }

  /** An entry after one more error at time `now`. */
  function WithError(s: Stats, cfg: Config, status: int, now: int): Stats {
    var window := Pruned(s.window, now - cfg.errorWindowMs) + [Seen(now, status)];
    var rate := Rate(|window|, s.total + 1);
    var counts := |window| >= cfg.minSampleSize;
    Stats(window,
          if counts && rate > cfg.cooldownThreshold then now + cfg.coolDownMs else s.coolUntil,
          if counts && rate > cfg.alertThreshold && now - s.lastAlerted > cfg.alertDedupMs then now else s.lastAlerted,
          s.total + 1, s.errors + 1)
  }

  predicate Watched(status: int) { status == 429 || status == 403 }

  /** `evictAt` and `now` are the two clock readings of the call. An entry that was evicted while it
      was being created takes the update with it. */
  function RecordError(t: Table, cfg: Config, key: string, status: int, evictAt: int, now: int): Table {
    if !cfg.enabled || key == "" || !Watched(status) then t
    else
      var e := Ensured(t, cfg, key, evictAt);
      if key in e.stats then e.(stats := e.stats[key := WithError(e.stats[key], cfg, status, now)]) else e
  }

  function RecordSuccess(t: Table, cfg: Config, key: string, evictAt: int): Table {
    if !cfg.enabled || key == "" then t
    else
      var e := Ensured(t, cfg, key, evictAt);
      if key in e.stats then e.(stats := e.stats[key := e.stats[key].(total := e.stats[key].total + 1)]) else e
  }

  function Cleared(t: Table, key: string): Table {
    if key == "" || key !in t.stats then t
    else
      var order := Filter(OtherThan(key), t.order);
      Table(order, t.stats - {key})
  }

  function OtherThan(key: string): string -> bool { (k: string) => k != key }

  /** The dashboard snapshot prunes every window. */
  function Snapshot(t: Table, cfg: Config, now: int): Table {
    t.(stats := map k | k in t.stats :: t.stats[k].(window := Pruned(t.stats[k].window, now - cfg.errorWindowMs)))
  }

  // ---------------------------------------------------------------- runs

  datatype Event =
    | Error(key: string, status: int, evictAt: int, at: int)
    | Success(key: string, at: int)
    | Clear(key: string, at: int)
    | Look(at: int)

  /** The table and what the observer remembers: per entry, the errors since its creation. */
  datatype World = World(table: Table, history: map<string, seq<Seen>>, clock: int)

  function Apply(t: Table, cfg: Config, e: Event): Table {
    match e
    case Error(key, status, evictAt, at) => RecordError(t, cfg, key, status, evictAt, at)
    case Success(key, at) => RecordSuccess(t, cfg, key, at)
    case Clear(key, at) => Cleared(t, key)
    case Look(at) => Snapshot(t, cfg, at)
  }

  /** What the observer adds: an entry that exists afterwards keeps its past, a new one starts empty,
      and a watched error of an enabled monitor is noted. */
  function Remember(w: World, cfg: Config, e: Event): map<string, seq<Seen>> {
    var t := Apply(w.table, cfg, e);
    map k | k in t.stats :: if IsNoted(cfg, e, k) then Past(w, k) + [Seen(e.at, e.status)] else Past(w, k)
  }

  predicate IsNoted(cfg: Config, e: Event, key: string) {
    e.Error? && cfg.enabled && key == e.key && key != "" && Watched(e.status)
  }

  /** The errors of an account since its entry was created. */
  function Past(w: World, key: string): seq<Seen> { if key in w.history then w.history[key] else [] }

  function Was(w: World, key: string): Stats { if key in w.table.stats then w.table.stats[key] else NEW_STATS }

  function Step(w: World, cfg: Config, e: Event): World {
    World(Apply(w.table, cfg, e), Remember(w, cfg, e), e.at)
  }

  function Run(cfg: Config, at: int, es: seq<Event>): World {
    if es == [] then World(Table([], map[]), map[], at) else Step(Run(cfg, at, es[..|es| - 1]), cfg, es[|es| - 1])
  }

  ghost predicate Legal(cfg: Config, at: int, es: seq<Event>) {
    if es == [] then at >= 0
    else
      && Legal(cfg, at, es[..|es| - 1])
      && Run(cfg, at, es[..|es| - 1]).clock <= es[|es| - 1].at
      && (es[|es| - 1].Error? ==> Run(cfg, at, es[..|es| - 1]).clock <= es[|es| - 1].evictAt <= es[|es| - 1].at)
  }

  // ---------------------------------------------------------------- the window

  function Since(horizon: int): Seen -> bool { (s: Seen) => s.at >= horizon }

  ghost predicate InOrder(h: seq<Seen>, clock: int) {
    && (forall i, j :: 0 <= i <= j < |h| ==> h[i].at <= h[j].at)
    && (forall i :: 0 <= i < |h| ==> h[i].at <= clock)
  }

  /** What is stored is the end of the history; what is not is out of the window. */
  ghost predicate Stored(window: seq<Seen>, h: seq<Seen>, horizon: int) {
    && |window| <= |h| && window == h[|h| - |window|..]
    && forall i :: 0 <= i < |h| - |window| ==> h[i].at < horizon
  }

  lemma {:induction false} PruneStored(window: seq<Seen>, h: seq<Seen>, horizon: int)
    requires Stored(window, h, horizon)
    ensures Stored(Pruned(window, horizon), h, horizon)
  {
    if window != [] && window[0].at < horizon {
      assert window[1..] == h[|h| - |window| + 1..];
      PruneStored(window[1..], h, horizon);
    }
  }

  lemma {:induction false} PrunedHead(window: seq<Seen>, horizon: int)
    ensures Pruned(window, horizon) == [] || Pruned(window, horizon)[0].at >= horizon
  {
    if window != [] && window[0].at < horizon { PrunedHead(window[1..], horizon); }
  }

  lemma StoredLater(window: seq<Seen>, h: seq<Seen>, horizon: int, later: int)
    requires Stored(window, h, horizon) && horizon <= later
    ensures Stored(window, h, later)
  {
  }

  /** A pruned window is exactly the part of the history inside the window. */
  lemma PrunedExact(window: seq<Seen>, h: seq<Seen>, clock: int, horizon: int)
    requires Stored(window, h, horizon) && InOrder(h, clock)
    ensures Pruned(window, horizon) == Filter(Since(horizon), h)
  {
    hide Filter;
    PruneStored(window, h, horizon);
    PrunedHead(window, horizon);
    var p := Pruned(window, horizon);
    var k := |h| - |p|;
    assert h == h[..k] + h[k..];
    FilterConcat(Since(horizon), h[..k], h[k..]);
    FilterNone(Since(horizon), h[..k]);
    FilterAll(Since(horizon), h[k..]);
    assert [] + h[k..] == h[k..];
  }

  // ---------------------------------------------------------------- the invariant

  ghost predicate EntryOk(s: Stats, h: seq<Seen>, cfg: Config, clock: int) {
    && InOrder(h, clock)
    && Stored(s.window, h, clock - cfg.errorWindowMs)
    && |s.window| <= s.errors == |h| <= s.total
    && s.coolUntil <= clock + cfg.coolDownMs
  }

  ghost predicate TableOk(t: Table, cfg: Config) {
    && Distinct(t.order)
    && (forall k :: k in t.order <==> k in t.stats)
    && (cfg.trackerMax > 0 ==> |t.order| <= cfg.trackerMax)
  }

  ghost predicate Inv(w: World, cfg: Config) {
    && w.clock >= 0
    && TableOk(w.table, cfg)
    && w.history.Keys == w.table.stats.Keys
    && forall k :: k in w.table.stats ==> EntryOk(w.table.stats[k], w.history[k], cfg, w.clock)
  }

  /** Adding an entry: the table stays within its limit, no cooling entry goes, the other entries
      are untouched, and the new entry stays exactly when there was room or an older entry is not
      cooling. */
  lemma EnsureKeeps(t: Table, cfg: Config, key: string, now: int)
    requires TableOk(t, cfg) && now >= 0
    ensures var e := Ensured(t, cfg, key, now);
            && TableOk(e, cfg)
            && (forall k :: k in t.stats && t.stats[k].coolUntil > now ==> k in e.stats)
            && (forall k :: k in e.stats ==>
                  if k in t.stats then e.stats[k] == t.stats[k] else k == key && e.stats[k] == NEW_STATS)
            && (key in e.stats <==> key in t.stats || cfg.trackerMax <= 0 || |t.order| < cfg.trackerMax
                                    || exists k :: k in t.order && k in NotCooling(t, now))
  {
    hide Evicted, Distinct;
    if key !in t.stats {
      var added := Table(t.order + [key], t.stats[key := NEW_STATS]);
      assert NotCooling(added, now) == NotCooling(t, now) + {key};
      AddThenEvict(t.order, NotCooling(t, now), cfg.trackerMax, key);
    }
  }

  lemma StoredSnoc(window: seq<Seen>, h: seq<Seen>, horizon: int, e: Seen)
    requires Stored(window, h, horizon)
    ensures Stored(window + [e], h + [e], horizon)
  {
    assert (h + [e])[|h| - |window|..] == h[|h| - |window|..] + [e];
  }

  lemma InOrderSnoc(h: seq<Seen>, clock: int, e: Seen)
    requires InOrder(h, clock) && clock <= e.at
    ensures InOrder(h + [e], e.at)
  {
  }

  /** One more error: the window becomes the errors of the last `errorWindowMs`. */
  lemma WindowAfterError(window: seq<Seen>, h: seq<Seen>, clock: int, horizon: int, e: Seen)
    requires Stored(window, h, horizon) && InOrder(h, clock) && clock <= e.at && horizon <= e.at
    ensures var w := Pruned(window, horizon) + [e];
            && InOrder(h + [e], e.at)
            && Stored(w, h + [e], horizon)
            && w == Filter(Since(horizon), h + [e])
  {
    PruneStored(window, h, horizon);
    StoredSnoc(Pruned(window, horizon), h, horizon, e);
    InOrderSnoc(h, clock, e);
    hide Filter, Pruned, Stored, InOrder;
    PrunedExact(window, h, clock, horizon);
    FilterConcat(Since(horizon), h, [e]);
    FilterAll(Since(horizon), [e]);
  }

  lemma ErrorKeeps(s: Stats, h: seq<Seen>, cfg: Config, clock: int, status: int, now: int)
    requires EntryOk(s, h, cfg, clock) && clock <= now
    ensures EntryOk(WithError(s, cfg, status, now), h + [Seen(now, status)], cfg, now)
    ensures WithError(s, cfg, status, now).window == Filter(Since(now - cfg.errorWindowMs), h + [Seen(now, status)])
    ensures WithError(s, cfg, status, now).coolUntil >= s.coolUntil
  {
    hide Filter, Pruned, InOrder, Stored, Rate;
    var horizon := now - cfg.errorWindowMs;
    StoredLater(s.window, h, clock - cfg.errorWindowMs, horizon);
    WindowAfterError(s.window, h, clock, horizon, Seen(now, status));
    PrunedShorter(s.window, horizon);
  }

  lemma {:induction false} PrunedShorter(window: seq<Seen>, horizon: int)
    ensures |Pruned(window, horizon)| <= |window|
  {
    if window != [] && window[0].at < horizon { PrunedShorter(window[1..], horizon); }
  }

  lemma InOrderLater(h: seq<Seen>, clock: int, later: int)
    requires InOrder(h, clock) && clock <= later
    ensures InOrder(h, later)
  {
  }

  lemma QuietKeeps(s: Stats, h: seq<Seen>, cfg: Config, clock: int, now: int)
    requires EntryOk(s, h, cfg, clock) && clock <= now
    ensures EntryOk(s, h, cfg, now)
    ensures EntryOk(s.(total := s.total + 1), h, cfg, now)
    ensures EntryOk(s.(window := Pruned(s.window, now - cfg.errorWindowMs)), h, cfg, now)
  {
    InOrderLater(h, clock, now);
    hide Pruned, Stored, InOrder;
    StoredLater(s.window, h, clock - cfg.errorWindowMs, now - cfg.errorWindowMs);
    PruneStored(s.window, h, now - cfg.errorWindowMs);
    PrunedShorter(s.window, now - cfg.errorWindowMs);
  }

  lemma {:induction false} ClearKeeps(t: Table, cfg: Config, key: string)
    requires TableOk(t, cfg)
    ensures TableOk(Cleared(t, key), cfg)
    ensures Cleared(t, key).stats == if key == "" then t.stats else t.stats - {key}
  {
    hide Filter;
    if key != "" && key in t.stats {
      FilterKeys(t.order, key);
    }
  }

  lemma {:induction false} FilterKeys(order: seq<string>, key: string)
    requires Distinct(order)
    ensures Distinct(Filter(OtherThan(key), order))
    ensures forall k :: k in Filter(OtherThan(key), order) <==> k in order && k != key
  {
    if order != [] {
      var init, last := order[..|order| - 1], order[|order| - 1];
      FilterKeys(init, key);
      assert order == init + [last];
      if last != key {
        var r := Filter(OtherThan(key), init);
        assert Filter(OtherThan(key), order) == r + [last];
        assert last !in r;
      }
    }
  }

  // ---------------------------------------------------------------- every run

  lemma InvError(w: World, cfg: Config, key: string, status: int, evictAt: int, at: int)
    requires Inv(w, cfg) && w.clock <= evictAt <= at
    ensures Inv(Step(w, cfg, Error(key, status, evictAt, at)), cfg)
  {
    hide EntryOk, Distinct, Ensured, WithError;
    var e := Error(key, status, evictAt, at);
    EnsureKeeps(w.table, cfg, key, evictAt);
    var t := Apply(w.table, cfg, e);
    var w' := Step(w, cfg, e);
    forall k | k in t.stats ensures EntryOk(t.stats[k], w'.history[k], cfg, at) {
      EntryAfterError(w, cfg, key, status, evictAt, at, k);
    }
  }

  lemma NewEntryOk(cfg: Config, clock: int)
    requires clock >= 0
    ensures EntryOk(NEW_STATS, [], cfg, clock)
  {
  }

  lemma WasOk(w: World, cfg: Config, key: string)
    requires Inv(w, cfg)
    ensures EntryOk(Was(w, key), Past(w, key), cfg, w.clock)
  {
    hide EntryOk, TableOk;
    NewEntryOk(cfg, w.clock);
  }

  lemma EntryAfterError(w: World, cfg: Config, key: string, status: int, evictAt: int, at: int, k: string)
    requires Inv(w, cfg) && w.clock <= evictAt <= at
    requires k in Step(w, cfg, Error(key, status, evictAt, at)).table.stats
    ensures var w' := Step(w, cfg, Error(key, status, evictAt, at));
            EntryOk(w'.table.stats[k], w'.history[k], cfg, at)
  {
    hide Ensured, WithError, Distinct, EntryOk;
    EnsureKeeps(w.table, cfg, key, evictAt);
    var past := Past(w, k);
    var was := Was(w, k);
    WasOk(w, cfg, k);
    ErrorKeeps(was, past, cfg, w.clock, status, at);
    QuietKeeps(was, past, cfg, w.clock, at);
  }

  lemma InvSuccess(w: World, cfg: Config, key: string, at: int)
    requires Inv(w, cfg) && w.clock <= at
    ensures Inv(Step(w, cfg, Success(key, at)), cfg)
  {
    hide EntryOk, Distinct, Ensured;
    var e := Success(key, at);
    EnsureKeeps(w.table, cfg, key, at);
    var t := Apply(w.table, cfg, e);
    var w' := Step(w, cfg, e);
    forall k | k in t.stats ensures EntryOk(t.stats[k], w'.history[k], cfg, at) {
      var past := Past(w, k);
      var was := Was(w, k);
      WasOk(w, cfg, k);
      QuietKeeps(was, past, cfg, w.clock, at);
    }
  }

  lemma InvClear(w: World, cfg: Config, key: string, at: int)
    requires Inv(w, cfg) && w.clock <= at
    ensures Inv(Step(w, cfg, Clear(key, at)), cfg)
  {
    hide EntryOk, TableOk, Cleared;
    ClearKeeps(w.table, cfg, key);
    InvQuiet(w, cfg, at);
  }

  lemma InvLook(w: World, cfg: Config, at: int)
    requires Inv(w, cfg) && w.clock <= at
    ensures Inv(Step(w, cfg, Look(at)), cfg)
  {
    hide EntryOk, Distinct, Pruned;
    InvQuiet(w, cfg, at);
  }

  lemma InvStep(w: World, cfg: Config, e: Event)
    requires Inv(w, cfg) && w.clock <= e.at && (e.Error? ==> w.clock <= e.evictAt <= e.at)
    ensures Inv(Step(w, cfg, e), cfg)
  {
    hide Inv, Step;
    match e
    case Error(key, status, evictAt, at) => InvError(w, cfg, key, status, evictAt, at);
    case Success(key, at) => InvSuccess(w, cfg, key, at);
    case Clear(key, at) => InvClear(w, cfg, key, at);
    case Look(at) => InvLook(w, cfg, at);
  }

  lemma InvQuiet(w: World, cfg: Config, at: int)
    requires Inv(w, cfg) && w.clock <= at
    ensures forall k :: k in w.table.stats ==>
              && EntryOk(w.table.stats[k], w.history[k], cfg, at)
              && EntryOk(w.table.stats[k].(window := Pruned(w.table.stats[k].window, at - cfg.errorWindowMs)),
                w.history[k], cfg, at)
  {
    hide EntryOk, TableOk;
    forall k | k in w.table.stats
      ensures EntryOk(w.table.stats[k], w.history[k], cfg, at)
      ensures EntryOk(w.table.stats[k].(window := Pruned(w.table.stats[k].window, at - cfg.errorWindowMs)),
                w.history[k], cfg, at)
    {
      QuietKeeps(w.table.stats[k], w.history[k], cfg, w.clock, at);
    }
  }

  lemma {:induction false} InvRun(cfg: Config, at: int, es: seq<Event>)
    requires Legal(cfg, at, es)
    ensures Inv(Run(cfg, at, es), cfg)
  {
    if es != [] {
      hide Inv, Step;
      InvRun(cfg, at, es[..|es| - 1]);
      InvStep(Run(cfg, at, es[..|es| - 1]), cfg, es[|es| - 1]);
    }
  }

  // ---------------------------------------------------------------- what every run promises

  /** In every reachable state the table is within its limit, each stored window is the end of the
      entry's error history, only errors that have left the window are missing from it, and the
      counters bound it. */
  lemma TableBounded(cfg: Config, at: int, es: seq<Event>)
    requires Legal(cfg, at, es)
    ensures var w := Run(cfg, at, es);
            && w.history.Keys == w.table.stats.Keys
            && (cfg.trackerMax > 0 ==> |w.table.order| <= cfg.trackerMax)
            && forall k :: k in w.table.stats ==>
                 && |w.table.stats[k].window| <= w.table.stats[k].errors <= w.table.stats[k].total
                 && w.table.stats[k].errors == |w.history[k]|
                 && Stored(w.table.stats[k].window, w.history[k], w.clock - cfg.errorWindowMs)
  {
    hide Legal, Run, InOrder, Stored, Distinct;
    InvRun(cfg, at, es);
  }

  /** What a recorded error must leave behind: a window of exactly the errors since the entry was
      created that are no older than the window's length, and a cooldown from now on exactly when
      that window is large enough and its share of all requests is above the threshold. */
  ghost predicate IsExact(w: World, w': World, cfg: Config, key: string, status: int, now: int) {
    key in w'.table.stats && key in w'.history &&
    var entry := w'.table.stats[key];
    var recent := Filter(Since(now - cfg.errorWindowMs), w'.history[key]);
    && w'.history[key] == Past(w, key) + [Seen(now, status)]
    && entry.window == recent
    && entry.total == Was(w, key).total + 1
    && entry.coolUntil == (if |recent| >= cfg.minSampleSize
                              && |recent| as real > cfg.cooldownThreshold * entry.total as real
                           then now + cfg.coolDownMs else Was(w, key).coolUntil)
  }

  /** Every recorded error whose entry survives is exact, whatever was pruned before. */
  lemma WindowExact(cfg: Config, at: int, es: seq<Event>, key: string, status: int, evictAt: int, now: int)
    requires Legal(cfg, at, es + [Error(key, status, evictAt, now)])
    requires cfg.enabled && key != "" && Watched(status)
    requires key in Run(cfg, at, es + [Error(key, status, evictAt, now)]).table.stats
    ensures IsExact(Run(cfg, at, es), Run(cfg, at, es + [Error(key, status, evictAt, now)]), cfg, key, status, now)
  {
    hide IsExact, Inv, Step;
    var last := Error(key, status, evictAt, now);
    assert (es + [last])[..|es|] == es && (es + [last])[|es|] == last;
    InvRun(cfg, at, es);
    ErrorStep(Run(cfg, at, es), cfg, key, status, evictAt, now);
  }

  lemma ErrorStep(w: World, cfg: Config, key: string, status: int, evictAt: int, now: int)
    requires Inv(w, cfg) && w.clock <= evictAt <= now
    requires cfg.enabled && key != "" && Watched(status)
    requires key in Step(w, cfg, Error(key, status, evictAt, now)).table.stats
    ensures IsExact(w, Step(w, cfg, Error(key, status, evictAt, now)), cfg, key, status, now)
  {
    hide Filter, EntryOk, WithError, Step, Inv;
    RecordedEntry(w, cfg, key, status, evictAt, now);
    WasOk(w, cfg, key);
    ErrorKeeps(Was(w, key), Past(w, key), cfg, w.clock, status, now);
    CooldownRule(Was(w, key), Past(w, key), cfg, w.clock, status, now);
  }

  lemma RecordedEntry(w: World, cfg: Config, key: string, status: int, evictAt: int, now: int)
    requires Inv(w, cfg) && w.clock <= evictAt <= now
    requires cfg.enabled && key != "" && Watched(status)
    requires key in Step(w, cfg, Error(key, status, evictAt, now)).table.stats
    ensures var w' := Step(w, cfg, Error(key, status, evictAt, now));
            && w'.table.stats[key] == WithError(Was(w, key), cfg, status, now)
            && key in w'.history && w'.history[key] == Past(w, key) + [Seen(now, status)]
  {
    hide Ensured, WithError, EntryOk, Distinct;
    EnsureKeeps(w.table, cfg, key, evictAt);
  }

  /** The cooldown rule without the division. */
  lemma CooldownRule(s: Stats, h: seq<Seen>, cfg: Config, clock: int, status: int, now: int)
    requires EntryOk(s, h, cfg, clock)
    ensures var s' := WithError(s, cfg, status, now);
            && s'.total == s.total + 1
            && s'.coolUntil == (if |s'.window| >= cfg.minSampleSize
                                   && |s'.window| as real > cfg.cooldownThreshold * s'.total as real
                                then now + cfg.coolDownMs else s.coolUntil)
  {
    hide Pruned, Rate, InOrder, Stored;
    RateAbove(|WithError(s, cfg, status, now).window|, s.total + 1, cfg.cooldownThreshold);
  }

  /** The rate is the share of the entry's requests. */
  lemma RateAbove(sample: int, total: int, threshold: real)
    requires total >= 1
    ensures Rate(sample, total) > threshold <==> sample as real > threshold * total as real
  {
    var t := total as real;
    assert Rate(sample, total) * t == sample as real;
    if Rate(sample, total) > threshold { MulLess(threshold, Rate(sample, total), t); }
    else if Rate(sample, total) < threshold { MulLess(Rate(sample, total), threshold, t); }
  }

  lemma MulLess(a: real, b: real, t: real)
    requires a < b && t > 0.0
    ensures a * t < b * t
  {
    assert (b - a) * t > 0.0;
  }

  /** Whatever comes next, a cooldown is never shortened while the entry lives, and an account that
      is cooling down loses its entry only to an operator who clears it. */
  lemma CoolingStays(cfg: Config, at: int, es: seq<Event>, e: Event, key: string)
    requires Legal(cfg, at, es + [e])
    requires key in Run(cfg, at, es).table.stats
    ensures var t, t' := Run(cfg, at, es).table, Run(cfg, at, es + [e]).table;
            && (key in t'.stats ==> t'.stats[key].coolUntil >= t.stats[key].coolUntil)
            && (key !in t'.stats && t.stats[key].coolUntil > e.at ==> e == Clear(key, e.at))
  {
    assert (es + [e])[..|es|] == es && (es + [e])[|es|] == e;
    InvRun(cfg, at, es);
    StepKeepsCooling(Run(cfg, at, es), cfg, e, key);
  }

  lemma StepKeepsCooling(w: World, cfg: Config, e: Event, key: string)
    requires Inv(w, cfg) && w.clock <= e.at && (e.Error? ==> w.clock <= e.evictAt <= e.at)
    requires key in w.table.stats
    ensures var t' := Step(w, cfg, e).table;
            && (key in t'.stats ==> t'.stats[key].coolUntil >= w.table.stats[key].coolUntil)
            && (key !in t'.stats && w.table.stats[key].coolUntil > e.at ==> e == Clear(key, e.at))
  {
    hide Ensured, WithError, Distinct, EntryOk, Pruned;
    match e
    case Error(k, status, evictAt, at) =>
      EnsureKeeps(w.table, cfg, k, evictAt);
      ErrorKeeps(w.table.stats[key], w.history[key], cfg, w.clock, status, at);
    case Success(k, at) => EnsureKeeps(w.table, cfg, k, at);
    case Clear(k, at) => ClearKeeps(w.table, cfg, k);
    case Look(at) =>
  }

  /** An error is lost, entry and all, exactly when its account is unknown, the table is full and
      every account in it is cooling down. */
  lemma ErrorLost(cfg: Config, at: int, es: seq<Event>, key: string, status: int, evictAt: int, now: int)
    requires Legal(cfg, at, es + [Error(key, status, evictAt, now)])
    requires cfg.enabled && key != "" && Watched(status)
    ensures var t := Run(cfg, at, es).table;
            key !in Run(cfg, at, es + [Error(key, status, evictAt, now)]).table.stats <==>
              && key !in t.stats && 0 < cfg.trackerMax == |t.order|
              && forall k :: k in t.stats ==> t.stats[k].coolUntil > evictAt
  {
    var last := Error(key, status, evictAt, now);
    assert (es + [last])[..|es|] == es && (es + [last])[|es|] == last;
    InvRun(cfg, at, es);
    EnsureKeeps(Run(cfg, at, es).table, cfg, key, evictAt);
    hide Ensured, EntryOk, Distinct, WithError, Legal;
  }

  // ---------------------------------------------------------------- the program

  lemma DroppedKey(stats: map<string, Stats>, order: seq<string>, i: nat)
    requires Distinct(order) && i < |order| && forall k :: k in order <==> k in stats
    ensures Restrict(stats, Without(order, i)) == stats - {order[i]}
    ensures Distinct(Without(order, i))
    ensures forall k :: k in Without(order, i) <==> k in stats - {order[i]}
  {
    WithoutDistinct(order, i);
  }

  lemma RestrictAll(stats: map<string, Stats>, order: seq<string>)
    requires forall k :: k in order <==> k in stats
    ensures Restrict(stats, order) == stats
  {
  }

  datatype Row = Row(recentErrors: nat, totalRequests: int, totalErrors: int, coolingDown: bool, coolUntil: int)

  class Monitor {
    const cfg: Config
    var order: seq<string>
    var stats: map<string, Stats>

    ghost predicate Valid()
      reads this
    {
      Distinct(order) && forall k :: k in order <==> k in stats
    }

    ghost function View(): Table
      reads this
    {
      Table(order, stats)
    }

    constructor (cfg: Config)
      ensures this.cfg == cfg && Valid() && View() == Table([], map[])
    {
      this.cfg, order, stats := cfg, [], map[];
    }

    method MaybeEvictErrorStats(now: int)
      requires Valid()
      modifies this
      ensures Valid()
      ensures order == Evicted(old(order), NotCooling(old(View()), now), cfg.trackerMax)
      ensures stats == Restrict(old(stats), order)
    {
      RestrictAll(stats, order);
      if cfg.trackerMax <= 0 || |order| <= cfg.trackerMax { return; }
      ghost var idle := NotCooling(View(), now);
      for i := 0 to |order|
        invariant FirstIdle(order, idle, i) == FirstIdle(order, idle, 0)
      {
        if stats[order[i]].coolUntil <= now {
          DroppedKey(stats, order, i);
          stats := stats - {order[i]};
          order := order[..i] + order[i + 1..];
          return;
        }
      }
    }

    method EnsureErrorEntry(accountKey: string, now: int)
      requires Valid()
      modifies this
      ensures Valid()
      ensures View() == Ensured(old(View()), cfg, accountKey, now)
    {
      hide Evicted, FirstIdle;
      if accountKey !in stats {
        AddKey(order, stats, accountKey);
        stats := stats[accountKey := NEW_STATS];
        order := order + [accountKey];
        MaybeEvictErrorStats(now);
      }
    }

    method PruneWindow(window: seq<Seen>, now: int) returns (left: seq<Seen>)
      ensures left == Pruned(window, now - cfg.errorWindowMs)
    {
      var horizon := now - cfg.errorWindowMs;
      left := window;
      while |left| > 0 && left[0].at < horizon
        invariant Pruned(left, horizon) == Pruned(window, horizon)
      {
        left := left[1..];
      }
    }

    method UpdatedEntry(was: Stats, status: int, now: int) returns (entry: Stats)
      ensures entry == WithError(was, cfg, status, now)
    {
      hide Pruned;
      var window := PruneWindow(was.window, now);
      window := window + [Seen(now, status)];
      entry := was.(window := window, errors := was.errors + 1, total := was.total + 1);
      if |window| >= cfg.minSampleSize {
        var errorRate := |window| as real / Max(1, entry.total) as real;
        if errorRate > cfg.alertThreshold {
          if now - entry.lastAlerted > cfg.alertDedupMs {
            entry := entry.(lastAlerted := now);
          }
        }
        if errorRate > cfg.cooldownThreshold {
          entry := entry.(coolUntil := now + cfg.coolDownMs);
        }
      }
    }

    method RecordOAuthError(accountKey: string, status: int, evictAt: int, now: int)
      requires Valid()
      modifies this
      ensures Valid()
      ensures View() == RecordError(old(View()), cfg, accountKey, status, evictAt, now)
    {
      hide Evicted, Ensured, WithError, Distinct;
      if !cfg.enabled || accountKey == "" { return; }
      if status != 429 && status != 403 { return; }
      EnsureErrorEntry(accountKey, evictAt);
      if accountKey in stats {
        var entry := UpdatedEntry(stats[accountKey], status, now);
        stats := stats[accountKey := entry];
      }
    }

    method RecordOAuthSuccess(accountKey: string, now: int)
      requires Valid()
      modifies this
      ensures Valid()
      ensures View() == RecordSuccess(old(View()), cfg, accountKey, now)
    {
      hide Evicted, Ensured, Distinct;
      if !cfg.enabled || accountKey == "" { return; }
      EnsureErrorEntry(accountKey, now);
      if accountKey in stats {
        stats := stats[accountKey := stats[accountKey].(total := stats[accountKey].total + 1)];
      }
    }

    /** Exactly the accounts that eviction must spare. */
    method IsAccountCoolingDown(accountKey: string, now: int) returns (cooling: bool)
      requires Valid()
      ensures cooling <==> accountKey != "" && accountKey in order && accountKey !in NotCooling(View(), now)
    {
      if accountKey == "" || accountKey !in stats { return false; }
      return stats[accountKey].coolUntil > now;
    }

    method ClearAccountStats(accountKey: string)
      requires Valid()
      modifies this
      ensures Valid()
      ensures View() == Cleared(old(View()), accountKey)
    {
      if accountKey == "" || accountKey !in stats { return; }
      FilterKeys(order, accountKey);
      order := Filter(OtherThan(accountKey), order);
      stats := stats - {accountKey};
    }

    /** The dashboard's rows; every window is pruned on the way. */
    method GetErrorStatsSnapshot(now: int) returns (out: map<string, Row>)
      requires Valid()
      modifies this
      ensures Valid()
      ensures View() == Snapshot(old(View()), cfg, now)
      ensures out.Keys == stats.Keys
      ensures forall k :: k in stats ==>
                out[k] == Row(|stats[k].window|, stats[k].total, stats[k].errors, stats[k].coolUntil > now,
                  stats[k].coolUntil)
    {
      hide Pruned, Distinct;
      out := map[];
      ghost var was := stats;
      for i := 0 to |order|
        invariant order == old(order) && stats.Keys == was.Keys
        invariant forall k :: k in out <==> k in order[..i]
        invariant forall k :: k in was && k !in order[..i] ==> stats[k] == was[k]
        invariant forall k :: k in was && k in order[..i] ==>
                    stats[k] == was[k].(window := Pruned(was[k].window, now - cfg.errorWindowMs))
        invariant forall k :: k in order[..i] ==>
                    out[k] == Row(|stats[k].window|, stats[k].total, stats[k].errors, stats[k].coolUntil > now,
                      stats[k].coolUntil)
      {
        var key := order[i];
        assert order[..i + 1] == order[..i] + [key];
        NotBefore(order, i);
        var window := PruneWindow(stats[key].window, now);
        var entry := stats[key].(window := window);
        stats := stats[key := entry];
        out := out[key := Row(|entry.window|, entry.total, entry.errors, entry.coolUntil > now, entry.coolUntil)];
      }
      assert order[..|order|] == order;
    }
  }

  lemma NotBefore(order: seq<string>, i: nat)
    requires Distinct(order) && i < |order|
    ensures order[i] !in order[..i]
  {
  }

  lemma AddKey(order: seq<string>, stats: map<string, Stats>, key: string)
    requires Distinct(order) && key !in order && forall k :: k in order <==> k in stats
    ensures Distinct(order + [key])
    ensures forall k :: k in order + [key] <==> k in stats[key := NEW_STATS]
  {
  }
}
