/** The counters and alerts of the 429/403 monitor (open-sse/services/oauthAntiBan.js), against the events that an
    observer has seen since the account's entry was created. */
module ErrorTotals {
  import opened Basics
  import opened ErrorMonitor

  /** An error of the account that the monitor counts, and a request of it, failed or not. */
  predicate IsError(cfg: Config, e: Event, key: string) {
    cfg.enabled && key != "" && e.Error? && e.key == key && (e.status == 429 || e.status == 403)
  }

  predicate IsRequest(cfg: Config, e: Event, key: string) {
    IsError(cfg, e, key) || (cfg.enabled && key != "" && e.Success? && e.key == key)
  }

  /** How many requests of the account, and how many errors, the events hold since it has had its entry. */
  function Requests(cfg: Config, at: int, es: seq<Event>, key: string): nat {
    if es == [] || key !in Run(cfg, at, es).table.stats then 0
    else Requests(cfg, at, es[..|es| - 1], key) + (if IsRequest(cfg, es[|es| - 1], key) then 1 else 0)
  }

  function Errors(cfg: Config, at: int, es: seq<Event>, key: string): nat {
    if es == [] || key !in Run(cfg, at, es).table.stats then 0
    else Errors(cfg, at, es[..|es| - 1], key) + (if IsError(cfg, es[|es| - 1], key) then 1 else 0)
  }

  lemma EnsuredAt(t: Table, cfg: Config, k: string, now: int, key: string)
    requires key in Ensured(t, cfg, k, now).stats
    ensures key in t.stats || key == k
    ensures Ensured(t, cfg, k, now).stats[key] == if key in t.stats then t.stats[key] else NEW_STATS
  {
    hide Eviction.Evicted;
  }

  /** What one event does to the counters of an entry that is there afterwards. */
  lemma CountersStep(t: Table, cfg: Config, e: Event, key: string)
    requires key in Apply(t, cfg, e).stats
    ensures var s, s' := if key in t.stats then t.stats[key] else NEW_STATS, Apply(t, cfg, e).stats[key];
            && s'.total == s.total + (if IsRequest(cfg, e, key) then 1 else 0)
            && s'.errors == s.errors + (if IsError(cfg, e, key) then 1 else 0)
  {
    match e
    case Error(k, status, evictAt, at) =>
      if key in Ensured(t, cfg, k, evictAt).stats { EnsuredAt(t, cfg, k, evictAt, key); }
      hide Ensured, Pruned, Rate;
    case Success(k, at) =>
      if key in Ensured(t, cfg, k, at).stats { EnsuredAt(t, cfg, k, at, key); }
      hide Ensured;
    case Clear(k, at) =>
    case Look(at) =>
  }

  /** The counters are exact: requests and errors since the entry was created. */
  lemma {:induction false} TotalsExact(cfg: Config, at: int, es: seq<Event>, key: string)
    requires key in Run(cfg, at, es).table.stats
    ensures var s := Run(cfg, at, es).table.stats[key];
            s.total == Requests(cfg, at, es, key) && s.errors == Errors(cfg, at, es, key)
  {
    if es != [] {
      hide Apply, IsError, IsRequest;
      var init, e := es[..|es| - 1], es[|es| - 1];
      var t := Run(cfg, at, init).table;
      CountersStep(t, cfg, e, key);
      if key in t.stats { TotalsExact(cfg, at, init, key); }
    }
  }

  /** Nothing else is recorded as an error. */
  lemma OthersIgnored(t: Table, cfg: Config, key: string, status: int, evictAt: int, now: int)
    requires !IsError(cfg, Error(key, status, evictAt, now), key)
    ensures Apply(t, cfg, Error(key, status, evictAt, now)) == t
  {
    hide Ensured, WithError;
  }

  /** An alert is noted exactly if the errors in the window are enough, their share of the account's requests is
      above the threshold, and the last alert is long enough ago. */
  ghost predicate IsAlerted(was: Stats, entry: Stats, cfg: Config, now: int) {
    var errors := |entry.window|;
    entry.lastAlerted ==
      if errors >= cfg.minSampleSize && errors as real > cfg.alertThreshold * entry.total as real
         && now - was.lastAlerted > cfg.alertDedupMs
      then now else was.lastAlerted
  }

  lemma AlertRule(s: Stats, cfg: Config, status: int, now: int)
    requires s.total >= 0
    ensures IsAlerted(s, WithError(s, cfg, status, now), cfg, now)
  {
    hide Pruned, Rate;
    RateAbove(|WithError(s, cfg, status, now).window|, s.total + 1, cfg.alertThreshold);
  }

  lemma RunMore(cfg: Config, at: int, es: seq<Event>, e: Event)
    ensures Run(cfg, at, es + [e]).table == Apply(Run(cfg, at, es).table, cfg, e)
  {
    hide Apply, Remember;
    assert (es + [e])[..|es|] == es;
  }

  /** After each recorded error whose entry survives. */
  lemma AlertExact(cfg: Config, at: int, es: seq<Event>, key: string, status: int, evictAt: int, now: int)
    requires Legal(cfg, at, es) && IsError(cfg, Error(key, status, evictAt, now), key)
    requires key in Run(cfg, at, es + [Error(key, status, evictAt, now)]).table.stats
    ensures IsAlerted(Was(Run(cfg, at, es), key),
                      Run(cfg, at, es + [Error(key, status, evictAt, now)]).table.stats[key], cfg, now)
  {
    hide Run, Legal, Inv, Apply, WithError, IsAlerted, IsError;
    var w := Run(cfg, at, es);
    InvRun(cfg, at, es);
    RunMore(cfg, at, es, Error(key, status, evictAt, now));
    TotalAtLeast(w, cfg, key);
    EntryIs(w.table, cfg, key, status, evictAt, now);
    AlertRule(Was(w, key), cfg, status, now);
  }

  lemma TotalAtLeast(w: World, cfg: Config, key: string)
    requires Inv(w, cfg)
    ensures Was(w, key).total >= 0
  {
    WasOk(w, cfg, key);
    hide InOrder, Stored;
  }

  lemma EntryIs(t: Table, cfg: Config, key: string, status: int, evictAt: int, now: int)
    requires IsError(cfg, Error(key, status, evictAt, now), key)
    requires key in Apply(t, cfg, Error(key, status, evictAt, now)).stats
    ensures Apply(t, cfg, Error(key, status, evictAt, now)).stats[key] ==
              WithError(if key in t.stats then t.stats[key] else NEW_STATS, cfg, status, now)
  {
    hide Ensured, WithError;
    EnsuredAt(t, cfg, key, evictAt, key);
  }
}
