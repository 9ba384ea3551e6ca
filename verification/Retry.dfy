/** The executors' retry engine: the loop of open-sse/executors/base.js, which takes its own index back
    to try a URL again, and the loop of open-sse/executors/codex.js around it. */
module Retry {
  import opened Basics

  // ---------------------------------------------------------------- configuration

  /** An entry of the retry table: a number of attempts, or attempts and delay, each possibly missing. */
  datatype RetryEntry = Number(n: int) | Pair(tries: Option<int>, delay: Option<int>)

  datatype Resolved = Resolved(attempts: int, delayMs: int)

  const LEGACY_DELAY_MS := 2000

  const DEFAULT_TABLE: map<int, RetryEntry> := map[
    429 := Pair(Some(0), Some(0)), 502 := Pair(Some(0), Some(3000)), 503 := Pair(Some(3), Some(2000)),
    504 := Pair(Some(2), Some(3000))]

  function Resolve(table: map<int, RetryEntry>, status: int): Resolved {
    if status !in table then Resolved(0, LEGACY_DELAY_MS)
    else
      match table[status]
      case Number(n) => Resolved(n, LEGACY_DELAY_MS)
      case Pair(tries, delay) =>
        Resolved(if tries.Some? then tries.value else 0, if delay.Some? then delay.value else LEGACY_DELAY_MS)
  }

  /** `urls` URLs, at least one, and the provider's table laid over the default one. */
  datatype Config = Config(urls: int, table: map<int, RetryEntry>)

  function ConfigOf(baseUrls: nat, provider: map<int, RetryEntry>): Config {
    Config(if baseUrls == 0 then 1 else baseUrls, DEFAULT_TABLE + provider)
  }

  /** `most` bounds the attempts of every entry. */
  ghost predicate IsMost(cfg: Config, most: nat) {
    cfg.urls >= 1 && forall status :: status in cfg.table ==> Resolve(cfg.table, status).attempts <= most
  }

  // ---------------------------------------------------------------- what fetches do

  /** What a subclass makes of a response: no hook or no opinion, a veto, a delay, or a throw. */
  datatype Hook = NoOpinion | Veto | Delay(ms: int) | HookThrows(abort: bool)

  /** `abort` marks the caller's abort, which is not a timeout of the connection. */
  datatype Outcome = Response(status: int, hook: Hook) | NetworkError(abort: bool)

  /** The outcome of the n-th fetch. */
  type Net = nat -> Outcome

  // ---------------------------------------------------------------- the loop

  datatype Decision = Again | NextUrl | Return | Throw

  const RATE_LIMITED := 429
  const BAD_GATEWAY := 502

  function MayRetry(cfg: Config, used: nat, status: int): bool {
    Resolve(cfg.table, status).attempts > 0 && used < Resolve(cfg.table, status).attempts
  }

  /** A network error, or an error thrown by the hook. */
  function OnError(cfg: Config, url: int, used: nat, abort: bool): Decision {
    if abort then Throw
    else if MayRetry(cfg, used, BAD_GATEWAY) then Again
    else if url + 1 < cfg.urls then NextUrl
    else Throw
  }

  /** What happens after one fetch of a URL that was retried `used` times before. */
  function Decide(cfg: Config, url: int, used: nat, o: Outcome): Decision {
    match o
    case NetworkError(abort) => OnError(cfg, url, used, abort)
    case Response(status, hook) =>
      if MayRetry(cfg, used, status) && hook.HookThrows? then OnError(cfg, url, used, hook.abort)
      else if MayRetry(cfg, used, status) && !hook.Veto? then Again
      else if status == RATE_LIMITED && url + 1 < cfg.urls then NextUrl
      else Return
  }

  datatype End = Returned | Threw | Exhausted

  /** The URLs fetched, in order, and how it ended: with the last fetch's response, with its error, or
      behind the loop. */
  datatype Trace = Trace(urls: seq<int>, end: End)

  function Then(url: int, t: Trace): Trace { t.(urls := [url] + t.urls) }

  lemma RetryBounded(cfg: Config, most: nat, url: int, used: nat, o: Outcome)
    requires IsMost(cfg, most)
    ensures Decide(cfg, url, used, o) == Again ==> used < most
    ensures Decide(cfg, url, used, o) == NextUrl ==> url + 1 < cfg.urls
  {
  }

  function Loop(cfg: Config, most: nat, net: Net, url: nat, used: nat, k: nat): Trace
    requires IsMost(cfg, most)
    decreases cfg.urls - url, most - used
  {
    if url >= cfg.urls then Trace([], Exhausted)
    else
      RetryBounded(cfg, most, url, used, net(k));
      match Decide(cfg, url, used, net(k))
      case Again => Then(url, Loop(cfg, most, net, url, used + 1, k + 1))
      case NextUrl => Then(url, Loop(cfg, most, net, url + 1, 0, k + 1))
      case Return => Trace([url], Returned)
      case Throw => Trace([url], Threw)
  }

  /** One execution, whose first fetch is the k-th. */
  function Execute(cfg: Config, most: nat, net: Net, k: nat): Trace
    requires IsMost(cfg, most)
  {
    Loop(cfg, most, net, 0, 0, k)
  }

  // ---------------------------------------------------------------- bounds

  function Count(urls: seq<int>, url: int): nat {
    if urls == [] then 0 else (if urls[0] == url then 1 else 0) + Count(urls[1..], url)
  }

  /** From URL to URL in order, staying or going on by one. */
  ghost predicate InSteps(urls: seq<int>) {
    forall i :: 0 <= i < |urls| - 1 ==> urls[i + 1] == urls[i] || urls[i + 1] == urls[i] + 1
  }

  ghost predicate Within(urls: seq<int>, low: int, high: int) { forall i :: 0 <= i < |urls| ==> low <= urls[i] < high }

  lemma StepsFront(url: int, urls: seq<int>)
    requires InSteps(urls) && (urls != [] ==> urls[0] == url || urls[0] == url + 1)
    ensures InSteps([url] + urls)
  {
  }

  lemma CountFront(url: int, urls: seq<int>, u: int)
    ensures Count([url] + urls, u) == (if url == u then 1 else 0) + Count(urls, u)
  {
    assert ([url] + urls)[1..] == urls;
  }

  lemma {:induction false} CountOutside(urls: seq<int>, low: int, high: int, u: int)
    requires Within(urls, low, high) && !(low <= u < high)
    ensures Count(urls, u) == 0
  {
    if urls != [] {
      CountOutside(urls[1..], low, high, u);
    }
  }

  /** From any point of the loop: it ends with a response or an error, never behind the loop; it goes
      from URL to URL; and a URL is fetched at most once more than the largest attempts value. */
  lemma {:induction false} LoopShape(cfg: Config, most: nat, net: Net, url: nat, used: nat, k: nat, u: int)
    requires IsMost(cfg, most) && url < cfg.urls && used <= most
    ensures var t := Loop(cfg, most, net, url, used, k);
            && t.end != Exhausted && t.urls != [] && t.urls[0] == url
            && InSteps(t.urls) && Within(t.urls, url, cfg.urls)
            && Count(t.urls, u) <= 1 + most - (if u == url then used else 0)
            && |t.urls| <= (cfg.urls - url) * (1 + most) - used
    decreases cfg.urls - url, most - used
  {
    hide Count, InSteps, Decide;
    RetryBounded(cfg, most, url, used, net(k));
    assert (cfg.urls - url) * (1 + most) == (cfg.urls - url - 1) * (1 + most) + (1 + most);
    match Decide(cfg, url, used, net(k))
    case Again =>
      LoopShape(cfg, most, net, url, used + 1, k + 1, u);
      StepsFront(url, Loop(cfg, most, net, url, used + 1, k + 1).urls);
      CountFront(url, Loop(cfg, most, net, url, used + 1, k + 1).urls, u);
    case NextUrl =>
      var t := Loop(cfg, most, net, url + 1, 0, k + 1);
      LoopShape(cfg, most, net, url + 1, 0, k + 1, u);
      StepsFront(url, t.urls);
      CountFront(url, t.urls, u);
      if u == url { CountOutside(t.urls, url + 1, cfg.urls, u); }
    case Return =>
      OneFetch(url, u);
      MulNonNegative(cfg.urls - url - 1, 1 + most);
    case Throw =>
      OneFetch(url, u);
      MulNonNegative(cfg.urls - url - 1, 1 + most);
  }

  lemma OneFetch(url: int, u: int)
    ensures InSteps([url]) && Count([url], u) == if url == u then 1 else 0
  {
    assert [url][1..] == [];
  }

  lemma MulNonNegative(a: nat, b: nat)
    ensures a * b >= 0
  {
  }

  /** The loop terminates although it takes its index back: at most 1 + `most` fetches per URL, whatever
      mixture of statuses and errors comes, since one counter serves them all. */
  lemma FetchBound(cfg: Config, most: nat, net: Net, k: nat, u: int)
    requires IsMost(cfg, most)
    ensures var t := Execute(cfg, most, net, k);
            && t.end != Exhausted && t.urls != [] && t.urls[0] == 0
            && InSteps(t.urls) && Within(t.urls, 0, cfg.urls)
            && Count(t.urls, u) <= 1 + most
            && |t.urls| <= cfg.urls * (1 + most)
  {
    LoopShape(cfg, most, net, 0, 0, k, u);
    hide Loop, Count, InSteps, Within;
  }

  /** The bound is exact: if every fetch is answered with a status that the table retries `most` times
      and that moves on to the next URL, all of these fetches happen. */
  lemma {:induction false} LoopTight(cfg: Config, most: nat, net: Net, url: nat, used: nat, k: nat)
    requires IsMost(cfg, most) && url < cfg.urls && used <= most
    requires Resolve(cfg.table, RATE_LIMITED).attempts == most
    requires forall n :: net(n) == Response(RATE_LIMITED, NoOpinion)
    ensures |Loop(cfg, most, net, url, used, k).urls| == (cfg.urls - url) * (1 + most) - used
    decreases cfg.urls - url, most - used
  {
    assert (cfg.urls - url) * (1 + most) == (cfg.urls - url - 1) * (1 + most) + (1 + most);
    if used < most {
      LoopTight(cfg, most, net, url, used + 1, k + 1);
    } else if url + 1 < cfg.urls {
      LoopTight(cfg, most, net, url + 1, 0, k + 1);
    } else {
      assert (cfg.urls - url - 1) * (1 + most) == 0;
    }
  }

  lemma FetchBoundReached(cfg: Config, most: nat, net: Net, k: nat)
    requires IsMost(cfg, most) && Resolve(cfg.table, RATE_LIMITED).attempts == most
    requires forall n :: net(n) == Response(RATE_LIMITED, NoOpinion)
    ensures |Execute(cfg, most, net, k).urls| == cfg.urls * (1 + most)
  {
    LoopTight(cfg, most, net, 0, 0, k);
  }

  lemma LoopOnce(cfg: Config, most: nat, net: Net, url: nat, used: nat, k: nat)
    requires IsMost(cfg, most) && url < cfg.urls
    ensures Loop(cfg, most, net, url, used, k) ==
              match Decide(cfg, url, used, net(k))
              case Again => Then(url, Loop(cfg, most, net, url, used + 1, k + 1))
              case NextUrl => Then(url, Loop(cfg, most, net, url + 1, 0, k + 1))
              case Return => Trace([url], Returned)
              case Throw => Trace([url], Threw)
  {
    hide IsMost, Decide;
    RetryBounded(cfg, most, url, used, net(k));
  }

  /** How it ends: a response is that of the last fetch, and a rate limit is only ever returned from the
      last URL; an error is that of the last fetch, and unless it is the caller's abort it is only ever
      thrown from the last URL. */
  lemma {:induction false} LoopEnd(cfg: Config, most: nat, net: Net, url: nat, used: nat, k: nat)
    requires IsMost(cfg, most) && url < cfg.urls && used <= most
    ensures var t := Loop(cfg, most, net, url, used, k);
            && t.urls != []
            && var last, o := t.urls[|t.urls| - 1], net(k + |t.urls| - 1);
            && (t.end == Returned ==> o.Response? && (o.status == RATE_LIMITED ==> last == cfg.urls - 1))
            && (t.end == Threw && last < cfg.urls - 1 ==> if o.Response? then o.hook == HookThrows(true) else o.abort)
            && (t.end == Threw ==> o.NetworkError? || o.hook.HookThrows?)
    decreases cfg.urls - url, most - used
  {
    hide IsMost, Loop, Resolve;
    LoopOnce(cfg, most, net, url, used, k);
    RetryBounded(cfg, most, url, used, net(k));
    match Decide(cfg, url, used, net(k))
    case Again => LoopEnd(cfg, most, net, url, used + 1, k + 1);
    case NextUrl => LoopEnd(cfg, most, net, url + 1, 0, k + 1);
    case Return =>
    case Throw =>
  }

  // ---------------------------------------------------------------- why a URL is fetched again

  /** How often the table lets a status be tried again. */
  function Tries(cfg: Config, status: int): int {
    if status !in cfg.table then 0
    else match cfg.table[status] case Number(n) => n case Pair(Some(n), _) => n case Pair(None, _) => 0
  }

  ghost predicate SameUrlNext(t: Trace, j: nat) { j + 1 < |t.urls| && t.urls[j + 1] == t.urls[j] }

  ghost predicate NextUrlNext(t: Trace, j: nat) { j + 1 < |t.urls| && t.urls[j + 1] == t.urls[j] + 1 }

  ghost predicate EndsHere(t: Trace, j: nat, end: End) { j + 1 == |t.urls| && t.end == end }

  /** What follows an error behind `used` retries of the URL: the caller's abort is thrown. Another error is
      retried as often as the table allows for status 502; then it is the next URL's turn, and from the last URL
      the error is thrown. */
  ghost predicate ErrorFollows(cfg: Config, t: Trace, j: nat, used: nat, abort: bool)
    requires j < |t.urls|
  {
    if abort then EndsHere(t, j, Threw)
    else if used < Tries(cfg, 502) then SameUrlNext(t, j)
    else if t.urls[j] < cfg.urls - 1 then NextUrlNext(t, j)
    else EndsHere(t, j, Threw)
  }

  /** What follows a response: as long as the table allows another try for its status, that is made, unless the
      hook vetoes it; where the hook throws, it is an error. Otherwise a rate limit moves on to the next
      URL if there is one, and whatever remains is returned. */
  ghost predicate ResponseFollows(cfg: Config, t: Trace, j: nat, used: nat, status: int, hook: Hook)
    requires j < |t.urls|
  {
    if used < Tries(cfg, status) && !hook.Veto? then
      match hook
      case HookThrows(abort) => ErrorFollows(cfg, t, j, used, abort)
      case _ => SameUrlNext(t, j)
    else if status == 429 && t.urls[j] < cfg.urls - 1 then NextUrlNext(t, j)
    else EndsHere(t, j, Returned)
  }

  ghost predicate Follows(cfg: Config, t: Trace, j: nat, used: nat, o: Outcome)
    requires j < |t.urls|
  {
    match o
    case NetworkError(abort) => ErrorFollows(cfg, t, j, used, abort)
    case Response(status, hook) => ResponseFollows(cfg, t, j, used, status, hook)
  }

  /** Putting a fetch in front changes nothing behind it. */
  lemma FollowsBehind(cfg: Config, url: int, t: Trace, j: nat, used: nat, o: Outcome)
    requires j < |t.urls| && Follows(cfg, t, j, used, o)
    ensures Follows(cfg, Then(url, t), j + 1, used, o)
  {
  }

  lemma FirstFollows(cfg: Config, most: nat, net: Net, url: nat, used: nat, k: nat)
    requires IsMost(cfg, most) && url < cfg.urls && used <= most
    ensures var t := Loop(cfg, most, net, url, used, k);
            t.urls != [] && t.urls[0] == url && Follows(cfg, t, 0, used, net(k))
  {
    hide IsMost, Loop;
    RetryBounded(cfg, most, url, used, net(k));
    LoopOnce(cfg, most, net, url, used, k);
    match Decide(cfg, url, used, net(k))
    case Again => LoopShape(cfg, most, net, url, used + 1, k + 1, url);
    case NextUrl => LoopShape(cfg, most, net, url + 1, 0, k + 1, url);
    case Return =>
    case Throw =>
  }

  lemma {:induction false} LoopFollows(cfg: Config, most: nat, net: Net, url: nat, used: nat, k: nat, j: nat)
    requires IsMost(cfg, most) && url < cfg.urls && used <= most
    requires j < |Loop(cfg, most, net, url, used, k).urls|
    ensures var t := Loop(cfg, most, net, url, used, k);
            var u := t.urls[j];
            Follows(cfg, t, j, Count(t.urls[..j], u) + (if u == url then used else 0), net(k + j))
    decreases cfg.urls - url, most - used
  {
    hide Decide, Loop, Follows, Count, IsMost, Then;
    FirstFollows(cfg, most, net, url, used, k);
    LoopOnce(cfg, most, net, url, used, k);
    RetryBounded(cfg, most, url, used, net(k));
    var t := Loop(cfg, most, net, url, used, k);
    NoneYet(t.urls, url);
    if j > 0 {
      match Decide(cfg, url, used, net(k))
      case Again =>
        var rest := Loop(cfg, most, net, url, used + 1, k + 1);
        ThenAt(url, rest, j);
        LoopFollows(cfg, most, net, url, used + 1, k + 1, j - 1);
        var u := rest.urls[j - 1];
        FollowsBehind(cfg, url, rest, j - 1,
                      Count(rest.urls[..j - 1], u) + (if u == url then used + 1 else 0), net(k + j));
      case NextUrl =>
        var rest := Loop(cfg, most, net, url + 1, 0, k + 1);
        ThenAt(url, rest, j);
        LoopFollows(cfg, most, net, url + 1, 0, k + 1, j - 1);
        LoopShape(cfg, most, net, url + 1, 0, k + 1, url);
        FollowsBehind(cfg, url, rest, j - 1, Count(rest.urls[..j - 1], rest.urls[j - 1]), net(k + j));
      case Return =>
      case Throw =>
    }
  }

  lemma NoneYet(urls: seq<int>, url: int)
    ensures Count(urls[..0], url) == 0
  {
  }

  lemma ThenAt(url: int, rest: Trace, j: nat)
    requires 0 < j < |Then(url, rest).urls|
    ensures j - 1 < |rest.urls| && Then(url, rest).urls[j] == rest.urls[j - 1]
    ensures var u := rest.urls[j - 1];
            Count(Then(url, rest).urls[..j], u) == (if url == u then 1 else 0) + Count(rest.urls[..j - 1], u)
  {
    hide Count;
    assert Then(url, rest).urls[..j] == [url] + rest.urls[..j - 1];
    CountFront(url, rest.urls[..j - 1], rest.urls[j - 1]);
  }

  /** After every fetch of an execution the outcome, and how often the same URL was fetched before, decide what
      comes next. */
  lemma EachFetch(cfg: Config, most: nat, net: Net, k: nat, j: nat)
    requires IsMost(cfg, most) && j < |Execute(cfg, most, net, k).urls|
    ensures var t := Execute(cfg, most, net, k);
            Follows(cfg, t, j, Count(t.urls[..j], t.urls[j]), net(k + j))
  {
    LoopFollows(cfg, most, net, 0, 0, k, j);
  }

  /** The default table, where the provider's own entries come first. */
  lemma DefaultTries(baseUrls: nat, provider: map<int, RetryEntry>, status: int)
    requires status !in provider
    ensures Tries(ConfigOf(baseUrls, provider), status) ==
              if status == 503 then 3 else if status == 504 then 2 else 0
  {
  }

  /** With the default table alone a URL is fetched four times at most. */
  lemma DefaultMost(baseUrls: nat)
    ensures IsMost(ConfigOf(baseUrls, map[]), 3)
  {
    assert DEFAULT_TABLE + map[] == DEFAULT_TABLE;
  }

  // ---------------------------------------------------------------- the loop, as a program

  /** What the program does: `urls` records the URLs fetched. */
  method ExecuteRequest(cfg: Config, ghost most: nat, net: Net, k: nat) returns (urls: seq<int>, end: End)
    requires IsMost(cfg, most)
    ensures Trace(urls, end) == Execute(cfg, most, net, k)
  {
    hide IsMost, Decide, Resolve, Loop, Prepend;
    var retryAttemptsByUrl: map<int, nat> := map[];
    urls := [];
    var urlIndex := 0;
    ghost var used: nat := 0;
    Prepended(Execute(cfg, most, net, k));
    while urlIndex < cfg.urls
      invariant 0 <= urlIndex
      invariant forall u :: u in retryAttemptsByUrl ==> u <= urlIndex
      invariant used == if urlIndex in retryAttemptsByUrl then retryAttemptsByUrl[urlIndex] else 0
      invariant Prepend(urls, Loop(cfg, most, net, urlIndex, used, k + |urls|)) == Execute(cfg, most, net, k)
      decreases cfg.urls - urlIndex, most - used
    {
      if urlIndex !in retryAttemptsByUrl { retryAttemptsByUrl := retryAttemptsByUrl[urlIndex := 0]; }
      var outcome := net(k + |urls|);
      RetryBounded(cfg, most, urlIndex, used, outcome);
      LoopStep(cfg, most, net, urlIndex, used, k, urls);
      var decision := AfterFetch(cfg, urlIndex, retryAttemptsByUrl[urlIndex], outcome);
      urls := urls + [urlIndex];
      if decision.Return? { return urls, Returned; }
      if decision.Throw? { return urls, Threw; }
      if decision.Again? {
        retryAttemptsByUrl := retryAttemptsByUrl[urlIndex := retryAttemptsByUrl[urlIndex] + 1];
        used := used + 1;
        urlIndex := urlIndex - 1;
      } else {
        used := 0;
      }
      urlIndex := urlIndex + 1;
    }
    BehindLoop(cfg, most, net, urlIndex, used, k + |urls|, urls);
    return urls, Exhausted;
  }

  function Prepend(urls: seq<int>, t: Trace): Trace { t.(urls := urls + t.urls) }

  lemma Prepended(t: Trace)
    ensures Prepend([], t) == t
  {
    assert [] + t.urls == t.urls;
  }

  /** One turn of the loop, seen from behind the fetches made so far. */
  lemma LoopStep(cfg: Config, most: nat, net: Net, url: nat, used: nat, k: nat, urls: seq<int>)
    requires IsMost(cfg, most) && url < cfg.urls
    ensures Prepend(urls, Loop(cfg, most, net, url, used, k + |urls|)) ==
              match Decide(cfg, url, used, net(k + |urls|))
              case Again => Prepend(urls + [url], Loop(cfg, most, net, url, used + 1, k + |urls + [url]|))
              case NextUrl => Prepend(urls + [url], Loop(cfg, most, net, url + 1, 0, k + |urls + [url]|))
              case Return => Trace(urls + [url], Returned)
              case Throw => Trace(urls + [url], Threw)
  {
    hide IsMost, Decide;
    RetryBounded(cfg, most, url, used, net(k + |urls|));
    match Decide(cfg, url, used, net(k + |urls|))
    case Again => Assoc(urls, [url], Loop(cfg, most, net, url, used + 1, k + |urls| + 1).urls);
    case NextUrl => Assoc(urls, [url], Loop(cfg, most, net, url + 1, 0, k + |urls| + 1).urls);
    case Return =>
    case Throw =>
  }

  lemma BehindLoop(cfg: Config, most: nat, net: Net, url: nat, used: nat, k: nat, urls: seq<int>)
    requires IsMost(cfg, most) && url >= cfg.urls
    ensures Prepend(urls, Loop(cfg, most, net, url, used, k)) == Trace(urls, Exhausted)
  {
    assert urls + [] == urls;
  }

  /** One pass through the try block and its catch. */
  method AfterFetch(cfg: Config, urlIndex: int, used: nat, o: Outcome) returns (d: Decision)
    ensures d == Decide(cfg, urlIndex, used, o)
  {
    hide Resolve;
    var thrown := o.NetworkError?;
    var abort := o.NetworkError? && o.abort;
    if o.Response? {
      var attempts := Resolve(cfg.table, o.status).attempts;
      if !(attempts <= 0 || used >= attempts) {
        match o.hook
        case HookThrows(a) => thrown, abort := true, a;
        case Veto =>
        case _ => return Again;
      }
      if !thrown {
        if o.status == RATE_LIMITED && urlIndex + 1 < cfg.urls { return NextUrl; }
        return Return;
      }
    }
    if abort { return Throw; }
    var attempts := Resolve(cfg.table, BAD_GATEWAY).attempts;
    if !(attempts <= 0 || used >= attempts) { return Again; }
    if urlIndex + 1 < cfg.urls { return NextUrl; }
    return Throw;
  }

  // ---------------------------------------------------------------- the outer loop

  /** Executions until one throws, or answers without the overload error, or the attempts are used up.
      `overloaded(n)` says what the peek finds in the response to the n-th fetch. */
  function Rounds(cfg: Config, most: nat, net: Net, overloaded: nat -> bool, attempts: int, attempt: nat,
                  k: nat): seq<Trace>
    requires IsMost(cfg, most)
    decreases attempts - attempt
  {
    var t := Execute(cfg, most, net, k);
    if t.end.Returned? && t.urls != [] && overloaded(k + |t.urls| - 1) && attempt < attempts
    then [t] + Rounds(cfg, most, net, overloaded, attempts, attempt + 1, k + |t.urls|)
    else [t]
  }

  function Fetches(ts: seq<Trace>): nat { if ts == [] then 0 else |ts[0].urls| + Fetches(ts[1..]) }

  ghost predicate GoesOn(t: Trace, overloaded: nat -> bool, attempts: int, attempt: nat, k: nat) {
    t.end.Returned? && t.urls != [] && overloaded(k + |t.urls| - 1) && attempt < attempts
  }

  lemma RoundsStep(cfg: Config, most: nat, net: Net, overloaded: nat -> bool, attempts: int, attempt: nat, k: nat)
    requires IsMost(cfg, most)
    ensures var t := Execute(cfg, most, net, k);
            && t.urls != []
            && Rounds(cfg, most, net, overloaded, attempts, attempt, k) ==
               if GoesOn(t, overloaded, attempts, attempt, k)
               then [t] + Rounds(cfg, most, net, overloaded, attempts, attempt + 1, k + |t.urls|) else [t]
  {
    FetchesSome(cfg, most, net, k);
  }

  /** Whether the answer, the response to the last fetch, carries the overload error. */
  ghost predicate AnswersOverloaded(ts: seq<Trace>, overloaded: nat -> bool, k: nat) {
    ts != [] && ts[|ts| - 1].end.Returned? && Fetches(ts) > 0 && overloaded(k + Fetches(ts) - 1)
  }

  lemma AnswerFront(t: Trace, more: seq<Trace>, overloaded: nat -> bool, k: nat)
    requires more != [] && Fetches(more) > 0
    ensures AnswersOverloaded([t] + more, overloaded, k) <==> AnswersOverloaded(more, overloaded, k + |t.urls|)
  {
    FetchesFront(t, more);
    hide Fetches;
    assert ([t] + more)[|more|] == more[|more| - 1];
    assert k + |t.urls| + Fetches(more) - 1 == k + Fetches([t] + more) - 1;
  }

  /** Codex makes at most attempts + 1 executions, and the last is the answer: its response still carries
      the overload error only if all attempts are used up. */
  lemma {:induction false} RoundsCount(cfg: Config, most: nat, net: Net, overloaded: nat -> bool, attempts: int,
                                       attempt: nat, k: nat)
    requires IsMost(cfg, most) && attempt <= Max(attempts, 0)
    ensures var ts := Rounds(cfg, most, net, overloaded, attempts, attempt, k);
            && 1 <= |ts| <= Max(attempts, 0) + 1 - attempt
            && Fetches(ts) > 0
            && (AnswersOverloaded(ts, overloaded, k) ==> |ts| == Max(attempts, 0) + 1 - attempt)
    decreases attempts - attempt
  {
    hide Execute, IsMost, Fetches, Rounds, AnswersOverloaded;
    var t := Execute(cfg, most, net, k);
    RoundsStep(cfg, most, net, overloaded, attempts, attempt, k);
    if GoesOn(t, overloaded, attempts, attempt, k) {
      var more := Rounds(cfg, most, net, overloaded, attempts, attempt + 1, k + |t.urls|);
      RoundsCount(cfg, most, net, overloaded, attempts, attempt + 1, k + |t.urls|);
      FetchesFront(t, more);
      AnswerFront(t, more, overloaded, k);
    } else {
      FetchesFront(t, []);
      OneAnswer(t, overloaded, k);
    }
  }

  /** And every one but the last was answered with the overload error; each starts where the one before it
      ended. */
  lemma {:induction false} RoundsGoOn(cfg: Config, most: nat, net: Net, overloaded: nat -> bool, attempts: int,
                                      attempt: nat, k: nat, i: nat)
    requires IsMost(cfg, most) && i < |Rounds(cfg, most, net, overloaded, attempts, attempt, k)|
    ensures var ts := Rounds(cfg, most, net, overloaded, attempts, attempt, k);
            && ts[i] == Execute(cfg, most, net, k + Fetches(ts[..i]))
            && (i < |ts| - 1 ==> AnswersOverloaded(ts[..i + 1], overloaded, k))
    decreases attempts - attempt
  {
    hide Execute, IsMost, Fetches, Rounds, AnswersOverloaded;
    var t := Execute(cfg, most, net, k);
    RoundsStep(cfg, most, net, overloaded, attempts, attempt, k);
    FetchesFront(t, []);
    if GoesOn(t, overloaded, attempts, attempt, k) {
      var more := Rounds(cfg, most, net, overloaded, attempts, attempt + 1, k + |t.urls|);
      if i > 0 {
        RoundsGoOn(cfg, most, net, overloaded, attempts, attempt + 1, k + |t.urls|, i - 1);
        assert ([t] + more)[..i] == [t] + more[..i - 1] && ([t] + more)[..i + 1] == [t] + more[..i];
        FetchesFront(t, more[..i - 1]);
        if i < |more| {
          SomeFetches(more[..i], overloaded, k + |t.urls|);
          AnswerFront(t, more[..i], overloaded, k);
        }
      } else {
        GoesOnAnswers(t, overloaded, k);
      }
    }
  }

  lemma SomeFetches(ts: seq<Trace>, overloaded: nat -> bool, k: nat)
    requires AnswersOverloaded(ts, overloaded, k)
    ensures ts != [] && Fetches(ts) > 0
  {
  }

  lemma GoesOnAnswers(t: Trace, overloaded: nat -> bool, k: nat)
    requires t.end.Returned? && t.urls != [] && overloaded(k + |t.urls| - 1)
    ensures AnswersOverloaded([t], overloaded, k)
  {
    FetchesFront(t, []);
  }

  lemma OneAnswer(t: Trace, overloaded: nat -> bool, k: nat)
    ensures AnswersOverloaded([t], overloaded, k) ==> t.end.Returned? && t.urls != [] && overloaded(k + |t.urls| - 1)
  {
    FetchesFront(t, []);
  }

  lemma FetchesSome(cfg: Config, most: nat, net: Net, k: nat)
    requires IsMost(cfg, most)
    ensures Execute(cfg, most, net, k).urls != []
  {
    FetchBound(cfg, most, net, k, 0);
  }

  lemma {:induction false} RoundsEach(cfg: Config, most: nat, net: Net, overloaded: nat -> bool, attempts: int,
                                      attempt: nat, k: nat)
    requires IsMost(cfg, most)
    ensures forall t :: t in Rounds(cfg, most, net, overloaded, attempts, attempt, k) ==>
              |t.urls| <= cfg.urls * (1 + most)
    decreases attempts - attempt
  {
    var t := Execute(cfg, most, net, k);
    FetchBound(cfg, most, net, k, 0);
    hide Execute, IsMost, InSteps, Within, Count;
    if t.end.Returned? && t.urls != [] && overloaded(k + |t.urls| - 1) && attempt < attempts {
      RoundsEach(cfg, most, net, overloaded, attempts, attempt + 1, k + |t.urls|);
    }
  }

  lemma {:induction false} FetchesAtMost(ts: seq<Trace>, bound: int)
    requires forall t :: t in ts ==> |t.urls| <= bound
    ensures Fetches(ts) <= |ts| * bound
  {
    if ts != [] {
      FetchesAtMost(ts[1..], bound);
      Distribute(|ts| - 1, bound);
    }
  }

  lemma FetchesFront(t: Trace, more: seq<Trace>)
    ensures Fetches([t] + more) == |t.urls| + Fetches(more)
    ensures more == [] ==> [t] + more == [t] && Fetches(more) == 0
  {
    assert ([t] + more)[1..] == more;
  }

  lemma Distribute(a: int, b: int)
    ensures (1 + a) * b == b + a * b
  {
  }

  /** The whole of it: fetches are bounded by (attempts + 1) times the inner bound. */
  lemma CodexBound(cfg: Config, most: nat, net: Net, overloaded: nat -> bool)
    requires IsMost(cfg, most)
    ensures var attempts := Resolve(cfg.table, 503).attempts;
            Fetches(Rounds(cfg, most, net, overloaded, attempts, 0, 0)) <=
              (Max(attempts, 0) + 1) * (cfg.urls * (1 + most))
  {
    var attempts := Resolve(cfg.table, 503).attempts;
    RoundsCount(cfg, most, net, overloaded, attempts, 0, 0);
    RoundsEach(cfg, most, net, overloaded, attempts, 0, 0);
    assert cfg.urls * (1 + most) >= 0 by { MulNonNegative(cfg.urls, 1 + most); }
    hide IsMost, Rounds;
    var ts := Rounds(cfg, most, net, overloaded, attempts, 0, 0);
    FetchesAtMost(ts, cfg.urls * (1 + most));
    MulLess(|ts|, Max(attempts, 0) + 1, cfg.urls * (1 + most));
  }

  lemma MulLess(a: int, b: int, c: int)
    requires a <= b && c >= 0
    ensures a * c <= b * c
  {
  }

  method ExecuteCodex(cfg: Config, ghost most: nat, net: Net, overloaded: nat -> bool) returns (traces: seq<Trace>)
    requires IsMost(cfg, most)
    ensures traces == Rounds(cfg, most, net, overloaded, Resolve(cfg.table, 503).attempts, 0, 0)
  {
    hide IsMost, Execute;
    var attempts := Resolve(cfg.table, 503).attempts;
    var attempt, k := 0, 0;
    traces := [];
    ghost var whole := Rounds(cfg, most, net, overloaded, attempts, 0, 0);
    assert [] + whole == whole;
    while true
      invariant 0 <= attempt && 0 <= k
      invariant traces + Rounds(cfg, most, net, overloaded, attempts, attempt, k) == whole
      decreases attempts - attempt
    {
      var urls, end := ExecuteRequest(cfg, most, net, k);
      var t := Trace(urls, end);
      Assoc(traces, [t], Rounds(cfg, most, net, overloaded, attempts, attempt + 1, k + |urls|));
      traces := traces + [t];
      k := k + |urls|;
      if end != Returned || urls == [] || !overloaded(k - 1) { return; }
      if attempt >= attempts { return; }
      attempt := attempt + 1;
    }
  }
}
