/** The retry rounds of `handleComboChat` in open-sse/services/combo.js.

    Everything the loop learns from outside (what a model answers, whether it is cooling, what
    time it is) is an environment; the results hold for every environment. */
module ComboFailover {
  import opened Basics
  import ModelOrder

  const COMBO_MAX_WAIT_MS := 65000
  const COMBO_MAX_ROUNDS := 3
  const TTFT_TIMEOUT_MS := 5000
  const TRANSIENT_MAX_MS := 5000
  const COOLING_WAIT_MS := 10000

  /** What trying one model comes to. `Cooling`: it was skipped. `Threw`: the call or the handling
      of its answer threw. `Replied`: `stalls` and `thin` say whether the first-chunk guard and
      the quality gate would object; `fails` whether the error analyzer forbids a fallback;
      `retryAt` and `coolMs` are what the error body and the analyzer report, and `error` the
      error text, or the status when the text is empty. */
  datatype Outcome =
    | Cooling
    | Threw(error: string)
    | Replied(status: nat, stalls: bool, thin: bool, fails: bool, retryAt: Option<int>, coolMs: nat, error: string)

  /** `outcome(r, i)`: the i-th model of round r. `clock(r)`: the time when round r is over.
      `first(r)` and `second(r)`: the two readings of the cooldowns at the start of round r. */
  datatype Env = Env(outcome: (nat, nat) -> Outcome, clock: nat -> int,
                     first: nat -> string -> bool, second: nat -> string -> bool,
                     noCredentials: string -> bool)

  datatype Request = Request(models: seq<string>, streaming: bool, poolEnabled: bool)

  datatype Result = Delivered(round: nat, pos: nat) | Failed(status: nat, message: string, retryAt: Option<int>)

  predicate IsOk(status: nat) { 200 <= status < 300 }

  /** Between the two readings a cooldown can only end. */
  ghost predicate Plausible(env: Env) {
    forall r: nat, m: string :: env.second(r)(m) ==> env.first(r)(m)
  }

  // ---------------------------------------------------------------- one attempt

  /** A successful answer that the gates turn away; they are waived for the last model. */
  predicate Gated(o: Outcome, i: nat, n: nat, streaming: bool) {
    o.Replied? && IsOk(o.status) && i + 1 < n && (if streaming then o.stalls else o.thin)
  }

  predicate Accepted(o: Outcome, i: nat, n: nat, streaming: bool) {
    o.Replied? && IsOk(o.status) && !Gated(o, i, n, streaming)
  }

  /** The answer ends the request, as a success or as an error without fallback. */
  predicate Decisive(o: Outcome, i: nat, n: nat, streaming: bool) {
    Accepted(o, i, n, streaming) || (o.Replied? && !IsOk(o.status) && o.fails)
  }

  function AttemptWait(o: Outcome, i: nat, n: nat, streaming: bool): nat {
    if Gated(o, i, n, streaming) then (if streaming then TTFT_TIMEOUT_MS else 0)
    else if o.Replied? && !IsOk(o.status) && !o.fails && o.coolMs <= TRANSIENT_MAX_MS && o.status in {502, 503, 504}
    then o.coolMs
    else 0
  }

  // ---------------------------------------------------------------- one round

  function Order(env: Env, q: Request, r: nat): seq<string> {
    if r == 0 then q.models
    else if q.poolEnabled then ModelOrder.CoolingLast(Order(env, q, r - 1), env.first(r), env.second(r))
    else Order(env, q, r - 1)
  }

  /** What a round has gathered after its first `i` attempts, none of them decisive. A status of 0
      and a message of None stand for null. */
  datatype Gathered = Gathered(error: Option<string>, status: nat, earliest: Option<int>, allCooling: bool)

  function Gather(g: Gathered, o: Outcome, m: string, i: nat, n: nat, streaming: bool): Gathered {
    match o
    case Cooling => g
    case Threw(e) => Gathered(Some(e), if g.status == 0 then 500 else g.status, g.earliest, false)
    case Replied(status, _, _, _, retryAt, _, e) =>
      if Gated(o, i, n, streaming) then
        Gathered(Some((if streaming then "TTFT timeout from " else "low-quality response from ") + m),
                 if streaming then 408 else status, g.earliest, false)
      else
        Gathered(Some(e), if g.status == 0 then status else g.status,
                 if retryAt.Some? && (g.earliest.None? || retryAt.value < g.earliest.value)
                 then retryAt else g.earliest,
                 false)
  }

  function GatherAll(env: Env, q: Request, r: nat, order: seq<string>, i: nat): Gathered
    requires i <= |order|
  {
    if i == 0 then Gathered(None, 0, None, true)
    else Gather(GatherAll(env, q, r, order, i - 1), env.outcome(r, i - 1), order[i - 1], i - 1, |order|, q.streaming)
  }

  function Summary(env: Env, q: Request, r: nat): Gathered {
    GatherAll(env, q, r, Order(env, q, r), |Order(env, q, r)|)
  }

  function WaitMs(g: Gathered, now: int): int {
    match g.earliest
    case Some(t) => Max(0, t - now)
    case None => if g.allCooling then COOLING_WAIT_MS else 0
  }

  /** After a round without a decisive answer another round follows. */
  predicate Retries(env: Env, q: Request, r: nat) {
    r < COMBO_MAX_ROUNDS && 0 < WaitMs(Summary(env, q, r), env.clock(r)) <= COMBO_MAX_WAIT_MS
  }

  predicate DecisiveAt(env: Env, q: Request, r: nat, i: nat) {
    i < |Order(env, q, r)| && Decisive(env.outcome(r, i), i, |Order(env, q, r)|, q.streaming)
  }

  /** Round r ran to its end without a decisive answer. */
  ghost predicate Barren(env: Env, q: Request, r: nat) {
    forall i: nat :: i < |Order(env, q, r)| ==> !DecisiveAt(env, q, r, i)
  }

  /** Every round before r was barren and asked for another one. */
  ghost predicate Reaches(env: Env, q: Request, r: nat) {
    forall s: nat :: s < r ==> Barren(env, q, s) && Retries(env, q, s)
  }

  function Failure(g: Gathered, noCredentials: string -> bool): Result {
    var told := g.error.Some? && g.error.value != "";
    Failed(if told && noCredentials(g.error.value) then 503 else if g.status == 0 then 503 else g.status,
           if told then g.error.value else "All combo models unavailable",
           g.earliest)
  }

  /** The specification: `res` is the first decisive answer of the rounds that are reached, or the
      failure of the last of them, round r. */
  ghost predicate IsResult(env: Env, q: Request, res: Result, r: nat) {
    && Reaches(env, q, r)
    && match res
       case Delivered(s, i) =>
         s == r && DecisiveAt(env, q, r, i) && forall j: nat :: j < i ==> !DecisiveAt(env, q, r, j)
       case Failed(_, _, _) =>
         Barren(env, q, r) && !Retries(env, q, r) && res == Failure(Summary(env, q, r), env.noCredentials)
  }

  // ---------------------------------------------------------------- what the specification fixes

  lemma DecisiveInRange(env: Env, q: Request, r: nat, i: nat)
    requires DecisiveAt(env, q, r, i)
    ensures !Barren(env, q, r)
  {
  }

  /** There is exactly one result: the outcomes and the clock determine it. */
  lemma ResultUnique(env: Env, q: Request, a: Result, ra: nat, b: Result, rb: nat)
    requires IsResult(env, q, a, ra) && IsResult(env, q, b, rb)
    ensures a == b && ra == rb
  {
    hide Retries, DecisiveAt, Failure, Summary, Barren;
    if a.Delivered? { DecisiveInRange(env, q, ra, a.pos); }
    if b.Delivered? { DecisiveInRange(env, q, rb, b.pos); }
    assert ra == rb;
    if a.Delivered? && b.Delivered? {
      assert !(a.pos < b.pos) && !(b.pos < a.pos);
    }
  }

  /** A decisive answer in the first round is never passed over: the first one is delivered. */
  lemma FirstDecisiveWins(env: Env, q: Request, i: nat, res: Result, r: nat)
    requires DecisiveAt(env, q, 0, i) && forall j: nat :: j < i ==> !DecisiveAt(env, q, 0, j)
    requires IsResult(env, q, res, r)
    ensures res == Delivered(0, i)
  {
    assert IsResult(env, q, Delivered(0, i), 0);
    ResultUnique(env, q, res, r, Delivered(0, i), 0);
  }

  /** The status a round ends with is a success status exactly when a quality gate of a
      non-streaming request turned a successful answer away in it. */
  lemma {:induction false} GatheredOk(env: Env, q: Request, r: nat, order: seq<string>, i: nat)
    requires i <= |order|
    requires forall j: nat :: j < i ==> !Decisive(env.outcome(r, j), j, |order|, q.streaming)
    ensures IsOk(GatherAll(env, q, r, order, i).status) <==>
              !q.streaming && exists j: nat :: j < i && Gated(env.outcome(r, j), j, |order|, q.streaming)
    ensures (exists j: nat :: j < i && Gated(env.outcome(r, j), j, |order|, q.streaming)) ==>
              GatherAll(env, q, r, order, i).status != 0
  {
    if i > 0 { GatheredOk(env, q, r, order, i - 1); }
  }

  /** A combo that has failed reports a success status exactly when the request is not streaming,
      its last round turned a successful answer away as too thin, and the last error is not about
      missing credentials. */
  lemma FailureLooksOk(env: Env, q: Request, res: Result, r: nat)
    requires IsResult(env, q, res, r) && res.Failed?
    ensures var g := Summary(env, q, r);
            IsOk(res.status) <==>
              && !q.streaming
              && (exists j: nat :: j < |Order(env, q, r)| &&
                    Gated(env.outcome(r, j), j, |Order(env, q, r)|, q.streaming))
              && !(g.error.Some? && g.error.value != "" && env.noCredentials(g.error.value))
  {
    hide Reaches, Retries, Gated, GatherAll;
    var order := Order(env, q, r);
    forall j: nat | j < |order| ensures !Decisive(env.outcome(r, j), j, |order|, q.streaming) {
      assert !DecisiveAt(env, q, r, j);
    }
    GatheredOk(env, q, r, order, |order|);
  }

  /** Such a run exists: the first of two models answers too briefly, the second one throws. */
  lemma FailureWithSuccessStatus() returns (env: Env, q: Request)
    ensures Plausible(env) && IsResult(env, q, Failed(200, "boom", None), 0)
  {
    q := Request(["a", "b"], false, false);
    env := Env((r: nat, i: nat) => if i == 0 then Replied(200, false, true, false, None, 0, "") else Threw("boom"),
               r => 0, r => m => false, r => m => false, e => false);
    assert GatherAll(env, q, 0, q.models, 0) == Gathered(None, 0, None, true);
    assert GatherAll(env, q, 0, q.models, 1).status == 200;
    assert GatherAll(env, q, 0, q.models, 2) == Gathered(Some("boom"), 200, None, false);
    assert Barren(env, q, 0) && Reaches(env, q, 0) && !Retries(env, q, 0);
  }

  // ---------------------------------------------------------------- cost

  function AttemptsWait(env: Env, q: Request, r: nat, i: nat): nat {
    if i == 0 then 0
    else AttemptsWait(env, q, r, i - 1) + AttemptWait(env.outcome(r, i - 1), i - 1, |Order(env, q, r)|, q.streaming)
  }

  function RoundWait(env: Env, q: Request, r: nat): int {
    Min(WaitMs(Summary(env, q, r), env.clock(r)) + 1000, COMBO_MAX_WAIT_MS)
  }

  /** The deliberate waits of all the rounds before r. */
  function RoundsWait(env: Env, q: Request, r: nat): int {
    if r == 0 then 0
    else RoundsWait(env, q, r - 1) + AttemptsWait(env, q, r - 1, |Order(env, q, r - 1)|) + RoundWait(env, q, r - 1)
  }

  /** The models called in the first `i` attempts of round r. */
  function Calls(env: Env, q: Request, r: nat, i: nat): seq<string>
    requires i <= |Order(env, q, r)|
  {
    if i == 0 then []
    else Calls(env, q, r, i - 1) + if env.outcome(r, i - 1).Cooling? then [] else [Order(env, q, r)[i - 1]]
  }

  function RoundsCalls(env: Env, q: Request, r: nat): seq<string> {
    if r == 0 then [] else RoundsCalls(env, q, r - 1) + Calls(env, q, r - 1, |Order(env, q, r - 1)|)
  }

  function Stop(env: Env, q: Request, res: Result, r: nat): nat {
    if res.Delivered? then res.pos else |Order(env, q, r)|
  }

  lemma {:induction false} OrderWithin(env: Env, q: Request, r: nat, m: string)
    requires Plausible(env)
    ensures |Order(env, q, r)| <= |q.models|
    ensures multiset(Order(env, q, r))[m] <= multiset(q.models)[m]
  {
    if r > 0 {
      OrderWithin(env, q, r - 1, m);
      if q.poolEnabled {
        ModelOrder.CoolingKeepsAll(Order(env, q, r - 1), env.first(r), env.second(r));
        ModelOrder.CoolingCount(Order(env, q, r - 1), env.first(r), env.second(r), m);
      }
    }
  }

  lemma {:induction false} AttemptsWaitBound(env: Env, q: Request, r: nat, i: nat)
    ensures AttemptsWait(env, q, r, i) <= 5000 * i
  {
    if i > 0 { AttemptsWaitBound(env, q, r, i - 1); }
  }

  lemma {:induction false} RoundsWaitBound(env: Env, q: Request, r: nat)
    requires Plausible(env)
    ensures RoundsWait(env, q, r) <= r * (65000 + 5000 * |q.models|)
  {
    if r > 0 {
      RoundsWaitBound(env, q, r - 1);
      AttemptsWaitBound(env, q, r - 1, |Order(env, q, r - 1)|);
      OrderWithin(env, q, r - 1, "");
      Times(r, 65000 + 5000 * |q.models|);
    }
  }

  lemma CountConcat(a: seq<string>, b: seq<string>, m: string)
    ensures multiset(a + b)[m] == multiset(a)[m] + multiset(b)[m]
  {
  }

  lemma {:induction false} CallsBound(env: Env, q: Request, r: nat, i: nat, m: string)
    requires i <= |Order(env, q, r)|
    ensures |Calls(env, q, r, i)| <= i
    ensures multiset(Calls(env, q, r, i))[m] <= multiset(Order(env, q, r)[..i])[m]
  {
    hide Order, Calls, GatherAll, AttemptsWait;
    NoAttempt(env, q, r);
    if i > 0 {
      var order := Order(env, q, r);
      CallsBound(env, q, r, i - 1, m);
      OneMoreAttempt(env, q, r, i - 1);
      assert order[..i] == order[..i - 1] + [order[i - 1]];
      CountConcat(order[..i - 1], [order[i - 1]], m);
      CountConcat(Calls(env, q, r, i - 1), [order[i - 1]], m);
    }
  }

  lemma {:induction false} RoundsCallsBound(env: Env, q: Request, r: nat, m: string)
    requires Plausible(env)
    ensures |RoundsCalls(env, q, r)| <= r * |q.models|
    ensures multiset(RoundsCalls(env, q, r))[m] <= r * multiset(q.models)[m]
  {
    hide Order, Calls;
    if r > 0 {
      var order := Order(env, q, r - 1);
      var calls := Calls(env, q, r - 1, |order|);
      RoundsCallsBound(env, q, r - 1, m);
      CallsBound(env, q, r - 1, |order|, m);
      OrderWithin(env, q, r - 1, m);
      assert order[..|order|] == order;
      CountConcat(RoundsCalls(env, q, r - 1), calls, m);
      Times(r, |q.models|);
      Times(r, multiset(q.models)[m]);
    }
  }

  lemma Times(r: nat, n: nat)
    requires r > 0
    ensures r * n == (r - 1) * n + n
  {
  }

  /** Whatever happens, the request ends within four rounds; each listed model is called at most
      four times per occurrence, and the deliberate waits stay within 195 s plus 20 s per model. */
  lemma CostBound(env: Env, q: Request, res: Result, r: nat, m: string)
    requires Plausible(env) && IsResult(env, q, res, r)
    ensures r <= COMBO_MAX_ROUNDS && Stop(env, q, res, r) <= |Order(env, q, r)|
    ensures RoundsWait(env, q, r) + AttemptsWait(env, q, r, Stop(env, q, res, r)) <= 195000 + 20000 * |q.models|
    ensures |RoundsCalls(env, q, r)| + |Calls(env, q, r, |Order(env, q, r)|)| <= 4 * |q.models|
    ensures multiset(RoundsCalls(env, q, r))[m] + multiset(Calls(env, q, r, |Order(env, q, r)|))[m]
              <= 4 * multiset(q.models)[m]
  {
    hide Order, Calls, RoundsCalls, RoundsWait, AttemptsWait, Barren;
    if r > 0 { assert Retries(env, q, r - 1); }
    var order := Order(env, q, r);
    RoundsWaitBound(env, q, r);
    AttemptsWaitBound(env, q, r, Stop(env, q, res, r));
    OrderWithin(env, q, r, m);
    CallsBound(env, q, r, |order|, m);
    assert order[..|order|] == order;
    RoundsCallsBound(env, q, r, m);
    if r == 0 {} else if r == 1 {} else if r == 2 {} else {}
  }

  // ---------------------------------------------------------------- the code

  datatype RoundEnd = Returned(pos: nat) | Exhausted(g: Gathered)

  /** One pass over the models of a round. */
  method TryRound(env: Env, q: Request, r: nat, order: seq<string>, waitedBefore: int, callsBefore: seq<string>)
    returns (end: RoundEnd, waited: int, calls: seq<string>)
    requires order == Order(env, q, r)
    ensures end.Returned? ==>
              DecisiveAt(env, q, r, end.pos) && forall j: nat :: j < end.pos ==> !DecisiveAt(env, q, r, j)
    ensures end.Exhausted? ==> Barren(env, q, r) && end.g == Summary(env, q, r)
    ensures waited == waitedBefore + AttemptsWait(env, q, r, if end.Returned? then end.pos else |order|)
    ensures calls == callsBefore + Calls(env, q, r, if end.Returned? then end.pos + 1 else |order|)
  {
    hide Summary, Order, GatherAll, AttemptsWait, Calls;
    var lastError: Option<string>, earliestRetryAfter: Option<int>, lastStatus, allCooling := None, None, 0, true;
    waited, calls := waitedBefore, callsBefore;
    NoAttempt(env, q, r);
    for i := 0 to |order|
      invariant forall j: nat :: j < i ==> !DecisiveAt(env, q, r, j)
      invariant Gathered(lastError, lastStatus, earliestRetryAfter, allCooling) == GatherAll(env, q, r, order, i)
      invariant waited == waitedBefore + AttemptsWait(env, q, r, i)
      invariant calls == callsBefore + Calls(env, q, r, i)
    {
      OneMoreAttempt(env, q, r, i);
      match env.outcome(r, i)
      case Cooling =>
      case Threw(message) =>
        calls := calls + [order[i]];
        allCooling := false;
        lastError := Some(message);
        if lastStatus == 0 { lastStatus := 500; }
      case Replied(status, stalls, thin, fails, retryAt, coolMs, message) =>
        calls := calls + [order[i]];
        allCooling := false;
        if IsOk(status) {
          if q.streaming && |order| > 1 && i < |order| - 1 && stalls {
            waited := waited + TTFT_TIMEOUT_MS;
            lastError := Some("TTFT timeout from " + order[i]);
            lastStatus := 408;
            continue;
          }
          if !q.streaming && |order| > 1 && i < |order| - 1 && thin {
            lastError := Some("low-quality response from " + order[i]);
            lastStatus := status;
            continue;
          }
          return Returned(i), waited, calls;
        }
        if retryAt.Some? && (earliestRetryAfter.None? || retryAt.value < earliestRetryAfter.value) {
          earliestRetryAfter := retryAt;
        }
        if fails {
          return Returned(i), waited, calls;
        }
        if 0 < coolMs <= TRANSIENT_MAX_MS && (status == 503 || status == 502 || status == 504) {
          waited := waited + coolMs;
        }
        lastError := Some(message);
        if lastStatus == 0 { lastStatus := status; }
    }
    end := Exhausted(Gathered(lastError, lastStatus, earliestRetryAfter, allCooling));
    SummaryIs(env, q, r);
  }

  lemma NoAttempt(env: Env, q: Request, r: nat)
    ensures GatherAll(env, q, r, Order(env, q, r), 0) == Gathered(None, 0, None, true)
    ensures AttemptsWait(env, q, r, 0) == 0 && Calls(env, q, r, 0) == []
  {
  }

  lemma OneMoreAttempt(env: Env, q: Request, r: nat, i: nat)
    requires i < |Order(env, q, r)|
    ensures var order, o := Order(env, q, r), env.outcome(r, i);
            && GatherAll(env, q, r, order, i + 1) ==
                 Gather(GatherAll(env, q, r, order, i), o, order[i], i, |order|, q.streaming)
            && AttemptsWait(env, q, r, i + 1) == AttemptsWait(env, q, r, i) + AttemptWait(o, i, |order|, q.streaming)
            && Calls(env, q, r, i + 1) == Calls(env, q, r, i) + (if o.Cooling? then [] else [order[i]])
  {
    hide Order, Gather, AttemptWait;
  }

  lemma SummaryIs(env: Env, q: Request, r: nat)
    ensures Summary(env, q, r) == GatherAll(env, q, r, Order(env, q, r), |Order(env, q, r)|)
  {
  }

  /** The rounds. The result is the one the specification fixes; `waited` and `calls` are exactly
      the waits and calls of the attempts up to it. */
  method HandleComboChat(env: Env, q: Request) returns (result: Result, last: nat, waited: int, calls: seq<string>)
    ensures IsResult(env, q, result, last)
    ensures waited == RoundsWait(env, q, last) + AttemptsWait(env, q, last, Stop(env, q, result, last))
    ensures result.Delivered? ==> calls == RoundsCalls(env, q, last) + Calls(env, q, last, result.pos + 1)
    ensures result.Failed? ==> calls == RoundsCalls(env, q, last) + Calls(env, q, last, |Order(env, q, last)|)
  {
    hide DecisiveAt, Barren, Calls, AttemptsWait, Summary;
    var rotatedModels := q.models;
    last, waited, calls := 0, 0, [];
    while true
      invariant last <= COMBO_MAX_ROUNDS
      invariant rotatedModels == if last == 0 then q.models else Order(env, q, last - 1)
      invariant Reaches(env, q, last)
      invariant waited == RoundsWait(env, q, last) && calls == RoundsCalls(env, q, last)
      decreases COMBO_MAX_ROUNDS - last
    {
      if last > 0 && q.poolEnabled {
        rotatedModels := ModelOrder.CoolingLast(rotatedModels, env.first(last), env.second(last));
      }
      var end;
      end, waited, calls := TryRound(env, q, last, rotatedModels, waited, calls);
      if end.Returned? {
        result := Delivered(last, end.pos);
        return;
      }
      var waitMs := WaitMs(end.g, env.clock(last));
      if last < COMBO_MAX_ROUNDS && waitMs > 0 && waitMs <= COMBO_MAX_WAIT_MS {
        waited := waited + Min(waitMs + 1000, COMBO_MAX_WAIT_MS);
        last := last + 1;
        continue;
      }
      result := Failure(end.g, env.noCredentials);
      return;
    }
  }
}
