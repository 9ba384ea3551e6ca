/** What a combo's answer is, said of the outcomes themselves (open-sse/services/combo.js): which outcome ends
    the request, when another round follows, and what a failure reports. */
module ComboAnswers {
  import opened Basics
  import opened ComboFailover

  // ---------------------------------------------------------------- outcomes

  /** The answer that the client gets: a success that nothing objects to, or that no model is left behind, or
      an error for which there is no fallback. */
  ghost predicate Ends(o: Outcome, last: bool, streaming: bool) {
    match o
    case Cooling => false
    case Threw(_) => false
    case Replied(status, stalls, thin, fails, _, _, _) =>
      if 200 <= status < 300 then last || !(if streaming then stalls else thin) else fails
  }

  /** An outcome behind which the next model is tried. */
  ghost predicate Passes(o: Outcome, last: bool, streaming: bool) {
    match o
    case Cooling => true
    case Threw(_) => true
    case Replied(status, stalls, thin, fails, _, _, _) =>
      if 200 <= status < 300 then !last && (if streaming then stalls else thin) else !fails
  }

  lemma EndsIsDecisive(o: Outcome, i: nat, n: nat, streaming: bool)
    requires i < n
    ensures Decisive(o, i, n, streaming) <==> Ends(o, i == n - 1, streaming)
    ensures Ends(o, i == n - 1, streaming) <==> !Passes(o, i == n - 1, streaming)
  {
  }

  /** Position i ends round r, and no position before it does. */
  ghost predicate EndsFirst(env: Env, q: Request, r: nat, i: nat) {
    var n := |Order(env, q, r)|;
    && i < n && Ends(env.outcome(r, i), i == n - 1, q.streaming)
    && forall j: nat :: j < i ==> Passes(env.outcome(r, j), false, q.streaming)
  }

  /** Nothing ends round r. */
  ghost predicate AllPass(env: Env, q: Request, r: nat) {
    var n := |Order(env, q, r)|;
    forall j: nat :: j < n ==> Passes(env.outcome(r, j), j == n - 1, q.streaming)
  }

  lemma AtEnds(env: Env, q: Request, r: nat, j: nat)
    requires j < |Order(env, q, r)|
    ensures var o, last := env.outcome(r, j), j == |Order(env, q, r)| - 1;
            && (DecisiveAt(env, q, r, j) <==> Ends(o, last, q.streaming))
            && (DecisiveAt(env, q, r, j) <==> !Passes(o, last, q.streaming))
  {
    hide Order, Decisive, Ends, Passes;
    EndsIsDecisive(env.outcome(r, j), j, |Order(env, q, r)|, q.streaming);
  }

  lemma EndsFirstIs(env: Env, q: Request, r: nat, i: nat)
    ensures EndsFirst(env, q, r, i) <==>
              DecisiveAt(env, q, r, i) && forall j: nat :: j < i ==> !DecisiveAt(env, q, r, j)
  {
    if i < |Order(env, q, r)| {
      AtEnds(env, q, r, i);
      forall j: nat | j < i
        ensures DecisiveAt(env, q, r, j) <==> !Passes(env.outcome(r, j), false, q.streaming)
      {
        AtEnds(env, q, r, j);
      }
    }
    hide Order, Decisive, Ends, Passes;
    if EndsFirst(env, q, r, i) {
      forall j: nat | j < i ensures !DecisiveAt(env, q, r, j) {
        assert Passes(env.outcome(r, j), false, q.streaming);
      }
    }
    if DecisiveAt(env, q, r, i) && forall j: nat :: j < i ==> !DecisiveAt(env, q, r, j) {
      forall j: nat | j < i ensures Passes(env.outcome(r, j), false, q.streaming) {
        assert !DecisiveAt(env, q, r, j);
      }
    }
  }

  lemma AllPassIs(env: Env, q: Request, r: nat)
    requires Barren(env, q, r)
    ensures AllPass(env, q, r)
  {
    var n := |Order(env, q, r)|;
    forall j: nat | j < n ensures Passes(env.outcome(r, j), j == n - 1, q.streaming) {
      AtEnds(env, q, r, j);
      assert !DecisiveAt(env, q, r, j);
    }
  }

  /** What is delivered ends its round, and is the first to do so; in the rounds before nothing did. What fails
      has run a last round in which nothing did. */
  lemma ResultMeans(env: Env, q: Request, res: Result, r: nat)
    requires IsResult(env, q, res, r)
    ensures res.Delivered? ==> res.round == r && EndsFirst(env, q, r, res.pos)
    ensures res.Failed? ==> AllPass(env, q, r)
    ensures forall s: nat :: s < r ==> AllPass(env, q, s)
  {
    hide Retries, EndsFirst, AllPass, DecisiveAt, Barren, Failure, Summary;
    if res.Delivered? { EndsFirstIs(env, q, r, res.pos); } else { AllPassIs(env, q, r); }
    forall s: nat | s < r ensures AllPass(env, q, s) { AllPassIs(env, q, s); }
  }

  /** The first outcome of round 0 that ends it is what the client gets. */
  lemma FirstEndWins(env: Env, q: Request, i: nat, res: Result, r: nat)
    requires IsResult(env, q, res, r) && i < |q.models|
    requires Ends(env.outcome(0, i), i == |q.models| - 1, q.streaming)
    requires forall j: nat :: j < i ==> Passes(env.outcome(0, j), false, q.streaming)
    ensures res == Delivered(0, i)
  {
    hide IsResult, DecisiveAt, Ends, Passes;
    EndsFirstIs(env, q, 0, i);
    FirstDecisiveWins(env, q, i, res, r);
  }

  // ---------------------------------------------------------------- what a round gathers

  /** When an error says the model can be tried again. */
  function RetryOf(o: Outcome): Option<int> {
    if o.Replied? && !(200 <= o.status < 300) then o.retryAt else None
  }

  /** A success that was objected to. */
  ghost predicate Objected(o: Outcome, last: bool, streaming: bool) {
    o.Replied? && 200 <= o.status < 300 && !last && (if streaming then o.stalls else o.thin)
  }

  /** What is reported of an outcome that is passed over. */
  function Told(o: Outcome, last: bool, streaming: bool, model: string): string
    requires !o.Cooling?
  {
    if o.Threw? then o.error
    else if 200 <= o.status < 300 && !last
    then (if streaming then "TTFT timeout from " else "low-quality response from ") + model
    else o.error
  }

  function StatusOf(o: Outcome): nat {
    match o
    case Cooling => 0
    case Threw(_) => 500
    case Replied(status, _, _, _, _, _, _) => status
  }

  /** The earliest time that any error gives. */
  ghost predicate IsEarliest(at: Option<int>, os: seq<Outcome>) {
    && (at.None? <==> forall o :: o in os ==> RetryOf(o).None?)
    && (at.Some? ==> (exists o :: o in os && RetryOf(o) == at)
                     && forall o :: o in os && RetryOf(o).Some? ==> at.value <= RetryOf(o).value)
  }

  function Outcomes(env: Env, r: nat, n: nat): seq<Outcome> {
    if n == 0 then [] else Outcomes(env, r, n - 1) + [env.outcome(r, n - 1)]
  }

  lemma {:induction false} OutcomesAt(env: Env, r: nat, n: nat)
    ensures |Outcomes(env, r, n)| == n && forall j: nat :: j < n ==> Outcomes(env, r, n)[j] == env.outcome(r, j)
  {
    if n > 0 { OutcomesAt(env, r, n - 1); }
  }

  lemma EarliestSnoc(os: seq<Outcome>, was: Option<int>, o: Outcome)
    requires IsEarliest(was, os)
    ensures RetryOf(o).None? ==> IsEarliest(was, os + [o])
    ensures RetryOf(o).Some? ==>
              IsEarliest(if was.None? || RetryOf(o).value < was.value then RetryOf(o) else was, os + [o])
  {
    assert o in os + [o] && forall p :: p in os + [o] <==> p in os || p == o;
  }

  /** Where the last outcome that is not cooling stands, of those before position `n`. */
  function LastTried(env: Env, r: nat, n: nat): (j: Option<nat>)
    ensures j.None? ==> forall k: nat :: k < n ==> env.outcome(r, k).Cooling?
    ensures j.Some? ==> j.value < n && !env.outcome(r, j.value).Cooling?
    ensures j.Some? ==> forall k: nat :: j.value < k < n ==> env.outcome(r, k).Cooling?
  {
    if n == 0 then None else if env.outcome(r, n - 1).Cooling? then LastTried(env, r, n - 1) else Some(n - 1)
  }

  /** Where the last success stands that was objected to. */
  ghost function LastObjected(env: Env, r: nat, n: nat, size: nat, streaming: bool): (j: Option<nat>)
    ensures j.None? ==> forall k: nat :: k < n ==> !Objected(env.outcome(r, k), k == size - 1, streaming)
    ensures j.Some? ==> j.value < n && Objected(env.outcome(r, j.value), j.value == size - 1, streaming)
    ensures j.Some? ==> forall k: nat :: j.value < k < n ==> !Objected(env.outcome(r, k), k == size - 1, streaming)
  {
    if n == 0 then None
    else if Objected(env.outcome(r, n - 1), n == size, streaming) then Some(n - 1)
    else LastObjected(env, r, n - 1, size, streaming)
  }

  /** The first status there is; 0 if there is none. */
  function FirstStatus(env: Env, r: nat, n: nat): (status: nat)
    ensures status == 0 ==> forall k: nat :: k < n ==> StatusOf(env.outcome(r, k)) == 0
    ensures status != 0 ==> exists j: nat :: j < n && StatusOf(env.outcome(r, j)) == status &&
                                             forall k: nat :: k < j ==> StatusOf(env.outcome(r, k)) == 0
  {
    if n == 0 then 0
    else
      var status := FirstStatus(env, r, n - 1);
      if status != 0 then status
      else
        assert StatusOf(env.outcome(r, n - 1)) != 0 ==> forall k: nat :: k < n - 1 ==> StatusOf(env.outcome(r, k)) == 0;
        StatusOf(env.outcome(r, n - 1))
  }

  /** What has been gathered of the first `n` outcomes, none of which ends the round: the earliest time that an
      error gives; what the last outcome tells; and the status of the last success that was objected to, a
      time-out if streaming, or else the first status there is. */
  ghost predicate IsGathered(g: Gathered, env: Env, r: nat, order: seq<string>, n: nat, streaming: bool)
    requires n <= |order|
  {
    && IsEarliest(g.earliest, Outcomes(env, r, n))
    && (g.allCooling <==> LastTried(env, r, n).None?)
    && g.error == (match LastTried(env, r, n)
                   case None => None
                   case Some(j) => Some(Told(env.outcome(r, j), j == |order| - 1, streaming, order[j])))
    && g.status == (match LastObjected(env, r, n, |order|, streaming)
                    case Some(j) => if streaming then 408 else StatusOf(env.outcome(r, j))
                    case None => FirstStatus(env, r, n))
  }

  lemma GatherMeans(g: Gathered, o: Outcome, m: string, i: nat, n: nat, streaming: bool)
    requires i < n && Passes(o, i == n - 1, streaming)
    ensures var h := Gather(g, o, m, i, n, streaming);
            && h.earliest == (if RetryOf(o).Some? && (g.earliest.None? || RetryOf(o).value < g.earliest.value)
                              then RetryOf(o) else g.earliest)
            && h.allCooling == (g.allCooling && o.Cooling?)
            && h.error == (if o.Cooling? then g.error else Some(Told(o, i == n - 1, streaming, m)))
            && h.status == (if Objected(o, i == n - 1, streaming) then (if streaming then 408 else StatusOf(o))
                            else if g.status == 0 then StatusOf(o) else g.status)
  {
  }

  lemma GatheredStep(g: Gathered, env: Env, r: nat, order: seq<string>, n: nat, streaming: bool)
    requires n < |order| && IsGathered(g, env, r, order, n, streaming)
    requires Passes(env.outcome(r, n), n == |order| - 1, streaming)
    ensures IsGathered(Gather(g, env.outcome(r, n), order[n], n, |order|, streaming), env, r, order, n + 1, streaming)
  {
    var o := env.outcome(r, n);
    hide Gather, Passes, Told, IsEarliest;
    GatherMeans(g, o, order[n], n, |order|, streaming);
    EarliestSnoc(Outcomes(env, r, n), g.earliest, o);
    ObjectedStatus(env, r, n, |order|, streaming);
  }

  lemma ObjectedStatus(env: Env, r: nat, n: nat, size: nat, streaming: bool)
    ensures var j := LastObjected(env, r, n, size, streaming);
            j.Some? ==> StatusOf(env.outcome(r, j.value)) != 0
  {
  }

  lemma {:induction false} GatheredRun(env: Env, q: Request, r: nat, order: seq<string>, n: nat)
    requires n <= |order|
    requires forall j: nat :: j < n ==> Passes(env.outcome(r, j), j == |order| - 1, q.streaming)
    ensures IsGathered(GatherAll(env, q, r, order, n), env, r, order, n, q.streaming)
  {
    if n > 0 {
      hide IsGathered, Gather, Passes;
      GatheredRun(env, q, r, order, n - 1);
      GatheredStep(GatherAll(env, q, r, order, n - 1), env, r, order, n - 1, q.streaming);
    }
  }

  lemma SummaryGathers(env: Env, q: Request, r: nat)
    requires AllPass(env, q, r)
    ensures IsGathered(Summary(env, q, r), env, r, Order(env, q, r), |Order(env, q, r)|, q.streaming)
  {
    hide Order, GatherAll, Passes, IsGathered;
    GatheredRun(env, q, r, Order(env, q, r), |Order(env, q, r)|);
  }

  /** When another round follows one in which nothing ended the request: the earliest time that an error gave
      is ahead, by 65 s at most; or no error gave one and all models were cooling. There are four rounds at
      most. */
  lemma AnotherRound(env: Env, q: Request, r: nat, at: Option<int>)
    requires AllPass(env, q, r) && IsEarliest(at, Outcomes(env, r, |Order(env, q, r)|))
    ensures Retries(env, q, r) <==>
              && r < 3
              && match at
                 case Some(t) => 0 < t - env.clock(r) <= 65000
                 case None => forall j: nat :: j < |Order(env, q, r)| ==> env.outcome(r, j).Cooling?
  {
    SummaryGathers(env, q, r);
    var os := Outcomes(env, r, |Order(env, q, r)|);
    EarliestUnique(at, Summary(env, q, r).earliest, os);
    hide Order, Summary, Outcomes, IsEarliest;
  }

  lemma EarliestUnique(a: Option<int>, b: Option<int>, os: seq<Outcome>)
    requires IsEarliest(a, os) && IsEarliest(b, os)
    ensures a == b
  {
    if a.Some? {
      var o :| o in os && RetryOf(o) == a;
    }
    if b.Some? {
      var o :| o in os && RetryOf(o) == b;
    }
  }

  /** What a failed combo reports of its last round: what the last outcome told, with the status and the
      earliest time gathered; 503 stands for no status and for missing credentials. */
  lemma FailureReports(env: Env, q: Request, res: Result, r: nat)
    requires IsResult(env, q, res, r) && res.Failed?
    ensures var order := Order(env, q, r);
            var n := |order|;
            var told := match LastTried(env, r, n)
                        case None => ""
                        case Some(j) => Told(env.outcome(r, j), j == n - 1, q.streaming, order[j]);
            var status := match LastObjected(env, r, n, n, q.streaming)
                          case Some(j) => if q.streaming then 408 else StatusOf(env.outcome(r, j))
                          case None => FirstStatus(env, r, n);
            && IsEarliest(res.retryAt, Outcomes(env, r, n))
            && res.message == (if told == "" then "All combo models unavailable" else told)
            && res.status == if status == 0 || (told != "" && env.noCredentials(told)) then 503 else status
  {
    hide Order, Summary, Outcomes, IsEarliest, Reaches, Retries, LastTried, LastObjected, FirstStatus;
    ResultMeans(env, q, res, r);
    SummaryGathers(env, q, r);
  }

  // ---------------------------------------------------------------- waits and calls

  /** What is waited for one outcome before the next model is tried. */
  lemma WaitsFor(o: Outcome, i: nat, n: nat, streaming: bool)
    requires i < n
    ensures AttemptWait(o, i, n, streaming) ==
              match o
              case Cooling => 0
              case Threw(_) => 0
              case Replied(status, stalls, _, fails, _, coolMs, _) =>
                if 200 <= status < 300 then (if streaming && stalls && i != n - 1 then 5000 else 0)
                else if !fails && 502 <= status <= 504 && coolMs <= 5000 then coolMs
                else 0
  {
  }

  /** The models called are those that were not cooling, in order. */
  lemma {:induction false} CallsAre(env: Env, q: Request, r: nat, i: nat)
    requires i <= |Order(env, q, r)|
    ensures Calls(env, q, r, i) ==
              Flatten(seq(i, j requires 0 <= j < i => if env.outcome(r, j).Cooling? then [] else [Order(env, q, r)[j]]))
  {
    hide Order, Calls;
    NoAttempt(env, q, r);
    var order := Order(env, q, r);
    var each := seq(i, j requires 0 <= j < i => if env.outcome(r, j).Cooling? then [] else [order[j]]);
    if i > 0 {
      CallsAre(env, q, r, i - 1);
      OneMoreAttempt(env, q, r, i - 1);
      assert each[..i - 1] ==
          seq(i - 1, j requires 0 <= j < i - 1 => if env.outcome(r, j).Cooling? then [] else [order[j]]);
    }
  }
}
