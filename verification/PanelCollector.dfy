/** `collectPanel` of open-sse/services/combo.js: quorum, grace timer and hard deadline.

    A panel is a machine over a logical clock on which a timer fires exactly when it is due. The
    log of settlements is what an observer sees; the results compare the moment of resolution
    with a closed formula over that log. */
module PanelCollector {
  import opened Basics

  /** What one panel call settles to: a value, with its `ok` flag, or a rejection. */
  datatype Answer = Answer(ok: bool, text: string) | Rejected(error: string)

  predicate IsOk(a: Answer) { a.Answer? && a.ok }

  datatype Config = Config(n: nat, minPanel: int, graceMs: nat, hardMs: nat)

  /** Call `slot` settled with `answer` at time `at`. */
  datatype Arrival = Arrival(at: int, slot: nat, answer: Answer)

  /** One call of `resolve`, with the array as it was at that moment. */
  datatype Resolution = Resolution(at: int, out: seq<Option<Answer>>, ok: nat)

  /** `grace` is the time the grace timer was set for; the source never clears that variable, so
      the timer is set at most once. A timer that is not armed has fired or was cancelled. */
  datatype Panel = Panel(out: seq<Option<Answer>>, settled: nat, ok: nat, finished: bool,
                         hardArmed: bool, grace: Option<int>, graceArmed: bool,
                         now: int, resolutions: seq<Resolution>, log: seq<Arrival>)

  datatype Event = Settle(slot: nat, answer: Answer) | HardTimer | GraceTimer | Clock(at: int)

  function Init(cfg: Config, at: int): Panel {
    Panel(seq(cfg.n, _ => None), 0, 0, false, true, None, false, at, [], [])
  }

  function Finished(p: Panel): Panel {
    if p.finished then p
    else
      p.(finished := true, hardArmed := false, graceArmed := p.graceArmed && p.grace.None?,
         resolutions := p.resolutions + [Resolution(p.now, p.out, p.ok)])
  }

  function Settled(p: Panel, cfg: Config, slot: nat, answer: Answer): Panel
    requires slot < |p.out|
  {
    var q := p.(out := p.out[slot := Some(answer)], settled := p.settled + 1,
                ok := if IsOk(answer) then p.ok + 1 else p.ok,
                log := p.log + [Arrival(p.now, slot, answer)]);
    if q.settled == cfg.n then Finished(q)
    else if q.ok >= cfg.minPanel && q.grace.None? then q.(grace := Some(q.now + cfg.graceMs), graceArmed := true)
    else q
  }

  /** Each call settles once; a timer fires when it is due, and the clock waits for due timers. */
  ghost predicate Allows(p: Panel, cfg: Config, start: int, e: Event) {
    match e
    case Settle(slot, _) => slot < |p.out| && p.out[slot].None?
    case HardTimer => p.hardArmed && p.now == start + cfg.hardMs
    case GraceTimer => p.graceArmed && p.grace == Some(p.now)
    case Clock(at) =>
      && p.now <= at
      && (p.hardArmed ==> at <= start + cfg.hardMs)
      && (p.graceArmed && p.grace.Some? ==> at <= p.grace.value)
  }

  function Step(p: Panel, cfg: Config, e: Event): Panel {
    match e
    case Settle(slot, answer) => if slot < |p.out| then Settled(p, cfg, slot, answer) else p
    case HardTimer => Finished(p.(hardArmed := false))
    case GraceTimer => Finished(p.(graceArmed := false))
    case Clock(at) => p.(now := at)
  }

  function Run(cfg: Config, start: int, es: seq<Event>): Panel {
    if es == [] then Init(cfg, start) else Step(Run(cfg, start, es[..|es| - 1]), cfg, es[|es| - 1])
  }

  ghost predicate Legal(cfg: Config, start: int, es: seq<Event>) {
    es == [] ||
    (Legal(cfg, start, es[..|es| - 1]) && Allows(Run(cfg, start, es[..|es| - 1]), cfg, start, es[|es| - 1]))
  }

  // ---------------------------------------------------------------- reading the log

  function OkCount(log: seq<Arrival>): nat {
    if log == [] then 0 else OkCount(log[..|log| - 1]) + if IsOk(log[|log| - 1].answer) then 1 else 0
  }

  /** The array after the settlements of `log`. */
  function Outs(log: seq<Arrival>, n: nat): (r: seq<Option<Answer>>)
    ensures |r| == n
  {
    if log == [] then seq(n, _ => None)
    else
      var r, a := Outs(log[..|log| - 1], n), log[|log| - 1];
      if a.slot < n then r[a.slot := Some(a.answer)] else r
  }

  /** When the last of `n` calls settled. */
  function AllAt(log: seq<Arrival>, n: nat): Option<int> {
    if 0 < n <= |log| then Some(log[n - 1].at) else None
  }

  /** When a settlement first left at least `min` successful answers behind. */
  function QuorumAt(log: seq<Arrival>, min: int): Option<int> {
    if log == [] then None
    else
      match QuorumAt(log[..|log| - 1], min)
      case Some(t) => Some(t)
      case None => if OkCount(log) >= min then Some(log[|log| - 1].at) else None
  }

  /** The earliest of the hard deadline, the instant all calls settled, and quorum plus grace. */
  function Due(cfg: Config, start: int, log: seq<Arrival>): int {
    var d := start + cfg.hardMs;
    var d1 := match AllAt(log, cfg.n) case Some(t) => Min(d, t) case None => d;
    match QuorumAt(log, cfg.minPanel) case Some(t) => Min(d1, t + cfg.graceMs) case None => d1
  }

  // ---------------------------------------------------------------- the invariant

  ghost predicate Timed(log: seq<Arrival>, now: int) {
    && (forall i :: 0 <= i < |log| ==> log[i].at <= now)
    && (forall i, j :: 0 <= i <= j < |log| ==> log[i].at <= log[j].at)
  }

  ghost predicate Faithful(p: Panel, cfg: Config) {
    && p.out == Outs(p.log, cfg.n)
    && p.settled == |p.log|
    && p.ok == OkCount(p.log)
    && Timed(p.log, p.now)
  }

  ghost predicate Waiting(p: Panel, cfg: Config, start: int) {
    && p.resolutions == []
    && p.hardArmed && p.now <= start + cfg.hardMs
    && (|p.log| < cfg.n || cfg.n == 0)
    && (p.graceArmed <==> p.grace.Some?)
    && (match QuorumAt(p.log, cfg.minPanel)
        case Some(t) => p.grace == Some(t + cfg.graceMs) && p.now <= t + cfg.graceMs
        case None => p.grace.None?)
  }

  /** `k` settlements had been logged when the panel resolved. */
  ghost predicate Resolved(p: Panel, cfg: Config, start: int, k: nat) {
    && |p.resolutions| == 1
    && !p.hardArmed
    && k <= |p.log|
    && var r := p.resolutions[0];
       && start <= r.at <= p.now
       && r.at == Due(cfg, start, p.log)
       && r.out == Outs(p.log[..k], cfg.n)
       && r.ok == OkCount(p.log[..k])
       && (forall i :: 0 <= i < k ==> p.log[i].at <= r.at)
       && (forall i :: k <= i < |p.log| ==> r.at <= p.log[i].at)
  }

  ghost predicate Inv(p: Panel, cfg: Config, start: int) {
    && Faithful(p, cfg)
    && start <= p.now
    && (if p.finished then exists k: nat :: Resolved(p, cfg, start, k) else Waiting(p, cfg, start))
  }

  lemma DueWaiting(p: Panel, cfg: Config, start: int)
    requires Waiting(p, cfg, start)
    ensures p.now <= Due(cfg, start, p.log)
    ensures p.now == start + cfg.hardMs || p.grace == Some(p.now) ==> p.now == Due(cfg, start, p.log)
  {
  }

  /** A settlement after the resolution does not change when the panel was due. */
  lemma DueStable(cfg: Config, start: int, log: seq<Arrival>, a: Arrival)
    requires Due(cfg, start, log) <= a.at
    ensures Due(cfg, start, log + [a]) == Due(cfg, start, log)
  {
    assert (log + [a])[..|log + [a]| - 1] == log;
  }

  /** Resolving now is resolving on time. */
  lemma FinishKeeps(p: Panel, cfg: Config, start: int)
    requires Faithful(p, cfg) && start <= p.now && !p.finished && p.resolutions == []
    requires p.now == Due(cfg, start, p.log)
    ensures Inv(Finished(p), cfg, start)
  {
    hide Outs, OkCount, Due;
    assert p.log[..|p.log|] == p.log;
    assert Resolved(Finished(p), cfg, start, |p.log|);
  }

  lemma LogKeeps(p: Panel, cfg: Config, slot: nat, answer: Answer)
    requires Faithful(p, cfg) && slot < |p.out|
    ensures var log := p.log + [Arrival(p.now, slot, answer)];
            && p.out[slot := Some(answer)] == Outs(log, cfg.n)
            && (if IsOk(answer) then p.ok + 1 else p.ok) == OkCount(log)
            && Timed(log, p.now)
  {
    var log := p.log + [Arrival(p.now, slot, answer)];
    assert log[..|log| - 1] == p.log;
  }

  lemma QuorumNext(log: seq<Arrival>, a: Arrival, min: int)
    ensures QuorumAt(log + [a], min) ==
            if QuorumAt(log, min).Some? then QuorumAt(log, min)
            else if OkCount(log + [a]) >= min then Some(a.at)
            else None
  {
    assert (log + [a])[..|log + [a]| - 1] == log;
  }

  lemma SettleWaiting(p: Panel, cfg: Config, start: int, slot: nat, answer: Answer)
    requires Inv(p, cfg, start) && !p.finished && slot < |p.out|
    ensures Inv(Settled(p, cfg, slot, answer), cfg, start)
  {
    hide Outs, OkCount, Timed, QuorumAt;
    var a := Arrival(p.now, slot, answer);
    var log := p.log + [a];
    LogKeeps(p, cfg, slot, answer);
    QuorumNext(p.log, a, cfg.minPanel);
    if p.settled + 1 == cfg.n {
      var q := p.(out := p.out[slot := Some(answer)], settled := p.settled + 1,
                  ok := if IsOk(answer) then p.ok + 1 else p.ok, log := log);
      FinishKeeps(q, cfg, start);
    }
  }

  lemma SettleResolved(p: Panel, cfg: Config, start: int, slot: nat, answer: Answer)
    requires Inv(p, cfg, start) && p.finished && slot < |p.out|
    ensures Inv(Settled(p, cfg, slot, answer), cfg, start)
  {
    hide Outs, OkCount, Timed, Due;
    var k: nat :| Resolved(p, cfg, start, k);
    LogKeeps(p, cfg, slot, answer);
    var q := Settled(p, cfg, slot, answer);
    DueStable(cfg, start, p.log, Arrival(p.now, slot, answer));
    assert q.log[..k] == p.log[..k];
    assert Resolved(q, cfg, start, k);
  }

  lemma TimerKeeps(p: Panel, cfg: Config, start: int, e: Event)
    requires Inv(p, cfg, start) && Allows(p, cfg, start, e) && !e.Settle?
    ensures Inv(Step(p, cfg, e), cfg, start)
  {
    hide Outs, OkCount, Due;
    if p.finished {
      var k: nat :| Resolved(p, cfg, start, k);
      assert Resolved(Step(p, cfg, e), cfg, start, k);
    } else if e.Clock? {
      assert Waiting(Step(p, cfg, e), cfg, start);
    } else {
      DueWaiting(p, cfg, start);
      FinishKeeps(if e.HardTimer? then p.(hardArmed := false) else p.(graceArmed := false), cfg, start);
    }
  }

  lemma {:induction false} InvRun(cfg: Config, start: int, es: seq<Event>)
    requires Legal(cfg, start, es)
    ensures Inv(Run(cfg, start, es), cfg, start)
  {
    hide Inv;
    if es == [] {
      InvStart(cfg, start);
    } else {
      var p, e := Run(cfg, start, es[..|es| - 1]), es[|es| - 1];
      InvRun(cfg, start, es[..|es| - 1]);
      if e.Settle? {
        if p.finished { SettleResolved(p, cfg, start, e.slot, e.answer); }
        else { SettleWaiting(p, cfg, start, e.slot, e.answer); }
      } else {
        TimerKeeps(p, cfg, start, e);
      }
    }
  }

  lemma InvStart(cfg: Config, start: int)
    ensures Inv(Init(cfg, start), cfg, start)
  {
  }

  // ---------------------------------------------------------------- main results

  /** The panel resolves at most once, exactly at the earliest of the hard deadline, the instant
      all calls settled and quorum plus grace; before that moment it is pending. What it resolves
      with are the answers settled so far, each at its own index. */
  lemma ResolvesWhenDue(cfg: Config, start: int, es: seq<Event>) returns (k: nat)
    requires Legal(cfg, start, es)
    ensures var p := Run(cfg, start, es);
            && |p.resolutions| <= 1
            && (p.resolutions == [] ==> p.now <= Due(cfg, start, p.log) && (|p.log| < cfg.n || cfg.n == 0))
            && (p.resolutions != [] ==>
                  && p.resolutions[0].at == Due(cfg, start, p.log)
                  && k <= |p.log|
                  && (forall i :: 0 <= i < k ==> p.log[i].at <= p.resolutions[0].at)
                  && (forall i :: k <= i < |p.log| ==> p.resolutions[0].at <= p.log[i].at)
                  && p.resolutions[0].out == Outs(p.log[..k], cfg.n)
                  && p.resolutions[0].ok == OkCount(p.log[..k]))
  {
    hide Outs, OkCount, Due, Run, Legal;
    InvRun(cfg, start, es);
    var p := Run(cfg, start, es);
    k := 0;
    if p.finished {
      k :| Resolved(p, cfg, start, k);
    } else {
      DueWaiting(p, cfg, start);
    }
  }

  /** Once the clock is past the due moment the panel has resolved. */
  lemma ResolvesEventually(cfg: Config, start: int, es: seq<Event>)
    requires Legal(cfg, start, es) && Run(cfg, start, es).now > Due(cfg, start, Run(cfg, start, es).log)
    ensures |Run(cfg, start, es).resolutions| == 1
  {
    var k := ResolvesWhenDue(cfg, start, es);
  }

  ghost predicate DistinctSlots(log: seq<Arrival>) {
    forall i, j :: 0 <= i < j < |log| ==> log[i].slot != log[j].slot
  }

  /** An index of the array is filled exactly when its own call has settled, with that answer. */
  lemma {:induction false} OutsMeaning(log: seq<Arrival>, n: nat, slot: nat)
    requires DistinctSlots(log) && slot < n
    ensures Outs(log, n)[slot].None? <==> forall i :: 0 <= i < |log| ==> log[i].slot != slot
    ensures forall i :: 0 <= i < |log| && log[i].slot == slot ==> Outs(log, n)[slot] == Some(log[i].answer)
  {
    if log != [] {
      var init, last := log[..|log| - 1], log[|log| - 1];
      assert forall i :: 0 <= i < |init| ==> init[i] == log[i];
      OutsMeaning(init, n, slot);
      if last.slot == slot {
        assert forall i :: 0 <= i < |init| ==> log[i].slot != slot;
      }
    }
  }

  /** In every run each call is logged at most once. */
  lemma {:induction false} SettlesOnce(cfg: Config, start: int, es: seq<Event>)
    requires Legal(cfg, start, es)
    ensures DistinctSlots(Run(cfg, start, es).log)
    ensures forall i :: 0 <= i < |Run(cfg, start, es).log| ==> Run(cfg, start, es).log[i].slot < cfg.n
  {
    hide Outs, Inv, DistinctSlots, Settled, Finished;
    if es == [] {
      NoSlots();
    } else {
      var init, e := es[..|es| - 1], es[|es| - 1];
      var p := Run(cfg, start, init);
      SettlesOnce(cfg, start, init);
      InvRun(cfg, start, init);
      LogStep(p, cfg, start, e);
    }
  }

  lemma NoSlots()
    ensures DistinctSlots([])
  {
  }

  lemma LogStep(p: Panel, cfg: Config, start: int, e: Event)
    requires Inv(p, cfg, start) && DistinctSlots(p.log) && Allows(p, cfg, start, e)
    requires forall i :: 0 <= i < |p.log| ==> p.log[i].slot < cfg.n
    ensures DistinctSlots(Step(p, cfg, e).log)
    ensures forall i :: 0 <= i < |Step(p, cfg, e).log| ==> Step(p, cfg, e).log[i].slot < cfg.n
  {
    hide Outs, Resolved, Waiting;
    if e.Settle? {
      OutsMeaning(p.log, cfg.n, e.slot);
      assert Step(p, cfg, e).log == p.log + [Arrival(p.now, e.slot, e.answer)];
    } else {
      assert Step(p, cfg, e).log == p.log;
    }
  }

  // ---------------------------------------------------------------- the code

  /** The closure of `collectPanel`. `out` is the array the promise resolves with; it stays shared
      and later settlements still write to it. */
  class Collector {
    const cfg: Config
    const out: array<Option<Answer>>
    var settled: nat
    var ok: nat
    var finished: bool
    var hardTimer: bool
    var graceTimer: Option<int>
    var graceArmed: bool
    ghost var now: int
    ghost var resolutions: seq<Resolution>
    ghost var log: seq<Arrival>

    ghost function View(): Panel
      reads this, out
    {
      Panel(out[..], settled, ok, finished, hardTimer, graceTimer, graceArmed, now, resolutions, log)
    }

    constructor (cfg: Config, ghost start: int)
      ensures this.cfg == cfg && fresh(out) && View() == Init(cfg, start)
    {
      this.cfg := cfg;
      out := new Option<Answer>[cfg.n](_ => None);
      settled, ok, finished := 0, 0, false;
      hardTimer, graceTimer, graceArmed := true, None, false;
      now, resolutions, log := start, [], [];
      new;
      assert out[..] == seq(cfg.n, _ => None);
    }

    method Finish()
      modifies this
      ensures View() == Finished(old(View()))
    {
      if finished { return; }
      finished := true;
      hardTimer := false;
      if graceTimer.Some? { graceArmed := false; }
      resolutions := resolutions + [Resolution(now, out[..], ok)];
    }

    /** The settlement handlers of call i; `clock` is the time at which they run. */
    method OnSettled(i: nat, v: Answer, clock: int)
      requires i < out.Length && clock == now
      modifies this, out
      ensures View() == Settled(old(View()), cfg, i, v)
    {
      out[i] := Some(v);
      settled := settled + 1;
      log := log + [Arrival(now, i, v)];
      if IsOk(v) { ok := ok + 1; }
      assert out[..] == old(out[..])[i := Some(v)];
      if settled == cfg.n {
        Finish();
        return;
      }
      if ok >= cfg.minPanel && graceTimer.None? {
        graceTimer, graceArmed := Some(clock + cfg.graceMs), true;
      }
    }

    method OnHardTimer()
      modifies this
      ensures View() == Step(old(View()), cfg, HardTimer)
    {
      hardTimer := false;
      Finish();
    }

    method OnGraceTimer()
      modifies this
      ensures View() == Step(old(View()), cfg, GraceTimer)
    {
      graceArmed := false;
      Finish();
    }
  }
}
