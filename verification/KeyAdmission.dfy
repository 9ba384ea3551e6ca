/** When a key's request is admitted, said of what was recorded before (open-sse/services/keyBudget.js). */
module KeyAdmission {
  import opened Basics
  import opened KeyBudget
  import opened KeyTokens

  // ---------------------------------------------------------------- the budget period

  /** How long a budget lasts: for ever, a day, or thirty days. */
  function Length(period: Period): Option<int> {
    match period
    case Lifetime => None
    case Daily => Some(86400000)
    case Monthly => Some(2592000000)
  }

  /** A model that the key may use: no whitelist, no model named, the model listed, or any model allowed. */
  predicate MayUse(cfg: Config, model: string) {
    cfg.whitelist == [] || model == "" || (exists w :: w in cfg.whitelist && (w == model || w == "*"))
  }

  /** How many of the events the last reset had seen. A check resets the period if the key has a budget, may use
      the model, and the period is over. */
  function LastReset(cfg: Config, at: int, es: seq<Event>): (k: nat)
    ensures k <= |es|
  {
    if es == [] then 0
    else
      var init, e := es[..|es| - 1], es[|es| - 1];
      var k := LastReset(cfg, at, init);
      if e.Check? && cfg.maxBudget > 0.0 && MayUse(cfg, e.model) && IsOver(cfg, Began(at, init, k), e.at)
      then |es| else k
  }

  /** The time at which the period of the last reset began. */
  function Began(at: int, es: seq<Event>, k: nat): int
    requires k <= |es|
  {
    if k == 0 then at else es[k - 1].at
  }

  predicate IsOver(cfg: Config, began: int, now: int) {
    Length(cfg.period).Some? && now - began > Length(cfg.period).value
  }

  /** What counts against the budget now: the costs recorded since the last reset, or none if one is due. */
  ghost function Spent(cfg: Config, at: int, es: seq<Event>, now: int): real {
    var k := LastReset(cfg, at, es);
    if IsOver(cfg, Began(at, es, k), now) then 0.0 else Costs(es) - Costs(es[..k])
  }

  lemma MayUseIs(cfg: Config, model: string)
    ensures Listed(cfg, model) <==> MayUse(cfg, model)
  {
  }

  lemma LengthIs(period: Period)
    ensures PeriodMs(period) == Length(period)
  {
  }

  /** The ledger counts from the last reset on. */
  ghost predicate Counts(cfg: Config, at: int, es: seq<Event>, l: Ledger) {
    var k := LastReset(cfg, at, es);
    l.periodStart == Began(at, es, k) && l.periodSpend == Costs(es) - Costs(es[..k]) && l.totalSpend == Costs(es)
  }

  /** What a check does to the spend. */
  lemma CheckResets(l: Ledger, cfg: Config, model: string, est: int, now: int)
    ensures var due := cfg.maxBudget > 0.0 && MayUse(cfg, model) && IsOver(cfg, l.periodStart, now);
            var l' := Checked(l, cfg, model, est, now).0;
            && l'.totalSpend == l.totalSpend
            && l'.periodStart == (if due then now else l.periodStart)
            && l'.periodSpend == (if due then 0.0 else l.periodSpend)
  {
    MayUseIs(cfg, model);
    LengthIs(cfg.period);
    hide Live, LiveUsage, TokenSum, Listed, MayUse;
  }

  lemma SpendStep(cfg: Config, w: World, e: Event)
    ensures var l, l' := w.ledger, Step(cfg, w, e).ledger;
            var due := e.Check? && cfg.maxBudget > 0.0 && MayUse(cfg, e.model) && IsOver(cfg, l.periodStart, e.at);
            var cost := if e.Record? then e.cost else 0.0;
            && l'.totalSpend == l.totalSpend + cost
            && l'.periodStart == (if due then e.at else l.periodStart)
            && l'.periodSpend == (if due then 0.0 else l.periodSpend + cost)
  {
    if e.Check? { CheckResets(w.ledger, cfg, e.model, e.est, e.at); }
    hide Checked, MayUse, IsOver, Trim;
  }

  lemma ResetSnoc(cfg: Config, at: int, es: seq<Event>, e: Event)
    ensures var all, k := es + [e], LastReset(cfg, at, es);
            && LastReset(cfg, at, all) ==
                 (if e.Check? && cfg.maxBudget > 0.0 && MayUse(cfg, e.model) && IsOver(cfg, Began(at, es, k), e.at)
                  then |all| else k)
            && Began(at, all, k) == Began(at, es, k) && Began(at, all, |all|) == e.at
            && all[..k] == es[..k] && all[..|all|] == all
            && Costs(all) == Costs(es) + (if e.Record? then e.cost else 0.0)
  {
    assert (es + [e])[..|es|] == es;
    hide MayUse, IsOver;
  }

  lemma CountsStep(cfg: Config, at: int, es: seq<Event>, e: Event, w: World)
    requires Counts(cfg, at, es, w.ledger)
    ensures Counts(cfg, at, es + [e], Step(cfg, w, e).ledger)
  {
    hide Step, LastReset, Began, Costs, MayUse, IsOver;
    SpendStep(cfg, w, e);
    ResetSnoc(cfg, at, es, e);
  }

  lemma {:induction false} CountsRun(cfg: Config, at: int, es: seq<Event>)
    ensures Counts(cfg, at, es, Run(cfg, Start(at), es).ledger)
  {
    if es != [] {
      hide Counts, Step;
      var init, e := es[..|es| - 1], es[|es| - 1];
      CountsRun(cfg, at, init);
      CountsStep(cfg, at, init, e, Run(cfg, Start(at), init));
      assert es == init + [e];
    } else {
      assert es[..0] == es;
    }
  }

  // ---------------------------------------------------------------- the verdicts

  /** A key is refused a model exactly if it has a whitelist that allows neither the model nor any. */
  lemma WhitelistVerdict(l: Ledger, cfg: Config, model: string, est: int, now: int)
    ensures Checked(l, cfg, model, est, now).1.NotWhitelisted? <==> !MayUse(cfg, model)
  {
    MayUseIs(cfg, model);
    hide Listed, MayUse, RateChecked;
    NeverUnlisted(if cfg.maxBudget > 0.0 then Renewed(l, cfg, now) else l, cfg, est, now);
  }

  lemma NeverUnlisted(l: Ledger, cfg: Config, est: int, now: int)
    ensures var d := RateChecked(l, cfg, est, now).1; d.Allowed? || d.OverRpm? || d.OverTpm?
  {
  }

  /** A key is over its budget exactly if it has one, may use the model, and the costs recorded since the last
      reset reach it, unless a reset is due now. The answer says when the period will be over. */
  lemma BudgetVerdict(cfg: Config, at: int, es: seq<Event>, model: string, est: int, now: int)
    ensures var d := Checked(Run(cfg, Start(at), es).ledger, cfg, model, est, now).1;
            && (d.OverBudget? <==>
                  MayUse(cfg, model) && cfg.maxBudget > 0.0 && Spent(cfg, at, es, now) >= cfg.maxBudget)
            && (d.OverBudget? ==>
                  d.retryMs == match Length(cfg.period)
                               case None => 0
                               case Some(ms) => Began(at, es, LastReset(cfg, at, es)) + ms - now)
  {
    var l := Run(cfg, Start(at), es).ledger;
    CountsRun(cfg, at, es);
    MayUseIs(cfg, model);
    LengthIs(cfg.period);
    hide Run, Listed, MayUse, RateChecked, Costs;
    NeverUnlisted(if cfg.maxBudget > 0.0 then Renewed(l, cfg, now) else l, cfg, est, now);
  }

  lemma NoRateLimit(l: Ledger, cfg: Config, model: string, est: int, now: int)
    ensures cfg.rpmLimit <= 0 ==> !Checked(l, cfg, model, est, now).1.OverRpm?
    ensures cfg.tpmLimit <= 0 || est <= 0 ==> !Checked(l, cfg, model, est, now).1.OverTpm?
    ensures Checked(l, cfg, model, est, now).1.OverTpm? ==> Checked(l, cfg, model, est, now).1 == OverTpm(5000)
  {
    hide Listed, Live, LiveUsage, TokenSum;
  }

  /** The whole answer, for a rate limit of at most 500 and at most 500 live usages: what it says is what all
      events so far say, first of the whitelist, then of the budget, the requests and the tokens. */
  lemma Admission(cfg: Config, c: int, at: int, es: seq<Event>, model: string, est: int, now: int)
    requires Legal(cfg, Start(at), es, c) && Run(cfg, Start(at), es).clock <= now
    requires cfg.rpmLimit <= 500 && |LiveUsage(Run(cfg, Start(at), es).usages, now)| <= 500
    ensures var w := Run(cfg, Start(at), es);
            var d := Checked(w.ledger, cfg, model, est, now).1;
            if !MayUse(cfg, model) then d.NotWhitelisted?
            else if cfg.maxBudget > 0.0 && Spent(cfg, at, es, now) >= cfg.maxBudget then d.OverBudget?
            else if cfg.rpmLimit > 0 && |InWindow(w.times, now)| >= cfg.rpmLimit then d.OverRpm?
            else if cfg.tpmLimit > 0 && est > 0 && TokenSum(LiveUsage(w.usages, now)) + est > cfg.tpmLimit
            then d == OverTpm(5000)
            else d.Allowed?
  {
    hide Run, Legal, Checked, LiveUsage, TokenSum, InWindow, Spent, MayUse, LastReset;
    var w := Run(cfg, Start(at), es);
    WhitelistVerdict(w.ledger, cfg, model, est, now);
    BudgetVerdict(cfg, at, es, model, est, now);
    NoRateLimit(w.ledger, cfg, model, est, now);
    if cfg.rpmLimit > 0 { RpmVerdict(cfg, c, at, es, model, est, now); }
    if cfg.tpmLimit > 0 && est > 0 { TokenVerdict(cfg, at, es, c, model, est, now); }
  }
}
