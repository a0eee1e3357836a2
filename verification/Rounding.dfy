/** How far the books can exceed the chain by rounding: less than one smallest unit of a token
    for every payee of a plan. */
module Rounding {
  import opened Orders
  import opened Sums
  import opened Billing
  import opened Allocator
  import opened Aggregator
  import opened AggregatorLaws
  import opened Settlement
  import opened SettlementSafety
  import opened SettlementMoney
  import opened PaidOnChain

  /** The dearest smallest unit of the configured tokens. */
  function UnitOf(m: Market, tokens: seq<Token>): (u: real)
    ensures u >= 0.0
  {
    if tokens == [] then 0.0
    else
      var n := |tokens| - 1;
      var before, last := UnitOf(m, tokens[..n]), Worth(m, tokens[n], 1);
      if last > before then last else before
  }

  lemma {:induction false} UnitCovers(m: Market, tokens: seq<Token>, t: Token)
    requires t in tokens
    ensures Worth(m, t, 1) <= UnitOf(m, tokens)
    decreases |tokens|
  {
    var n := |tokens| - 1;
    if t != tokens[n] { UnitCovers(m, tokens[..n], t); }
  }

  /** Strictly below, unless there is nothing to be below. */
  predicate Below(x: real, bound: real) { x <= bound && (bound > 0.0 ==> x < bound) }

  lemma {:induction false} DustBelow(cfg: Config, m: Market, total: real, working: Allocator.Balances)
    requires PositivePrices(m) && total >= 0.0
    ensures Below(Dust(total, Deduct(cfg, m, cfg.priority, total, working)), UnitOf(m, cfg.tokens))
  {
    DeductAccounted(cfg, m, cfg.priority, total, working);
    var dust := Dust(total, Deduct(cfg, m, cfg.priority, total, working));
    if dust > 0.0 {
      var t :| t in cfg.tokens && dust < Worth(m, t, 1);
      UnitCovers(m, cfg.tokens, t);
    }
  }

  function Times(n: nat, u: real): real { if n == 0 then 0.0 else Times(n - 1, u) + u }

  lemma {:induction false} TimesMultiplies(n: nat, u: real)
    ensures Times(n, u) == n as real * u && (u >= 0.0 ==> Times(n, u) >= 0.0)
  {
    if n > 0 {
      TimesMultiplies(n - 1, u);
      assert n as real * u == (n - 1) as real * u + u;
    }
  }

  function Rounded(w: string, paid: WalletTill): real { paid.settled - Sum(PaidUSD(w), paid.payments) }

  lemma {:induction false} PayeeRounds(cfg: Config, m: Market, w: string, payees: seq<string>, p: string, costs: map<Key, real>, balances: Allocator.Balances)
    requires PositivePrices(m) && CostsNonNegative(costs)
    ensures var before := PayWallet(cfg, m, w, payees, costs, balances);
      var cost := CostOf(costs, Key(w, p));
      Rounded(w, PayWallet(cfg, m, w, payees + [p], costs, balances)) ==
        Rounded(w, before) + Dust(cost, Deduct(cfg, m, cfg.priority, cost, before.working))
  {
    assert (payees + [p])[..|payees|] == payees;
    var before, k := PayWallet(cfg, m, w, payees, costs, balances), Key(w, p);
    var till := Deduct(cfg, m, cfg.priority, CostOf(costs, k), before.working);
    DeductAccounted(cfg, m, cfg.priority, CostOf(costs, k), before.working);
    SumConcat(PaidUSD(w), before.payments, Stamp(k, till.slices));
    StampedSums(w, k, till.slices, "");
  }

  lemma {:induction false} WalletRounds(cfg: Config, m: Market, w: string, payees: seq<string>, costs: map<Key, real>, balances: Allocator.Balances)
    requires PositivePrices(m) && CostsNonNegative(costs)
    ensures Below(Rounded(w, PayWallet(cfg, m, w, payees, costs, balances)), Times(|payees|, UnitOf(m, cfg.tokens)))
    decreases |payees|
  {
    if payees != [] {
      var n := |payees| - 1;
      assert payees == payees[..n] + [payees[n]];
      WalletRounds(cfg, m, w, payees[..n], costs, balances);
      PayeeRounds(cfg, m, w, payees[..n], payees[n], costs, balances);
      DustBelow(cfg, m, CostOf(costs, Key(w, payees[n])), PayWallet(cfg, m, w, payees[..n], costs, balances).working);
      TimesMultiplies(n, UnitOf(m, cfg.tokens));
    }
  }

  /** The payees of a wallet in the next plan. */
  ghost function PayeeCount(env: Env, records: seq<Record>, carried: seq<Debt>, w: string): nat {
    |Payees(Keys(env, records, carried), w)|
  }

  lemma {:induction false} SortedSetSize(s: set<string>)
    ensures |SortedSet(s)| == |s|
  {
    SortedSetMembers(s);
    assert |SortedSet(s)| == |multiset(SortedSet(s))| == |multiset(s)| == |s|;
  }

  lemma ItemsArePayments(cfg: Config, env: Env, records: seq<Record>, carried: seq<Debt>, w: string)
    requires env.market.fil > 0.0
    ensures Sum(ItemUSD(w), Aggregate(cfg, env, records, carried).items) == Sum(PaidUSD(w), Pay(cfg, env, records, carried).payments)
  {
    var pay, ids := Pay(cfg, env, records, carried), IdsFor(env, records, carried);
    AttachedSums(pay.payments, ids, w, "");
    SortSorts(ItemKey(), AttachIds(pay.payments, ids));
    SumPermutation(ItemUSD(w), Sort(ItemKey(), AttachIds(pay.payments, ids)), AttachIds(pay.payments, ids));
  }

  lemma ShareRounds(cfg: Config, env: Env, costs: map<Key, real>, w: string)
    requires PositivePrices(env.market) && CostsNonNegative(costs)
    ensures Below(Rounded(w, WalletShare(cfg, env, costs, w)), Times(|Payees(costs.Keys, w)|, UnitOf(env.market, cfg.tokens)))
  {
    SortedSetSize(Payees(costs.Keys, w));
    WalletRounds(cfg, env.market, w, SortedSet(Payees(costs.Keys, w)), costs, BalancesOf(env, w));
  }

  lemma PlanRoundsShare(cfg: Config, env: Env, records: seq<Record>, carried: seq<Debt>, w: string)
    requires PositivePrices(env.market) && Chargeable(cfg, records)
    ensures var agg := Aggregate(cfg, env, records, carried);
      SettledOf(agg.settled, w) - Sum(ItemUSD(w), agg.items) == Rounded(w, WalletShare(cfg, env, Costs(cfg, env, records, carried), w))
  {
    ItemsArePayments(cfg, env, records, carried, w);
    PayShares(cfg, env, records, carried, w);
    assert Aggregate(cfg, env, records, carried).settled == Pay(cfg, env, records, carried).settled;
  }

  lemma {:induction false} PlanRounds(cfg: Config, env: Env, records: seq<Record>, carried: seq<Debt>, w: string)
    requires PositivePrices(env.market) && Chargeable(cfg, records)
    ensures var agg := Aggregate(cfg, env, records, carried);
      Below(SettledOf(agg.settled, w) - Sum(ItemUSD(w), agg.items), Times(PayeeCount(env, records, carried, w), UnitOf(env.market, cfg.tokens)))
  {
    var costs := Costs(cfg, env, records, carried);
    PlanRoundsShare(cfg, env, records, carried, w);
    CostsAreNonNegative(cfg, env, records, carried);
    ShareRounds(cfg, env, costs, w);
    assert costs.Keys == Keys(env, records, carried);
  }

  // ---- Over a run ----

  /** One smallest unit for each payee of the wallet in a plan; nothing in a deferred one. */
  ghost function UnitsOf(cfg: Config, s: State, e: Event, w: string): real
    requires Enabled(cfg, s, e)
  {
    match e
    case Plan(env, _) =>
      if env.market.fil <= 0.0 then 0.0
      else Times(PayeeCount(env, s.dead + Unread(s), LoadDebts(s.debts), w), UnitOf(env.market, cfg.tokens))
    case _ => 0.0
  }

  ghost function RunUnits(cfg: Config, s: State, events: seq<Event>, w: string): real
    decreases |events|
  {
    if events == [] || !Enabled(cfg, s, events[0]) then 0.0
    else UnitsOf(cfg, s, events[0], w) + RunUnits(cfg, Apply(cfg, s, events[0]), events[1..], w)
  }

  lemma StepRounds(cfg: Config, s: State, e: Event, w: string)
    requires ShapeOk(s) && MoneyOk(cfg, s) && PricesNonNegative(cfg.prices) && Enabled(cfg, s, e)
    ensures UnitsOf(cfg, s, e, w) >= 0.0 && Below(RoundedOff(cfg, s, e, w), UnitsOf(cfg, s, e, w))
  {
    if e.Plan? && e.env.market.fil > 0.0 {
      UnreadMetered(s);
      PlanRounds(cfg, e.env, s.dead + Unread(s), LoadDebts(s.debts), w);
      TimesMultiplies(PayeeCount(e.env, s.dead + Unread(s), LoadDebts(s.debts), w), UnitOf(e.env.market, cfg.tokens));
    }
  }

  lemma {:induction false} RunRounds(cfg: Config, s: State, events: seq<Event>, t: State, w: string)
    requires ShapeOk(s) && MoneyOk(cfg, s) && PricesNonNegative(cfg.prices) && Runs(cfg, s, events, t)
    ensures RunUnits(cfg, s, events, w) >= 0.0 && Below(RunRoundedOff(cfg, s, events, w), RunUnits(cfg, s, events, w))
    decreases |events|
  {
    if events != [] {
      StepRounds(cfg, s, events[0], w);
      ShapeStep(cfg, s, events[0]);
      MoneyStep(cfg, s, events[0]);
      RunRounds(cfg, Apply(cfg, s, events[0]), events[1..], t, w);
    }
  }

  /** So over every run a wallet's books are within that of what its completed batches are
      worth: settled is at least paid out, repeated and unreversed amounts together, and
      exceeds them by less than one smallest unit per payee and plan. */
  lemma {:induction false} SettledWithinUnits(cfg: Config, events: seq<Event>, s: State, w: string)
    requires Runs(cfg, Initial(), events, s) && PricesNonNegative(cfg.prices) && s.wal.None?
    ensures var excess := Sum(RoundPaid(w), s.done) - (MovedUSD(s, w) + RepeatedUSD(s, w) + RunUnreversed(cfg, Initial(), events, w));
      0.0 <= excess && Below(excess, RunUnits(cfg, Initial(), events, w))
  {
    InitiallySafe();
    InitialMoney(cfg);
    SettledIsMoved(cfg, events, s, w);
    RunRounds(cfg, Initial(), events, s, w);
  }
}
