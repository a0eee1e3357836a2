/** The gate end to end: what it counts when it admits requests is what settlement can collect
    when it bills them. */
module Coverage {
  import opened Sums
  import opened Billing
  import opened Allocator
  import opened Aggregator
  import opened AggregatorLaws
  import opened CreditGate
  import opened Settlement
  import opened SettlementMoney
  import opened PendingLaw
  import B = Balances

  /** The records a plan bills cost no more than the records it takes. */
  lemma {:induction false} ResolvedCostsLess(cfg: Config, env: Env, records: seq<Record>, w: string)
    requires PricesNonNegative(cfg.prices) && MeteredRecords(records)
    ensures 0.0 <= Sum(CostBy(cfg, w), Resolved(env, records)) <= Sum(CostBy(cfg, w), records)
    decreases |records|
  {
    if records != [] {
      var n := |records| - 1;
      var r := records[n];
      assert r in records;
      ResolvedCostsLess(cfg, env, records[..n], w);
      CostNonNegative(cfg.prices, r);
      if Resolvable(env, r) {
        SumAppend(CostBy(cfg, w), Resolved(env, records[..n]), r);
      } else {
        assert Resolved(env, records[..n]) + [] == Resolved(env, records[..n]);
      }
    }
  }

  /** What the next plan can charge a wallet is at most its pending spend plus the dust, less
      the stranded usage nothing bills. */
  lemma {:induction false} NextPlanWithinPending(cfg: Config, events: seq<Event>, s: State, env: Env, now: nat, w: string)
    requires RunsGently(cfg, Initial(), events, s) && PricesNonNegative(cfg.prices) && Enabled(cfg, s, Plan(env, now))
    ensures s.cursor <= |s.log| && MeteredRecords(s.dead + Unread(s))
    ensures Sum(CostBy(cfg, w), Resolved(env, s.dead + Unread(s))) + Sum(DebtBy(w), LoadDebts(s.debts))
      <= B.PendingOf(s.pending, w) + DustBound(s) - Stranded(cfg, s, w)
  {
    InitiallySteady(cfg);
    GentleRuns(cfg, Initial(), events, s);
    PendingConserved(cfg, events, s, w);
    ReservedNonNegative(s, w);
    UnreadMetered(s);
    SumConcat(CostBy(cfg, w), s.dead, Unread(s));
    ResolvedCostsLess(cfg, env, s.dead + Unread(s), w);
    LoadedDebts(s.debts, w);
  }

  /** A wallet whose pending spend is covered by the token value the gate counts, with the dust
      and without the stranded usage, pays everything it owes in the next plan: the plan leaves
      it no debt and settles all its billable records and all its carried debt. */
  lemma {:induction false} CoveredWalletPaysAll(cfg: Config, events: seq<Event>, s: State, env: Env, now: nat, w: string)
    requires RunsGently(cfg, Initial(), events, s) && PricesNonNegative(cfg.prices) && Enabled(cfg, s, Plan(env, now))
    requires WellConfigured(cfg) && PositivePrices(env.market)
    requires B.PendingOf(s.pending, w) + DustBound(s) <= B.TokenValue(cfg.tokens, env.market, BalancesOf(env, w)) + Stranded(cfg, s, w)
    ensures var plan := Apply(cfg, s, Plan(env, now)).wal.value;
      && (forall d | d in plan.books.debts :: d.key.wallet != w)
      && SettledOf(plan.books.settled, w) ==
           Sum(CostBy(cfg, w), Resolved(env, s.dead + Unread(s))) + Sum(DebtBy(w), LoadDebts(s.debts))
  {
    NextPlanWithinPending(cfg, events, s, env, now, w);
    GateCoversAllocation(cfg, env, s.dead + Unread(s), LoadDebts(s.debts), w);
  }
}
