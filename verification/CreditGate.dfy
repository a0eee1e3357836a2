/** The gate and the allocator agree: whatever token value the gate counts, the allocator
    can collect, whatever the priority order. */
module CreditGate {
  import opened Orders
  import opened Sums
  import opened Billing
  import opened Allocator
  import opened Aggregator
  import opened AggregatorLaws
  import opened Balances

  /** Token symbols and addresses are unique and every token can be deducted. */
  ghost predicate WellConfigured(cfg: Config) {
    && (forall i, j | 0 <= i < j < |cfg.tokens| :: cfg.tokens[i].symbol != cfg.tokens[j].symbol)
    && (forall i, j | 0 <= i < j < |cfg.tokens| :: cfg.tokens[i].address != cfg.tokens[j].address)
    && (forall t | t in cfg.tokens :: t.symbol in cfg.priority)
  }

  lemma {:induction false} FindTokenOwn(tokens: seq<Token>, t: Token)
    requires forall i, j | 0 <= i < j < |tokens| :: tokens[i].symbol != tokens[j].symbol
    requires t in tokens
    ensures FindToken(tokens, t.symbol) == Some(t)
    decreases |tokens|
  {
    if tokens[0] != t { FindTokenOwn(tokens[1..], t); }
  }

  /** Spending part of one token's balance lowers the wallet's value by exactly that part. */
  lemma ValueAfterTake(cfg: Config, m: Market, b: Allocator.Balances, t: Token, amount: int)
    requires WellConfigured(cfg) && PositivePrices(m) && t in cfg.tokens && t.address in b
    requires !Excluded(m, t.symbol) && 0 <= amount <= b[t.address] && b[t.address] > 0
    ensures TokenValue(cfg.tokens, m, b[t.address := b[t.address] - amount]) == TokenValue(cfg.tokens, m, b) - Worth(m, t, amount)
  {
    var after := b[t.address := b[t.address] - amount];
    WorthMonotone(m, t, amount, b[t.address]);
    WorthMonotone(m, t, 0, b[t.address] - amount);
    forall y | y in cfg.tokens && y != t ensures HoldingOf(m, after)(y) == HoldingOf(m, b)(y) {
      assert y.address != t.address;
    }
    SumBump(HoldingOf(m, after), HoldingOf(m, b), cfg.tokens, t, -Worth(m, t, amount));
  }

  ghost predicate Drained(cfg: Config, m: Market, symbols: seq<string>, b: Allocator.Balances) {
    forall s | s in symbols && FindToken(cfg.tokens, s).Some? :: HoldingOf(m, b)(FindToken(cfg.tokens, s).value) == 0.0
  }

  /** What a deduction collects it takes out of the value, and it leaves a shortfall only
      after everything it may touch is gone. */
  ghost predicate ValueTaken(cfg: Config, m: Market, symbols: seq<string>, total: real, b: Allocator.Balances, till: Till) {
    && TokenValue(cfg.tokens, m, till.working) >= TokenValue(cfg.tokens, m, b) - (total - till.remaining)
    && (till.remaining > 0.0 ==>
          TokenValue(cfg.tokens, m, till.working) == TokenValue(cfg.tokens, m, b) - (total - till.remaining)
          && Drained(cfg, m, symbols, till.working))
  }

  lemma ValueTakenStep(cfg: Config, m: Market, symbols: seq<string>, symbol: string, total: real, b: Allocator.Balances, till: Till)
    requires WellConfigured(cfg) && PositivePrices(m) && Accounted(m, total, b, till)
    requires ValueTaken(cfg, m, symbols, total, b, till)
    ensures ValueTaken(cfg, m, symbols + [symbol], total, b, DeductSymbol(cfg, m, till, symbol))
  {
    FindTokenMatches(cfg.tokens, symbol);
    var after := DeductSymbol(cfg, m, till, symbol);
    if after != till {
      var t := FindToken(cfg.tokens, symbol).value;
      var balance := till.working[t.address];
      var want := ToWei(till.remaining / PriceOf(m, t.symbol), t.decimals);
      TruncationBounds(m, t, till.remaining);
      if want > balance {
        ValueAfterTake(cfg, m, till.working, t, balance);
        forall s | s in symbols + [symbol] && FindToken(cfg.tokens, s).Some?
          ensures HoldingOf(m, after.working)(FindToken(cfg.tokens, s).value) == 0.0
        {
          if s in symbols { assert HoldingOf(m, till.working)(FindToken(cfg.tokens, s).value) == 0.0; }
        }
      } else if want > 0 {
        ValueAfterTake(cfg, m, till.working, t, want);
      }
    }
  }

  lemma {:induction false} DeductTakesValue(cfg: Config, m: Market, symbols: seq<string>, total: real, b: Allocator.Balances)
    requires WellConfigured(cfg) && PositivePrices(m) && total >= 0.0
    ensures ValueTaken(cfg, m, symbols, total, b, Deduct(cfg, m, symbols, total, b))
    decreases |symbols|
  {
    if symbols != [] {
      var n := |symbols| - 1;
      DeductTakesValue(cfg, m, symbols[..n], total, b);
      DeductAccounted(cfg, m, symbols[..n], total, b);
      ValueTakenStep(cfg, m, symbols[..n], symbols[n], total, b, Deduct(cfg, m, symbols[..n], total, b));
      assert symbols == symbols[..n] + [symbols[n]];
    }
  }

  /** One cost within the token value is collected in full. */
  lemma {:induction false} CoveredCostIsCollected(cfg: Config, m: Market, total: real, b: Allocator.Balances)
    requires WellConfigured(cfg) && PositivePrices(m) && 0.0 <= total <= TokenValue(cfg.tokens, m, b)
    ensures var till := Deduct(cfg, m, cfg.priority, total, b);
      till.remaining == 0.0 && TokenValue(cfg.tokens, m, till.working) >= TokenValue(cfg.tokens, m, b) - total
  {
    var till := Deduct(cfg, m, cfg.priority, total, b);
    DeductTakesValue(cfg, m, cfg.priority, total, b);
    DeductAccounted(cfg, m, cfg.priority, total, b);
    forall t | t in cfg.tokens && till.remaining > 0.0 ensures HoldingOf(m, till.working)(t) == 0.0 {
      FindTokenOwn(cfg.tokens, t);
      assert t.symbol in cfg.priority;
    }
    if till.remaining > 0.0 { SumZero(HoldingOf(m, till.working), cfg.tokens); }
  }

  lemma {:induction false} CoveredPayees(cfg: Config, m: Market, w: string, payees: seq<string>, costs: map<Key, real>, b: Allocator.Balances)
    requires WellConfigured(cfg) && PositivePrices(m) && CostsNonNegative(costs)
    requires Sum(CostAt(costs, w), payees) <= TokenValue(cfg.tokens, m, b)
    ensures var paid := PayWallet(cfg, m, w, payees, costs, b);
      paid.debts == [] && TokenValue(cfg.tokens, m, paid.working) >= TokenValue(cfg.tokens, m, b) - Sum(CostAt(costs, w), payees)
    decreases |payees|
  {
    if payees != [] {
      var n := |payees| - 1;
      var cost := CostOf(costs, Key(w, payees[n]));
      assert CostAt(costs, w)(payees[n]) == cost;
      CoveredPayees(cfg, m, w, payees[..n], costs, b);
      CoveredCostIsCollected(cfg, m, cost, PayWallet(cfg, m, w, payees[..n], costs, b).working);
    }
  }

  lemma {:induction false} NoDebtOf(debts: seq<Debt>, w: string)
    requires (forall d | d in debts :: d.usd > 0.0) && Sum(DebtBy(w), debts) == 0.0
    ensures forall d | d in debts :: d.key.wallet != w
  {
    forall d | d in debts ensures d.key.wallet != w {
      var i :| 0 <= i < |debts| && debts[i] == d;
      SumRemove(DebtBy(w), debts, i);
      SumNonNegative(DebtBy(w), debts[..i] + debts[i + 1..]);
    }
  }

  lemma DebtsArePositive(cfg: Config, env: Env, records: seq<Record>, carried: seq<Debt>)
    requires PositivePrices(env.market) && Chargeable(cfg, records)
    ensures forall d | d in Aggregate(cfg, env, records, carried).debts :: d.usd > 0.0
  {
    PayShares(cfg, env, records, carried, "");
    var pay := Pay(cfg, env, records, carried);
    var debts := AttachDebtIds(pay.debts, IdsFor(env, records, carried));
    forall i | 0 <= i < |debts| ensures debts[i].usd > 0.0 { assert pay.debts[i] in pay.debts; }
  }

  lemma {:induction false} CoveredShare(cfg: Config, env: Env, records: seq<Record>, carried: seq<Debt>, w: string)
    requires WellConfigured(cfg) && PositivePrices(env.market) && Chargeable(cfg, records)
    requires Sum(CostBy(cfg, w), Resolved(env, records)) + Sum(DebtBy(w), carried) <= TokenValue(cfg.tokens, env.market, BalancesOf(env, w))
    ensures WalletShare(cfg, env, Costs(cfg, env, records, carried), w).debts == []
  {
    var costs := Costs(cfg, env, records, carried);
    CostsAreNonNegative(cfg, env, records, carried);
    WalletShareOwes(cfg, env, records, carried, w);
    CoveredPayees(cfg, env.market, w, SortedSet(Payees(costs.Keys, w)), costs, BalancesOf(env, w));
  }

  /** What the gate counts the allocator can collect: a wallet whose whole cost over all its
      payees is at most its counted token value is left without debt. */
  lemma {:induction false} GateCoversAllocation(cfg: Config, env: Env, records: seq<Record>, carried: seq<Debt>, w: string)
    requires WellConfigured(cfg) && PositivePrices(env.market) && Chargeable(cfg, records)
    requires Sum(CostBy(cfg, w), Resolved(env, records)) + Sum(DebtBy(w), carried) <= TokenValue(cfg.tokens, env.market, BalancesOf(env, w))
    ensures var agg := Aggregate(cfg, env, records, carried);
      && (forall d | d in agg.debts :: d.key.wallet != w)
      && SettledOf(agg.settled, w) == Sum(CostBy(cfg, w), Resolved(env, records)) + Sum(DebtBy(w), carried)
  {
    CoveredShare(cfg, env, records, carried, w);
    PayShares(cfg, env, records, carried, w);
    var pay := Pay(cfg, env, records, carried);
    AttachedDebts(pay.debts, IdsFor(env, records, carried), w);
    DebtsArePositive(cfg, env, records, carried);
    NoDebtOf(Aggregate(cfg, env, records, carried).debts, w);
    AggregationConserves(cfg, env, records, carried, w);
  }
}
