/** Which tokens a wallet pays with, at which price, in which order, and whom. */
module Spending {
  import opened Orders
  import opened Billing
  import opened Allocator
  import opened Aggregator
  import opened AggregatorLaws
  import B = Balances

  // ---- In order of priority ----

  /** Symbols, addresses and the priority list are without repetition. */
  ghost predicate TokensTold(cfg: Config) {
    && Distinct(cfg.priority)
    && forall x, y | x in cfg.tokens && y in cfg.tokens && x.address == y.address :: x.symbol == y.symbol
  }

  /** The token of a symbol could be charged: configured, at its peg, and the wallet has some. */
  predicate Spendable(cfg: Config, m: Market, b: Allocator.Balances, symbol: string) {
    match FindToken(cfg.tokens, symbol)
    case None => false
    case Some(t) => t.address in b && b[t.address] > 0 && !(m.depegged && symbol == m.stableSymbol && symbol != "" && symbol != "FIL")
  }

  predicate Emptied(cfg: Config, working: Allocator.Balances, symbol: string) {
    match FindToken(cfg.tokens, symbol)
    case None => false
    case Some(t) => t.address in working && working[t.address] == 0
  }

  predicate Touched(cfg: Config, b: Allocator.Balances, working: Allocator.Balances, symbol: string) {
    match FindToken(cfg.tokens, symbol)
    case None => false
    case Some(t) => t.address in b && t.address in working && working[t.address] != b[t.address]
  }

  lemma {:induction false} UntouchedBefore(cfg: Config, m: Market, symbols: seq<string>, total: real, b: Allocator.Balances, symbol: string)
    requires TokensTold(cfg) && symbol !in symbols
    ensures var till := Deduct(cfg, m, symbols, total, b);
      till.working.Keys == b.Keys && !Touched(cfg, b, till.working, symbol)
    decreases |symbols|
  {
    FindTokenMatches(cfg.tokens, symbol);
    if symbols != [] {
      var n := |symbols| - 1;
      UntouchedBefore(cfg, m, symbols[..n], total, b, symbol);
      FindTokenMatches(cfg.tokens, symbols[n]);
      assert symbols[n] in symbols;
    }
  }

  /** While something is still owed, everything spendable so far is gone. */
  lemma {:induction false} EmptiedSoFar(cfg: Config, m: Market, symbols: seq<string>, total: real, b: Allocator.Balances, symbol: string)
    requires TokensTold(cfg) && PositivePrices(m) && Distinct(symbols) && symbol in symbols && Spendable(cfg, m, b, symbol)
    requires Deduct(cfg, m, symbols, total, b).remaining > 0.0
    ensures Emptied(cfg, Deduct(cfg, m, symbols, total, b).working, symbol)
    decreases |symbols|
  {
    var n := |symbols| - 1;
    var before := Deduct(cfg, m, symbols[..n], total, b);
    assert symbols == symbols[..n] + [symbols[n]];
    FindTokenMatches(cfg.tokens, symbol);
    FindTokenMatches(cfg.tokens, symbols[n]);
    if symbol == symbols[n] {
      assert symbol !in symbols[..n];
      UntouchedBefore(cfg, m, symbols[..n], total, b, symbol);
    } else {
      EmptiedSoFar(cfg, m, symbols[..n], total, b, symbol);
    }
  }

  /** A token is touched only after every spendable token before it in the list is empty. */
  lemma {:induction false} SpentInOrder(cfg: Config, m: Market, symbols: seq<string>, total: real, b: Allocator.Balances, i: nat, j: nat)
    requires TokensTold(cfg) && PositivePrices(m) && Distinct(symbols) && i < j < |symbols|
    requires Spendable(cfg, m, b, symbols[i]) && Touched(cfg, b, Deduct(cfg, m, symbols, total, b).working, symbols[j])
    ensures Emptied(cfg, Deduct(cfg, m, symbols, total, b).working, symbols[i])
    decreases |symbols|
  {
    var n := |symbols| - 1;
    var before := Deduct(cfg, m, symbols[..n], total, b);
    assert symbols == symbols[..n] + [symbols[n]];
    FindTokenMatches(cfg.tokens, symbols[i]);
    FindTokenMatches(cfg.tokens, symbols[j]);
    FindTokenMatches(cfg.tokens, symbols[n]);
    if j == n {
      assert symbols[n] !in symbols[..n];
      UntouchedBefore(cfg, m, symbols[..n], total, b, symbols[n]);
      assert before.remaining > 0.0;
      EmptiedSoFar(cfg, m, symbols[..n], total, b, symbols[i]);
    } else {
      SpentInOrder(cfg, m, symbols[..n], total, b, i, j);
    }
  }

  // ---- At market prices, never in a depegged coin ----

  /** The price of a whole token: FIL and the watched stablecoin have a feed, all else a dollar. */
  predicate PricedAt(m: Market, symbol: string, price: real) {
    if symbol == "FIL" then price == m.fil
    else if symbol == m.stableSymbol && symbol != "" then price == m.stablePrice
    else price == 1.0
  }

  predicate OffPeg(m: Market, symbol: string) { m.depegged && symbol == m.stableSymbol && symbol != "" && symbol != "FIL" }

  /** A slice takes whole units of a coin at its peg, worth what it is charged for to the unit. */
  ghost predicate FairSlice(m: Market, s: Slice) {
    && s.amount > 0 && !OffPeg(m, s.token.symbol)
    && forall price | PricedAt(m, s.token.symbol, price) ::
         FromWei(s.amount, s.token.decimals) * price <= s.usd < FromWei(s.amount + 1, s.token.decimals) * price
  }

  lemma {:induction false} SlicesAtPeg(cfg: Config, m: Market, symbols: seq<string>, total: real, b: Allocator.Balances)
    ensures forall s | s in Deduct(cfg, m, symbols, total, b).slices :: !OffPeg(m, s.token.symbol)
    decreases |symbols|
  {
    if symbols != [] {
      var n := |symbols| - 1;
      SlicesAtPeg(cfg, m, symbols[..n], total, b);
      FindTokenMatches(cfg.tokens, symbols[n]);
    }
  }

  lemma {:induction false} SlicesFair(cfg: Config, m: Market, total: real, b: Allocator.Balances)
    requires PositivePrices(m) && total >= 0.0
    ensures forall s | s in Deduct(cfg, m, cfg.priority, total, b).slices :: FairSlice(m, s)
  {
    SlicesAtPeg(cfg, m, cfg.priority, total, b);
    DeductAccounted(cfg, m, cfg.priority, total, b);
  }

  lemma {:induction false} WalletFair(cfg: Config, m: Market, w: string, payees: seq<string>, costs: map<Key, real>, b: Allocator.Balances)
    requires PositivePrices(m) && CostsNonNegative(costs)
    ensures forall p | p in PayWallet(cfg, m, w, payees, costs, b).payments :: FairSlice(m, p.slice) && p.key.wallet == w && p.key.sp in payees
    decreases |payees|
  {
    if payees != [] {
      var n := |payees| - 1;
      var before := PayWallet(cfg, m, w, payees[..n], costs, b);
      WalletFair(cfg, m, w, payees[..n], costs, b);
      SlicesFair(cfg, m, CostOf(costs, Key(w, payees[n])), before.working);
      assert payees == payees[..n] + [payees[n]];
    }
  }

  lemma {:induction false} PayoutFair(cfg: Config, env: Env, wallets: seq<string>, costs: map<Key, real>)
    requires PositivePrices(env.market) && CostsNonNegative(costs)
    ensures forall p | p in PayWallets(cfg, env, wallets, costs).payments :: FairSlice(env.market, p.slice) && p.key in costs
    decreases |wallets|
  {
    if wallets != [] {
      var n := |wallets| - 1;
      var payees := SortedSet(Payees(costs.Keys, wallets[n]));
      PayoutFair(cfg, env, wallets[..n], costs);
      WalletFair(cfg, env.market, wallets[n], payees, costs, BalancesOf(env, wallets[n]));
      SortedSetMembers(Payees(costs.Keys, wallets[n]));
      forall p | p in PayWallet(cfg, env.market, wallets[n], payees, costs, BalancesOf(env, wallets[n])).payments ensures p.key in costs {
        var k :| k in costs.Keys && k.wallet == wallets[n] && k.sp == p.key.sp;
        assert k == p.key;
      }
    }
  }

  /** Every item of an aggregation is fair, and for a wallet and SP that owe something. */
  lemma {:induction false} ItemsFair(cfg: Config, env: Env, records: seq<Record>, carried: seq<Debt>)
    requires PositivePrices(env.market) && Chargeable(cfg, records)
    ensures forall it | it in Aggregate(cfg, env, records, carried).items ::
      FairSlice(env.market, Slice(it.token, it.amount, it.usd)) && it.key in Keys(env, records, carried)
  {
    var costs := Costs(cfg, env, records, carried);
    CostsAreNonNegative(cfg, env, records, carried);
    PayoutFair(cfg, env, SortedSet(Wallets(costs.Keys)), costs);
    ItemsFromPayments(cfg, env, records, carried);
  }

  lemma {:induction false} ItemsFromPayments(cfg: Config, env: Env, records: seq<Record>, carried: seq<Debt>)
    requires env.market.fil > 0.0
    ensures forall it | it in Aggregate(cfg, env, records, carried).items :: MoneyOf(it) in Pay(cfg, env, records, carried).payments
  {
    AttachedMoney(Pay(cfg, env, records, carried).payments, IdsFor(env, records, carried));
  }

  lemma {:induction false} AttachedMoney(payments: seq<Payment>, ids: Key -> seq<string>)
    ensures forall it | it in Sort(ItemKey(), AttachIds(payments, ids)) :: MoneyOf(it) in payments
  {
    var attached := AttachIds(payments, ids);
    SortSorts(ItemKey(), attached);
    forall it | it in Sort(ItemKey(), attached) ensures MoneyOf(it) in payments {
      assert it in multiset(attached);
      var i :| 0 <= i < |attached| && attached[i] == it;
      assert payments[i] in payments && payments[i].slice == Slice(it.token, it.amount, it.usd);
    }
  }

  /** Nor does the gate count such a coin. */
  lemma OffPegUncounted(m: Market, b: Allocator.Balances, t: Token)
    requires OffPeg(m, t.symbol)
    ensures B.HoldingOf(m, b)(t) == 0.0
  {
  }

  /** And all else it counts at those prices. */
  lemma CountedAtPrice(m: Market, b: Allocator.Balances, t: Token, price: real)
    requires !OffPeg(m, t.symbol) && PricedAt(m, t.symbol, price) && t.address in b && b[t.address] > 0
    ensures B.HoldingOf(m, b)(t) == FromWei(b[t.address], t.decimals) * price
  {
  }

  // ---- Whom ----

  /** The address a miner signed for itself, if there is one. */
  predicate SignedFor(rs: Resolver, worker: string, address: string) {
    worker in rs.workerMiner && rs.workerMiner[worker] in rs.signedPayout && rs.signedPayout[rs.workerMiner[worker]] == address != ""
  }

  predicate StaticFor(rs: Resolver, worker: string, address: string) {
    worker in rs.workerMiner && rs.workerMiner[worker] in rs.staticPayout && rs.staticPayout[rs.workerMiner[worker]] == address
  }

  predicate NoStatic(rs: Resolver, worker: string) { worker in rs.workerMiner ==> rs.workerMiner[worker] !in rs.staticPayout }

  predicate Unsigned(rs: Resolver, worker: string) {
    worker in rs.workerMiner && (rs.workerMiner[worker] in rs.signedPayout ==> rs.signedPayout[rs.workerMiner[worker]] == "")
  }

  /** If every worker that served a wallet signed for one address, that is the only SP the
      wallet pays, whatever the static map says. */
  lemma {:induction false} SignedAddressIsPaid(cfg: Config, env: Env, records: seq<Record>, w: string, address: string)
    requires PositivePrices(env.market) && Chargeable(cfg, records)
    requires forall r | r in records && r.wallet == w :: SignedFor(env.resolver, r.worker, address)
    ensures forall it | it in Aggregate(cfg, env, records, []).items && it.key.wallet == w :: it.key.sp == address
    ensures forall r | r in Aggregate(cfg, env, records, []).unresolved :: r.wallet != w
  {
    ItemsFair(cfg, env, records, []);
    forall r | r in Unresolved(env, records) ensures r.wallet != w { SplitMembers(env, records, r); }
  }

  /** Without one it is the miner's entry in the static map; without that nobody is paid and
      the record waits. */
  lemma {:induction false} StaticAddressIsPaid(cfg: Config, env: Env, records: seq<Record>, w: string, address: string)
    requires PositivePrices(env.market) && Chargeable(cfg, records)
    requires forall r | r in records && r.wallet == w :: Unsigned(env.resolver, r.worker)
    requires forall r | r in records && r.wallet == w :: StaticFor(env.resolver, r.worker, address) || NoStatic(env.resolver, r.worker)
    ensures forall it | it in Aggregate(cfg, env, records, []).items && it.key.wallet == w :: it.key.sp == address
    ensures forall r | r in records && r.wallet == w && NoStatic(env.resolver, r.worker) :: r in Aggregate(cfg, env, records, []).unresolved
  {
    ItemsFair(cfg, env, records, []);
    forall r | r in records && r.wallet == w && NoStatic(env.resolver, r.worker) ensures r in Unresolved(env, records) {
      SplitMembers(env, records, r);
    }
  }
}
