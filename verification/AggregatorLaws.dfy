/** What an aggregation guarantees: money is conserved per wallet, nothing is allocated
    twice, and the outcome does not depend on the order records arrive in. */
module AggregatorLaws {
  import opened Orders
  import opened Sums
  import opened Billing
  import opened Allocator
  import opened Aggregator

  // ---- Per-wallet measures ----

  function CostBy(cfg: Config, w: string): Record -> real {
    (r: Record) => if r.wallet == w then Cost(cfg.prices, r) else 0.0
  }

  /** Carried debt of a wallet; entries that are not positive are ignored, as in the code. */
  function DebtBy(w: string): Debt -> real {
    (d: Debt) => if d.usd > 0.0 && d.key.wallet == w then d.usd else 0.0
  }

  function OwedBy(w: string): Owed -> real {
    (o: Owed) => if o.key.wallet == w then o.usd else 0.0
  }

  function ItemUSD(w: string): Item -> real { (it: Item) => if it.key.wallet == w then it.usd else 0.0 }

  function PaidUSD(w: string): Payment -> real { (p: Payment) => if p.key.wallet == w then p.slice.usd else 0.0 }

  function PaidAt(w: string, a: string): Payment -> real {
    (p: Payment) => if p.key.wallet == w && p.slice.token.address == a then p.slice.amount as real else 0.0
  }

  function ItemAt(w: string, a: string): Item -> real {
    (it: Item) => if it.key.wallet == w && it.token.address == a then it.amount as real else 0.0
  }

  function SettledOf(settled: map<string, real>, w: string): real { if w in settled then settled[w] else 0.0 }

  function CostAt(costs: map<Key, real>, w: string): string -> real { (p: string) => CostOf(costs, Key(w, p)) }

  function OwingAt(cfg: Config, env: Env, records: seq<Record>, debts: seq<Debt>, w: string): string -> real {
    (p: string) => Owing(cfg, env, records, debts, Key(w, p))
  }

  ghost predicate CostsNonNegative(costs: map<Key, real>) { forall k | k in costs :: costs[k] >= 0.0 }

  /** Records that this cycle turns into money: none when the FIL price defers the cycle. */
  function Collectable(env: Env, records: seq<Record>): seq<Record> {
    if env.market.fil <= 0.0 then [] else Resolved(env, records)
  }

  // ---- One wallet ----

  ghost predicate WalletBooks(m: Market, w: string, payees: seq<string>, costs: map<Key, real>, balances: Balances, paid: WalletTill) {
    && Sum(CostAt(costs, w), payees) == paid.settled + Sum(OwedBy(w), paid.debts)
    && (forall o | o in paid.debts :: o.key.wallet == w && o.usd > 0.0)
    && 0.0 <= Sum(PaidUSD(w), paid.payments) <= paid.settled
    && (forall p | p in paid.payments :: p.key.wallet == w && SliceExactToOneUnit(m, p.slice) && p.slice.token.address in balances)
    && paid.working.Keys == balances.Keys
    && (forall a | a in balances :: paid.working[a] as real + Sum(PaidAt(w, a), paid.payments) == balances[a] as real)
    && (forall a | a in balances && balances[a] >= 0 :: paid.working[a] >= 0)
  }

  lemma {:induction false} StampedSums(w: string, k: Key, slices: seq<Slice>, a: string)
    requires k.wallet == w
    ensures Sum(PaidUSD(w), Stamp(k, slices)) == Sum(SliceUSD(), slices)
    ensures Sum(PaidAt(w, a), Stamp(k, slices)) == Sum(AmountAt(a), slices)
    decreases |slices|
  {
    if slices != [] {
      var n := |slices| - 1;
      StampedSums(w, k, slices[..n], a);
      assert Stamp(k, slices)[..n] == Stamp(k, slices[..n]);
    }
  }

  lemma {:induction false} SliceUsdNonNegative(m: Market, slices: seq<Slice>)
    requires PositivePrices(m) && forall s | s in slices :: SliceExactToOneUnit(m, s)
    ensures Sum(SliceUSD(), slices) >= 0.0
  {
    forall s | s in slices ensures SliceUSD()(s) >= 0.0 { WorthMonotone(m, s.token, 0, s.amount); }
    SumNonNegative(SliceUSD(), slices);
  }

  lemma {:induction false} PayeeMoney(cfg: Config, m: Market, w: string, payees: seq<string>, p: string, costs: map<Key, real>, balances: Balances)
    requires PositivePrices(m) && CostsNonNegative(costs)
    requires WalletBooks(m, w, payees, costs, balances, PayWallet(cfg, m, w, payees, costs, balances))
    ensures var after := PayWallet(cfg, m, w, payees + [p], costs, balances);
      && Sum(CostAt(costs, w), payees + [p]) == after.settled + Sum(OwedBy(w), after.debts)
      && (forall o | o in after.debts :: o.key.wallet == w && o.usd > 0.0)
      && 0.0 <= Sum(PaidUSD(w), after.payments) <= after.settled
  {
    assert (payees + [p])[..|payees|] == payees;
    var before, k := PayWallet(cfg, m, w, payees, costs, balances), Key(w, p);
    var cost := CostOf(costs, k);
    var till := Deduct(cfg, m, cfg.priority, cost, before.working);
    DeductAccounted(cfg, m, cfg.priority, cost, before.working);
    SumAppend(CostAt(costs, w), payees, p);
    assert CostAt(costs, w)(p) == cost;
    if till.remaining > 0.0 { SumAppend(OwedBy(w), before.debts, Owed(k, till.remaining)); }
    assert before.debts + [] == before.debts;
    SumConcat(PaidUSD(w), before.payments, Stamp(k, till.slices));
    StampedSums(w, k, till.slices, "");
    SliceUsdNonNegative(m, till.slices);
  }

  lemma {:induction false} PayeeAmounts(cfg: Config, m: Market, w: string, payees: seq<string>, p: string, costs: map<Key, real>, balances: Balances, a: string)
    requires PositivePrices(m) && CostsNonNegative(costs) && a in balances
    requires WalletBooks(m, w, payees, costs, balances, PayWallet(cfg, m, w, payees, costs, balances))
    ensures var after := PayWallet(cfg, m, w, payees + [p], costs, balances);
      && after.working.Keys == balances.Keys
      && after.working[a] as real + Sum(PaidAt(w, a), after.payments) == balances[a] as real
      && (balances[a] >= 0 ==> after.working[a] >= 0)
  {
    assert (payees + [p])[..|payees|] == payees;
    var before, k := PayWallet(cfg, m, w, payees, costs, balances), Key(w, p);
    var till := Deduct(cfg, m, cfg.priority, CostOf(costs, k), before.working);
    DeductAccounted(cfg, m, cfg.priority, CostOf(costs, k), before.working);
    SumConcat(PaidAt(w, a), before.payments, Stamp(k, till.slices));
    StampedSums(w, k, till.slices, a);
  }

  lemma {:induction false} PayeePayments(cfg: Config, m: Market, w: string, payees: seq<string>, p: string, costs: map<Key, real>, balances: Balances)
    requires PositivePrices(m) && CostsNonNegative(costs)
    requires WalletBooks(m, w, payees, costs, balances, PayWallet(cfg, m, w, payees, costs, balances))
    ensures forall q | q in PayWallet(cfg, m, w, payees + [p], costs, balances).payments ::
      q.key.wallet == w && SliceExactToOneUnit(m, q.slice) && q.slice.token.address in balances
    ensures PayWallet(cfg, m, w, payees + [p], costs, balances).working.Keys == balances.Keys
  {
    assert (payees + [p])[..|payees|] == payees;
    var before, k := PayWallet(cfg, m, w, payees, costs, balances), Key(w, p);
    DeductAccounted(cfg, m, cfg.priority, CostOf(costs, k), before.working);
  }

  lemma {:induction false} PayWalletBooks(cfg: Config, m: Market, w: string, payees: seq<string>, costs: map<Key, real>, balances: Balances)
    requires PositivePrices(m) && CostsNonNegative(costs)
    ensures WalletBooks(m, w, payees, costs, balances, PayWallet(cfg, m, w, payees, costs, balances))
    decreases |payees|
  {
    if payees != [] {
      var n := |payees| - 1;
      PayWalletBooks(cfg, m, w, payees[..n], costs, balances);
      assert payees == payees[..n] + [payees[n]];
      PayeeMoney(cfg, m, w, payees[..n], payees[n], costs, balances);
      PayeePayments(cfg, m, w, payees[..n], payees[n], costs, balances);
      forall a | a in balances {
        PayeeAmounts(cfg, m, w, payees[..n], payees[n], costs, balances, a);
      }
    }
  }

  // ---- All wallets ----

  function PaidTo(cfg: Config, env: Env, costs: map<Key, real>, payees: seq<string>, w: string): WalletTill {
    PayWallet(cfg, env.market, w, payees, costs, BalancesOf(env, w))
  }

  ghost function WalletShare(cfg: Config, env: Env, costs: map<Key, real>, w: string): WalletTill {
    PaidTo(cfg, env, costs, SortedSet(Payees(costs.Keys, w)), w)
  }

  /** Wallets do not share balances: each one's part of the payout is its own. */
  ghost predicate ShareIs(pay: Payout, w: string, share: WalletTill) {
    && SettledOf(pay.settled, w) == share.settled
    && Sum(OwedBy(w), pay.debts) == Sum(OwedBy(w), share.debts)
    && Sum(PaidUSD(w), pay.payments) == Sum(PaidUSD(w), share.payments)
    && forall a :: Sum(PaidAt(w, a), pay.payments) == Sum(PaidAt(w, a), share.payments)
  }

  lemma OthersContributeNothing(m: Market, w: string, other: string, payees: seq<string>, costs: map<Key, real>, balances: Balances, paid: WalletTill)
    requires w != other && WalletBooks(m, other, payees, costs, balances, paid)
    ensures Sum(OwedBy(w), paid.debts) == 0.0 && Sum(PaidUSD(w), paid.payments) == 0.0
    ensures forall a :: Sum(PaidAt(w, a), paid.payments) == 0.0
  {
    SumZero(OwedBy(w), paid.debts);
    SumZero(PaidUSD(w), paid.payments);
    forall a ensures Sum(PaidAt(w, a), paid.payments) == 0.0 { SumZero(PaidAt(w, a), paid.payments); }
  }

  lemma PayoutSplit(before: Payout, paid: WalletTill, after: Payout, w: string)
    requires after.payments == before.payments + paid.payments && after.debts == before.debts + paid.debts
    ensures Sum(OwedBy(w), after.debts) == Sum(OwedBy(w), before.debts) + Sum(OwedBy(w), paid.debts)
    ensures Sum(PaidUSD(w), after.payments) == Sum(PaidUSD(w), before.payments) + Sum(PaidUSD(w), paid.payments)
    ensures forall a :: Sum(PaidAt(w, a), after.payments) == Sum(PaidAt(w, a), before.payments) + Sum(PaidAt(w, a), paid.payments)
  {
    SumConcat(OwedBy(w), before.debts, paid.debts);
    SumConcat(PaidUSD(w), before.payments, paid.payments);
    forall a ensures Sum(PaidAt(w, a), after.payments) == Sum(PaidAt(w, a), before.payments) + Sum(PaidAt(w, a), paid.payments) {
      SumConcat(PaidAt(w, a), before.payments, paid.payments);
    }
  }

  lemma {:induction false} PayWalletsShares(cfg: Config, env: Env, wallets: seq<string>, costs: map<Key, real>, w: string)
    requires PositivePrices(env.market) && CostsNonNegative(costs) && Distinct(wallets)
    ensures ShareIs(PayWallets(cfg, env, wallets, costs), w, if w in wallets then WalletShare(cfg, env, costs, w) else WalletTill([], 0.0, [], map[]))
    ensures forall o | o in PayWallets(cfg, env, wallets, costs).debts :: o.usd > 0.0
    ensures forall v | v in PayWallets(cfg, env, wallets, costs).settled :: v in wallets
    decreases |wallets|
  {
    if wallets != [] {
      var n := |wallets| - 1;
      var v := wallets[n];
      assert wallets == wallets[..n] + [v];
      PayWalletsShares(cfg, env, wallets[..n], costs, w);
      var payees := SortedSet(Payees(costs.Keys, v));
      PayWalletBooks(cfg, env.market, v, payees, costs, BalancesOf(env, v));
      var before, paid, after := PayWallets(cfg, env, wallets[..n], costs), WalletShare(cfg, env, costs, v), PayWallets(cfg, env, wallets, costs);
      PayoutSplit(before, paid, after, w);
      if w != v {
        OthersContributeNothing(env.market, w, v, payees, costs, BalancesOf(env, v), paid);
      } else {
        assert v !in wallets[..n];
      }
    }
  }

  // ---- Costs of a wallet are the costs of its records and debts ----

  ghost predicate PayeesCover(env: Env, records: seq<Record>, debts: seq<Debt>, w: string, payees: seq<string>) {
    && (forall r | r in records && Resolvable(env, r) && r.wallet == w :: PayeeOf(env, r) in payees)
    && (forall d | d in debts && d.usd > 0.0 && d.key.wallet == w :: d.key.sp in payees)
  }

  lemma {:induction false} PayeesOwe(cfg: Config, env: Env, records: seq<Record>, debts: seq<Debt>, w: string, payees: seq<string>)
    requires Distinct(payees) && PayeesCover(env, records, debts, w, payees)
    ensures Sum(OwingAt(cfg, env, records, debts, w), payees) == Sum(CostBy(cfg, w), Resolved(env, records)) + Sum(DebtBy(w), debts)
    decreases |debts|, |records|
  {
    if debts != [] {
      var n := |debts| - 1;
      var d := debts[n];
      PayeesOwe(cfg, env, records, debts[..n], w, payees);
      assert debts == debts[..n] + [d];
      var c := if d.usd > 0.0 && d.key.wallet == w then d.usd else 0.0;
      forall p ensures OwingAt(cfg, env, records, debts, w)(p) == OwingAt(cfg, env, records, debts[..n], w)(p) + if p == d.key.sp then c else 0.0 {
        DueAddsDebt(cfg, env, records, debts[..n], d, Key(w, p));
      }
      SumBump(OwingAt(cfg, env, records, debts, w), OwingAt(cfg, env, records, debts[..n], w), payees, d.key.sp, c);
    } else if records != [] {
      var n := |records| - 1;
      var r := records[n];
      PayeesOwe(cfg, env, records[..n], debts, w, payees);
      assert records == records[..n] + [r];
      var c := if Resolvable(env, r) && r.wallet == w then Cost(cfg.prices, r) else 0.0;
      forall p ensures OwingAt(cfg, env, records, debts, w)(p) == OwingAt(cfg, env, records[..n], debts, w)(p) + if p == PayeeOf(env, r) then c else 0.0 {
        DueAddsRecord(cfg, env, records[..n], r, Key(w, p));
      }
      SumBump(OwingAt(cfg, env, records, debts, w), OwingAt(cfg, env, records[..n], debts, w), payees, PayeeOf(env, r), c);
      if Resolvable(env, r) { SumAppend(CostBy(cfg, w), Resolved(env, records[..n]), r); }
      assert Resolved(env, records[..n]) + [] == Resolved(env, records[..n]);
    } else {
      SumZero(OwingAt(cfg, env, records, debts, w), payees);
    }
  }

  lemma {:induction false} WalletShareOwes(cfg: Config, env: Env, records: seq<Record>, carried: seq<Debt>, w: string)
    ensures var costs := Costs(cfg, env, records, carried);
      Sum(CostAt(costs, w), SortedSet(Payees(costs.Keys, w))) == Sum(CostBy(cfg, w), Resolved(env, records)) + Sum(DebtBy(w), carried)
  {
    var costs := Costs(cfg, env, records, carried);
    var payees := SortedSet(Payees(costs.Keys, w));
    SortedSetMembers(Payees(costs.Keys, w));
    SetListDistinct(payees, Payees(costs.Keys, w));
    forall r | r in records && Resolvable(env, r) && r.wallet == w ensures PayeeOf(env, r) in payees {
      assert KeyOf(env, r) in costs.Keys;
    }
    forall d | d in carried && d.usd > 0.0 && d.key.wallet == w ensures d.key.sp in payees {
      assert d.key in costs.Keys;
    }
    PayeesOwe(cfg, env, records, carried, w, payees);
    forall p | p in payees ensures CostAt(costs, w)(p) == OwingAt(cfg, env, records, carried, w)(p) {
      assert Key(w, p) in costs;
    }
    SumEqual(CostAt(costs, w), OwingAt(cfg, env, records, carried, w), payees);
  }

  ghost predicate Chargeable(cfg: Config, records: seq<Record>) {
    PricesNonNegative(cfg.prices) && forall r | r in records :: Metered(r)
  }

  lemma CostsAreNonNegative(cfg: Config, env: Env, records: seq<Record>, carried: seq<Debt>)
    requires Chargeable(cfg, records)
    ensures CostsNonNegative(Costs(cfg, env, records, carried))
  {
    forall k ensures Owing(cfg, env, records, carried, k) >= 0.0 {
      forall r | r in records ensures RecordCost(cfg, env, k)(r) >= 0.0 { CostNonNegative(cfg.prices, r); }
      SumNonNegative(RecordCost(cfg, env, k), records);
      SumNonNegative(DebtCost(k), carried);
    }
  }

  lemma WalletOfKey(keys: set<Key>, w: string)
    ensures w !in Wallets(keys) ==> SortedSet(Payees(keys, w)) == []
  {
    SortedSetMembers(Payees(keys, w));
    if w !in Wallets(keys) {
      var q := SortedSet(Payees(keys, w));
      assert |q| == |multiset(q)| == |multiset(Payees(keys, w))|;
    }
  }

  /** Each wallet's part of the whole payout, whether or not the wallet owes anything. */
  lemma PayShares(cfg: Config, env: Env, records: seq<Record>, carried: seq<Debt>, w: string)
    requires PositivePrices(env.market) && Chargeable(cfg, records)
    ensures var costs := Costs(cfg, env, records, carried);
            var share := WalletShare(cfg, env, costs, w);
            ShareIs(Pay(cfg, env, records, carried), w, share)
            && WalletBooks(env.market, w, SortedSet(Payees(costs.Keys, w)), costs, BalancesOf(env, w), share)
    ensures forall o | o in Pay(cfg, env, records, carried).debts :: o.usd > 0.0
  {
    var costs := Costs(cfg, env, records, carried);
    var wallets := SortedSet(Wallets(costs.Keys));
    CostsAreNonNegative(cfg, env, records, carried);
    SortedSetMembers(Wallets(costs.Keys));
    SetListDistinct(wallets, Wallets(costs.Keys));
    PayWalletsShares(cfg, env, wallets, costs, w);
    PayWalletBooks(cfg, env.market, w, SortedSet(Payees(costs.Keys, w)), costs, BalancesOf(env, w));
    WalletOfKey(costs.Keys, w);
  }

  lemma {:induction false} AttachedSums(payments: seq<Payment>, ids: Key -> seq<string>, w: string, a: string)
    ensures Sum(ItemUSD(w), AttachIds(payments, ids)) == Sum(PaidUSD(w), payments)
    ensures Sum(ItemAt(w, a), AttachIds(payments, ids)) == Sum(PaidAt(w, a), payments)
    decreases |payments|
  {
    if payments != [] {
      var n := |payments| - 1;
      AttachedSums(payments[..n], ids, w, a);
      assert AttachIds(payments, ids)[..n] == AttachIds(payments[..n], ids);
    }
  }

  lemma {:induction false} AttachedDebts(owed: seq<Owed>, ids: Key -> seq<string>, w: string)
    requires forall o | o in owed :: o.usd > 0.0
    ensures Sum(DebtBy(w), AttachDebtIds(owed, ids)) == Sum(OwedBy(w), owed)
    decreases |owed|
  {
    if owed != [] {
      var n := |owed| - 1;
      AttachedDebts(owed[..n], ids, w);
      assert AttachDebtIds(owed, ids)[..n] == AttachDebtIds(owed[..n], ids);
    }
  }

  /** Per wallet, the cost of the records turned into money plus the positive carried debts
      equals what is settled plus what remains as debt; items never claim more than settled. */
  lemma {:induction false} AggregationConserves(cfg: Config, env: Env, records: seq<Record>, carried: seq<Debt>, w: string)
    requires PositiveFeeds(env.market) && Chargeable(cfg, records)
    ensures var agg := Aggregate(cfg, env, records, carried);
      && Sum(CostBy(cfg, w), Collectable(env, records)) + Sum(DebtBy(w), carried) == SettledOf(agg.settled, w) + Sum(DebtBy(w), agg.debts)
      && 0.0 <= Sum(ItemUSD(w), agg.items) <= SettledOf(agg.settled, w)
  {
    var agg := Aggregate(cfg, env, records, carried);
    if env.market.fil > 0.0 {
      var pay := Pay(cfg, env, records, carried);
      var ids := IdsFor(env, records, carried);
      PayShares(cfg, env, records, carried, w);
      WalletShareOwes(cfg, env, records, carried, w);
      AttachedSums(pay.payments, ids, w, "");
      AttachedDebts(pay.debts, ids, w);
      SortSorts(ItemKey(), AttachIds(pay.payments, ids));
      SumPermutation(ItemUSD(w), agg.items, AttachIds(pay.payments, ids));
    }
  }

  /** Over all payees of a wallet, the amounts of one token never exceed its cached balance. */
  lemma NoOverAllocation(cfg: Config, env: Env, records: seq<Record>, carried: seq<Debt>, w: string, a: string)
    requires PositiveFeeds(env.market) && Chargeable(cfg, records)
    requires a in BalancesOf(env, w) && BalancesOf(env, w)[a] >= 0
    ensures Sum(ItemAt(w, a), Aggregate(cfg, env, records, carried).items) <= BalancesOf(env, w)[a] as real
  {
    var agg := Aggregate(cfg, env, records, carried);
    if env.market.fil > 0.0 {
      var pay := Pay(cfg, env, records, carried);
      var ids := IdsFor(env, records, carried);
      PayShares(cfg, env, records, carried, w);
      AttachedSums(pay.payments, ids, w, a);
      SortSorts(ItemKey(), AttachIds(pay.payments, ids));
      SumPermutation(ItemAt(w, a), agg.items, AttachIds(pay.payments, ids));
    }
  }

  lemma {:induction false} PaymentsExact(cfg: Config, env: Env, wallets: seq<string>, costs: map<Key, real>)
    requires PositivePrices(env.market) && CostsNonNegative(costs)
    ensures forall p | p in PayWallets(cfg, env, wallets, costs).payments :: SliceExactToOneUnit(env.market, p.slice)
    decreases |wallets|
  {
    if wallets != [] {
      var v := wallets[|wallets| - 1];
      PaymentsExact(cfg, env, wallets[..|wallets| - 1], costs);
      PayWalletBooks(cfg, env.market, v, SortedSet(Payees(costs.Keys, v)), costs, BalancesOf(env, v));
    }
  }

  lemma {:induction false} SettledPositive(cfg: Config, env: Env, wallets: seq<string>, costs: map<Key, real>, w: string)
    requires w in PayWallets(cfg, env, wallets, costs).settled
    ensures PayWallets(cfg, env, wallets, costs).settled[w] > 0.0
    decreases |wallets|
  {
    var before := PayWallets(cfg, env, wallets[..|wallets| - 1], costs);
    if w in before.settled { SettledPositive(cfg, env, wallets[..|wallets| - 1], costs, w); }
  }

  /** Every item moves a positive amount, at its exact USD value plus less than one smallest
      unit; every settled wallet settles something. */
  lemma ItemsExact(cfg: Config, env: Env, records: seq<Record>, carried: seq<Debt>)
    requires PositiveFeeds(env.market) && Chargeable(cfg, records)
    ensures var agg := Aggregate(cfg, env, records, carried);
      && (forall it | it in agg.items :: it.usd >= 0.0 && SliceExactToOneUnit(env.market, Slice(it.token, it.amount, it.usd)))
      && (forall w | w in agg.settled :: agg.settled[w] > 0.0)
  {
    if env.market.fil > 0.0 {
      var costs := Costs(cfg, env, records, carried);
      var pay, wallets := Pay(cfg, env, records, carried), SortedSet(Wallets(costs.Keys));
      CostsAreNonNegative(cfg, env, records, carried);
      PaymentsExact(cfg, env, wallets, costs);
      AttachedItemsExact(env.market, pay.payments, IdsFor(env, records, carried));
      forall w | w in pay.settled { SettledPositive(cfg, env, wallets, costs, w); }
    }
  }

  lemma AttachedItemsExact(m: Market, payments: seq<Payment>, ids: Key -> seq<string>)
    requires PositivePrices(m) && forall p | p in payments :: SliceExactToOneUnit(m, p.slice)
    ensures forall it | it in Sort(ItemKey(), AttachIds(payments, ids)) ::
      it.usd >= 0.0 && SliceExactToOneUnit(m, Slice(it.token, it.amount, it.usd))
  {
    var items := AttachIds(payments, ids);
    SortSorts(ItemKey(), items);
    forall it | it in Sort(ItemKey(), items) ensures it.usd >= 0.0 && SliceExactToOneUnit(m, Slice(it.token, it.amount, it.usd)) {
      assert it in multiset(items);
      var i :| 0 <= i < |items| && items[i] == it;
      assert payments[i] in payments && payments[i].slice == Slice(it.token, it.amount, it.usd);
      WorthMonotone(m, it.token, 0, it.amount);
    }
  }

  // ---- Records split exactly ----

  lemma {:induction false} RecordsSplit(env: Env, records: seq<Record>)
    ensures multiset(records) == multiset(Resolved(env, records)) + multiset(Unresolved(env, records))
    decreases |records|
  {
    if records != [] {
      var n := |records| - 1;
      RecordsSplit(env, records[..n]);
      assert multiset(records) == multiset(records[..n]) + multiset{records[n]} by { assert records == records[..n] + [records[n]]; }
    }
  }

  lemma {:induction false} SplitMembers(env: Env, records: seq<Record>, r: Record)
    ensures r in Resolved(env, records) <==> r in records && Resolvable(env, r)
    ensures r in Unresolved(env, records) <==> r in records && !Resolvable(env, r)
    decreases |records|
  {
    if records != [] {
      var n := |records| - 1;
      SplitMembers(env, records[..n], r);
      assert r in records <==> r in records[..n] || r == records[n] by { assert records == records[..n] + [records[n]]; }
    }
  }

  // ---- Order independence ----

  /** Reordering the records and the debts changes no cost, hence no amount, settled total
      or debt; only the order of the request ids attached to an item can differ. */
  lemma CostsIgnoreOrder(cfg: Config, env: Env, r1: seq<Record>, r2: seq<Record>, d1: seq<Debt>, d2: seq<Debt>)
    requires multiset(r1) == multiset(r2) && multiset(d1) == multiset(d2)
    ensures Costs(cfg, env, r1, d1) == Costs(cfg, env, r2, d2)
  {
    assert forall r :: r in r1 <==> r in multiset(r1);
    assert forall r :: r in r2 <==> r in multiset(r2);
    assert forall d :: d in d1 <==> d in multiset(d1);
    assert forall d :: d in d2 <==> d in multiset(d2);
    assert Keys(env, r1, d1) == Keys(env, r2, d2);
    forall k ensures Owing(cfg, env, r1, d1, k) == Owing(cfg, env, r2, d2, k) {
      SumPermutation(RecordCost(cfg, env, k), r1, r2);
      SumPermutation(DebtCost(k), d1, d2);
    }
  }

  function MoneyOf(it: Item): Payment { Payment(it.key, Slice(it.token, it.amount, it.usd)) }

  function Money(items: seq<Item>): seq<Payment> {
    seq(|items|, i requires 0 <= i < |items| => MoneyOf(items[i]))
  }

  function DebtMoney(debts: seq<Debt>): seq<Owed> {
    seq(|debts|, i requires 0 <= i < |debts| => Owed(debts[i].key, debts[i].usd))
  }

  function PaymentKey(): Payment -> seq<string> {
    (p: Payment) => [p.key.wallet, p.key.sp, p.slice.token.address]
  }

  lemma {:induction false} MoneyOfInsert(x: Item, s: seq<Item>)
    ensures Money(Insert(ItemKey(), x, s)) == Insert(PaymentKey(), MoneyOf(x), Money(s))
    decreases |s|
  {
    assert ItemKey()(x) == PaymentKey()(MoneyOf(x));
    if s != [] {
      assert ItemKey()(s[0]) == PaymentKey()(MoneyOf(s[0])) && Money(s)[0] == MoneyOf(s[0]) && Money(s)[1..] == Money(s[1..]);
      MoneyOfInsert(x, s[1..]);
    }
  }

  lemma {:induction false} MoneyOfSort(s: seq<Item>)
    ensures Money(Sort(ItemKey(), s)) == Sort(PaymentKey(), Money(s))
    decreases |s|
  {
    if s != [] {
      assert Money(s)[1..] == Money(s[1..]);
      MoneyOfSort(s[1..]);
      MoneyOfInsert(s[0], Sort(ItemKey(), s[1..]));
    }
  }

  lemma OrderIndependence(cfg: Config, env: Env, r1: seq<Record>, r2: seq<Record>, d1: seq<Debt>, d2: seq<Debt>)
    requires multiset(r1) == multiset(r2) && multiset(d1) == multiset(d2) && env.market.fil > 0.0
    ensures var a1, a2 := Aggregate(cfg, env, r1, d1), Aggregate(cfg, env, r2, d2);
      && Money(a1.items) == Money(a2.items)
      && a1.settled == a2.settled
      && DebtMoney(a1.debts) == DebtMoney(a2.debts)
      && multiset(a1.unresolved) == multiset(a2.unresolved)
  {
    CostsIgnoreOrder(cfg, env, r1, r2, d1, d2);
    var pay := Pay(cfg, env, r1, d1);
    assert pay == Pay(cfg, env, r2, d2);
    MoneyIgnoresIds(pay, IdsFor(env, r1, d1), IdsFor(env, r2, d2));
    UnresolvedIgnoresOrder(env, r1, r2);
  }

  lemma MoneyIgnoresIds(pay: Payout, f: Key -> seq<string>, g: Key -> seq<string>)
    ensures Money(Sort(ItemKey(), AttachIds(pay.payments, f))) == Money(Sort(ItemKey(), AttachIds(pay.payments, g)))
    ensures DebtMoney(AttachDebtIds(pay.debts, f)) == DebtMoney(AttachDebtIds(pay.debts, g))
  {
    MoneyOfSort(AttachIds(pay.payments, f));
    MoneyOfSort(AttachIds(pay.payments, g));
    assert Money(AttachIds(pay.payments, f)) == pay.payments == Money(AttachIds(pay.payments, g));
  }

  lemma {:induction false} UnresolvedCount(env: Env, records: seq<Record>, r: Record)
    ensures multiset(Unresolved(env, records))[r] == if Resolvable(env, r) then 0 else multiset(records)[r]
    decreases |records|
  {
    if records != [] {
      UnresolvedCount(env, records[..|records| - 1], r);
      assert records == records[..|records| - 1] + [records[|records| - 1]];
    }
  }

  lemma {:induction false} UnresolvedIgnoresOrder(env: Env, r1: seq<Record>, r2: seq<Record>)
    requires multiset(r1) == multiset(r2)
    ensures multiset(Unresolved(env, r1)) == multiset(Unresolved(env, r2))
  {
    forall r ensures multiset(Unresolved(env, r1))[r] == multiset(Unresolved(env, r2))[r] {
      UnresolvedCount(env, r1, r);
      UnresolvedCount(env, r2, r);
    }
  }
}
