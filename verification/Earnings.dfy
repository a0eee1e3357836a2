/** What each SP earns: a cycle pays every SP, wallet by wallet, what the requests it served cost,
    or owes it, and names those requests. */
module Earnings {
  import opened Orders
  import opened Sums
  import opened Billing
  import opened Allocator
  import opened Aggregator
  import opened AggregatorLaws
  import opened Batches
  import opened Settlement
  import opened SettlementMoney

  function PaidTo(k: Key): Payment -> real { (p: Payment) => if p.key == k then p.slice.usd else 0.0 }

  function OwedTo(k: Key): Owed -> real { (o: Owed) => if o.key == k then o.usd else 0.0 }

  function ItemTo(k: Key): Item -> real { (it: Item) => if it.key == k then it.usd else 0.0 }

  /** The cost is paid or owed, to less than one smallest unit of one token; where anything is
      owed nothing is lost to rounding. */
  ghost predicate Earned(m: Market, tokens: seq<Token>, cost: real, paid: real, owed: real) {
    var dust := cost - paid - owed;
    && paid >= 0.0 && owed >= 0.0 && dust >= 0.0
    && (owed > 0.0 ==> dust == 0.0)
    && (dust > 0.0 ==> exists t | t in tokens :: dust < Worth(m, t, 1))
  }

  lemma {:induction false} StampedTo(k: Key, at: Key, slices: seq<Slice>)
    ensures Sum(PaidTo(k), Stamp(at, slices)) == if at == k then Sum(SliceUSD(), slices) else 0.0
    decreases |slices|
  {
    if slices != [] {
      var n := |slices| - 1;
      StampedTo(k, at, slices[..n]);
      assert Stamp(at, slices)[..n] == Stamp(at, slices[..n]);
    }
  }

  // ---- One wallet ----

  /** One SP's part of what a wallet pays. */
  ghost predicate PartIs(m: Market, tokens: seq<Token>, costs: map<Key, real>, payees: seq<string>, k: Key, paid: real, owed: real) {
    if k.sp in payees then Earned(m, tokens, CostOf(costs, k), paid, owed) else paid == 0.0 && owed == 0.0
  }

  lemma {:induction false} NextPayee(cfg: Config, m: Market, payees: seq<string>, p: string, costs: map<Key, real>, balances: Balances, k: Key)
    requires PositivePrices(m) && CostsNonNegative(costs) && p !in payees
    requires var before := PayWallet(cfg, m, k.wallet, payees, costs, balances);
      PartIs(m, cfg.tokens, costs, payees, k, Sum(PaidTo(k), before.payments), Sum(OwedTo(k), before.debts))
    ensures var after := PayWallet(cfg, m, k.wallet, payees + [p], costs, balances);
      PartIs(m, cfg.tokens, costs, payees + [p], k, Sum(PaidTo(k), after.payments), Sum(OwedTo(k), after.debts))
  {
    assert (payees + [p])[..|payees|] == payees;
    var before, at := PayWallet(cfg, m, k.wallet, payees, costs, balances), Key(k.wallet, p);
    var cost := CostOf(costs, at);
    var till := Deduct(cfg, m, cfg.priority, cost, before.working);
    DeductAccounted(cfg, m, cfg.priority, cost, before.working);
    SumConcat(PaidTo(k), before.payments, Stamp(at, till.slices));
    StampedTo(k, at, till.slices);
    SliceUsdNonNegative(m, till.slices);
    if till.remaining > 0.0 { SumAppend(OwedTo(k), before.debts, Owed(at, till.remaining)); }
    assert before.debts + [] == before.debts;
  }

  lemma {:induction false} WalletParts(cfg: Config, m: Market, payees: seq<string>, costs: map<Key, real>, balances: Balances, k: Key)
    requires PositivePrices(m) && CostsNonNegative(costs) && Distinct(payees)
    ensures var paid := PayWallet(cfg, m, k.wallet, payees, costs, balances);
      PartIs(m, cfg.tokens, costs, payees, k, Sum(PaidTo(k), paid.payments), Sum(OwedTo(k), paid.debts))
    decreases |payees|
  {
    if payees != [] {
      var n := |payees| - 1;
      assert payees == payees[..n] + [payees[n]];
      WalletParts(cfg, m, payees[..n], costs, balances, k);
      NextPayee(cfg, m, payees[..n], payees[n], costs, balances, k);
    }
  }

  // ---- All wallets ----

  lemma OtherWallet(cfg: Config, env: Env, other: string, costs: map<Key, real>, k: Key)
    requires PositivePrices(env.market) && CostsNonNegative(costs) && k.wallet != other
    ensures var paid := WalletShare(cfg, env, costs, other); Sum(PaidTo(k), paid.payments) == 0.0 && Sum(OwedTo(k), paid.debts) == 0.0
  {
    var paid := WalletShare(cfg, env, costs, other);
    PayWalletBooks(cfg, env.market, other, SortedSet(Payees(costs.Keys, other)), costs, BalancesOf(env, other));
    SumZero(PaidTo(k), paid.payments);
    SumZero(OwedTo(k), paid.debts);
  }

  /** Only its own wallet pays it. */
  ghost predicate OwnShare(pay: Payout, k: Key, payments: seq<Payment>, debts: seq<Owed>) {
    Sum(PaidTo(k), pay.payments) == Sum(PaidTo(k), payments) && Sum(OwedTo(k), pay.debts) == Sum(OwedTo(k), debts)
  }

  ghost predicate PaysNothing(pay: Payout, k: Key) { Sum(PaidTo(k), pay.payments) == 0.0 && Sum(OwedTo(k), pay.debts) == 0.0 }

  /** The sums of a payout before its last wallet, and of that wallet. */
  lemma {:induction false} LastPays(cfg: Config, env: Env, wallets: seq<string>, costs: map<Key, real>, k: Key)
    requires wallets != []
    ensures var n := |wallets| - 1;
      var before, paid, after := PayWallets(cfg, env, wallets[..n], costs), WalletShare(cfg, env, costs, wallets[n]), PayWallets(cfg, env, wallets, costs);
      && Sum(PaidTo(k), after.payments) == Sum(PaidTo(k), before.payments) + Sum(PaidTo(k), paid.payments)
      && Sum(OwedTo(k), after.debts) == Sum(OwedTo(k), before.debts) + Sum(OwedTo(k), paid.debts)
  {
    var n := |wallets| - 1;
    SumConcat(PaidTo(k), PayWallets(cfg, env, wallets[..n], costs).payments, WalletShare(cfg, env, costs, wallets[n]).payments);
    SumConcat(OwedTo(k), PayWallets(cfg, env, wallets[..n], costs).debts, WalletShare(cfg, env, costs, wallets[n]).debts);
  }

  lemma {:induction false} OthersPay(cfg: Config, env: Env, wallets: seq<string>, costs: map<Key, real>, k: Key)
    requires PositivePrices(env.market) && CostsNonNegative(costs) && k.wallet !in wallets
    ensures PaysNothing(PayWallets(cfg, env, wallets, costs), k)
    decreases |wallets|
  {
    if wallets != [] {
      var n := |wallets| - 1;
      OthersPay(cfg, env, wallets[..n], costs, k);
      OtherWallet(cfg, env, wallets[n], costs, k);
      LastPays(cfg, env, wallets, costs, k);
    }
  }

  lemma LastAlone(wallets: seq<string>, w: string)
    requires wallets != [] && Distinct(wallets) && w in wallets
    ensures var n := |wallets| - 1; Distinct(wallets[..n]) && (w in wallets[..n] <==> w != wallets[n])
  {
    var n := |wallets| - 1;
    assert wallets == wallets[..n] + [wallets[n]];
  }

  lemma {:induction false} OwnPaysLast(cfg: Config, env: Env, wallets: seq<string>, costs: map<Key, real>, k: Key)
    requires PositivePrices(env.market) && CostsNonNegative(costs) && wallets != []
    requires wallets[|wallets| - 1] == k.wallet && k.wallet !in wallets[..|wallets| - 1]
    ensures var own := WalletShare(cfg, env, costs, k.wallet); OwnShare(PayWallets(cfg, env, wallets, costs), k, own.payments, own.debts)
  {
    LastPays(cfg, env, wallets, costs, k);
    OthersPay(cfg, env, wallets[..|wallets| - 1], costs, k);
  }

  lemma {:induction false} OthersKeepShare(cfg: Config, env: Env, wallets: seq<string>, costs: map<Key, real>, k: Key, payments: seq<Payment>, debts: seq<Owed>)
    requires PositivePrices(env.market) && CostsNonNegative(costs) && wallets != [] && wallets[|wallets| - 1] != k.wallet
    requires OwnShare(PayWallets(cfg, env, wallets[..|wallets| - 1], costs), k, payments, debts)
    ensures OwnShare(PayWallets(cfg, env, wallets, costs), k, payments, debts)
  {
    LastPays(cfg, env, wallets, costs, k);
    OtherWallet(cfg, env, wallets[|wallets| - 1], costs, k);
  }

  lemma {:induction false} OwnPays(cfg: Config, env: Env, wallets: seq<string>, costs: map<Key, real>, k: Key)
    requires PositivePrices(env.market) && CostsNonNegative(costs) && Distinct(wallets) && k.wallet in wallets
    ensures var own := WalletShare(cfg, env, costs, k.wallet); OwnShare(PayWallets(cfg, env, wallets, costs), k, own.payments, own.debts)
    decreases |wallets|
  {
    var n := |wallets| - 1;
    LastAlone(wallets, k.wallet);
    if wallets[n] == k.wallet {
      OwnPaysLast(cfg, env, wallets, costs, k);
    } else {
      var own := WalletShare(cfg, env, costs, k.wallet);
      OwnPays(cfg, env, wallets[..n], costs, k);
      OthersKeepShare(cfg, env, wallets, costs, k, own.payments, own.debts);
    }
  }

  // ---- The aggregation ----

  /** What a request costs the wallet, if this SP served it. */
  function ServedCost(cfg: Config, env: Env, k: Key): Record -> real {
    (r: Record) => if r.wallet == k.wallet && PayeeOf(env, r) == k.sp != "" then Cost(cfg.prices, r) else 0.0
  }

  /** What an SP is to get of a wallet: the cost of what it served and what is still owed it. */
  ghost function DueTo(cfg: Config, env: Env, records: seq<Record>, carried: seq<Debt>, k: Key): real {
    Sum(ServedCost(cfg, env, k), records) + Sum(DebtCost(k), carried)
  }

  lemma {:induction false} DueIsOwing(cfg: Config, env: Env, records: seq<Record>, carried: seq<Debt>, k: Key)
    ensures DueTo(cfg, env, records, carried, k) == CostOf(Costs(cfg, env, records, carried), k)
  {
    SumEqual(ServedCost(cfg, env, k), RecordCost(cfg, env, k), records);
    if k !in Keys(env, records, carried) {
      forall r | r in records ensures RecordCost(cfg, env, k)(r) == 0.0 {
        assert Resolvable(env, r) ==> KeyOf(env, r) in Keys(env, records, carried);
      }
      forall d | d in carried ensures DebtCost(k)(d) == 0.0 { assert d.usd > 0.0 ==> d.key in Keys(env, records, carried); }
      SumZero(RecordCost(cfg, env, k), records);
      SumZero(DebtCost(k), carried);
    }
  }

  lemma {:induction false} AttachedTo(payments: seq<Payment>, ids: Key -> seq<string>, k: Key)
    ensures Sum(ItemTo(k), AttachIds(payments, ids)) == Sum(PaidTo(k), payments)
    decreases |payments|
  {
    if payments != [] {
      var n := |payments| - 1;
      AttachedTo(payments[..n], ids, k);
      assert AttachIds(payments, ids)[..n] == AttachIds(payments[..n], ids);
    }
  }

  lemma {:induction false} AttachedOwed(owed: seq<Owed>, ids: Key -> seq<string>, k: Key)
    requires forall o | o in owed :: o.usd > 0.0
    ensures Sum(DebtCost(k), AttachDebtIds(owed, ids)) == Sum(OwedTo(k), owed)
    decreases |owed|
  {
    if owed != [] {
      var n := |owed| - 1;
      AttachedOwed(owed[..n], ids, k);
      assert AttachDebtIds(owed, ids)[..n] == AttachDebtIds(owed[..n], ids);
    }
  }

  lemma {:induction false} PayoutOf(cfg: Config, env: Env, records: seq<Record>, carried: seq<Debt>, k: Key)
    requires PositivePrices(env.market) && Chargeable(cfg, records)
    ensures var pay := Pay(cfg, env, records, carried);
      Earned(env.market, cfg.tokens, DueTo(cfg, env, records, carried, k), Sum(PaidTo(k), pay.payments), Sum(OwedTo(k), pay.debts))
  {
    var costs := Costs(cfg, env, records, carried);
    var wallets, payees := SortedSet(Wallets(costs.Keys)), SortedSet(Payees(costs.Keys, k.wallet));
    CostsAreNonNegative(cfg, env, records, carried);
    SortedSetMembers(Wallets(costs.Keys));
    SortedSetMembers(Payees(costs.Keys, k.wallet));
    SetListDistinct(wallets, Wallets(costs.Keys));
    SetListDistinct(payees, Payees(costs.Keys, k.wallet));
    if k.wallet in wallets { OwnPays(cfg, env, wallets, costs, k); } else { OthersPay(cfg, env, wallets, costs, k); }
    WalletParts(cfg, env.market, payees, costs, BalancesOf(env, k.wallet), k);
    DueIsOwing(cfg, env, records, carried, k);
    if k in costs { assert k.wallet in wallets && k.sp in payees; }
  }

  /** A cycle pays or owes each SP, wallet by wallet, exactly what it is to get, to less than one
      smallest unit of one token; nobody else's money is in it. */
  lemma {:induction false} EverySpEarns(cfg: Config, env: Env, records: seq<Record>, carried: seq<Debt>, k: Key)
    requires PositivePrices(env.market) && Chargeable(cfg, records)
    ensures var agg := Aggregate(cfg, env, records, carried);
      Earned(env.market, cfg.tokens, DueTo(cfg, env, records, carried, k), Sum(ItemTo(k), agg.items), Sum(DebtCost(k), agg.debts))
  {
    var pay, ids := Pay(cfg, env, records, carried), IdsFor(env, records, carried);
    PayoutOf(cfg, env, records, carried, k);
    PayShares(cfg, env, records, carried, k.wallet);
    AttachedTo(pay.payments, ids, k);
    AttachedOwed(pay.debts, ids, k);
    SortSorts(ItemKey(), AttachIds(pay.payments, ids));
    SumPermutation(ItemTo(k), Aggregate(cfg, env, records, carried).items, AttachIds(pay.payments, ids));
  }

  // ---- For which requests ----

  /** A request this SP served the wallet, or one behind a debt to it. */
  ghost predicate Covered(env: Env, records: seq<Record>, carried: seq<Debt>, k: Key, id: string) {
    || (id != "" && exists r | r in records :: r.id == id && r.wallet == k.wallet && PayeeOf(env, r) == k.sp != "")
    || exists d | d in carried :: d.usd > 0.0 && d.key == k && id in d.ids
  }

  lemma {:induction false} RecordIdsNamed(env: Env, k: Key, records: seq<Record>, id: string)
    ensures id in RecordIds(env, k, records) <==> Covered(env, records, [], k, id)
    decreases |records|
  {
    if records != [] {
      var n := |records| - 1;
      RecordIdsNamed(env, k, records[..n], id);
      assert records == records[..n] + [records[n]];
    }
  }

  lemma {:induction false} DebtIdsNamed(env: Env, k: Key, carried: seq<Debt>, id: string)
    ensures id in DebtIds(k, carried) <==> Covered(env, [], carried, k, id)
    decreases |carried|
  {
    if carried != [] {
      var n := |carried| - 1;
      DebtIdsNamed(env, k, carried[..n], id);
      assert carried == carried[..n] + [carried[n]];
    }
  }

  lemma IdsNamed(env: Env, records: seq<Record>, carried: seq<Debt>, k: Key, id: string)
    ensures id in IdsOf(env, records, carried, k) <==> Covered(env, records, carried, k, id)
  {
    RecordIdsNamed(env, k, records, id);
    DebtIdsNamed(env, k, carried, id);
  }

  /** Every item and every remaining debt names exactly the requests it is for. */
  lemma {:induction false} RequestsNamed(cfg: Config, env: Env, records: seq<Record>, carried: seq<Debt>)
    requires PositivePrices(env.market)
    ensures forall it | it in Aggregate(cfg, env, records, carried).items ::
      forall id :: id in it.ids <==> Covered(env, records, carried, it.key, id)
    ensures forall d | d in Aggregate(cfg, env, records, carried).debts ::
      forall id :: id in d.ids <==> Covered(env, records, carried, d.key, id)
  {
    var pay, ids := Pay(cfg, env, records, carried), IdsFor(env, records, carried);
    var items, debts := AttachIds(pay.payments, ids), AttachDebtIds(pay.debts, ids);
    SortSorts(ItemKey(), items);
    forall k, id ensures id in ids(k) <==> Covered(env, records, carried, k, id) { IdsNamed(env, records, carried, k, id); }
    forall it | it in Sort(ItemKey(), items) ensures it.ids == ids(it.key) { assert it in multiset(items); }
  }

  // ---- In the plan ----

  function PlanTo(k: Key): PlanItem -> real { (it: PlanItem) => if it.user == k.wallet && it.sp == k.sp then it.usd else 0.0 }

  lemma {:induction false} PlanItemsTo(k: Key, batch: seq<Item>, byId: ById)
    ensures Sum(PlanTo(k), PlanItems(batch, byId)) == Sum(ItemTo(k), batch)
    decreases |batch|
  {
    if batch != [] {
      var n := |batch| - 1;
      PlanItemsTo(k, batch[..n], byId);
      NextItem(batch, n, byId);
      assert batch[..n + 1] == batch;
      SumAppend(PlanTo(k), PlanItems(batch[..n], byId), PlanItems(batch, byId)[n]);
    }
  }

  /** What the batches of a plan are to move to an SP out of a wallet. */
  function BatchTo(k: Key): PlanBatch -> real { (b: PlanBatch) => Sum(PlanTo(k), b.items) }

  lemma {:induction false} FrozenTo(k: Key, batches: seq<seq<Item>>, byId: ById)
    ensures Sum(BatchTo(k), PlanBatches(batches, byId)) == Sum(ItemTo(k), Flatten(batches))
    decreases |batches|
  {
    if batches != [] {
      var n := |batches| - 1;
      assert batches == batches[..n] + [batches[n]];
      FlattenSnoc(batches[..n], batches[n]);
      FrozenTo(k, batches[..n], byId);
      PlanItemsTo(k, batches[n], byId);
      SumConcat(ItemTo(k), Flatten(batches[..n]), batches[n]);
      SumAppend(BatchTo(k), PlanBatches(batches[..n], byId), PlanBatchOf(batches[n], byId));
    }
  }

  /** The plan of a cycle moves to each SP, wallet by wallet, or leaves owed to it, what it is to
      get for everything outstanding at the peek. */
  lemma {:induction false} PlanEarns(cfg: Config, s: State, env: Env, now: nat, k: Key)
    requires s.cursor <= |s.log| && PositivePrices(env.market) && Chargeable(cfg, s.dead + Unread(s))
    ensures var p := PlanOf(cfg, s, env, now);
      Earned(env.market, cfg.tokens, DueTo(cfg, env, s.dead + Unread(s), LoadDebts(s.debts), k),
             Sum(BatchTo(k), p.batches), Sum(DebtCost(k), p.books.debts))
  {
    var records, carried := s.dead + Unread(s), LoadDebts(s.debts);
    var items := Aggregate(cfg, env, records, carried).items;
    EverySpEarns(cfg, env, records, carried, k);
    ChunksPartition(items, cfg.maxBatch);
    FrozenTo(k, Chunks(items, ChunkSize(cfg.maxBatch)), IdIndex(records));
  }
}
