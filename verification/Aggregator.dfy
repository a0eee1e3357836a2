/** Grouping of records and carried debts into per-(wallet, SP) costs, and their payment
    out of each wallet's shared balances. */
module Aggregator {
  import opened Orders
  import opened Sums
  import opened Billing
  import opened Allocator

  datatype Key = Key(wallet: string, sp: string)
  datatype Debt = Debt(key: Key, usd: real, ids: seq<string>)
  datatype Item = Item(key: Key, token: Token, amount: int, usd: real, ids: seq<string>)
  datatype Entry = Entry(usd: real, ids: seq<string>)

  /** The money half of an item, before request ids are attached. */
  datatype Payment = Payment(key: Key, slice: Slice)
  datatype Owed = Owed(key: Key, usd: real)

  /** The inputs of one cycle that are not records: payees, prices, cached balances. */
  datatype Env = Env(resolver: Resolver, market: Market, balances: map<string, Balances>)

  datatype Aggregation = Aggregation(items: seq<Item>, unresolved: seq<Record>, settled: map<string, real>, debts: seq<Debt>)

  // ---- Costs ----

  function PayeeOf(env: Env, r: Record): string { ResolveWorker(env.resolver, r.worker) }

  predicate Resolvable(env: Env, r: Record) { PayeeOf(env, r) != "" }

  function KeyOf(env: Env, r: Record): Key { Key(r.wallet, PayeeOf(env, r)) }

  function RecordCost(cfg: Config, env: Env, k: Key): Record -> real {
    (r: Record) => if Resolvable(env, r) && KeyOf(env, r) == k then Cost(cfg.prices, r) else 0.0
  }

  function DebtCost(k: Key): Debt -> real {
    (d: Debt) => if d.usd > 0.0 && d.key == k then d.usd else 0.0
  }

  /** What `k` owes this cycle: the cost of its resolvable records plus its positive debts. */
  function Owing(cfg: Config, env: Env, records: seq<Record>, debts: seq<Debt>, k: Key): real {
    Sum(RecordCost(cfg, env, k), records) + Sum(DebtCost(k), debts)
  }

  function RecordIds(env: Env, k: Key, records: seq<Record>): seq<string> {
    if records == [] then []
    else
      var r := records[|records| - 1];
      RecordIds(env, k, records[..|records| - 1])
        + if Resolvable(env, r) && KeyOf(env, r) == k && r.id != "" then [r.id] else []
  }

  function DebtIds(k: Key, debts: seq<Debt>): seq<string> {
    if debts == [] then []
    else
      var d := debts[|debts| - 1];
      DebtIds(k, debts[..|debts| - 1]) + if d.usd > 0.0 && d.key == k then d.ids else []
  }

  function IdsOf(env: Env, records: seq<Record>, debts: seq<Debt>, k: Key): seq<string> {
    RecordIds(env, k, records) + DebtIds(k, debts)
  }

  function Keys(env: Env, records: seq<Record>, debts: seq<Debt>): set<Key> {
    (set r | r in records && Resolvable(env, r) :: KeyOf(env, r)) + (set d | d in debts && d.usd > 0.0 :: d.key)
  }

  function Costs(cfg: Config, env: Env, records: seq<Record>, debts: seq<Debt>): map<Key, real> {
    map k | k in Keys(env, records, debts) :: Owing(cfg, env, records, debts, k)
  }

  function CostOf(costs: map<Key, real>, k: Key): real { if k in costs then costs[k] else 0.0 }

  function Unresolved(env: Env, records: seq<Record>): seq<Record> {
    if records == [] then []
    else
      var r := records[|records| - 1];
      Unresolved(env, records[..|records| - 1]) + if Resolvable(env, r) then [] else [r]
  }

  function Resolved(env: Env, records: seq<Record>): seq<Record> {
    if records == [] then []
    else
      var r := records[|records| - 1];
      Resolved(env, records[..|records| - 1]) + if Resolvable(env, r) then [r] else []
  }

  // ---- Sorted sets of strings ----

  function SelfKey(): string -> seq<string> { (s: string) => [s] }

  ghost function Enumerate<T>(s: set<T>): (q: seq<T>)
    ensures multiset(q) == multiset(s)
  {
    if s == {} then []
    else
      var x :| x in s;
      assert s == (s - {x}) + {x};
      Enumerate(s - {x}) + [x]
  }

  ghost function SortedSet(s: set<string>): seq<string> { Sort(SelfKey(), Enumerate(s)) }

  /** However a set is walked, sorting the walk gives the same list. */
  lemma {:induction false} SortedSetUnique(walk: seq<string>, s: set<string>)
    requires multiset(walk) == multiset(s)
    ensures Sort(SelfKey(), walk) == SortedSet(s)
  {
    SortSorts(SelfKey(), walk);
    SortSorts(SelfKey(), Enumerate(s));
    forall x: string, y: string | SelfKey()(x) == SelfKey()(y) ensures x == y { assert [x][0] == [y][0]; }
    SortedIsUnique(SelfKey(), Sort(SelfKey(), walk), SortedSet(s));
  }

  ghost function Wallets(keys: set<Key>): set<string> { set k | k in keys :: k.wallet }

  ghost function Payees(keys: set<Key>, wallet: string): set<string> { set k | k in keys && k.wallet == wallet :: k.sp }

  // ---- Payment ----

  datatype WalletTill = WalletTill(payments: seq<Payment>, settled: real, debts: seq<Owed>, working: Balances)

  function Stamp(k: Key, slices: seq<Slice>): (p: seq<Payment>)
    ensures |p| == |slices| && forall i | 0 <= i < |p| :: p[i] == Payment(k, slices[i])
  {
    seq(|slices|, i requires 0 <= i < |slices| => Payment(k, slices[i]))
  }

  /** The payees of one wallet are paid in turn out of the same running balances. */
  function PayWallet(cfg: Config, m: Market, wallet: string, payees: seq<string>, costs: map<Key, real>, balances: Balances): WalletTill {
    if payees == [] then WalletTill([], 0.0, [], balances)
    else
      var n := |payees| - 1;
      var before := PayWallet(cfg, m, wallet, payees[..n], costs, balances);
      var k := Key(wallet, payees[n]);
      var cost := CostOf(costs, k);
      var till := Deduct(cfg, m, cfg.priority, cost, before.working);
      WalletTill(
        before.payments + Stamp(k, till.slices),
        before.settled + if cost - till.remaining > 0.0 then cost - till.remaining else 0.0,
        before.debts + if till.remaining > 0.0 then [Owed(k, till.remaining)] else [],
        till.working)
  }

  datatype Payout = Payout(payments: seq<Payment>, settled: map<string, real>, debts: seq<Owed>)

  function BalancesOf(env: Env, wallet: string): Balances {
    if wallet in env.balances then env.balances[wallet] else map[]
  }

  ghost function PayWallets(cfg: Config, env: Env, wallets: seq<string>, costs: map<Key, real>): Payout {
    if wallets == [] then Payout([], map[], [])
    else
      var n := |wallets| - 1;
      var before := PayWallets(cfg, env, wallets[..n], costs);
      var w := wallets[n];
      var paid := PayWallet(cfg, env.market, w, SortedSet(Payees(costs.Keys, w)), costs, BalancesOf(env, w));
      Payout(before.payments + paid.payments,
            if paid.settled > 0.0 then before.settled[w := paid.settled] else before.settled,
            before.debts + paid.debts)
  }

  // ---- Specification of the aggregation ----

  function AttachIds(payments: seq<Payment>, ids: Key -> seq<string>): seq<Item> {
    seq(|payments|, i requires 0 <= i < |payments| =>
      Item(payments[i].key, payments[i].slice.token, payments[i].slice.amount, payments[i].slice.usd, ids(payments[i].key)))
  }

  function AttachDebtIds(owed: seq<Owed>, ids: Key -> seq<string>): seq<Debt> {
    seq(|owed|, i requires 0 <= i < |owed| => Debt(owed[i].key, owed[i].usd, ids(owed[i].key)))
  }

  function ItemKey(): Item -> seq<string> { (it: Item) => [it.key.wallet, it.key.sp, it.token.address] }

  function IdsFor(env: Env, records: seq<Record>, debts: seq<Debt>): Key -> seq<string> {
    (k: Key) => IdsOf(env, records, debts, k)
  }

  ghost function Pay(cfg: Config, env: Env, records: seq<Record>, carried: seq<Debt>): Payout {
    var costs := Costs(cfg, env, records, carried);
    PayWallets(cfg, env, SortedSet(Wallets(costs.Keys)), costs)
  }

  ghost function Aggregate(cfg: Config, env: Env, records: seq<Record>, carried: seq<Debt>): Aggregation {
    if env.market.fil <= 0.0 then Aggregation([], records, map[], carried)
    else
      var pay := Pay(cfg, env, records, carried);
      var ids := IdsFor(env, records, carried);
      Aggregation(Sort(ItemKey(), AttachIds(pay.payments, ids)), Unresolved(env, records), pay.settled, AttachDebtIds(pay.debts, ids))
  }

  // ---- The code ----

  function EntryOf(entries: map<Key, Entry>, k: Key): Entry { if k in entries then entries[k] else Entry(0.0, []) }

  /** What `k` contributes: the USD it owes and the request ids behind it. */
  function Due(cfg: Config, env: Env, records: seq<Record>, debts: seq<Debt>, k: Key): Entry {
    Entry(Owing(cfg, env, records, debts, k), IdsOf(env, records, debts, k))
  }

  /** The cost map after the given records and debts. */
  ghost predicate Collected(cfg: Config, env: Env, records: seq<Record>, debts: seq<Debt>, entries: map<Key, Entry>) {
    && entries.Keys == Keys(env, records, debts)
    && forall k :: EntryOf(entries, k) == Due(cfg, env, records, debts, k)
  }

  function AddEntry(entries: map<Key, Entry>, k: Key, usd: real, ids: seq<string>): map<Key, Entry> {
    var e := EntryOf(entries, k);
    entries[k := Entry(e.usd + usd, e.ids + ids)]
  }

  function OwnId(r: Record): seq<string> { if r.id != "" then [r.id] else [] }

  lemma DueAddsRecord(cfg: Config, env: Env, records: seq<Record>, r: Record, k: Key)
    ensures Due(cfg, env, records + [r], [], k) ==
      if Resolvable(env, r) && KeyOf(env, r) == k
      then Entry(Due(cfg, env, records, [], k).usd + Cost(cfg.prices, r), Due(cfg, env, records, [], k).ids + OwnId(r))
      else Due(cfg, env, records, [], k)
  {
    assert (records + [r])[..|records|] == records;
    SumAppend(RecordCost(cfg, env, k), records, r);
  }

  lemma DueAddsDebt(cfg: Config, env: Env, records: seq<Record>, debts: seq<Debt>, d: Debt, k: Key)
    ensures Due(cfg, env, records, debts + [d], k) ==
      if d.usd > 0.0 && d.key == k
      then Entry(Due(cfg, env, records, debts, k).usd + d.usd, Due(cfg, env, records, debts, k).ids + d.ids)
      else Due(cfg, env, records, debts, k)
  {
    assert (debts + [d])[..|debts|] == debts;
    SumAppend(DebtCost(k), debts, d);
  }

  lemma KeysAddRecord(env: Env, records: seq<Record>, r: Record)
    ensures Keys(env, records + [r], []) == Keys(env, records, []) + if Resolvable(env, r) then {KeyOf(env, r)} else {}
  {
    assert forall q :: q in records + [r] <==> q in records || q == r;
  }

  lemma KeysAddDebt(env: Env, records: seq<Record>, debts: seq<Debt>, d: Debt)
    ensures Keys(env, records, debts + [d]) == Keys(env, records, debts) + if d.usd > 0.0 then {d.key} else {}
  {
    assert forall q :: q in debts + [d] <==> q in debts || q == d;
  }

  lemma RecordCollected(cfg: Config, env: Env, records: seq<Record>, r: Record, entries: map<Key, Entry>)
    requires Collected(cfg, env, records, [], entries)
    ensures Collected(cfg, env, records + [r], [],
      if Resolvable(env, r) then AddEntry(entries, KeyOf(env, r), Cost(cfg.prices, r), OwnId(r)) else entries)
  {
    var after := if Resolvable(env, r) then AddEntry(entries, KeyOf(env, r), Cost(cfg.prices, r), OwnId(r)) else entries;
    KeysAddRecord(env, records, r);
    forall k ensures EntryOf(after, k) == Due(cfg, env, records + [r], [], k) {
      DueAddsRecord(cfg, env, records, r, k);
      assert EntryOf(entries, k) == Due(cfg, env, records, [], k);
    }
  }

  lemma DebtCollected(cfg: Config, env: Env, records: seq<Record>, debts: seq<Debt>, d: Debt, entries: map<Key, Entry>)
    requires Collected(cfg, env, records, debts, entries)
    ensures Collected(cfg, env, records, debts + [d], if d.usd > 0.0 then AddEntry(entries, d.key, d.usd, d.ids) else entries)
  {
    var after := if d.usd > 0.0 then AddEntry(entries, d.key, d.usd, d.ids) else entries;
    KeysAddDebt(env, records, debts, d);
    forall k ensures EntryOf(after, k) == Due(cfg, env, records, debts + [d], k) {
      DueAddsDebt(cfg, env, records, debts, d, k);
      assert EntryOf(entries, k) == Due(cfg, env, records, debts, k);
    }
  }

  /** The two cost loops of the aggregation: records, then positive carried debts. */
  method CollectCosts(cfg: Config, env: Env, records: seq<Record>, carried: seq<Debt>)
    returns (entries: map<Key, Entry>, unresolved: seq<Record>)
    ensures unresolved == Unresolved(env, records)
    ensures Collected(cfg, env, records, carried, entries)
  {
    entries, unresolved := map[], [];
    for i := 0 to |records|
      invariant unresolved == Unresolved(env, records[..i])
      invariant Collected(cfg, env, records[..i], [], entries)
    {
      var rec := records[i];
      RecordCollected(cfg, env, records[..i], rec, entries);
      assert records[..i + 1] == records[..i] + [rec] && records[..i + 1][..i] == records[..i];
      if ResolveWorker(env.resolver, rec.worker) == "" {
        unresolved := unresolved + [rec];
        continue;
      }
      entries := AddEntry(entries, KeyOf(env, rec), Cost(cfg.prices, rec), OwnId(rec));
    }
    assert records[..|records|] == records;
    for i := 0 to |carried|
      invariant Collected(cfg, env, records, carried[..i], entries)
    {
      var d := carried[i];
      DebtCollected(cfg, env, records, carried[..i], d, entries);
      assert carried[..i + 1] == carried[..i] + [d];
      if d.usd <= 0.0 { continue; }
      entries := AddEntry(entries, d.key, d.usd, d.ids);
    }
    assert carried[..|carried|] == carried;
  }

  ghost predicate Grouped(keys: set<Key>, groups: map<string, seq<string>>) {
    && groups.Keys == Wallets(keys)
    && forall w | w in groups :: multiset(groups[w]) == multiset(Payees(keys, w))
  }

  function AddToGroup(groups: map<string, seq<string>>, k: Key): map<string, seq<string>> {
    groups[k.wallet := (if k.wallet in groups then groups[k.wallet] else []) + [k.sp]]
  }

  lemma KeyGrouped(keys: set<Key>, k: Key, groups: map<string, seq<string>>)
    requires k !in keys && Grouped(keys, groups)
    ensures Grouped(keys + {k}, AddToGroup(groups, k))
  {
    var after := AddToGroup(groups, k);
    assert Wallets(keys + {k}) == Wallets(keys) + {k.wallet} by {
      assert k in keys + {k};
      assert forall q | q in keys :: q in keys + {k};
    }
    forall w | w in after ensures multiset(after[w]) == multiset(Payees(keys + {k}, w)) {
      if w == k.wallet {
        assert k in keys + {k};
        assert forall q | q in keys :: q in keys + {k};
        assert Payees(keys + {k}, w) == Payees(keys, w) + {k.sp};
        assert k.sp !in Payees(keys, w) by {
          if q :| q in keys && q.wallet == w && q.sp == k.sp { assert q == k; }
        }
        if w !in groups { assert Payees(keys, w) == {}; }
      } else {
        assert Payees(keys + {k}, w) == Payees(keys, w) by {
          assert forall q | q in keys :: q in keys + {k};
        }
      }
    }
  }

  /** Walks the cost map in whatever order it yields its keys. */
  method GroupByWallet(keys: set<Key>) returns (groups: map<string, seq<string>>)
    ensures Grouped(keys, groups)
  {
    groups := map[];
    var todo := keys;
    while todo != {}
      invariant todo <= keys && Grouped(keys - todo, groups)
      decreases todo
    {
      var k :| k in todo;
      KeyGrouped(keys - todo, k, groups);
      assert keys - (todo - {k}) == (keys - todo) + {k};
      groups, todo := AddToGroup(groups, k), todo - {k};
    }
    assert keys - {} == keys;
  }

  method ListOf(s: set<string>) returns (walk: seq<string>)
    ensures multiset(walk) == multiset(s)
  {
    walk := [];
    var todo := s;
    while todo != {}
      invariant todo <= s && multiset(walk) == multiset(s - todo)
      decreases todo
    {
      var x :| x in todo;
      assert s - (todo - {x}) == (s - todo) + {x};
      walk, todo := walk + [x], todo - {x};
    }
    assert s - {} == s;
  }

  lemma SortedSetMembers(s: set<string>)
    ensures forall x :: x in SortedSet(s) <==> x in s
    ensures multiset(SortedSet(s)) == multiset(s)
  {
    SortSorts(SelfKey(), Enumerate(s));
    var q := SortedSet(s);
    forall x ensures x in q <==> x in s { assert x in q <==> x in multiset(q); }
  }

  /** A FIL price at or below zero defers the cycle; the stablecoin feed is always positive. */
  predicate PositiveFeeds(m: Market) { m.stablePrice > 0.0 }

  /** The loop over one wallet's payees. */
  method PayPayees(cfg: Config, env: Env, wallet: string, payees: seq<string>, entries: map<Key, Entry>)
    returns (items: seq<Item>, settled: real, debts: seq<Debt>)
    requires PositivePrices(env.market)
    requires forall p | p in payees :: Key(wallet, p) in entries
    ensures Paid(cfg, env, wallet, payees, entries, items, settled, debts)
  {
    var working := if wallet in env.balances then env.balances[wallet] else map[];
    items, settled, debts := [], 0.0, [];
    for j := 0 to |payees|
      invariant Paid(cfg, env, wallet, payees[..j], entries, items, settled, debts)
      invariant working == PayWallet(cfg, env.market, wallet, payees[..j], UsdOf(entries), BalancesOf(env, wallet)).working
    {
      assert payees[..j + 1] == payees[..j] + [payees[j]] && payees[..j + 1][..j] == payees[..j];
      var key := Key(wallet, payees[j]);
      var entry := entries[key];
      var slices, shortfall;
      slices, shortfall, working := Allocate(cfg, env.market, entry.usd, working);
      PayeePaid(cfg, env, wallet, payees[..j], payees[j], entries, items, settled, debts, Till(slices, shortfall, working));
      items := items + AttachIds(Stamp(key, slices), IdsIn(entries));
      if entry.usd - shortfall > 0.0 { settled := settled + (entry.usd - shortfall); }
      if shortfall > 0.0 { debts := debts + [Debt(key, shortfall, entry.ids)]; }
    }
    assert payees[..|payees|] == payees;
  }

  function UsdOf(entries: map<Key, Entry>): map<Key, real> { map k | k in entries :: entries[k].usd }

  function IdsIn(entries: map<Key, Entry>): Key -> seq<string> { (k: Key) => EntryOf(entries, k).ids }

  ghost predicate Paid(cfg: Config, env: Env, wallet: string, payees: seq<string>, entries: map<Key, Entry>,
                       items: seq<Item>, settled: real, debts: seq<Debt>) {
    var paid := PayWallet(cfg, env.market, wallet, payees, UsdOf(entries), BalancesOf(env, wallet));
    items == AttachIds(paid.payments, IdsIn(entries)) && settled == paid.settled && debts == AttachDebtIds(paid.debts, IdsIn(entries))
  }

  lemma {:induction false} PayeePaid(cfg: Config, env: Env, wallet: string, payees: seq<string>, p: string, entries: map<Key, Entry>,
                  items: seq<Item>, settled: real, debts: seq<Debt>, till: Till)
    requires Paid(cfg, env, wallet, payees, entries, items, settled, debts)
    requires Key(wallet, p) in entries
    requires till == Deduct(cfg, env.market, cfg.priority, entries[Key(wallet, p)].usd,
                            PayWallet(cfg, env.market, wallet, payees, UsdOf(entries), BalancesOf(env, wallet)).working)
    ensures var key, entry := Key(wallet, p), entries[Key(wallet, p)];
            Paid(cfg, env, wallet, payees + [p], entries, items + AttachIds(Stamp(key, till.slices), IdsIn(entries)),
                 if entry.usd - till.remaining > 0.0 then settled + (entry.usd - till.remaining) else settled,
                 if till.remaining > 0.0 then debts + [Debt(key, till.remaining, entry.ids)] else debts)
    ensures PayWallet(cfg, env.market, wallet, payees + [p], UsdOf(entries), BalancesOf(env, wallet)).working == till.working
  {
    var key := Key(wallet, p);
    assert (payees + [p])[..|payees|] == payees;
    var before := PayWallet(cfg, env.market, wallet, payees, UsdOf(entries), BalancesOf(env, wallet));
    AttachConcat(before.payments, Stamp(key, till.slices), IdsIn(entries));
    AttachDebtConcat(before.debts, if till.remaining > 0.0 then [Owed(key, till.remaining)] else [], IdsIn(entries));
    assert IdsIn(entries)(key) == entries[key].ids;
  }

  lemma AttachConcat(a: seq<Payment>, b: seq<Payment>, ids: Key -> seq<string>)
    ensures AttachIds(a + b, ids) == AttachIds(a, ids) + AttachIds(b, ids)
  {
  }

  lemma AttachDebtConcat(a: seq<Owed>, b: seq<Owed>, ids: Key -> seq<string>)
    ensures AttachDebtIds(a + b, ids) == AttachDebtIds(a, ids) + AttachDebtIds(b, ids)
  {
  }

  lemma {:induction false} WalletPaid(cfg: Config, env: Env, wallets: seq<string>, wallet: string, entries: map<Key, Entry>,
                   items: seq<Item>, sum: real, debts: seq<Debt>)
    requires Paid(cfg, env, wallet, SortedSet(Payees(entries.Keys, wallet)), entries, items, sum, debts)
    ensures var before, after := PayWallets(cfg, env, wallets, UsdOf(entries)), PayWallets(cfg, env, wallets + [wallet], UsdOf(entries));
            && AttachIds(after.payments, IdsIn(entries)) == AttachIds(before.payments, IdsIn(entries)) + items
            && after.settled == (if sum > 0.0 then before.settled[wallet := sum] else before.settled)
            && AttachDebtIds(after.debts, IdsIn(entries)) == AttachDebtIds(before.debts, IdsIn(entries)) + debts
  {
    assert (wallets + [wallet])[..|wallets|] == wallets;
    assert UsdOf(entries).Keys == entries.Keys;
    var before := PayWallets(cfg, env, wallets, UsdOf(entries));
    var paid := PayWallet(cfg, env.market, wallet, SortedSet(Payees(entries.Keys, wallet)), UsdOf(entries), BalancesOf(env, wallet));
    AttachConcat(before.payments, paid.payments, IdsIn(entries));
    AttachDebtConcat(before.debts, paid.debts, IdsIn(entries));
  }

  /** The loop over the sorted wallets; each wallet's payees are sorted as they are reached. */
  method PayAllWallets(cfg: Config, env: Env, wallets: seq<string>, groups: map<string, seq<string>>, entries: map<Key, Entry>)
    returns (items: seq<Item>, settled: map<string, real>, debts: seq<Debt>)
    requires PositivePrices(env.market)
    requires Grouped(entries.Keys, groups) && forall w | w in wallets :: w in groups
    ensures PaidOut(PayWallets(cfg, env, wallets, UsdOf(entries)), IdsIn(entries), items, settled, debts)
  {
    items, settled, debts := [], map[], [];
    for i := 0 to |wallets|
      invariant PaidOut(PayWallets(cfg, env, wallets[..i], UsdOf(entries)), IdsIn(entries), items, settled, debts)
    {
      assert wallets[..i + 1] == wallets[..i] + [wallets[i]];
      var wallet := wallets[i];
      var payees := Sort(SelfKey(), groups[wallet]);
      SortedSetUnique(groups[wallet], Payees(entries.Keys, wallet));
      SortedSetMembers(Payees(entries.Keys, wallet));
      var userItems, sum, userDebts := PayPayees(cfg, env, wallet, payees, entries);
      WalletPaid(cfg, env, wallets[..i], wallet, entries, userItems, sum, userDebts);
      items := items + userItems;
      if sum > 0.0 { settled := settled[wallet := sum]; }
      debts := debts + userDebts;
    }
    assert wallets[..|wallets|] == wallets;
  }

  ghost predicate PaidOut(pay: Payout, ids: Key -> seq<string>, items: seq<Item>, settled: map<string, real>, debts: seq<Debt>) {
    items == AttachIds(pay.payments, ids) && settled == pay.settled && debts == AttachDebtIds(pay.debts, ids)
  }

  method AggregateWithDebts(cfg: Config, env: Env, records: seq<Record>, carried: seq<Debt>)
    returns (items: seq<Item>, unresolved: seq<Record>, settled: map<string, real>, debts: seq<Debt>)
    requires PositiveFeeds(env.market)
    ensures Aggregation(items, unresolved, settled, debts) == Aggregate(cfg, env, records, carried)
  {
    if env.market.fil <= 0.0 { return [], records, map[], carried; }
    var entries;
    entries, unresolved := CollectCosts(cfg, env, records, carried);
    var groups := GroupByWallet(entries.Keys);
    var wallets := ListOf(groups.Keys);
    SortedSetUnique(wallets, groups.Keys);
    SortedSetMembers(groups.Keys);
    wallets := Sort(SelfKey(), wallets);
    items, settled, debts := PayAllWallets(cfg, env, wallets, groups, entries);
    CostsCollected(cfg, env, records, carried, entries);
    SameIdsAttached(Pay(cfg, env, records, carried), IdsIn(entries), IdsFor(env, records, carried));
    items := Sort(ItemKey(), items);
  }

  lemma CostsCollected(cfg: Config, env: Env, records: seq<Record>, carried: seq<Debt>, entries: map<Key, Entry>)
    requires Collected(cfg, env, records, carried, entries)
    ensures UsdOf(entries) == Costs(cfg, env, records, carried) && UsdOf(entries).Keys == entries.Keys
    ensures forall k :: IdsIn(entries)(k) == IdsFor(env, records, carried)(k)
  {
    var costs := Costs(cfg, env, records, carried);
    assert UsdOf(entries).Keys == entries.Keys == costs.Keys;
    forall k | k in costs ensures UsdOf(entries)[k] == costs[k] {
      assert EntryOf(entries, k) == Due(cfg, env, records, carried, k);
    }
    forall k ensures IdsIn(entries)(k) == IdsFor(env, records, carried)(k) {
      assert EntryOf(entries, k) == Due(cfg, env, records, carried, k);
    }
  }

  lemma SameIdsAttached(pay: Payout, f: Key -> seq<string>, g: Key -> seq<string>)
    requires forall k :: f(k) == g(k)
    ensures AttachIds(pay.payments, f) == AttachIds(pay.payments, g)
    ensures AttachDebtIds(pay.debts, f) == AttachDebtIds(pay.debts, g)
  {
  }
}
