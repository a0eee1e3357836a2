/** Settled on paper and moved on chain: every completed batch has an effect of its own exactly
    as long as no two of them carry the same details hash, and instalments of one debt can. */
module Instalments {
  import opened Orders
  import opened Sums
  import opened Merkle
  import opened Billing
  import opened Allocator
  import opened Aggregator
  import opened Batches
  import opened RequestLog
  import opened Settlement
  import opened SettlementSafety
  import B = Balances

  // ---- Completed batches and their effects ----

  function BatchesOf(rounds: seq<Round>): seq<PlanBatch> {
    if rounds == [] then [] else BatchesOf(rounds[..|rounds| - 1]) + rounds[|rounds| - 1].wal.batches
  }

  function HashesOf(batches: seq<PlanBatch>): seq<Hash> {
    seq(|batches|, i requires 0 <= i < |batches| => batches[i].detailsHash)
  }

  lemma {:induction false} BatchFromRound(rounds: seq<Round>, i: nat)
    requires i < |BatchesOf(rounds)|
    ensures exists r :: r in rounds && BatchesOf(rounds)[i] in r.wal.batches
    decreases |rounds|
  {
    var n := |rounds| - 1;
    var before := BatchesOf(rounds[..n]);
    assert rounds[n] in rounds;
    if i < |before| {
      BatchFromRound(rounds[..n], i);
      var r :| r in rounds[..n] && before[i] in r.wal.batches;
      assert r in rounds;
    } else {
      assert BatchesOf(rounds)[i] == rounds[n].wal.batches[i - |before|];
    }
  }

  lemma CompletedTookEffect(cfg: Config, s: State, i: nat)
    requires Reachable(cfg, s) && i < |BatchesOf(s.done)|
    ensures s.chain.effects[BatchesOf(s.done)[i].detailsHash] == 1
  {
    BatchFromRound(s.done, i);
    AtMostOnce(cfg, s, BatchesOf(s.done)[i].detailsHash);
  }

  lemma {:induction false} DistinctOnce(hs: seq<Hash>, h: Hash)
    requires Distinct(hs)
    ensures multiset(hs)[h] <= 1
    decreases |hs|
  {
    if hs != [] {
      var n := |hs| - 1;
      assert hs == hs[..n] + [hs[n]];
      DistinctOnce(hs[..n], h);
      if hs[n] == h { assert h !in hs[..n]; }
    }
  }

  /** Over every run: the completed batches have as many effects on chain as there are of them
      if and only if their details hashes are pairwise distinct. */
  lemma OwnEffects(cfg: Config, s: State)
    requires Reachable(cfg, s)
    ensures var hs := HashesOf(BatchesOf(s.done));
      multiset(hs) <= s.chain.effects <==> Distinct(hs)
  {
    var hs := HashesOf(BatchesOf(s.done));
    forall i | 0 <= i < |hs| ensures s.chain.effects[hs[i]] == 1 { CompletedTookEffect(cfg, s, i); }
    if Distinct(hs) {
      forall h ensures multiset(hs)[h] <= s.chain.effects[h] {
        DistinctOnce(hs, h);
        if h in hs {
          var i :| 0 <= i < |hs| && hs[i] == h;
        }
      }
    } else {
      var i, j :| 0 <= i < j < |hs| && hs[i] == hs[j];
      TwiceThere(hs, i, j);
      assert s.chain.effects[hs[i]] == 1;
    }
  }

  // ---- When two completed batches share a hash ----

  /** Frozen from some list of items by some index of records. */
  ghost predicate Frozen(b: PlanBatch) { exists items, byId :: b.(confirmed := false) == PlanBatchOf(items, byId) }

  ghost predicate FrozenOk(s: State) {
    (s.wal.Some? ==> AllFrozen(s.wal.value.batches)) && forall r | r in s.done :: AllFrozen(r.wal.batches)
  }

  ghost predicate AllFrozen(batches: seq<PlanBatch>) { forall b | b in batches :: Frozen(b) }

  lemma PlanIsFrozen(cfg: Config, s: State, env: Env, now: nat)
    requires s.cursor <= |s.log|
    ensures AllFrozen(PlanOf(cfg, s, env, now).batches)
  {
    var byId := IdIndex(s.dead + Unread(s));
    var batches := Chunks(AggregateOf(cfg, s, env).items, ChunkSize(cfg.maxBatch));
    forall i | 0 <= i < |batches| ensures Frozen(PlanBatches(batches, byId)[i]) {
      PlanBatchAt(batches, byId, i);
      assert PlanBatchOf(batches[i], byId).(confirmed := false) == PlanBatchOf(batches[i], byId);
    }
  }

  lemma ConfirmedFrozen(wal: Wal, i: nat, books: Books)
    requires i < |wal.batches| && AllFrozen(wal.batches)
    ensures AllFrozen(Confirmed(wal, i, books).batches)
  {
    ConfirmedFlags(wal, i, books);
    var after := Confirmed(wal, i, books).batches;
    forall b | b in after ensures Frozen(b) {
      var j :| 0 <= j < |after| && after[j] == b;
      assert wal.batches[j] in wal.batches && b.(confirmed := false) == wal.batches[j].(confirmed := false);
    }
  }

  lemma FrozenStep(cfg: Config, s: State, e: Event)
    requires FrozenOk(s) && Enabled(cfg, s, e)
    ensures FrozenOk(Apply(cfg, s, e))
  {
    match e
    case Plan(env, now) => PlanIsFrozen(cfg, s, env, now);
    case ConfirmMined(i) =>
      ConfirmedFrozen(s.wal.value, i, Reversed(s.wal.value.books, s.wal.value.batches[i], s.chain.processed[HashAt(s.wal.value, i)]));
    case ConfirmKnown(i) => ConfirmedFrozen(s.wal.value, i, s.wal.value.books);
    case _ =>
  }

  lemma {:induction false} RunsStayFrozen(cfg: Config, s: State, events: seq<Event>, t: State)
    requires FrozenOk(s) && Runs(cfg, s, events, t)
    ensures FrozenOk(t)
    decreases |events|
  {
    if events != [] {
      FrozenStep(cfg, s, events[0]);
      RunsStayFrozen(cfg, Apply(cfg, s, events[0]), events[1..], t);
    }
  }

  /** What the batch hash sees of a planned item. */
  function Tuple(it: PlanItem): HashItem { HashItem(it.user, it.sp, AmountText(it.amount), it.token) }

  function Tuples(items: seq<PlanItem>): seq<HashItem> { seq(|items|, i requires 0 <= i < |items| => Tuple(items[i])) }

  function PlannedIds(items: seq<PlanItem>): set<string> { set it, id | it in items && id in it.ids :: id }

  ghost predicate SameContents(a: PlanBatch, b: PlanBatch) {
    && multiset(Tuples(a.items)) == multiset(Tuples(b.items))
    && PlannedIds(a.items) == PlannedIds(b.items)
    && RowLeaves(a.leaves) == RowLeaves(b.leaves)
  }

  lemma {:induction false} PlannedItemAt(batch: seq<Item>, byId: ById, i: nat)
    requires i < |batch|
    ensures var it := PlanItems(batch, byId)[i]; Tuple(it) == HashItemOf(batch[i]) && it.ids == batch[i].ids
    decreases |batch|
  {
    if i < |batch| - 1 { PlannedItemAt(batch[..|batch| - 1], byId, i); }
  }

  lemma {:induction false} PlannedContents(batch: seq<Item>, byId: ById)
    ensures Tuples(PlanItems(batch, byId)) == HashItems(batch) && PlannedIds(PlanItems(batch, byId)) == IdSet(batch)
  {
    var items := PlanItems(batch, byId);
    forall i | 0 <= i < |batch| ensures Tuple(items[i]) == HashItemOf(batch[i]) && items[i].ids == batch[i].ids { PlannedItemAt(batch, byId, i); }
    forall id ensures id in PlannedIds(items) <==> id in IdSet(batch) {
      if id in PlannedIds(items) {
        var i :| 0 <= i < |items| && id in items[i].ids;
        assert batch[i] in batch;
      }
      if id in IdSet(batch) {
        var i :| 0 <= i < |batch| && id in batch[i].ids;
        assert items[i] in items;
      }
    }
  }

  lemma FrozenBind(a: PlanBatch, b: PlanBatch)
    requires Frozen(a) && Frozen(b)
    ensures a.detailsHash == b.detailsHash <==> SameContents(a, b)
  {
    var x, xById :| a.(confirmed := false) == PlanBatchOf(x, xById);
    var y, yById :| b.(confirmed := false) == PlanBatchOf(y, yById);
    PlannedBind(x, xById, y, yById);
  }

  lemma PlannedBind(x: seq<Item>, xById: ById, y: seq<Item>, yById: ById)
    ensures PlanBatchOf(x, xById).detailsHash == PlanBatchOf(y, yById).detailsHash
       <==> SameContents(PlanBatchOf(x, xById), PlanBatchOf(y, yById))
  {
    PlannedContents(x, xById);
    PlannedContents(y, yById);
    PlannedLeaves(x, xById);
    PlannedLeaves(y, yById);
    DetailsHashBinds(x, xById, y, yById);
  }

  lemma PlannedLeaves(x: seq<Item>, byId: ById)
    ensures RowLeaves(PlanBatchOf(x, byId).leaves) == LeavesOf(BatchEntries(x, byId))
  {
  }

  /** Two completed batches share a details hash exactly when they pay the same amounts to the
      same payees for the same request ids with the same leaves. */
  lemma RepeatedHashIsRepeatedBatch(cfg: Config, s: State, i: nat, j: nat)
    requires Reachable(cfg, s) && i < |BatchesOf(s.done)| && j < |BatchesOf(s.done)|
    ensures BatchesOf(s.done)[i].detailsHash == BatchesOf(s.done)[j].detailsHash
       <==> SameContents(BatchesOf(s.done)[i], BatchesOf(s.done)[j])
  {
    var events :| Runs(cfg, Initial(), events, s);
    RunsStayFrozen(cfg, Initial(), events, s);
    BatchFromRound(s.done, i);
    BatchFromRound(s.done, j);
    FrozenBind(BatchesOf(s.done)[i], BatchesOf(s.done)[j]);
  }

  // ---- A cycle that settles without moving money ----

  lemma {:induction false} RunSnoc(cfg: Config, s: State, events: seq<Event>, t: State, e: Event)
    requires Runs(cfg, s, events, t) && Enabled(cfg, t, e)
    ensures Runs(cfg, s, events + [e], Apply(cfg, t, e))
  {
    var u := Apply(cfg, t, e);
    assert [e][1..] == [] && Runs(cfg, u, [], u);
    assert Runs(cfg, t, [e], u);
    RunsConcat(cfg, s, events, t, [e], u);
  }

  ghost predicate ConfirmedBelow(wal: Wal, k: nat) {
    k <= |wal.batches| && forall j | 0 <= j < |wal.batches| :: wal.batches[j].confirmed <==> j < k
  }

  ghost predicate HashesDurable(wal: Wal, c: Chain) { forall b | b in wal.batches :: b.detailsHash in c.durable }

  /** Batches whose hashes the contract already knows are confirmed one by one, nothing else
      changes. */
  lemma {:induction false} KnownRun(cfg: Config, s: State, k: nat) returns (events: seq<Event>, t: State)
    requires s.wal.Some? && s.stage == Open && ConfirmedBelow(s.wal.value, k)
    requires HashesDurable(s.wal.value, s.chain) && s.chain.durable <= s.chain.processed.Keys
    ensures Runs(cfg, s, events, t)
    ensures t.wal.Some? && AllConfirmed(t.wal.value) && t == s.(wal := Some(s.wal.value.(batches := t.wal.value.batches)))
    ensures HashesOf(t.wal.value.batches) == HashesOf(s.wal.value.batches)
    decreases |s.wal.value.batches| - k
  {
    var wal := s.wal.value;
    if k == |wal.batches| {
      events, t := [], s;
    } else {
      var e := ConfirmKnown(k);
      assert wal.batches[k] in wal.batches;
      ConfirmedFlags(wal, k, wal.books);
      var mid := Apply(cfg, s, e);
      assert mid.chain == s.chain;
      assert HashesOf(mid.wal.value.batches) == HashesOf(wal.batches);
      forall b | b in mid.wal.value.batches ensures b.detailsHash in s.chain.durable {
        var j :| 0 <= j < |wal.batches| && mid.wal.value.batches[j] == b;
        assert wal.batches[j] in wal.batches;
      }
      var rest;
      rest, t := KnownRun(cfg, mid, k + 1);
      events := [e] + rest;
      assert events[0] == e && events[1..] == rest;
    }
  }

  lemma {:induction false} RunTwo(cfg: Config, s: State, e: Event, f: Event)
    requires Enabled(cfg, s, e) && Enabled(cfg, Apply(cfg, s, e), f)
    ensures Runs(cfg, s, [e, f], Apply(cfg, Apply(cfg, s, e), f))
  {
    var t, u := Apply(cfg, s, e), Apply(cfg, Apply(cfg, s, e), f);
    assert [e, f][1..] == [f] && [f][1..] == [] && Runs(cfg, u, [], u);
    assert Runs(cfg, t, [f], u);
  }

  /** The finishing steps of a confirmed plan, first those for cursor and pending spend. */
  lemma FinishRun(cfg: Config, s: State) returns (events: seq<Event>, t: State)
    requires ShapeOk(s) && s.wal.Some? && s.stage == Open && AllConfirmed(s.wal.value) && s.total.lastWal < s.wal.value.createdAt
    ensures Runs(cfg, s, events, t)
    ensures t.wal.None? && t.chain == s.chain && t.log == s.log && t.dead == s.dead && t.restored == s.restored && t.stage == Open
    ensures t.cursor == s.wal.value.cursor && t.debts == s.wal.value.books.debts && t.clock == s.clock
    ensures t.total == Total(s.total.usd + B.MapSum(s.wal.value.books.settled), s.wal.value.createdAt)
    ensures t.done == s.done + [s.round.value.(wal := s.wal.value)]
  {
    var mid := Apply(cfg, Apply(cfg, s, CommitCursor), ReducePending);
    RunTwo(cfg, s, CommitCursor, ReducePending);
    t := CountRun(cfg, mid);
    RunsConcat(cfg, s, [CommitCursor, ReducePending], mid, [AddSettledTotal, SaveDebts] + [RemoveWal], t);
    events := [CommitCursor, ReducePending] + ([AddSettledTotal, SaveDebts] + [RemoveWal]);
  }

  lemma CountRun(cfg: Config, s: State) returns (t: State)
    requires s.wal.Some? && s.round.Some? && s.stage == Reduced && s.total.lastWal < s.wal.value.createdAt
    ensures Runs(cfg, s, [AddSettledTotal, SaveDebts] + [RemoveWal], t)
    ensures t.total == Total(s.total.usd + B.MapSum(s.wal.value.books.settled), s.wal.value.createdAt)
    ensures t == s.(wal := None, stage := Open, round := None, debts := s.wal.value.books.debts, total := t.total,
                    done := s.done + [s.round.value.(wal := s.wal.value)])
  {
    var mid := Apply(cfg, Apply(cfg, s, AddSettledTotal), SaveDebts);
    RunTwo(cfg, s, AddSettledTotal, SaveDebts);
    RunSnoc(cfg, s, [AddSettledTotal, SaveDebts], mid, RemoveWal);
    t := Apply(cfg, mid, RemoveWal);
  }

  lemma PlanRun(cfg: Config, s: State, env: Env, now: nat) returns (t: State)
    requires Safe(s) && Enabled(cfg, s, Plan(env, now))
    ensures t == Apply(cfg, s, Plan(env, now)) && Runs(cfg, s, [Plan(env, now)], t) && Safe(t)
    ensures t.wal == Some(PlanOf(cfg, s, env, now)) && t.total.lastWal < t.wal.value.createdAt && ConfirmedBelow(t.wal.value, 0)
  {
    t := Apply(cfg, s, Plan(env, now));
    var plan := PlanOf(cfg, s, env, now);
    FreshPlanUnconfirmed(cfg, s, env, now);
    forall j | 0 <= j < |plan.batches| ensures !plan.batches[j].confirmed { assert plan.batches[j] in plan.batches; }
    assert [Plan(env, now)][1..] == [] && Runs(cfg, t, [], t);
    assert Runs(cfg, s, [Plan(env, now)], t);
    RunsAreSafe(cfg, s, [Plan(env, now)], t);
  }

  lemma CompleteKnown(cfg: Config, s: State) returns (events: seq<Event>, t: State)
    requires Safe(s) && s.wal.Some? && s.stage == Open && ConfirmedBelow(s.wal.value, 0) && HashesDurable(s.wal.value, s.chain)
    requires s.total.lastWal < s.wal.value.createdAt
    ensures Runs(cfg, s, events, t) && t.wal.None? && t.chain == s.chain
    ensures |t.done| == |s.done| + 1 && HashesOf(t.done[|s.done|].wal.batches) == HashesOf(s.wal.value.batches)
    ensures t.total.usd == s.total.usd + B.MapSum(s.wal.value.books.settled)
    ensures t.debts == s.wal.value.books.debts && t.cursor == s.wal.value.cursor
  {
    var known, mid := KnownRun(cfg, s, 0);
    RunsAreSafe(cfg, s, known, mid);
    var finish;
    finish, t := FinishRun(cfg, mid);
    RunsConcat(cfg, s, known, mid, finish, t);
    events := known + finish;
  }

  /** Whenever every batch of the next plan repeats the hash of a batch known to be final, the
      cycle completes, adds its settled USD to the total and its batches to the completed
      ones, and no money moves on chain. */
  lemma RepeatedPlanMovesNothing(cfg: Config, s: State, env: Env, now: nat) returns (events: seq<Event>, t: State)
    requires Safe(s) && s.stage == Open && Enabled(cfg, s, Plan(env, now))
    requires HashesDurable(PlanOf(cfg, s, env, now), s.chain)
    ensures Runs(cfg, s, events, t) && t.wal.None? && t.chain == s.chain
    ensures |t.done| == |s.done| + 1 && HashesOf(t.done[|s.done|].wal.batches) == HashesOf(PlanOf(cfg, s, env, now).batches)
    ensures t.total.usd == s.total.usd + B.MapSum(AggregateOf(cfg, s, env).settled)
    ensures t.debts == AggregateOf(cfg, s, env).debts && t.cursor == |s.log|
  {
    var planned := PlanRun(cfg, s, env, now);
    var rest;
    rest, t := CompleteKnown(cfg, planned);
    RunsConcat(cfg, s, [Plan(env, now)], planned, rest, t);
    events := [Plan(env, now)] + rest;
  }

  // ---- Such a cycle is reachable ----

  lemma OneSorted(w: string)
    ensures SortedSet({w}) == [w]
  {
    var q := Enumerate({w});
    assert |q| == |multiset(q)| == 1 && q[0] in multiset(q);
    assert q == [w];
    assert [w][1..] == [] && Sort(SelfKey(), []) == [];
  }

  function Settles(owing: real, till: Till): real { if owing - till.remaining > 0.0 then owing - till.remaining else 0.0 }

  function Leaves(k: Key, till: Till): seq<Owed> { if till.remaining > 0.0 then [Owed(k, till.remaining)] else [] }

  ghost predicate TillFor(cfg: Config, env: Env, k: Key, owing: real, till: Till) {
    till == Deduct(cfg, env.market, cfg.priority, owing, BalancesOf(env, k.wallet))
  }

  lemma {:induction false} OnePayee(cfg: Config, env: Env, k: Key, costs: map<Key, real>, till: Till)
    requires k in costs && TillFor(cfg, env, k, costs[k], till)
    ensures PayWallet(cfg, env.market, k.wallet, [k.sp], costs, BalancesOf(env, k.wallet)) ==
      WalletTill(Stamp(k, till.slices), Settles(costs[k], till), Leaves(k, till), till.working)
  {
    assert [k.sp][..0] == [];
    assert PayWallet(cfg, env.market, k.wallet, [], costs, BalancesOf(env, k.wallet)) == WalletTill([], 0.0, [], BalancesOf(env, k.wallet));
  }

  lemma {:induction false} OneWallet(cfg: Config, env: Env, k: Key, costs: map<Key, real>, paid: WalletTill)
    requires costs.Keys == {k} && paid == PayWallet(cfg, env.market, k.wallet, [k.sp], costs, BalancesOf(env, k.wallet))
    ensures PayWallets(cfg, env, SortedSet(Wallets(costs.Keys)), costs) ==
      Payout(paid.payments, if paid.settled > 0.0 then map[k.wallet := paid.settled] else map[], paid.debts)
  {
    assert Wallets({k}) == {k.wallet} && Payees({k}, k.wallet) == {k.sp};
    OneSorted(k.wallet);
    OneSorted(k.sp);
    assert [k.wallet][..0] == [];
    assert PayWallets(cfg, env, [], costs) == Payout([], map[], []);
  }

  /** A cycle in which one SP alone is owed by one wallet. */
  lemma {:induction false} OneKey(cfg: Config, env: Env, records: seq<Record>, carried: seq<Debt>, k: Key, owing: real, till: Till)
    requires env.market.fil > 0.0 && Keys(env, records, carried) == {k}
    requires owing == Owing(cfg, env, records, carried, k) && TillFor(cfg, env, k, owing, till)
    ensures var agg := Aggregate(cfg, env, records, carried);
      && agg.items == Sort(ItemKey(), AttachIds(Stamp(k, till.slices), IdsFor(env, records, carried)))
      && agg.unresolved == Unresolved(env, records)
      && agg.settled == (if Settles(owing, till) > 0.0 then map[k.wallet := Settles(owing, till)] else map[])
      && agg.debts == AttachDebtIds(Leaves(k, till), IdsFor(env, records, carried))
  {
    var costs := Costs(cfg, env, records, carried);
    assert costs.Keys == {k};
    OnePayee(cfg, env, k, costs, till);
    OneWallet(cfg, env, k, costs, WalletTill(Stamp(k, till.slices), Settles(owing, till), Leaves(k, till), till.working));
  }

  // A client owes three dollars; its wallet holds one dollar whenever a debt is collected.

  const COIN := Token("X", "0x", 0)
  const SHOP := Config([COIN], ["X"], Prices(map["m" := 1.0], map[], map[]), 0)
  const OWER := Key("w", "sp")
  const INSTALMENT := Item(OWER, COIN, 1, 1.0, ["r"])
  const REQUEST := Record("r", "w", "k", "m", 200, "", 0, 3, 0, 3, None)

  function EnvOf(balances: map<string, Allocator.Balances>): Env {
    Env(Resolver(map["k" := "miner"], map[], map["miner" := "sp"]), Market(1.0, "", 1.0, false), balances)
  }

  const EMPTY := EnvOf(map[])
  const ONE := EnvOf(map["w" := map["0x" := 1]])

  lemma {:induction false} NothingDeducted(total: real)
    ensures Deduct(SHOP, EMPTY.market, SHOP.priority, total, map[]) == Till([], total, map[])
  {
    assert ["X"][..0] == [];
  }

  lemma {:induction false} OneDeducted(total: real)
    requires total >= 2.0
    ensures Deduct(SHOP, ONE.market, SHOP.priority, total, map["0x" := 1]) == Till([Slice(COIN, 1, 1.0)], total - 1.0, map["0x" := 0])
  {
    var m, till := ONE.market, Till([], total, map["0x" := 1]);
    assert ["X"][..0] == [] && FindToken(SHOP.tokens, "X") == Some(COIN);
    assert Pow10(0) == 1 && PriceOf(m, "X") == 1.0;
    assert ToWei(total / 1.0, 0) == total.Floor >= 2;
    assert DeductToken(m, till, COIN) == Till([] + [Slice(COIN, 1, 1.0)], total - 1.0, map["0x" := 1]["0x" := 0]);
  }

  lemma {:induction false} DebtKeys(debts: seq<Debt>, usd: real)
    requires debts == [Debt(OWER, usd, ["r"])] && usd > 0.0
    ensures LoadDebts(debts) == debts && Keys(ONE, [], debts) == {OWER}
    ensures Owing(SHOP, ONE, [], debts, OWER) == usd && IdsOf(ONE, [], debts, OWER) == ["r"]
  {
    var d := debts[0];
    assert debts == [] + [d] && debts[..0] == [] && d in debts;
    SumAppend(DebtCost(OWER), [], d);
    assert RecordIds(ONE, OWER, []) == [] && DebtIds(OWER, debts) == DebtIds(OWER, []) + d.ids == ["r"];
  }

  lemma InstalmentAggregate(debts: seq<Debt>, usd: real)
    requires debts == [Debt(OWER, usd, ["r"])] && usd >= 2.0
    ensures Aggregate(SHOP, ONE, [], debts) == Aggregation([INSTALMENT], [], map["w" := 1.0], [Debt(OWER, usd - 1.0, ["r"])])
  {
    DebtKeys(debts, usd);
    OneDeducted(usd);
    OneKey(SHOP, ONE, [], debts, OWER, usd, Till([Slice(COIN, 1, 1.0)], usd - 1.0, map["0x" := 0]));
    var ids := IdsFor(ONE, [], debts);
    assert AttachIds(Stamp(OWER, [Slice(COIN, 1, 1.0)]), ids) == [INSTALMENT];
    assert AttachDebtIds([Owed(OWER, usd - 1.0)], ids) == [Debt(OWER, usd - 1.0, ["r"])];
    OneBatch(INSTALMENT);
  }

  /** Collecting one dollar of the debt: always the same single item. */
  lemma InstalmentPlan(s: State, now: nat, usd: real)
    requires s.cursor == |s.log| && s.dead == [] && s.debts == [Debt(OWER, usd, ["r"])] && usd >= 2.0
    ensures Unread(s) == [] && AggregateOf(SHOP, s, ONE).unresolved == []
    ensures var plan := PlanOf(SHOP, s, ONE, now);
      && plan.batches == [PlanBatchOf([INSTALMENT], map[])] && plan.cursor == |s.log| && plan.createdAt == now
      && plan.books == Books(map["w" := 1.0], [Debt(OWER, usd - 1.0, ["r"])])
  {
    assert s.log[s.cursor..] == [] && s.dead + Unread(s) == [];
    DebtKeys(s.debts, usd);
    InstalmentAggregate(s.debts, usd);
    OneBatch(INSTALMENT);
  }

  lemma OneBatch(item: Item)
    ensures Sort(ItemKey(), [item]) == [item]
    ensures PlanBatches(Chunks([item], ChunkSize(0)), map[]) == [PlanBatchOf([item], map[])]
  {
    assert [item][1..] == [] && Sort(ItemKey(), []) == [];
    assert Chunks([item], 50) == [[item]] && [[item]][..0] == [];
  }

  lemma {:induction false} OneRecord(cfg: Config, env: Env, r: Record, k: Key)
    requires Resolvable(env, r) && KeyOf(env, r) == k
    ensures Keys(env, [r], []) == {k} && Owing(cfg, env, [r], [], k) == Cost(cfg.prices, r)
    ensures IdsOf(env, [r], [], k) == OwnId(r) && Unresolved(env, [r]) == []
  {
    var none: seq<Debt> := [];
    assert [r] == [] + [r] && [r][..0] == [] && r in [r];
    SumAppend(RecordCost(cfg, env, k), [], r);
    assert RecordIds(env, k, [r]) == RecordIds(env, k, []) + OwnId(r) && DebtIds(k, none) == [];
  }

  lemma RequestKeys()
    ensures Keys(EMPTY, [REQUEST], []) == {OWER} && Owing(SHOP, EMPTY, [REQUEST], [], OWER) == 3.0
    ensures IdsOf(EMPTY, [REQUEST], [], OWER) == ["r"] && Unresolved(EMPTY, [REQUEST]) == []
  {
    assert ResolveWorker(EMPTY.resolver, "k") == "sp" && Cost(SHOP.prices, REQUEST) == 3.0;
    OneRecord(SHOP, EMPTY, REQUEST, OWER);
  }

  /** The client's request while its wallet is empty: all debt, no batch. */
  lemma DebtPlan(s: State, now: nat)
    requires s.log == [Line(Some(REQUEST), 1)] && s.cursor == 0 && s.dead == [] && s.debts == []
    ensures Unread(s) == [REQUEST] && AggregateOf(SHOP, s, EMPTY).unresolved == []
    ensures var plan := PlanOf(SHOP, s, EMPTY, now);
      plan.batches == [] && plan.cursor == 1 && plan.createdAt == now && plan.books == Books(map[], [Debt(OWER, 3.0, ["r"])])
  {
    assert s.log[0..] == s.log && s.log[..0] == [] && BillableOf([]) == [];
    assert s.dead + Unread(s) == [REQUEST];
    RequestKeys();
    NothingDeducted(3.0);
    OneKey(SHOP, EMPTY, [REQUEST], [], OWER, 3.0, Till([], 3.0, map[]));
    var none: seq<Slice> := [];
    assert AttachIds(Stamp(OWER, none), IdsFor(EMPTY, [REQUEST], [])) == [];
  }

  lemma {:induction false} ReachesOn(cfg: Config, s: State, events: seq<Event>, t: State)
    requires Reachable(cfg, s) && Runs(cfg, s, events, t)
    ensures Reachable(cfg, t)
  {
    var before :| Runs(cfg, Initial(), before, s);
    RunsConcat(cfg, Initial(), before, s, events, t);
  }

  ghost predicate Resting(s: State, usd: real) {
    && Reachable(SHOP, s) && s.wal.None? && s.restored && s.stage == Open && s.cursor == |s.log| && s.dead == []
    && s.debts == [Debt(OWER, usd, ["r"])]
  }

  lemma RequestServed() returns (s: State)
    ensures Reachable(SHOP, s) && s.log == [Line(Some(REQUEST), 1)] && s.chain == Initial().chain && s.clock == 0
    ensures s.wal.None? && s.restored && s.stage == Open && s.cursor == 0 && s.dead == [] && s.debts == []
  {
    var ticket, line := Ticket("w", 3.0), Line(Some(REQUEST), 1);
    var mid := Apply(SHOP, Initial(), Reserve(ticket));
    assert mid.inflight == [ticket];
    RunTwo(SHOP, Initial(), Reserve(ticket), Complete(0, line, false));
    s := Apply(SHOP, mid, Complete(0, line, false));
    assert Runs(SHOP, Initial(), [Reserve(ticket), Complete(0, line, false)], s);
    assert s.log == [] + [line];
  }

  lemma AllOwed() returns (s: State)
    ensures Resting(s, 3.0) && s.clock == 1 && s.chain == Initial().chain
  {
    var served := RequestServed();
    DebtPlan(served, 1);
    ReachableIsSafe(SHOP, served);
    var planned := PlanRun(SHOP, served, EMPTY, 1);
    ReachesOn(SHOP, served, [Plan(EMPTY, 1)], planned);
    assert planned.dead == [] && AllConfirmed(planned.wal.value);
    var events;
    events, s := FinishRun(SHOP, planned);
    ReachesOn(SHOP, planned, events, s);
  }

  /** Submitting, landing and confirming a single batch none of whose items is skipped. */
  lemma MinedRun(cfg: Config, s: State, b: PlanBatch) returns (events: seq<Event>, t: State)
    requires s.wal.Some? && s.stage == Open && s.wal.value.batches == [b] && !b.confirmed && b.detailsHash !in s.chain.processed
    ensures Runs(cfg, s, events, t) && b.detailsHash in t.chain.durable
    ensures t.wal.Some? && AllConfirmed(t.wal.value) && t == s.(wal := Some(s.wal.value.(batches := t.wal.value.batches)), chain := t.chain)
  {
    var h := b.detailsHash;
    var mid := Apply(cfg, Apply(cfg, s, Submit(0)), Land(h, Outcome(true, 0, [])));
    RunTwo(cfg, s, Submit(0), Land(h, Outcome(true, 0, [])));
    RunSnoc(cfg, s, [Submit(0), Land(h, Outcome(true, 0, []))], mid, ConfirmMined(0));
    events, t := [Submit(0), Land(h, Outcome(true, 0, []))] + [ConfirmMined(0)], Apply(cfg, mid, ConfirmMined(0));
    assert t.wal.value.batches == [b.(confirmed := true)];
  }

  lemma FirstInstalment() returns (s: State)
    ensures Resting(s, 2.0) && s.clock == 2 && PlanBatchOf([INSTALMENT], map[]).detailsHash in s.chain.durable
  {
    var owed := AllOwed();
    InstalmentPlan(owed, 2, 3.0);
    assert LoadDebts(owed.debts) != [] by { DebtKeys(owed.debts, 3.0); }
    ReachableIsSafe(SHOP, owed);
    var planned := PlanRun(SHOP, owed, ONE, 2);
    ReachesOn(SHOP, owed, [Plan(ONE, 2)], planned);
    var events, mined := MinedRun(SHOP, planned, PlanBatchOf([INSTALMENT], map[]));
    ReachesOn(SHOP, planned, events, mined);
    ReachableIsSafe(SHOP, mined);
    events, s := FinishRun(SHOP, mined);
    ReachesOn(SHOP, mined, events, s);
  }

  /** A reachable run in which the promise fails: the second dollar is taken off the debt and
      added to the settled total, its batch is completed, and nothing moves on chain. */
  lemma SecondInstalmentMovesNothing() returns (s: State, events: seq<Event>, t: State)
    ensures Reachable(SHOP, s) && Runs(SHOP, s, events, t) && s.wal.None? && t.wal.None?
    ensures t.total.usd == s.total.usd + 1.0 && t.debts == [Debt(OWER, 1.0, ["r"])] && s.debts == [Debt(OWER, 2.0, ["r"])]
    ensures t.chain == s.chain && |t.done| == |s.done| + 1 && t.done[|s.done|].wal.batches != []
  {
    s := FirstInstalment();
    events, t := NextInstalment(s);
  }

  lemma NextInstalment(s: State) returns (events: seq<Event>, t: State)
    requires Resting(s, 2.0) && s.clock == 2 && PlanBatchOf([INSTALMENT], map[]).detailsHash in s.chain.durable
    ensures Runs(SHOP, s, events, t) && t.wal.None? && t.chain == s.chain
    ensures t.total.usd == s.total.usd + 1.0 && t.debts == [Debt(OWER, 1.0, ["r"])]
    ensures |t.done| == |s.done| + 1 && t.done[|s.done|].wal.batches != []
  {
    InstalmentPlan(s, 3, 2.0);
    assert LoadDebts(s.debts) != [] by { DebtKeys(s.debts, 2.0); }
    ReachableIsSafe(SHOP, s);
    events, t := RepeatedPlanMovesNothing(SHOP, s, ONE, 3);
    assert |HashesOf(t.done[|s.done|].wal.batches)| == 1;
    OneDollar();
  }

  lemma OneDollar()
    ensures B.MapSum(map["w" := 1.0]) == 1.0
  {
    var p: B.Pending := map["w" := 1.0];
    var keys := Enumerate(p.Keys);
    assert p.Keys == {"w"} && |keys| == |multiset(keys)| == 1 && keys[0] in multiset(keys);
    assert keys == [] + ["w"];
    SumAppend(B.MapSumTerm(p), [], "w");
  }
}
