/** Money over whole runs: at every reachable state, the cost of everything planned equals
    what was settled, what is owed as debt and what is parked, wallet by wallet; reversals of
    skipped items only move money between those books. */
module SettlementMoney {
  import opened Orders
  import opened Sums
  import opened Billing
  import opened Allocator
  import opened Aggregator
  import opened AggregatorLaws
  import opened Batches
  import opened RequestLog
  import opened Settlement
  import opened SettlementSafety
  import B = Balances

  // ---- Reversal of skipped items ----

  function PlanUSD(w: string): PlanItem -> real { (it: PlanItem) => if it.user == w then it.usd else 0.0 }

  /** The USD of the items below `n` that are not in `gone`. */
  function Kept(w: string, items: seq<PlanItem>, gone: set<nat>, n: nat): real
    requires n <= |items|
  {
    if n == 0 then 0.0 else Kept(w, items, gone, n - 1) + if n - 1 in gone then 0.0 else PlanUSD(w)(items[n - 1])
  }

  ghost predicate NonNegativeItems(items: seq<PlanItem>) { forall it | it in items :: it.usd >= 0.0 }

  lemma {:induction false} KeptNonNegative(w: string, items: seq<PlanItem>, gone: set<nat>, n: nat)
    requires n <= |items| && NonNegativeItems(items)
    ensures Kept(w, items, gone, n) >= 0.0
  {
    if n > 0 {
      KeptNonNegative(w, items, gone, n - 1);
      assert items[n - 1] in items;
    }
  }

  lemma {:induction false} KeptAll(w: string, items: seq<PlanItem>, n: nat)
    requires n <= |items|
    ensures Kept(w, items, {}, n) == Sum(PlanUSD(w), items[..n])
  {
    if n > 0 {
      KeptAll(w, items, n - 1);
      assert items[..n][..n - 1] == items[..n - 1];
    }
  }

  lemma {:induction false} KeptWithout(w: string, items: seq<PlanItem>, gone: set<nat>, k: nat, n: nat)
    requires n <= |items| && k < |items| && k !in gone
    ensures Kept(w, items, gone, n) == Kept(w, items, gone + {k}, n) + if k < n then PlanUSD(w)(items[k]) else 0.0
  {
    if n > 0 { KeptWithout(w, items, gone, k, n - 1); }
  }

  ghost function InRange(failed: seq<nat>, n: nat): set<nat> { set k | k in failed && k < n }

  /** Wallet by wallet, exactly the planned USD of the items in `gone` has moved from settled to
      debt. */
  ghost predicate Moved(before: Books, after: Books, items: seq<PlanItem>, gone: set<nat>, w: string) {
    var given := Kept(w, items, {}, |items|) - Kept(w, items, gone, |items|);
    && SettledOf(after.settled, w) == SettledOf(before.settled, w) - given
    && Sum(DebtBy(w), after.debts) == Sum(DebtBy(w), before.debts) + given
  }

  ghost predicate MovedBooks(before: Books, after: Books, items: seq<PlanItem>, gone: set<nat>) {
    forall w :: Moved(before, after, items, gone, w)
  }

  ghost predicate Covers(books: Books, items: seq<PlanItem>) {
    forall w :: SettledOf(books.settled, w) >= Kept(w, items, {}, |items|)
  }

  /** Enough is still settled for the wallet of the item, so nothing is floored. */
  lemma ReverseItemExact(books: Books, it: PlanItem, w: string)
    requires it.usd >= 0.0 && SettledOf(books.settled, it.user) >= it.usd
    ensures var after := ReverseItem(books, it);
      && SettledOf(after.settled, w) == SettledOf(books.settled, w) - PlanUSD(w)(it)
      && Sum(DebtBy(w), after.debts) == Sum(DebtBy(w), books.debts) + PlanUSD(w)(it)
  {
    if it.usd > 0.0 { SumAppend(DebtBy(w), books.debts, Debt(Key(it.user, it.sp), it.usd, it.ids)); }
  }

  lemma ReverseOneMoves(before: Books, books: Books, items: seq<PlanItem>, gone: set<nat>, k: nat)
    requires NonNegativeItems(items) && Covers(before, items) && MovedBooks(before, books, items, gone)
    requires k < |items| && k !in gone
    ensures MovedBooks(before, ReverseItem(books, items[k]), items, gone + {k})
  {
    var it := items[k];
    assert it in items;
    assert SettledOf(books.settled, it.user) >= it.usd by {
      assert Moved(before, books, items, gone, it.user);
      KeptWithout(it.user, items, gone, k, |items|);
      KeptNonNegative(it.user, items, gone + {k}, |items|);
    }
    forall w ensures Moved(before, ReverseItem(books, it), items, gone + {k}, w) {
      assert Moved(before, books, items, gone, w);
      KeptWithout(w, items, gone, k, |items|);
      ReverseItemExact(books, it, w);
    }
  }

  lemma {:induction false} ReverseMoves(books: Books, items: seq<PlanItem>, failed: seq<nat>)
    requires NonNegativeItems(items) && Covers(books, items) && Distinct(failed)
    ensures MovedBooks(books, ReverseItems(books, items, failed), items, InRange(failed, |items|))
    decreases |failed|
  {
    if failed == [] {
      assert InRange(failed, |items|) == {};
    } else {
      var n := |failed| - 1;
      ReverseMoves(books, items, failed[..n]);
      assert failed == failed[..n] + [failed[n]];
      var gone := InRange(failed[..n], |items|);
      if failed[n] < |items| {
        assert failed[n] !in failed[..n];
        ReverseOneMoves(books, ReverseItems(books, items, failed[..n]), items, gone, failed[n]);
        assert InRange(failed, |items|) == gone + {failed[n]};
      } else {
        assert InRange(failed, |items|) == gone;
      }
    }
  }

  function GoneFrom(b: PlanBatch, o: Outcome): set<nat> {
    if !o.found || o.failedCount == 0 then {} else set k | k in o.failed && k < |b.items|
  }

  /** Giving back the items the contract skipped: for every wallet, exactly their planned USD
      leaves the settled amount and becomes debt. No amount is floored and nothing is lost. */
  lemma ReversalExact(books: Books, b: PlanBatch, o: Outcome)
    requires NonNegativeItems(b.items) && Covers(books, b.items) && Distinct(o.failed)
    ensures MovedBooks(books, Reversed(books, b, o), b.items, GoneFrom(b, o))
  {
    if o.found && o.failedCount != 0 { ReverseMoves(books, b.items, o.failed); }
  }

  // ---- What the outstanding plan can still give back ----

  function BatchUSD(w: string): PlanBatch -> real {
    (b: PlanBatch) => if b.confirmed then 0.0 else Sum(PlanUSD(w), b.items)
  }

  ghost predicate SettledNonNegative(settled: map<string, real>) { forall w | w in settled :: settled[w] >= 0.0 }

  ghost predicate Reversible(wal: Wal) {
    && (forall b | b in wal.batches :: NonNegativeItems(b.items))
    && (forall w :: 0.0 <= Sum(BatchUSD(w), wal.batches) <= SettledOf(wal.books.settled, w))
  }

  lemma {:induction false} ItemUsdNonNegative(w: string, items: seq<PlanItem>)
    requires NonNegativeItems(items)
    ensures Sum(PlanUSD(w), items) >= 0.0
  {
    SumNonNegative(PlanUSD(w), items);
  }

  lemma BatchShare(w: string, batches: seq<PlanBatch>, i: nat)
    requires i < |batches| && forall b | b in batches :: NonNegativeItems(b.items)
    ensures var after := batches[i := batches[i].(confirmed := true)];
      && Sum(BatchUSD(w), batches) == Sum(BatchUSD(w), after) + BatchUSD(w)(batches[i])
      && Sum(BatchUSD(w), after) >= 0.0
  {
    var after := batches[i := batches[i].(confirmed := true)];
    SumRemove(BatchUSD(w), batches, i);
    SumRemove(BatchUSD(w), after, i);
    assert after[..i] + after[i + 1..] == batches[..i] + batches[i + 1..];
    forall b | b in after ensures BatchUSD(w)(b) >= 0.0 {
      var j :| 0 <= j < |after| && after[j] == b;
      assert batches[j] in batches;
      ItemUsdNonNegative(w, b.items);
    }
    SumNonNegative(BatchUSD(w), after);
  }

  lemma UnconfirmedCovered(wal: Wal, i: nat)
    requires Reversible(wal) && i < |wal.batches| && !wal.batches[i].confirmed
    ensures Covers(wal.books, wal.batches[i].items) && NonNegativeItems(wal.batches[i].items)
  {
    var items := wal.batches[i].items;
    assert wal.batches[i] in wal.batches;
    forall w ensures SettledOf(wal.books.settled, w) >= Kept(w, items, {}, |items|) {
      BatchShare(w, wal.batches, i);
      KeptAll(w, items, |items|);
      assert items[..|items|] == items;
    }
  }

  lemma ConfirmedItems(wal: Wal, i: nat, books: Books)
    requires i < |wal.batches| && forall b | b in wal.batches :: NonNegativeItems(b.items)
    ensures forall b | b in Confirmed(wal, i, books).batches :: NonNegativeItems(b.items)
  {
    ConfirmedFlags(wal, i, books);
    var after := Confirmed(wal, i, books);
    forall b | b in after.batches ensures NonNegativeItems(b.items) {
      var j :| 0 <= j < |after.batches| && after.batches[j] == b;
      assert wal.batches[j] in wal.batches && b.items == wal.batches[j].items;
    }
  }

  lemma ConfirmKeepsReversible(wal: Wal, i: nat, o: Outcome)
    requires Reversible(wal) && i < |wal.batches| && !wal.batches[i].confirmed && Distinct(o.failed)
    ensures Reversible(Confirmed(wal, i, Reversed(wal.books, wal.batches[i], o)))
  {
    var items, gone := wal.batches[i].items, GoneFrom(wal.batches[i], o);
    var after := Confirmed(wal, i, Reversed(wal.books, wal.batches[i], o));
    UnconfirmedCovered(wal, i);
    ReversalExact(wal.books, wal.batches[i], o);
    ConfirmedItems(wal, i, after.books);
    forall w ensures 0.0 <= Sum(BatchUSD(w), after.batches) <= SettledOf(after.books.settled, w) {
      assert Moved(wal.books, after.books, items, gone, w);
      BatchShare(w, wal.batches, i);
      KeptAll(w, items, |items|);
      assert items[..|items|] == items;
      KeptNonNegative(w, items, gone, |items|);
    }
  }

  // ---- A fresh plan ----

  lemma {:induction false} PlanItemsUSD(w: string, batch: seq<Item>, byId: ById)
    ensures Sum(PlanUSD(w), PlanItems(batch, byId)) == Sum(ItemUSD(w), batch)
    decreases |batch|
  {
    if batch != [] {
      var n := |batch| - 1;
      PlanItemsUSD(w, batch[..n], byId);
      NextItem(batch, n, byId);
      assert batch[..n + 1] == batch;
      SumAppend(PlanUSD(w), PlanItems(batch[..n], byId), PlanItems(batch, byId)[n]);
    }
  }

  lemma {:induction false} PlanItemsNonNegative(batch: seq<Item>, byId: ById)
    requires forall it | it in batch :: it.usd >= 0.0
    ensures NonNegativeItems(PlanItems(batch, byId))
    decreases |batch|
  {
    if batch != [] {
      var n := |batch| - 1;
      PlanItemsNonNegative(batch[..n], byId);
      NextItem(batch, n, byId);
      assert batch[..n + 1] == batch && batch[n] in batch;
    }
  }

  lemma {:induction false} FlattenSnoc(batches: seq<seq<Item>>, last: seq<Item>)
    ensures Flatten(batches + [last]) == Flatten(batches) + last
  {
    if batches == [] {
      assert Flatten([last]) == last + Flatten([last][1..]) == last + [];
    } else {
      FlattenSnoc(batches[1..], last);
      assert (batches + [last])[0] == batches[0] && (batches + [last])[1..] == batches[1..] + [last];
    }
  }

  lemma {:induction false} FrozenUSD(w: string, batches: seq<seq<Item>>, byId: ById)
    requires forall it | it in Flatten(batches) :: it.usd >= 0.0
    ensures Sum(BatchUSD(w), PlanBatches(batches, byId)) == Sum(ItemUSD(w), Flatten(batches))
    ensures forall b | b in PlanBatches(batches, byId) :: NonNegativeItems(b.items) && !b.confirmed
    decreases |batches|
  {
    if batches != [] {
      var n := |batches| - 1;
      assert batches == batches[..n] + [batches[n]];
      FlattenSnoc(batches[..n], batches[n]);
      FrozenUSD(w, batches[..n], byId);
      PlanItemsUSD(w, batches[n], byId);
      PlanItemsNonNegative(batches[n], byId);
      SumConcat(ItemUSD(w), Flatten(batches[..n]), batches[n]);
      SumAppend(BatchUSD(w), PlanBatches(batches[..n], byId), PlanBatchOf(batches[n], byId));
    }
  }

  ghost predicate MeteredRecords(records: seq<Record>) { forall r | r in records :: Metered(r) }

  lemma PlanReversible(cfg: Config, s: State, env: Env, now: nat)
    requires Enabled(cfg, s, Plan(env, now)) && PricesNonNegative(cfg.prices) && MeteredRecords(s.dead + Unread(s))
    ensures Reversible(PlanOf(cfg, s, env, now)) && SettledNonNegative(PlanOf(cfg, s, env, now).books.settled)
  {
    var records, carried := s.dead + Unread(s), LoadDebts(s.debts);
    var agg, wal := AggregateOf(cfg, s, env), PlanOf(cfg, s, env, now);
    ItemsExact(cfg, env, records, carried);
    var batches := Chunks(agg.items, ChunkSize(cfg.maxBatch));
    ChunksPartition(agg.items, cfg.maxBatch);
    forall w ensures 0.0 <= Sum(BatchUSD(w), wal.batches) <= SettledOf(wal.books.settled, w) {
      AggregationConserves(cfg, env, records, carried, w);
      FrozenUSD(w, batches, IdIndex(records));
    }
    FrozenUSD("", batches, IdIndex(records));
  }

  // ---- Conservation over whole runs ----

  function RoundPaid(w: string): Round -> real { (r: Round) => SettledOf(r.wal.books.settled, w) }

  function PlanSettled(s: State, w: string): real { if s.wal.Some? then SettledOf(s.wal.value.books.settled, w) else 0.0 }

  function Outstanding(s: State): seq<Debt> { if s.wal.Some? then s.wal.value.books.debts else s.debts }

  /** Planned cost of a wallet == settled by completed plans + settled by the outstanding plan
      + owed as debt + parked as dead letters. */
  ghost predicate Conserved(cfg: Config, s: State, w: string) {
    PlannedTo(s) <= |s.log| &&
    Sum(CostBy(cfg, w), BillableOf(s.log[..PlannedTo(s)])) ==
      Sum(RoundPaid(w), s.done) + PlanSettled(s, w) + Sum(DebtBy(w), Outstanding(s)) + Sum(CostBy(cfg, w), s.dead)
  }

  ghost predicate MoneyOk(cfg: Config, s: State) {
    && MeteredRecords(BillableOf(s.log)) && MeteredRecords(s.dead)
    && (s.wal.Some? ==> Reversible(s.wal.value))
    && (forall h | h in s.chain.processed :: Distinct(s.chain.processed[h].failed))
    && (forall w :: Conserved(cfg, s, w))
  }

  lemma {:induction false} LoadedDebts(debts: seq<Debt>, w: string)
    ensures Sum(DebtBy(w), LoadDebts(debts)) == Sum(DebtBy(w), debts)
    decreases |debts|
  {
    if debts != [] {
      var n := |debts| - 1;
      LoadedDebts(debts[..n], w);
      if debts[n].usd > 0.0 { SumAppend(DebtBy(w), LoadDebts(debts[..n]), debts[n]); }
      assert LoadDebts(debts[..n]) + [] == LoadDebts(debts[..n]);
    }
  }

  lemma UnreadMetered(s: State)
    requires s.cursor <= |s.log| && MeteredRecords(BillableOf(s.log))
    ensures MeteredRecords(Unread(s))
  {
    UnreadCompletes(s);
    assert s.log[..|s.log|] == s.log;
    forall r | r in Unread(s) ensures Metered(r) { assert r in BillableOf(s.log[..s.cursor]) + Unread(s); }
  }

  lemma UnresolvedAreRecords(cfg: Config, env: Env, records: seq<Record>, carried: seq<Debt>)
    ensures forall r | r in Aggregate(cfg, env, records, carried).unresolved :: r in records
  {
    CollectedAndUnresolved(cfg, env, records, carried);
    var u := Aggregate(cfg, env, records, carried).unresolved;
    forall r | r in u ensures r in records { assert r in multiset(u); assert r in multiset(records); }
  }

  lemma PlanConserves(cfg: Config, s: State, env: Env, now: nat, w: string)
    requires ShapeOk(s) && MoneyOk(cfg, s) && Enabled(cfg, s, Plan(env, now)) && PricesNonNegative(cfg.prices)
    ensures Conserved(cfg, Apply(cfg, s, Plan(env, now)), w)
  {
    var records, carried := s.dead + Unread(s), LoadDebts(s.debts);
    var agg := AggregateOf(cfg, s, env);
    UnreadMetered(s);
    UnreadCompletes(s);
    AggregationConserves(cfg, env, records, carried, w);
    CollectedAndUnresolved(cfg, env, records, carried);
    SumSplit(CostBy(cfg, w), records, Collectable(env, records), agg.unresolved);
    SumConcat(CostBy(cfg, w), s.dead, Unread(s));
    SumConcat(CostBy(cfg, w), BillableOf(s.log[..s.cursor]), Unread(s));
    LoadedDebts(s.debts, w);
    assert Conserved(cfg, s, w);
  }

  lemma PlanMoney(cfg: Config, s: State, env: Env, now: nat)
    requires ShapeOk(s) && MoneyOk(cfg, s) && Enabled(cfg, s, Plan(env, now)) && PricesNonNegative(cfg.prices)
    ensures MoneyOk(cfg, Apply(cfg, s, Plan(env, now)))
  {
    UnreadMetered(s);
    UnresolvedAreRecords(cfg, env, s.dead + Unread(s), LoadDebts(s.debts));
    PlanReversible(cfg, s, env, now);
    forall w { PlanConserves(cfg, s, env, now, w); }
  }

  lemma ConfirmMinedMoney(cfg: Config, s: State, i: nat)
    requires ShapeOk(s) && MoneyOk(cfg, s) && Enabled(cfg, s, ConfirmMined(i))
    ensures MoneyOk(cfg, Apply(cfg, s, ConfirmMined(i)))
  {
    var wal, o := s.wal.value, s.chain.processed[HashAt(s.wal.value, i)];
    UnconfirmedCovered(wal, i);
    ReversalExact(wal.books, wal.batches[i], o);
    ConfirmKeepsReversible(wal, i, o);
    forall w ensures Conserved(cfg, Apply(cfg, s, ConfirmMined(i)), w) {
      assert Conserved(cfg, s, w);
      assert Moved(wal.books, Reversed(wal.books, wal.batches[i], o), wal.batches[i].items, GoneFrom(wal.batches[i], o), w);
    }
  }

  lemma ConfirmKnownMoney(cfg: Config, s: State, i: nat)
    requires ShapeOk(s) && MoneyOk(cfg, s) && Enabled(cfg, s, ConfirmKnown(i))
    ensures MoneyOk(cfg, Apply(cfg, s, ConfirmKnown(i)))
  {
    var none: seq<nat> := [];
    ConfirmKeepsReversible(s.wal.value, i, Outcome(false, 0, none));
    forall w ensures Conserved(cfg, Apply(cfg, s, ConfirmKnown(i)), w) { assert Conserved(cfg, s, w); }
  }

  lemma LogGrows(cfg: Config, s: State, l: Line)
    requires ShapeOk(s) && MoneyOk(cfg, s) && (BillableLine(l) ==> Metered(l.rec.value))
    ensures MoneyOk(cfg, s.(log := s.log + [l]))
  {
    assert (s.log + [l])[..|s.log|] == s.log;
    assert (s.log + [l])[..PlannedTo(s)] == s.log[..PlannedTo(s)];
    forall w ensures Conserved(cfg, s.(log := s.log + [l]), w) { assert Conserved(cfg, s, w); }
  }

  lemma BooksUntouched(cfg: Config, s: State, t: State)
    requires MoneyOk(cfg, s)
    requires t.log == s.log && t.dead == s.dead && t.wal == s.wal && t.done == s.done && t.chain.processed == s.chain.processed
    requires s.wal.Some? || (t.cursor == s.cursor && t.debts == s.debts)
    ensures MoneyOk(cfg, t)
  {
    forall w ensures Conserved(cfg, t, w) { assert Conserved(cfg, s, w); }
  }

  lemma RemoveWalMoney(cfg: Config, s: State)
    requires ShapeOk(s) && MoneyOk(cfg, s) && Enabled(cfg, s, RemoveWal)
    ensures MoneyOk(cfg, Apply(cfg, s, RemoveWal))
  {
    var t := Apply(cfg, s, RemoveWal);
    forall w ensures Conserved(cfg, t, w) {
      assert Conserved(cfg, s, w);
      SumAppend(RoundPaid(w), s.done, s.round.value.(wal := s.wal.value));
    }
  }

  lemma ChainMoney(cfg: Config, s: State, e: Event)
    requires MoneyOk(cfg, s) && Enabled(cfg, s, e) && OnChain(e)
    ensures MoneyOk(cfg, Apply(cfg, s, e))
  {
    forall w ensures Conserved(cfg, Apply(cfg, s, e), w) { assert Conserved(cfg, s, w); }
  }

  lemma ConfirmMoney(cfg: Config, s: State, e: Event)
    requires ShapeOk(s) && MoneyOk(cfg, s) && Enabled(cfg, s, e) && Confirms(e)
    ensures MoneyOk(cfg, Apply(cfg, s, e))
  {
    if e.ConfirmMined? { ConfirmMinedMoney(cfg, s, e.i); } else { ConfirmKnownMoney(cfg, s, e.i); }
  }

  predicate Logs(e: Event) { e.Complete? || e.LogOther? }

  lemma LogMoney(cfg: Config, s: State, e: Event)
    requires ShapeOk(s) && MoneyOk(cfg, s) && Enabled(cfg, s, e) && Logs(e)
    ensures MoneyOk(cfg, Apply(cfg, s, e))
  {
    LogGrows(cfg, s, e.line);
    BooksUntouched(cfg, s.(log := s.log + [e.line]), Apply(cfg, s, e));
  }

  /** Reserving, finishing writes, crash and restore leave all these books alone. */
  lemma OtherMoney(cfg: Config, s: State, e: Event)
    requires ShapeOk(s) && MoneyOk(cfg, s) && Enabled(cfg, s, e)
    requires !Confirms(e) && !OnChain(e) && !Logs(e) && !e.Plan? && !e.RemoveWal?
    ensures MoneyOk(cfg, Apply(cfg, s, e))
  {
    BooksUntouched(cfg, s, Apply(cfg, s, e));
  }

  lemma MoneyStep(cfg: Config, s: State, e: Event)
    requires ShapeOk(s) && MoneyOk(cfg, s) && Enabled(cfg, s, e) && PricesNonNegative(cfg.prices)
    ensures MoneyOk(cfg, Apply(cfg, s, e))
  {
    if Confirms(e) {
      ConfirmMoney(cfg, s, e);
    } else if OnChain(e) {
      ChainMoney(cfg, s, e);
    } else if Logs(e) {
      LogMoney(cfg, s, e);
    } else if e.Plan? {
      PlanMoney(cfg, s, e.env, e.now);
    } else if e.RemoveWal? {
      RemoveWalMoney(cfg, s);
    } else {
      OtherMoney(cfg, s, e);
    }
  }

  lemma InitialMoney(cfg: Config)
    ensures MoneyOk(cfg, Initial())
  {
    var s := Initial();
    assert s.log[..0] == [];
    forall w ensures Conserved(cfg, s, w) {
      assert Sum(CostBy(cfg, w), BillableOf([])) == 0.0;
    }
  }

  lemma {:induction false} RunsKeepMoney(cfg: Config, s: State, events: seq<Event>, t: State)
    requires Safe(s) && MoneyOk(cfg, s) && PricesNonNegative(cfg.prices) && Runs(cfg, s, events, t)
    ensures MoneyOk(cfg, t)
    decreases |events|
  {
    if events != [] {
      MoneyStep(cfg, s, events[0]);
      ShapeStep(cfg, s, events[0]);
      RecordsStep(cfg, s, events[0]);
      ChainStep(cfg, s, events[0]);
      TotalsStep(cfg, s, events[0]);
      RunsKeepMoney(cfg, Apply(cfg, s, events[0]), events[1..], t);
    }
  }

  lemma ReachableMoney(cfg: Config, s: State)
    requires Reachable(cfg, s) && PricesNonNegative(cfg.prices)
    ensures MoneyOk(cfg, s) && Safe(s)
  {
    var events :| Runs(cfg, Initial(), events, s);
    InitiallySafe();
    InitialMoney(cfg);
    RunsAreSafe(cfg, Initial(), events, s);
    RunsKeepMoney(cfg, Initial(), events, s);
  }

  /** Conservation over every run, crashes, reorgs, replays and skipped items included: each
      wallet's billable cost up to the committed cursor is what completed plans settled for it
      plus its debt plus its dead letters, to the last fraction. */
  lemma MoneyConserved(cfg: Config, s: State, w: string)
    requires Reachable(cfg, s) && PricesNonNegative(cfg.prices) && s.wal.None?
    ensures s.cursor <= |s.log|
    ensures Sum(CostBy(cfg, w), BillableOf(s.log[..s.cursor])) ==
      Sum(RoundPaid(w), s.done) + Sum(DebtBy(w), s.debts) + Sum(CostBy(cfg, w), s.dead)
  {
    ReachableMoney(cfg, s);
    assert Conserved(cfg, s, w);
  }
}
