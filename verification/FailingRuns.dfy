/** Reachable runs of the engine in which a promise fails: what the exact conditions elsewhere
    exclude does happen. The shop is the one of `Instalments`. */
module FailingRuns {
  import opened Orders
  import opened Sums
  import opened Billing
  import opened Allocator
  import opened Aggregator
  import opened AggregatorLaws
  import opened Batches
  import opened RequestLog
  import opened Settlement
  import opened SettlementSafety
  import opened SettlementMoney
  import opened PendingLaw
  import opened Restarts
  import opened Instalments
  import opened PaidOnChain
  import B = Balances

  lemma OneMore(cfg: Config, s: State, e: Event) returns (t: State)
    requires Reachable(cfg, s) && Enabled(cfg, s, e)
    ensures t == Apply(cfg, s, e) && Reachable(cfg, t)
  {
    t := Apply(cfg, s, e);
    assert [e][1..] == [] && Runs(cfg, t, [], t);
    assert Runs(cfg, s, [e], t);
    ReachesOn(cfg, s, [e], t);
  }

  /** The wallet's request, or one like it, admitted and served in full. */
  lemma Served(s: State, r: Record) returns (t: State)
    requires Reachable(SHOP, s) && s.inflight == [] && Billable(r) && r.wallet == "w" && Metered(r) && B.PendingOf(s.pending, "w") >= 0.0 && Cost(SHOP.prices, r) == 3.0
    ensures Reachable(SHOP, t)
    ensures t == s.(log := s.log + [Line(Some(r), 1)], pending := s.pending["w" := B.PendingOf(s.pending, "w") + 3.0],
                    stranded := t.stranded) && t.stranded == s.stranded
  {
    var mid := OneMore(SHOP, s, Reserve(Ticket("w", 3.0)));
    assert mid.inflight == [Ticket("w", 3.0)];
    t := OneMore(SHOP, mid, Complete(0, Line(Some(r), 1), false));
    assert s.stranded + [] == s.stranded && mid.inflight[..0] + mid.inflight[1..] == [];
    assert mid.pending["w" := mid.pending["w"] - (3.0 - 3.0)] == mid.pending;
  }

  lemma NothingYet()
    ensures Reachable(SHOP, Initial())
  {
    assert Runs(SHOP, Initial(), [], Initial());
  }

  // ---- A restart with a plan outstanding ----

  /** Served by a worker nobody can be paid for. */
  const STRAY := REQUEST.(id := "q", worker := "x")

  lemma TwoRecords()
    ensures Keys(ONE, [REQUEST, STRAY], []) == {OWER} && Owing(SHOP, ONE, [REQUEST, STRAY], [], OWER) == 3.0
    ensures Unresolved(ONE, [REQUEST, STRAY]) == [STRAY]
  {
    var records := [REQUEST, STRAY];
    assert records == [REQUEST] + [STRAY] && records[..1] == [REQUEST];
    assert ResolveWorker(ONE.resolver, "k") == "sp" && ResolveWorker(ONE.resolver, "x") == "" && Cost(SHOP.prices, REQUEST) == 3.0;
    OneRecord(SHOP, ONE, REQUEST, OWER);
    KeysAddRecord(ONE, [REQUEST], STRAY);
    SumAppend(RecordCost(SHOP, ONE, OWER), [REQUEST], STRAY);
  }

  lemma TwoUnread(s: State, r: Record, q: Record)
    requires s.log == [Line(Some(r), 1), Line(Some(q), 1)] && s.cursor == 0 && s.dead == [] && Billable(r) && Billable(q)
    ensures Unread(s) == [r, q] && s.dead + Unread(s) == [r, q]
  {
    var l, m := Line(Some(r), 1), Line(Some(q), 1);
    assert s.log[0..] == [l, m] && [l, m][..1] == [l] && [l][..0] == [] && BillableOf([]) == [];
    assert BillableOf([l]) == [] + [r] && BillableOf([l, m]) == BillableOf([l]) + [q];
  }

  /** Planning both: one batch. */
  lemma MixedAggregate()
    ensures Aggregate(SHOP, ONE, [REQUEST, STRAY], []).items != []
  {
    TwoRecords();
    OneDeducted(3.0);
    var till := Till([Slice(COIN, 1, 1.0)], 2.0, map["0x" := 0]);
    OneKey(SHOP, ONE, [REQUEST, STRAY], [], OWER, 3.0, till);
    SortedNotEmpty(AttachIds(Stamp(OWER, till.slices), IdsFor(ONE, [REQUEST, STRAY], [])));
  }

  lemma {:induction false} SortedNotEmpty(items: seq<Item>)
    requires items != []
    ensures Sort(ItemKey(), items) != []
  {
    SortSorts(ItemKey(), items);
    assert |multiset(Sort(ItemKey(), items))| == |multiset(items)|;
  }

  lemma BothServed() returns (s: State)
    ensures Reachable(SHOP, s) && s.log == [Line(Some(REQUEST), 1), Line(Some(STRAY), 1)] && s.restored && s.wal.None?
    ensures s.cursor == 0 && s.clock == 0 && s.stage == Open && s.dead == [] && s.debts == [] && s.inflight == []
  {
    NothingYet();
    var one := Served(Initial(), REQUEST);
    s := Served(one, STRAY);
    assert s.log == [Line(Some(REQUEST), 1), Line(Some(STRAY), 1)];
  }

  lemma Crashed(cfg: Config, s: State) returns (t: State)
    requires Reachable(cfg, s) && s.wal.Some? && s.wal.value.batches != [] && !s.wal.value.batches[0].confirmed && s.cursor <= |s.log|
    ensures Runs(cfg, s, [Crash], t) && Reachable(cfg, t) && Enabled(cfg, t, Restore) && t.done == s.done
    ensures t.pending == map[] && t.inflight == [] && t.stranded == []
  {
    t := OneMore(cfg, s, Crash);
    assert [Crash][1..] == [] && Runs(cfg, t, [], t);
    assert s.wal.value.batches[0] in s.wal.value.batches;
  }

  lemma Restored(cfg: Config, s: State) returns (t: State)
    requires Reachable(cfg, s) && Enabled(cfg, s, Restore)
    ensures t == Apply(cfg, s, Restore) && Reachable(cfg, t) && t.restored && t.inflight == s.inflight
  {
    t := OneMore(cfg, s, Restore);
  }

  lemma Planned(cfg: Config, s: State, env: Env, now: nat) returns (t: State)
    requires Reachable(cfg, s) && Enabled(cfg, s, Plan(env, now))
    ensures t == Apply(cfg, s, Plan(env, now)) && Reachable(cfg, t) && Safe(t)
    ensures t.wal == Some(PlanOf(cfg, s, env, now)) && t.total.lastWal < t.wal.value.createdAt && ConfirmedBelow(t.wal.value, 0)
    ensures t.dead == AggregateOf(cfg, s, env).unresolved && t.stage == Open && t.log == s.log && t.cursor == s.cursor <= |t.log|
    ensures t.done == s.done && t.chain == s.chain && t.restored == s.restored
    ensures t.pending == s.pending && t.inflight == s.inflight && t.stranded == s.stranded
  {
    ReachableIsSafe(cfg, s);
    t := PlanRun(cfg, s, env, now);
    ReachesOn(cfg, s, [Plan(env, now)], t);
    assert s.stage == Open;
  }

  /** Whatever is planned, as long as it makes a batch: a crash before any confirmation and a
      restart without traffic leave a wallet off by the new records parked less the dead letters
      taken off. */
  lemma RestartOffBy(cfg: Config, s: State, env: Env, now: nat, w: string) returns (t: State)
    requires Reachable(cfg, s) && PricesNonNegative(cfg.prices) && Enabled(cfg, s, Plan(env, now)) && PlanOf(cfg, s, env, now).batches != []
    ensures Reachable(cfg, t) && t.restored && t.inflight == []
    ensures B.PendingOf(t.pending, w) - Held(cfg, t, w) ==
      Sum(CostBy(cfg, w), Parked(env, Unread(s))) - Sum(CostBy(cfg, w), Collectable(env, s.dead))
  {
    var planned := Planned(cfg, s, env, now);
    var down := Crashed(cfg, planned);
    t := Restored(cfg, down);
    RestoreAfterPlan(cfg, s, env, now, [Crash], down, w);
    SumZero(ReservedBy(w), down.inflight);
    SumZero(CostBy(cfg, w), down.stranded);
  }

  /** Two requests served, one of a payee and one not, a plan, a crash before anything is
      confirmed, a restart with no traffic: the stray record is reserved twice, as a dead letter
      and as the unread record it still is. */
  lemma RestartCountsTwice() returns (s: State)
    ensures Reachable(SHOP, s) && s.restored && s.inflight == [] && B.PendingOf(s.pending, "w") == Held(SHOP, s, "w") + 3.0
  {
    var before := BothServed();
    TwoUnread(before, REQUEST, STRAY);
    MixedAggregate();
    assert before.dead + Unread(before) == [REQUEST, STRAY] && LoadDebts(before.debts) == [];
    BatchesThere(before);
    s := RestartOffBy(SHOP, before, ONE, 1, "w");
    StrayCosts();
  }

  lemma BatchesThere(s: State)
    requires s.cursor <= |s.log| && AggregateOf(SHOP, s, ONE).items != []
    ensures PlanOf(SHOP, s, ONE, 1).batches != []
  {
  }

  lemma StrayCosts()
    ensures Sum(CostBy(SHOP, "w"), Parked(ONE, [REQUEST, STRAY])) == 3.0 && Sum(CostBy(SHOP, "w"), Collectable(ONE, [])) == 0.0
  {
    TwoRecords();
    assert [STRAY] == [] + [STRAY] && Cost(SHOP.prices, STRAY) == 3.0;
    SumAppend(CostBy(SHOP, "w"), [], STRAY);
    SumZero(CostBy(SHOP, "w"), Collectable(ONE, []));
  }

  // ---- An adjustment that finds no entry ----

  /** The wallet holds three dollars. */
  const THREE := EnvOf(map["w" := map["0x" := 3]])

  lemma ThreeDeducted()
    ensures Deduct(SHOP, THREE.market, SHOP.priority, 3.0, map["0x" := 3]) == Till([Slice(COIN, 3, 3.0)], 0.0, map["0x" := 0])
  {
    var m, till := THREE.market, Till([], 3.0, map["0x" := 3]);
    assert ["X"][..0] == [] && FindToken(SHOP.tokens, "X") == Some(COIN);
    assert Pow10(0) == 1 && PriceOf(m, "X") == 1.0;
    assert ToWei(3.0 / 1.0, 0) == 3;
    assert DeductToken(m, till, COIN) == Till([] + [Slice(COIN, 3, 3.0)], 0.0, map["0x" := 3]["0x" := 0]);
  }

  /** One record whose cost is collected in full as one slice. */
  lemma PaidInFull(cfg: Config, env: Env, r: Record, k: Key, slice: Slice, working: Allocator.Balances)
    requires env.market.fil > 0.0 && Resolvable(env, r) && KeyOf(env, r) == k && Cost(cfg.prices, r) > 0.0
    requires TillFor(cfg, env, k, Cost(cfg.prices, r), Till([slice], 0.0, working))
    ensures Aggregate(cfg, env, [r], []) ==
      Aggregation([Item(k, slice.token, slice.amount, slice.usd, OwnId(r))], [], map[k.wallet := Cost(cfg.prices, r)], [])
  {
    var till, ids := Till([slice], 0.0, working), IdsFor(env, [r], []);
    OneRecord(cfg, env, r, k);
    OneKey(cfg, env, [r], [], k, Cost(cfg.prices, r), till);
    assert AttachIds(Stamp(k, [slice]), ids) == [Item(k, slice.token, slice.amount, slice.usd, OwnId(r))];
    OneBatch(Item(k, slice.token, slice.amount, slice.usd, OwnId(r)));
  }

  lemma OneItemPlan(cfg: Config, s: State, env: Env, now: nat, r: Record, item: Item)
    requires s.log == [Line(Some(r), 1)] && s.cursor == 0 && s.dead == [] && s.debts == [] && Billable(r) && cfg.maxBatch == 0
    requires Aggregate(cfg, env, [r], []).items == [item]
    ensures |PlanOf(cfg, s, env, now).batches| == 1 && |PlanOf(cfg, s, env, now).batches[0].items| == 1
    ensures PlanOf(cfg, s, env, now).books == Books(Aggregate(cfg, env, [r], []).settled, Aggregate(cfg, env, [r], []).debts)
  {
    OneUnread(s, r);
    assert Chunks([item], 50) == [[item]];
  }

  /** A plan of one batch, mined and confirmed with nothing skipped. */
  lemma PlanMined(cfg: Config, s: State, env: Env, now: nat) returns (t: State)
    requires Reachable(cfg, s) && Enabled(cfg, s, Plan(env, now)) && |PlanOf(cfg, s, env, now).batches| == 1 && s.chain.processed == map[]
    ensures Reachable(cfg, t) && t.wal.Some? && t.stage == Open && AllConfirmed(t.wal.value)
    ensures t.stranded == s.stranded && t.pending == s.pending && t.inflight == s.inflight
    ensures t.wal.value.books == PlanOf(cfg, s, env, now).books
  {
    var planned := Planned(cfg, s, env, now);
    var b := planned.wal.value.batches[0];
    assert planned.wal.value.batches == [b] && b in planned.wal.value.batches;
    var events;
    events, t := MinedRun(cfg, planned, b);
    ReachesOn(cfg, planned, events, t);
  }

  lemma Plannable(cfg: Config, s: State, env: Env, now: nat)
    requires s.wal.None? && s.restored && s.cursor <= |s.log| && now > s.clock && env.market.stablePrice > 0.0 && Unread(s) != []
    ensures Enabled(cfg, s, Plan(env, now))
  {
  }

  lemma FirstServed() returns (s: State)
    ensures Reachable(SHOP, s) && s.log == [Line(Some(REQUEST), 1)] && s.cursor == 0 && s.dead == [] && s.debts == [] && s.wal.None?
    ensures s.done == [] && s.restored && s.clock == 0 && s.chain.processed == map[] && s.pending == map["w" := 3.0] && s.inflight == [] && s.stranded == []
  {
    NothingYet();
    s := Served(Initial(), REQUEST);
    assert s.log == [Line(Some(REQUEST), 1)];
  }

  /** A plan that settles the wallet in full. */
  lemma FullPlan() returns (served: State)
    ensures Reachable(SHOP, served) && Enabled(SHOP, served, Plan(THREE, 1)) && served.done == [] && served.chain.processed == map[]
    ensures served.pending == map["w" := 3.0] && served.inflight == [] && served.stranded == []
    ensures var plan := PlanOf(SHOP, served, THREE, 1);
      |plan.batches| == 1 && |plan.batches[0].items| == 1 && plan.books == Books(map["w" := 3.0], [])
  {
    served := FirstServed();
    assert ResolveWorker(THREE.resolver, "k") == "sp" && Cost(SHOP.prices, REQUEST) == 3.0;
    ThreeDeducted();
    PaidInFull(SHOP, THREE, REQUEST, OWER, Slice(COIN, 3, 3.0), map["0x" := 0]);
    OneItemPlan(SHOP, served, THREE, 1, REQUEST, Item(OWER, COIN, 3, 3.0, ["r"]));
    OneUnread(served, REQUEST);
    Plannable(SHOP, served, THREE, 1);
  }

  lemma SettledInFull() returns (s: State)
    ensures Reachable(SHOP, s) && s.wal.Some? && s.stage == Open && AllConfirmed(s.wal.value) && s.stranded == []
    ensures s.wal.value.books.settled == map["w" := 3.0] && s.pending == map["w" := 3.0] && s.inflight == []
  {
    var served := FullPlan();
    s := PlanMined(SHOP, served, THREE, 1);
  }

  /** A reservation of nothing, and a settlement that deletes the entry it sits on. */
  lemma EntryGone(cfg: Config, s: State, w: string) returns (t: State)
    requires Reachable(cfg, s) && s.wal.Some? && s.stage == Open && AllConfirmed(s.wal.value) && s.inflight == [] && w != ""
    requires w in s.pending && w in s.wal.value.books.settled && s.pending[w] == s.wal.value.books.settled[w]
    ensures Reachable(cfg, t) && t.inflight == [Ticket(w, 0.0)] && w !in t.pending && t.stranded == s.stranded
  {
    var admitted := OneMore(cfg, s, Reserve(Ticket(w, 0.0)));
    var committed := OneMore(cfg, admitted, CommitCursor);
    t := OneMore(cfg, committed, ReducePending);
    assert w !in SettledFor(committed.pending, s.wal.value.books.settled, w);
  }

  lemma Unadjusted(cfg: Config, s: State, l: Line) returns (t: State)
    requires Reachable(cfg, s) && Enabled(cfg, s, Complete(0, l, false)) && s.inflight[0].wallet !in s.pending && TicketsOk(s)
    ensures t == Apply(cfg, s, Complete(0, l, false)) && Reachable(cfg, t)
    ensures var w := s.inflight[0].wallet;
      B.PendingOf(t.pending, w) == 0.0 && Held(cfg, t, w) == Held(cfg, s, w) + ChargeOfLine(cfg, l, false) - s.inflight[0].est
  {
    t := OneMore(cfg, s, Complete(0, l, false));
    CompleteHeld(cfg, s, 0, l, false, s.inflight[0].wallet);
  }

  /** The reply to such a request costs three dollars, and nothing is pending for it. */
  lemma AdjustmentLost() returns (s: State, t: State)
    ensures Reachable(SHOP, s) && Reachable(SHOP, t) && s.inflight == [Ticket("w", 0.0)] && "w" !in s.pending
    ensures Enabled(SHOP, s, Complete(0, Line(Some(REQUEST), 1), false)) && t == Apply(SHOP, s, Complete(0, Line(Some(REQUEST), 1), false))
    ensures B.PendingOf(t.pending, "w") == 0.0 && Held(SHOP, t, "w") == Held(SHOP, s, "w") + 3.0
  {
    var full := SettledInFull();
    s := EntryGone(SHOP, full, "w");
    assert Cost(SHOP.prices, REQUEST) == 3.0;
    t := Unadjusted(SHOP, s, Line(Some(REQUEST), 1));
  }

  // ---- Dead letters written, plan lost ----

  /** Nobody can be paid. */
  const NOBODY := Env(Resolver(map[], map[], map[]), Market(1.0, "", 1.0, false), map[])

  lemma NoneSorted()
    ensures SortedSet({}) == []
  {
    var none := Enumerate<string>({});
    assert |none| == |multiset(none)| == 0;
  }

  lemma {:induction false} NothingOwed(cfg: Config, env: Env, r: Record)
    requires !Resolvable(env, r)
    ensures Costs(cfg, env, [r], []) == map[] && Unresolved(env, [r]) == [r]
  {
    NoKeys(env, r);
    assert [r][..0] == [] && Unresolved(env, [r]) == [] + [r];
  }

  lemma NoKeys(env: Env, r: Record)
    requires !Resolvable(env, r)
    ensures Keys(env, [r], []) == {}
  {
    KeysAddRecord(env, [], r);
    assert [r] == [] + [r];
  }

  lemma {:induction false} NothingPaidOut(cfg: Config, env: Env, costs: map<Key, real>)
    requires costs == map[]
    ensures PayWallets(cfg, env, SortedSet(Wallets(costs.Keys)), costs) == Payout([], map[], [])
  {
    assert Wallets(costs.Keys) == {};
    NoneSorted();
  }

  /** A cycle in which nobody can be paid and no debt is carried. */
  lemma NoneOwed(cfg: Config, env: Env, r: Record)
    requires env.market.fil > 0.0 && !Resolvable(env, r)
    ensures Aggregate(cfg, env, [r], []) == Aggregation([], [r], map[], [])
  {
    NothingOwed(cfg, env, r);
    NothingPaidOut(cfg, env, Costs(cfg, env, [r], []));
  }

  lemma OneUnread(s: State, r: Record)
    requires s.log == [Line(Some(r), 1)] && s.cursor == 0 && s.dead == [] && Billable(r)
    ensures Unread(s) == [r] && s.dead + Unread(s) == [r]
  {
    assert s.log[0..] == s.log && s.log[..0] == [] && BillableOf([]) == [] && Unread(s) == [] + [r];
  }

  lemma CountedOnce(r: Record)
    ensures multiset([r])[r] == 1 && multiset([] + [r])[r] == 1 && multiset([r] + [])[r] == 1
  {
    assert [r] + [] == [r];
  }

  lemma Finished(cfg: Config, s: State) returns (t: State)
    requires Reachable(cfg, s) && Safe(s) && s.wal.Some? && s.stage == Open && AllConfirmed(s.wal.value) && s.total.lastWal < s.wal.value.createdAt
    ensures Reachable(cfg, t) && t.wal.None? && t.log == s.log && t.dead == s.dead && t.cursor == s.wal.value.cursor <= |t.log|
  {
    var events;
    events, t := FinishRun(cfg, s);
    ReachesOn(cfg, s, events, t);
  }

  /** Parking the only record of the log as a dead letter. */
  lemma ParkOnly(cfg: Config, s: State, env: Env, now: nat, r: Record) returns (t: State)
    requires Reachable(cfg, s) && Enabled(cfg, s, Plan(env, now)) && s.log == [Line(Some(r), 1)] && s.cursor == 0 && s.dead == []
    requires s.debts == [] && Billable(r) && env.market.fil > 0.0 && !Resolvable(env, r)
    ensures Reachable(cfg, t) && t.dead == [r] && t.cursor == |t.log| && Unread(t) == []
  {
    OneUnread(s, r);
    NoneOwed(cfg, env, r);
    var planned := Planned(cfg, s, env, now);
    assert planned.dead == [r] && planned.wal.value.batches == [];
    t := Finished(cfg, planned);
    assert t.log[t.cursor..] == [];
  }

  /** Both failures happen in reachable states: a fresh record would be billed twice, a dead
      letter lost. */
  lemma TornReachably() returns (fresher: State, parked: State)
    ensures Reachable(SHOP, fresher) && fresher.dead == [] && fresher.cursor <= |fresher.log| && Unread(fresher) == [REQUEST]
    ensures multiset(Torn(SHOP, fresher, NOBODY).dead + Unread(fresher))[REQUEST] == 2
    ensures Reachable(SHOP, parked) && parked.dead == [REQUEST] && parked.cursor <= |parked.log| && Unread(parked) == []
    ensures multiset(Torn(SHOP, parked, ONE).dead + Unread(parked))[REQUEST] == 0
  {
    fresher := RequestServed();
    OneUnread(fresher, REQUEST);
    CountedOnce(REQUEST);
    assert ResolveWorker(NOBODY.resolver, "k") == "" && ResolveWorker(ONE.resolver, "k") == "sp";
    TornCounts(SHOP, fresher, NOBODY, REQUEST);
    parked := ParkOnly(SHOP, fresher, NOBODY, 1, REQUEST);
    TornCounts(SHOP, parked, ONE, REQUEST);
  }

  // ---- A batch confirmed without its receipt ----

  /** The batch lands with its only item skipped, and before the receipt is read the settler
      stops; on the next pass the contract already knows the hash. */
  lemma LandedAndSkipped(cfg: Config, s: State) returns (t: State)
    requires Reachable(cfg, s) && s.wal.Some? && s.stage == Open && |s.wal.value.batches| == 1 && !s.wal.value.batches[0].confirmed
    requires s.chain.processed == map[]
    ensures Reachable(cfg, t) && t.wal.Some? && t.stage == Open && t.done == s.done && t.total == s.total
    ensures t.wal.value == s.wal.value.(batches := [s.wal.value.batches[0].(confirmed := true)])
    ensures t.chain.processed == map[s.wal.value.batches[0].detailsHash := Outcome(true, 1, [0])]
  {
    var h := s.wal.value.batches[0].detailsHash;
    var submitted := OneMore(cfg, s, Submit(0));
    var landed := OneMore(cfg, submitted, Land(h, Outcome(true, 1, [0])));
    t := OneMore(cfg, landed, ConfirmKnown(0));
  }

  lemma {:induction false} NothingPaid(p: Processed, w: string, b: PlanBatch)
    requires b.confirmed && |b.items| == 1 && b.detailsHash in p && p[b.detailsHash] == Outcome(true, 1, [0])
    ensures WorthOf(p, w)(b) == 0.0
    ensures Firsts([b]) == [b] && Repeats([b]) == []
  {
    assert GoneFrom(b, p[b.detailsHash]) == {0};
    assert Kept(w, b.items, {0}, 1) == Kept(w, b.items, {0}, 0) == 0.0;
    assert [b][..0] == [] && HashesOf([b][..0]) == [];
  }

  lemma OneCompleted(s: State, r: Round, b: PlanBatch, w: string)
    requires s.done == [] + [r] && r.wal.batches == [b] && WorthOf(s.chain.processed, w)(b) == 0.0
    requires Firsts([b]) == [b] && Repeats([b]) == []
    ensures Sum(RoundPaid(w), s.done) == SettledOf(r.wal.books.settled, w) && MovedUSD(s, w) == 0.0 && RepeatedUSD(s, w) == 0.0
  {
    SumAppend(RoundPaid(w), [], r);
    assert s.done[..0] == [] && BatchesOf(s.done) == [] + [b] == [b];
    SumAppend(WorthOf(s.chain.processed, w), [], b);
    assert [] + [b] == [b];
  }

  lemma FinishedUnpaid(cfg: Config, s: State, b: PlanBatch, w: string) returns (t: State)
    requires Reachable(cfg, s) && s.wal.Some? && s.stage == Open && s.wal.value.batches == [b] && b.confirmed && |b.items| == 1
    requires s.chain.processed == map[b.detailsHash := Outcome(true, 1, [0])] && s.done == [] && s.total.lastWal < s.wal.value.createdAt
    ensures Reachable(cfg, t) && t.wal.None? && t.debts == s.wal.value.books.debts
    ensures Sum(RoundPaid(w), t.done) == SettledOf(s.wal.value.books.settled, w) && MovedUSD(t, w) == 0.0 && RepeatedUSD(t, w) == 0.0
  {
    ReachableIsSafe(cfg, s);
    var events;
    events, t := FinishRun(cfg, s);
    ReachesOn(cfg, s, events, t);
    NothingPaid(t.chain.processed, w, b);
    OneCompleted(t, s.round.value.(wal := s.wal.value), b, w);
  }

  /** Its three dollars are settled, no debt is left, and nothing was paid out. */
  lemma SkippedYetSettled() returns (s: State)
    ensures Reachable(SHOP, s) && s.wal.None? && s.debts == []
    ensures Sum(RoundPaid("w"), s.done) == 3.0 && MovedUSD(s, "w") == 0.0 && RepeatedUSD(s, "w") == 0.0
  {
    var served := FullPlan();
    var planned := Planned(SHOP, served, THREE, 1);
    var landed := LandedAndSkipped(SHOP, planned);
    s := FinishedUnpaid(SHOP, landed, landed.wal.value.batches[0], "w");
  }
}
