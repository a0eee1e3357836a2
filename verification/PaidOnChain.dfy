/** The settled books against the chain, in USD: a wallet's settled total is what the contract
    paid out for it, plus three amounts that no transfer backs. */
module PaidOnChain {
  import opened Orders
  import opened Sums
  import opened Merkle
  import opened Billing
  import opened Allocator
  import opened Aggregator
  import opened AggregatorLaws
  import opened Batches
  import opened Settlement
  import opened SettlementSafety
  import opened SettlementMoney
  import opened Instalments

  type Processed = map<Hash, Outcome>

  function OutcomeOf(p: Processed, h: Hash): Outcome { if h in p then p[h] else Outcome(false, 0, []) }

  /** What executing a batch pays out for a wallet: its items less those the contract skipped. */
  function PaidFor(p: Processed, w: string, b: PlanBatch): real {
    Kept(w, b.items, GoneFrom(b, OutcomeOf(p, b.detailsHash)), |b.items|)
  }

  function SkippedFor(p: Processed, w: string, b: PlanBatch): real { Sum(PlanUSD(w), b.items) - PaidFor(p, w, b) }

  /** A batch not confirmed yet counts in full. */
  function WorthOf(p: Processed, w: string): PlanBatch -> real {
    (b: PlanBatch) => if b.confirmed then PaidFor(p, w, b) else Sum(PlanUSD(w), b.items)
  }

  function PlannedBatches(s: State): seq<PlanBatch> {
    BatchesOf(s.done) + if s.wal.Some? then s.wal.value.batches else []
  }

  /** How much more the books of completed and outstanding plans settle than their batches are
      worth. */
  function Excess(s: State, w: string): real {
    Sum(RoundPaid(w), s.done) + PlanSettled(s, w) - Sum(WorthOf(s.chain.processed, w), PlannedBatches(s))
  }

  // ---- Where an excess comes from ----

  /** The fractions of a token's smallest unit that a plan settles but cannot transfer. */
  ghost function RoundedOff(cfg: Config, s: State, e: Event, w: string): real
    requires Enabled(cfg, s, e)
  {
    match e
    case Plan(env, _) => SettledOf(AggregateOf(cfg, s, env).settled, w) - Sum(ItemUSD(w), AggregateOf(cfg, s, env).items)
    case _ => 0.0
  }

  /** The skipped items of a batch confirmed without its receipt: nothing is given back. */
  ghost function Unreversed(cfg: Config, s: State, e: Event, w: string): real
    requires Enabled(cfg, s, e)
  {
    match e
    case ConfirmKnown(i) => SkippedFor(s.chain.processed, w, s.wal.value.batches[i])
    case _ => 0.0
  }

  ghost function RunRoundedOff(cfg: Config, s: State, events: seq<Event>, w: string): real
    decreases |events|
  {
    if events == [] || !Enabled(cfg, s, events[0]) then 0.0
    else RoundedOff(cfg, s, events[0], w) + RunRoundedOff(cfg, Apply(cfg, s, events[0]), events[1..], w)
  }

  ghost function RunUnreversed(cfg: Config, s: State, events: seq<Event>, w: string): real
    decreases |events|
  {
    if events == [] || !Enabled(cfg, s, events[0]) then 0.0
    else Unreversed(cfg, s, events[0], w) + RunUnreversed(cfg, Apply(cfg, s, events[0]), events[1..], w)
  }

  ghost predicate ItemsOk(s: State) { forall b | b in PlannedBatches(s) :: NonNegativeItems(b.items) }

  lemma {:induction false} KeptAtMost(w: string, items: seq<PlanItem>, gone: set<nat>, n: nat)
    requires n <= |items| && NonNegativeItems(items)
    ensures 0.0 <= Kept(w, items, gone, n) <= Kept(w, items, {}, n)
  {
    if n > 0 {
      KeptAtMost(w, items, gone, n - 1);
      assert items[n - 1] in items;
    }
  }

  lemma PaidBounds(p: Processed, w: string, b: PlanBatch)
    requires NonNegativeItems(b.items)
    ensures PaidFor(p, w, b) >= 0.0 && SkippedFor(p, w, b) >= 0.0
  {
    KeptAtMost(w, b.items, GoneFrom(b, OutcomeOf(p, b.detailsHash)), |b.items|);
    KeptAll(w, b.items, |b.items|);
    assert b.items[..|b.items|] == b.items;
  }

  // ---- Steps ----

  lemma {:induction false} PlanExcess(cfg: Config, s: State, env: Env, now: nat, w: string)
    requires ShapeOk(s) && MoneyOk(cfg, s) && ItemsOk(s) && PricesNonNegative(cfg.prices) && Enabled(cfg, s, Plan(env, now))
    ensures var t := Apply(cfg, s, Plan(env, now));
      ItemsOk(t) && Excess(t, w) == Excess(s, w) + RoundedOff(cfg, s, Plan(env, now), w) && RoundedOff(cfg, s, Plan(env, now), w) >= 0.0
  {
    var agg, byId := AggregateOf(cfg, s, env), IdIndex(s.dead + Unread(s));
    var chunks := Chunks(agg.items, ChunkSize(cfg.maxBatch));
    UnreadMetered(s);
    AggregationConserves(cfg, env, s.dead + Unread(s), LoadDebts(s.debts), w);
    ItemsExact(cfg, env, s.dead + Unread(s), LoadDebts(s.debts));
    ChunksPartition(agg.items, cfg.maxBatch);
    FrozenUSD(w, chunks, byId);
    FreshWorth(s.chain.processed, w, PlanBatches(chunks, byId));
    assert PlannedBatches(s) == BatchesOf(s.done);
    SumConcat(WorthOf(s.chain.processed, w), BatchesOf(s.done), PlanBatches(chunks, byId));
  }

  lemma {:induction false} FreshWorth(p: Processed, w: string, batches: seq<PlanBatch>)
    requires forall b | b in batches :: !b.confirmed
    ensures Sum(WorthOf(p, w), batches) == Sum(BatchUSD(w), batches)
  {
    forall b | b in batches ensures WorthOf(p, w)(b) == BatchUSD(w)(b) {}
    SumEqual(WorthOf(p, w), BatchUSD(w), batches);
  }

  /** Confirming takes what the contract skipped off a batch's worth. */
  lemma {:induction false} WorthConfirmed(p: Processed, w: string, before: seq<PlanBatch>, batches: seq<PlanBatch>, i: nat)
    requires i < |batches| && !batches[i].confirmed
    ensures Sum(WorthOf(p, w), before + batches[i := batches[i].(confirmed := true)]) ==
      Sum(WorthOf(p, w), before + batches) - SkippedFor(p, w, batches[i])
  {
    var after := batches[i := batches[i].(confirmed := true)];
    SumConcat(WorthOf(p, w), before, batches);
    SumConcat(WorthOf(p, w), before, after);
    SumRemove(WorthOf(p, w), batches, i);
    SumRemove(WorthOf(p, w), after, i);
    assert after[..i] + after[i + 1..] == batches[..i] + batches[i + 1..];
  }

  lemma ConfirmExcess(cfg: Config, s: State, e: Event, w: string)
    requires ShapeOk(s) && MoneyOk(cfg, s) && ItemsOk(s) && Enabled(cfg, s, e) && Confirms(e)
    ensures Excess(Apply(cfg, s, e), w) == Excess(s, w) + Unreversed(cfg, s, e, w)
  {
    var wal, p := s.wal.value, s.chain.processed;
    var b := wal.batches[e.i];
    WorthConfirmed(p, w, BatchesOf(s.done), wal.batches, e.i);
    if e.ConfirmMined? {
      UnconfirmedCovered(wal, e.i);
      ReversalExact(wal.books, b, p[b.detailsHash]);
      assert Moved(wal.books, Reversed(wal.books, b, p[b.detailsHash]), b.items, GoneFrom(b, p[b.detailsHash]), w);
      KeptAll(w, b.items, |b.items|);
      assert b.items[..|b.items|] == b.items;
    }
  }

  lemma ConfirmItemsOk(cfg: Config, s: State, e: Event, w: string)
    requires ItemsOk(s) && Enabled(cfg, s, e) && Confirms(e)
    ensures ItemsOk(Apply(cfg, s, e)) && Unreversed(cfg, s, e, w) >= 0.0
  {
    var wal := s.wal.value;
    forall b | b in wal.batches ensures NonNegativeItems(b.items) { assert b in PlannedBatches(s); }
    ConfirmedItems(wal, e.i, Apply(cfg, s, e).wal.value.books);
    ConfirmedItems(wal, e.i, wal.books);
    forall b | b in PlannedBatches(Apply(cfg, s, e)) ensures NonNegativeItems(b.items) {
      if b in BatchesOf(s.done) { assert b in PlannedBatches(s); }
    }
    assert wal.batches[e.i] in wal.batches;
    PaidBounds(s.chain.processed, w, wal.batches[e.i]);
  }

  lemma ConfirmedKnown(s: State, b: PlanBatch)
    requires ChainOk(s) && b in PlannedBatches(s) && b.confirmed
    ensures b.detailsHash in s.chain.durable && b.detailsHash in s.chain.processed
  {
    if b in BatchesOf(s.done) {
      var i :| 0 <= i < |BatchesOf(s.done)| && BatchesOf(s.done)[i] == b;
      BatchFromRound(s.done, i);
    }
  }

  /** The chain moves on, but not under a confirmed batch. */
  lemma ChainExcess(cfg: Config, s: State, e: Event, w: string)
    requires ChainOk(s) && ItemsOk(s) && Enabled(cfg, s, e) && OnChain(e)
    ensures ItemsOk(Apply(cfg, s, e)) && Excess(Apply(cfg, s, e), w) == Excess(s, w)
  {
    var t := Apply(cfg, s, e);
    assert PlannedBatches(t) == PlannedBatches(s);
    forall b | b in PlannedBatches(s) ensures WorthOf(t.chain.processed, w)(b) == WorthOf(s.chain.processed, w)(b) {
      if b.confirmed { ConfirmedKnown(s, b); }
    }
    SumEqual(WorthOf(t.chain.processed, w), WorthOf(s.chain.processed, w), PlannedBatches(s));
  }

  lemma RemoveExcess(cfg: Config, s: State, w: string)
    requires ShapeOk(s) && ItemsOk(s) && Enabled(cfg, s, RemoveWal)
    ensures ItemsOk(Apply(cfg, s, RemoveWal)) && Excess(Apply(cfg, s, RemoveWal), w) == Excess(s, w)
  {
    var r := s.round.value.(wal := s.wal.value);
    assert (s.done + [r])[..|s.done|] == s.done;
    assert PlannedBatches(Apply(cfg, s, RemoveWal)) == PlannedBatches(s);
    SumAppend(RoundPaid(w), s.done, r);
  }

  lemma OtherExcess(cfg: Config, s: State, e: Event, w: string)
    requires ItemsOk(s) && Enabled(cfg, s, e) && !Confirms(e) && !OnChain(e) && !e.Plan? && !e.RemoveWal?
    ensures ItemsOk(Apply(cfg, s, e)) && Excess(Apply(cfg, s, e), w) == Excess(s, w)
  {
    assert PlannedBatches(Apply(cfg, s, e)) == PlannedBatches(s);
  }

  lemma ExcessStep(cfg: Config, s: State, e: Event, w: string)
    requires Safe(s) && MoneyOk(cfg, s) && ItemsOk(s) && PricesNonNegative(cfg.prices) && Enabled(cfg, s, e)
    ensures ItemsOk(Apply(cfg, s, e))
    ensures Excess(Apply(cfg, s, e), w) == Excess(s, w) + RoundedOff(cfg, s, e, w) + Unreversed(cfg, s, e, w)
    ensures RoundedOff(cfg, s, e, w) >= 0.0 && Unreversed(cfg, s, e, w) >= 0.0
  {
    if e.Plan? {
      PlanExcess(cfg, s, e.env, e.now, w);
    } else if Confirms(e) {
      ConfirmExcess(cfg, s, e, w);
      ConfirmItemsOk(cfg, s, e, w);
    } else if OnChain(e) {
      ChainExcess(cfg, s, e, w);
    } else if e.RemoveWal? {
      RemoveExcess(cfg, s, w);
    } else {
      OtherExcess(cfg, s, e, w);
    }
  }

  lemma {:induction false} RunExcess(cfg: Config, s: State, events: seq<Event>, t: State, w: string)
    requires Safe(s) && MoneyOk(cfg, s) && ItemsOk(s) && PricesNonNegative(cfg.prices) && Runs(cfg, s, events, t)
    ensures Safe(t) && ItemsOk(t)
    ensures Excess(t, w) == Excess(s, w) + RunRoundedOff(cfg, s, events, w) + RunUnreversed(cfg, s, events, w)
    ensures RunRoundedOff(cfg, s, events, w) >= 0.0 && RunUnreversed(cfg, s, events, w) >= 0.0
    decreases |events|
  {
    if events != [] {
      var e := events[0];
      ExcessStep(cfg, s, e, w);
      ShapeStep(cfg, s, e);
      RecordsStep(cfg, s, e);
      ChainStep(cfg, s, e);
      TotalsStep(cfg, s, e);
      MoneyStep(cfg, s, e);
      RunExcess(cfg, Apply(cfg, s, e), events[1..], t, w);
    }
  }

  // ---- Batches whose hash was completed before ----

  function Firsts(batches: seq<PlanBatch>): seq<PlanBatch> {
    if batches == [] then []
    else
      var n := |batches| - 1;
      Firsts(batches[..n]) + if batches[n].detailsHash in HashesOf(batches[..n]) then [] else [batches[n]]
  }

  function Repeats(batches: seq<PlanBatch>): seq<PlanBatch> {
    if batches == [] then []
    else
      var n := |batches| - 1;
      Repeats(batches[..n]) + if batches[n].detailsHash in HashesOf(batches[..n]) then [batches[n]] else []
  }

  lemma {:induction false} FirstsAndRepeats(f: PlanBatch -> real, batches: seq<PlanBatch>)
    ensures Sum(f, batches) == Sum(f, Firsts(batches)) + Sum(f, Repeats(batches))
    ensures forall b | b in Repeats(batches) :: b in batches
    decreases |batches|
  {
    if batches != [] {
      var n := |batches| - 1;
      FirstsAndRepeats(f, batches[..n]);
      SumAppend(f, Firsts(batches[..n]), batches[n]);
      SumAppend(f, Repeats(batches[..n]), batches[n]);
      assert Firsts(batches[..n]) + [] == Firsts(batches[..n]) && Repeats(batches[..n]) + [] == Repeats(batches[..n]);
    }
  }

  lemma {:induction false} DistinctNeverRepeat(batches: seq<PlanBatch>)
    ensures Repeats(batches) == [] <==> Distinct(HashesOf(batches))
    decreases |batches|
  {
    if batches != [] {
      var n := |batches| - 1;
      DistinctNeverRepeat(batches[..n]);
      assert HashesOf(batches) == HashesOf(batches[..n]) + [batches[n].detailsHash];
      DistinctSnoc(HashesOf(batches[..n]), batches[n].detailsHash);
    }
  }

  lemma DistinctSnoc(hs: seq<Hash>, h: Hash)
    ensures Distinct(hs + [h]) <==> Distinct(hs) && h !in hs
  {
    var all := hs + [h];
    if Distinct(all) {
      forall i | 0 <= i < |hs| ensures hs[i] != h { assert all[i] != all[|hs|]; }
      forall i, j | 0 <= i < j < |hs| ensures hs[i] != hs[j] { assert all[i] != all[j]; }
    }
  }

  // ---- Every run ----

  /** Paid out on chain for the completed batches: an executed hash pays once. */
  function MovedUSD(s: State, w: string): real { Sum(WorthOf(s.chain.processed, w), Firsts(BatchesOf(s.done))) }

  function RepeatedUSD(s: State, w: string): real { Sum(WorthOf(s.chain.processed, w), Repeats(BatchesOf(s.done))) }

  lemma {:induction false} FirstHashes(batches: seq<PlanBatch>, h: Hash)
    ensures multiset(HashesOf(Firsts(batches)))[h] == if h in HashesOf(batches) then 1 else 0
    decreases |batches|
  {
    if batches != [] {
      var n := |batches| - 1;
      FirstHashes(batches[..n], h);
      assert HashesOf(batches) == HashesOf(batches[..n]) + [batches[n].detailsHash];
      if batches[n].detailsHash !in HashesOf(batches[..n]) {
        assert HashesOf(Firsts(batches)) == HashesOf(Firsts(batches[..n])) + [batches[n].detailsHash];
      } else {
        assert Firsts(batches[..n]) + [] == Firsts(batches[..n]);
      }
    }
  }

  /** Each of the batches so counted is executed once, and among them is every completed hash. */
  lemma FirstsAreExecuted(cfg: Config, s: State, h: Hash)
    requires Reachable(cfg, s) && h in HashesOf(BatchesOf(s.done))
    ensures multiset(HashesOf(Firsts(BatchesOf(s.done))))[h] == s.chain.effects[h] == 1
  {
    var hs := HashesOf(BatchesOf(s.done));
    FirstHashes(BatchesOf(s.done), h);
    var i :| 0 <= i < |hs| && hs[i] == h;
    CompletedTookEffect(cfg, s, i);
  }

  /** A run that reads every receipt leaves nothing unreversed. */
  lemma {:induction false} ReceiptsReverse(cfg: Config, s: State, events: seq<Event>, w: string)
    requires forall e | e in events :: !e.ConfirmKnown?
    ensures RunUnreversed(cfg, s, events, w) == 0.0
    decreases |events|
  {
    if events != [] && Enabled(cfg, s, events[0]) {
      assert events[0] in events;
      forall e | e in events[1..] ensures !e.ConfirmKnown? { assert e in events; }
      ReceiptsReverse(cfg, Apply(cfg, s, events[0]), events[1..], w);
    }
  }

  /** Over every run and for every wallet, what completed plans settled is what the contract
      paid out for it, plus what batches of a hash completed before would have paid, plus the
      skipped items of batches confirmed without their receipt, plus the rounding. So apart
      from the rounding the books agree with the chain if and only if neither of the two
      amounts in between is there; with distinct hashes the first is not. */
  lemma {:induction false} SettledIsMoved(cfg: Config, events: seq<Event>, s: State, w: string)
    requires Runs(cfg, Initial(), events, s) && PricesNonNegative(cfg.prices) && s.wal.None?
    ensures var settled, rounded, unreversed :=
              Sum(RoundPaid(w), s.done), RunRoundedOff(cfg, Initial(), events, w), RunUnreversed(cfg, Initial(), events, w);
      && settled == MovedUSD(s, w) + RepeatedUSD(s, w) + unreversed + rounded
      && RepeatedUSD(s, w) >= 0.0 && unreversed >= 0.0 && rounded >= 0.0
      && (settled - rounded == MovedUSD(s, w) <==> RepeatedUSD(s, w) == 0.0 && unreversed == 0.0)
      && (Distinct(HashesOf(BatchesOf(s.done))) ==> RepeatedUSD(s, w) == 0.0)
  {
    InitiallySafe();
    InitialMoney(cfg);
    RunExcess(cfg, Initial(), events, s, w);
    var worth, batches := WorthOf(s.chain.processed, w), BatchesOf(s.done);
    assert PlannedBatches(s) == batches;
    FirstsAndRepeats(worth, batches);
    DistinctNeverRepeat(batches);
    forall b | b in Repeats(batches) ensures worth(b) >= 0.0 {
      PaidBounds(s.chain.processed, w, b);
      ItemUsdNonNegative(w, b.items);
    }
    SumNonNegative(worth, Repeats(batches));
  }
}
