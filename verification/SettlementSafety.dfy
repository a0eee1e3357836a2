/** What every reachable state of the settlement engine keeps: records are consumed exactly
    once, a planned batch takes effect at most once, a plan disappears only when all its
    batches are confirmed, and the settled total counts every plan once. */
module SettlementSafety {
  import opened Orders
  import opened Sums
  import opened Merkle
  import opened Billing
  import opened Allocator
  import opened Aggregator
  import opened AggregatorLaws
  import opened Batches
  import opened RequestLog
  import opened Settlement
  import B = Balances

  // ---- Shape of the durable state ----

  ghost predicate ShapeOk(s: State) {
    && s.cursor <= |s.log|
    && (s.wal.Some? <==> s.round.Some?)
    && (s.wal.None? ==> s.stage == Open)
    && (s.wal.Some? ==> PlanShapeOk(s, s.wal.value, s.round.value))
  }

  ghost predicate PlanShapeOk(s: State, wal: Wal, round: Round) {
    && round.start <= wal.cursor <= |s.log| && 1 <= wal.createdAt == s.clock
    && (s.cursor == round.start || s.cursor == wal.cursor)
    && (s.stage != Open ==> s.cursor == wal.cursor)
    && (s.stage != Open || s.cursor != round.start ==> AllConfirmed(wal))
    && (s.stage == Counted || s.stage == DebtsSaved ==> s.total.lastWal == wal.createdAt)
    && (s.stage == DebtsSaved ==> s.debts == wal.books.debts)
  }

  lemma ConfirmedFlags(wal: Wal, i: nat, books: Books)
    requires i < |wal.batches|
    ensures forall j | 0 <= j < |wal.batches| ::
      Confirmed(wal, i, books).batches[j] == if j == i then wal.batches[i].(confirmed := true) else wal.batches[j]
    ensures !wal.batches[i].confirmed ==> !AllConfirmed(wal)
  {
    if !wal.batches[i].confirmed { assert wal.batches[i] in wal.batches; }
  }

  predicate Confirms(e: Event) { e.ConfirmMined? || e.ConfirmKnown? }

  predicate OnChain(e: Event) { e.Submit? || e.Land? || e.Revert? || e.Reorg? }

  lemma ConfirmShape(cfg: Config, s: State, e: Event)
    requires ShapeOk(s) && Enabled(cfg, s, e) && Confirms(e)
    ensures ShapeOk(Apply(cfg, s, e))
  {
    ConfirmedFlags(s.wal.value, e.i, s.wal.value.books);
  }

  lemma ShapeStep(cfg: Config, s: State, e: Event)
    requires ShapeOk(s) && Enabled(cfg, s, e)
    ensures ShapeOk(Apply(cfg, s, e))
  {
    if Confirms(e) { ConfirmShape(cfg, s, e); }
  }

  // ---- Exactly-once consumption ----

  /** Up to where the log has been planned. */
  function PlannedTo(s: State): nat { if s.wal.Some? then s.wal.value.cursor else s.cursor }

  function TakenBy(rounds: seq<Round>): seq<Record> {
    if rounds == [] then [] else TakenBy(rounds[..|rounds| - 1]) + rounds[|rounds| - 1].taken
  }

  function CollectedBy(rounds: seq<Round>): seq<Record> {
    if rounds == [] then [] else CollectedBy(rounds[..|rounds| - 1]) + rounds[|rounds| - 1].collected
  }

  function Rounds(s: State): seq<Round> { s.done + if s.round.Some? then [s.round.value] else [] }

  ghost predicate RecordsOk(s: State) {
    && PlannedTo(s) <= |s.log|
    && TakenBy(Rounds(s)) == BillableOf(s.log[..PlannedTo(s)])
    && multiset(CollectedBy(Rounds(s))) + multiset(s.dead) == multiset(BillableOf(s.log[..PlannedTo(s)]))
  }

  lemma CollectedAndUnresolved(cfg: Config, env: Env, records: seq<Record>, carried: seq<Debt>)
    ensures multiset(Collectable(env, records)) + multiset(Aggregate(cfg, env, records, carried).unresolved) == multiset(records)
  {
    RecordsSplit(env, records);
  }

  lemma UnreadCompletes(s: State)
    requires s.cursor <= |s.log|
    ensures BillableOf(s.log[..s.cursor]) + Unread(s) == BillableOf(s.log[..|s.log|])
  {
    BillableConcat(s.log[..s.cursor], s.log[s.cursor..]);
    assert s.log[..s.cursor] + s.log[s.cursor..] == s.log == s.log[..|s.log|];
  }

  lemma RoundsPushed(s: State, r: Round)
    ensures TakenBy(s.done + [r]) == TakenBy(s.done) + r.taken
    ensures CollectedBy(s.done + [r]) == CollectedBy(s.done) + r.collected
  {
    assert (s.done + [r])[..|s.done|] == s.done;
  }

  lemma Regroup(c: multiset<Record>, d: multiset<Record>, x: multiset<Record>, u: multiset<Record>, n: multiset<Record>)
    requires x + u == d + n
    ensures c + x + u == (c + d) + n
  {
    assert c + x + u == c + (x + u);
  }

  lemma PlannedRecordsSplit(cfg: Config, s: State, env: Env)
    requires s.cursor <= |s.log| && multiset(CollectedBy(s.done)) + multiset(s.dead) == multiset(BillableOf(s.log[..s.cursor]))
    ensures multiset(CollectedBy(s.done)) + multiset(Collectable(env, s.dead + Unread(s))) + multiset(AggregateOf(cfg, s, env).unresolved)
         == multiset(BillableOf(s.log[..|s.log|]))
  {
    var records := s.dead + Unread(s);
    UnreadCompletes(s);
    CollectedAndUnresolved(cfg, env, records, LoadDebts(s.debts));
    Regroup(multiset(CollectedBy(s.done)), multiset(s.dead), multiset(Collectable(env, records)),
            multiset(AggregateOf(cfg, s, env).unresolved), multiset(Unread(s)));
  }

  lemma PlanRecords(cfg: Config, s: State, env: Env, now: nat)
    requires ShapeOk(s) && RecordsOk(s) && Enabled(cfg, s, Plan(env, now))
    ensures RecordsOk(Apply(cfg, s, Plan(env, now)))
  {
    assert Rounds(s) == s.done;
    UnreadCompletes(s);
    PlannedRecordsSplit(cfg, s, env);
    RoundsPushed(s, Round(s.cursor, s.dead, Unread(s), Collectable(env, s.dead + Unread(s)), PlanOf(cfg, s, env, now)));
  }

  lemma RemoveRecords(cfg: Config, s: State)
    requires ShapeOk(s) && RecordsOk(s) && Enabled(cfg, s, RemoveWal)
    ensures RecordsOk(Apply(cfg, s, RemoveWal))
  {
    var t := Apply(cfg, s, RemoveWal);
    RoundsPushed(s, s.round.value);
    RoundsPushed(s, s.round.value.(wal := s.wal.value));
    assert Rounds(t) == t.done;
  }

  lemma LoggedRecords(s: State, t: State)
    requires RecordsOk(s) && s.log <= t.log && Rounds(t) == Rounds(s) && t.dead == s.dead && PlannedTo(t) == PlannedTo(s)
    ensures RecordsOk(t)
  {
    assert t.log[..PlannedTo(s)] == s.log[..PlannedTo(s)];
  }

  lemma RecordsStep(cfg: Config, s: State, e: Event)
    requires ShapeOk(s) && RecordsOk(s) && Enabled(cfg, s, e)
    ensures RecordsOk(Apply(cfg, s, e))
  {
    match e {
      case Complete(_, _, _) => LoggedRecords(s, Apply(cfg, s, e));
      case LogOther(_) => LoggedRecords(s, Apply(cfg, s, e));
      case Plan(env, now) => PlanRecords(cfg, s, env, now);
      case RemoveWal => RemoveRecords(cfg, s);
      case _ =>
    }
  }

  // ---- The chain ----

  ghost predicate BatchesFinal(wal: Wal, c: Chain) {
    forall b | b in wal.batches && b.confirmed :: b.detailsHash in c.durable
  }

  ghost predicate ChainOk(s: State) {
    && (forall h :: s.chain.effects[h] == if h in s.chain.processed then 1 else 0)
    && s.chain.durable <= s.chain.processed.Keys
    && (s.wal.Some? ==> BatchesFinal(s.wal.value, s.chain))
    && (forall r | r in s.done :: AllConfirmed(r.wal) && BatchesFinal(r.wal, s.chain))
  }

  lemma ConfirmKeepsChain(s: State, i: nat, books: Books)
    requires ChainOk(s) && s.wal.Some? && i < |s.wal.value.batches| && HashAt(s.wal.value, i) in s.chain.processed
    ensures ChainOk(s.(wal := Some(Confirmed(s.wal.value, i, books)), chain := Final(s.chain, HashAt(s.wal.value, i))))
  {
    ConfirmedFlags(s.wal.value, i, books);
    var wal, c := Confirmed(s.wal.value, i, books), Final(s.chain, HashAt(s.wal.value, i));
    forall b | b in wal.batches && b.confirmed ensures b.detailsHash in c.durable {
      var j :| 0 <= j < |wal.batches| && wal.batches[j] == b;
      if j != i { assert s.wal.value.batches[j] in s.wal.value.batches; }
    }
  }

  lemma ConfirmChain(cfg: Config, s: State, e: Event)
    requires ShapeOk(s) && ChainOk(s) && Enabled(cfg, s, e) && Confirms(e)
    ensures ChainOk(Apply(cfg, s, e))
  {
    match e
    case ConfirmMined(i) =>
      ConfirmKeepsChain(s, i, Reversed(s.wal.value.books, s.wal.value.batches[i], s.chain.processed[HashAt(s.wal.value, i)]));
    case ConfirmKnown(i) => ConfirmKeepsChain(s, i, s.wal.value.books);
  }

  lemma ChainMoves(cfg: Config, s: State, e: Event)
    requires ChainOk(s) && Enabled(cfg, s, e) && OnChain(e)
    ensures ChainOk(Apply(cfg, s, e))
  {
  }

  lemma ChainStep(cfg: Config, s: State, e: Event)
    requires ShapeOk(s) && ChainOk(s) && Enabled(cfg, s, e)
    ensures ChainOk(Apply(cfg, s, e))
  {
    if Confirms(e) {
      ConfirmChain(cfg, s, e);
    } else if OnChain(e) {
      ChainMoves(cfg, s, e);
    } else if e.Plan? {
      FreshPlanUnconfirmed(cfg, s, e.env, e.now);
    }
  }

  lemma FreshPlanUnconfirmed(cfg: Config, s: State, env: Env, now: nat)
    requires s.cursor <= |s.log|
    ensures forall b | b in PlanOf(cfg, s, env, now).batches :: !b.confirmed
  {
    var agg, byId := AggregateOf(cfg, s, env), IdIndex(s.dead + Unread(s));
    var batches := Chunks(agg.items, ChunkSize(cfg.maxBatch));
    forall i | 0 <= i < |batches| ensures !PlanBatches(batches, byId)[i].confirmed { PlanBatchAt(batches, byId, i); }
  }

  // ---- The settled total ----

  ghost function RoundUSD(): Round -> real { (r: Round) => B.MapSum(r.wal.books.settled) }

  ghost predicate TotalsOk(s: State) {
    && s.total.lastWal <= s.clock
    && (s.wal.Some? && s.total.lastWal == s.wal.value.createdAt ==> AllConfirmed(s.wal.value))
    && s.total.usd == Sum(RoundUSD(), s.done)
         + if s.wal.Some? && s.total.lastWal == s.wal.value.createdAt then B.MapSum(s.wal.value.books.settled) else 0.0
  }

  lemma FinishTotals(cfg: Config, s: State, e: Event)
    requires ShapeOk(s) && TotalsOk(s) && Enabled(cfg, s, e) && (e.RemoveWal? || e.AddSettledTotal? || e.Plan?)
    ensures TotalsOk(Apply(cfg, s, e))
  {
    if e.RemoveWal? { SumAppend(RoundUSD(), s.done, s.round.value.(wal := s.wal.value)); }
  }

  lemma ConfirmTotals(cfg: Config, s: State, e: Event)
    requires ShapeOk(s) && TotalsOk(s) && Enabled(cfg, s, e) && Confirms(e)
    ensures TotalsOk(Apply(cfg, s, e))
  {
    ConfirmedFlags(s.wal.value, e.i, s.wal.value.books);
  }

  lemma TotalsStep(cfg: Config, s: State, e: Event)
    requires ShapeOk(s) && TotalsOk(s) && Enabled(cfg, s, e)
    ensures TotalsOk(Apply(cfg, s, e))
  {
    if Confirms(e) {
      ConfirmTotals(cfg, s, e);
    } else if e.RemoveWal? || e.AddSettledTotal? || e.Plan? {
      FinishTotals(cfg, s, e);
    }
  }

  // ---- Every run ----

  ghost predicate Safe(s: State) { ShapeOk(s) && RecordsOk(s) && ChainOk(s) && TotalsOk(s) }

  lemma InitiallySafe()
    ensures Safe(Initial())
  {
    assert Initial().log[..0] == [];
  }

  lemma {:induction false} RunsAreSafe(cfg: Config, s: State, events: seq<Event>, t: State)
    requires Safe(s) && Runs(cfg, s, events, t)
    ensures Safe(t)
    decreases |events|
  {
    if events != [] {
      ShapeStep(cfg, s, events[0]);
      RecordsStep(cfg, s, events[0]);
      ChainStep(cfg, s, events[0]);
      TotalsStep(cfg, s, events[0]);
      RunsAreSafe(cfg, Apply(cfg, s, events[0]), events[1..], t);
    }
  }

  ghost predicate Reachable(cfg: Config, s: State) { exists events :: Runs(cfg, Initial(), events, s) }

  lemma ReachableIsSafe(cfg: Config, s: State)
    requires Reachable(cfg, s)
    ensures Safe(s)
  {
    var events :| Runs(cfg, Initial(), events, s);
    InitiallySafe();
    RunsAreSafe(cfg, Initial(), events, s);
  }

  /** Exactly-once consumption. With no plan outstanding, the new records taken by completed
      plans, one plan after the other, are the billable records of the log up to the committed
      cursor, in order; and each of those has been turned into money once or is still parked
      as a dead letter, never both and never twice. */
  lemma ExactlyOnce(cfg: Config, s: State)
    requires Reachable(cfg, s) && s.wal.None?
    ensures s.cursor <= |s.log| && TakenBy(s.done) == BillableOf(s.log[..s.cursor])
    ensures multiset(CollectedBy(s.done)) + multiset(s.dead) == multiset(BillableOf(s.log[..s.cursor]))
  {
    ReachableIsSafe(cfg, s);
    assert Rounds(s) == s.done;
  }

  /** The same with a plan outstanding: its own records are the next stretch of the log. */
  lemma ExactlyOnceWithPlan(cfg: Config, s: State)
    requires Reachable(cfg, s) && s.wal.Some?
    ensures s.round.Some? && s.wal.value.cursor <= |s.log|
    ensures TakenBy(s.done) + s.round.value.taken == BillableOf(s.log[..s.wal.value.cursor])
    ensures multiset(CollectedBy(s.done)) + multiset(s.round.value.collected) + multiset(s.dead)
         == multiset(BillableOf(s.log[..s.wal.value.cursor]))
  {
    ReachableIsSafe(cfg, s);
    RoundsPushed(s, s.round.value);
  }

  /** At most once on chain: however often plans are replayed, resubmitted, reorged or cut
      short by crashes, no details hash is executed twice, and that of a confirmed batch has been
      executed once. */
  lemma AtMostOnce(cfg: Config, s: State, h: Hash)
    requires Reachable(cfg, s)
    ensures s.chain.effects[h] <= 1
    ensures (exists b :: s.wal.Some? && b in s.wal.value.batches && b.confirmed && b.detailsHash == h) ==> s.chain.effects[h] == 1
    ensures (exists r, b :: r in s.done && b in r.wal.batches && b.detailsHash == h) ==> s.chain.effects[h] == 1
  {
    ReachableIsSafe(cfg, s);
  }

  /** The assumption about the contract, carried over whole runs: an execution once relied on
      is never dropped, because no event drops a durable one. */
  lemma {:induction false} ConfirmedIsFinal(cfg: Config, s: State, events: seq<Event>, t: State, h: Hash)
    requires h in s.chain.durable && Runs(cfg, s, events, t)
    ensures h in t.chain.durable
    decreases |events|
  {
    if events != [] { ConfirmedIsFinal(cfg, Apply(cfg, s, events[0]), events[1..], t, h); }
  }

  /** Once a hash has been relied on, no later run gives it a second effect or takes the first
      away, whatever plans repeat it. */
  lemma {:induction false} KnownHashMovesNothing(cfg: Config, s: State, events: seq<Event>, t: State, h: Hash)
    requires Reachable(cfg, s) && h in s.chain.durable && Runs(cfg, s, events, t)
    ensures t.chain.effects[h] == s.chain.effects[h] == 1
  {
    ReachableIsSafe(cfg, s);
    RunsAreSafe(cfg, s, events, t);
    ConfirmedIsFinal(cfg, s, events, t, h);
  }

  /** A plan leaves the disk only fully confirmed, with cursor, total and debts written. */
  lemma WalRemovedOnlyWhenDone(cfg: Config, s: State, e: Event)
    requires Reachable(cfg, s) && Enabled(cfg, s, e) && s.wal.Some? && Apply(cfg, s, e).wal.None?
    ensures AllConfirmed(s.wal.value) && s.cursor == s.wal.value.cursor
    ensures s.debts == s.wal.value.books.debts && s.total.lastWal == s.wal.value.createdAt
  {
    ReachableIsSafe(cfg, s);
  }

  /** The settled total counts every completed plan exactly once, however often it was
      replayed, and the plan in progress only once it is fully confirmed. */
  lemma TotalCountsPlansOnce(cfg: Config, s: State)
    requires Reachable(cfg, s) && s.wal.None?
    ensures s.total.usd == Sum(RoundUSD(), s.done)
  {
    ReachableIsSafe(cfg, s);
  }
}
