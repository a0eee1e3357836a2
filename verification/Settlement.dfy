/** The settlement engine as a step machine over the disk (request log, cursor, write-ahead
    plan, dead letters, debt ledger, settled total), the chain, and volatile memory.
    Every event is one durable write, one chain step, or one mutex-held memory update. */
module Settlement {
  import opened Orders
  import opened Merkle
  import opened Billing
  import opened Allocator
  import opened Aggregator
  import opened AggregatorLaws
  import opened Batches
  import opened RequestLog
  import B = Balances

  // ---- The plan ----

  /** What the receipt of a settlement says: the indexes of the items the contract skipped. */
  datatype Outcome = Outcome(found: bool, failedCount: nat, failed: seq<nat>)

  /** The money half of a plan; reversals move USD from `settled` to `debts`. */
  datatype Books = Books(settled: map<string, real>, debts: seq<Debt>)

  datatype Wal = Wal(batches: seq<PlanBatch>, cursor: nat, books: Books, createdAt: nat)

  predicate AllConfirmed(wal: Wal) { forall b | b in wal.batches :: b.confirmed }

  /** One skipped item: its planned USD leaves the wallet's settled amount, floored at zero,
      and becomes a debt to the same SP for the same request ids. */
  function ReverseItem(books: Books, it: PlanItem): Books {
    if it.usd <= 0.0 || it.user !in books.settled then books
    else
      var cur := books.settled[it.user] - it.usd;
      Books(books.settled[it.user := if cur < 0.0 then 0.0 else cur],
            books.debts + [Debt(Key(it.user, it.sp), it.usd, it.ids)])
  }

  function ReverseItems(books: Books, items: seq<PlanItem>, failed: seq<nat>): Books {
    if failed == [] then books
    else
      var n := |failed| - 1;
      var before := ReverseItems(books, items, failed[..n]);
      if failed[n] >= |items| then before else ReverseItem(before, items[failed[n]])
  }

  function Reversed(books: Books, b: PlanBatch, outcome: Outcome): Books {
    if !outcome.found || outcome.failedCount == 0 then books else ReverseItems(books, b.items, outcome.failed)
  }

  function Confirmed(wal: Wal, i: nat, books: Books): Wal
    requires i < |wal.batches|
  {
    wal.(batches := wal.batches[i := wal.batches[i].(confirmed := true)], books := books)
  }

  // ---- State ----

  /** `processed` is the contract's record of executed details hashes with their outcomes,
      `durable` those observed final, `effects` how often each hash was executed. */
  datatype Chain = Chain(processed: map<Hash, Outcome>, mempool: set<Hash>, durable: set<Hash>, effects: multiset<Hash>)

  datatype Total = Total(usd: real, lastWal: nat)

  datatype Ticket = Ticket(wallet: string, est: real)

  /** How far the finishing writes of a fully confirmed plan have come. */
  datatype Stage = Open | CursorCommitted | Reduced | Counted | DebtsSaved

  /** History of one cycle: the records it retried, the new ones, those turned into money. */
  datatype Round = Round(start: nat, retried: seq<Record>, taken: seq<Record>, collected: seq<Record>, wal: Wal)

  /** `done`, `round`, `cuts` and `stranded` are history: completed plans, the plan in progress,
      settlements taken off pending and unbillable usage left on it since the last restart. */
  datatype State = State(
    log: seq<Line>, cursor: nat, wal: Option<Wal>, dead: seq<Record>, debts: seq<Debt>, total: Total, clock: nat,
    chain: Chain,
    pending: B.Pending, inflight: seq<Ticket>, stage: Stage, restored: bool,
    done: seq<Round>, round: Option<Round>, cuts: nat, stranded: seq<Record>)

  function Initial(): State {
    State([], 0, None, [], [], Total(0.0, 0), 0, Chain(map[], {}, {}, multiset{}), map[], [], Open, true, [], None, 0, [])
  }

  // ---- Events ----

  datatype Event =
    | Reserve(ticket: Ticket)                       // the gate grants a request
    | Complete(i: nat, line: Line, streamed: bool)  // log the record and adjust the reservation
    | Release(i: nat)                               // a request that ends without a record
    | LogOther(line: Line)                          // a line that bills nothing
    | Plan(env: Env, now: nat)                      // dead letters and plan written together
    | Submit(i: nat)
    | Land(hash: Hash, outcome: Outcome)
    | Revert(hash: Hash)
    | Reorg(hash: Hash)                             // drops an execution nobody has relied on
    | ConfirmMined(i: nat)                          // final receipt with its outcome
    | ConfirmKnown(i: nat)                          // already processed: no outcome at hand
    | CommitCursor
    | ReducePending
    | AddSettledTotal
    | SaveDebts
    | RemoveWal
    | Crash
    | Restore

  function LoadDebts(debts: seq<Debt>): seq<Debt> {
    if debts == [] then []
    else LoadDebts(debts[..|debts| - 1]) + if debts[|debts| - 1].usd > 0.0 then [debts[|debts| - 1]] else []
  }

  function Unread(s: State): seq<Record>
    requires s.cursor <= |s.log|
  {
    BillableOf(s.log[s.cursor..])
  }

  function IdIndex(records: seq<Record>): ById {
    if records == [] then map[]
    else
      var r := records[|records| - 1];
      var before := IdIndex(records[..|records| - 1]);
      if r.id != "" then before[r.id := r] else before
  }

  ghost function AggregateOf(cfg: Config, s: State, env: Env): Aggregation
    requires s.cursor <= |s.log|
  {
    Aggregate(cfg, env, s.dead + Unread(s), LoadDebts(s.debts))
  }

  ghost function PlanOf(cfg: Config, s: State, env: Env, now: nat): Wal
    requires s.cursor <= |s.log|
  {
    var agg := AggregateOf(cfg, s, env);
    Wal(PlanBatches(Chunks(agg.items, ChunkSize(cfg.maxBatch)), IdIndex(s.dead + Unread(s))),
        |s.log|, Books(agg.settled, agg.debts), now)
  }

  function HashAt(wal: Wal, i: nat): Hash
    requires i < |wal.batches|
  {
    wal.batches[i].detailsHash
  }

  /** Batches are worked through in order. */
  predicate NextToConfirm(s: State, i: nat) {
    s.wal.Some? && s.stage == Open && i < |s.wal.value.batches| && !s.wal.value.batches[i].confirmed
    && forall j | 0 <= j < i :: s.wal.value.batches[j].confirmed
  }

  function CostOfLine(cfg: Config, l: Line): real { if BillableLine(l) then Cost(cfg.prices, l.rec.value) else 0.0 }

  /** What the reservation of a finished request becomes. */
  function ChargeOfLine(cfg: Config, l: Line, streamed: bool): real {
    if l.rec.Some? then Charged(cfg.prices, streamed, l.rec.value) else 0.0
  }

  function StrandedBy(l: Line, streamed: bool): seq<Record> {
    if l.rec.Some? && Strands(streamed, l.rec.value) then [l.rec.value] else []
  }

  ghost predicate Enabled(cfg: Config, s: State, e: Event) {
    match e
    case Reserve(t) => t.est >= 0.0 && t.wallet != ""
    case Complete(i, l, _) =>
      i < |s.inflight| && l.bytes > 0 && l.rec.Some? && l.rec.value.wallet == s.inflight[i].wallet && Metered(l.rec.value)
    case Release(i) => i < |s.inflight|
    case LogOther(l) => !BillableLine(l)
    case Plan(env, now) =>
      && s.wal.None? && s.restored && s.cursor <= |s.log| && now > s.clock && env.market.stablePrice > 0.0
      && (Unread(s) != [] || s.dead != [] || LoadDebts(s.debts) != [])
    case Submit(i) => NextToConfirm(s, i)
    case Land(h, o) => h in s.chain.mempool && h !in s.chain.processed && Distinct(o.failed)
    case Revert(h) => h in s.chain.mempool && h in s.chain.processed
    case Reorg(h) => h in s.chain.processed && h !in s.chain.durable
    case ConfirmMined(i) => NextToConfirm(s, i) && HashAt(s.wal.value, i) in s.chain.processed
    case ConfirmKnown(i) => NextToConfirm(s, i) && HashAt(s.wal.value, i) in s.chain.processed
    case CommitCursor => s.wal.Some? && s.stage == Open && AllConfirmed(s.wal.value)
    case ReducePending => s.wal.Some? && s.stage == CursorCommitted
    case AddSettledTotal => s.wal.Some? && s.stage == Reduced
    case SaveDebts => s.wal.Some? && s.stage == Counted
    case RemoveWal => s.wal.Some? && s.stage == DebtsSaved
    case Crash => true
    case Restore => !s.restored && s.stage == Open && s.cursor <= |s.log| && (s.wal.Some? ==> !AllConfirmed(s.wal.value))
  }

  /** Settled amounts of different wallets are independent, so the map's walk order is not. */
  function ReduceAll(p: B.Pending, settled: map<string, real>): B.Pending {
    map w | w in p && w in SettledFor(p, settled, w) :: SettledFor(p, settled, w)[w]
  }

  function SettledFor(p: B.Pending, settled: map<string, real>, w: string): B.Pending {
    if w in settled then B.SettleOne(p, w, settled[w]) else p
  }

  function CountTotal(total: Total, settled: map<string, real>, createdAt: nat, sum: real): Total {
    if createdAt != 0 && total.lastWal == createdAt then total else Total(total.usd + sum, createdAt)
  }

  function RestoreDebts(p: B.Pending, debts: seq<Debt>): B.Pending {
    if debts == [] then p
    else
      var d := debts[|debts| - 1];
      B.AddSpend(RestoreDebts(p, debts[..|debts| - 1]), d.key.wallet, d.usd)
  }

  function RestorePending(cfg: Config, s: State): B.Pending
    requires s.cursor <= |s.log|
  {
    B.RestoreSpend(cfg.prices, B.RestoreSpend(cfg.prices, RestoreDebts(s.pending, LoadDebts(s.debts)), s.dead), Unread(s))
  }

  function Executed(c: Chain, h: Hash, o: Outcome): Chain {
    Chain(c.processed[h := o], c.mempool - {h}, c.durable, c.effects + multiset{h})
  }

  function Dropped(c: Chain, h: Hash): Chain {
    Chain(c.processed - {h}, c.mempool + {h}, c.durable, c.effects - multiset{h})
  }

  function Final(c: Chain, h: Hash): Chain { c.(durable := c.durable + {h}) }

  ghost function Apply(cfg: Config, s: State, e: Event): State
    requires Enabled(cfg, s, e)
  {
    match e
    case Reserve(t) =>
      s.(pending := s.pending[t.wallet := B.PendingOf(s.pending, t.wallet) + t.est], inflight := s.inflight + [t])
    case Complete(i, l, streamed) =>
      s.(log := s.log + [l],
         pending := B.AdjustSpend(s.pending, s.inflight[i].wallet, s.inflight[i].est, ChargeOfLine(cfg, l, streamed)),
         inflight := s.inflight[..i] + s.inflight[i + 1..],
         stranded := s.stranded + StrandedBy(l, streamed))
    case Release(i) =>
      s.(pending := B.AdjustSpend(s.pending, s.inflight[i].wallet, s.inflight[i].est, 0.0),
         inflight := s.inflight[..i] + s.inflight[i + 1..])
    case LogOther(l) => s.(log := s.log + [l])
    case Plan(env, now) =>
      var wal, agg := PlanOf(cfg, s, env, now), AggregateOf(cfg, s, env);
      s.(wal := Some(wal), dead := agg.unresolved, clock := now,
         round := Some(Round(s.cursor, s.dead, Unread(s), Collectable(env, s.dead + Unread(s)), wal)))
    case Submit(i) => s.(chain := s.chain.(mempool := s.chain.mempool + {HashAt(s.wal.value, i)}))
    case Land(h, o) => s.(chain := Executed(s.chain, h, o))
    case Revert(h) => s.(chain := s.chain.(mempool := s.chain.mempool - {h}))
    case Reorg(h) => s.(chain := Dropped(s.chain, h))
    case ConfirmMined(i) =>
      var h := HashAt(s.wal.value, i);
      s.(wal := Some(Confirmed(s.wal.value, i, Reversed(s.wal.value.books, s.wal.value.batches[i], s.chain.processed[h]))),
         chain := Final(s.chain, h))
    case ConfirmKnown(i) =>
      s.(wal := Some(Confirmed(s.wal.value, i, s.wal.value.books)), chain := Final(s.chain, HashAt(s.wal.value, i)))
    case CommitCursor => s.(cursor := s.wal.value.cursor, stage := CursorCommitted)
    case ReducePending => s.(pending := ReduceAll(s.pending, s.wal.value.books.settled), stage := Reduced, cuts := s.cuts + 1)
    case AddSettledTotal =>
      s.(total := CountTotal(s.total, s.wal.value.books.settled, s.wal.value.createdAt, B.MapSum(s.wal.value.books.settled)),
         stage := Counted)
    case SaveDebts => s.(debts := s.wal.value.books.debts, stage := DebtsSaved)
    case RemoveWal =>
      s.(wal := None, stage := Open, round := None,
         done := if s.round.Some? then s.done + [s.round.value.(wal := s.wal.value)] else s.done)
    case Crash => s.(pending := map[], inflight := [], stage := Open, restored := false, cuts := 0, stranded := [])
    case Restore => s.(pending := RestorePending(cfg, s), restored := true)
  }

  /** `events` lead from `s` to `t`, each enabled where it happens. */
  ghost predicate Runs(cfg: Config, s: State, events: seq<Event>, t: State)
    decreases |events|
  {
    if events == [] then s == t
    else Enabled(cfg, s, events[0]) && Runs(cfg, Apply(cfg, s, events[0]), events[1..], t)
  }

  lemma {:induction false} RunsConcat(cfg: Config, s: State, a: seq<Event>, t: State, b: seq<Event>, u: State)
    requires Runs(cfg, s, a, t) && Runs(cfg, t, b, u)
    ensures Runs(cfg, s, a + b, u)
    decreases |a|
  {
    if a == [] {
      assert a + b == b;
    } else {
      assert (a + b)[0] == a[0] && (a + b)[1..] == a[1..] + b;
      RunsConcat(cfg, Apply(cfg, s, a[0]), a[1..], t, b, u);
    }
  }
}
