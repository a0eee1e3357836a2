/** The settler itself: the code of one settlement cycle, each durable write an event of the
    step machine, so that whatever is proved of all runs holds of what the code does. */
module SettlerCode {
  import opened Orders
  import opened Sums
  import opened Merkle
  import opened Billing
  import opened Allocator
  import opened Aggregator
  import opened AggregatorLaws
  import opened Batches
  import opened Cycle
  import opened RequestLog
  import opened Settlement
  import opened SettlementMoney
  import opened SettlementSafety
  import B = Balances

  // ---- Pure loops ----

  method IndexById(records: seq<Record>) returns (byId: ById)
    ensures byId == IdIndex(records)
  {
    byId := map[];
    for i := 0 to |records|
      invariant byId == IdIndex(records[..i])
    {
      assert records[..i + 1][..i] == records[..i];
      if records[i].id != "" { byId := byId[records[i].id := records[i]]; }
    }
    assert records[..|records|] == records;
  }

  method ParseDebts(debts: seq<Debt>) returns (out: seq<Debt>)
    ensures out == LoadDebts(debts)
  {
    out := [];
    for i := 0 to |debts|
      invariant out == LoadDebts(debts[..i])
    {
      assert debts[..i + 1][..i] == debts[..i];
      if debts[i].usd <= 0.0 { continue; }
      out := out + [debts[i]];
    }
    assert debts[..|debts|] == debts;
  }

  method ReverseFailedItems(books: Books, b: PlanBatch, outcome: Outcome) returns (after: Books)
    ensures after == Reversed(books, b, outcome)
  {
    after := books;
    if !outcome.found { return; }
    if outcome.failedCount == 0 { return; }
    var failed := outcome.failed;
    for k := 0 to |failed|
      invariant after == ReverseItems(books, b.items, failed[..k])
    {
      assert failed[..k + 1][..k] == failed[..k];
      var idx := failed[k];
      if idx >= |b.items| { continue; }
      var it := b.items[idx];
      if it.usd <= 0.0 { continue; }
      if it.user !in after.settled { continue; }
      var cur := after.settled[it.user] - it.usd;
      if cur < 0.0 { cur := 0.0; }
      after := Books(after.settled[it.user := cur], after.debts + [Debt(Key(it.user, it.sp), it.usd, it.ids)]);
    }
    assert failed[..|failed|] == failed;
  }

  lemma ReducedOneMore(p: B.Pending, settled: map<string, real>, part: map<string, real>, w: string)
    requires w in settled && w !in part
    ensures B.SettleOne(ReduceAll(p, part), w, settled[w]) == ReduceAll(p, part[w := settled[w]])
  {
    var before, after := ReduceAll(p, part), ReduceAll(p, part[w := settled[w]]);
    assert w in before <==> w in p;
    assert w in p ==> before[w] == p[w];
    var one := B.SettleOne(before, w, settled[w]);
    forall v ensures v in one <==> v in after {}
    forall v | v in one ensures one[v] == after[v] {}
  }

  /** `reducePendingSpend`: walks the settled map in whatever order it yields its wallets. */
  method ReducePendingSpend(balance: B.BalanceCache, settled: map<string, real>)
    modifies balance`pendingSpend
    ensures balance.pendingSpend == ReduceAll(old(balance.pendingSpend), settled)
  {
    ghost var p := balance.pendingSpend;
    var todo := settled.Keys;
    ghost var part: map<string, real> := map[];
    while todo != {}
      invariant todo <= settled.Keys && part.Keys == settled.Keys - todo
      invariant forall w | w in part :: part[w] == settled[w]
      invariant balance.pendingSpend == ReduceAll(p, part)
      decreases todo
    {
      var w :| w in todo;
      ReducedOneMore(p, settled, part, w);
      balance.SettleSpend(w, settled[w]);
      part := part[w := settled[w]];
      todo := todo - {w};
    }
    assert part == settled;
  }

  function Owing(debts: seq<Debt>): set<string> { set d | d in debts && d.usd > 0.0 :: d.key.wallet }

  ghost function DebtTotals(debts: seq<Debt>): map<string, real> { map w | w in Owing(debts) :: Sum(DebtBy(w), debts) }

  lemma OwingAppend(debts: seq<Debt>, d: Debt)
    ensures Owing(debts + [d]) == Owing(debts) + if d.usd > 0.0 then {d.key.wallet} else {}
  {
    assert forall x :: x in debts + [d] <==> x in debts || x == d;
  }

  lemma {:induction false} DebtAdds(debts: seq<Debt>, d: Debt, w: string)
    ensures Sum(DebtBy(w), debts + [d]) == Sum(DebtBy(w), debts) + if d.usd > 0.0 && d.key.wallet == w then d.usd else 0.0
  {
    SumAppend(DebtBy(w), debts, d);
  }

  lemma {:induction false} OwesNothing(debts: seq<Debt>, w: string)
    requires w !in Owing(debts)
    ensures Sum(DebtBy(w), debts) == 0.0
  {
    forall d | d in debts ensures DebtBy(w)(d) == 0.0 { assert d.usd > 0.0 ==> d.key.wallet in Owing(debts); }
    SumZero(DebtBy(w), debts);
  }

  function TotalIn(totals: map<string, real>, w: string): real { if w in totals then totals[w] else 0.0 }

  lemma SameMap(a: map<string, real>, b: map<string, real>)
    requires a.Keys == b.Keys && forall w | w in a.Keys :: a[w] == b[w]
    ensures a == b
  {
  }

  lemma {:induction false} TotalWith(debts: seq<Debt>, d: Debt, w: string)
    ensures w in Owing(debts + [d]) <==> w in Owing(debts) || (d.usd > 0.0 && w == d.key.wallet)
    ensures Sum(DebtBy(w), debts + [d]) == TotalIn(DebtTotals(debts), w) + if d.usd > 0.0 && w == d.key.wallet then d.usd else 0.0
  {
    OwingAppend(debts, d);
    DebtAdds(debts, d, w);
    if w !in Owing(debts) { OwesNothing(debts, w); }
  }

  function WithDebt(totals: map<string, real>, d: Debt): map<string, real> {
    if d.usd > 0.0 then totals[d.key.wallet := TotalIn(totals, d.key.wallet) + d.usd] else totals
  }

  lemma DebtCounted(debts: seq<Debt>, d: Debt)
    ensures DebtTotals(debts + [d]) == WithDebt(DebtTotals(debts), d)
  {
    var want, after := WithDebt(DebtTotals(debts), d), DebtTotals(debts + [d]);
    forall w ensures w in after.Keys <==> w in want.Keys { TotalWith(debts, d, w); }
    forall w | w in after.Keys ensures after[w] == want[w] { TotalWith(debts, d, w); }
    SameMap(after, want);
  }

  lemma NextDebt(debts: seq<Debt>, i: nat, totals: map<string, real>)
    requires i < |debts| && totals == DebtTotals(debts[..i])
    ensures WithDebt(totals, debts[i]) == DebtTotals(debts[..i + 1])
  {
    assert debts[..i + 1] == debts[..i] + [debts[i]];
    DebtCounted(debts[..i], debts[i]);
  }

  lemma NoTotals()
    ensures DebtTotals([]) == map[]
  {
  }

  method DebtByWallet(debts: seq<Debt>) returns (totals: map<string, real>)
    ensures totals == DebtTotals(debts)
  {
    totals := map[];
    NoTotals();
    assert debts[..0] == [];
    for i := 0 to |debts|
      invariant totals == DebtTotals(debts[..i])
    {
      var d := debts[i];
      NextDebt(debts, i, totals);
      if d.usd <= 0.0 { continue; }
      totals := totals[d.key.wallet := TotalIn(totals, d.key.wallet) + d.usd];
    }
    assert debts[..|debts|] == debts;
  }

  /** Aggregates everything outstanding at the peek. */
  method MakePlan(cfg: Config, env: Env, now: nat, records: seq<Record>, carried: seq<Debt>, end: nat, ghost peeked: State)
    returns (plan: Wal, unresolved: seq<Record>)
    requires peeked.cursor <= |peeked.log| == end && PositiveFeeds(env.market)
    requires records == peeked.dead + Unread(peeked) && carried == LoadDebts(peeked.debts)
    ensures plan == PlanOf(cfg, peeked, env, now) && unresolved == AggregateOf(cfg, peeked, env).unresolved
  {
    var items, settled, remaining;
    items, unresolved, settled, remaining := AggregateWithDebts(cfg, env, records, carried);
    var byId := IndexById(records);
    var batches := BuildPending(items, cfg.maxBatch, byId);
    plan := Wal(batches, end, Books(settled, remaining), now);
    assert Aggregation(items, unresolved, settled, remaining) == AggregateOf(cfg, peeked, env);
  }

  class Settler {
    const cfg: Config
    const balance: B.BalanceCache
    var log: seq<Line>              // the request log, as the scanner delivers it
    var cursor: nat
    var wal: Option<Wal>
    var dead: seq<Record>
    var debts: seq<Debt>
    var total: Total
    var clock: nat
    var chain: Chain                // the contract; only Ask changes it
    ghost var inflight: seq<Ticket>
    ghost var stage: Stage
    ghost var restored: bool
    ghost var done: seq<Round>
    ghost var round: Option<Round>
    ghost var cuts: nat
    ghost var stranded: seq<Record>

    constructor (cfg: Config, balance: B.BalanceCache)
      requires balance.pendingSpend == map[]
      ensures this.cfg == cfg && this.balance == balance && View() == Initial()
    {
      this.cfg, this.balance := cfg, balance;
      log, cursor, wal, dead, debts, total, clock := [], 0, None, [], [], Total(0.0, 0), 0;
      chain := Chain(map[], {}, {}, multiset{});
      inflight, stage, restored, done, round, cuts, stranded := [], Open, true, [], None, 0, [];
    }

    ghost function View(): State
      reads this, balance
    {
      State(log, cursor, wal, dead, debts, total, clock, chain, balance.pendingSpend, inflight, stage, restored, done, round, cuts,
            stranded)
    }

    /** The gate admits a request of a named wallet and reserves its estimate. */
    method Admit(m: Market, t: Ticket) returns (ok: bool)
      requires t.est >= 0.0 && t.wallet != ""
      modifies balance`pendingSpend, this`inflight
      ensures ok <==> balance.Grants(m, t.wallet, old(B.PendingOf(balance.pendingSpend, t.wallet)), t.est)
      ensures ok ==> Enabled(cfg, old(View()), Reserve(t)) && View() == Apply(cfg, old(View()), Reserve(t))
      ensures !ok ==> View() == old(View())
    {
      ok := balance.Reserve(m, t.wallet, t.est);
      if ok { inflight := inflight + [t]; }
    }

    /** A finished request: its record is logged, and its reservation becomes the cost of the
        usage its handler hands back. */
    method FinishRequest(ghost i: nat, t: Ticket, l: Line, streamed: bool)
      requires Enabled(cfg, View(), Complete(i, l, streamed)) && inflight[i] == t && t.wallet != ""
      modifies balance`pendingSpend, this`log, this`inflight, this`stranded
      ensures View() == Apply(cfg, old(View()), Complete(i, l, streamed))
    {
      var rec := l.rec.value;
      log := log + [l];
      var kept: Option<Record>;
      if rec.errorReason != "" {
        kept := None;
      } else if streamed || rec.status == 200 {
        kept := Some(rec);
      } else {
        kept := None;
      }
      AdjustBalance(t, kept);
      inflight, stranded := inflight[..i] + inflight[i + 1..], stranded + StrandedBy(l, streamed);
    }

    /** A request that ends without a record hands back no usage. */
    method DropRequest(ghost i: nat, t: Ticket)
      requires Enabled(cfg, View(), Release(i)) && inflight[i] == t && t.wallet != ""
      modifies balance`pendingSpend, this`inflight
      ensures View() == Apply(cfg, old(View()), Release(i))
    {
      AdjustBalance(t, None);
      inflight := inflight[..i] + inflight[i + 1..];
    }

    /** `adjustBalance`: zero usage reverses the reservation in full. */
    method AdjustBalance(t: Ticket, usage: Option<Record>)
      modifies balance`pendingSpend
      ensures t.wallet == "" ==> balance.pendingSpend == old(balance.pendingSpend)
      ensures t.wallet != "" ==> balance.pendingSpend == B.AdjustSpend(old(balance.pendingSpend), t.wallet, t.est,
                if usage.Some? && usage.value.total > 0 then Cost(cfg.prices, usage.value) else 0.0)
    {
      if t.wallet == "" { return; }
      var actual := 0.0;
      if usage.Some? && usage.value.total > 0 { actual := Cost(cfg.prices, usage.value); }
      balance.Adjust(t.wallet, t.est, actual);
    }

    /** One exchange with the contract, under a script of what the chain does. */
    method Ask(h: Hash, scripted: Reply) returns (reply: Reply)
      modifies this`chain
      ensures CanAnswer(old(chain), h, reply) && chain == ChainAfter(old(chain), h, reply)
      ensures reply == Truthful(old(chain), h, scripted)
    {
      reply := Truthful(chain, h, scripted);
      chain := ChainAfter(chain, h, reply);
    }

    /** One round of the confirmation loop: dedup, submit, await the final receipt, reverse
        what the contract skipped, persist the confirmation. Per wallet, exactly the planned
        USD of the items a final receipt lists as skipped becomes debt, and an answer that the
        batch is already processed changes no amount. */
    method ConfirmBatch(i: nat, scripted: Reply) returns (ok: bool)
      requires ShapeOk(View()) && NextToConfirm(View(), i)
      modifies this`chain, this`wal
      ensures RunsTo(cfg, old(View()), View()) && ShapeOk(View()) && stage == Open && wal.Some?
      ensures ok ==> wal.value.batches == old(wal).value.batches[i := old(wal).value.batches[i].(confirmed := true)]
      ensures !ok ==> wal == old(wal)
      ensures ok <==> Concludes(old(chain), HashAt(old(wal).value, i), scripted)
      ensures ok ==> chain == Concluded(old(chain), HashAt(old(wal).value, i), scripted)
      ensures !ok ==> chain == ChainAfter(old(chain), HashAt(old(wal).value, i), Truthful(old(chain), HashAt(old(wal).value, i), scripted))
      ensures ok ==> wal.value == WalAfter(old(wal).value, i, scripted)
      ensures ok && Reversible(old(wal).value) ==>
        Reversible(wal.value) && BatchGives(old(wal).value.books, wal.value.books, old(wal).value.batches[i], scripted)
    {
      var pending := wal.value;
      var b := pending.batches[i];
      var h := b.detailsHash;
      ghost var s0 := View();
      var reply := Ask(h, scripted);
      ok := false;
      match reply {
        case AlreadyProcessed =>
          wal := Some(Wal(pending.batches[i := b.(confirmed := true)], pending.cursor, pending.books, pending.createdAt));
          ok := true;
        case Final(o) =>
          var books := ReverseFailedItems(pending.books, b, o);
          wal := Some(Wal(pending.batches[i := b.(confirmed := true)], pending.cursor, books, pending.createdAt));
          ok := true;
        case _ =>
      }
      if ok {
        chain := chain.(durable := chain.durable + {h});
        ConcludeRuns(cfg, s0, i, reply);
      } else {
        AnswerRuns(cfg, s0, i, reply);
      }
      RunsToKeepsShape(cfg, s0, View());
      if ok && Reversible(pending) { ConfirmGives(pending, i, scripted); }
    }

    /** The finishing writes, in the order that makes a crash between any two replayable. */
    method Finish()
      requires ShapeOk(View()) && wal.Some? && stage == Open && AllConfirmed(wal.value)
      modifies this, balance
      ensures RunsTo(cfg, old(View()), View()) && ShapeOk(View())
      ensures View() == Finished(old(View()))
    {
      ghost var s0 := View();
      CommitAndReduce();
      ghost var s1 := View();
      CountAndClear();
      RunsOn(cfg, s0, s1, View());
      RunsToKeepsShape(cfg, s0, View());
    }

    method CommitAndReduce()
      requires ShapeOk(View()) && wal.Some? && stage == Open && AllConfirmed(wal.value)
      modifies this`cursor, this`stage, this`cuts, balance`pendingSpend
      ensures RunsTo(cfg, old(View()), View()) && ShapeOk(View())
      ensures View() == CursorDone(old(View()))
    {
      ghost var s0 := View();
      WriteCursor();
      ghost var s1 := View();
      RunsOne(cfg, s0, CommitCursor, s1);
      ReleaseSettled();
      RunsOne(cfg, s1, ReducePending, View());
      RunsOn(cfg, s0, s1, View());
      RunsToKeepsShape(cfg, s0, View());
    }

    method WriteCursor()
      requires Enabled(cfg, View(), CommitCursor)
      modifies this`cursor, this`stage
      ensures View() == Apply(cfg, old(View()), CommitCursor)
    {
      cursor := wal.value.cursor;
      stage := CursorCommitted;
    }

    method ReleaseSettled()
      requires Enabled(cfg, View(), ReducePending)
      modifies this`stage, this`cuts, balance`pendingSpend
      ensures View() == Apply(cfg, old(View()), ReducePending)
    {
      ReducePendingSpend(balance, wal.value.books.settled);
      stage, cuts := Reduced, cuts + 1;
    }

    method CountAndClear()
      requires ShapeOk(View()) && wal.Some? && stage == Reduced
      modifies this`total, this`debts, this`wal, this`round, this`done, this`stage, balance`suspended
      ensures RunsTo(cfg, old(View()), View()) && View() == PlanDone(old(View()))
    {
      ghost var s0 := View();
      RecordTotal();
      ghost var s1 := View();
      RunsOne(cfg, s0, AddSettledTotal, s1);
      ClearPlan();
      RunsOn(cfg, s0, s1, View());
    }

    method ClearPlan()
      requires Enabled(cfg, View(), SaveDebts) && round.Some?
      modifies this`debts, this`wal, this`round, this`done, this`stage, balance`suspended
      ensures RunsTo(cfg, old(View()), View()) && View() == PlanCleared(old(View()))
    {
      ghost var s1 := View();
      RecordDebts();
      ghost var s2 := View();
      RunsOne(cfg, s1, SaveDebts, s2);
      DeletePlan();
      RunsOne(cfg, s2, RemoveWal, View());
      RunsOn(cfg, s1, s2, View());
    }

    method RecordTotal()
      requires Enabled(cfg, View(), AddSettledTotal)
      modifies this`total, this`stage
      ensures View() == Apply(cfg, old(View()), AddSettledTotal)
    {
      AddSettledTotalOnce(wal.value.books.settled, wal.value.createdAt);
      stage := Counted;
    }

    method RecordDebts()
      requires Enabled(cfg, View(), SaveDebts)
      modifies this`debts, this`stage, balance`suspended
      ensures View() == Apply(cfg, old(View()), SaveDebts)
      ensures B.SuspendedSet(DebtTotals(debts), balance.suspendThreshold, balance.suspended)
    {
      WriteDebts(wal.value.books.debts);
      stage := DebtsSaved;
    }

    method DeletePlan()
      requires Enabled(cfg, View(), RemoveWal)
      modifies this`wal, this`round, this`done, this`stage
      ensures View() == Apply(cfg, old(View()), RemoveWal)
    {
      done := if round.Some? then done + [round.value.(wal := wal.value)] else done;
      wal, round, stage := None, None, Open;
    }

    /** `addSettledTotal`: a replay of the plan already counted is a no-op. */
    method AddSettledTotalOnce(settled: map<string, real>, createdAt: nat)
      modifies this`total
      ensures total == CountTotal(old(total), settled, createdAt, B.MapSum(settled))
    {
      if createdAt != 0 && total.lastWal == createdAt { return; }
      var sum := B.SumOfMap(settled);
      total := Total(total.usd + sum, createdAt);
    }

    /** `saveDebts`: the ledger and the suspension set follow from the same debts. */
    method WriteDebts(records: seq<Debt>)
      modifies this`debts, balance`suspended
      ensures debts == records
      ensures B.SuspendedSet(DebtTotals(records), balance.suspendThreshold, balance.suspended)
    {
      var totals := DebtByWallet(records);
      var _ := balance.UpdateDebts(totals);
      debts := records;
    }

    /** `resumePending`: a no-op without a plan; otherwise works through the unconfirmed
        batches in order and stops at the first that cannot be confirmed. Per wallet, what has
        become debt, completed or not, is what the receipts list as skipped. */
    method ResumePending(script: nat -> Reply) returns (ok: bool)
      requires ShapeOk(View()) && stage == Open
      modifies this, balance
      ensures RunsTo(cfg, old(View()), View()) && ShapeOk(View()) && stage == Open
      ensures ok <==> wal.None?
      ensures ok <==> old(wal).None? || Cooperates(old(chain), old(wal).value.batches, script, 0)
      ensures !ok ==> !AllConfirmed(wal.value)
      ensures View() == Resumed(old(View()), script)
      ensures old(wal).Some? && Reversible(old(wal).value) ==> PassGives(old(View()), View(), script)
    {
      ghost var s0 := View();
      RunsNowhere(cfg, s0);
      if wal.None? { return true; }
      if Reversible(wal.value) { ResumedGives(s0, script); }
      WorkedOnlyPlan(s0, script, 0);
      ok := ConfirmAll(script);
      if !ok { return; }
      ghost var s1 := View();
      Finish();
      RunsOn(cfg, s0, s1, View());
    }

    method ConfirmAll(script: nat -> Reply) returns (ok: bool)
      requires ShapeOk(View()) && stage == Open && wal.Some?
      modifies this`chain, this`wal
      ensures RunsTo(cfg, old(View()), View()) && ShapeOk(View()) && wal.Some? && wal.value.cursor == old(wal).value.cursor
      ensures ok <==> AllConfirmed(wal.value)
      ensures ok <==> Cooperates(old(chain), old(wal).value.batches, script, 0)
      ensures View() == Worked(old(View()), script, 0)
    {
      ghost var s0 := View();
      RunsNowhere(cfg, s0);
      var n := |wal.value.batches|;
      for i := 0 to n
        invariant RunsTo(cfg, s0, View()) && ShapeOk(View()) && WorkedTo(s0, View(), script, i)
        invariant Worked(View(), script, i) == Worked(s0, script, 0)
      {
        ghost var s1 := View();
        if !wal.value.batches[i].confirmed {
          ok := ConfirmBatch(i, script(i));
          RunsOn(cfg, s0, s1, View());
          if !ok {
            WorkStops(s0, s1, script, i);
            return false;
          }
        }
        WorkedOn(s0, s1, View(), script, i);
      }
      return true;
    }

    /** Requests that come and go while the settler aggregates. */
    method Serve(m: Market, arrivals: seq<Arrival>) returns (ghost events: seq<Event>)
      modifies balance`pendingSpend, this`log, this`inflight, this`stranded
      ensures MeanwhileTo(cfg, old(View()), events, View())
    {
      events := [];
      for k := 0 to |arrivals|
        invariant MeanwhileTo(cfg, old(View()), events, View())
      {
        if !Answerable(arrivals[k]) { continue; }
        events := ServeOne(m, arrivals[k], old(View()), events);
      }
    }

    method ServeOne(m: Market, a: Arrival, ghost s0: State, ghost before: seq<Event>) returns (ghost events: seq<Event>)
      requires Answerable(a) && MeanwhileTo(cfg, s0, before, View())
      modifies balance`pendingSpend, this`log, this`inflight, this`stranded
      ensures MeanwhileTo(cfg, s0, events, View())
    {
      events := before;
      ghost var s1 := View();
      var ok := Admit(m, a.ticket);
      if !ok { return; }
      MeanwhileOn(cfg, s0, events, s1, Reserve(a.ticket));
      events := events + [Reserve(a.ticket)];
      ghost var i, s2 := |inflight| - 1, View();
      FinishRequest(i, a.ticket, a.line, a.streamed);
      MeanwhileOn(cfg, s0, events, s2, Complete(i, a.line, a.streamed));
      events := events + [Complete(i, a.line, a.streamed)];
    }

    /** Freezes the plan of the peek and the dead letters, at once. The log may have grown
        behind `end` since. */
    method WritePlan(env: Env, now: nat, records: seq<Record>, carried: seq<Debt>, end: nat)
      requires cursor <= end <= |log| && PositiveFeeds(env.market)
      requires records == dead + BillableOf(log[cursor..end]) && carried == LoadDebts(debts)
      modifies this`wal, this`dead, this`clock, this`round
      ensures View() == PlanWritten(cfg, old(View()), end, env, now)
    {
      ghost var s := View();
      ghost var peeked := s.(log := s.log[..end]);
      assert s.log[..end][s.cursor..] == s.log[s.cursor..end];
      var plan, unresolved := MakePlan(cfg, env, now, records, carried, end, peeked);
      StorePlan(plan, unresolved, Round(cursor, dead, Unread(peeked), Collectable(env, records), plan));
    }

    method StorePlan(plan: Wal, unresolved: seq<Record>, ghost history: Round)
      modifies this`wal, this`dead, this`clock, this`round
      ensures View() == Stored(old(View()), plan, unresolved, history)
    {
      round := Some(history);
      dead, wal, clock := unresolved, Some(plan), plan.createdAt;
    }

    /** `Settle`: one full cycle, with requests served while its plan is being made. A new plan
        is made only after the outstanding one is gone. The cycle succeeds exactly if the chain
        cooperates, and then, unless the price is stale, nothing billable that had been logged
        when it began is still unread. `peeked` is the state the first pass leaves, `planned`
        the one right after the plan was written: a plan is written exactly if the first pass
        succeeded, something is due and the price is fresh, it bills what is due under the
        balances and prices of this cycle, and without one nothing changes after the first
        pass. */
    method Settle(env: Env, now: nat, priceStale: bool, arrivals: seq<Arrival>, first: nat -> Reply, second: nat -> Reply)
      returns (ok: bool, ghost peeked: State, ghost planned: Option<State>)
      requires ShapeOk(View()) && stage == Open && restored && now > clock && env.market.stablePrice > 0.0
      modifies this, balance
      ensures RunsTo(cfg, old(View()), View()) && ShapeOk(View()) && stage == Open
      ensures ok <==> wal.None?
      ensures Cycled(cfg, env, now, priceStale, first, second, old(View()), peeked, planned, View())
      ensures clock == old(clock) || (clock == now && (old(wal).Some? ==> |done| > |old(done)|))
      ensures ok && !priceStale ==> old(log) <= log && AllRead(old(log), cursor)
      ensures old(wal).Some? && Reversible(old(wal).value) ==> PassGives(old(View()), peeked, first)
      ensures planned.Some? && Reversible(planned.value.wal.value) ==> PassGives(planned.value, View(), second)
      ensures ok <==>
        && (old(wal).None? || Cooperates(old(chain), old(wal).value.batches, first, 0))
        && (planned.Some? ==> Cooperates(planned.value.chain, planned.value.wal.value.batches, second, 0))
    {
      ghost var s0 := View();
      planned := None;
      ok := ResumePending(first);
      peeked := View();
      if ok {
        WorkedKeeps(s0, first);
        var written := MakeCyclePlan(env, now, priceStale, arrivals);
        if written {
          ghost var s2 := View();
          planned := Some(s2);
          ok := ResumePending(second);
          RunsOn(cfg, peeked, s2, View());
        }
        RunsOn(cfg, s0, peeked, View());
      }
      CycleAdvances(cfg, env, now, priceStale, first, second, s0, peeked, planned, View());
      CycleGives(cfg, env, now, priceStale, first, second, s0, peeked, planned, View());
    }

    /** The second half of a cycle up to the plan write: peek, see whether anything is due, and
        plan it unless the price is stale. */
    method MakeCyclePlan(env: Env, now: nat, priceStale: bool, arrivals: seq<Arrival>) returns (written: bool)
      requires ShapeOk(View()) && wal.None? && restored && now > clock && env.market.stablePrice > 0.0
      modifies balance`pendingSpend, this`log, this`inflight, this`stranded, this`wal, this`dead, this`clock, this`round
      ensures RunsTo(cfg, old(View()), View()) && ShapeOk(View()) && stage == Open
      ensures written <==> AnythingDue(old(View())) && !priceStale
      ensures !written ==> View() == old(View())
      ensures written ==> wal.Some? && PlannedAs(cfg, env, now, old(View()), View())
    {
      ghost var s := View();
      RunsNowhere(cfg, s);
      var records, end := BillableOf(log[cursor..]), |log|;
      var carried := ParseDebts(debts);
      if |records| == 0 && |dead| == 0 && |carried| == 0 { return false; }
      if priceStale { return false; }
      PlanMeanwhile(env, now, records, carried, end, arrivals);
      RunsToKeepsShape(cfg, s, View());
      return true;
    }

    method PlanMeanwhile(env: Env, now: nat, records: seq<Record>, carried: seq<Debt>, end: nat, arrivals: seq<Arrival>)
      requires Enabled(cfg, View(), Plan(env, now)) && stage == Open
      requires end == |log| && records == Unread(View()) && carried == LoadDebts(debts)
      modifies balance`pendingSpend, this`log, this`inflight, this`stranded, this`wal, this`dead, this`clock, this`round
      ensures RunsTo(cfg, old(View()), View()) && clock == now && wal.Some? && wal.value.cursor == end && old(log) <= log
      ensures PlannedAs(cfg, env, now, old(View()), View())
    {
      ghost var s := View();
      ghost var events := Serve(env.market, arrivals);
      ghost var t := View();
      PlanMadeLate(cfg, s, env, now, events, t);
      WritePlan(env, now, dead + records, carried, end);
      PlannedLate(cfg, s, env, now, events, t);
    }

    /** `restorePendingSpend`: debt, dead letters and unread records are reserved again. */
    method RestorePendingSpend()
      requires ShapeOk(View()) && Enabled(cfg, View(), Restore)
      modifies this`restored, balance`pendingSpend, balance`suspended
      ensures View() == Apply(cfg, old(View()), Restore)
      ensures B.SuspendedSet(DebtTotals(LoadDebts(debts)), balance.suspendThreshold, balance.suspended)
    {
      var carried := ParseDebts(debts);
      ReserveDebts(carried);
      balance.RestorePendingSpend(cfg.prices, dead);
      balance.RestorePendingSpend(cfg.prices, BillableOf(log[cursor..]));
      restored := true;
    }

    method ReserveDebts(carried: seq<Debt>)
      modifies balance`pendingSpend, balance`suspended
      ensures balance.pendingSpend == RestoreDebts(old(balance.pendingSpend), carried)
      ensures B.SuspendedSet(DebtTotals(carried), balance.suspendThreshold, balance.suspended)
    {
      for i := 0 to |carried|
        modifies balance`pendingSpend
        invariant balance.pendingSpend == RestoreDebts(old(balance.pendingSpend), carried[..i])
      {
        assert carried[..i + 1][..i] == carried[..i];
        balance.AddPendingSpend(carried[i].key.wallet, carried[i].usd);
      }
      assert carried[..|carried|] == carried;
      var totals := DebtByWallet(carried);
      var _ := balance.UpdateDebts(totals);
    }

    /** `Start` before its loop: finish the interrupted plan if the chain lets it, then
        reserve whatever is still unsettled, outstanding plan or not. */
    method Start(script: nat -> Reply) returns (resumed: bool)
      requires ShapeOk(View()) && stage == Open && !restored
      modifies this, balance
      ensures RunsTo(cfg, old(View()), View()) && ShapeOk(View()) && restored && stage == Open
      ensures resumed <==> wal.None?
      ensures Enabled(cfg, Resumed(old(View()), script), Restore) && View() == Apply(cfg, Resumed(old(View()), script), Restore)
    {
      ghost var s0 := View();
      resumed := ResumePending(script);
      WorkedKeeps(s0, script);
      ghost var s1 := View();
      RestorePendingSpend();
      RunsOne(cfg, s1, Restore, View());
      RunsOn(cfg, s0, s1, View());
      RunsToKeepsShape(cfg, s0, View());
    }
  }
}
