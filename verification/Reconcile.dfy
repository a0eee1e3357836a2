/** The billing reconciliation: an independent running total of everything billed, checked
    against what was settled and what is pending. */
module Reconcile {
  import opened Orders
  import opened Sums
  import opened Billing
  import opened Allocator
  import opened Aggregator
  import opened AggregatorLaws
  import opened RequestLog
  import opened Settlement
  import opened SettlementSafety
  import opened SettlementMoney
  import opened PendingLaw
  import B = Balances

  function ChargeOf(prices: Prices): Record -> real {
    (r: Record) => if Cost(prices, r) > 0.0 then Cost(prices, r) else 0.0
  }

  /** What the lines from `from` on are billed at. */
  function Since(prices: Prices, log: seq<Line>, from: nat): real {
    if from <= |log| then Sum(ChargeOf(prices), BillableOf(log[from..])) else 0.0
  }

  datatype RecState = RecState(initialized: bool, billed: real, count: nat, settledBase: real, pendingBase: real, debtBase: real)

  datatype Report = Report(billed: real, settled: real, pending: real, debt: real, drift: real, within: bool, count: nat)

  function Abs(x: real): real { if x < 0.0 then -x else x }

  method AddCosts(prices: Prices, records: seq<Record>, billed0: real, count0: nat) returns (billed: real, count: nat)
    ensures billed == billed0 + Sum(ChargeOf(prices), records)
  {
    billed, count := billed0, count0;
    for i := 0 to |records|
      invariant billed == billed0 + Sum(ChargeOf(prices), records[..i])
    {
      assert records[..i + 1][..i] == records[..i];
      var cost := Cost(prices, records[i]);
      if cost > 0.0 { billed, count := billed + cost, count + 1; }
    }
    assert records[..|records|] == records;
  }

  class Reconciler {
    const prices: Prices
    const tolerance: real
    var cursor: nat                 // its own cursor file
    var saved: RecState             // its state file
    var st: RecState
    ghost var start: nat            // where its first pass found the log

    constructor (prices: Prices, tolerance: real)
      ensures !st.initialized && st == saved && cursor == 0 && this.prices == prices && this.tolerance == tolerance
    {
      this.prices, this.tolerance := prices, tolerance;
      cursor, start := 0, 0;
      saved := RecState(false, 0.0, 0, 0.0, 0.0, 0.0);
      st := RecState(false, 0.0, 0, 0.0, 0.0, 0.0);
    }

    /** The running total covers exactly the log between the first pass and the cursor. */
    ghost predicate Tracks(log: seq<Line>)
      reads this
    {
      cursor <= |log| && (st.initialized ==> start <= cursor && st.billed == Sum(ChargeOf(prices), BillableOf(log[start..cursor])))
    }

    /** What the total comes to when it covers what was not read yet, too. */
    function Reading(log: seq<Line>): real
      reads this
    {
      st.billed + Since(prices, log, cursor)
    }

    /** The first half of a pass: everything after the cursor added to the total in memory, or
        the baseline taken. */
    method Accumulate(log: seq<Line>, settled: real, debt: real, pending: real)
      requires cursor <= |log|
      modifies this`st, this`start
      ensures st.initialized && (old(Tracks(log)) ==> start <= |log| && st.billed == Since(prices, log, start))
      ensures if old(st).initialized then start == old(start) && st.billed == old(Reading(log)) else start == |log| && st.billed == 0.0
      ensures if old(st).initialized
        then st.settledBase == old(st).settledBase && st.pendingBase == old(st).pendingBase && st.debtBase == old(st).debtBase
        else st.settledBase == settled && st.pendingBase == pending && st.debtBase == debt
    {
      var records := BillableOf(log[cursor..]);
      if !st.initialized {
        st := RecState(true, 0.0, st.count, settled, pending, debt);
        start := |log|;
        assert log[|log|..] == [];
      } else {
        if start <= cursor { WindowJoins(log, start, cursor); }
        var billed, count := AddCosts(prices, records, st.billed, st.count);
        st := st.(billed := billed, count := count);
      }
    }

    /** One pass over a log that has only grown since the last: cursor first, then the state. */
    method Run(log: seq<Line>, settled: real, debt: real, pending: real) returns (rep: Report)
      requires cursor <= |log|
      modifies this
      ensures old(Tracks(log)) ==> Tracks(log) && rep.billed == Since(prices, log, start)
      ensures st.initialized && saved == st && cursor == |log| && rep.billed == st.billed
      ensures if old(st).initialized then start == old(start) && st.billed == old(Reading(log)) else start == |log| && st.billed == 0.0
      ensures if old(st).initialized
        then st.settledBase == old(st).settledBase && st.pendingBase == old(st).pendingBase
        else st.settledBase == settled && st.pendingBase == pending && st.debtBase == debt
      ensures rep.drift == rep.billed - ((settled - st.settledBase) + (pending - st.pendingBase))
      ensures rep.within <==> Abs(rep.drift) <= tolerance
      ensures rep.settled == settled - st.settledBase && rep.pending == pending - st.pendingBase && rep.debt == debt - st.debtBase
    {
      Accumulate(log, settled, debt, pending);
      cursor := |log|;
      saved := st;
      if start <= |log| { assert log[start..|log|] == log[start..]; }
      var settledDelta, pendingDelta := settled - st.settledBase, pending - st.pendingBase;
      var drift := st.billed - (settledDelta + pendingDelta);
      rep := Report(st.billed, settledDelta, pendingDelta, debt - st.debtBase, drift, Abs(drift) <= tolerance, st.count);
    }

    /** A pass cut short between its two writes, and the start of the next process: the cursor
        is committed, the total in memory is gone and the saved one loaded. The total is then
        right exactly if no baseline was taken yet or what was just read costs nothing. */
    method TornRun(log: seq<Line>, settled: real, debt: real, pending: real)
      requires Tracks(log) && saved == st
      modifies this
      ensures st == saved == old(saved) && cursor == |log| && start == old(start)
      ensures Tracks(log) <==> !st.initialized || Since(prices, log, old(cursor)) == 0.0
      ensures st.initialized ==> start <= |log| && Since(prices, log, start) == st.billed + Since(prices, log, old(cursor))
    {
      ghost var from := start;
      if st.initialized { WindowJoins(log, start, cursor); }
      Accumulate(log, settled, debt, pending);
      cursor := |log|;
      st := saved;
      start := from;
      if start <= |log| { assert log[start..|log|] == log[start..]; }
    }

    lemma WindowJoins(log: seq<Line>, a: nat, b: nat)
      requires a <= b <= |log|
      ensures Sum(ChargeOf(prices), BillableOf(log[a..])) ==
        Sum(ChargeOf(prices), BillableOf(log[a..b])) + Sum(ChargeOf(prices), BillableOf(log[b..]))
    {
      assert log[a..] == log[a..b] + log[b..];
      BillableConcat(log[a..b], log[b..]);
      SumConcat(ChargeOf(prices), BillableOf(log[a..b]), BillableOf(log[b..]));
    }
  }

  /** A torn pass and the next whole one. After the first pass the next report falls short
      by exactly what the torn pass read, the opposite of counting it twice; torn in the first
      pass nothing is lost, because the next one takes the baseline again. */
  method CrashBetweenCommitAndSave(rc: Reconciler, log: seq<Line>, more: seq<Line>, settled: real, debt: real, pending: real)
    returns (rep: Report)
    requires rc.Tracks(log) && rc.saved == rc.st
    modifies rc
    ensures old(rc.st).initialized ==>
      rep.billed == Since(rc.prices, log + more, rc.start) - Since(rc.prices, log, old(rc.cursor))
    ensures !old(rc.st).initialized ==> rc.Tracks(log + more) && rep.billed == Since(rc.prices, log + more, rc.start)
  {
    rc.TornRun(log, settled, debt, pending);
    ghost var start, initialized := rc.start, rc.st.initialized;
    rep := rc.Run(log + more, settled, debt, pending);
    assert (log + more)[|log|..] == more;
    if initialized {
      assert (log + more)[start..] == log[start..] + more;
      BillableConcat(log[start..], more);
      SumConcat(ChargeOf(rc.prices), BillableOf(log[start..]), BillableOf(more));
    }
  }

  // ---- Totals over all wallets ----

  /** A function that vanishes off a duplicate-free list sums the same over any larger one. */
  lemma {:induction false} SumSupport(f: string -> real, all: seq<string>, some: seq<string>)
    requires Distinct(all) && Distinct(some) && (forall x | x in some :: x in all)
    requires forall x | x in all && x !in some :: f(x) == 0.0
    ensures Sum(f, all) == Sum(f, some)
    decreases |some|
  {
    if some == [] {
      SumZero(f, all);
    } else {
      var n := |some| - 1;
      var x := some[n];
      assert some == some[..n] + [x];
      assert x in some && x in all;
      var i :| 0 <= i < |all| && all[i] == x;
      var rest := all[..i] + all[i + 1..];
      SumRemove(f, all, i);
      WithoutOne(all, i);
      SumSupport(f, rest, some[..n]);
    }
  }

  lemma WithoutOne(all: seq<string>, i: nat)
    requires i < |all| && Distinct(all)
    ensures var rest := all[..i] + all[i + 1..]; Distinct(rest) && forall x :: x in rest <==> x in all && x != all[i]
  {
    var rest := all[..i] + all[i + 1..];
    assert all == all[..i] + [all[i]] + all[i + 1..];
    forall x ensures x in rest <==> x in all && x != all[i] {
      if x in rest {
        var j :| 0 <= j < |rest| && rest[j] == x;
        assert x == if j < i then all[j] else all[j + 1];
      }
    }
  }

  lemma {:induction false} MapSumOver(p: map<string, real>, wallets: seq<string>)
    requires Distinct(wallets) && forall w | w in p :: w in wallets
    ensures Sum(B.MapSumTerm(p), wallets) == B.MapSum(p)
  {
    var keys := Enumerate(p.Keys);
    SetListDistinct(keys, p.Keys);
    forall w ensures w in keys <==> w in p { assert w in keys <==> w in multiset(keys); }
    SumSupport(B.MapSumTerm(p), wallets, keys);
  }

  function CostTerm(cfg: Config, records: seq<Record>): string -> real { (w: string) => Sum(CostBy(cfg, w), records) }

  function CostOf(cfg: Config): Record -> real { (r: Record) => Cost(cfg.prices, r) }

  lemma {:induction false} CostOver(cfg: Config, records: seq<Record>, wallets: seq<string>)
    requires Distinct(wallets) && forall r | r in records :: r.wallet in wallets
    ensures Sum(CostTerm(cfg, records), wallets) == Sum(CostOf(cfg), records)
    decreases |records|
  {
    if records == [] {
      SumZero(CostTerm(cfg, records), wallets);
    } else {
      var n := |records| - 1;
      assert records == records[..n] + [records[n]];
      CostOver(cfg, records[..n], wallets);
      forall w ensures CostTerm(cfg, records)(w) == CostTerm(cfg, records[..n])(w) + if w == records[n].wallet then Cost(cfg.prices, records[n]) else 0.0 {}
      SumBump(CostTerm(cfg, records), CostTerm(cfg, records[..n]), wallets, records[n].wallet, Cost(cfg.prices, records[n]));
    }
  }

  function ReservedTerm(tickets: seq<Ticket>): string -> real { (w: string) => Sum(ReservedBy(w), tickets) }

  function EstimateOf(): Ticket -> real { (t: Ticket) => t.est }

  lemma {:induction false} ReservedOver(tickets: seq<Ticket>, wallets: seq<string>)
    requires Distinct(wallets) && forall t | t in tickets :: t.wallet in wallets
    ensures Sum(ReservedTerm(tickets), wallets) == Sum(EstimateOf(), tickets)
    decreases |tickets|
  {
    if tickets == [] {
      SumZero(ReservedTerm(tickets), wallets);
    } else {
      var n := |tickets| - 1;
      assert tickets == tickets[..n] + [tickets[n]];
      ReservedOver(tickets[..n], wallets);
      SumBump(ReservedTerm(tickets), ReservedTerm(tickets[..n]), wallets, tickets[n].wallet, tickets[n].est);
    }
  }

  function PaidTerm(rounds: seq<Round>): string -> real { (w: string) => Sum(RoundPaid(w), rounds) }

  lemma {:induction false} PaidOver(rounds: seq<Round>, wallets: seq<string>)
    requires Distinct(wallets) && forall r, w | r in rounds && w in r.wal.books.settled :: w in wallets
    ensures Sum(PaidTerm(rounds), wallets) == Sum(RoundUSD(), rounds)
    decreases |rounds|
  {
    if rounds == [] {
      SumZero(PaidTerm(rounds), wallets);
    } else {
      var n := |rounds| - 1;
      var settled := rounds[n].wal.books.settled;
      assert rounds == rounds[..n] + [rounds[n]];
      PaidOver(rounds[..n], wallets);
      MapSumOver(settled, wallets);
      SumPlus(PaidTerm(rounds), PaidTerm(rounds[..n]), B.MapSumTerm(settled), wallets);
    }
  }

  lemma {:induction false} SumPlus(f: string -> real, g: string -> real, h: string -> real, s: seq<string>)
    requires forall x :: f(x) == g(x) + h(x)
    ensures Sum(f, s) == Sum(g, s) + Sum(h, s)
    decreases |s|
  {
    if s != [] { SumPlus(f, g, h, s[..|s| - 1]); }
  }

  /** Everyone who appears in the books. */
  ghost predicate AllWallets(s: State, wallets: seq<string>) {
    && Distinct(wallets)
    && (forall r | r in BillableOf(s.log) :: r.wallet in wallets)
    && (forall r | r in s.stranded :: r.wallet in wallets)
    && (forall t | t in s.inflight :: t.wallet in wallets)
    && (forall w | w in s.pending :: w in wallets)
    && (forall r, w | r in s.done && w in r.wal.books.settled :: w in wallets)
    && (s.wal.Some? ==> forall w | w in s.wal.value.books.settled :: w in wallets)
  }

  function HeldTerm(cfg: Config, s: State): string -> real { (w: string) => Held(cfg, s, w) }

  function Slack(p: B.Pending, c: real): string -> real { (w: string) => B.PendingOf(p, w) + c }

  lemma {:induction false} SumConstant(f: string -> real, g: string -> real, c: real, s: seq<string>)
    requires forall x :: f(x) == g(x) + c
    ensures Sum(f, s) == Sum(g, s) + c * |s| as real
    decreases |s|
  {
    if s != [] {
      SumConstant(f, g, c, s[..|s| - 1]);
      assert c * |s| as real == c * (|s| - 1) as real + c;
    }
  }

  /** The outstanding plan, once it has been taken off pending. */
  function Reducing(s: State): map<string, real> { if PlanReduced(s) then s.wal.value.books.settled else map[] }

  lemma {:induction false} HeldOver(cfg: Config, s: State, wallets: seq<string>)
    requires AllWallets(s, wallets)
    ensures Sum(HeldTerm(cfg, s), wallets) ==
      Sum(EstimateOf(), s.inflight) + Sum(CostOf(cfg), BillableOf(s.log)) - Sum(RoundUSD(), s.done) - B.MapSum(Reducing(s))
      + Sum(CostOf(cfg), s.stranded)
  {
    CostOver(cfg, BillableOf(s.log), wallets);
    CostOver(cfg, s.stranded, wallets);
    ReservedOver(s.inflight, wallets);
    PaidOver(s.done, wallets);
    MapSumOver(Reducing(s), wallets);
    HeldSplits(cfg, s, wallets);
  }

  lemma {:induction false} HeldSplits(cfg: Config, s: State, wallets: seq<string>)
    ensures Sum(HeldTerm(cfg, s), wallets) ==
      Sum(ReservedTerm(s.inflight), wallets) + Sum(CostTerm(cfg, BillableOf(s.log)), wallets) - Sum(PaidTerm(s.done), wallets)
      - Sum(B.MapSumTerm(Reducing(s)), wallets) + Sum(CostTerm(cfg, s.stranded), wallets)
    decreases |wallets|
  {
    if wallets != [] { HeldSplits(cfg, s, wallets[..|wallets| - 1]); }
  }

  /** What pending holds and a reconciliation does not see: in-flight estimates and the usage
      of streamed error replies. */
  function Unseen(cfg: Config, s: State): real { Sum(EstimateOf(), s.inflight) + Sum(CostOf(cfg), s.stranded) }

  /** Between its two memory and disk updates a plan is off pending and not yet in the total. */
  ghost function Underway(s: State): real { if s.wal.Some? && s.stage == Reduced then B.MapSum(s.wal.value.books.settled) else 0.0 }

  /** The unseen plus everything billed, less everything settled, less pending, less what is
      underway between the two. */
  ghost function Gap(cfg: Config, s: State): real {
    Unseen(cfg, s) + Sum(CostOf(cfg), BillableOf(s.log)) - s.total.usd - B.MapSum(s.pending) - Underway(s)
  }

  /** While pending is restored, a plan is counted in the total only after it was taken off. */
  ghost predicate CountedLast(s: State) {
    s.restored && s.wal.Some? && s.total.lastWal == s.wal.value.createdAt ==> s.stage == Counted || s.stage == DebtsSaved
  }

  lemma CountedStep(cfg: Config, s: State, e: Event)
    requires ShapeOk(s) && TotalsOk(s) && CountedLast(s) && Enabled(cfg, s, e)
    ensures CountedLast(Apply(cfg, s, e))
  {
  }

  lemma {:induction false} RunsCountLast(cfg: Config, s: State, events: seq<Event>, t: State)
    requires Safe(s) && CountedLast(s) && RunsGently(cfg, s, events, t)
    ensures CountedLast(t)
    decreases |events|
  {
    if events != [] {
      CountedStep(cfg, s, events[0]);
      SafeStep(cfg, s, events[0]);
      RunsCountLast(cfg, Apply(cfg, s, events[0]), events[1..], t);
    }
  }

  lemma TotalBesides(s: State)
    requires ShapeOk(s) && TotalsOk(s) && CountedLast(s) && s.restored
    ensures s.total.usd + Underway(s) == Sum(RoundUSD(), s.done) + B.MapSum(Reducing(s))
  {
    NothingSummed();
  }

  lemma NothingSummed()
    ensures B.MapSum(map[]) == 0.0
  {
    var keys := Enumerate<string>({});
    assert |keys| == |multiset(keys)| == 0;
  }

  lemma {:induction false} HeldBelow(cfg: Config, s: State, wallets: seq<string>, c: real)
    requires forall w :: Held(cfg, s, w) <= B.PendingOf(s.pending, w) + c
    ensures Sum(HeldTerm(cfg, s), wallets) <= Sum(B.MapSumTerm(s.pending), wallets) + c * |wallets| as real
  {
    SumAtMost(HeldTerm(cfg, s), Slack(s.pending, c), wallets);
    SumConstant(Slack(s.pending, c), B.MapSumTerm(s.pending), c, wallets);
  }

  lemma BalanceWithin(cfg: Config, s: State, wallets: seq<string>, c: real)
    requires ShapeOk(s) && TotalsOk(s) && CountedLast(s) && s.restored && AllWallets(s, wallets)
    requires forall w :: B.PendingOf(s.pending, w) <= Held(cfg, s, w) <= B.PendingOf(s.pending, w) + c
    ensures 0.0 <= Gap(cfg, s) <= c * |wallets| as real
  {
    HeldOver(cfg, s, wallets);
    TotalBesides(s);
    MapSumOver(s.pending, wallets);
    SumAtMost(B.MapSumTerm(s.pending), HeldTerm(cfg, s), wallets);
    HeldBelow(cfg, s, wallets, c);
  }

  /** What every gentle run keeps of the books. */
  ghost predicate InLaw(cfg: Config, s: State) {
    ShapeOk(s) && TotalsOk(s) && CountedLast(s) && Lawful(cfg, s) && MeteredRecords(BillableOf(s.log))
  }

  lemma {:induction false} GentleInLaw(cfg: Config, s: State, events: seq<Event>, t: State)
    requires Steady(cfg, s) && CountedLast(s) && PricesNonNegative(cfg.prices) && RunsGently(cfg, s, events, t)
    ensures Steady(cfg, t) && InLaw(cfg, t)
  {
    GentleRuns(cfg, s, events, t);
    RunsCountLast(cfg, s, events, t);
  }

  lemma {:induction false} BothInLaw(cfg: Config, events: seq<Event>, s: State, later: seq<Event>, t: State)
    requires PricesNonNegative(cfg.prices) && RunsGently(cfg, Initial(), events, s) && RunsGently(cfg, s, later, t)
    ensures InLaw(cfg, s) && InLaw(cfg, t)
  {
    InitiallySteady(cfg);
    GentleInLaw(cfg, Initial(), events, s);
    GentleInLaw(cfg, s, later, t);
  }

  /** The whole system's books balance, up to the dust cut off per wallet, whatever plan is
      outstanding. */
  lemma SystemBalance(cfg: Config, s: State, wallets: seq<string>)
    requires InLaw(cfg, s) && s.restored && AllWallets(s, wallets)
    ensures 0.0 <= Gap(cfg, s) <= DustBound(s) * |wallets| as real
  {
    BalanceWithin(cfg, s, wallets, DustBound(s));
  }

  lemma {:induction false} RunsLogGrows(cfg: Config, s: State, events: seq<Event>, t: State)
    requires RunsGently(cfg, s, events, t)
    ensures s.log <= t.log
    decreases |events|
  {
    if events != [] { RunsLogGrows(cfg, Apply(cfg, s, events[0]), events[1..], t); }
  }

  lemma {:induction false} ChargesAreCosts(cfg: Config, records: seq<Record>)
    requires PricesNonNegative(cfg.prices) && MeteredRecords(records)
    ensures Sum(ChargeOf(cfg.prices), records) == Sum(CostOf(cfg), records)
  {
    forall r | r in records ensures ChargeOf(cfg.prices)(r) == CostOf(cfg)(r) { CostNonNegative(cfg.prices, r); }
    SumEqual(ChargeOf(cfg.prices), CostOf(cfg), records);
  }

  /** What a reconciliation baselined in `s` and run in `t` reports as drift. */
  ghost function DriftBetween(cfg: Config, s: State, t: State): real {
    Since(cfg.prices, t.log, |s.log|) - ((t.total.usd - s.total.usd) + (B.MapSum(t.pending) - B.MapSum(s.pending)))
  }

  /** What such a drift does not mean: in-flight estimates, stranded usage, plans underway. */
  ghost function Excused(cfg: Config, s: State): real { Underway(s) - Unseen(cfg, s) }

  /** The reconciliation equation. Baselined in one state and run in any later one, with or
      without an outstanding plan, the drift is the change in in-flight estimates and stranded
      usage and in what a plan has off pending but not yet in the total, to within the dust of
      each wallet: without those, billed = settled + pending. */
  lemma {:induction false} DriftIsDust(cfg: Config, events: seq<Event>, s: State, later: seq<Event>, t: State, wallets: seq<string>)
    requires PricesNonNegative(cfg.prices)
    requires RunsGently(cfg, Initial(), events, s) && s.restored && AllWallets(s, wallets)
    requires RunsGently(cfg, s, later, t) && t.restored && AllWallets(t, wallets)
    ensures s.log <= t.log
    ensures -DustBound(s) * |wallets| as real
      <= DriftBetween(cfg, s, t) - (Excused(cfg, t) - Excused(cfg, s)) <= DustBound(t) * |wallets| as real
  {
    BothInLaw(cfg, events, s, later, t);
    SystemBalance(cfg, s, wallets);
    SystemBalance(cfg, t, wallets);
    RunsLogGrows(cfg, s, later, t);
    BilledSince(cfg, s.log, t.log);
  }

  // ---- The reconciler in a running system ----

  /** Baselined in `s`, and since then run over the log up to its cursor. */
  ghost predicate Baselined(rc: Reconciler, cfg: Config, s: State, log: seq<Line>)
    reads rc
  {
    && rc.prices == cfg.prices && rc.st.initialized && rc.Tracks(log) && rc.start == |s.log|
    && rc.st.settledBase == s.total.usd && rc.st.pendingBase == B.MapSum(s.pending)
  }

  /** The figures a pass is given in `s`. */
  ghost predicate Observed(s: State, log: seq<Line>, settled: real, pending: real) {
    log == s.log && settled == s.total.usd && pending == B.MapSum(s.pending)
  }

  method TakeBaseline(rc: Reconciler, cfg: Config, ghost s: State, log: seq<Line>, settled: real, debt: real, pending: real) returns (rep: Report)
    requires rc.prices == cfg.prices && !rc.st.initialized && rc.cursor <= |log| && Observed(s, log, settled, pending)
    modifies rc
    ensures Baselined(rc, cfg, s, s.log) && rep.drift == 0.0
  {
    rep := rc.Run(log, settled, debt, pending);
  }

  method LaterPass(rc: Reconciler, cfg: Config, ghost seen: seq<Line>, ghost s: State, ghost t: State,
                   log: seq<Line>, settled: real, debt: real, pending: real) returns (rep: Report)
    requires Baselined(rc, cfg, s, seen) && seen <= t.log && s.log <= t.log && Observed(t, log, settled, pending)
    modifies rc
    ensures Baselined(rc, cfg, s, t.log) && rep.drift == DriftBetween(cfg, s, t)
  {
    assert log[rc.start..rc.cursor] == seen[rc.start..rc.cursor];
    rep := rc.Run(log, settled, debt, pending);
  }

  /** Every later pass, however many came before it, reports a drift within the dust but for
      what is excused. */
  method PassInRun(rc: Reconciler, cfg: Config, ghost seen: seq<Line>, ghost events: seq<Event>, ghost s: State, ghost later: seq<Event>, ghost t: State,
                   ghost wallets: seq<string>, log: seq<Line>, settled: real, debt: real, pending: real) returns (rep: Report)
    requires Baselined(rc, cfg, s, seen) && seen <= t.log && Observed(t, log, settled, pending) && PricesNonNegative(cfg.prices)
    requires RunsGently(cfg, Initial(), events, s) && s.restored && AllWallets(s, wallets)
    requires RunsGently(cfg, s, later, t) && t.restored && AllWallets(t, wallets)
    modifies rc
    ensures Baselined(rc, cfg, s, t.log)
    ensures -DustBound(s) * |wallets| as real
      <= rep.drift - (Excused(cfg, t) - Excused(cfg, s)) <= DustBound(t) * |wallets| as real
  {
    DriftIsDust(cfg, events, s, later, t, wallets);
    rep := LaterPass(rc, cfg, seen, s, t, log, settled, debt, pending);
  }

  lemma {:induction false} BilledSince(cfg: Config, before: seq<Line>, after: seq<Line>)
    requires PricesNonNegative(cfg.prices) && before <= after && MeteredRecords(BillableOf(after))
    ensures Sum(ChargeOf(cfg.prices), BillableOf(after[|before|..])) ==
      Sum(CostOf(cfg), BillableOf(after)) - Sum(CostOf(cfg), BillableOf(before))
  {
    var since := after[|before|..];
    assert after == before + since;
    BillableConcat(before, since);
    SumConcat(CostOf(cfg), BillableOf(before), BillableOf(since));
    TailMetered(after, |before|);
    ChargesAreCosts(cfg, BillableOf(since));
  }
}
