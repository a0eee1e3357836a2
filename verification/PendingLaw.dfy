/** Pending-spend conservation: in every reachable state a wallet's pending spend is its
    in-flight reservations, plus everything billed and not yet settled (unsettled records,
    dead letters and debt alike), plus the usage of streamed error replies that settlement
    never bills, up to the dust each settlement may cut off. */
module PendingLaw {
  import opened Sums
  import opened Billing
  import opened Allocator
  import opened Aggregator
  import opened AggregatorLaws
  import opened RequestLog
  import opened Settlement
  import opened SettlementSafety
  import opened SettlementMoney
  import B = Balances

  function ReservedBy(w: string): Ticket -> real { (t: Ticket) => if t.wallet == w then t.est else 0.0 }

  function Reserved(s: State, w: string): real { Sum(ReservedBy(w), s.inflight) }

  function Billed(cfg: Config, s: State, w: string): real { Sum(CostBy(cfg, w), BillableOf(s.log)) }

  predicate PlanReduced(s: State) { s.wal.Some? && s.stage != Open && s.stage != CursorCommitted }

  /** What has been taken off pending spend so far. */
  function PaidOff(s: State, w: string): real {
    Sum(RoundPaid(w), s.done) + if PlanReduced(s) then PlanSettled(s, w) else 0.0
  }

  function Exact(cfg: Config, s: State, w: string): real { Reserved(s, w) + Billed(cfg, s, w) - PaidOff(s, w) }

  /** Usage kept on the reservation that no record will ever settle. */
  function Stranded(cfg: Config, s: State, w: string): real { Sum(CostBy(cfg, w), s.stranded) }

  function Held(cfg: Config, s: State, w: string): real { Exact(cfg, s, w) + Stranded(cfg, s, w) }

  /** Amounts deleted by the cutoff so far are each below it. */
  function DustBound(s: State): real { s.cuts as real * B.DUST_CUTOFF }

  ghost predicate Lawful(cfg: Config, s: State) {
    s.restored ==> forall w :: B.PendingOf(s.pending, w) <= Held(cfg, s, w) <= B.PendingOf(s.pending, w) + DustBound(s)
  }

  ghost predicate TicketsOk(s: State) {
    (forall t | t in s.inflight :: t.est >= 0.0 && t.wallet != "") && MeteredRecords(s.stranded)
  }

  /** The books as they stood when the outstanding plan was made. */
  ghost predicate BeforePlan(cfg: Config, s: State, w: string) {
    s.wal.Some? && s.round.Some? && s.round.value.start <= |s.log| &&
    Sum(CostBy(cfg, w), BillableOf(s.log[..s.round.value.start])) ==
      Sum(RoundPaid(w), s.done) + Sum(DebtBy(w), s.debts) + Sum(CostBy(cfg, w), s.round.value.retried)
  }

  ghost predicate BeforePlanOk(cfg: Config, s: State) {
    s.wal.Some? && !AllConfirmed(s.wal.value) ==> forall w :: BeforePlan(cfg, s, w)
  }

  // ---- What is owed ----

  lemma BilledSplit(cfg: Config, s: State, at: nat, w: string)
    requires at <= |s.log|
    ensures Billed(cfg, s, w) == Sum(CostBy(cfg, w), BillableOf(s.log[..at])) + Sum(CostBy(cfg, w), BillableOf(s.log[at..]))
  {
    assert s.log == s.log[..at] + s.log[at..];
    BillableConcat(s.log[..at], s.log[at..]);
    SumConcat(CostBy(cfg, w), BillableOf(s.log[..at]), BillableOf(s.log[at..]));
  }

  /** Billed and not paid off is exactly: unplanned records, dead letters, debt, and, until the
      plan has been taken off pending, what it settles. */
  lemma OwedBreakdown(cfg: Config, s: State, w: string)
    requires Conserved(cfg, s, w)
    ensures Billed(cfg, s, w) - PaidOff(s, w) ==
      Sum(CostBy(cfg, w), BillableOf(s.log[PlannedTo(s)..])) + Sum(CostBy(cfg, w), s.dead) + Sum(DebtBy(w), Outstanding(s))
      + if PlanReduced(s) then 0.0 else PlanSettled(s, w)
  {
    BilledSplit(cfg, s, PlannedTo(s), w);
  }

  lemma {:induction false} CostsOfMetered(cfg: Config, records: seq<Record>, w: string)
    requires PricesNonNegative(cfg.prices) && MeteredRecords(records)
    ensures Sum(CostBy(cfg, w), records) >= 0.0
  {
    forall r | r in records ensures CostBy(cfg, w)(r) >= 0.0 { CostNonNegative(cfg.prices, r); }
    SumNonNegative(CostBy(cfg, w), records);
  }

  lemma {:induction false} TailMetered(lines: seq<Line>, at: nat)
    requires at <= |lines| && MeteredRecords(BillableOf(lines))
    ensures MeteredRecords(BillableOf(lines[at..]))
  {
    assert lines == lines[..at] + lines[at..];
    BillableConcat(lines[..at], lines[at..]);
    forall r | r in BillableOf(lines[at..]) ensures Metered(r) { assert r in BillableOf(lines); }
  }

  /** Nothing is ever over-settled: what remains owed is never negative. */
  lemma OwedNonNegative(cfg: Config, s: State, w: string)
    requires MoneyOk(cfg, s) && PricesNonNegative(cfg.prices)
    ensures Billed(cfg, s, w) - PaidOff(s, w) >= if !PlanReduced(s) && s.wal.Some? then PlanSettled(s, w) else 0.0
    ensures PlanSettled(s, w) >= 0.0
  {
    assert Conserved(cfg, s, w);
    OwedBreakdown(cfg, s, w);
    TailMetered(s.log, PlannedTo(s));
    CostsOfMetered(cfg, BillableOf(s.log[PlannedTo(s)..]), w);
    CostsOfMetered(cfg, s.dead, w);
    SumNonNegative(DebtBy(w), Outstanding(s));
  }

  lemma ReservedNonNegative(s: State, w: string)
    requires TicketsOk(s)
    ensures Reserved(s, w) >= 0.0
  {
    SumNonNegative(ReservedBy(w), s.inflight);
  }

  // ---- Steps ----

  lemma ReserveLaw(cfg: Config, s: State, t: Ticket)
    requires Lawful(cfg, s) && Enabled(cfg, s, Reserve(t))
    ensures Lawful(cfg, Apply(cfg, s, Reserve(t)))
  {
    var after := Apply(cfg, s, Reserve(t));
    forall w ensures Held(cfg, after, w) == Held(cfg, s, w) + if w == t.wallet then t.est else 0.0 {
      SumAppend(ReservedBy(w), s.inflight, t);
    }
  }

  /** What a finished request changes in what is owed: the reservation goes and, if its line is
      billable, its cost comes. */
  lemma CompleteExact(cfg: Config, s: State, i: nat, l: Line, streamed: bool, w: string)
    requires Enabled(cfg, s, Complete(i, l, streamed))
    ensures var t := s.inflight[i];
      Exact(cfg, Apply(cfg, s, Complete(i, l, streamed)), w) == Exact(cfg, s, w) + if w == t.wallet then CostOfLine(cfg, l) - t.est else 0.0
  {
    SumRemove(ReservedBy(w), s.inflight, i);
    assert (s.log + [l])[..|s.log|] == s.log;
    if BillableLine(l) { SumAppend(CostBy(cfg, w), BillableOf(s.log), l.rec.value); } else { assert BillableOf(s.log) + [] == BillableOf(s.log); }
  }

  lemma CompleteStrands(cfg: Config, s: State, i: nat, l: Line, streamed: bool, w: string)
    requires Enabled(cfg, s, Complete(i, l, streamed))
    ensures Stranded(cfg, Apply(cfg, s, Complete(i, l, streamed)), w) == Stranded(cfg, s, w)
      + if w == s.inflight[i].wallet && Strands(streamed, l.rec.value) then Cost(cfg.prices, l.rec.value) else 0.0
  {
    if Strands(streamed, l.rec.value) { SumAppend(CostBy(cfg, w), s.stranded, l.rec.value); } else { assert s.stranded + [] == s.stranded; }
  }

  lemma CompleteHeld(cfg: Config, s: State, i: nat, l: Line, streamed: bool, w: string)
    requires TicketsOk(s) && Enabled(cfg, s, Complete(i, l, streamed))
    ensures var t := s.inflight[i];
      Held(cfg, Apply(cfg, s, Complete(i, l, streamed)), w) ==
        Held(cfg, s, w) + if w == t.wallet then ChargeOfLine(cfg, l, streamed) - t.est else 0.0
  {
    CompleteExact(cfg, s, i, l, streamed, w);
    CompleteStrands(cfg, s, i, l, streamed, w);
    assert s.inflight[i] in s.inflight;
  }

  lemma StrandedNonNegative(cfg: Config, s: State, w: string)
    requires TicketsOk(s) && PricesNonNegative(cfg.prices)
    ensures Stranded(cfg, s, w) >= 0.0
  {
    CostsOfMetered(cfg, s.stranded, w);
  }

  lemma CompleteLaw(cfg: Config, s: State, i: nat, l: Line, streamed: bool)
    requires Safe(s) && MoneyOk(cfg, s) && PricesNonNegative(cfg.prices) && TicketsOk(s) && Lawful(cfg, s)
    requires Enabled(cfg, s, Complete(i, l, streamed)) && Gentle(cfg, s, Complete(i, l, streamed))
    ensures Lawful(cfg, Apply(cfg, s, Complete(i, l, streamed)))
  {
    var after := Apply(cfg, s, Complete(i, l, streamed));
    MoneyStep(cfg, s, Complete(i, l, streamed));
    TicketsStep(cfg, s, Complete(i, l, streamed));
    forall w | s.restored ensures B.PendingOf(after.pending, w) <= Held(cfg, after, w) <= B.PendingOf(after.pending, w) + DustBound(after) {
      CompleteHeld(cfg, s, i, l, streamed, w);
      HeldNonNegative(cfg, after, w);
    }
  }

  lemma HeldNonNegative(cfg: Config, s: State, w: string)
    requires MoneyOk(cfg, s) && PricesNonNegative(cfg.prices) && TicketsOk(s)
    ensures Held(cfg, s, w) >= Reserved(s, w) >= 0.0
  {
    OwedNonNegative(cfg, s, w);
    ReservedNonNegative(s, w);
    StrandedNonNegative(cfg, s, w);
  }

  lemma ReleaseHeld(cfg: Config, s: State, i: nat, w: string)
    requires Enabled(cfg, s, Release(i))
    ensures Held(cfg, Apply(cfg, s, Release(i)), w) == Held(cfg, s, w) - if w == s.inflight[i].wallet then s.inflight[i].est else 0.0
  {
    SumRemove(ReservedBy(w), s.inflight, i);
  }

  lemma ReleaseLaw(cfg: Config, s: State, i: nat)
    requires Safe(s) && MoneyOk(cfg, s) && PricesNonNegative(cfg.prices) && TicketsOk(s) && Lawful(cfg, s)
    requires Enabled(cfg, s, Release(i)) && Gentle(cfg, s, Release(i))
    ensures Lawful(cfg, Apply(cfg, s, Release(i)))
  {
    var after := Apply(cfg, s, Release(i));
    MoneyStep(cfg, s, Release(i));
    TicketsStep(cfg, s, Release(i));
    forall w | s.restored ensures B.PendingOf(after.pending, w) <= Held(cfg, after, w) <= B.PendingOf(after.pending, w) + DustBound(after) {
      ReleaseHeld(cfg, s, i, w);
      HeldNonNegative(cfg, after, w);
    }
  }

  /** With its reservation on the entry, a finished request keeps the distance between what is
      owed and what is pending exactly unless it is a streamed reply with tokens, a status
      other than 200 and no error reason; then its cost stays pending and is owed by no record. */
  lemma CompleteKeepsDistance(cfg: Config, s: State, i: nat, l: Line, streamed: bool)
    requires TicketsOk(s) && Enabled(cfg, s, Complete(i, l, streamed)) && s.inflight[i].wallet in s.pending
    requires s.pending[s.inflight[i].wallet] + ChargeOfLine(cfg, l, streamed) >= s.inflight[i].est
    ensures var w, after, r := s.inflight[i].wallet, Apply(cfg, s, Complete(i, l, streamed)), l.rec.value;
      var distance, before := B.PendingOf(after.pending, w) - Exact(cfg, after, w), B.PendingOf(s.pending, w) - Exact(cfg, s, w);
      && (distance == before <==> !Strands(streamed, r) || Cost(cfg.prices, r) == 0.0)
      && (Strands(streamed, r) ==> distance == before + Cost(cfg.prices, r))
  {
    CompleteExact(cfg, s, i, l, streamed, s.inflight[i].wallet);
    assert s.inflight[i] in s.inflight;
  }

  /** The failing input: one streamed reply with usage and, say, a 400. Nothing is in flight,
      nothing billed, nothing owed, yet its whole cost stays pending. */
  lemma {:induction false} StreamedErrorStrands(cfg: Config, t: Ticket, l: Line)
    requires t.est >= 0.0 && t.wallet != "" && PricesNonNegative(cfg.prices)
    requires l.bytes > 0 && l.rec.Some? && l.rec.value.wallet == t.wallet && Metered(l.rec.value) && Strands(true, l.rec.value)
    ensures var s := Apply(cfg, Initial(), Reserve(t));
      && Runs(cfg, Initial(), [Reserve(t), Complete(0, l, true)], Apply(cfg, s, Complete(0, l, true)))
      && (var after := Apply(cfg, s, Complete(0, l, true));
          && after.inflight == [] && BillableOf(after.log) == [] && after.debts == [] && after.dead == [] && after.wal.None?
          && B.PendingOf(after.pending, t.wallet) == Cost(cfg.prices, l.rec.value) && Exact(cfg, after, t.wallet) == 0.0)
  {
    var s := Apply(cfg, Initial(), Reserve(t));
    var e := Complete(0, l, true);
    var after := Apply(cfg, s, e);
    assert [Reserve(t), e][1..] == [e] && [e][1..] == [] && Runs(cfg, after, [], after);
    assert Runs(cfg, s, [e], after);
    assert s.inflight == [t] && s.log == [] && after.log == [l];
    assert after.log[..0] == [] && BillableOf([]) == [];
    CostNonNegative(cfg.prices, l.rec.value);
  }

  /** An adjustment that finds no pending entry leaves pending spend alone: the distance from
      the held amount is kept exactly when the estimate was the final charge. */
  lemma AdjustWithoutEntry(cfg: Config, s: State, i: nat, l: Line, streamed: bool)
    requires TicketsOk(s) && Enabled(cfg, s, Complete(i, l, streamed)) && s.inflight[i].wallet !in s.pending
    ensures var t, after := s.inflight[i], Apply(cfg, s, Complete(i, l, streamed));
      Held(cfg, after, t.wallet) - B.PendingOf(after.pending, t.wallet) == Held(cfg, s, t.wallet) - B.PendingOf(s.pending, t.wallet)
      <==> t.est == ChargeOfLine(cfg, l, streamed)
  {
    CompleteHeld(cfg, s, i, l, streamed, s.inflight[i].wallet);
  }

  /** A reservation larger than the accumulated dust keeps its entry alive. */
  lemma EntrySurvives(cfg: Config, s: State, t: Ticket)
    requires Lawful(cfg, s) && s.restored && MoneyOk(cfg, s) && PricesNonNegative(cfg.prices) && TicketsOk(s)
    requires t in s.inflight && t.est > DustBound(s)
    ensures t.wallet in s.pending
  {
    var i :| 0 <= i < |s.inflight| && s.inflight[i] == t;
    SumRemove(ReservedBy(t.wallet), s.inflight, i);
    SumNonNegative(ReservedBy(t.wallet), s.inflight[..i] + s.inflight[i + 1..]);
    HeldNonNegative(cfg, s, t.wallet);
    assert ReservedBy(t.wallet)(t) == t.est;
    assert Held(cfg, s, t.wallet) <= B.PendingOf(s.pending, t.wallet) + DustBound(s);
  }

  lemma ReduceLaw(cfg: Config, s: State)
    requires Safe(s) && MoneyOk(cfg, s) && PricesNonNegative(cfg.prices) && TicketsOk(s) && Lawful(cfg, s)
    requires Enabled(cfg, s, ReducePending)
    ensures Lawful(cfg, Apply(cfg, s, ReducePending))
  {
    var after, settled := Apply(cfg, s, ReducePending), s.wal.value.books.settled;
    forall w | s.restored ensures B.PendingOf(after.pending, w) <= Held(cfg, after, w) <= B.PendingOf(after.pending, w) + DustBound(after) {
      OwedNonNegative(cfg, s, w);
      ReservedNonNegative(s, w);
      StrandedNonNegative(cfg, s, w);
      assert Held(cfg, after, w) == Held(cfg, s, w) - PlanSettled(s, w);
      SpendReduced(s.pending, settled, w);
      assert B.PendingOf(s.pending, w) <= Held(cfg, s, w) <= B.PendingOf(s.pending, w) + DustBound(s);
    }
  }

  /** A settlement takes the settled amount off, or what is left of the entry, or up to the
      cutoff more. */
  lemma SpendReduced(p: B.Pending, settled: map<string, real>, w: string)
    ensures var rest := B.PendingOf(p, w) - SettledOf(settled, w);
      var now := B.PendingOf(ReduceAll(p, settled), w);
      now == rest || (now == 0.0 && rest < B.DUST_CUTOFF) || (now == 0.0 && w !in p)
  {
    assert B.PendingOf(ReduceAll(p, settled), w) == B.PendingOf(SettledFor(p, settled, w), w);
  }

  lemma RemoveLaw(cfg: Config, s: State)
    requires ShapeOk(s) && Lawful(cfg, s) && Enabled(cfg, s, RemoveWal)
    ensures Lawful(cfg, Apply(cfg, s, RemoveWal))
  {
    var after := Apply(cfg, s, RemoveWal);
    forall w ensures Held(cfg, after, w) == Held(cfg, s, w) {
      SumAppend(RoundPaid(w), s.done, s.round.value.(wal := s.wal.value));
    }
  }

  // ---- Restart ----

  lemma {:induction false} SpendRestored(cfg: Config, p: B.Pending, records: seq<Record>, w: string)
    requires PricesNonNegative(cfg.prices) && MeteredRecords(records)
    ensures B.PendingOf(B.RestoreSpend(cfg.prices, p, records), w) == B.PendingOf(p, w) + Sum(CostBy(cfg, w), records)
    decreases |records|
  {
    if records != [] {
      var n := |records| - 1;
      SpendRestored(cfg, p, records[..n], w);
      CostNonNegative(cfg.prices, records[n]);
    }
  }

  lemma {:induction false} DebtsRestored(p: B.Pending, debts: seq<Debt>, w: string)
    ensures B.PendingOf(RestoreDebts(p, debts), w) == B.PendingOf(p, w) + Sum(DebtBy(w), debts)
    decreases |debts|
  {
    if debts != [] { DebtsRestored(p, debts[..|debts| - 1], w); }
  }

  /** The dead letters the debt ledger on disk belongs with. */
  function RetriedOrDead(s: State): seq<Record> { if s.wal.Some? && s.round.Some? then s.round.value.retried else s.dead }

  lemma RestoredAmount(cfg: Config, s: State, w: string)
    requires ShapeOk(s) && MoneyOk(cfg, s) && PricesNonNegative(cfg.prices)
    ensures B.PendingOf(RestorePending(cfg, s), w) ==
      B.PendingOf(s.pending, w) + Sum(DebtBy(w), s.debts) + Sum(CostBy(cfg, w), s.dead) + Sum(CostBy(cfg, w), Unread(s))
  {
    var debts := LoadDebts(s.debts);
    UnreadMetered(s);
    DebtsRestored(s.pending, debts, w);
    LoadedDebts(s.debts, w);
    SpendRestored(cfg, RestoreDebts(s.pending, debts), s.dead, w);
    SpendRestored(cfg, B.RestoreSpend(cfg.prices, RestoreDebts(s.pending, debts), s.dead), Unread(s), w);
  }

  /** Restoring after a restart gives a wallet exactly its held amount if and only if nothing
      but its reservations and stranded usage was pending before, and the dead letters on disk
      cost what they did when the debt ledger was last written. The second part can fail only
      with a plan still outstanding, the first only with traffic admitted before the restore;
      `Restarts` puts the second as a condition on what that plan was made of. */
  lemma RestoreExact(cfg: Config, s: State, w: string)
    requires Safe(s) && MoneyOk(cfg, s) && BeforePlanOk(cfg, s) && PricesNonNegative(cfg.prices) && Enabled(cfg, s, Restore)
    ensures var after := Apply(cfg, s, Restore);
      B.PendingOf(after.pending, w) == Held(cfg, after, w)
      <==> B.PendingOf(s.pending, w) + Sum(CostBy(cfg, w), s.dead) ==
             Reserved(s, w) + Stranded(cfg, s, w) + Sum(CostBy(cfg, w), RetriedOrDead(s))
  {
    RestoreIff(cfg, s, w);
    RestoreKeepsExact(cfg, s, w);
  }

  lemma RestoreKeepsExact(cfg: Config, s: State, w: string)
    requires Enabled(cfg, s, Restore)
    ensures var after := Apply(cfg, s, Restore);
      after.pending == RestorePending(cfg, s) && Held(cfg, after, w) == Held(cfg, s, w)
  {
  }

  lemma RestoreIff(cfg: Config, s: State, w: string)
    requires ShapeOk(s) && MoneyOk(cfg, s) && BeforePlanOk(cfg, s) && PricesNonNegative(cfg.prices)
    requires s.stage == Open && (s.wal.Some? ==> !AllConfirmed(s.wal.value))
    ensures B.PendingOf(RestorePending(cfg, s), w) == Held(cfg, s, w)
      <==> B.PendingOf(s.pending, w) + Sum(CostBy(cfg, w), s.dead) ==
             Reserved(s, w) + Stranded(cfg, s, w) + Sum(CostBy(cfg, w), RetriedOrDead(s))
  {
    RestoredAmount(cfg, s, w);
    BilledAtRestore(cfg, s, w);
  }

  lemma BilledAtRestore(cfg: Config, s: State, w: string)
    requires ShapeOk(s) && MoneyOk(cfg, s) && BeforePlanOk(cfg, s) && s.stage == Open && (s.wal.Some? ==> !AllConfirmed(s.wal.value))
    ensures Billed(cfg, s, w) - PaidOff(s, w) ==
      Sum(DebtBy(w), s.debts) + Sum(CostBy(cfg, w), RetriedOrDead(s)) + Sum(CostBy(cfg, w), Unread(s))
  {
    BilledSplit(cfg, s, s.cursor, w);
    assert Conserved(cfg, s, w);
    if s.wal.Some? { assert BeforePlan(cfg, s, w); }
  }

  lemma BeforePlanStep(cfg: Config, s: State, e: Event)
    requires Safe(s) && MoneyOk(cfg, s) && BeforePlanOk(cfg, s) && Enabled(cfg, s, e)
    ensures BeforePlanOk(cfg, Apply(cfg, s, e))
  {
    var t := Apply(cfg, s, e);
    if t.wal.Some? && !AllConfirmed(t.wal.value) {
      if s.wal.Some? {
        StillUnconfirmed(cfg, s, e);
        PlanKeepsBase(cfg, s, e);
        forall w ensures BeforePlan(cfg, t, w) { BaseKept(cfg, s, t, w); }
      } else {
        assert e.Plan?;
        forall w ensures BeforePlan(cfg, t, w) { assert Conserved(cfg, s, w); }
      }
    }
  }

  ghost predicate SameBase(s: State, t: State) {
    s.log <= t.log && t.done == s.done && t.debts == s.debts && t.wal.Some? && t.round == s.round
  }

  lemma PlanKeepsBase(cfg: Config, s: State, e: Event)
    requires ShapeOk(s) && Enabled(cfg, s, e) && s.wal.Some? && !AllConfirmed(s.wal.value)
    ensures SameBase(s, Apply(cfg, s, e))
  {
  }

  lemma BaseKept(cfg: Config, s: State, t: State, w: string)
    requires SameBase(s, t) && BeforePlan(cfg, s, w)
    ensures BeforePlan(cfg, t, w)
  {
    assert t.log[..s.round.value.start] == s.log[..s.round.value.start];
  }

  /** Confirming only ever adds confirmed batches. */
  lemma StillUnconfirmed(cfg: Config, s: State, e: Event)
    requires ShapeOk(s) && Enabled(cfg, s, e) && s.wal.Some?
    ensures Apply(cfg, s, e).wal.Some? && !AllConfirmed(Apply(cfg, s, e).wal.value) ==> !AllConfirmed(s.wal.value)
  {
    match e
    case ConfirmMined(i) => ConfirmedFlags(s.wal.value, i, s.wal.value.books);
    case ConfirmKnown(i) => ConfirmedFlags(s.wal.value, i, s.wal.value.books);
    case _ =>
  }

  // ---- Every gentle run ----

  /** Every adjustment finds its entry (or changes nothing), and every restart meets the
      condition of an exact restore. */
  ghost predicate Gentle(cfg: Config, s: State, e: Event)
    requires Enabled(cfg, s, e)
  {
    match e
    case Complete(i, l, streamed) => s.inflight[i].wallet in s.pending || s.inflight[i].est == ChargeOfLine(cfg, l, streamed)
    case Release(i) => s.inflight[i].wallet in s.pending || s.inflight[i].est == 0.0
    case Restore => forall w ::
      B.PendingOf(s.pending, w) + Sum(CostBy(cfg, w), s.dead) ==
        Reserved(s, w) + Stranded(cfg, s, w) + Sum(CostBy(cfg, w), RetriedOrDead(s))
    case _ => true
  }

  ghost predicate RunsGently(cfg: Config, s: State, events: seq<Event>, t: State)
    decreases |events|
  {
    if events == [] then s == t
    else Enabled(cfg, s, events[0]) && Gentle(cfg, s, events[0]) && RunsGently(cfg, Apply(cfg, s, events[0]), events[1..], t)
  }

  lemma PlanLaw(cfg: Config, s: State, env: Env, now: nat)
    requires Lawful(cfg, s) && Enabled(cfg, s, Plan(env, now)) && ShapeOk(s)
    ensures Lawful(cfg, Apply(cfg, s, Plan(env, now)))
  {
    forall w ensures Held(cfg, Apply(cfg, s, Plan(env, now)), w) == Held(cfg, s, w) {}
  }

  lemma OtherLaw(cfg: Config, s: State, e: Event)
    requires ShapeOk(s) && Lawful(cfg, s) && Enabled(cfg, s, e)
    requires !e.Reserve? && !e.Complete? && !e.Release? && !e.Plan? && !e.ReducePending? && !e.RemoveWal? && !e.Crash? && !e.Restore?
    ensures Lawful(cfg, Apply(cfg, s, e))
  {
    var t := Apply(cfg, s, e);
    forall w ensures Held(cfg, t, w) == Held(cfg, s, w) {
      if e.LogOther? {
        assert t.log[..|s.log|] == s.log && BillableOf(s.log) + [] == BillableOf(s.log);
      }
    }
  }

  lemma LawStep(cfg: Config, s: State, e: Event)
    requires Safe(s) && MoneyOk(cfg, s) && BeforePlanOk(cfg, s) && TicketsOk(s) && Lawful(cfg, s) && PricesNonNegative(cfg.prices)
    requires Enabled(cfg, s, e) && Gentle(cfg, s, e)
    ensures Lawful(cfg, Apply(cfg, s, e))
  {
    if e.Reserve? {
      ReserveLaw(cfg, s, e.ticket);
    } else if e.Complete? {
      CompleteLaw(cfg, s, e.i, e.line, e.streamed);
    } else if e.Release? {
      ReleaseLaw(cfg, s, e.i);
    } else if e.Plan? {
      PlanLaw(cfg, s, e.env, e.now);
    } else if e.ReducePending? {
      ReduceLaw(cfg, s);
    } else if e.RemoveWal? {
      RemoveLaw(cfg, s);
    } else if e.Restore? {
      RestoreLaw(cfg, s);
    } else if !e.Crash? {
      OtherLaw(cfg, s, e);
    }
  }

  lemma RestoreLaw(cfg: Config, s: State)
    requires Safe(s) && MoneyOk(cfg, s) && BeforePlanOk(cfg, s) && PricesNonNegative(cfg.prices)
    requires Enabled(cfg, s, Restore) && Gentle(cfg, s, Restore)
    ensures Lawful(cfg, Apply(cfg, s, Restore))
  {
    forall w { RestoreExact(cfg, s, w); }
  }

  ghost predicate Steady(cfg: Config, s: State) {
    Safe(s) && MoneyOk(cfg, s) && BeforePlanOk(cfg, s) && TicketsOk(s) && Lawful(cfg, s)
  }

  lemma SafeStep(cfg: Config, s: State, e: Event)
    requires Safe(s) && Enabled(cfg, s, e)
    ensures Safe(Apply(cfg, s, e))
  {
    ShapeStep(cfg, s, e);
    RecordsStep(cfg, s, e);
    ChainStep(cfg, s, e);
    TotalsStep(cfg, s, e);
  }

  lemma TicketsStep(cfg: Config, s: State, e: Event)
    requires TicketsOk(s) && Enabled(cfg, s, e)
    ensures TicketsOk(Apply(cfg, s, e))
  {
  }

  lemma SteadyStep(cfg: Config, s: State, e: Event)
    requires Steady(cfg, s) && PricesNonNegative(cfg.prices) && Enabled(cfg, s, e) && Gentle(cfg, s, e)
    ensures Steady(cfg, Apply(cfg, s, e))
  {
    SafeStep(cfg, s, e);
    MoneyStep(cfg, s, e);
    BeforePlanStep(cfg, s, e);
    TicketsStep(cfg, s, e);
    LawStep(cfg, s, e);
  }

  lemma {:induction false} GentleRuns(cfg: Config, s: State, events: seq<Event>, t: State)
    requires Steady(cfg, s) && PricesNonNegative(cfg.prices) && RunsGently(cfg, s, events, t)
    ensures Steady(cfg, t)
    decreases |events|
  {
    if events != [] {
      SteadyStep(cfg, s, events[0]);
      GentleRuns(cfg, Apply(cfg, s, events[0]), events[1..], t);
    }
  }

  lemma InitiallySteady(cfg: Config)
    ensures Steady(cfg, Initial())
  {
    InitiallySafe();
    InitialMoney(cfg);
  }

  /** Pending-spend conservation over every run in which adjustments find their entry and
      restarts meet the restore condition: what is pending is what is reserved, billed and not
      yet settled, plus the stranded usage of streamed error replies. */
  lemma {:induction false} PendingConserved(cfg: Config, events: seq<Event>, s: State, w: string)
    requires RunsGently(cfg, Initial(), events, s) && PricesNonNegative(cfg.prices) && s.restored && !PlanReduced(s)
    ensures PlannedTo(s) <= |s.log|
    ensures var owed := Reserved(s, w) + Sum(CostBy(cfg, w), BillableOf(s.log[PlannedTo(s)..])) + Sum(CostBy(cfg, w), s.dead)
                        + Sum(DebtBy(w), Outstanding(s)) + PlanSettled(s, w);
      B.PendingOf(s.pending, w) <= owed + Stranded(cfg, s, w) <= B.PendingOf(s.pending, w) + s.cuts as real * B.DUST_CUTOFF
  {
    InitiallySteady(cfg);
    GentleRuns(cfg, Initial(), events, s);
    assert Conserved(cfg, s, w);
    OwedBreakdown(cfg, s, w);
  }

  /** Billed and stranded equals settled plus pending at every quiescent point: no request in
      flight, no plan outstanding. */
  lemma {:induction false} BilledIsSettledPlusPending(cfg: Config, events: seq<Event>, s: State, w: string)
    requires RunsGently(cfg, Initial(), events, s) && PricesNonNegative(cfg.prices) && s.restored
    requires s.inflight == [] && s.wal.None?
    ensures var accounted := Sum(RoundPaid(w), s.done) + B.PendingOf(s.pending, w);
      accounted <= Billed(cfg, s, w) + Stranded(cfg, s, w) <= accounted + s.cuts as real * B.DUST_CUTOFF
  {
    InitiallySteady(cfg);
    GentleRuns(cfg, Initial(), events, s);
  }

  // ---- Usage that no settlement clears ----

  predicate StrandsAny(events: seq<Event>) {
    exists e :: e in events && e.Complete? && e.line.rec.Some? && Strands(e.streamed, e.line.rec.value)
  }

  /** A run without streamed error replies strands nothing, so there pending spend is what is
      owed and the two laws above hold without the extra term. */
  lemma {:induction false} NothingStranded(cfg: Config, s: State, events: seq<Event>, t: State, w: string)
    requires Runs(cfg, s, events, t) && s.stranded == [] && !StrandsAny(events)
    ensures t.stranded == [] && Stranded(cfg, t, w) == 0.0
    decreases |events|
  {
    if events != [] {
      var e := events[0];
      assert e in events;
      assert Apply(cfg, s, e).stranded == [];
      forall x | x in events[1..] ensures x in events {}
      NothingStranded(cfg, Apply(cfg, s, e), events[1..], t, w);
    }
  }

  predicate CrashFree(events: seq<Event>) { forall e | e in events :: !e.Crash? }

  lemma {:induction false} StrandedGrows(cfg: Config, s: State, events: seq<Event>, t: State)
    requires RunsGently(cfg, s, events, t) && CrashFree(events)
    ensures s.stranded <= t.stranded
    decreases |events|
  {
    if events != [] {
      assert events[0] in events;
      forall x | x in events[1..] ensures x in events {}
      StrandedGrows(cfg, Apply(cfg, s, events[0]), events[1..], t);
    }
  }

  /** Short of a restart nothing ever clears it: whatever is settled later, at least the
      stranded cost stays pending, to within the dust. */
  lemma {:induction false} StrandedStaysPending(cfg: Config, before: seq<Event>, s: State, events: seq<Event>, t: State, w: string)
    requires RunsGently(cfg, Initial(), before, s) && RunsGently(cfg, s, events, t) && CrashFree(events)
    requires PricesNonNegative(cfg.prices) && t.restored
    ensures B.PendingOf(t.pending, w) >= Stranded(cfg, s, w) - DustBound(t)
  {
    InitiallySteady(cfg);
    GentleRuns(cfg, Initial(), before, s);
    GentleRuns(cfg, s, events, t);
    StrandedGrows(cfg, s, events, t);
    HeldAtLeast(cfg, s, t, w);
    assert Lawful(cfg, t);
  }

  lemma HeldAtLeast(cfg: Config, s: State, t: State, w: string)
    requires MoneyOk(cfg, t) && TicketsOk(t) && PricesNonNegative(cfg.prices) && s.stranded <= t.stranded
    ensures Held(cfg, t, w) >= Stranded(cfg, s, w)
  {
    var more := t.stranded[|s.stranded|..];
    assert t.stranded == s.stranded + more;
    SumConcat(CostBy(cfg, w), s.stranded, more);
    CostsOfMetered(cfg, more, w);
    OwedNonNegative(cfg, t, w);
    ReservedNonNegative(t, w);
  }
}
