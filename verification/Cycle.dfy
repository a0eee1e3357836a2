/** One settlement cycle, specified: what the chain answers, what a pass over the outstanding plan
    leaves, what a plan written during the cycle is made of, and what both do to the money. */
module Cycle {
  import opened Orders
  import opened Sums
  import opened Merkle
  import opened Billing
  import opened Allocator
  import opened Aggregator
  import opened AggregatorLaws
  import opened Batches
  import opened CreditGate
  import opened Earnings
  import opened RequestLog
  import opened Settlement
  import opened SettlementSafety
  import opened SettlementMoney
  import B = Balances

  ghost predicate RunsTo(cfg: Config, s: State, t: State) { exists events :: Runs(cfg, s, events, t) }

  lemma RunsNowhere(cfg: Config, s: State)
    ensures RunsTo(cfg, s, s)
  {
    assert Runs(cfg, s, [], s);
  }

  lemma RunsOne(cfg: Config, s: State, e: Event, t: State)
    requires Enabled(cfg, s, e) && t == Apply(cfg, s, e)
    ensures RunsTo(cfg, s, t)
  {
    assert [e][1..] == [] && Runs(cfg, t, [], t);
    assert Runs(cfg, s, [e], t);
  }

  lemma RunsOn(cfg: Config, s: State, t: State, u: State)
    requires RunsTo(cfg, s, t) && RunsTo(cfg, t, u)
    ensures RunsTo(cfg, s, u)
  {
    var a :| Runs(cfg, s, a, t);
    var b :| Runs(cfg, t, b, u);
    RunsConcat(cfg, s, a, t, b, u);
  }

  lemma {:induction false} RunsKeepShape(cfg: Config, s: State, events: seq<Event>, t: State)
    requires ShapeOk(s) && Runs(cfg, s, events, t)
    ensures ShapeOk(t)
    decreases |events|
  {
    if events != [] {
      ShapeStep(cfg, s, events[0]);
      RunsKeepShape(cfg, Apply(cfg, s, events[0]), events[1..], t);
    }
  }

  lemma RunsToKeepsShape(cfg: Config, s: State, t: State)
    requires ShapeOk(s) && RunsTo(cfg, s, t)
    ensures ShapeOk(t)
  {
    var events :| Runs(cfg, s, events, t);
    RunsKeepShape(cfg, s, events, t);
  }

  /** So everything proved of reachable states holds before and after each call of the code. */
  lemma CodeStaysReachable(cfg: Config, s: State, t: State)
    requires Reachable(cfg, s) && RunsTo(cfg, s, t)
    ensures Reachable(cfg, t)
  {
    var a :| Runs(cfg, Initial(), a, s);
    var b :| Runs(cfg, s, b, t);
    RunsConcat(cfg, Initial(), a, s, b, t);
  }

  /** What submitting one batch can come to. The last two carry the receipt's outcome. */
  datatype Reply =
    | AlreadyProcessed
    | SubmitFailed
    | NoReceipt                       // timeout, revert, or a receipt reorged away
    | NotFinal(outcome: Outcome)      // mined, but waiting for finality failed
    | Final(outcome: Outcome)         // mined and final, or known to be processed

  /** The contract answers truthfully and executes a details hash at most once. */
  predicate CanAnswer(c: Chain, h: Hash, reply: Reply) {
    match reply
    case AlreadyProcessed => h in c.processed
    case NotFinal(o) => h !in c.processed && DistinctIndexes(o.failed)
    case Final(o) => h !in c.processed && DistinctIndexes(o.failed)
    case _ => true
  }

  predicate DistinctIndexes(s: seq<nat>) { forall i, j | 0 <= i < j < |s| :: s[i] != s[j] }

  function Submitted(c: Chain, h: Hash): Chain { c.(mempool := c.mempool + {h}) }

  function ChainAfter(c: Chain, h: Hash, reply: Reply): Chain {
    match reply
    case AlreadyProcessed => c
    case SubmitFailed => c
    case NoReceipt => Submitted(c, h)
    case NotFinal(o) => Executed(Submitted(c, h), h, o)
    case Final(o) => Executed(Submitted(c, h), h, o)
  }

  /** A truthful answer that settles the batch. */
  predicate Concludes(c: Chain, h: Hash, reply: Reply) {
    CanAnswer(c, h, reply) && (reply.AlreadyProcessed? || reply.Final?)
  }

  function Concluded(c: Chain, h: Hash, reply: Reply): Chain { Settlement.Final(ChainAfter(c, h, reply), h) }

  /** Every unconfirmed batch from the `i`-th on gets such an answer when it is its turn. */
  predicate Cooperates(c: Chain, batches: seq<PlanBatch>, script: nat -> Reply, i: nat)
    decreases |batches| - i
  {
    i < |batches| ==>
      if batches[i].confirmed then Cooperates(c, batches, script, i + 1)
      else Concludes(c, batches[i].detailsHash, script(i))
           && Cooperates(Concluded(c, batches[i].detailsHash, script(i)), batches, script, i + 1)
  }

  lemma {:induction false} SameAnswers(c: Chain, batches: seq<PlanBatch>, a: nat -> Reply, b: nat -> Reply, i: nat)
    requires Cooperates(c, batches, a, i) && forall j: nat | j >= i :: a(j) == b(j)
    ensures Cooperates(c, batches, b, i)
    decreases |batches| - i
  {
    if i < |batches| {
      SameAnswers(if batches[i].confirmed then c else Concluded(c, batches[i].detailsHash, a(i)), batches, a, b, i + 1);
    }
  }

  /** Whatever the chain has done so far, it can still let every plan be completed. */
  lemma {:induction false} CanCooperate(c: Chain, batches: seq<PlanBatch>, i: nat) returns (script: nat -> Reply)
    ensures Cooperates(c, batches, script, i)
    decreases |batches| - i
  {
    if i >= |batches| {
      script := _ => SubmitFailed;
    } else {
      var h := batches[i].detailsHash;
      var reply := if h in c.processed then AlreadyProcessed else Final(Outcome(true, 0, []));
      var rest := CanCooperate(if batches[i].confirmed then c else Concluded(c, h, reply), batches, i + 1);
      script := (j: nat) => if j == i then reply else rest(j);
      SameAnswers(if batches[i].confirmed then c else Concluded(c, h, reply), batches, rest, script, i + 1);
    }
  }

  // ---- Requests served while a plan is being made ----

  /** What goes on while the settler aggregates: the gate, the request log and the chain. */
  predicate Meanwhile(e: Event) {
    e.Reserve? || e.Complete? || e.Release? || e.LogOther? || e.Land? || e.Revert? || e.Reorg?
  }

  ghost predicate MeanwhileTo(cfg: Config, s: State, events: seq<Event>, t: State) {
    Runs(cfg, s, events, t) && forall e | e in events :: Meanwhile(e)
  }

  function Stored(s: State, plan: Wal, unresolved: seq<Record>, round: Round): State {
    s.(wal := Some(plan), dead := unresolved, clock := plan.createdAt, round := Some(round))
  }

  /** The plan made of what had been logged up to `end`, written into the state as it is now. */
  ghost function PlanWritten(cfg: Config, s: State, end: nat, env: Env, now: nat): State
    requires s.cursor <= end <= |s.log|
  {
    var peeked := s.(log := s.log[..end]);
    var plan := PlanOf(cfg, peeked, env, now);
    Stored(s, plan, AggregateOf(cfg, peeked, env).unresolved,
           Round(s.cursor, s.dead, Unread(peeked), Collectable(env, s.dead + Unread(peeked)), plan))
  }

  lemma PlanWrittenAtOnce(cfg: Config, s: State, env: Env, now: nat)
    requires Enabled(cfg, s, Plan(env, now))
    ensures PlanWritten(cfg, s, |s.log|, env, now) == Apply(cfg, s, Plan(env, now))
  {
    assert s.log[..|s.log|] == s.log && s.(log := s.log) == s;
  }

  /** No such event notices a plan. */
  lemma StoredPasses(cfg: Config, s: State, e: Event, plan: Wal, unresolved: seq<Record>, round: Round)
    requires Meanwhile(e) && Enabled(cfg, s, e)
    ensures Enabled(cfg, Stored(s, plan, unresolved, round), e)
    ensures Apply(cfg, Stored(s, plan, unresolved, round), e) == Stored(Apply(cfg, s, e), plan, unresolved, round)
    ensures var t := Apply(cfg, s, e); s.log <= t.log && s.cursor == t.cursor && s.dead == t.dead && s.debts == t.debts
  {
  }

  /** A plan is made of the unread lines, the dead letters and the debts. */
  lemma SamePlan(cfg: Config, a: State, b: State, env: Env, now: nat)
    requires a.cursor == b.cursor <= |a.log| && a.log == b.log && a.dead == b.dead && a.debts == b.debts
    ensures Unread(a) == Unread(b) && AggregateOf(cfg, a, env) == AggregateOf(cfg, b, env) && PlanOf(cfg, a, env, now) == PlanOf(cfg, b, env, now)
  {
  }

  /** Nor does one change what the plan is made of. */
  lemma EventPassesPlan(cfg: Config, s: State, end: nat, env: Env, now: nat, e: Event)
    requires s.cursor <= end <= |s.log| && Meanwhile(e) && Enabled(cfg, s, e)
    ensures s.log <= Apply(cfg, s, e).log && s.cursor == Apply(cfg, s, e).cursor
    ensures Enabled(cfg, PlanWritten(cfg, s, end, env, now), e)
    ensures Apply(cfg, PlanWritten(cfg, s, end, env, now), e) == PlanWritten(cfg, Apply(cfg, s, e), end, env, now)
  {
    var t, peeked := Apply(cfg, s, e), s.(log := s.log[..end]);
    var plan := PlanOf(cfg, peeked, env, now);
    StoredPasses(cfg, s, e, plan, AggregateOf(cfg, peeked, env).unresolved,
                 Round(s.cursor, s.dead, Unread(peeked), Collectable(env, s.dead + Unread(peeked)), plan));
    assert t.log[..end] == s.log[..end];
    SamePlan(cfg, peeked, t.(log := t.log[..end]), env, now);
  }

  lemma {:induction false} EventsPassPlan(cfg: Config, s: State, end: nat, env: Env, now: nat, events: seq<Event>, t: State)
    requires s.cursor <= end <= |s.log| && MeanwhileTo(cfg, s, events, t)
    ensures s.log <= t.log && t.cursor == s.cursor
    ensures Runs(cfg, PlanWritten(cfg, s, end, env, now), events, PlanWritten(cfg, t, end, env, now))
    decreases |events|
  {
    if events != [] {
      EventPassesPlan(cfg, s, end, env, now, events[0]);
      EventsPassPlan(cfg, Apply(cfg, s, events[0]), end, env, now, events[1..], t);
    }
  }

  /** A plan made of what one peek returned may be written later: whatever has been admitted,
      finished and logged since, the state is the one in which the plan came first. */
  lemma {:induction false} PlanCommutes(cfg: Config, s: State, env: Env, now: nat, events: seq<Event>, t: State)
    requires Enabled(cfg, s, Plan(env, now)) && MeanwhileTo(cfg, s, events, t)
    ensures s.log <= t.log && t.cursor == s.cursor
    ensures Runs(cfg, s, [Plan(env, now)] + events, PlanWritten(cfg, t, |s.log|, env, now))
  {
    EventsPassPlan(cfg, s, |s.log|, env, now, events, t);
    PlanWrittenAtOnce(cfg, s, env, now);
    assert ([Plan(env, now)] + events)[1..] == events;
  }

  lemma {:induction false} PlanMadeLate(cfg: Config, s: State, env: Env, now: nat, events: seq<Event>, t: State)
    requires Enabled(cfg, s, Plan(env, now)) && MeanwhileTo(cfg, s, events, t)
    ensures s.log <= t.log && t.cursor == s.cursor && t.log[t.cursor..|s.log|] == s.log[s.cursor..]
    ensures RunsTo(cfg, s, PlanWritten(cfg, t, |s.log|, env, now))
  {
    PlanCommutes(cfg, s, env, now, events, t);
    assert t.log[..|s.log|] == s.log;
  }

  lemma {:induction false} MeanwhileOn(cfg: Config, s: State, events: seq<Event>, t: State, e: Event)
    requires MeanwhileTo(cfg, s, events, t) && Meanwhile(e) && Enabled(cfg, t, e)
    ensures MeanwhileTo(cfg, s, events + [e], Apply(cfg, t, e))
  {
    var u := Apply(cfg, t, e);
    assert [e][1..] == [] && Runs(cfg, u, [], u);
    assert Runs(cfg, t, [e], u);
    RunsConcat(cfg, s, events, t, [e], u);
  }

  /** A request that arrives and is answered meanwhile. */
  datatype Arrival = Arrival(ticket: Ticket, line: Line, streamed: bool)

  predicate Answerable(a: Arrival) {
    && a.ticket.est >= 0.0 && a.ticket.wallet != ""
    && a.line.bytes > 0 && a.line.rec.Some? && a.line.rec.value.wallet == a.ticket.wallet && Metered(a.line.rec.value)
  }

  function WalAfter(wal: Wal, i: nat, reply: Reply): Wal
    requires i < |wal.batches|
  {
    Confirmed(wal, i, if reply.Final? then Reversed(wal.books, wal.batches[i], reply.outcome) else wal.books)
  }

  /** The plan of `s0` worked through up to its `i`-th batch. */
  ghost predicate WorkedTo(s0: State, s: State, script: nat -> Reply, i: nat) {
    && s0.wal.Some? && s.wal.Some? && s.wal.value.cursor == s0.wal.value.cursor
    && i <= |s.wal.value.batches| == |s0.wal.value.batches|
    && s.wal.value.batches[i..] == s0.wal.value.batches[i..]
    && (forall j | 0 <= j < i :: s.wal.value.batches[j].confirmed)
    && (Cooperates(s.chain, s0.wal.value.batches, script, i) <==> Cooperates(s0.chain, s0.wal.value.batches, script, 0))
  }

  lemma {:induction false} WorkedOn(s0: State, s: State, t: State, script: nat -> Reply, i: nat)
    requires WorkedTo(s0, s, script, i) && i < |s.wal.value.batches|
    requires if s.wal.value.batches[i].confirmed then t == s
      else Concludes(s.chain, HashAt(s.wal.value, i), script(i)) && t.chain == Concluded(s.chain, HashAt(s.wal.value, i), script(i))
           && t.wal.Some? && t.wal.value == s.wal.value.(batches := s.wal.value.batches[i := s.wal.value.batches[i].(confirmed := true)], books := t.wal.value.books)
    ensures WorkedTo(s0, t, script, i + 1)
  {
    var before, batches := s0.wal.value.batches, s.wal.value.batches;
    assert batches[i] == batches[i..][0] == before[i..][0] == before[i];
    assert t.wal.value.batches[i + 1..] == batches[i..][1..] == before[i + 1..];
  }

  lemma {:induction false} WorkStops(s0: State, s: State, script: nat -> Reply, i: nat)
    requires WorkedTo(s0, s, script, i) && i < |s.wal.value.batches| && !s.wal.value.batches[i].confirmed
    requires !Concludes(s.chain, HashAt(s.wal.value, i), script(i))
    ensures !AllConfirmed(s.wal.value) && !Cooperates(s0.chain, s0.wal.value.batches, script, 0)
  {
    assert s.wal.value.batches[i] == s.wal.value.batches[i..][0] == s0.wal.value.batches[i];
    assert s.wal.value.batches[i] in s.wal.value.batches;
  }

  lemma SubmitAndLand(cfg: Config, s: State, i: nat, o: Outcome)
    requires NextToConfirm(s, i) && HashAt(s.wal.value, i) !in s.chain.processed && DistinctIndexes(o.failed)
    ensures var h := HashAt(s.wal.value, i);
      RunsTo(cfg, s, s.(chain := Executed(Submitted(s.chain, h), h, o)))
  {
    var h := HashAt(s.wal.value, i);
    var mid := s.(chain := Submitted(s.chain, h));
    RunsOne(cfg, s, Submit(i), mid);
    RunsOne(cfg, mid, Land(h, o), s.(chain := Executed(Submitted(s.chain, h), h, o)));
    RunsOn(cfg, s, mid, s.(chain := Executed(Submitted(s.chain, h), h, o)));
  }

  /** An answer that settles nothing only moves the chain. */
  lemma AnswerRuns(cfg: Config, s: State, i: nat, reply: Reply)
    requires NextToConfirm(s, i) && CanAnswer(s.chain, HashAt(s.wal.value, i), reply)
    ensures RunsTo(cfg, s, s.(chain := ChainAfter(s.chain, HashAt(s.wal.value, i), reply)))
  {
    match reply
    case NoReceipt => RunsOne(cfg, s, Submit(i), s.(chain := Submitted(s.chain, HashAt(s.wal.value, i))));
    case NotFinal(o) => SubmitAndLand(cfg, s, i, o);
    case Final(o) => SubmitAndLand(cfg, s, i, o);
    case _ => RunsNowhere(cfg, s);
  }

  /** One that does confirms the batch, with the receipt's skipped items given back if there
      is one. */
  lemma ConcludeRuns(cfg: Config, s: State, i: nat, reply: Reply)
    requires NextToConfirm(s, i) && Concludes(s.chain, HashAt(s.wal.value, i), reply)
    ensures RunsTo(cfg, s, s.(wal := Some(WalAfter(s.wal.value, i, reply)), chain := Concluded(s.chain, HashAt(s.wal.value, i), reply)))
  {
    var mid := s.(chain := ChainAfter(s.chain, HashAt(s.wal.value, i), reply));
    var t := s.(wal := Some(WalAfter(s.wal.value, i, reply)), chain := Concluded(s.chain, HashAt(s.wal.value, i), reply));
    AnswerRuns(cfg, s, i, reply);
    RunsOne(cfg, mid, if reply.Final? then ConfirmMined(i) else ConfirmKnown(i), t);
    RunsOn(cfg, s, mid, t);
  }

  /** Nothing billable of `log` is left behind the cursor. */
  predicate AllRead(log: seq<Line>, cursor: nat) { |log| <= cursor || BillableOf(log[cursor..]) == [] }

  // ---- A pass over the outstanding plan ----

  /** A scripted answer that would be untrue is a failed call instead. */
  function Truthful(c: Chain, h: Hash, scripted: Reply): Reply { if CanAnswer(c, h, scripted) then scripted else SubmitFailed }

  /** The batches from the `i`-th on in turn, up to the first without an answer that settles it. */
  function Worked(s: State, script: nat -> Reply, i: nat): State
    requires s.wal.Some?
    decreases |s.wal.value.batches| - i
  {
    var wal := s.wal.value;
    if i >= |wal.batches| then s
    else if wal.batches[i].confirmed then Worked(s, script, i + 1)
    else if Concludes(s.chain, HashAt(wal, i), script(i)) then
      Worked(s.(wal := Some(WalAfter(wal, i, script(i))), chain := Concluded(s.chain, HashAt(wal, i), script(i))), script, i + 1)
    else s.(chain := ChainAfter(s.chain, HashAt(wal, i), Truthful(s.chain, HashAt(wal, i), script(i))))
  }

  /** The finishing writes: the cursor moves and the settled amounts leave the pending spend. */
  function CursorDone(s: State): State
    requires s.wal.Some?
  {
    s.(cursor := s.wal.value.cursor, stage := Reduced, pending := ReduceAll(s.pending, s.wal.value.books.settled), cuts := s.cuts + 1)
  }

  /** Then the plan is counted, */
  ghost function PlanDone(s: State): State
    requires s.wal.Some? && s.round.Some?
  {
    var wal := s.wal.value;
    PlanCleared(s.(total := CountTotal(s.total, wal.books.settled, wal.createdAt, B.MapSum(wal.books.settled))))
  }

  /** its debts become the ledger, and it is gone. */
  function PlanCleared(s: State): State
    requires s.wal.Some? && s.round.Some?
  {
    var wal := s.wal.value;
    s.(debts := wal.books.debts, wal := None, stage := Open, round := None, done := s.done + [s.round.value.(wal := wal)])
  }

  ghost function Finished(s: State): State
    requires s.wal.Some? && s.round.Some?
  {
    PlanDone(CursorDone(s))
  }

  ghost function Resumed(s: State, script: nat -> Reply): State
    requires ShapeOk(s)
  {
    if s.wal.None? then s
    else
      var t := Worked(s, script, 0);
      WorkedOnlyPlan(s, script, 0);
      if AllConfirmed(t.wal.value) then Finished(t) else t
  }

  lemma {:induction false} WorkedOnlyPlan(s: State, script: nat -> Reply, i: nat)
    requires s.wal.Some?
    ensures var t := Worked(s, script, i);
      && t.wal.Some? && t == s.(wal := t.wal, chain := t.chain)
      && t.wal.value == s.wal.value.(batches := t.wal.value.batches, books := t.wal.value.books)
      && |t.wal.value.batches| == |s.wal.value.batches|
    decreases |s.wal.value.batches| - i
  {
    if i < |s.wal.value.batches| {
      var wal := s.wal.value;
      if wal.batches[i].confirmed {
        WorkedOnlyPlan(s, script, i + 1);
      } else if Concludes(s.chain, HashAt(wal, i), script(i)) {
        WorkedOnlyPlan(s.(wal := Some(WalAfter(wal, i, script(i))), chain := Concluded(s.chain, HashAt(wal, i), script(i))), script, i + 1);
      }
    }
  }

  // ---- What such a pass does to the money ----

  /** What the items below `n` that are in `gone` come to. */
  function ItemsIn(f: PlanItem -> real, items: seq<PlanItem>, gone: set<nat>, n: nat): real
    requires n <= |items|
  {
    if n == 0 then 0.0 else ItemsIn(f, items, gone, n - 1) + if n - 1 in gone then f(items[n - 1]) else 0.0
  }

  lemma {:induction false} ItemsInOrKept(w: string, items: seq<PlanItem>, gone: set<nat>, n: nat)
    requires n <= |items|
    ensures ItemsIn(PlanUSD(w), items, gone, n) == Kept(w, items, {}, n) - Kept(w, items, gone, n)
  {
    if n > 0 { ItemsInOrKept(w, items, gone, n - 1); }
  }

  lemma {:induction false} ItemsInAdds(f: PlanItem -> real, items: seq<PlanItem>, gone: set<nat>, x: nat, n: nat)
    requires n <= |items| && x < |items| && x !in gone
    ensures ItemsIn(f, items, gone + {x}, n) == ItemsIn(f, items, gone, n) + if x < n then f(items[x]) else 0.0
  {
    if n > 0 { ItemsInAdds(f, items, gone, x, n - 1); }
  }

  lemma {:induction false} NothingIn(f: PlanItem -> real, items: seq<PlanItem>, n: nat)
    requires n <= |items|
    ensures ItemsIn(f, items, {}, n) == 0.0
  {
    if n > 0 { NothingIn(f, items, n - 1); }
  }

  /** The items of a batch its receipt lists as skipped; without a receipt none is known. */
  function Skipped(b: PlanBatch, reply: Reply): set<nat> {
    if reply.Final? && reply.outcome.found && reply.outcome.failedCount != 0
    then set k | k in reply.outcome.failed && k < |b.items|
    else {}
  }

  /** What they come to. */
  function GivenBack(f: PlanItem -> real, b: PlanBatch, reply: Reply): real { ItemsIn(f, b.items, Skipped(b, reply), |b.items|) }

  /** So much has left the settled amount of a wallet and become its debt. */
  ghost predicate Gives(before: Books, after: Books, w: string, usd: real) {
    && SettledOf(after.settled, w) == SettledOf(before.settled, w) - usd
    && Sum(DebtBy(w), after.debts) == Sum(DebtBy(w), before.debts) + usd
  }

  /** So much more is owed by a wallet to an SP. */
  ghost predicate Owes(before: Books, after: Books, k: Key, usd: real) {
    Sum(DebtCost(k), after.debts) == Sum(DebtCost(k), before.debts) + usd
  }

  function DebtOf(it: PlanItem): Debt { Debt(Key(it.user, it.sp), it.usd, it.ids) }

  /** The new debts are behind the old ones, each for one of these items, to its SP and for its
      requests. */
  ghost predicate DebtsOf(before: seq<Debt>, after: seq<Debt>, items: seq<PlanItem>, gone: set<nat>) {
    before <= after && forall i | |before| <= i < |after| :: exists k | k in gone && k < |items| :: after[i] == DebtOf(items[k])
  }

  lemma {:induction false} ReverseOneOwes(before: Books, books: Books, items: seq<PlanItem>, gone: set<nat>, x: nat, k: Key)
    requires NonNegativeItems(items) && x < |items| && x !in gone && SettledOf(books.settled, items[x].user) >= items[x].usd
    requires Owes(before, books, k, ItemsIn(PlanTo(k), items, gone, |items|)) && DebtsOf(before.debts, books.debts, items, gone)
    ensures var after := ReverseItem(books, items[x]);
      Owes(before, after, k, ItemsIn(PlanTo(k), items, gone + {x}, |items|)) && DebtsOf(before.debts, after.debts, items, gone + {x})
  {
    var it := items[x];
    assert it in items;
    ItemsInAdds(PlanTo(k), items, gone, x, |items|);
    if it.usd > 0.0 {
      SumAppend(DebtCost(k), books.debts, DebtOf(it));
      assert ReverseItem(books, it).debts == books.debts + [DebtOf(it)];
    }
    forall i | |before.debts| <= i < |books.debts| ensures exists y | y in gone + {x} && y < |items| :: books.debts[i] == DebtOf(items[y]) {
      var y :| y in gone && y < |items| && books.debts[i] == DebtOf(items[y]);
      assert y in gone + {x};
    }
  }

  lemma {:induction false} ReverseOwes(books: Books, items: seq<PlanItem>, failed: seq<nat>, k: Key)
    requires NonNegativeItems(items) && Covers(books, items) && Distinct(failed)
    ensures var after, gone := ReverseItems(books, items, failed), InRange(failed, |items|);
      Owes(books, after, k, ItemsIn(PlanTo(k), items, gone, |items|)) && DebtsOf(books.debts, after.debts, items, gone)
    decreases |failed|
  {
    if failed == [] {
      NothingIn(PlanTo(k), items, |items|);
      assert InRange(failed, |items|) == {};
    } else {
      var n := |failed| - 1;
      var mid, gone := ReverseItems(books, items, failed[..n]), InRange(failed[..n], |items|);
      ReverseOwes(books, items, failed[..n], k);
      assert failed == failed[..n] + [failed[n]];
      if failed[n] < |items| {
        assert failed[n] !in failed[..n];
        StillCovered(books, items, failed[..n], failed[n]);
        ReverseOneOwes(books, mid, items, gone, failed[n], k);
        assert InRange(failed, |items|) == gone + {failed[n]};
      } else {
        assert InRange(failed, |items|) == gone;
      }
    }
  }

  lemma {:induction false} StillCovered(books: Books, items: seq<PlanItem>, failed: seq<nat>, x: nat)
    requires NonNegativeItems(items) && Covers(books, items) && Distinct(failed) && x < |items| && x !in failed
    ensures SettledOf(ReverseItems(books, items, failed).settled, items[x].user) >= items[x].usd
  {
    var w, gone := items[x].user, InRange(failed, |items|);
    ReverseMoves(books, items, failed);
    assert Moved(books, ReverseItems(books, items, failed), items, gone, w);
    KeptWithout(w, items, gone, x, |items|);
    KeptNonNegative(w, items, gone + {x}, |items|);
    assert items[x] in items;
  }

  /** One settled batch: per wallet, exactly what its receipt lists as skipped leaves the settled
      amount and becomes debt, to the same SP and for the same requests. */
  ghost predicate BatchGives(before: Books, after: Books, b: PlanBatch, reply: Reply) {
    && (forall w :: Gives(before, after, w, GivenBack(PlanUSD(w), b, reply)))
    && (forall k :: Owes(before, after, k, GivenBack(PlanTo(k), b, reply)))
    && DebtsOf(before.debts, after.debts, b.items, Skipped(b, reply))
  }

  lemma NothingGiven(books: Books, b: PlanBatch, reply: Reply)
    requires Skipped(b, reply) == {}
    ensures BatchGives(books, books, b, reply)
  {
    forall w ensures Gives(books, books, w, GivenBack(PlanUSD(w), b, reply)) { NothingIn(PlanUSD(w), b.items, |b.items|); }
    forall k ensures Owes(books, books, k, GivenBack(PlanTo(k), b, reply)) { NothingIn(PlanTo(k), b.items, |b.items|); }
  }

  lemma ConfirmGives(wal: Wal, i: nat, reply: Reply)
    requires Reversible(wal) && i < |wal.batches| && !wal.batches[i].confirmed
    requires reply.Final? ==> DistinctIndexes(reply.outcome.failed)
    ensures BatchGives(wal.books, WalAfter(wal, i, reply).books, wal.batches[i], reply) && Reversible(WalAfter(wal, i, reply))
  {
    var b, after := wal.batches[i], WalAfter(wal, i, reply).books;
    ConfirmKeepsReversible(wal, i, if reply.Final? then reply.outcome else Outcome(false, 0, []));
    if reply.Final? && reply.outcome.found && reply.outcome.failedCount != 0 {
      var o := reply.outcome;
      UnconfirmedCovered(wal, i);
      assert Skipped(b, reply) == InRange(o.failed, |b.items|) == GoneFrom(b, o);
      ReversalExact(wal.books, b, o);
      forall w ensures Gives(wal.books, after, w, GivenBack(PlanUSD(w), b, reply)) {
        assert Moved(wal.books, after, b.items, GoneFrom(b, o), w);
        ItemsInOrKept(w, b.items, GoneFrom(b, o), |b.items|);
      }
      forall k ensures Owes(wal.books, after, k, GivenBack(PlanTo(k), b, reply)) { ReverseOwes(wal.books, b.items, o.failed, k); }
      ReverseOwes(wal.books, b.items, o.failed, Key("", ""));
    } else {
      NothingGiven(wal.books, b, reply);
    }
  }

  /** What the batches settled by a pass give back together. */
  function GivenBackFrom(f: PlanItem -> real, c: Chain, batches: seq<PlanBatch>, script: nat -> Reply, i: nat): real
    decreases |batches| - i
  {
    if i >= |batches| then 0.0
    else if batches[i].confirmed then GivenBackFrom(f, c, batches, script, i + 1)
    else if !Concludes(c, batches[i].detailsHash, script(i)) then 0.0
    else GivenBack(f, batches[i], script(i)) + GivenBackFrom(f, Concluded(c, batches[i].detailsHash, script(i)), batches, script, i + 1)
  }

  lemma {:induction false} SameFromHere(f: PlanItem -> real, c: Chain, a: seq<PlanBatch>, b: seq<PlanBatch>, script: nat -> Reply, i: nat)
    requires |a| == |b| && forall j | i <= j < |a| :: a[j] == b[j]
    ensures GivenBackFrom(f, c, a, script, i) == GivenBackFrom(f, c, b, script, i)
    decreases |a| - i
  {
    if i < |a| {
      SameFromHere(f, if a[i].confirmed then c else Concluded(c, a[i].detailsHash, script(i)), a, b, script, i + 1);
    }
  }

  lemma {:induction false} WorkedGives(s: State, script: nat -> Reply, i: nat, w: string, k: Key)
    requires s.wal.Some? && Reversible(s.wal.value)
    ensures var p, t := s.wal.value, Worked(s, script, i);
      && t.wal.Some? && Reversible(t.wal.value)
      && Gives(p.books, t.wal.value.books, w, GivenBackFrom(PlanUSD(w), s.chain, p.batches, script, i))
      && Owes(p.books, t.wal.value.books, k, GivenBackFrom(PlanTo(k), s.chain, p.batches, script, i))
    decreases |s.wal.value.batches| - i
  {
    var wal := s.wal.value;
    if i < |wal.batches| {
      if wal.batches[i].confirmed {
        WorkedGives(s, script, i + 1, w, k);
      } else if Concludes(s.chain, HashAt(wal, i), script(i)) {
        var next := s.(wal := Some(WalAfter(wal, i, script(i))), chain := Concluded(s.chain, HashAt(wal, i), script(i)));
        ConfirmGives(wal, i, script(i));
        WorkedGives(next, script, i + 1, w, k);
        SameFromHere(PlanUSD(w), next.chain, wal.batches, next.wal.value.batches, script, i + 1);
        SameFromHere(PlanTo(k), next.chain, wal.batches, next.wal.value.batches, script, i + 1);
      }
    }
  }

  /** Wallet by wallet and SP by SP, what a pass has moved from settled to debt is exactly what
      the final receipts of the batches it settled list as skipped. */
  ghost predicate PassGives(s: State, t: State, script: nat -> Reply)
    requires s.wal.Some?
  {
    (t.wal.None? ==> |t.done| == |s.done| + 1) && BooksGive(s.wal.value, s.chain, BooksAfter(s, t), script)
  }

  ghost predicate BooksGive(p: Wal, c: Chain, after: Books, script: nat -> Reply) {
    && (forall w :: Gives(p.books, after, w, GivenBackFrom(PlanUSD(w), c, p.batches, script, 0)))
    && (forall k :: Owes(p.books, after, k, GivenBackFrom(PlanTo(k), c, p.batches, script, 0)))
  }

  /** The books of the plan after a pass, on the disk or in the history of a completed one. */
  function BooksAfter(s: State, t: State): Books {
    if t.wal.Some? then t.wal.value.books
    else if |t.done| == |s.done| + 1 then Books(t.done[|s.done|].wal.books.settled, t.debts)
    else Books(map[], t.debts)
  }

  lemma ResumedGives(s: State, script: nat -> Reply)
    requires ShapeOk(s) && s.wal.Some? && Reversible(s.wal.value)
    ensures PassGives(s, Resumed(s, script), script)
  {
    var p, after := s.wal.value, Worked(s, script, 0);
    WorkedOnlyPlan(s, script, 0);
    forall w ensures Gives(p.books, after.wal.value.books, w, GivenBackFrom(PlanUSD(w), s.chain, p.batches, script, 0)) {
      WorkedGives(s, script, 0, w, Key("", ""));
    }
    forall k ensures Owes(p.books, after.wal.value.books, k, GivenBackFrom(PlanTo(k), s.chain, p.batches, script, 0)) {
      WorkedGives(s, script, 0, "", k);
    }
  }

  // ---- What a plan collects ----

  predicate AnythingDue(s: State) {
    s.cursor <= |s.log| && (BillableOf(s.log[s.cursor..]) != [] || s.dead != [] || LoadDebts(s.debts) != [])
  }

  /** The books of a plan made of everything outstanding at the peek, under the balances and
      prices of its cycle: each wallet's billable cost and carried debt is settled or owed, what
      cannot be attributed yet is parked, and a wallet whose token value covers it owes
      nothing. */
  ghost predicate PlanPays(cfg: Config, env: Env, peeked: State, books: Books, parked: seq<Record>)
    requires peeked.cursor <= |peeked.log|
  {
    var records := peeked.dead + Unread(peeked);
    forall w :: Collects(cfg, env, records, peeked.debts, books, parked, w)
  }

  /** And every SP gets its share of it, or is owed it. */
  ghost predicate PlanEarnsAll(cfg: Config, env: Env, peeked: State, p: Wal)
    requires peeked.cursor <= |peeked.log|
  {
    var records, carried := peeked.dead + Unread(peeked), LoadDebts(peeked.debts);
    forall k :: Earned(env.market, cfg.tokens, DueTo(cfg, env, records, carried, k), Sum(BatchTo(k), p.batches), Sum(DebtCost(k), p.books.debts))
  }

  ghost predicate Collects(cfg: Config, env: Env, records: seq<Record>, debts: seq<Debt>, books: Books, parked: seq<Record>, w: string) {
    var billed, owed := Sum(CostBy(cfg, w), Collectable(env, records)), Sum(DebtBy(w), debts);
    && billed + owed == SettledOf(books.settled, w) + Sum(DebtBy(w), books.debts)
    && Sum(CostBy(cfg, w), records) == billed + Sum(CostBy(cfg, w), parked)
    && (WellConfigured(cfg) && env.market.fil > 0.0 && billed + owed <= B.TokenValue(cfg.tokens, env.market, BalancesOf(env, w)) ==>
      SettledOf(books.settled, w) == billed + owed && forall d | d in books.debts :: d.key.wallet != w)
  }

  lemma {:induction false} AggregateCollects(cfg: Config, env: Env, records: seq<Record>, debts: seq<Debt>, w: string)
    requires PositiveFeeds(env.market) && Chargeable(cfg, records)
    ensures var agg := Aggregate(cfg, env, records, LoadDebts(debts));
      Collects(cfg, env, records, debts, Books(agg.settled, agg.debts), agg.unresolved, w)
  {
    var carried := LoadDebts(debts);
    var agg := Aggregate(cfg, env, records, carried);
    LoadedDebts(debts, w);
    AggregationConserves(cfg, env, records, carried, w);
    CollectedAndUnresolved(cfg, env, records, carried);
    SumSplit(CostBy(cfg, w), records, Collectable(env, records), agg.unresolved);
    if WellConfigured(cfg) && env.market.fil > 0.0
       && Sum(CostBy(cfg, w), Collectable(env, records)) + Sum(DebtBy(w), debts) <= B.TokenValue(cfg.tokens, env.market, BalancesOf(env, w)) {
      GateCoversAllocation(cfg, env, records, carried, w);
    }
  }

  /** So it is for a plan written into whatever state the requests served meanwhile leave. */
  lemma WrittenPlanPays(cfg: Config, peeked: State, t: State, env: Env, now: nat)
    requires peeked.cursor == t.cursor <= |peeked.log| && peeked.log <= t.log && peeked.dead == t.dead && peeked.debts == t.debts
    requires PositiveFeeds(env.market) && Chargeable(cfg, peeked.dead + Unread(peeked))
    ensures var s := PlanWritten(cfg, t, |peeked.log|, env, now);
      PlanPays(cfg, env, peeked, s.wal.value.books, s.dead) && (env.market.fil > 0.0 ==> PlanEarnsAll(cfg, env, peeked, s.wal.value))
  {
    var records := peeked.dead + Unread(peeked);
    assert t.log[..|peeked.log|] == peeked.log;
    SamePlan(cfg, peeked, t.(log := t.log[..|peeked.log|]), env, now);
    forall w { AggregateCollects(cfg, env, records, peeked.debts, w); }
    if env.market.fil > 0.0 {
      forall k { PlanEarns(cfg, peeked, env, now, k); }
    }
  }

  /** `planned` is `peeked` with requests served and then the plan written. */
  ghost predicate WrittenAfter(cfg: Config, env: Env, now: nat, peeked: State, planned: State)
    requires peeked.cursor <= |peeked.log|
  {
    exists events, t :: PlanFollows(cfg, env, now, peeked, events, t, planned)
  }

  ghost predicate PlanFollows(cfg: Config, env: Env, now: nat, peeked: State, events: seq<Event>, t: State, planned: State)
    requires peeked.cursor <= |peeked.log|
  {
    && MeanwhileTo(cfg, peeked, events, t) && peeked.log <= t.log && t.cursor == peeked.cursor
    && planned == PlanWritten(cfg, t, |peeked.log|, env, now)
  }

  /** A plan of this cycle: it bills what was due at the peek and stops there. */
  ghost predicate PlannedAs(cfg: Config, env: Env, now: nat, peeked: State, planned: State) {
    && peeked.cursor <= |peeked.log| && WrittenAfter(cfg, env, now, peeked, planned)
    && planned.wal.Some? && planned.wal.value.cursor == |peeked.log| && planned.wal.value.createdAt == now == planned.clock
    && planned.cursor == peeked.cursor && planned.debts == peeked.debts
    && (PositiveFeeds(env.market) && Chargeable(cfg, peeked.dead + Unread(peeked)) ==>
      && PlanPays(cfg, env, peeked, planned.wal.value.books, planned.dead)
      && (env.market.fil > 0.0 ==> PlanEarnsAll(cfg, env, peeked, planned.wal.value)))
  }

  lemma {:induction false} PlannedLate(cfg: Config, s: State, env: Env, now: nat, events: seq<Event>, t: State)
    requires s.cursor <= |s.log| && MeanwhileTo(cfg, s, events, t)
    ensures s.log <= t.log && t.cursor == s.cursor && PlannedAs(cfg, env, now, s, PlanWritten(cfg, t, |s.log|, env, now))
  {
    EventsPassPlan(cfg, s, |s.log|, env, now, events, t);
    MeanwhileKeeps(cfg, s, events, t);
    assert PlanFollows(cfg, env, now, s, events, t, PlanWritten(cfg, t, |s.log|, env, now));
    if PositiveFeeds(env.market) && Chargeable(cfg, s.dead + Unread(s)) { WrittenPlanPays(cfg, s, t, env, now); }
  }

  lemma {:induction false} MeanwhileKeeps(cfg: Config, s: State, events: seq<Event>, t: State)
    requires MeanwhileTo(cfg, s, events, t)
    ensures t.dead == s.dead && t.debts == s.debts && t.done == s.done
    decreases |events|
  {
    if events != [] {
      assert Meanwhile(events[0]);
      MeanwhileKeeps(cfg, Apply(cfg, s, events[0]), events[1..], t);
    }
  }

  /** A pass touches no log, dead letter or clock, and completes at most one plan. */
  lemma WorkedKeeps(s: State, script: nat -> Reply)
    requires ShapeOk(s)
    ensures var t := Resumed(s, script);
      && t.log == s.log && t.dead == s.dead && t.clock == s.clock && t.restored == s.restored
      && (t.wal.None? && s.wal.Some? ==> |t.done| == |s.done| + 1 && t.cursor == s.wal.value.cursor)
      && (t.wal.Some? ==> t.done == s.done && t.cursor == s.cursor && t.debts == s.debts)
      && (s.wal.None? ==> t == s)
  {
    if s.wal.Some? { WorkedOnlyPlan(s, script, 0); }
  }

  /** A cycle from `s` to `t`: the first pass leaves `peeked`. A plan is written exactly if the
      pass left none, something is due and the price is fresh, and then worked through. */
  ghost predicate Cycled(cfg: Config, env: Env, now: nat, stale: bool, first: nat -> Reply, second: nat -> Reply, s: State, peeked: State, planned: Option<State>, t: State) {
    && ShapeOk(s) && peeked == Resumed(s, first)
    && (planned.Some? <==> peeked.wal.None? && AnythingDue(peeked) && !stale)
    && match planned
       case None => t == peeked
       case Some(p) => ShapeOk(p) && PlannedAs(cfg, env, now, peeked, p) && t == Resumed(p, second)
  }

  /** When its time is stamped, and what it leaves unread. */
  lemma CycleAdvances(cfg: Config, env: Env, now: nat, stale: bool, first: nat -> Reply, second: nat -> Reply, s: State, peeked: State, planned: Option<State>, t: State)
    requires Cycled(cfg, env, now, stale, first, second, s, peeked, planned, t) && peeked.cursor <= |peeked.log|
    ensures t.clock == s.clock || (t.clock == now && (s.wal.Some? ==> |t.done| > |s.done|))
    ensures t.wal.None? && !stale ==> s.log <= t.log && AllRead(s.log, t.cursor)
  {
    WorkedKeeps(s, first);
    if planned.Some? {
      var p := planned.value;
      WorkedKeeps(p, second);
      PlannedGrows(cfg, env, now, peeked, p);
    }
  }

  lemma PlannedGrows(cfg: Config, env: Env, now: nat, peeked: State, planned: State)
    requires PlannedAs(cfg, env, now, peeked, planned)
    ensures peeked.log <= planned.log && planned.done == peeked.done
  {
    var events, t :| PlanFollows(cfg, env, now, peeked, events, t, planned);
    MeanwhileKeeps(cfg, peeked, events, t);
  }

  /** What it does to the money of every wallet. */
  lemma CycleGives(cfg: Config, env: Env, now: nat, stale: bool, first: nat -> Reply, second: nat -> Reply, s: State, peeked: State, planned: Option<State>, t: State)
    requires Cycled(cfg, env, now, stale, first, second, s, peeked, planned, t)
    ensures s.wal.Some? && Reversible(s.wal.value) ==> PassGives(s, peeked, first)
    ensures planned.Some? && Reversible(planned.value.wal.value) ==> PassGives(planned.value, t, second)
  {
    if s.wal.Some? && Reversible(s.wal.value) { ResumedGives(s, first); }
    if planned.Some? && Reversible(planned.value.wal.value) { ResumedGives(planned.value, second); }
  }

  /** In reachable states the money laws of a cycle apply: the outstanding plan covers what may
      be given back, and what is due is metered. */
  lemma CycleApplies(cfg: Config, s: State)
    requires Reachable(cfg, s) && PricesNonNegative(cfg.prices)
    ensures ShapeOk(s) && (s.wal.Some? ==> Reversible(s.wal.value)) && Chargeable(cfg, s.dead + Unread(s))
  {
    ReachableMoney(cfg, s);
    UnreadMetered(s);
  }
}
