/** Restarts and dead letters: a plan rewrites the dead letters, and until it is completed that
    rewrite decides whether a restart restores what is owed. */
module Restarts {
  import opened Sums
  import opened Billing
  import opened Allocator
  import opened Aggregator
  import opened AggregatorLaws
  import opened RequestLog
  import opened Settlement
  import opened SettlementSafety
  import opened SettlementMoney
  import opened PendingLaw
  import B = Balances

  // ---- What a plan does to the dead letters ----

  /** The new records a plan parks: those nobody can be paid for, or all without a FIL price. */
  function Parked(env: Env, unread: seq<Record>): seq<Record> {
    if env.market.fil <= 0.0 then unread else Unresolved(env, unread)
  }

  lemma {:induction false} UnresolvedConcat(env: Env, a: seq<Record>, b: seq<Record>)
    ensures Unresolved(env, a + b) == Unresolved(env, a) + Unresolved(env, b)
    decreases |b|
  {
    if b == [] {
      assert a + b == a;
    } else {
      var n := |b| - 1;
      UnresolvedConcat(env, a, b[..n]);
      assert (a + b)[..|a + b| - 1] == a + b[..n];
    }
  }

  /** Planning takes the dead letters that can now be paid off the list and adds what it parks. */
  lemma PlanRewrites(cfg: Config, s: State, env: Env, w: string)
    requires s.cursor <= |s.log|
    ensures Sum(CostBy(cfg, w), AggregateOf(cfg, s, env).unresolved) ==
      Sum(CostBy(cfg, w), s.dead) - Sum(CostBy(cfg, w), Collectable(env, s.dead)) + Sum(CostBy(cfg, w), Parked(env, Unread(s)))
  {
    if env.market.fil > 0.0 {
      UnresolvedConcat(env, s.dead, Unread(s));
      SumConcat(CostBy(cfg, w), Unresolved(env, s.dead), Unresolved(env, Unread(s)));
      RecordsSplit(env, s.dead);
      SumSplit(CostBy(cfg, w), s.dead, Resolved(env, s.dead), Unresolved(env, s.dead));
    } else {
      SumConcat(CostBy(cfg, w), s.dead, Unread(s));
    }
  }

  /** For a wallet, the dead letters a plan can now pay cost what the new records it parks do. */
  predicate RewriteBalanced(cfg: Config, env: Env, s: State, w: string)
    requires s.cursor <= |s.log|
  {
    Sum(CostBy(cfg, w), Collectable(env, s.dead)) == Sum(CostBy(cfg, w), Parked(env, Unread(s)))
  }

  /** The plain case: no dead letter can be paid now and every new record can. */
  lemma IdleIsBalanced(cfg: Config, env: Env, s: State, w: string)
    requires s.cursor <= |s.log| && env.market.fil > 0.0 && RewriteIsIdle(env, s.dead, Unread(s))
    ensures RewriteBalanced(cfg, env, s, w)
  {
    AllParked(env, Unread(s), false);
    AllParked(env, s.dead, true);
  }

  lemma {:induction false} AllParked(env: Env, records: seq<Record>, none: bool)
    requires forall r | r in records :: Resolvable(env, r) != none
    ensures none ==> Resolved(env, records) == []
    ensures !none ==> Unresolved(env, records) == []
    decreases |records|
  {
    if records != [] {
      assert records[|records| - 1] in records;
      AllParked(env, records[..|records| - 1], none);
    }
  }

  // ---- Restoring with a plan outstanding ----

  /** As long as no plan is completed, the outstanding one keeps its history and its dead
      letters. */
  lemma {:induction false} PlanHeld(cfg: Config, s: State, events: seq<Event>, t: State)
    requires ShapeOk(s) && Runs(cfg, s, events, t)
    ensures ShapeOk(t) && |t.done| >= |s.done|
    ensures s.wal.Some? && |t.done| == |s.done| ==> t.wal.Some? && t.round.value.retried == s.round.value.retried && t.dead == s.dead
    decreases |events|
  {
    if events != [] {
      ShapeStep(cfg, s, events[0]);
      HeldStep(cfg, s, events[0]);
      PlanHeld(cfg, Apply(cfg, s, events[0]), events[1..], t);
    }
  }

  lemma HeldStep(cfg: Config, s: State, e: Event)
    requires ShapeOk(s) && Enabled(cfg, s, e)
    ensures var t := Apply(cfg, s, e);
      && |t.done| >= |s.done|
      && (s.wal.Some? && |t.done| == |s.done| ==>
            t.wal.Some? && t.round.Some? && t.round.value.retried == s.round.value.retried && t.dead == s.dead)
  {
  }

  lemma {:induction false} RunsKeepBase(cfg: Config, s: State, events: seq<Event>, t: State)
    requires Safe(s) && MoneyOk(cfg, s) && BeforePlanOk(cfg, s) && PricesNonNegative(cfg.prices) && Runs(cfg, s, events, t)
    ensures Safe(t) && MoneyOk(cfg, t) && BeforePlanOk(cfg, t)
    decreases |events|
  {
    if events != [] {
      SafeStep(cfg, s, events[0]);
      MoneyStep(cfg, s, events[0]);
      BeforePlanStep(cfg, s, events[0]);
      RunsKeepBase(cfg, Apply(cfg, s, events[0]), events[1..], t);
    }
  }

  /** Without an outstanding plan a restart restores a wallet's held amount exactly if nothing
      but its reservations and stranded usage was pending before. */
  lemma RestoreWithoutPlan(cfg: Config, s: State, w: string)
    requires Reachable(cfg, s) && PricesNonNegative(cfg.prices) && s.wal.None? && Enabled(cfg, s, Restore)
    ensures var after := Apply(cfg, s, Restore);
      B.PendingOf(after.pending, w) == Held(cfg, after, w) <==> B.PendingOf(s.pending, w) == Reserved(s, w) + Stranded(cfg, s, w)
  {
    ReachableMoney(cfg, s);
    RestoreExact(cfg, s, w);
  }

  lemma {:induction false} PlanStillHeld(cfg: Config, s: State, env: Env, now: nat, events: seq<Event>, t: State)
    requires Reachable(cfg, s) && PricesNonNegative(cfg.prices) && Enabled(cfg, s, Plan(env, now))
    requires Runs(cfg, Apply(cfg, s, Plan(env, now)), events, t) && |t.done| == |s.done|
    ensures Safe(t) && MoneyOk(cfg, t) && BeforePlanOk(cfg, t)
    ensures s.cursor <= |s.log| && RetriedOrDead(t) == s.dead && t.dead == AggregateOf(cfg, s, env).unresolved
  {
    var planned := Apply(cfg, s, Plan(env, now));
    ReachableMoney(cfg, s);
    SafeStep(cfg, s, Plan(env, now));
    MoneyStep(cfg, s, Plan(env, now));
    BeforePlanStep(cfg, s, Plan(env, now));
    RunsKeepBase(cfg, planned, events, t);
    PlanHeld(cfg, planned, events, t);
  }

  lemma RestoreDistance(cfg: Config, t: State, w: string)
    requires Safe(t) && MoneyOk(cfg, t) && BeforePlanOk(cfg, t) && PricesNonNegative(cfg.prices) && Enabled(cfg, t, Restore)
    ensures B.PendingOf(RestorePending(cfg, t), w) - Held(cfg, t, w) ==
      B.PendingOf(t.pending, w) - Reserved(t, w) - Stranded(cfg, t, w) + Sum(CostBy(cfg, w), t.dead) - Sum(CostBy(cfg, w), RetriedOrDead(t))
  {
    RestoredAmount(cfg, t, w);
    BilledAtRestore(cfg, t, w);
  }

  /** With one outstanding it is off by what the plan did to the dead letters when it was made:
      too much by the new records it parked, which are still unread, too little by the dead
      letters it took off. So a restart with nothing admitted before is exact if and only if
      those cost the same for the wallet. */
  lemma {:induction false} RestoreAfterPlan(cfg: Config, s: State, env: Env, now: nat, events: seq<Event>, t: State, w: string)
    requires Reachable(cfg, s) && PricesNonNegative(cfg.prices) && Enabled(cfg, s, Plan(env, now))
    requires Runs(cfg, Apply(cfg, s, Plan(env, now)), events, t) && |t.done| == |s.done| && Enabled(cfg, t, Restore)
    ensures var after := Apply(cfg, t, Restore);
      && B.PendingOf(after.pending, w) - Held(cfg, after, w) ==
           B.PendingOf(t.pending, w) - Reserved(t, w) - Stranded(cfg, t, w)
           + Sum(CostBy(cfg, w), Parked(env, Unread(s))) - Sum(CostBy(cfg, w), Collectable(env, s.dead))
      && (t.pending == map[] && t.inflight == [] && t.stranded == [] ==>
            (B.PendingOf(after.pending, w) == Held(cfg, after, w) <==> RewriteBalanced(cfg, env, s, w)))
  {
    PlanStillHeld(cfg, s, env, now, events, t);
    PlanRewrites(cfg, s, env, w);
    RestoreDistance(cfg, t, w);
    RestoreKeepsExact(cfg, t, w);
  }

  // ---- Runs with a condition to check beforehand ----

  /** No reservation as small as the dust, nothing admitted between a restart and its restore,
      and no plan whose rewrite of the dead letters changes what they cost a wallet. */
  ghost predicate Orderly(cfg: Config, s: State, e: Event)
    requires Enabled(cfg, s, e)
  {
    match e
    case Complete(i, _, _) => s.inflight[i].est > DustBound(s) && s.restored
    case Release(i) => s.inflight[i].est > DustBound(s) && s.restored
    case Plan(env, _) => forall w :: RewriteBalanced(cfg, env, s, w)
    case Restore => s.pending == map[] && s.inflight == [] && s.stranded == []
    case _ => true
  }

  ghost predicate RunsOrderly(cfg: Config, s: State, events: seq<Event>, t: State)
    decreases |events|
  {
    if events == [] then s == t
    else Enabled(cfg, s, events[0]) && Orderly(cfg, s, events[0]) && RunsOrderly(cfg, Apply(cfg, s, events[0]), events[1..], t)
  }

  /** The dead letters cost what those the outstanding plan retried did. */
  ghost predicate DeadAsRetried(cfg: Config, s: State) {
    forall w :: Sum(CostBy(cfg, w), s.dead) == Sum(CostBy(cfg, w), RetriedOrDead(s))
  }

  lemma DeadStep(cfg: Config, s: State, e: Event)
    requires ShapeOk(s) && DeadAsRetried(cfg, s) && Enabled(cfg, s, e) && Orderly(cfg, s, e)
    ensures DeadAsRetried(cfg, Apply(cfg, s, e))
  {
    var t := Apply(cfg, s, e);
    if e.Plan? {
      forall w ensures Sum(CostBy(cfg, w), t.dead) == Sum(CostBy(cfg, w), RetriedOrDead(t)) {
        assert RewriteBalanced(cfg, e.env, s, w);
        PlanRewrites(cfg, s, e.env, w);
      }
    } else if t.wal.Some? {
      HeldStep(cfg, s, e);
    }
  }

  lemma OrderlyIsGentle(cfg: Config, s: State, e: Event)
    requires Steady(cfg, s) && DeadAsRetried(cfg, s) && PricesNonNegative(cfg.prices) && Enabled(cfg, s, e) && Orderly(cfg, s, e)
    ensures Gentle(cfg, s, e)
  {
    if e.Complete? || e.Release? {
      EntrySurvives(cfg, s, s.inflight[e.i]);
    } else if e.Restore? {
      forall w ensures B.PendingOf(s.pending, w) + Sum(CostBy(cfg, w), s.dead) ==
        Reserved(s, w) + Stranded(cfg, s, w) + Sum(CostBy(cfg, w), RetriedOrDead(s)) {}
    }
  }

  /** Orderly runs are gentle, so both laws hold of them. */
  lemma {:induction false} OrderlyRunsGently(cfg: Config, s: State, events: seq<Event>, t: State)
    requires Steady(cfg, s) && DeadAsRetried(cfg, s) && PricesNonNegative(cfg.prices) && RunsOrderly(cfg, s, events, t)
    ensures RunsGently(cfg, s, events, t)
    decreases |events|
  {
    if events != [] {
      OrderlyIsGentle(cfg, s, events[0]);
      SteadyStep(cfg, s, events[0]);
      DeadStep(cfg, s, events[0]);
      OrderlyRunsGently(cfg, Apply(cfg, s, events[0]), events[1..], t);
    }
  }

  /** Conservation for runs that meet conditions to be checked as they go: estimates above the
      dust, no streamed error reply, no traffic before a restore, and plans whose rewrite of the
      dead letters is balanced. */
  lemma {:induction false} PendingConservedOrderly(cfg: Config, events: seq<Event>, s: State, w: string)
    requires RunsOrderly(cfg, Initial(), events, s) && PricesNonNegative(cfg.prices) && s.restored && !PlanReduced(s)
    requires !StrandsAny(events)
    ensures PlannedTo(s) <= |s.log|
    ensures var owed := Reserved(s, w) + Sum(CostBy(cfg, w), BillableOf(s.log[PlannedTo(s)..])) + Sum(CostBy(cfg, w), s.dead)
                        + Sum(DebtBy(w), Outstanding(s)) + PlanSettled(s, w);
      B.PendingOf(s.pending, w) <= owed <= B.PendingOf(s.pending, w) + s.cuts as real * B.DUST_CUTOFF
  {
    InitiallySteady(cfg);
    OrderlyRunsGently(cfg, Initial(), events, s);
    GentleIsRun(cfg, Initial(), events, s);
    NothingStranded(cfg, Initial(), events, s, w);
    PendingConserved(cfg, events, s, w);
  }

  lemma {:induction false} GentleIsRun(cfg: Config, s: State, events: seq<Event>, t: State)
    requires RunsGently(cfg, s, events, t)
    ensures Runs(cfg, s, events, t)
    decreases |events|
  {
    if events != [] { GentleIsRun(cfg, Apply(cfg, s, events[0]), events[1..], t); }
  }

  // ---- Where the atomic plan write matters ----

  /** The state after the dead letters are written and the plan is lost to a crash. */
  ghost function Torn(cfg: Config, s: State, env: Env): State
    requires s.cursor <= |s.log|
  {
    s.(dead := AggregateOf(cfg, s, env).unresolved)
  }

  /** How often the next cycle then counts a record: a dead letter that had become resolvable
      is lost, an unread record that is not resolvable is counted twice. */
  lemma TornCounts(cfg: Config, s: State, env: Env, r: Record)
    requires s.cursor <= |s.log| && env.market.fil > 0.0
    ensures var torn, unread := Torn(cfg, s, env), multiset(Unread(s))[r];
      multiset(torn.dead + Unread(torn))[r] == unread + if Resolvable(env, r) then 0 else multiset(s.dead)[r] + unread
  {
    UnresolvedCount(env, s.dead + Unread(s), r);
  }

  /** Nothing is lost or counted twice exactly when no dead letter has become resolvable and
      every unread record is; without a FIL price, exactly when nothing is unread. */
  lemma DeadLettersBeforeWal(cfg: Config, s: State, env: Env)
    requires s.cursor <= |s.log|
    ensures var torn := Torn(cfg, s, env);
      multiset(torn.dead + Unread(torn)) == multiset(s.dead + Unread(s))
      <==> if env.market.fil > 0.0
           then RewriteIsIdle(env, s.dead, Unread(s))
           else Unread(s) == []
  {
    if env.market.fil > 0.0 {
      TornWithPrice(cfg, s, env);
    } else {
      TornWithoutPrice(cfg, s, env);
    }
  }

  lemma TornWithoutPrice(cfg: Config, s: State, env: Env)
    requires s.cursor <= |s.log| && env.market.fil <= 0.0
    ensures multiset(Torn(cfg, s, env).dead + Unread(s)) == multiset(s.dead + Unread(s)) <==> Unread(s) == []
  {
    var dead, unread := s.dead, Unread(s);
    assert |multiset(dead + unread + unread)| == |dead| + 2 * |unread| && |multiset(dead + unread)| == |dead| + |unread|;
    if unread == [] { assert dead + unread == dead; }
  }

  /** No dead letter has become resolvable and every unread record is. */
  ghost predicate RewriteIsIdle(env: Env, dead: seq<Record>, unread: seq<Record>) {
    (forall r | r in dead :: !Resolvable(env, r)) && (forall r | r in unread :: Resolvable(env, r))
  }

  lemma CountsTell(env: Env, dead: seq<Record>, unread: seq<Record>, after: multiset<Record>)
    requires forall r :: after[r] == multiset(unread)[r] + if Resolvable(env, r) then 0 else multiset(dead)[r] + multiset(unread)[r]
    ensures after == multiset(dead + unread) <==> RewriteIsIdle(env, dead, unread)
  {
    var before := multiset(dead + unread);
    assert forall r :: before[r] == multiset(dead)[r] + multiset(unread)[r];
    if after == before {
      forall r | r in dead ensures !Resolvable(env, r) { assert after[r] == before[r]; }
      forall r | r in unread ensures Resolvable(env, r) { assert after[r] == before[r]; }
    }
    if RewriteIsIdle(env, dead, unread) {
      forall r ensures after[r] == before[r] { assert r in dead <==> multiset(dead)[r] > 0; }
    }
  }

  lemma TornWithPrice(cfg: Config, s: State, env: Env)
    requires s.cursor <= |s.log| && env.market.fil > 0.0
    ensures multiset(Torn(cfg, s, env).dead + Unread(s)) == multiset(s.dead + Unread(s)) <==> RewriteIsIdle(env, s.dead, Unread(s))
  {
    var after := multiset(Torn(cfg, s, env).dead + Unread(s));
    forall r ensures after[r] == multiset(Unread(s))[r] + if Resolvable(env, r) then 0 else multiset(s.dead)[r] + multiset(Unread(s))[r] {
      TornCounts(cfg, s, env, r);
    }
    CountsTell(env, s.dead, Unread(s), after);
  }

  /** The two failing inputs: a dead letter that resolves now is lost with the plan, a new
      record that does not resolve yet is billed twice. */
  lemma TornLosesAndDuplicates(cfg: Config, env: Env, l: Line)
    requires env.market.fil > 0.0 && BillableLine(l)
    ensures var r := l.rec.value;
      var parked, unsettled := Initial().(log := [l], cursor := 1, dead := [r]), Initial().(log := [l]);
      if Resolvable(env, r)
      then multiset(parked.dead + Unread(parked))[r] == 1 && multiset(Torn(cfg, parked, env).dead + Unread(parked))[r] == 0
      else multiset(unsettled.dead + Unread(unsettled))[r] == 1 && multiset(Torn(cfg, unsettled, env).dead + Unread(unsettled))[r] == 2
  {
    var r := l.rec.value;
    var parked, unsettled := Initial().(log := [l], cursor := 1, dead := [r]), Initial().(log := [l]);
    assert unsettled.log[unsettled.cursor..] == [l] && [l][..0] == [] && BillableOf([l]) == [] + [r];
    TornCounts(cfg, parked, env, r);
    TornCounts(cfg, unsettled, env, r);
  }
}
