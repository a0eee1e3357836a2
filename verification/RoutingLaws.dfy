/** Which worker a request goes to, told from the fleet: who has the model, who is loaded, who is
    about to yield, and how the draw is shared. */
module RoutingLaws {
  import opened Orders
  import opened Workers

  // ---- Which group ----

  ghost predicate HasModel(pol: Policy, w: Worker, model: string, exclude: set<string>, now: real) {
    Eligible(pol, w, model, exclude, now) && ModelMatches(w.loadedModel, model)
  }

  /** An idle worker that could switch to the model. */
  ghost predicate CouldSwitch(pol: Policy, w: Worker, model: string, exclude: set<string>, now: real) {
    Eligible(pol, w, model, exclude, now) && !ModelMatches(w.loadedModel, model) && Supports(w, model) && w.state == Idle
  }

  /** More requests than the factor allows its GPUs, rounded down. */
  predicate Busier(w: Worker, factor: real) {
    var gpus := if w.gpuCount <= 0 then 1 else w.gpuCount;
    EffectiveLoad(w) > (gpus as real * factor).Floor
  }

  ghost predicate SomeHave(pol: Policy, list: seq<Worker>, model: string, exclude: set<string>, now: real) {
    exists w | w in list :: HasModel(pol, w, model, exclude, now)
  }

  ghost predicate SomeCouldSwitch(pol: Policy, list: seq<Worker>, model: string, exclude: set<string>, now: real) {
    exists w | w in list :: CouldSwitch(pol, w, model, exclude, now)
  }

  ghost predicate AllBusy(pol: Policy, list: seq<Worker>, model: string, exclude: set<string>, now: real) {
    pol.overloadFactor > 0.0 && forall w | w in list && HasModel(pol, w, model, exclude, now) :: Busier(w, pol.overloadFactor)
  }

  lemma {:induction false} GroupMembers(pol: Policy, list: seq<Worker>, model: string, exclude: set<string>, now: real, g: Group)
    ensures Members(pol, list, model, exclude, now, g) != [] <==>
      exists w | w in list :: Eligible(pol, w, model, exclude, now) && GroupOf(w, model) == g
  {
    MembersAre(pol, list, model, exclude, now, g);
    var cs := Members(pol, list, model, exclude, now, g);
    if cs != [] { assert cs[0] in cs; }
    forall w | w in list && Eligible(pol, w, model, exclude, now) && GroupOf(w, model) == g ensures cs != [] {
      MembersAll(pol, list, model, exclude, now, w);
    }
  }

  lemma OverloadedIsBusier(c: Candidate, factor: real)
    requires factor > 0.0
    ensures Overloaded(c, factor) <==> Busier(c.worker, factor)
  {
    ScaledUp(Gpus(c.worker) as real, factor);
  }

  lemma ScaledUp(x: real, factor: real)
    requires x >= 0.0 && factor > 0.0
    ensures x * factor >= 0.0
  {
  }

  lemma {:induction false} LoadedOverloaded(pol: Policy, list: seq<Worker>, model: string, exclude: set<string>, now: real)
    requires !AnyModel(model) && pol.overloadFactor > 0.0
    ensures AllOverloaded(Members(pol, list, model, exclude, now, LoadedGroup), pol.overloadFactor) <==> AllBusy(pol, list, model, exclude, now)
  {
    var cs := Members(pol, list, model, exclude, now, LoadedGroup);
    MembersAre(pol, list, model, exclude, now, LoadedGroup);
    forall c | c in cs ensures Overloaded(c, pol.overloadFactor) <==> Busier(c.worker, pol.overloadFactor) {
      OverloadedIsBusier(c, pol.overloadFactor);
    }
    forall w | w in list && HasModel(pol, w, model, exclude, now) ensures exists c | c in cs :: c.worker == w {
      MembersAll(pol, list, model, exclude, now, w);
    }
    forall c | c in cs ensures HasModel(pol, c.worker, model, exclude, now) {}
  }

  /** A named model goes to a worker that has it, unless none does, or all that do are busy and
      an idle one could switch: then to one that could switch. */
  lemma {:induction false} WhoIsPreferred(pol: Policy, list: seq<Worker>, model: string, exclude: set<string>, now: real, c: Candidate)
    requires !AnyModel(model) && c in Preferred(pol, list, model, exclude, now)
    ensures c.worker in list
    ensures if SomeHave(pol, list, model, exclude, now) && !(AllBusy(pol, list, model, exclude, now) && SomeCouldSwitch(pol, list, model, exclude, now))
      then HasModel(pol, c.worker, model, exclude, now) else CouldSwitch(pol, c.worker, model, exclude, now)
  {
    GroupMembers(pol, list, model, exclude, now, LoadedGroup);
    GroupMembers(pol, list, model, exclude, now, SupportedGroup);
    GroupMembers(pol, list, model, exclude, now, FallbackGroup);
    MembersAre(pol, list, model, exclude, now, LoadedGroup);
    MembersAre(pol, list, model, exclude, now, SupportedGroup);
    if pol.overloadFactor > 0.0 { LoadedOverloaded(pol, list, model, exclude, now); }
  }

  /** Any model goes to any eligible worker. */
  lemma {:induction false} AnyoneIsPreferred(pol: Policy, list: seq<Worker>, model: string, exclude: set<string>, now: real, w: Worker)
    requires AnyModel(model)
    ensures (exists c | c in Preferred(pol, list, model, exclude, now) :: c.worker == w) <==> w in list && Eligible(pol, w, model, exclude, now)
  {
    GroupMembers(pol, list, model, exclude, now, LoadedGroup);
    GroupMembers(pol, list, model, exclude, now, SupportedGroup);
    MembersAre(pol, list, model, exclude, now, FallbackGroup);
    if w in list && Eligible(pol, w, model, exclude, now) { MembersAll(pol, list, model, exclude, now, w); }
  }

  // ---- What share ----

  /** The larger of what a worker reports and what was sent to it since. */
  lemma LoadIsLarger(w: Worker)
    ensures EffectiveLoad(w) >= w.inFlight && EffectiveLoad(w) >= w.activeRequests
    ensures EffectiveLoad(w) == w.inFlight || EffectiveLoad(w) == w.activeRequests
  {
  }

  predicate Steady(w: Worker) { w.secondsUntilChange < 0 || w.untilChangeAt.None? }

  /** An idle worker weighs its GPUs, at least one. */
  lemma IdleWeight(w: Worker, now: real)
    requires Steady(w) && w.inFlight <= 0 && w.activeRequests <= 0
    ensures w.gpuCount >= 1 ==> Weight(w, now) == w.gpuCount as real
    ensures w.gpuCount < 1 ==> Weight(w, now) == 1.0
  {
  }

  /** A busy worker weighs its GPUs shared among its requests and itself, but not below one. */
  lemma BusyWeight(w: Worker, now: real, gpus: real, load: real)
    requires Steady(w) && load == EffectiveLoad(w) as real > 0.0 && gpus == Gpus(w) as real
    ensures Weight(w, now) >= 1.0
    ensures Weight(w, now) > 1.0 ==> Weight(w, now) * (gpus + load) == gpus * gpus
    ensures Weight(w, now) == 1.0 ==> gpus * gpus <= gpus + load
  {
    var factor := 1.0 + load / gpus;
    assert gpus >= 1.0 && factor > 0.0;
    assert factor * gpus == gpus + load;
    SharedWeight(gpus, load, gpus / factor, factor);
  }

  lemma SharedWeight(gpus: real, load: real, shared: real, factor: real)
    requires gpus >= 1.0 && load > 0.0 && factor > 0.0 && shared == gpus / factor && factor * gpus == gpus + load
    ensures shared * (gpus + load) == gpus * gpus && (shared <= 1.0 ==> gpus * gpus <= gpus + load)
  {
    assert shared * factor == gpus;
    assert shared * (factor * gpus) == (shared * factor) * gpus;
  }

  /** Within a minute of a known yield, counted from when it was announced, the weight is a
      twentieth; before that it is what it would be without the announcement. */
  lemma YieldingWeight(w: Worker, now: real)
    requires !Steady(w)
    ensures var left, calm := w.secondsUntilChange as real - (now - w.untilChangeAt.value), w.(untilChangeAt := None);
      Weight(w, now) == if left < 60.0 then Weight(calm, now) * 0.05 else Weight(calm, now)
  {
  }

  /** The draws that pick a candidate are as many as its share of the weight. */
  lemma {:induction false} ShareOfDraws(cs: seq<Candidate>, i: nat, u: real)
    requires Weighted(cs) && |cs| > 1 && i < |cs| && 0.0 < u < 1.0
    ensures Drawn(cs, u, i) <==> Cumulative(cs[..i]) < u * Cumulative(cs) <= Cumulative(cs[..i]) + cs[i].weight
  {
    assert cs[..i + 1][..i] == cs[..i] && cs[..0] == [] && cs[..|cs|] == cs;
    CumulativeGrows(cs, 0, |cs|);
  }

  // ---- Who is routable after a poll ----

  /** A worker can be sent requests after a poll exactly if its GPU is free for inference, its
      engine runs, and no switch is pending; it is busy exactly if it reports requests. */
  lemma RoutableAfterPoll(w: Worker, p: Poll, timeout: real, now: real)
    ensures var after := Polled(w, p, timeout, now);
      && (after.state == Idle || after.state == Busy <==>
            && p.gpuState == "GPU_STATE_AVAILABLE" && (p.engineState == "" || p.engineState == "running")
            && (w.switchingTo == "" || SameModel(p.loadedModel, w.switchingTo)))
      && (after.state == Busy ==> p.active > 0) && (after.state == Idle ==> p.active <= 0)
      && after.loadedModel == p.loadedModel && after.activeRequests == p.active && after.failures == 0
  {
  }

  /** A poll that finds the engine loading. */
  predicate FindsLoading(p: Poll) {
    p.gpuState == "GPU_STATE_AVAILABLE" && (p.engineState == "loading" || p.engineState == "starting" || p.engineState == "unloading")
  }

  datatype Sighting = Sighting(poll: Poll, now: real)

  /** A worker polled again and again. */
  function PolledOften(w: Worker, sightings: seq<Sighting>, timeout: real): Worker {
    if sightings == [] then w
    else
      var s := sightings[|sightings| - 1];
      Polled(PolledOften(w, sightings[..|sightings| - 1], timeout), s.poll, timeout, s.now)
  }

  lemma FoundLoading(w: Worker, p: Poll, timeout: real, now: real)
    requires w.switchingTo == "" && FindsLoading(p)
    ensures var after := Polled(w, p, timeout, now);
      && after.switchingTo == "" && after.loadingSince == (if w.loadingSince.None? then Some(now) else w.loadingSince)
      && after.state == if timeout > 0.0 && w.loadingSince.Some? && now - w.loadingSince.value > timeout then Offline else Loading
  {
  }

  /** A worker without a pending switch that is found loading in every poll is loading until the
      timeout, counted from the first of them, and offline after it. */
  lemma {:induction false} LoadingTimesOut(w: Worker, sightings: seq<Sighting>, timeout: real)
    requires w.switchingTo == "" && w.loadingSince.None? && sightings != [] && forall s | s in sightings :: FindsLoading(s.poll)
    requires forall i | 0 <= i < |sightings| :: sightings[i].now >= sightings[0].now
    ensures var after, waited := PolledOften(w, sightings, timeout), sightings[|sightings| - 1].now - sightings[0].now;
      && after.loadingSince == Some(sightings[0].now) && after.switchingTo == ""
      && after.state == if timeout > 0.0 && waited > timeout then Offline else Loading
    decreases |sightings|
  {
    var n := |sightings| - 1;
    assert sightings == sightings[..n] + [sightings[n]];
    var before := PolledOften(w, sightings[..n], timeout);
    if n > 0 {
      LoadingTimesOut(w, sightings[..n], timeout);
    } else {
      assert before == w;
    }
    FoundLoading(before, sightings[n].poll, timeout, sightings[n].now);
  }

  // ---- Names of one model ----

  lemma MatchesBothWays(a: string, b: string)
    ensures ModelMatches(a, b) <==> ModelMatches(b, a)
    ensures ModelMatches(a, a) <==> a != ""
  {
  }

  predicate NoSlash(s: string) { forall i | 0 <= i < |s| :: s[i] != '/' }

  lemma {:induction false} NothingToCut(x: string)
    requires NoSlash(x)
    ensures AfterLast(x, "/") == x
  {
    if x != "" {
      NothingToCut(x[1..]);
      assert x[0] != '/' && x[..1] == [x[0]];
    }
  }

  lemma {:induction false} AfterSlash(dir: string, x: string)
    requires NoSlash(x)
    ensures AfterLast(dir + "/" + x, "/") == x
  {
    var s := dir + "/" + x;
    if dir == "" {
      assert s[1..] == x && "/" <= s;
      NothingToCut(x);
    } else {
      assert s[1..] == dir[1..] + "/" + x;
      AfterSlash(dir[1..], x);
      assert |x| < |s[1..]|;
    }
  }

  /** The organisation of a model has no doubled dash that could be taken for the separator. */
  predicate PlainOrg(org: string) { forall i | 0 <= i < |org| :: org[i] == '-' ==> i + 1 < |org| && org[i + 1] != '-' }

  lemma {:induction false} DashesBecomeSlash(org: string, name: string)
    requires PlainOrg(org)
    ensures SlashFirst(org + "--" + name) == org + "/" + name
  {
    var s := org + "--" + name;
    if org == "" {
      assert s[0] == '-' && s[1] == '-' && s[2..] == name;
      assert "/" + name == "" + "/" + name;
    } else {
      assert s[1..] == org[1..] + "--" + name && s[0] == org[0];
      assert s[0] == '-' ==> s[1] == org[1];
      DashesBecomeSlash(org[1..], name);
      assert [org[0]] + (org[1..] + "/" + name) == org + "/" + name;
    }
  }

  /** A model loaded from a weight directory is the one requested by its public name. */
  lemma {:induction false} WeightPathMatches(dir: string, org: string, name: string)
    requires PlainOrg(org) && NoSlash(org) && NoSlash(name) && name != ""
    ensures ModelMatches(dir + "/" + (org + "--" + name), org + "/" + name)
  {
    var base := org + "--" + name;
    var path := dir + "/" + base;
    assert path[|path| - 1] == name[|name| - 1];
    assert NoSlash(base);
    AfterSlash(dir, base);
    DashesBecomeSlash(org, name);
  }

  /** Failed polls since the last successful one. */
  function FailedSince(events: seq<Event>, id: string): nat {
    if events == [] then 0
    else
      var before, e := FailedSince(events[..|events| - 1], id), events[|events| - 1];
      if e == PollFailure(id) then before + 1 else if e.UpdateState? && e.id == id then 0 else before
  }

  predicate Resets(e: Event, id: string) { e.Restart? || (e.Deregister? && e.id == id) }

  /** The failure count is that of the failed polls in a row. */
  lemma {:induction false} FailuresInARow(fleet: Fleet, timeout: real, events: seq<Event>, id: string)
    requires id in fleet && fleet[id].failures == 0 && forall e | e in events :: !Resets(e, id)
    ensures id in Run(fleet, timeout, events) && Run(fleet, timeout, events)[id].failures == FailedSince(events, id)
    decreases |events|
  {
    if events != [] {
      var n := |events| - 1;
      assert events == events[..n] + [events[n]];
      FailuresInARow(fleet, timeout, events[..n], id);
      assert !Resets(events[n], id);
    }
  }

  // ---- What runs keep ----

  /** An event that may lift a ban, change a proof or forget the worker. */
  predicate Frees(e: Event, id: string) {
    (e.SetBan? && e.id == id) || (e.SetVerified? && e.id == id) || (e.Deregister? && e.id == id)
  }

  lemma EventKeepsRecord(fleet: Fleet, timeout: real, e: Event, id: string)
    requires id in fleet && !Frees(e, id)
    ensures var after := Apply(fleet, timeout, e);
      && id in after && after[id].bannedUntil == fleet[id].bannedUntil && after[id].verified == fleet[id].verified
      && (fleet[id].selfRegistered ==> after[id].selfRegistered)
  {
  }

  /** Bans and proofs are changed only by the events that set them, and a worker that registered
      itself is treated as such for good: polls, switches, failures, restarts and registering
      again change none of it. */
  lemma {:induction false} RecordLasts(fleet: Fleet, timeout: real, events: seq<Event>, id: string)
    requires id in fleet && forall e | e in events :: !Frees(e, id)
    ensures var after := Run(fleet, timeout, events);
      && id in after && after[id].bannedUntil == fleet[id].bannedUntil && after[id].verified == fleet[id].verified
      && (fleet[id].selfRegistered ==> after[id].selfRegistered)
    decreases |events|
  {
    if events != [] {
      var n := |events| - 1;
      assert events == events[..n] + [events[n]];
      RecordLasts(fleet, timeout, events[..n], id);
      EventKeepsRecord(Run(fleet, timeout, events[..n]), timeout, events[n], id);
    }
  }

  /** So a banned worker is sent nothing before its ban ends, and a self-registered worker
      without proof for a model is sent none of it while the gate is on. */
  lemma {:induction false} BannedGetsNothing(fleet: Fleet, timeout: real, events: seq<Event>, id: string, pol: Policy, model: string, exclude: set<string>, now: real)
    requires id in fleet && forall e | e in events :: !Frees(e, id)
    requires (fleet[id].bannedUntil.Some? && now < fleet[id].bannedUntil.value)
      || (pol.admissionGate && fleet[id].selfRegistered && fleet[id].verified == [])
    ensures id in Run(fleet, timeout, events) && !Eligible(pol, Run(fleet, timeout, events)[id], model, exclude, now)
  {
    RecordLasts(fleet, timeout, events, id);
  }

  /** Asking a worker to switch to a model it does not have hides it and notes the target. */
  lemma SwitchHides(fleet: Fleet, timeout: real, id: string, target: string, now: real, pol: Policy, model: string, exclude: set<string>, later: real)
    requires id in fleet && target != "" && !SameModel(fleet[id].loadedModel, target)
    ensures var w := Apply(fleet, timeout, MarkSwitching(id, target, now))[id];
      && w.switchingTo == target && !Eligible(pol, w, model, exclude, later)
      && (fleet[id].switchingTo != target ==> w.switchingSince == Some(now))
  {
  }

  /** An event that may end a switch to `target` begun at `since`: a poll that reports it loaded
      or comes too late, another switch, a restart, or the worker leaving. */
  predicate MayEnd(e: Event, id: string, target: string, since: real, timeout: real) {
    match e
    case UpdateState(i, p, now) => i == id && (SameModel(p.loadedModel, target) || (timeout > 0.0 && now - since > timeout))
    case MarkSwitching(i, _, _) => i == id
    case Deregister(i) => i == id
    case Restart => true
    case _ => false
  }

  lemma SwitchStays(fleet: Fleet, timeout: real, e: Event, id: string, target: string, since: real)
    requires id in fleet && fleet[id].switchingTo == target != "" && fleet[id].switchingSince == Some(since) && SwitchHidden(fleet[id])
    requires !MayEnd(e, id, target, since, timeout)
    ensures var after := Apply(fleet, timeout, e);
      id in after && after[id].switchingTo == target && after[id].switchingSince == Some(since) && SwitchHidden(after[id])
  {
  }

  /** Until one of these happens the router sends it nothing, whatever its polls report. */
  lemma {:induction false} SwitchLasts(fleet: Fleet, timeout: real, events: seq<Event>, id: string, target: string, since: real, pol: Policy, model: string, exclude: set<string>, now: real)
    requires id in fleet && fleet[id].switchingTo == target != "" && fleet[id].switchingSince == Some(since) && SwitchHidden(fleet[id])
    requires forall e | e in events :: !MayEnd(e, id, target, since, timeout)
    ensures var after := Run(fleet, timeout, events);
      && id in after && after[id].switchingTo == target && after[id].switchingSince == Some(since) && SwitchHidden(after[id])
      && !Eligible(pol, after[id], model, exclude, now)
    decreases |events|
  {
    if events != [] {
      var n := |events| - 1;
      assert events == events[..n] + [events[n]];
      SwitchLasts(fleet, timeout, events[..n], id, target, since, pol, model, exclude, now);
      SwitchStays(Run(fleet, timeout, events[..n]), timeout, events[n], id, target, since);
    }
  }

  predicate InService(w: Worker, exclude: set<string>, now: real) {
    (w.state == Idle || w.state == Busy) && w.id !in exclude && (w.bannedUntil.None? || w.bannedUntil.value <= now)
  }

  /** A worker in service, neither banned nor excluded, is eligible wherever the gate does not
      ask it for a proof it lacks. */
  lemma EligibleUnless(pol: Policy, w: Worker, model: string, exclude: set<string>, now: real)
    ensures Eligible(pol, w, model, exclude, now) ==> InService(w, exclude, now)
    ensures InService(w, exclude, now) && (!pol.admissionGate || !w.selfRegistered) ==> Eligible(pol, w, model, exclude, now)
    ensures InService(w, exclude, now) && !AnyModel(model) && model in w.verified ==> Eligible(pol, w, model, exclude, now)
  {
    assert model != "" ==> ModelMatches(model, model);
  }

  /** Registering again keeps what is known of a worker, and takes a list of models or a payout
      address only when it brings one. */
  lemma RegisterAgain(fleet: Fleet, timeout: real, r: Registration)
    requires r.id in fleet
    ensures var before, after := fleet[r.id], Apply(fleet, timeout, Register(r))[r.id];
      && after.state == before.state && after.loadedModel == before.loadedModel
      && after.switchingTo == before.switchingTo && after.switchingSince == before.switchingSince
      && after.endpoint == r.endpoint && after.gpuCount == r.gpuCount && after.miner == r.miner
      && (r.supported == [] ==> after.supported == before.supported) && (r.supported != [] ==> after.supported == r.supported)
      && (r.payout == "" ==> after.payout == before.payout) && (r.payout != "" ==> after.payout == r.payout)
  {
  }
}
