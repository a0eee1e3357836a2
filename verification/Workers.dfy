/** The worker registry and the router: which workers may be sent a request, and why a worker
    that is switching models never is. The clock and the random draw are parameters. */
module Workers {
  import opened Orders

  datatype State = Idle | Busy | Mining | Loading | Offline

  datatype Worker = Worker(
    id: string, endpoint: string, state: State, gpuState: string, engineState: string,
    activeRequests: int, inFlight: nat, loadedModel: string, supported: seq<string>, verified: seq<string>,
    gpuCount: int, miner: string, payout: string, selfRegistered: bool, bannedUntil: Option<real>,
    secondsUntilChange: int, untilChangeAt: Option<real>,
    loadingSince: Option<real>, switchingTo: string, switchingSince: Option<real>, failures: nat)

  datatype Registration = Registration(
    id: string, endpoint: string, gpuCount: int, miner: string, supported: seq<string>, payout: string, selfRegistered: bool)

  datatype Poll = Poll(gpuState: string, engineState: string, active: int, loadedModel: string, engines: int)

  // ---- Model names ----

  /** What follows the last occurrence of `sep`, or the whole string. */
  function AfterLast(s: string, sep: string): string
    requires sep != ""
    decreases |s|
  {
    if |s| < |sep| then s
    else
      var rest := AfterLast(s[1..], sep);
      if rest != s[1..] then rest else if sep <= s then s[|sep|..] else s
  }

  function ModelBasename(m: string): string { AfterLast(AfterLast(m, "/"), "--") }

  predicate SameModel(a: string, b: string) { a != "" && b != "" && ModelBasename(a) == ModelBasename(b) }

  function StripSlashes(s: string): string {
    if s != "" && s[|s| - 1] == '/' then StripSlashes(s[..|s| - 1]) else s
  }

  function PathBase(s: string): string {
    if s == "" then "." else if StripSlashes(s) == "" then "/" else AfterLast(StripSlashes(s), "/")
  }

  /** The first "--" becomes "/". */
  function SlashFirst(s: string): string {
    if |s| < 2 then s else if s[0] == '-' && s[1] == '-' then "/" + s[2..] else [s[0]] + SlashFirst(s[1..])
  }

  predicate HasSuffix(s: string, t: string) { |t| <= |s| && s[|s| - |t|..] == t }

  predicate ModelMatches(loaded: string, requested: string) {
    loaded != "" && requested != "" &&
    (var lb, rb := PathBase(loaded), PathBase(requested);
     var ln, rn := SlashFirst(lb), SlashFirst(rb);
     loaded == requested || lb == rb || ln == rn || ln == requested || rn == loaded
     || HasSuffix(loaded, requested) || HasSuffix(requested, loaded))
  }

  // ---- Transitions ----

  predicate EngineReady(engineState: string) { engineState == "" || engineState == "running" }

  function DeriveState(gpuState: string, engineState: string, active: int): State {
    if gpuState == "GPU_STATE_AVAILABLE" then
      if !EngineReady(engineState) then
        if engineState == "loading" || engineState == "starting" || engineState == "unloading" then Loading else Mining
      else if active > 0 then Busy else Idle
    else if gpuState == "GPU_STATE_YIELDING" || gpuState == "GPU_STATE_WINDOW_POST" || gpuState == "GPU_STATE_WINNING_POST" then Mining
    else Offline
  }

  predicate TimedOut(since: Option<real>, timeout: real, now: real) { timeout > 0.0 && since.Some? && now - since.value > timeout }

  predicate SwitchOver(w: Worker, loadedModel: string, timeout: real, now: real) {
    SameModel(loadedModel, w.switchingTo) || TimedOut(w.switchingSince, timeout, now)
  }

  /** The state a poll derives, after the pending switch has had its say. */
  function SwitchState(w: Worker, p: Poll, timeout: real, now: real): State {
    var derived := DeriveState(p.gpuState, p.engineState, p.active);
    if w.switchingTo == "" || SameModel(p.loadedModel, w.switchingTo) then derived
    else if TimedOut(w.switchingSince, timeout, now) then Offline
    else Loading
  }

  /** A successful poll. */
  function Polled(w: Worker, p: Poll, timeout: real, now: real): Worker {
    var over := w.switchingTo != "" && SwitchOver(w, p.loadedModel, timeout, now);
    var derived := SwitchState(w, p, timeout, now);
    var stuck := derived == Loading && TimedOut(w.loadingSince, timeout, now);
    w.(gpuState := p.gpuState, engineState := p.engineState, activeRequests := p.active, failures := 0,
       switchingTo := if over then "" else w.switchingTo,
       switchingSince := if over then None else w.switchingSince,
       loadingSince := if derived != Loading then None else if w.loadingSince.None? then Some(now) else w.loadingSince,
       state := if stuck then Offline else derived,
       loadedModel := p.loadedModel,
       gpuCount := if p.engines > 0 then p.engines else w.gpuCount)
  }

  function Switching(w: Worker, target: string, now: real): Worker {
    if target == "" || SameModel(w.loadedModel, target) then w
    else
      var marked := if w.switchingTo != target then w.(switchingTo := target, switchingSince := Some(now)) else w;
      marked.(state := Loading)
  }

  function TakenOffline(w: Worker): Worker {
    if w.state == Offline then w else w.(state := Offline, gpuState := "", engineState := "", activeRequests := 0)
  }

  function NewWorker(r: Registration): Worker {
    Worker(r.id, r.endpoint, Offline, "", "", 0, 0, "", r.supported, [], r.gpuCount, r.miner, r.payout, r.selfRegistered,
           None, 0, None, None, "", None, 0)
  }

  function Reregistered(w: Worker, r: Registration): Worker {
    w.(endpoint := r.endpoint, gpuCount := r.gpuCount, miner := r.miner,
       supported := if |r.supported| > 0 then r.supported else w.supported,
       payout := if r.payout != "" then r.payout else w.payout,
       selfRegistered := w.selfRegistered || r.selfRegistered)
  }

  /** What survives on disk. */
  function Reloaded(w: Worker): Worker {
    Worker(w.id, w.endpoint, Offline, "", "", 0, 0, "", w.supported, w.verified, w.gpuCount, w.miner, w.payout, w.selfRegistered,
           w.bannedUntil, 0, None, None, "", None, 0)
  }

  type Fleet = map<string, Worker>

  datatype Event =
    | Register(reg: Registration)
    | Deregister(id: string)
    | UpdateState(id: string, poll: Poll, now: real)
    | MarkSwitching(id: string, target: string, now: real)
    | PollFailure(id: string)
    | MarkOffline(id: string)
    | SetBan(id: string, until: Option<real>)
    | SetVerified(id: string, models: seq<string>)
    | SetUntilChange(id: string, seconds: int, now: real)
    | Restart

  function Apply(fleet: Fleet, timeout: real, e: Event): Fleet {
    match e
    case Register(r) => fleet[r.id := if r.id in fleet then Reregistered(fleet[r.id], r) else NewWorker(r)]
    case Deregister(id) => fleet - {id}
    case UpdateState(id, p, now) => if id in fleet then fleet[id := Polled(fleet[id], p, timeout, now)] else fleet
    case MarkSwitching(id, t, now) => if id in fleet then fleet[id := Switching(fleet[id], t, now)] else fleet
    case PollFailure(id) => if id in fleet then fleet[id := fleet[id].(failures := fleet[id].failures + 1)] else fleet
    case MarkOffline(id) => if id in fleet then fleet[id := TakenOffline(fleet[id])] else fleet
    case SetBan(id, until) => if id in fleet then fleet[id := fleet[id].(bannedUntil := until)] else fleet
    case SetVerified(id, models) => if id in fleet then fleet[id := fleet[id].(verified := models)] else fleet
    case SetUntilChange(id, s, now) => if id in fleet then fleet[id := fleet[id].(secondsUntilChange := s, untilChangeAt := Some(now))] else fleet
    case Restart => map id | id in fleet :: Reloaded(fleet[id])
  }

  function Run(fleet: Fleet, timeout: real, events: seq<Event>): Fleet {
    if events == [] then fleet else Apply(Run(fleet, timeout, events[..|events| - 1]), timeout, events[|events| - 1])
  }

  // ---- The switching invariant ----

  /** A worker with a switch target is loading or offline, and the switch has a start. */
  predicate SwitchHidden(w: Worker) {
    w.switchingTo != "" ==> (w.state == Loading || w.state == Offline) && w.switchingSince.Some?
  }

  ghost predicate FleetHidden(fleet: Fleet) { forall id | id in fleet :: SwitchHidden(fleet[id]) }

  lemma PollKeepsHidden(w: Worker, p: Poll, timeout: real, now: real)
    requires SwitchHidden(w)
    ensures SwitchHidden(Polled(w, p, timeout, now))
  {
  }

  lemma ApplyKeepsHidden(fleet: Fleet, timeout: real, e: Event)
    requires FleetHidden(fleet)
    ensures FleetHidden(Apply(fleet, timeout, e))
  {
    if e.UpdateState? && e.id in fleet { PollKeepsHidden(fleet[e.id], e.poll, timeout, e.now); }
  }

  /** In every reachable registry state a worker with a switch target is loading or offline. */
  lemma {:induction false} SwitchingIsHidden(timeout: real, events: seq<Event>)
    ensures FleetHidden(Run(map[], timeout, events))
  {
    if events != [] {
      SwitchingIsHidden(timeout, events[..|events| - 1]);
      ApplyKeepsHidden(Run(map[], timeout, events[..|events| - 1]), timeout, events[|events| - 1]);
    }
  }

  /** The target is cleared by a successful poll exactly when the poll reports it loaded or
      comes after the timeout; nothing else clears it while the process lives. */
  lemma SwitchEndsOnlyByPoll(fleet: Fleet, timeout: real, e: Event, id: string)
    requires id in fleet && fleet[id].switchingTo != "" && !e.Restart? && id in Apply(fleet, timeout, e)
    ensures Apply(fleet, timeout, e)[id].switchingTo == "" <==>
      e.UpdateState? && e.id == id && SwitchOver(fleet[id], e.poll.loadedModel, timeout, e.now)
  {
  }

  /** As long as polls come, the exclusion ends: whatever happened before, the first successful
      poll later than the timeout leaves no target, and a hung switch leaves the worker offline. */
  lemma TimeoutClears(w: Worker, p: Poll, timeout: real, now: real)
    requires SwitchHidden(w) && w.switchingTo != "" && timeout > 0.0 && now - w.switchingSince.value > timeout
    ensures Polled(w, p, timeout, now).switchingTo == ""
    ensures !SameModel(p.loadedModel, w.switchingTo) ==> Polled(w, p, timeout, now).state == Offline
  {
  }

  // ---- The registry ----

  class Registry {
    var workers: Fleet
    var inflight: map<string, nat>
    var loadingTimeout: real

    constructor (loadingTimeout: real)
      ensures workers == map[] && FleetHidden(workers) && inflight == map[] && this.loadingTimeout == loadingTimeout
    {
      workers, inflight := map[], map[];
      this.loadingTimeout := loadingTimeout;
    }

    /** `valid` stands for the format checks of id and URLs. */
    method RegisterWorker(reg: Registration, valid: bool) returns (created: bool, endpointChanged: bool, err: bool)
      requires FleetHidden(workers)
      modifies this`workers
      ensures FleetHidden(workers) && (err <==> !valid || reg.id == "" || reg.endpoint == "")
      ensures workers == if err then old(workers) else Apply(old(workers), loadingTimeout, Register(reg))
      ensures !err ==> (created <==> reg.id !in old(workers))
      ensures !err ==> (endpointChanged <==> reg.id in old(workers) && old(workers)[reg.id].endpoint != reg.endpoint)
    {
      created, endpointChanged, err := false, false, false;
      if reg.id == "" || reg.endpoint == "" || !valid { return false, false, true; }
      ApplyKeepsHidden(workers, loadingTimeout, Register(reg));
      if reg.id in workers {
        var w := workers[reg.id];
        endpointChanged := w.endpoint != reg.endpoint;
        w := w.(endpoint := reg.endpoint, gpuCount := reg.gpuCount, miner := reg.miner);
        if |reg.supported| > 0 { w := w.(supported := reg.supported); }
        if reg.payout != "" { w := w.(payout := reg.payout); }
        if reg.selfRegistered { w := w.(selfRegistered := true); }
        workers := workers[reg.id := w];
      } else {
        created := true;
        workers := workers[reg.id := NewWorker(reg)];
      }
    }

    /** A successful poll: the pending switch outranks the polled engine state. */
    method RecordPoll(id: string, p: Poll, now: real) returns (oldState: State, newState: State, changed: bool)
      requires FleetHidden(workers)
      modifies this`workers
      ensures FleetHidden(workers) && workers == Apply(old(workers), loadingTimeout, UpdateState(id, p, now))
      ensures changed <==> id in workers && old(workers)[id].state != workers[id].state
      ensures id in workers ==> oldState == old(workers)[id].state && newState == workers[id].state
    {
      if id !in workers { return Offline, Offline, false; }
      PollKeepsHidden(workers[id], p, loadingTimeout, now);
      var w := workers[id];
      oldState := w.state;
      w := w.(gpuState := p.gpuState, engineState := p.engineState, activeRequests := p.active, failures := 0);
      var derived := DeriveState(p.gpuState, p.engineState, p.active);
      if w.switchingTo != "" {
        if SameModel(p.loadedModel, w.switchingTo) {
          w := w.(switchingTo := "", switchingSince := None);
        } else if loadingTimeout > 0.0 && w.switchingSince.Some? && now - w.switchingSince.value > loadingTimeout {
          w := w.(switchingTo := "", switchingSince := None);
          derived := Offline;
        } else {
          derived := Loading;
        }
      }
      if derived == Loading {
        if w.loadingSince.None? {
          w := w.(loadingSince := Some(now));
        } else if loadingTimeout > 0.0 && now - w.loadingSince.value > loadingTimeout {
          derived := Offline;
        }
      } else {
        w := w.(loadingSince := None);
      }
      w := w.(state := derived, loadedModel := p.loadedModel);
      if p.engines > 0 { w := w.(gpuCount := p.engines); }
      newState := w.state;
      assert w == Polled(workers[id], p, loadingTimeout, now);
      workers := workers[id := w];
      changed := oldState != newState;
    }

    method Switch(id: string, target: string, now: real)
      requires FleetHidden(workers)
      modifies this`workers
      ensures FleetHidden(workers) && workers == Apply(old(workers), loadingTimeout, MarkSwitching(id, target, now))
    {
      if id !in workers || target == "" {
        assert id in workers ==> workers == workers[id := workers[id]];
        return;
      }
      var w := workers[id];
      if SameModel(w.loadedModel, target) {
        assert workers == workers[id := w];
        return;
      }
      if w.switchingTo != target { w := w.(switchingTo := target, switchingSince := Some(now)); }
      w := w.(state := Loading);
      workers := workers[id := w];
    }

    method RecordFailure(id: string, threshold: nat) returns (shouldMarkOffline: bool, failures: nat)
      requires FleetHidden(workers)
      modifies this`workers
      ensures FleetHidden(workers) && workers == Apply(old(workers), loadingTimeout, PollFailure(id))
      ensures id in workers ==> failures == workers[id].failures && (shouldMarkOffline <==> failures >= threshold && workers[id].state != Offline)
      ensures id !in workers ==> !shouldMarkOffline && failures == 0
    {
      if id !in workers { return false, 0; }
      var w := workers[id].(failures := workers[id].failures + 1);
      workers := workers[id := w];
      return w.failures >= threshold && w.state != Offline, w.failures;
    }

    method TakeOffline(id: string) returns (changed: bool)
      requires FleetHidden(workers)
      modifies this`workers
      ensures FleetHidden(workers) && workers == Apply(old(workers), loadingTimeout, MarkOffline(id))
      ensures changed <==> id in old(workers) && old(workers)[id].state != Offline
    {
      if id !in workers { return false; }
      if workers[id].state == Offline {
        assert workers == workers[id := workers[id]];
        return false;
      }
      workers := workers[id := workers[id].(state := Offline, gpuState := "", engineState := "", activeRequests := 0)];
      return true;
    }

    function InFlightOf(id: string): nat
      reads this
    {
      if id in inflight then inflight[id] else 0
    }

    method IncInflight(id: string)
      modifies this`inflight
      ensures InFlightOf(id) == old(InFlightOf(id)) + 1 && forall k | k != id :: InFlightOf(k) == old(InFlightOf(k))
    {
      inflight := inflight[id := InFlightOf(id) + 1];
    }

    method DecInflight(id: string)
      modifies this`inflight
      ensures InFlightOf(id) == (if old(InFlightOf(id)) > 0 then old(InFlightOf(id)) - 1 else 0)
      ensures forall k | k != id :: InFlightOf(k) == old(InFlightOf(k))
    {
      if InFlightOf(id) > 0 { inflight := inflight[id := InFlightOf(id) - 1]; }
      if InFlightOf(id) == 0 { inflight := inflight - {id}; }
    }

    function Snapshot(id: string): Worker
      reads this
      requires id in workers
    {
      workers[id].(inFlight := InFlightOf(workers[id].id))
    }

    /** Copies of all workers, in no particular order. */
    method List() returns (list: seq<Worker>)
      ensures forall w :: w in list <==> exists id :: id in workers && w == Snapshot(id)
    {
      list := [];
      var todo := workers.Keys;
      while todo != {}
        invariant todo <= workers.Keys
        invariant forall w :: w in list <==> exists id :: id in workers && id !in todo && w == Snapshot(id)
        decreases todo
      {
        var id :| id in todo;
        ghost var before, wasTodo := list, todo;
        list := list + [Snapshot(id)];
        todo := todo - {id};
        forall w ensures w in list <==> exists k :: k in workers && k !in todo && w == Snapshot(k) {
          assert w in list <==> w in before || w == Snapshot(id);
          if w in before {
            var k :| k in workers && k !in wasTodo && w == Snapshot(k);
            assert k !in todo;
          }
        }
      }
    }
  }

  // ---- The router ----

  datatype Candidate = Candidate(worker: Worker, weight: real)

  datatype Policy = Policy(admissionGate: bool, overloadFactor: real)

  predicate Banned(w: Worker, now: real) { w.bannedUntil.Some? && now < w.bannedUntil.value }

  predicate VerifiedFor(w: Worker, model: string) {
    model != "" && exists vm | vm in w.verified :: ModelMatches(vm, model) || ModelMatches(model, vm)
  }

  predicate Supports(w: Worker, model: string) { exists m | m in w.supported :: m == model || ModelMatches(m, model) }

  predicate AnyModel(model: string) { model == "" || model == "default" }

  predicate Admitted(pol: Policy, w: Worker, model: string) {
    pol.admissionGate && w.selfRegistered ==> VerifiedFor(w, if AnyModel(model) then w.loadedModel else model)
  }

  predicate Eligible(pol: Policy, w: Worker, model: string, exclude: set<string>, now: real) {
    (w.state == Idle || w.state == Busy) && !Banned(w, now) && Admitted(pol, w, model) && w.id !in exclude
  }

  datatype Group = LoadedGroup | SupportedGroup | FallbackGroup | NoGroup

  /** Where an eligible worker goes: it has the model, could load it while idle, or any will do. */
  function GroupOf(w: Worker, model: string): Group {
    if AnyModel(model) then FallbackGroup
    else if ModelMatches(w.loadedModel, model) then LoadedGroup
    else if Supports(w, model) && w.state == Idle then SupportedGroup
    else NoGroup
  }

  function EffectiveLoad(w: Worker): int { if w.inFlight > w.activeRequests then w.inFlight else w.activeRequests }

  function Gpus(w: Worker): int { if w.gpuCount <= 0 then 1 else w.gpuCount }

  predicate YieldingSoon(w: Worker, now: real) {
    w.secondsUntilChange >= 0 && w.untilChangeAt.Some? && w.secondsUntilChange as real - (now - w.untilChangeAt.value) < 60.0
  }

  function BaseWeight(w: Worker): real {
    var g := Gpus(w) as real;
    if EffectiveLoad(w) > 0 then
      var shared := g / (1.0 + EffectiveLoad(w) as real / g);
      if shared < 1.0 then 1.0 else shared
    else g
  }

  function Weight(w: Worker, now: real): (r: real)
    ensures r > 0.0
  {
    if YieldingSoon(w, now) then BaseWeight(w) * 0.05 else BaseWeight(w)
  }

  function Cumulative(cs: seq<Candidate>): real { if cs == [] then 0.0 else Cumulative(cs[..|cs| - 1]) + cs[|cs| - 1].weight }

  ghost predicate Weighted(cs: seq<Candidate>) { forall c | c in cs :: c.weight > 0.0 }

  lemma {:induction false} CumulativeGrows(cs: seq<Candidate>, i: nat, j: nat)
    requires Weighted(cs) && i <= j <= |cs|
    ensures Cumulative(cs[..i]) <= Cumulative(cs[..j]) && (i < j ==> Cumulative(cs[..i]) < Cumulative(cs[..j]))
    decreases j - i
  {
    if i < j {
      assert cs[j - 1] in cs && cs[..j][..j - 1] == cs[..j - 1];
      CumulativeGrows(cs, i, j - 1);
    }
  }

  /** The draw, scaled to the total weight, falls into the candidate's own stretch of the
      cumulated weights; with one candidate nothing is drawn. */
  ghost predicate Drawn(cs: seq<Candidate>, u: real, i: nat) {
    && i < |cs|
    && (|cs| > 1 ==> u * Cumulative(cs) <= Cumulative(cs[..i + 1]) && (i > 0 ==> Cumulative(cs[..i]) < u * Cumulative(cs)))
  }

  /** `weightedPick`, for a draw `u` in [0, 1): a candidate is picked exactly when the draw,
      scaled to the total weight, falls into its own stretch of the cumulated weights, so its
      share of the draws is its share of the weight. */
  method WeightedPick(cs: seq<Candidate>, u: real) returns (pick: Option<nat>)
    requires Weighted(cs) && 0.0 <= u < 1.0
    ensures pick.None? <==> cs == []
    ensures pick.Some? ==> Drawn(cs, u, pick.value)
  {
    if |cs| == 0 { return None; }
    if |cs| == 1 { return Some(0); }
    var total := TotalWeight(cs);
    DrawBelowTotal(u, total, cs);
    var at := Spend(cs, u * total);
    return Some(at);
  }

  method TotalWeight(cs: seq<Candidate>) returns (total: real)
    ensures total == Cumulative(cs)
  {
    total := 0.0;
    for i := 0 to |cs|
      invariant total == Cumulative(cs[..i])
    {
      assert cs[..i + 1][..i] == cs[..i];
      total := total + cs[i].weight;
    }
    assert cs[..|cs|] == cs;
  }

  /** The first candidate whose weight uses up the draw; the fallback after the loop of the
      code is for rounding only. */
  method Spend(cs: seq<Candidate>, draw: real) returns (at: nat)
    requires cs != [] && draw <= Cumulative(cs)
    ensures at < |cs| && draw <= Cumulative(cs[..at + 1]) && (at > 0 ==> Cumulative(cs[..at]) < draw)
  {
    var r := draw;
    assert cs[..|cs|] == cs;
    for i := 0 to |cs|
      invariant r == draw - Cumulative(cs[..i]) && (i > 0 ==> r > 0.0)
    {
      assert cs[..i + 1][..i] == cs[..i];
      r := r - cs[i].weight;
      if r <= 0.0 { return i; }
    }
    assert false;
  }

  lemma {:induction false} DrawBelowTotal(u: real, total: real, cs: seq<Candidate>)
    requires 0.0 <= u < 1.0 && Weighted(cs) && total == Cumulative(cs)
    ensures u * total <= total
  {
    assert cs[..0] == [] && cs[..|cs|] == cs;
    CumulativeGrows(cs, 0, |cs|);
  }

  /** The pick is the only one the draw allows. */
  lemma PickUnique(cs: seq<Candidate>, r: real, i: nat, j: nat)
    requires Weighted(cs) && i < |cs| && j < |cs|
    requires r <= Cumulative(cs[..i + 1]) && (i > 0 ==> Cumulative(cs[..i]) < r)
    requires r <= Cumulative(cs[..j + 1]) && (j > 0 ==> Cumulative(cs[..j]) < r)
    ensures i == j
  {
    if i < j { CumulativeGrows(cs, i + 1, j); }
    if j < i { CumulativeGrows(cs, j + 1, i); }
  }

  /** The candidates of one group, in list order. */
  function Members(pol: Policy, list: seq<Worker>, model: string, exclude: set<string>, now: real, g: Group): seq<Candidate> {
    if list == [] then []
    else
      var w := list[|list| - 1];
      Members(pol, list[..|list| - 1], model, exclude, now, g)
        + if Eligible(pol, w, model, exclude, now) && GroupOf(w, model) == g then [Candidate(w, Weight(w, now))] else []
  }

  predicate Overloaded(c: Candidate, factor: real) { EffectiveLoad(c.worker) > Threshold(c.worker, factor) }

  function Threshold(w: Worker, factor: real): int {
    var t := Gpus(w) as real * factor;
    if t >= 0.0 then t.Floor else -((-t).Floor)
  }

  predicate AllOverloaded(cs: seq<Candidate>, factor: real) { forall c | c in cs :: Overloaded(c, factor) }

  /** The group to pick from: those that have the model, unless all of them are overloaded and
      an idle worker can load it; then those that can load it; then anyone, for any model. */
  function Preferred(pol: Policy, list: seq<Worker>, model: string, exclude: set<string>, now: real): seq<Candidate> {
    var loaded := Members(pol, list, model, exclude, now, LoadedGroup);
    var supported := Members(pol, list, model, exclude, now, SupportedGroup);
    if pol.overloadFactor > 0.0 && loaded != [] && supported != [] && AllOverloaded(loaded, pol.overloadFactor) then supported
    else if loaded != [] then loaded
    else if supported != [] then supported
    else Members(pol, list, model, exclude, now, FallbackGroup)
  }

  lemma {:induction false} MembersAre(pol: Policy, list: seq<Worker>, model: string, exclude: set<string>, now: real, g: Group)
    ensures Weighted(Members(pol, list, model, exclude, now, g))
    ensures forall c | c in Members(pol, list, model, exclude, now, g) ::
      c.worker in list && Eligible(pol, c.worker, model, exclude, now) && GroupOf(c.worker, model) == g
    decreases |list|
  {
    if list != [] {
      MembersAre(pol, list[..|list| - 1], model, exclude, now, g);
      assert list == list[..|list| - 1] + [list[|list| - 1]];
    }
  }

  lemma {:induction false} MembersAll(pol: Policy, list: seq<Worker>, model: string, exclude: set<string>, now: real, w: Worker)
    requires w in list && Eligible(pol, w, model, exclude, now)
    ensures exists c | c in Members(pol, list, model, exclude, now, GroupOf(w, model)) :: c.worker == w
    decreases |list|
  {
    var n := |list| - 1;
    assert list == list[..n] + [list[n]];
    if w in list[..n] {
      MembersAll(pol, list[..n], model, exclude, now, w);
      var c :| c in Members(pol, list[..n], model, exclude, now, GroupOf(w, model)) && c.worker == w;
      assert c in Members(pol, list, model, exclude, now, GroupOf(w, model));
    } else {
      assert Candidate(w, Weight(w, now)) in Members(pol, list, model, exclude, now, GroupOf(w, model));
    }
  }

  method BuildGroups(pol: Policy, list: seq<Worker>, model: string, exclude: set<string>, now: real)
    returns (loaded: seq<Candidate>, supported: seq<Candidate>, fallback: seq<Candidate>)
    ensures loaded == Members(pol, list, model, exclude, now, LoadedGroup)
    ensures supported == Members(pol, list, model, exclude, now, SupportedGroup)
    ensures fallback == Members(pol, list, model, exclude, now, FallbackGroup)
  {
    loaded, supported, fallback := [], [], [];
    for i := 0 to |list|
      invariant loaded == Members(pol, list[..i], model, exclude, now, LoadedGroup)
      invariant supported == Members(pol, list[..i], model, exclude, now, SupportedGroup)
      invariant fallback == Members(pol, list[..i], model, exclude, now, FallbackGroup)
    {
      assert list[..i + 1][..i] == list[..i];
      var w := list[i];
      if w.state != Idle && w.state != Busy { continue; }
      if Banned(w, now) { continue; }
      if pol.admissionGate && w.selfRegistered && !VerifiedFor(w, if AnyModel(model) then w.loadedModel else model) { continue; }
      if w.id in exclude { continue; }
      var c := Candidate(w, Weight(w, now));
      if AnyModel(model) {
        fallback := fallback + [c];
        continue;
      }
      if ModelMatches(w.loadedModel, model) {
        loaded := loaded + [c];
        continue;
      }
      if Supports(w, model) && w.state == Idle { supported := supported + [c]; }
    }
    assert list[..|list|] == list;
  }

  method EveryoneOverloaded(cs: seq<Candidate>, factor: real) returns (all: bool)
    ensures all <==> AllOverloaded(cs, factor)
  {
    for i := 0 to |cs|
      invariant forall c | c in cs[..i] :: Overloaded(c, factor)
    {
      assert cs[..i + 1] == cs[..i] + [cs[i]];
      if EffectiveLoad(cs[i].worker) <= Threshold(cs[i].worker, factor) {
        assert cs[i] in cs;
        return false;
      }
    }
    assert cs[..|cs|] == cs;
    return true;
  }

  /** The worker drawn from the preferred group, or none exactly if no eligible worker can serve
      the model. */
  ghost predicate RouterAnswer(pol: Policy, list: seq<Worker>, model: string, exclude: set<string>, now: real, u: real, chosen: Option<Worker>) {
    && (chosen.Some? ==> ChosenBy(Preferred(pol, list, model, exclude, now), u, chosen.value))
    && (chosen.Some? ==> chosen.value in list && Eligible(pol, chosen.value, model, exclude, now) && GroupOf(chosen.value, model) != NoGroup)
    && (chosen.None? <==> forall w | w in list && Eligible(pol, w, model, exclude, now) :: GroupOf(w, model) == NoGroup)
  }

  ghost predicate ChosenBy(cs: seq<Candidate>, u: real, w: Worker) { exists i | 0 <= i < |cs| :: Drawn(cs, u, i) && cs[i].worker == w }

  /** `selectWorkerForModel`, for a draw `u`. */
  method SelectWorkerForModel(pol: Policy, list: seq<Worker>, model: string, exclude: set<string>, now: real, u: real)
    returns (chosen: Option<Worker>)
    requires 0.0 <= u < 1.0
    ensures RouterAnswer(pol, list, model, exclude, now, u, chosen)
  {
    var loaded, supported, fallback := BuildGroups(pol, list, model, exclude, now);
    MembersAre(pol, list, model, exclude, now, LoadedGroup);
    MembersAre(pol, list, model, exclude, now, SupportedGroup);
    MembersAre(pol, list, model, exclude, now, FallbackGroup);
    var group := fallback;
    if supported != [] { group := supported; }
    if loaded != [] { group := loaded; }
    if pol.overloadFactor > 0.0 && loaded != [] && supported != [] {
      var all := EveryoneOverloaded(loaded, pol.overloadFactor);
      if all { group := supported; }
    }
    assert group == Preferred(pol, list, model, exclude, now);
    var pick := WeightedPick(group, u);
    if pick.None? {
      forall w | w in list && Eligible(pol, w, model, exclude, now) ensures GroupOf(w, model) == NoGroup {
        MembersAll(pol, list, model, exclude, now, w);
      }
      return None;
    }
    var c := group[pick.value];
    assert c in group;
    return Some(c.worker);
  }

  predicate Sticks(w: Worker, model: string, now: real) {
    (w.state == Idle || w.state == Busy) && !Banned(w, now) && (AnyModel(model) || ModelMatches(w.loadedModel, model))
  }

  /** `selectWithAffinity`: the session's last worker if it still sticks, else whatever the
      router answers. */
  method SelectWithAffinity(pol: Policy, list: seq<Worker>, sticky: Option<Worker>, model: string, now: real, u: real)
    returns (chosen: Option<Worker>)
    requires 0.0 <= u < 1.0
    ensures if sticky.Some? && Sticks(sticky.value, model, now) then chosen == sticky
            else RouterAnswer(pol, list, model, {}, now, u, chosen)
  {
    if sticky.Some? {
      var w := sticky.value;
      if (w.state == Idle || w.state == Busy) && !Banned(w, now) && (AnyModel(model) || ModelMatches(w.loadedModel, model)) {
        return sticky;
      }
    }
    chosen := SelectWorkerForModel(pol, list, model, {}, now, u);
  }

  /** Routing over the registry itself, with or without a session: nothing it returns is
      switching models, and what it returns is registered. */
  method SwitchingNeverRouted(reg: Registry, pol: Policy, session: Option<string>, model: string, now: real, u: real)
    returns (chosen: Option<Worker>)
    requires FleetHidden(reg.workers) && 0.0 <= u < 1.0
    ensures chosen.Some? ==> chosen.value.switchingTo == "" && exists id :: id in reg.workers && chosen.value == reg.Snapshot(id)
    ensures session.Some? && session.value in reg.workers && Sticks(reg.Snapshot(session.value), model, now) ==>
      chosen == Some(reg.Snapshot(session.value))
  {
    var sticky: Option<Worker> := None;
    if session.Some? && session.value in reg.workers { sticky := Some(reg.Snapshot(session.value)); }
    var list := reg.List();
    chosen := SelectWithAffinity(pol, list, sticky, model, now, u);
    if chosen.Some? {
      ghost var id :| id in reg.workers && chosen.value == reg.Snapshot(id);
      assert SwitchHidden(reg.workers[id]);
    }
  }

  /** A sticky worker skips the admission gate: it is one the router would also have admitted
      exactly if it is not a self-registered worker without proof for the model. */
  lemma AffinityAndAdmission(pol: Policy, w: Worker, model: string, now: real)
    requires Sticks(w, model, now)
    ensures Eligible(pol, w, model, {}, now) <==>
      !(pol.admissionGate && w.selfRegistered && !VerifiedFor(w, if AnyModel(model) then w.loadedModel else model))
  {
  }

  /** Such a worker is reachable: routed while its proof was good, and sticky after losing it. */
  lemma {:induction false} StickyPastTheGate(timeout: real, now: real)
    ensures var proved := [Register(Registration("w", "", 1, "", [], "", true)),
                           UpdateState("w", Poll("GPU_STATE_AVAILABLE", "running", 0, "m", 1), now), SetVerified("w", ["m"])];
      var before, after := Run(map[], timeout, proved), Run(map[], timeout, proved + [SetVerified("w", [])]);
      && "w" in before && "w" in after
      && Eligible(Policy(true, 0.0), before["w"], "m", {}, now)
      && Sticks(after["w"], "m", now) && !Eligible(Policy(true, 0.0), after["w"], "m", {}, now)
  {
    var r, u, v, x := Register(Registration("w", "", 1, "", [], "", true)),
                      UpdateState("w", Poll("GPU_STATE_AVAILABLE", "running", 0, "m", 1), now), SetVerified("w", ["m"]), SetVerified("w", []);
    assert [r, u, v] + [x] == [r, u, v, x] && [r, u, v, x][..3] == [r, u, v] && [r, u, v][..2] == [r, u] && [r, u][..1] == [r] && [r][..0] == [];
    var none: seq<Event> := [];
    assert Run(map[], timeout, none) == map[];
    var one := Run(map[], timeout, [r]);
    assert one == Apply(map[], timeout, r);
    assert one == map["w" := NewWorker(r.reg)];
    var two := Run(map[], timeout, [r, u]);
    assert two["w"].state == Idle && two["w"].loadedModel == "m" && two["w"].selfRegistered;
    var before := Run(map[], timeout, [r, u, v])["w"];
    assert before == two["w"].(verified := ["m"]) && "m" in before.verified && ModelMatches("m", "m");
  }
}
