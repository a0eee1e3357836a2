/** Request limits: token buckets per API key, in-flight caps per API key, and the pruned
    per-IP buckets of the endpoints that need no key. The clock is a parameter. */
module RateLimits {

  // ---- Token bucket ----

  /** `gain(s, t)` is what accrues between two moments. */
  datatype Bucket = Bucket(tokens: real, burst: real, gain: (real, real) -> real, last: real)

  function Linear(rate: real): (real, real) -> real { (s: real, t: real) => (t - s) * rate }

  function Refilled(b: Bucket, now: real): Bucket {
    if now - b.last > 0.0 then
      var t := b.tokens + b.gain(b.last, now);
      b.(tokens := if t > b.burst then b.burst else t, last := now)
    else b
  }

  function Admits(b: Bucket, now: real): bool { Refilled(b, now).tokens >= 1.0 }

  function After(b: Bucket, now: real): Bucket {
    var r := Refilled(b, now);
    if r.tokens >= 1.0 then r.(tokens := r.tokens - 1.0) else r
  }

  ghost predicate Accrues(gain: (real, real) -> real) {
    && (forall s, t | s <= t :: gain(s, t) >= 0.0)
    && (forall s, t, u :: gain(s, t) + gain(t, u) == gain(s, u))
  }

  ghost predicate Sane(b: Bucket) { 0.0 <= b.tokens <= b.burst && Accrues(b.gain) }

  lemma RefillNonNegative(elapsed: real, rate: real)
    requires elapsed >= 0.0 && rate >= 0.0
    ensures elapsed * rate >= 0.0
  {
  }

  lemma LinearAccrues(rate: real)
    requires rate >= 0.0
    ensures Accrues(Linear(rate))
  {
    forall s, t | s <= t ensures Linear(rate)(s, t) >= 0.0 { RefillNonNegative(t - s, rate); }
    forall s, t, u ensures Linear(rate)(s, t) + Linear(rate)(t, u) == Linear(rate)(s, u) {
      assert (t - s) * rate + (u - t) * rate == (u - s) * rate;
    }
  }

  class TokenBucket {
    var tokens: real
    const burst: real
    const ratePerSec: real
    var last: real

    constructor (ratePerSec: real, burst: int, now: real)
      requires ratePerSec >= 0.0
      ensures Sane(View()) && tokens == this.burst >= 1.0 && last == now
    {
      var b := burst as real;
      if b < 1.0 { b := 1.0; }
      this.tokens, this.burst, this.ratePerSec, this.last := b, b, ratePerSec, now;
      LinearAccrues(ratePerSec);
    }

    function View(): Bucket
      reads this
    {
      Bucket(tokens, burst, Linear(ratePerSec), last)
    }

    method AllowAt(now: real) returns (ok: bool)
      requires Sane(View())
      modifies this
      ensures ok == Admits(old(View()), now) && View() == After(old(View()), now) && Sane(View())
    {
      var elapsed := now - last;
      assert Linear(ratePerSec)(last, now) == elapsed * ratePerSec;
      if elapsed > 0.0 {
        tokens := tokens + elapsed * ratePerSec;
        if tokens > burst { tokens := burst; }
        last := now;
      }
      if tokens >= 1.0 {
        tokens := tokens - 1.0;
        return true;
      }
      return false;
    }
  }

  /** How many of the calls at `times` a bucket admits, and where it ends. */
  function Admitted(b: Bucket, times: seq<real>): nat
    decreases |times|
  {
    if times == [] then 0 else (if Admits(b, times[0]) then 1 else 0) + Admitted(After(b, times[0]), times[1..])
  }

  function RunOver(b: Bucket, times: seq<real>): Bucket
    decreases |times|
  {
    if times == [] then b else RunOver(After(b, times[0]), times[1..])
  }

  ghost predicate NonDecreasing(times: seq<real>) { forall i, j | 0 <= i < j < |times| :: times[i] <= times[j] }

  ghost predicate NotBefore(times: seq<real>, start: real) { forall i | 0 <= i < |times| :: times[i] >= start }

  function One(admitted: bool): real { if admitted then 1.0 else 0.0 }

  /** Every admitted call costs one token. */
  lemma StepCost(b: Bucket, now: real)
    requires Sane(b) && now >= b.last
    ensures var a := After(b, now);
      && Sane(a) && a.burst == b.burst && a.gain == b.gain && a.last == now
      && a.tokens + One(Admits(b, now)) <= b.tokens + b.gain(b.last, now)
      && a.tokens + One(Admits(b, now)) <= b.burst
  {
    assert b.gain(b.last, now) >= 0.0;
  }

  /** What a run admits comes out of the tokens at its start and what accrues during it. */
  lemma {:induction false} RunBound(b: Bucket, times: seq<real>)
    requires Sane(b) && NonDecreasing(times) && NotBefore(times, b.last)
    ensures var e := RunOver(b, times);
      && Sane(e) && e.burst == b.burst && e.gain == b.gain
      && e.last == (if times == [] then b.last else times[|times| - 1])
      && Admitted(b, times) as real + e.tokens <= b.tokens + b.gain(b.last, e.last)
    decreases |times|
  {
    if times == [] {
      assert b.gain(b.last, b.last) >= 0.0;
    } else {
      var a := After(b, times[0]);
      StepCost(b, times[0]);
      RunBound(a, times[1..]);
      var e := RunOver(a, times[1..]);
      assert b.gain(b.last, a.last) + b.gain(a.last, e.last) == b.gain(b.last, e.last);
    }
  }

  lemma {:induction false} BoundFromFirst(start: Bucket, times: seq<real>)
    requires Sane(start) && times != [] && NonDecreasing(times) && NotBefore(times, start.last)
    ensures Admitted(start, times) as real <= start.burst + start.gain(times[0], times[|times| - 1])
  {
    StepCost(start, times[0]);
    RunBound(After(start, times[0]), times[1..]);
    if |times| == 1 { assert start.gain(times[0], times[0]) >= 0.0; }
  }

  lemma {:induction false} WindowGain(b: Bucket, times: seq<real>, i: nat, j: nat)
    requires Sane(b) && NonDecreasing(times) && NotBefore(times, b.last) && i < j <= |times|
    ensures Admitted(RunOver(b, times[..i]), times[i..j]) as real <= b.burst + b.gain(times[i], times[j - 1])
  {
    RunBound(b, times[..i]);
    BoundFromFirst(RunOver(b, times[..i]), times[i..j]);
  }

  /** In any run with a non-decreasing clock, the calls admitted in any window of it are at
      most the burst plus the rate times the window's length. */
  lemma {:induction false} WindowBound(b: Bucket, rate: real, times: seq<real>, i: nat, j: nat)
    requires Sane(b) && b.gain == Linear(rate) && NonDecreasing(times) && NotBefore(times, b.last) && i < j <= |times|
    ensures Admitted(RunOver(b, times[..i]), times[i..j]) as real <= b.burst + rate * (times[j - 1] - times[i])
  {
    WindowGain(b, times, i, j);
    LinearGain(rate, times[i], times[j - 1]);
  }

  lemma LinearGain(rate: real, s: real, t: real)
    ensures Linear(rate)(s, t) == rate * (t - s)
  {
  }

  // ---- In-flight cap ----

  /** A granted slot; `released` is the once-flag of its release function. */
  datatype Slot = Slot(key: string, released: bool)

  function OpenSlots(slots: seq<Slot>, key: string): nat {
    if slots == [] then 0
    else OpenSlots(slots[..|slots| - 1], key) + if slots[|slots| - 1].key == key && !slots[|slots| - 1].released then 1 else 0
  }

  lemma {:induction false} OpenSlotsAppend(slots: seq<Slot>, s: Slot, key: string)
    ensures OpenSlots(slots + [s], key) == OpenSlots(slots, key) + if s.key == key && !s.released then 1 else 0
  {
    assert (slots + [s])[..|slots|] == slots;
  }

  lemma {:induction false} OpenSlotsRelease(slots: seq<Slot>, i: nat, key: string)
    requires i < |slots| && !slots[i].released
    ensures OpenSlots(slots, key) == OpenSlots(slots[i := slots[i].(released := true)], key) + if slots[i].key == key then 1 else 0
    decreases |slots|
  {
    var n := |slots| - 1;
    var after := slots[i := slots[i].(released := true)];
    if i == n {
      assert after[..n] == slots[..n];
    } else {
      OpenSlotsRelease(slots[..n], i, key);
      assert after[..n] == slots[..n][i := slots[i].(released := true)];
    }
  }

  datatype Grant = Refused | Uncounted | Held(slot: nat)

  class InFlightLimiter {
    var inFlight: map<string, nat>
    const maxInFlight: int            // at or below zero: no limit
    var slots: seq<Slot>

    function Count(key: string): nat
      reads this
    {
      if key in inFlight then inFlight[key] else 0
    }

    ghost predicate Valid()
      reads this
    {
      && (forall key :: Count(key) == OpenSlots(slots, key))
      && (maxInFlight > 0 ==> forall key :: Count(key) <= maxInFlight)
      && (maxInFlight <= 0 ==> slots == [])
    }

    constructor (maxInFlight: int)
      ensures Valid() && slots == [] && this.maxInFlight == maxInFlight
    {
      this.maxInFlight := maxInFlight;
      inFlight, slots := map[], [];
    }

    /** A slot is refused exactly when there is a cap and the key already holds it; without a
        cap nothing is counted. */
    method Acquire(key: string) returns (grant: Grant)
      requires Valid()
      modifies this
      ensures Valid()
      ensures grant.Refused? <==> maxInFlight > 0 && OpenSlots(old(slots), key) >= maxInFlight
      ensures grant.Uncounted? <==> maxInFlight <= 0
      ensures slots == if grant.Held? then old(slots) + [Slot(key, false)] else old(slots)
      ensures grant.Held? ==> grant.slot == |old(slots)|
    {
      if maxInFlight <= 0 { return Uncounted; }
      var n := if key in inFlight then inFlight[key] else 0;
      if n >= maxInFlight { return Refused; }
      ghost var before := slots;
      inFlight := inFlight[key := n + 1];
      grant := Held(|slots|);
      slots := slots + [Slot(key, false)];
      forall k ensures Count(k) == OpenSlots(slots, k) <= maxInFlight {
        OpenSlotsAppend(before, Slot(key, false), k);
      }
    }

    /** Releasing again is a no-op. */
    method Release(i: nat)
      requires Valid() && i < |slots|
      modifies this
      ensures Valid() && slots == old(slots)[i := old(slots)[i].(released := true)]
    {
      if slots[i].released {
        assert slots[i := slots[i]] == slots;
        return;
      }
      ghost var before := slots;
      var key := slots[i].key;
      forall k { OpenSlotsRelease(slots, i, k); }
      slots := slots[i := slots[i].(released := true)];
      if key in inFlight && inFlight[key] > 0 { inFlight := inFlight[key := inFlight[key] - 1]; }
      forall k ensures Count(k) == OpenSlots(slots, k) <= maxInFlight {
        OpenSlotsRelease(before, i, k);
      }
    }
  }

  // ---- Per-IP limiter with pruning ----

  datatype IpBucket = IpBucket(tokens: real, last: real)

  datatype IpConfig = IpConfig(gain: (real, real) -> real, burst: real)

  const PRUNE_AT: nat := 4096

  function Capped(cfg: IpConfig, t: real): real { if t > cfg.burst then cfg.burst else t }

  function Start(cfg: IpConfig, buckets: map<string, IpBucket>, ip: string, now: real): IpBucket {
    if ip in buckets then buckets[ip] else IpBucket(cfg.burst, now)
  }

  /** The tokens an address would have at time `t`. */
  function TokensAt(cfg: IpConfig, buckets: map<string, IpBucket>, ip: string, t: real): real {
    var b := Start(cfg, buckets, ip, t);
    Capped(cfg, b.tokens + cfg.gain(b.last, t))
  }

  function AllowsIp(cfg: IpConfig, buckets: map<string, IpBucket>, ip: string, now: real): bool {
    TokensAt(cfg, buckets, ip, now) >= 1.0
  }

  function Charged(cfg: IpConfig, buckets: map<string, IpBucket>, ip: string, now: real): map<string, IpBucket> {
    var t := TokensAt(cfg, buckets, ip, now);
    buckets[ip := IpBucket(if t < 1.0 then t else t - 1.0, now)]
  }

  predicate RefilledWhole(cfg: IpConfig, b: IpBucket, now: real) { cfg.gain(b.last, now) >= cfg.burst }

  function Pruned(cfg: IpConfig, buckets: map<string, IpBucket>, now: real): map<string, IpBucket> {
    map ip | ip in buckets && !RefilledWhole(cfg, buckets[ip], now) :: buckets[ip]
  }

  /** A new address first makes room when the table is full. */
  function Table(cfg: IpConfig, buckets: map<string, IpBucket>, ip: string, now: real): map<string, IpBucket> {
    if ip !in buckets && |buckets| >= PRUNE_AT then Pruned(cfg, buckets, now) else buckets
  }

  function Allowed(cfg: IpConfig, buckets: map<string, IpBucket>, ip: string, now: real): map<string, IpBucket> {
    Charged(cfg, Table(cfg, buckets, ip, now), ip, now)
  }

  lemma Overwrite(a: map<string, IpBucket>, b: map<string, IpBucket>, ip: string, x: IpBucket)
    requires forall k | k != ip :: (k in a <==> k in b) && (k in a ==> a[k] == b[k])
    ensures a[ip := x] == b[ip := x]
  {
  }

  lemma SameEntry(cfg: IpConfig, a: map<string, IpBucket>, b: map<string, IpBucket>, ip: string, t: real)
    requires (ip in a <==> ip in b) && (ip in a ==> a[ip] == b[ip])
    ensures TokensAt(cfg, a, ip, t) == TokensAt(cfg, b, ip, t)
  {
    assert Start(cfg, a, ip, t) == Start(cfg, b, ip, t);
  }

  class IpLimiter {
    const perSec: real
    const burst: real
    var buckets: map<string, IpBucket>

    constructor (perMin: real)
      ensures buckets == map[] && perSec == perMin / 60.0 && burst == perMin
    {
      perSec, burst := perMin / 60.0, perMin;
      buckets := map[];
    }

    function Cfg(): IpConfig { IpConfig(Linear(perSec), burst) }

    method Prune(now: real)
      modifies this
      ensures buckets == Pruned(Cfg(), old(buckets), now)
    {
      var todo := buckets.Keys;
      while todo != {}
        invariant todo <= old(buckets).Keys
        invariant buckets == map ip | ip in old(buckets) && (ip in todo || !RefilledWhole(Cfg(), old(buckets)[ip], now)) :: old(buckets)[ip]
        decreases todo
      {
        var ip :| ip in todo;
        assert Linear(perSec)(buckets[ip].last, now) == (now - buckets[ip].last) * perSec;
        if (now - buckets[ip].last) * perSec >= burst { buckets := buckets - {ip}; }
        todo := todo - {ip};
      }
    }

    /** The bucket of an address, made on first sight. */
    method BucketFor(ip: string, now: real) returns (b: IpBucket)
      modifies this
      ensures b == Start(Cfg(), old(buckets), ip, now)
      ensures buckets == Table(Cfg(), old(buckets), ip, now)[ip := b]
    {
      if ip !in buckets {
        if |buckets| >= PRUNE_AT { Prune(now); }
        buckets := buckets[ip := IpBucket(burst, now)];
      } else {
        assert buckets == buckets[ip := buckets[ip]];
      }
      b := buckets[ip];
    }

    method Allow(ip: string, now: real) returns (ok: bool)
      modifies this
      ensures buckets == Allowed(Cfg(), old(buckets), ip, now)
      ensures ok == AllowsIp(Cfg(), old(buckets), ip, now)
    {
      ghost var table := Table(Cfg(), old(buckets), ip, now);
      var b := BucketFor(ip, now);
      var tokens := b.tokens + (now - b.last) * perSec;
      if tokens > burst { tokens := burst; }
      assert tokens == Capped(Cfg(), b.tokens + Cfg().gain(b.last, now));
      assert b == Start(Cfg(), table, ip, now);
      Overwrite(table, buckets, ip, IpBucket(if tokens < 1.0 then tokens else tokens - 1.0, now));
      if tokens < 1.0 {
        buckets := buckets[ip := IpBucket(tokens, now)];
        return false;
      }
      buckets := buckets[ip := IpBucket(tokens - 1.0, now)];
      return true;
    }
  }

  /** The configured limiter's rate accrues linearly. */
  lemma IpGain(l: IpLimiter)
    requires l.perSec >= 0.0
    ensures Accrues(l.Cfg().gain)
  {
    LinearAccrues(l.perSec);
  }

  ghost predicate SaneTable(cfg: IpConfig, buckets: map<string, IpBucket>, now: real) {
    Accrues(cfg.gain) && cfg.burst >= 0.0 && forall ip | ip in buckets :: 0.0 <= buckets[ip].tokens <= cfg.burst && buckets[ip].last <= now
  }

  /** From `now` on, the two tables give every address the same tokens. */
  ghost predicate Alike(cfg: IpConfig, a: map<string, IpBucket>, b: map<string, IpBucket>, now: real) {
    forall ip, t: real | t >= now :: TokensAt(cfg, a, ip, t) == TokensAt(cfg, b, ip, t)
  }

  lemma TokensInRange(cfg: IpConfig, buckets: map<string, IpBucket>, ip: string, now: real)
    requires SaneTable(cfg, buckets, now)
    ensures 0.0 <= TokensAt(cfg, buckets, ip, now) <= cfg.burst
  {
    var b := Start(cfg, buckets, ip, now);
    assert b.last <= now && 0.0 <= b.tokens;
    assert cfg.gain(b.last, now) >= 0.0;
  }

  lemma MoreRefill(cfg: IpConfig, b: IpBucket, now: real, t: real)
    requires Accrues(cfg.gain) && t >= now && RefilledWhole(cfg, b, now)
    ensures cfg.gain(b.last, t) >= cfg.burst
  {
    assert cfg.gain(b.last, now) + cfg.gain(now, t) == cfg.gain(b.last, t) && cfg.gain(now, t) >= 0.0;
  }

  lemma PruningUnseen(cfg: IpConfig, buckets: map<string, IpBucket>, now: real)
    requires SaneTable(cfg, buckets, now)
    ensures SaneTable(cfg, Pruned(cfg, buckets, now), now) && Alike(cfg, Pruned(cfg, buckets, now), buckets, now)
  {
    var p := Pruned(cfg, buckets, now);
    forall ip, t: real | t >= now ensures TokensAt(cfg, p, ip, t) == TokensAt(cfg, buckets, ip, t) {
      if ip in buckets && ip !in p {
        MoreRefill(cfg, buckets[ip], now, t);
        assert cfg.gain(t, t) >= 0.0;
      } else {
        SameEntry(cfg, p, buckets, ip, t);
      }
    }
  }

  lemma ChargeSane(cfg: IpConfig, a: map<string, IpBucket>, ip: string, now: real)
    requires SaneTable(cfg, a, now)
    ensures SaneTable(cfg, Charged(cfg, a, ip, now), now)
  {
    TokensInRange(cfg, a, ip, now);
  }

  lemma ChargeAlike(cfg: IpConfig, a: map<string, IpBucket>, b: map<string, IpBucket>, ip: string, now: real)
    requires Alike(cfg, a, b, now)
    ensures Alike(cfg, Charged(cfg, a, ip, now), Charged(cfg, b, ip, now), now)
  {
    var ca, cb := Charged(cfg, a, ip, now), Charged(cfg, b, ip, now);
    assert TokensAt(cfg, a, ip, now) == TokensAt(cfg, b, ip, now);
    assert ca[ip] == cb[ip];
    forall other, t: real | t >= now ensures TokensAt(cfg, ca, other, t) == TokensAt(cfg, cb, other, t) {
      if other == ip {
        SameEntry(cfg, ca, cb, ip, t);
      } else {
        SameEntry(cfg, ca, a, other, t);
        SameEntry(cfg, cb, b, other, t);
        assert TokensAt(cfg, a, other, t) == TokensAt(cfg, b, other, t);
      }
    }
  }

  lemma AlikeTransitive(cfg: IpConfig, a: map<string, IpBucket>, b: map<string, IpBucket>, c: map<string, IpBucket>, now: real)
    requires Alike(cfg, a, b, now) && Alike(cfg, b, c, now)
    ensures Alike(cfg, a, c, now)
  {
    forall ip, t: real | t >= now ensures TokensAt(cfg, a, ip, t) == TokensAt(cfg, c, ip, t) {
      assert TokensAt(cfg, a, ip, t) == TokensAt(cfg, b, ip, t);
    }
  }

  datatype Call = Call(ip: string, now: real)

  function Decisions(cfg: IpConfig, buckets: map<string, IpBucket>, calls: seq<Call>): seq<bool>
    decreases |calls|
  {
    if calls == [] then []
    else [AllowsIp(cfg, buckets, calls[0].ip, calls[0].now)]
         + Decisions(cfg, Allowed(cfg, buckets, calls[0].ip, calls[0].now), calls[1..])
  }

  /** The limiter without any pruning. */
  function UnprunedDecisions(cfg: IpConfig, buckets: map<string, IpBucket>, calls: seq<Call>): seq<bool>
    decreases |calls|
  {
    if calls == [] then []
    else [AllowsIp(cfg, buckets, calls[0].ip, calls[0].now)]
         + UnprunedDecisions(cfg, Charged(cfg, buckets, calls[0].ip, calls[0].now), calls[1..])
  }

  ghost predicate ClockFrom(calls: seq<Call>, now: real) {
    (forall c | c in calls :: c.now >= now) && forall i, j | 0 <= i < j < |calls| :: calls[i].now <= calls[j].now
  }

  lemma LaterAlike(cfg: IpConfig, a: map<string, IpBucket>, b: map<string, IpBucket>, now: real, later: real)
    requires SaneTable(cfg, a, now) && SaneTable(cfg, b, now) && Alike(cfg, a, b, now) && later >= now
    ensures SaneTable(cfg, a, later) && SaneTable(cfg, b, later) && Alike(cfg, a, b, later)
  {
  }

  /** Pruning is unobservable: over any run with a non-decreasing clock the limiter that prunes
      decides every call like one that never does. */
  lemma {:induction false} PruningChangesNothing(cfg: IpConfig, a: map<string, IpBucket>, b: map<string, IpBucket>, calls: seq<Call>, now: real)
    requires SaneTable(cfg, a, now) && SaneTable(cfg, b, now) && Alike(cfg, a, b, now) && ClockFrom(calls, now)
    ensures Decisions(cfg, a, calls) == UnprunedDecisions(cfg, b, calls)
    decreases |calls|
  {
    if calls != [] {
      var c := calls[0];
      LaterAlike(cfg, a, b, now, c.now);
      var table := Table(cfg, a, c.ip, c.now);
      if table != a {
        PruningUnseen(cfg, a, c.now);
        AlikeTransitive(cfg, table, a, b, c.now);
      }
      ChargeSane(cfg, table, c.ip, c.now);
      ChargeSane(cfg, b, c.ip, c.now);
      ChargeAlike(cfg, table, b, c.ip, c.now);
      assert calls == [c] + calls[1..];
      PruningChangesNothing(cfg, Charged(cfg, table, c.ip, c.now), Charged(cfg, b, c.ip, c.now), calls[1..], c.now);
      assert TokensAt(cfg, a, c.ip, c.now) == TokensAt(cfg, b, c.ip, c.now);
    }
  }

  /** The limiter itself from its start: every call is answered as if nothing were ever pruned. */
  method AnswerAll(l: IpLimiter, calls: seq<Call>, ghost now: real) returns (answers: seq<bool>)
    requires l.perSec >= 0.0 && l.burst >= 0.0 && l.buckets == map[] && ClockFrom(calls, now)
    modifies l
    ensures answers == UnprunedDecisions(l.Cfg(), map[], calls)
  {
    answers := [];
    assert calls[0..] == calls;
    for i := 0 to |calls|
      invariant answers + Decisions(l.Cfg(), l.buckets, calls[i..]) == Decisions(l.Cfg(), map[], calls)
    {
      assert calls[i..][0] == calls[i] && calls[i..][1..] == calls[i + 1..];
      var ok := l.Allow(calls[i].ip, calls[i].now);
      answers := answers + [ok];
    }
    IpGain(l);
    PruningChangesNothing(l.Cfg(), map[], map[], calls, now);
  }
}
