/** What the limiters answer, without their state: a call is refused exactly when a stretch of
    calls ending at it has used up the burst and what accrued over the stretch. */
module RateLaws {
  import opened RateLimits

  function Granted(answers: seq<bool>): nat {
    if answers == [] then 0 else Granted(answers[..|answers| - 1]) + if answers[|answers| - 1] then 1 else 0
  }

  lemma {:induction false} GrantedSnoc(answers: seq<bool>, x: bool)
    ensures Granted(answers + [x]) as real == Granted(answers) as real + One(x)
  {
    assert (answers + [x])[..|answers|] == answers;
  }

  // ---- One bucket ----

  /** What the calls from the `i`-th on leave of a full burst at time `t`. */
  function FromFull(b0: Bucket, times: seq<real>, answers: seq<bool>, i: nat, t: real): real
    requires i < |times| == |answers|
  {
    b0.burst + b0.gain(times[i], t) - Granted(answers[i..]) as real
  }

  /** What all of them leave of the tokens at the start. */
  function FromStart(b0: Bucket, answers: seq<bool>, t: real): real {
    b0.tokens + b0.gain(b0.last, t) - Granted(answers) as real
  }

  /** The tokens at time `t` are the least of these. */
  ghost predicate LeastLeft(b0: Bucket, times: seq<real>, answers: seq<bool>, tokens: real, t: real) {
    && |times| == |answers|
    && tokens <= FromStart(b0, answers, t) && (forall i | 0 <= i < |times| :: tokens <= FromFull(b0, times, answers, i, t))
    && (tokens == FromStart(b0, answers, t) || exists i | 0 <= i < |times| :: tokens == FromFull(b0, times, answers, i, t))
  }

  ghost predicate Follows(b0: Bucket, b: Bucket) { Sane(b) && b.burst == b0.burst && b.gain == b0.gain }

  lemma GainAdds(gain: (real, real) -> real, s: real, t: real, u: real)
    requires Accrues(gain)
    ensures gain(s, t) + gain(t, u) == gain(s, u) && gain(s, s) == 0.0
  {
    assert gain(s, s) + gain(s, s) == gain(s, s);
  }

  /** Time passes: every one of them gains the same. */
  lemma LeftLater(b0: Bucket, times: seq<real>, answers: seq<bool>, tokens: real, s: real, t: real)
    requires Accrues(b0.gain) && LeastLeft(b0, times, answers, tokens, s)
    ensures LeastLeft(b0, times, answers, tokens + b0.gain(s, t), t)
  {
    assert b0.gain(b0.last, s) + b0.gain(s, t) == b0.gain(b0.last, t);
    forall i | 0 <= i < |times| ensures FromFull(b0, times, answers, i, t) == FromFull(b0, times, answers, i, s) + b0.gain(s, t) {
      GainAdds(b0.gain, times[i], s, t);
    }
  }

  lemma LeftAfterCall(b0: Bucket, times: seq<real>, answers: seq<bool>, tokens: real, now: real, x: bool)
    requires Accrues(b0.gain) && LeastLeft(b0, times, answers, tokens, now)
    ensures var left := if tokens > b0.burst then b0.burst else tokens;
      LeastLeft(b0, times + [now], answers + [x], left - One(x), now)
  {
    var left := if tokens > b0.burst then b0.burst else tokens;
    var ts, xs, n := times + [now], answers + [x], |times|;
    GrantedSnoc(answers, x);
    assert b0.gain(now, now) + b0.gain(now, now) == b0.gain(now, now);
    assert xs[n..] == [x] && [] + [x] == [x];
    GrantedSnoc([], x);
    assert FromFull(b0, ts, xs, n, now) == b0.burst - One(x);
    forall i | 0 <= i < n ensures FromFull(b0, ts, xs, i, now) == FromFull(b0, times, answers, i, now) - One(x) {
      assert xs[i..] == answers[i..] + [x];
      GrantedSnoc(answers[i..], x);
    }
    if tokens <= b0.burst && tokens != FromStart(b0, answers, now) {
      var i :| 0 <= i < n && tokens == FromFull(b0, times, answers, i, now);
      assert left - One(x) == FromFull(b0, ts, xs, i, now);
    }
  }

  lemma CallStep(b0: Bucket, times: seq<real>, answers: seq<bool>, b: Bucket, now: real)
    requires Sane(b0) && Follows(b0, b) && b.last <= now && LeastLeft(b0, times, answers, b.tokens, b.last)
    ensures Follows(b0, After(b, now)) && After(b, now).last == now
    ensures LeastLeft(b0, times, answers, b.tokens + b.gain(b.last, now), now)
    ensures Refilled(b, now).tokens == if b.tokens + b.gain(b.last, now) > b.burst then b.burst else b.tokens + b.gain(b.last, now)
    ensures LeastLeft(b0, times + [now], answers + [Admits(b, now)], After(b, now).tokens, now)
  {
    assert b.gain(b.last, b.last) + b.gain(b.last, b.last) == b.gain(b.last, b.last);
    assert b.gain(b.last, now) >= 0.0;
    LeftLater(b0, times, answers, b.tokens, b.last, now);
    LeftAfterCall(b0, times, answers, b.tokens + b.gain(b.last, now), now, Admits(b, now));
  }

  /** Some stretch of calls up to the `n`-th leaves less than one token: from the start on, or
      from any call on with a full burst. */
  ghost predicate UsedUp(b0: Bucket, times: seq<real>, answers: seq<bool>, n: nat)
    requires n < |times| && n <= |answers|
  {
    || b0.tokens + b0.gain(b0.last, times[n]) - Granted(answers[..n]) as real < 1.0
    || exists i | 0 <= i <= n :: b0.burst + b0.gain(times[i], times[n]) - Granted(answers[i..n]) as real < 1.0
  }

  lemma {:induction false} RefusedWhenUsedUp(b0: Bucket, times: seq<real>, answers: seq<bool>, b: Bucket, now: real)
    requires Sane(b0) && Follows(b0, b) && b.last <= now && LeastLeft(b0, times, answers, b.tokens, b.last)
    ensures !Admits(b, now) <==> UsedUp(b0, times + [now], answers, |times|)
  {
    var ts, n, left := times + [now], |times|, b.tokens + b.gain(b.last, now);
    CallStep(b0, times, answers, b, now);
    assert b0.gain(now, now) + b0.gain(now, now) == b0.gain(now, now);
    assert answers[..n] == answers && answers[n..n] == [];
    forall i | 0 <= i < n ensures b0.burst + b0.gain(ts[i], ts[n]) - Granted(answers[i..n]) as real == FromFull(b0, times, answers, i, now) {
      assert answers[i..n] == answers[i..];
    }
    if !Admits(b, now) {
      if left < 1.0 {
        if left != FromStart(b0, answers, now) {
          var i :| 0 <= i < n && left == FromFull(b0, times, answers, i, now);
          assert b0.burst + b0.gain(ts[i], ts[n]) - Granted(answers[i..n]) as real < 1.0;
        }
      } else {
        assert b0.burst + b0.gain(ts[n], ts[n]) - Granted(answers[n..n]) as real < 1.0;
      }
    }
    if UsedUp(b0, ts, answers, n) && FromStart(b0, answers, now) >= 1.0 {
      var i :| 0 <= i <= n && b0.burst + b0.gain(ts[i], ts[n]) - Granted(answers[i..n]) as real < 1.0;
      if i < n { assert left <= FromFull(b0, times, answers, i, now); }
    }
  }

  lemma UsedUpPrefix(b0: Bucket, times: seq<real>, answers: seq<bool>, ts: seq<real>, xs: seq<bool>, n: nat)
    requires n < |times| && n <= |answers| && times <= ts && answers <= xs
    ensures UsedUp(b0, ts, xs, n) == UsedUp(b0, times, answers, n)
  {
    assert xs[..n] == answers[..n];
    forall i | 0 <= i <= n ensures xs[i..n] == answers[i..n] && ts[i] == times[i] {}
  }

  /** The bucket as the first calls leave it. */
  ghost predicate Served(b0: Bucket, times: seq<real>, answers: seq<bool>, b: Bucket) {
    && |answers| <= |times| && Follows(b0, b) && (|answers| < |times| ==> b.last <= times[|answers|])
    && LeastLeft(b0, times[..|answers|], answers, b.tokens, b.last)
  }

  ghost predicate Rightly(b0: Bucket, times: seq<real>, answers: seq<bool>) {
    |answers| <= |times| && forall k | 0 <= k < |answers| :: !answers[k] <==> UsedUp(b0, times, answers, k)
  }

  lemma ServedOn(b0: Bucket, times: seq<real>, answers: seq<bool>, b: Bucket, now: real, ok: bool)
    requires Sane(b0) && NonDecreasing(times) && Served(b0, times, answers, b) && |answers| < |times|
    requires now == times[|answers|] && ok == Admits(b, now)
    ensures Served(b0, times, answers + [ok], After(b, now))
  {
    var before, answered := times[..|answers|], answers + [ok];
    assert |answered| == |answers| + 1 && times[..|answered|] == before + [now];
    CallStep(b0, before, answers, b, now);
    assert |answered| < |times| ==> times[|answers|] <= times[|answered|];
  }

  lemma RefusedOn(b0: Bucket, times: seq<real>, answers: seq<bool>, b: Bucket, now: real)
    requires Sane(b0) && Served(b0, times, answers, b) && |answers| < |times| && now == times[|answers|]
    ensures !Admits(b, now) <==> UsedUp(b0, times, answers, |answers|)
  {
    var n, before := |answers|, times[..|answers|];
    assert before + [now] <= times;
    RefusedWhenUsedUp(b0, before, answers, b, now);
    UsedUpPrefix(b0, before + [now], answers, times, answers, n);
  }

  lemma RightlyOn(b0: Bucket, times: seq<real>, answers: seq<bool>, ok: bool)
    requires Rightly(b0, times, answers) && |answers| < |times| && (!ok <==> UsedUp(b0, times, answers, |answers|))
    ensures Rightly(b0, times, answers + [ok])
  {
    forall k | 0 <= k <= |answers| ensures !(answers + [ok])[k] <==> UsedUp(b0, times, answers + [ok], k) {
      UsedUpPrefix(b0, times, answers, times, answers + [ok], k);
    }
  }

  /** In some window ending with the `n`-th call, what was granted leaves less than one token of
      the burst and what accrues over the window. */
  ghost predicate WindowUsedUp(burst: real, rate: real, times: seq<real>, answers: seq<bool>, n: nat)
    requires n < |times| && n <= |answers|
  {
    exists i | 0 <= i <= n :: burst + (times[n] - times[i]) * rate - Granted(answers[i..n]) as real < 1.0
  }

  /** A bucket asked at any non-decreasing times: it refuses exactly the calls at which the
      burst and the accrual of some stretch up to then are used up. With `WindowBound` no
      window gets more, and with this no call is refused for less. */
  method AnswerCalls(l: TokenBucket, times: seq<real>) returns (answers: seq<bool>)
    requires Sane(l.View()) && NonDecreasing(times) && NotBefore(times, l.last)
    modifies l
    ensures |answers| == |times|
    ensures forall n | 0 <= n < |times| :: !answers[n] <==>
      || old(l.tokens) + (times[n] - old(l.last)) * l.ratePerSec - Granted(answers[..n]) as real < 1.0
      || WindowUsedUp(l.burst, l.ratePerSec, times, answers, n)
  {
    ghost var b0 := l.View();
    answers := [];
    NothingUsed(b0, times);
    for n := 0 to |times|
      invariant |answers| == n && Served(b0, times, answers, l.View()) && Rightly(b0, times, answers)
    {
      ghost var b := l.View();
      RefusedOn(b0, times, answers, b, times[n]);
      var ok := l.AllowAt(times[n]);
      ServedOn(b0, times, answers, b, times[n], ok);
      RightlyOn(b0, times, answers, ok);
      answers := answers + [ok];
    }
    LinearRightly(b0, l.ratePerSec, times, answers);
  }

  lemma NothingUsed(b0: Bucket, times: seq<real>)
    requires Sane(b0) && NotBefore(times, b0.last)
    ensures Served(b0, times, [], b0)
  {
    GainAdds(b0.gain, b0.last, b0.last, b0.last);
  }

  lemma LinearRightly(b0: Bucket, rate: real, times: seq<real>, answers: seq<bool>)
    requires Rightly(b0, times, answers) && |answers| == |times| && b0.gain == Linear(rate)
    ensures forall n | 0 <= n < |times| :: !answers[n] <==>
      || b0.tokens + (times[n] - b0.last) * rate - Granted(answers[..n]) as real < 1.0
      || WindowUsedUp(b0.burst, rate, times, answers, n)
  {
    forall i, n | 0 <= i <= n < |times| ensures b0.gain(times[i], times[n]) == (times[n] - times[i]) * rate {}
    forall n | 0 <= n < |times| ensures b0.gain(b0.last, times[n]) == (times[n] - b0.last) * rate {}
  }

  // ---- One bucket per address ----

  /** How many of the calls of one address were granted. */
  function GrantedTo(ip: string, calls: seq<Call>, answers: seq<bool>): nat
    requires |calls| == |answers|
  {
    if calls == [] then 0
    else
      var n := |calls| - 1;
      GrantedTo(ip, calls[..n], answers[..n]) + if calls[n].ip == ip && answers[n] then 1 else 0
  }

  lemma {:induction false} GrantedToSnoc(ip: string, calls: seq<Call>, answers: seq<bool>, c: Call, x: bool)
    requires |calls| == |answers|
    ensures GrantedTo(ip, calls + [c], answers + [x]) as real == GrantedTo(ip, calls, answers) as real + One(c.ip == ip && x)
  {
    assert (calls + [c])[..|calls|] == calls && (answers + [x])[..|calls|] == answers;
  }

  /** What an address has left at time `t` of a full bucket at its `i`-th call. */
  function Remaining(cfg: IpConfig, calls: seq<Call>, answers: seq<bool>, i: nat, t: real): real
    requires i < |calls| == |answers|
  {
    cfg.burst + cfg.gain(calls[i].now, t) - GrantedTo(calls[i].ip, calls[i..], answers[i..]) as real
  }

  /** `tokens` is the least of a full bucket and what each call of the address leaves. */
  ghost predicate LeastOf(cfg: IpConfig, calls: seq<Call>, answers: seq<bool>, ip: string, tokens: real, t: real)
    requires |calls| == |answers|
  {
    && tokens <= cfg.burst
    && (forall i | 0 <= i < |calls| && calls[i].ip == ip :: tokens <= Remaining(cfg, calls, answers, i, t))
    && (tokens == cfg.burst || exists i | 0 <= i < |calls| && calls[i].ip == ip :: tokens == Remaining(cfg, calls, answers, i, t))
  }

  ghost predicate TableIsLeast(cfg: IpConfig, calls: seq<Call>, answers: seq<bool>, buckets: map<string, IpBucket>, now: real)
    requires |calls| == |answers|
  {
    && SaneTable(cfg, buckets, now)
    && forall ip, t: real | t >= now :: LeastOf(cfg, calls, answers, ip, TokensAt(cfg, buckets, ip, t), t)
  }

  lemma RemainingSnoc(cfg: IpConfig, calls: seq<Call>, answers: seq<bool>, c: Call, x: bool, i: nat, t: real)
    requires Accrues(cfg.gain) && i <= |calls| == |answers|
    ensures i < |calls| ==>
      Remaining(cfg, calls + [c], answers + [x], i, t) == Remaining(cfg, calls, answers, i, t) - One(c.ip == calls[i].ip && x)
    ensures i == |calls| ==> Remaining(cfg, calls + [c], answers + [x], i, t) == cfg.burst + cfg.gain(c.now, t) - One(x)
  {
    var cs, xs := calls + [c], answers + [x];
    if i < |calls| {
      assert cs[i..] == calls[i..] + [c] && xs[i..] == answers[i..] + [x];
      GrantedToSnoc(calls[i].ip, calls[i..], answers[i..], c, x);
    } else {
      assert cs[i..] == [] + [c] && xs[i..] == [] + [x];
      GrantedToSnoc(c.ip, [], [], c, x);
    }
  }

  /** A call of another address takes nothing. */
  lemma OthersKeep(cfg: IpConfig, calls: seq<Call>, answers: seq<bool>, c: Call, x: bool, ip: string, tokens: real, t: real)
    requires Accrues(cfg.gain) && |calls| == |answers| && c.ip != ip && LeastOf(cfg, calls, answers, ip, tokens, t)
    ensures LeastOf(cfg, calls + [c], answers + [x], ip, tokens, t)
  {
    var cs, xs := calls + [c], answers + [x];
    forall i | 0 <= i < |cs| && cs[i].ip == ip
      ensures i < |calls| && Remaining(cfg, cs, xs, i, t) == Remaining(cfg, calls, answers, i, t) {
      RemainingSnoc(cfg, calls, answers, c, x, i, t);
    }
    if tokens != cfg.burst {
      var i :| 0 <= i < |calls| && calls[i].ip == ip && tokens == Remaining(cfg, calls, answers, i, t);
      assert cs[i].ip == ip;
    }
  }

  /** A call of the address itself takes its token, and the rest accrues from there. */
  lemma OwnTakes(cfg: IpConfig, calls: seq<Call>, answers: seq<bool>, c: Call, x: bool, tokens: real, t: real)
    requires Accrues(cfg.gain) && |calls| == |answers| && c.now <= t && LeastOf(cfg, calls, answers, c.ip, tokens, c.now)
    ensures LeastOf(cfg, calls + [c], answers + [x], c.ip, Capped(cfg, tokens - One(x) + cfg.gain(c.now, t)), t)
  {
    var cs, xs, g := calls + [c], answers + [x], cfg.gain(c.now, t);
    forall i | 0 <= i < |calls| && cs[i].ip == c.ip
      ensures Remaining(cfg, cs, xs, i, t) == Remaining(cfg, calls, answers, i, c.now) - One(x) + g {
      RemainingSnoc(cfg, calls, answers, c, x, i, t);
      assert cfg.gain(calls[i].now, c.now) + cfg.gain(c.now, t) == cfg.gain(calls[i].now, t);
    }
    RemainingSnoc(cfg, calls, answers, c, x, |calls|, t);
    assert cs[|calls|] == c;
    if tokens != cfg.burst {
      var i :| 0 <= i < |calls| && calls[i].ip == c.ip && tokens == Remaining(cfg, calls, answers, i, c.now);
      assert cs[i].ip == c.ip;
    }
  }

  lemma LeastOn(cfg: IpConfig, calls: seq<Call>, answers: seq<bool>, buckets: map<string, IpBucket>, c: Call, ip: string, t: real)
    requires Accrues(cfg.gain) && |calls| == |answers| && t >= c.now
    requires Alike(cfg, Table(cfg, buckets, c.ip, c.now), buckets, c.now)
    requires LeastOf(cfg, calls, answers, c.ip, TokensAt(cfg, buckets, c.ip, c.now), c.now)
    requires LeastOf(cfg, calls, answers, ip, TokensAt(cfg, buckets, ip, t), t)
    ensures LeastOf(cfg, calls + [c], answers + [AllowsIp(cfg, buckets, c.ip, c.now)], ip, TokensAt(cfg, Allowed(cfg, buckets, c.ip, c.now), ip, t), t)
  {
    var ok, table, after := AllowsIp(cfg, buckets, c.ip, c.now), Table(cfg, buckets, c.ip, c.now), Allowed(cfg, buckets, c.ip, c.now);
    if ip == c.ip {
      assert TokensAt(cfg, table, ip, c.now) == TokensAt(cfg, buckets, ip, c.now);
      OwnTakes(cfg, calls, answers, c, ok, TokensAt(cfg, buckets, ip, c.now), t);
    } else {
      SameEntry(cfg, after, table, ip, t);
      assert TokensAt(cfg, table, ip, t) == TokensAt(cfg, buckets, ip, t);
      OthersKeep(cfg, calls, answers, c, ok, ip, TokensAt(cfg, buckets, ip, t), t);
    }
  }

  lemma TableOn(cfg: IpConfig, calls: seq<Call>, answers: seq<bool>, buckets: map<string, IpBucket>, now: real, c: Call)
    requires |calls| == |answers| && TableIsLeast(cfg, calls, answers, buckets, now) && c.now >= now
    ensures TableIsLeast(cfg, calls + [c], answers + [AllowsIp(cfg, buckets, c.ip, c.now)], Allowed(cfg, buckets, c.ip, c.now), c.now)
  {
    PruningUnseen(cfg, buckets, c.now);
    ChargeSane(cfg, Table(cfg, buckets, c.ip, c.now), c.ip, c.now);
    forall ip, t: real | t >= c.now
      ensures LeastOf(cfg, calls + [c], answers + [AllowsIp(cfg, buckets, c.ip, c.now)], ip, TokensAt(cfg, Allowed(cfg, buckets, c.ip, c.now), ip, t), t) {
      LeastOn(cfg, calls, answers, buckets, c, ip, t);
    }
  }

  /** What the `n`-th call finds left of a full bucket at the `i`-th. */
  function Found(cfg: IpConfig, calls: seq<Call>, answers: seq<bool>, i: nat, n: nat): real
    requires i <= n < |calls| && n <= |answers|
  {
    cfg.burst + cfg.gain(calls[i].now, calls[n].now) - GrantedTo(calls[n].ip, calls[i..n], answers[i..n]) as real
  }

  ghost predicate IpUsedUp(cfg: IpConfig, calls: seq<Call>, answers: seq<bool>, n: nat)
    requires n < |calls| && n <= |answers|
  {
    exists i | 0 <= i <= n && calls[i].ip == calls[n].ip :: Found(cfg, calls, answers, i, n) < 1.0
  }

  lemma FoundNext(cfg: IpConfig, calls: seq<Call>, answers: seq<bool>, c: Call, i: nat)
    requires Accrues(cfg.gain) && i <= |calls| == |answers|
    ensures i < |calls| && calls[i].ip == c.ip ==>
      Found(cfg, calls + [c], answers, i, |calls|) == Remaining(cfg, calls, answers, i, c.now)
    ensures i == |calls| ==> Found(cfg, calls + [c], answers, i, |calls|) == cfg.burst
  {
    GainAdds(cfg.gain, c.now, c.now, c.now);
    assert (calls + [c])[i..|calls|] == calls[i..] && answers[i..|calls|] == answers[i..];
  }

  lemma RefusedIp(cfg: IpConfig, calls: seq<Call>, answers: seq<bool>, tokens: real, c: Call)
    requires Accrues(cfg.gain) && |calls| == |answers| && LeastOf(cfg, calls, answers, c.ip, tokens, c.now)
    ensures tokens < 1.0 <==> IpUsedUp(cfg, calls + [c], answers, |calls|)
  {
    var cs, n := calls + [c], |calls|;
    FoundNext(cfg, calls, answers, c, n);
    if tokens < 1.0 && tokens != cfg.burst {
      var i :| 0 <= i < n && calls[i].ip == c.ip && tokens == Remaining(cfg, calls, answers, i, c.now);
      FoundNext(cfg, calls, answers, c, i);
      assert cs[i].ip == cs[n].ip && Found(cfg, cs, answers, i, n) < 1.0;
    }
    if IpUsedUp(cfg, cs, answers, n) {
      var i :| 0 <= i <= n && cs[i].ip == cs[n].ip && Found(cfg, cs, answers, i, n) < 1.0;
      FoundNext(cfg, calls, answers, c, i);
      if i < n { assert tokens <= Remaining(cfg, calls, answers, i, c.now); }
    }
  }

  lemma IpUsedUpPrefix(cfg: IpConfig, calls: seq<Call>, answers: seq<bool>, cs: seq<Call>, xs: seq<bool>, n: nat)
    requires n < |calls| && n <= |answers| && calls <= cs && answers <= xs
    ensures IpUsedUp(cfg, cs, xs, n) == IpUsedUp(cfg, calls, answers, n)
  {
    forall i | 0 <= i <= n ensures cs[i] == calls[i] && Found(cfg, cs, xs, i, n) == Found(cfg, calls, answers, i, n) {
      assert xs[i..n] == answers[i..n] && cs[i..n] == calls[i..n];
    }
  }

  ghost predicate IpRightly(cfg: IpConfig, calls: seq<Call>, answers: seq<bool>) {
    |answers| <= |calls| && forall k | 0 <= k < |answers| :: !answers[k] <==> IpUsedUp(cfg, calls, answers, k)
  }

  /** The table as the first calls leave it, and what they were answered. */
  ghost predicate IpServed(cfg: IpConfig, calls: seq<Call>, answers: seq<bool>, buckets: map<string, IpBucket>, now: real) {
    && IpRightly(cfg, calls, answers)
    && TableIsLeast(cfg, calls[..|answers|], answers, buckets, now)
    && (|answers| < |calls| ==> now <= calls[|answers|].now)
  }

  lemma IpRightlyOn(cfg: IpConfig, calls: seq<Call>, answers: seq<bool>, tokens: real, c: Call)
    requires Accrues(cfg.gain) && IpRightly(cfg, calls, answers) && |answers| < |calls| && c == calls[|answers|]
    requires LeastOf(cfg, calls[..|answers|], answers, c.ip, tokens, c.now)
    ensures IpRightly(cfg, calls, answers + [tokens >= 1.0])
  {
    var n, before, answered := |answers|, calls[..|answers|], answers + [tokens >= 1.0];
    assert before + [c] <= calls;
    RefusedIp(cfg, before, answers, tokens, c);
    IpUsedUpPrefix(cfg, before + [c], answers, calls, answers, n);
    forall k | 0 <= k <= n ensures !answered[k] <==> IpUsedUp(cfg, calls, answered, k) {
      IpUsedUpPrefix(cfg, calls, answers, calls, answered, k);
    }
  }

  lemma IpServedOn(cfg: IpConfig, calls: seq<Call>, answers: seq<bool>, buckets: map<string, IpBucket>, now: real, c: Call)
    requires IpServed(cfg, calls, answers, buckets, now) && |answers| < |calls| && c == calls[|answers|]
    requires |answers| + 1 < |calls| ==> c.now <= calls[|answers| + 1].now
    ensures IpServed(cfg, calls, answers + [AllowsIp(cfg, buckets, c.ip, c.now)], Allowed(cfg, buckets, c.ip, c.now), c.now)
  {
    var before, answered := calls[..|answers|], answers + [AllowsIp(cfg, buckets, c.ip, c.now)];
    IpRightlyOn(cfg, calls, answers, TokensAt(cfg, buckets, c.ip, c.now), c);
    TableOn(cfg, before, answers, buckets, now, c);
    assert |answered| == |answers| + 1 && calls[..|answered|] == before + [c];
  }

  lemma NothingTaken(cfg: IpConfig, calls: seq<Call>, start: real)
    requires Accrues(cfg.gain) && cfg.burst >= 0.0 && ClockFrom(calls, start)
    ensures IpServed(cfg, calls, [], map[], start)
  {
    assert calls[..0] == [];
    forall ip, t: real | t >= start ensures TokensAt(cfg, map[], ip, t) == cfg.burst { GainAdds(cfg.gain, t, t, t); }
  }

  ghost predicate AddressUsedUp(burst: real, rate: real, calls: seq<Call>, answers: seq<bool>, n: nat)
    requires n < |calls| && n <= |answers|
  {
    exists i | 0 <= i <= n && calls[i].ip == calls[n].ip ::
      burst + (calls[n].now - calls[i].now) * rate - GrantedTo(calls[n].ip, calls[i..n], answers[i..n]) as real < 1.0
  }

  /** The limiter from its start, pruning included: an address is refused exactly when its own
      calls have used up the burst and what accrued since one of them. No call of another
      address counts. */
  method AnswerAddresses(l: IpLimiter, calls: seq<Call>, ghost start: real) returns (answers: seq<bool>)
    requires l.perSec >= 0.0 && l.burst >= 0.0 && l.buckets == map[] && ClockFrom(calls, start)
    modifies l
    ensures |answers| == |calls|
    ensures forall n | 0 <= n < |calls| :: !answers[n] <==> AddressUsedUp(l.burst, l.perSec, calls, answers, n)
  {
    ghost var cfg, now := l.Cfg(), start;
    answers := [];
    IpGain(l);
    NothingTaken(cfg, calls, start);
    for n := 0 to |calls|
      invariant |answers| == n && IpServed(cfg, calls, answers, l.buckets, now)
    {
      var c := calls[n];
      IpServedOn(cfg, calls, answers, l.buckets, now, c);
      var ok := l.Allow(c.ip, c.now);
      answers, now := answers + [ok], c.now;
    }
    LinearIpRightly(cfg, l.perSec, calls, answers);
  }

  lemma LinearIpRightly(cfg: IpConfig, rate: real, calls: seq<Call>, answers: seq<bool>)
    requires IpRightly(cfg, calls, answers) && |answers| == |calls| && cfg.gain == Linear(rate)
    ensures forall n | 0 <= n < |calls| :: !answers[n] <==> AddressUsedUp(cfg.burst, rate, calls, answers, n)
  {
    forall i, n | 0 <= i <= n < |calls| ensures cfg.gain(calls[i].now, calls[n].now) == (calls[n].now - calls[i].now) * rate {}
  }
}
