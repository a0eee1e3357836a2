/** One client stream spliced from several worker segments: when a worker breaks off, another
    is asked to continue from exactly the text the client already has. */
module StreamResume {
  import opened Orders
  import opened SseFilter

  // ---- The text a client can decode from the bytes it was sent ----

  function NonEmpty(deltas: seq<string>): seq<string> {
    if deltas == [] then []
    else NonEmpty(deltas[..|deltas| - 1]) + if deltas[|deltas| - 1] == "" then [] else [deltas[|deltas| - 1]]
  }

  /** The content deltas of one line; receipts and errors carry none. */
  function LineDeltas(cfg: Config): string -> seq<string> {
    (line: string) =>
      var trim := Trim(line);
      if trim != DONE && "data: " <= trim && cfg.cl.receipt(trim[6..]).None? && cfg.cl.error(trim[6..]).None?
      then NonEmpty(cfg.cl.deltas(trim[6..])) else []
  }

  function Collect(f: string -> seq<string>, s: string): seq<string>
    decreases |s|
  {
    if s == "" then []
    else
      var i := NewlineAt(s);
      if i == |s| then f(s) else f(s[..i + 1]) + Collect(f, s[i + 1..])
  }

  /** Every content delta in the bytes `sent`, in order. */
  function Deltas(cfg: Config, sent: string): seq<string> { Collect(LineDeltas(cfg), sent) }

  /** The text those bytes decode to. */
  function Text(cfg: Config, sent: string): string { Joined(Deltas(cfg, sent)) }

  lemma {:induction false} CollectConcat(f: string -> seq<string>, a: string, b: string)
    requires WholeLines(a)
    ensures Collect(f, a + b) == Collect(f, a) + Collect(f, b)
    decreases |a|
  {
    if a == "" {
      assert a + b == b;
    } else {
      var i := NewlineAt(a);
      assert i < |a| by { assert a[|a| - 1] == '\n'; }
      NewlineInPrefix(a, b);
      var head, rest := a[..i + 1], a[i + 1..];
      assert (a + b)[..i + 1] == head && (a + b)[i + 1..] == rest + b;
      CollectConcat(f, rest, b);
      Grouped(f(head), Collect(f, rest), Collect(f, b));
    }
  }

  lemma {:induction false} CollectLine(f: string -> seq<string>, line: string)
    requires OneLine(line)
    ensures Collect(f, line) == f(line)
  {
    var i := NewlineAt(line);
    assert i + 1 == |line| && line[..i + 1] == line && line[i + 1..] == "";
    assert Collect(f, "") == [] && f(line) + [] == f(line);
  }

  lemma {:induction false} TextAppended(f: string -> seq<string>, sent: string, line: string)
    requires WholeLines(sent) && OneLine(line)
    ensures WholeLines(sent + line) && Collect(f, sent + line) == Collect(f, sent) + f(line)
    ensures Joined(Collect(f, sent + line)) == Joined(Collect(f, sent)) + Joined(f(line))
  {
    CollectConcat(f, sent, line);
    CollectLine(f, line);
    JoinedConcat(Collect(f, sent), f(line));
  }

  lemma {:induction false} JoinedSnoc(a: seq<string>, x: string)
    ensures Joined(a + [x]) == Joined(a) + x
  {
    assert (a + [x])[..|a|] == a;
  }

  lemma {:induction false} JoinedConcat(a: seq<string>, b: seq<string>)
    ensures Joined(a + b) == Joined(a) + Joined(b)
    decreases |b|
  {
    if b == [] {
      assert a + b == a && Joined(a) + "" == Joined(a);
    } else {
      var n := |b| - 1;
      JoinedConcat(a, b[..n]);
      JoinedSnoc(a + b[..n], b[n]);
      assert a + b == (a + b[..n]) + [b[n]];
      Together(Joined(a), Joined(b[..n]), b[n]);
    }
  }

  // ---- The filter meters and keeps exactly that text ----

  lemma {:induction false} DeliverCounts(st: Sse, deltas: seq<string>, cap: nat)
    ensures var r := Deliver(st, deltas, cap);
      && r.delivered == st.delivered + |NonEmpty(deltas)|
      && (!r.overflow ==> !st.overflow && r.content == st.content + Joined(NonEmpty(deltas)))
    decreases |deltas|
  {
    if deltas == [] {
      assert st.content + "" == st.content;
    } else {
      var n := |deltas| - 1;
      var kept := NonEmpty(deltas[..n]);
      DeliverCounts(st, deltas[..n], cap);
      if deltas[n] == "" {
        assert kept + [] == kept;
      } else {
        JoinedSnoc(kept, deltas[n]);
        Together(st.content, Joined(kept), deltas[n]);
      }
    }
  }

  /** `before` tokens were delivered by earlier segments. */
  ghost predicate Metered(cfg: Config, st: Sse, before: nat) {
    && WholeLines(st.out) && |Deltas(cfg, st.out)| == before + st.delivered
    && (!st.overflow ==> st.content == Text(cfg, st.out))
  }

  lemma DataMeters(cfg: Config, st: Sse, payload: string, line: string)
    requires Trim(line) == "data: " + payload && Trim(line) != DONE
    ensures Adds(cfg, st, line, DataLine(cfg, st, payload, line))
  {
    var used := if cfg.cl.usage(payload).Some? then st.(usage := cfg.cl.usage(payload)) else st;
    var trim := Trim(line);
    assert trim[6..] == payload && "data: " <= trim;
    if cfg.cl.receipt(payload).Some? {
      assert LineDeltas(cfg)(line) == [] && st.content + Joined([]) == st.content;
    } else if cfg.cl.error(payload).None? {
      assert LineDeltas(cfg)(line) == NonEmpty(cfg.cl.deltas(payload));
      DeliverCounts(used, cfg.cl.deltas(payload), cfg.contentCap);
    }
  }

  /** What one line adds to the client's bytes, the count and the text. */
  ghost predicate Adds(cfg: Config, st: Sse, line: string, after: Sse) {
    || (after.out == st.out && after.delivered == st.delivered && after.content == st.content && after.overflow == st.overflow)
    || (after.out == st.out + line && after.delivered == st.delivered + |LineDeltas(cfg)(line)|
        && (!after.overflow ==> !st.overflow && after.content == st.content + Joined(LineDeltas(cfg)(line))))
  }

  lemma ProcessMeters(cfg: Config, st: Sse, line: string)
    ensures Adds(cfg, st, line, Process(cfg, st, line))
  {
    var trim := Trim(line);
    if trim != "" && trim != DONE && "data: " <= trim {
      assert trim == "data: " + trim[6..];
      DataMeters(cfg, st, trim[6..], line);
    }
    assert st.content + Joined([]) == st.content;
  }

  lemma AddsKeepsMetered(cfg: Config, st: Sse, line: string, after: Sse, before: nat)
    requires Metered(cfg, st, before) && OneLine(line) && Adds(cfg, st, line, after)
    ensures Metered(cfg, after, before)
  {
    TextAppended(LineDeltas(cfg), st.out, line);
  }

  lemma ProcessKeepsMetered(cfg: Config, st: Sse, line: string, before: nat)
    requires Metered(cfg, st, before) && OneLine(line)
    ensures Metered(cfg, Step(cfg)(st, line), before)
  {
    ProcessMeters(cfg, st, line);
    AddsKeepsMetered(cfg, st, line, Process(cfg, st, line), before);
  }

  lemma {:induction false} PumpKeepsMetered(cfg: Config, st: Sse, data: string, before: nat)
    requires Metered(cfg, st, before)
    ensures Metered(cfg, Pump(Step(cfg), st, data), before)
    decreases |data|
  {
    var i := NewlineAt(data);
    if i < |data| {
      CutLine(data);
      ProcessKeepsMetered(cfg, st, data[..i + 1], before);
      PumpKeepsMetered(cfg, Step(cfg)(st, data[..i + 1]), data[i + 1..], before);
    }
  }

  // ---- The loop ----

  datatype Worker = Worker(id: string, continuation: bool)

  datatype Body = Original | Continuation(prefix: string, maxTokens: int)

  /** What one attempt meets: the worker's writes, whether it failed, the client, the clock, and
      which workers are on offer for a retry before the first byte or for a continuation. */
  datatype Attempt = Attempt(
    header: bool, writes: seq<string>, failed: bool, clientGone: bool, expired: bool,
    retry: Option<Worker>, offered: seq<Worker>, queued: Option<Worker>)

  /** One request to a worker: the bytes the client had then, and the tokens it then got. */
  datatype Dispatch = Dispatch(body: Body, sent: string, got: nat)

  datatype Outcome = Clean | Interrupted | ClientLeft | NoWorker | StillRunning

  /** The limits one client stream is served under. */
  datatype Terms = Terms(maxResumes: nat, budget: int, rebuildable: bool)

  /** The client's stream between segments. */
  datatype Stream = Stream(out: string, content: string, body: Body, log: seq<Dispatch>, total: nat, resumes: nat, started: bool)

  /** All of it, once it is over: `tail` is the unfinished line that went out with the end. */
  datatype Served = Served(res: Outcome, out: string, log: seq<Dispatch>, total: nat, resumes: nat, tail: string)

  datatype Turn = Onward(stream: Stream) | Over(served: Served)

  function FirstCapable(offered: seq<Worker>): Option<Worker> {
    if offered == [] then None else if offered[0].continuation then Some(offered[0]) else FirstCapable(offered[1..])
  }

  function Successor(a: Attempt): Option<Worker> {
    match FirstCapable(a.offered)
    case Some(w) => Some(w)
    case None => if a.queued.Some? && a.queued.value.continuation then a.queued else None
  }

  predicate MayResume(a: Attempt, maxResumes: nat, resumes: nat, content: string, overflow: bool, remaining: int, rebuildable: bool) {
    && resumes < maxResumes && !a.clientGone && !a.expired && content != "" && !overflow && remaining >= 1
    && Successor(a).Some? && rebuildable
  }

  /** `tryResume`: a continuation is granted exactly under these conditions, to a worker that
      can continue, with the delivered text and what is left of the budget. */
  method TryResume(a: Attempt, maxResumes: nat, resumes: nat, content: string, overflow: bool, remaining: int, rebuildable: bool)
    returns (next: Option<(Worker, Body)>)
    ensures next.Some? <==> MayResume(a, maxResumes, resumes, content, overflow, remaining, rebuildable)
    ensures next.Some? ==> Some(next.value.0) == Successor(a) && next.value.0.continuation && next.value.1 == Continuation(content, remaining)
  {
    if resumes >= maxResumes { return None; }
    if a.clientGone || a.expired || |content| == 0 || overflow || remaining < 1 { return None; }
    var chosen: Option<Worker> := None;
    var i := 0;
    while i < |a.offered|
      invariant i <= |a.offered| && chosen.None? && FirstCapable(a.offered[i..]) == FirstCapable(a.offered)
    {
      if a.offered[i].continuation {
        chosen := Some(a.offered[i]);
        break;
      }
      assert a.offered[i..][1..] == a.offered[i + 1..];
      i := i + 1;
    }
    if chosen.None? {
      if a.queued.None? || !a.queued.value.continuation { return None; }
      chosen := a.queued;
    }
    if !rebuildable { return None; }
    return Some((chosen.value, Continuation(content, remaining)));
  }

  /** `max_tokens` of the request, the configured default, or the worker-side default. */
  function Budget(requested: int, default: int): (b: int)
    ensures b >= 1 && (b == requested || (requested <= 0 && (b == default || (default <= 0 && b == 256))))
  {
    if requested > 0 then requested else if default > 0 then default else 256
  }

  function Limit(body: Body, budget: int): int { match body case Original => budget case Continuation(_, m) => m }

  /** Resume continuity of one request to a worker. */
  ghost predicate Continuous(cfg: Config, d: Dispatch, budget: int) {
    match d.body
    case Original => d.sent == ""
    case Continuation(prefix, m) => prefix == Text(cfg, d.sent) && m + |Deltas(cfg, d.sent)| == budget && m >= 1
  }

  /** Each worker delivers at most the `max_tokens` it was asked for. */
  predicate Honoured(log: seq<Dispatch>, budget: int) { forall d | d in log :: d.got <= Limit(d.body, budget) }

  // ---- One stream, specified ----

  function Segment(cfg: Config, out: string, content: string, writes: seq<string>): Sse {
    FeedAll(Step(cfg), Fresh(out, content), writes)
  }

  function After(s: Stream, a: Attempt, seg: Sse): Stream {
    Stream(seg.out, seg.content, s.body, s.log + [Dispatch(s.body, s.out, seg.delivered)], s.total + seg.delivered, s.resumes,
           s.started || a.header || a.writes != [])
  }

  function Finish(res: Outcome, s: Stream, out: string, tail: string): Served {
    Served(res, out, s.log, s.total, s.resumes, tail)
  }

  function Resumed(t: Terms, s: Stream): Stream {
    s.(body := Continuation(s.content, t.budget - s.total), resumes := s.resumes + 1, started := true)
  }

  /** What becomes of a stream after one segment. A read error behind the worker's own end
      marker is none. */
  function TurnAfter(t: Terms, a: Attempt, s: Stream, seg: Sse): Turn {
    var cut := a.failed && !seg.heldDone;
    if !cut && seg.streamError == "" then Over(Finish(Clean, s, Cleanly(seg).out, seg.pend))
    else if cut && !s.started then if a.retry.Some? then Onward(s) else Over(Finish(NoWorker, s, s.out, ""))
    else if cut && a.clientGone && s.total > 0 then Over(Finish(ClientLeft, s, s.out, ""))
    else if MayResume(a, t.maxResumes, s.resumes, s.content, seg.overflow, t.budget - s.total, t.rebuildable) then Onward(Resumed(t, s))
    else Over(Finish(Interrupted, s, Flushed(seg).out, seg.pend))
  }

  function TurnOf(cfg: Config, t: Terms, s: Stream, a: Attempt): Turn {
    var seg := Segment(cfg, s.out, s.content, a.writes);
    TurnAfter(t, a, After(s, a, seg), seg)
  }

  function Play(cfg: Config, t: Terms, s: Stream, script: seq<Attempt>): Served
    decreases |script|
  {
    if script == [] then Finish(StillRunning, s, s.out, "")
    else match TurnOf(cfg, t, s, script[0])
      case Over(served) => served
      case Onward(next) => Play(cfg, t, next, script[1..])
  }

  const OPENING := Stream("", "", Original, [], 0, 0, false)

  // ---- The code ----

  method RunSegment(cfg: Config, writes: seq<string>, out0: string, content0: string) returns (w: SseCaptureWriter)
    ensures fresh(w) && w.fwd == "" && w.View() == Segment(cfg, out0, content0, writes)
  {
    w := new SseCaptureWriter(cfg, false, 0, out0, content0);
    for i := 0 to |writes|
      invariant fresh(w) && w.fwd == "" && w.cfg == cfg && w.View() == Segment(cfg, out0, content0, writes[..i])
    {
      assert writes[..i + 1][..i] == writes[..i];
      w.Write(writes[i]);
    }
    assert writes[..|writes|] == writes;
  }

  /** Ends the client's stream; the pending tail of the last segment goes out with it. */
  method EndStream(w: SseCaptureWriter, clean: bool) returns (out: string, tail: string)
    requires w.fwd == ""
    modifies w
    ensures tail == old(w.pend) && out == (if clean then Cleanly(old(w.View())) else Flushed(old(w.View()))).out
  {
    tail := w.pend;
    if clean { w.FinishClean(); } else { w.FlushHeld(); }
    assert w.out + "" == w.out;
    out := w.out;
  }

  /** One round of the loop: a segment and what is decided after it. */
  method ServeSegment(cfg: Config, t: Terms, s: Stream, a: Attempt) returns (turn: Turn)
    ensures turn == TurnOf(cfg, t, s, a)
  {
    var w := RunSegment(cfg, a.writes, s.out, s.content);
    assert w.out + "" == w.out;
    var now := Stream(w.out, w.content, s.body, s.log + [Dispatch(s.body, s.out, w.delivered)], s.total + w.delivered, s.resumes,
                      s.started || a.header || |a.writes| > 0);
    var failed := a.failed && !w.heldDone;
    if failed && !now.started {
      if a.retry.Some? { return Onward(now); }
      return Over(Finish(NoWorker, now, now.out, ""));
    }
    if failed && a.clientGone && now.total > 0 { return Over(Finish(ClientLeft, now, now.out, "")); }
    var broken := failed || w.streamError != "";
    if broken {
      var next := TryResume(a, t.maxResumes, now.resumes, now.content, w.overflow, t.budget - now.total, t.rebuildable);
      if next.Some? { return Onward(now.(body := next.value.1, resumes := now.resumes + 1, started := true)); }
    }
    var out, tail := EndStream(w, !broken);
    return Over(Finish(if broken then Interrupted else Clean, now, out, tail));
  }

  /** `handleStreaming` with resume on, over every script of interruptions. */
  method HandleStreaming(cfg: Config, maxResumes: nat, requested: int, default: int, rebuildable: bool, script: seq<Attempt>)
    returns (served: Served)
    ensures var t := Terms(maxResumes, Budget(requested, default), rebuildable);
      served == Play(cfg, t, OPENING, script) && Continued(cfg, t, served) && Closed(served, CompleteLines(script))
  {
    var t := Terms(maxResumes, Budget(requested, default), rebuildable);
    StreamContinues(cfg, t, script);
    StreamCloses(cfg, t, script);
    var s, n := OPENING, 0;
    assert script[0..] == script;
    while n < |script|
      invariant n <= |script| && Play(cfg, t, s, script[n..]) == Play(cfg, t, OPENING, script)
    {
      assert script[n..][0] == script[n] && script[n..][1..] == script[n + 1..];
      var turn := ServeSegment(cfg, t, s, script[n]);
      if turn.Over? { return turn.served; }
      s, n := turn.stream, n + 1;
    }
    return Finish(StillRunning, s, s.out, "");
  }

  // ---- What one segment keeps ----

  /** The state of the client's stream between segments. */
  ghost predicate Between(cfg: Config, out: string, content: string, total: nat) {
    Unended(Fresh(out, content)) && |Deltas(cfg, out)| == total && content == Text(cfg, out)
  }

  /** A held error carries no content. */
  ghost predicate HeldSilent(cfg: Config, st: Sse) { st.heldError != "" ==> LineDeltas(cfg)(st.heldError) == [] }

  lemma ProcessHolds(cfg: Config, st: Sse, line: string)
    requires HeldSilent(cfg, st)
    ensures HeldSilent(cfg, Process(cfg, st, line))
  {
    var trim := Trim(line);
    if trim != "" && trim != DONE && "data: " <= trim { DataHolds(cfg, st, trim[6..], line); }
  }

  lemma DataHolds(cfg: Config, st: Sse, payload: string, line: string)
    requires HeldSilent(cfg, st) && Trim(line) == "data: " + payload
    ensures HeldSilent(cfg, DataLine(cfg, st, payload, line))
  {
    assert Trim(line)[6..] == payload;
  }

  lemma {:induction false} PumpGrows(cfg: Config, st: Sse, data: string)
    requires HeldSilent(cfg, st)
    ensures st.out <= Pump(Step(cfg), st, data).out && HeldSilent(cfg, Pump(Step(cfg), st, data))
    decreases |data|
  {
    var i := NewlineAt(data);
    if i < |data| {
      ProcessSends(cfg, st, data[..i + 1]);
      ProcessHolds(cfg, st, data[..i + 1]);
      PumpGrows(cfg, Step(cfg)(st, data[..i + 1]), data[i + 1..]);
    }
  }

  lemma {:induction false} PumpWhole(step: LineStep, st: Sse, data: string)
    requires WholeLines(data)
    ensures Pump(step, st, data).pend == ""
    decreases |data|
  {
    var i := NewlineAt(data);
    if i < |data| {
      var rest := data[i + 1..];
      assert rest != "" ==> rest[|rest| - 1] == data[|data| - 1];
      PumpWhole(step, step(st, data[..i + 1]), rest);
    }
  }

  ghost predicate SegmentOk(cfg: Config, out: string, total: nat, seg: Sse) {
    Unended(seg) && Metered(cfg, seg, total) && HeldSilent(cfg, seg) && out <= seg.out
  }

  lemma {:induction false} SegmentKeeps(cfg: Config, out: string, content: string, total: nat, writes: seq<string>)
    requires Between(cfg, out, content, total)
    ensures SegmentOk(cfg, out, total, Segment(cfg, out, content, writes))
    decreases |writes|
  {
    if writes != [] {
      var n := |writes| - 1;
      var st, b := Segment(cfg, out, content, writes[..n]), writes[n];
      SegmentKeeps(cfg, out, content, total, writes[..n]);
      FeedKeepsUnended(cfg, st, b);
      PumpKeepsMetered(cfg, st.(pend := ""), st.pend + b, total);
      PumpGrows(cfg, st.(pend := ""), st.pend + b);
    }
  }

  /** A reply of complete lines leaves no unfinished one, however it is cut into writes. */
  lemma {:induction false} SegmentEndsLine(cfg: Config, out: string, content: string, writes: seq<string>)
    requires WholeLines(Joined(writes))
    ensures Segment(cfg, out, content, writes).pend == ""
  {
    var st := Fresh(out, content);
    if writes != [] {
      ChunkIndependence(cfg, st, writes);
      assert st.pend + Joined(writes) == Joined(writes);
      PumpWhole(Step(cfg), st.(pend := ""), Joined(writes));
    }
  }

  // ---- Continuity ----

  function TotalGot(log: seq<Dispatch>): nat { if log == [] then 0 else TotalGot(log[..|log| - 1]) + log[|log| - 1].got }

  /** What the client had at each request grows towards `out`, and has the tokens of the
      requests before it. */
  ghost predicate History(cfg: Config, log: seq<Dispatch>, out: string) {
    && (forall i | 0 <= i < |log| :: log[i].sent <= out && |Deltas(cfg, log[i].sent)| == TotalGot(log[..i]))
    && (forall i, j | 0 <= i < j < |log| :: log[i].sent <= log[j].sent)
  }

  ghost predicate AllContinuous(cfg: Config, log: seq<Dispatch>, budget: int) { forall d | d in log :: Continuous(cfg, d, budget) }

  /** Every request continues from exactly what the client had by then, with the rest of the
      budget; the client decodes exactly the tokens counted, and those of the unfinished line
      the end sends along; workers that honour their limits stay within the budget. */
  ghost predicate Continued(cfg: Config, t: Terms, v: Served) {
    && AllContinuous(cfg, v.log, t.budget) && History(cfg, v.log, v.out) && v.total == TotalGot(v.log)
    && |Deltas(cfg, v.out)| == v.total + |LineDeltas(cfg)(v.tail + "\n")|
    && (Honoured(v.log, t.budget) ==> v.total <= t.budget) && v.resumes <= t.maxResumes
  }

  ghost predicate Ended(out: string) { Markers(out) == 1 && EndsWithDone(out) }

  /** A client that stays to the end gets the end marker last and once, unless the last reply
      broke off behind its own; complete lines leave no such tail. */
  ghost predicate Closed(v: Served, complete: bool) {
    && (v.res.Clean? || v.res.Interrupted? ==> (Ended(v.out) <==> !MarkerBehind(v.tail)))
    && (v.res.ClientLeft? || v.res.StillRunning? || v.res.NoWorker? ==> Markers(v.out) == 0 && v.tail == "")
    && (v.res.NoWorker? ==> v.out == "" && v.total == 0)
    && (complete ==> v.tail == "" && (v.res.Clean? || v.res.Interrupted? ==> Ended(v.out)))
  }

  /** The unfinished line is the end marker. */
  predicate MarkerBehind(tail: string) { Trim(tail + "\n") == DONE }

  ghost predicate CompleteLines(script: seq<Attempt>) { forall a | a in script :: WholeLines(Joined(a.writes)) }

  /** The loop's invariant. */
  ghost predicate Sound(cfg: Config, t: Terms, s: Stream) {
    && Between(cfg, s.out, s.content, s.total) && Recorded(cfg, t, s) && s.resumes <= t.maxResumes
    && Continuous(cfg, Dispatch(s.body, s.out, 0), t.budget)
    && (!s.started ==> s.out == "" && s.content == "" && s.total == 0 && s.body.Original?)
  }

  ghost predicate Recorded(cfg: Config, t: Terms, s: Stream) {
    && AllContinuous(cfg, s.log, t.budget) && History(cfg, s.log, s.out) && s.total == TotalGot(s.log)
    && (Honoured(s.log, t.budget) ==> s.total <= t.budget)
  }

  lemma BudgetKept(log: seq<Dispatch>, total: nat, got: nat, budget: int, delivered: nat)
    requires log != [] && log[|log| - 1].got == got && delivered == total
    requires match log[|log| - 1].body
      case Original => total == 0
      case Continuation(_, m) => m + delivered == budget
    ensures Honoured(log, budget) ==> total + got <= budget
  {
    assert log[|log| - 1] in log;
  }

  lemma {:induction false} HistoryGrows(cfg: Config, log: seq<Dispatch>, d: Dispatch, out: string)
    requires History(cfg, log, d.sent) && |Deltas(cfg, d.sent)| == TotalGot(log) && d.sent <= out
    ensures History(cfg, log + [d], out) && TotalGot(log + [d]) == TotalGot(log) + d.got
  {
    var all := log + [d];
    assert all[..|log|] == log;
    forall i | 0 <= i < |all| ensures all[i].sent <= out && |Deltas(cfg, all[i].sent)| == TotalGot(all[..i]) {
      assert all[..i] == log[..i];
    }
  }

  lemma SegmentRecorded(cfg: Config, t: Terms, s: Stream, a: Attempt)
    requires Sound(cfg, t, s)
    ensures var seg := Segment(cfg, s.out, s.content, a.writes);
      SegmentOk(cfg, s.out, s.total, seg) && Recorded(cfg, t, After(s, a, seg))
  {
    SegmentKeeps(cfg, s.out, s.content, s.total, a.writes);
    var seg := Segment(cfg, s.out, s.content, a.writes);
    var d := Dispatch(s.body, s.out, seg.delivered);
    HistoryGrows(cfg, s.log, d, seg.out);
    NoTokensYet(cfg);
    BudgetKept(s.log + [d], s.total, seg.delivered, t.budget, |Deltas(cfg, s.out)|);
    forall x | x in s.log + [d] ensures Continuous(cfg, x, t.budget) {
      if x != d { assert x in s.log; }
    }
  }

  lemma NoTokensYet(cfg: Config)
    ensures Deltas(cfg, "") == []
  {
  }

  lemma OpeningSound(cfg: Config, t: Terms)
    requires t.budget >= 1
    ensures Sound(cfg, t, OPENING)
  {
  }

  /** Every turn goes on from a sound state. */
  lemma TurnKeepsSound(cfg: Config, t: Terms, s: Stream, a: Attempt)
    requires Sound(cfg, t, s) && TurnOf(cfg, t, s, a).Onward?
    ensures Sound(cfg, t, TurnOf(cfg, t, s, a).stream)
  {
    var seg := Segment(cfg, s.out, s.content, a.writes);
    SegmentRecorded(cfg, t, s, a);
    if !After(s, a, seg).started { assert seg == Fresh(s.out, s.content); }
  }

  // ---- The end ----

  /** An unfinished line goes out whole; what else the end adds carries no content. */
  lemma TailDecoded(cfg: Config, sent: string, tail: string)
    requires WholeLines(sent) && NoNewline(tail)
    ensures var out := sent + if tail == "" then "" else tail + "\n";
      WholeLines(out) && |Deltas(cfg, out)| == |Deltas(cfg, sent)| + |LineDeltas(cfg)(tail + "\n")|
  {
    if tail == "" {
      NoTail(cfg);
      assert sent + "" == sent;
    } else {
      NewlineAfter(tail, "");
      TextAppended(LineDeltas(cfg), sent, tail + "\n");
    }
  }

  lemma SilentAppended(cfg: Config, sent: string, line: string)
    requires WholeLines(sent) && OneLine(line) && LineDeltas(cfg)(line) == []
    ensures WholeLines(sent + line) && |Deltas(cfg, sent + line)| == |Deltas(cfg, sent)|
  {
    TextAppended(LineDeltas(cfg), sent, line);
  }

  lemma BlankAppended(cfg: Config, sent: string)
    requires WholeLines(sent)
    ensures WholeLines(sent + "\n") && |Deltas(cfg, sent + "\n")| == |Deltas(cfg, sent)|
  {
    NewlineTrims();
    SilentAppended(cfg, sent, "\n");
  }

  lemma MarkerSilent(cfg: Config, sent: string)
    requires WholeLines(sent)
    ensures |Deltas(cfg, sent + DONE + "\n\n")| == |Deltas(cfg, sent)|
  {
    var line := DONE + "\n";
    DoneTrims();
    NewlineAfter(DONE, "");
    SilentAppended(cfg, sent, line);
    BlankAppended(cfg, sent + line);
    assert sent + DONE + "\n\n" == (sent + line) + "\n";
  }

  lemma HeldDecoded(cfg: Config, st: Sse, sent: string)
    requires WholeLines(sent) && Unended(st) && HeldSilent(cfg, st)
    ensures var out := sent + if st.heldError == "" then "" else st.heldError + "\n";
      WholeLines(out) && |Deltas(cfg, out)| == |Deltas(cfg, sent)|
  {
    if st.heldError == "" {
      assert sent + "" == sent;
    } else {
      SilentAppended(cfg, sent, st.heldError);
      BlankAppended(cfg, sent + st.heldError);
      assert sent + (st.heldError + "\n") == (sent + st.heldError) + "\n";
    }
  }

  lemma EndDecoded(cfg: Config, st: Sse)
    requires Unended(st) && HeldSilent(cfg, st)
    ensures |Deltas(cfg, Cleanly(st).out)| == |Deltas(cfg, st.out)| + |LineDeltas(cfg)(st.pend + "\n")|
    ensures |Deltas(cfg, Flushed(st).out)| == |Deltas(cfg, st.out)| + |LineDeltas(cfg)(st.pend + "\n")|
  {
    TailDecoded(cfg, st.out, st.pend);
    MarkerSilent(cfg, st.out + Tail(st));
    HeldDecoded(cfg, st, st.out + Tail(st));
    MarkerSilent(cfg, st.out + Tail(st) + if st.heldError == "" then "" else st.heldError + "\n");
  }

  lemma NoTail(cfg: Config)
    ensures LineDeltas(cfg)("" + "\n") == [] && !MarkerBehind("")
  {
    NewlineTrims();
    assert "" + "\n" == "\n";
  }

  lemma HistoryReaches(cfg: Config, log: seq<Dispatch>, out: string, more: string)
    requires History(cfg, log, out) && out <= more
    ensures History(cfg, log, more)
  {
  }

  /** What the client has after the end of a stream whose last segment is `seg`. */
  ghost predicate EndOf(cfg: Config, seg: Sse, out: string) {
    && seg.out <= out && EndsWithDone(out) && (Markers(out) == 1 <==> !MarkerBehind(seg.pend))
    && |Deltas(cfg, out)| == |Deltas(cfg, seg.out)| + |LineDeltas(cfg)(seg.pend + "\n")|
  }

  lemma BothEnds(cfg: Config, seg: Sse)
    requires Unended(seg) && HeldSilent(cfg, seg)
    ensures EndOf(cfg, seg, Cleanly(seg).out) && EndOf(cfg, seg, Flushed(seg).out)
  {
    ExactlyOneDone(seg);
    EndDecoded(cfg, seg);
  }

  /** The four ways a stream ends. */
  ghost predicate EndsAs(cfg: Config, s: Stream, seg: Sse, v: Served) {
    || ((v.res.Clean? || v.res.Interrupted?) && v == Finish(v.res, s, v.out, seg.pend) && EndOf(cfg, seg, v.out))
    || v == Finish(ClientLeft, s, s.out, "")
    || (v == Finish(NoWorker, s, s.out, "") && !s.started)
  }

  lemma OverEnds(cfg: Config, t: Terms, a: Attempt, s: Stream, seg: Sse)
    requires TurnAfter(t, a, s, seg).Over? && Unended(seg) && HeldSilent(cfg, seg)
    ensures EndsAs(cfg, s, seg, TurnAfter(t, a, s, seg).served)
  {
    BothEnds(cfg, seg);
  }

  lemma EndContinues(cfg: Config, t: Terms, s: Stream, seg: Sse, v: Served)
    requires Recorded(cfg, t, s) && s.resumes <= t.maxResumes && s.out == seg.out && |Deltas(cfg, s.out)| == s.total
    requires EndsAs(cfg, s, seg, v)
    ensures Continued(cfg, t, v)
  {
    NoTail(cfg);
    HistoryReaches(cfg, s.log, s.out, v.out);
  }

  lemma EndCloses(cfg: Config, s: Stream, seg: Sse, v: Served, complete: bool)
    requires s.out == seg.out && Markers(seg.out) == 0 && EndsAs(cfg, s, seg, v)
    requires complete ==> seg.pend == "" && !MarkerBehind(seg.pend)
    requires !s.started ==> s.out == "" && s.total == 0
    ensures Closed(v, complete)
  {
    if v.res.Clean? || v.res.Interrupted? { assert Ended(v.out) <==> !MarkerBehind(v.tail); }
  }

  lemma OverContinues(cfg: Config, t: Terms, s: Stream, a: Attempt)
    requires Sound(cfg, t, s) && TurnOf(cfg, t, s, a).Over?
    ensures Continued(cfg, t, TurnOf(cfg, t, s, a).served)
  {
    var seg := Segment(cfg, s.out, s.content, a.writes);
    SegmentRecorded(cfg, t, s, a);
    OverEnds(cfg, t, a, After(s, a, seg), seg);
    EndContinues(cfg, t, After(s, a, seg), seg, TurnOf(cfg, t, s, a).served);
  }

  lemma OverCloses(cfg: Config, t: Terms, s: Stream, a: Attempt)
    requires Sound(cfg, t, s) && TurnOf(cfg, t, s, a).Over?
    ensures Closed(TurnOf(cfg, t, s, a).served, WholeLines(Joined(a.writes)))
  {
    var seg := Segment(cfg, s.out, s.content, a.writes);
    SegmentRecorded(cfg, t, s, a);
    OverEnds(cfg, t, a, After(s, a, seg), seg);
    if WholeLines(Joined(a.writes)) { SegmentEndsLine(cfg, s.out, s.content, a.writes); }
    if !After(s, a, seg).started { assert seg == Fresh(s.out, s.content); }
    NoTail(cfg);
    EndCloses(cfg, After(s, a, seg), seg, TurnOf(cfg, t, s, a).served, WholeLines(Joined(a.writes)));
  }

  lemma {:induction false} PlayContinues(cfg: Config, t: Terms, s: Stream, script: seq<Attempt>)
    requires Sound(cfg, t, s)
    ensures Continued(cfg, t, Play(cfg, t, s, script))
    decreases |script|
  {
    NoTail(cfg);
    if script != [] {
      var turn := TurnOf(cfg, t, s, script[0]);
      if turn.Over? {
        OverContinues(cfg, t, s, script[0]);
      } else {
        TurnKeepsSound(cfg, t, s, script[0]);
        PlayContinues(cfg, t, turn.stream, script[1..]);
      }
    }
  }

  lemma {:induction false} PlayCloses(cfg: Config, t: Terms, s: Stream, script: seq<Attempt>)
    requires Sound(cfg, t, s)
    ensures Closed(Play(cfg, t, s, script), CompleteLines(script))
    decreases |script|
  {
    if script != [] {
      var turn := TurnOf(cfg, t, s, script[0]);
      assert script[0] in script;
      if turn.Over? {
        OverCloses(cfg, t, s, script[0]);
      } else {
        TurnKeepsSound(cfg, t, s, script[0]);
        PlayCloses(cfg, t, turn.stream, script[1..]);
        forall a | a in script[1..] ensures a in script {}
      }
    }
  }

  /** The segment a worker sends on top of `sent`. */
  function SegmentOn(cfg: Config, sent: string, a: Attempt): Sse { Segment(cfg, sent, Text(cfg, sent), a.writes) }

  /** One request per attempt until the stream is over: each gets what its worker sends, and
      the next one, or the end, goes on from the bytes that leaves. */
  ghost predicate Driven(cfg: Config, log: seq<Dispatch>, out: string, script: seq<Attempt>) {
    log == [] || (script != [] && DrivenFirst(cfg, log, out, script[0]) && Driven(cfg, log[1..], out, script[1..]))
  }

  ghost predicate DrivenFirst(cfg: Config, log: seq<Dispatch>, out: string, a: Attempt)
    requires log != []
  {
    var seg := SegmentOn(cfg, log[0].sent, a);
    log[0].got == seg.delivered && if |log| == 1 then seg.out <= out else log[1].sent == seg.out
  }

  lemma OnwardKeeps(t: Terms, a: Attempt, s: Stream, seg: Sse)
    requires TurnAfter(t, a, s, seg).Onward?
    ensures var next := TurnAfter(t, a, s, seg).stream; next.log == s.log && next.out == s.out
  {
  }

  lemma EndReaches(cfg: Config, s: Stream, seg: Sse, v: Served)
    requires s.out == seg.out && EndsAs(cfg, s, seg, v)
    ensures v.log == s.log && seg.out <= v.out && !v.res.StillRunning?
  {
  }

  lemma TurnDrives(cfg: Config, t: Terms, s: Stream, a: Attempt)
    requires Sound(cfg, t, s)
    ensures var turn, seg := TurnOf(cfg, t, s, a), SegmentOn(cfg, s.out, a);
      var log := s.log + [Dispatch(s.body, s.out, seg.delivered)];
      match turn
      case Over(v) => v.log == log && seg.out <= v.out && !v.res.StillRunning?
      case Onward(next) => next.log == log && next.out == seg.out
  {
    var seg := SegmentOn(cfg, s.out, a);
    var now := After(s, a, seg);
    SegmentRecorded(cfg, t, s, a);
    if TurnAfter(t, a, now, seg).Over? {
      OverEnds(cfg, t, a, now, seg);
      EndReaches(cfg, now, seg, TurnAfter(t, a, now, seg).served);
    } else {
      OnwardKeeps(t, a, now, seg);
    }
  }

  ghost predicate PlaysOn(cfg: Config, s: Stream, v: Served, script: seq<Attempt>, more: seq<Dispatch>) {
    && v.log == s.log + more && Driven(cfg, more, v.out, script) && (v.res.StillRunning? ==> |more| == |script|)
    && (if more == [] then s.out <= v.out else more[0].sent == s.out)
  }

  lemma PlaysOnFrom(cfg: Config, s: Stream, next: Stream, d: Dispatch, v: Served, script: seq<Attempt>, rest: seq<Dispatch>)
    requires script != [] && PlaysOn(cfg, next, v, script[1..], rest) && next.log == s.log + [d]
    requires d.sent == s.out && d.got == SegmentOn(cfg, s.out, script[0]).delivered && next.out == SegmentOn(cfg, s.out, script[0]).out
    ensures PlaysOn(cfg, s, v, script, [d] + rest)
  {
    var more := [d] + rest;
    assert more[1..] == rest && s.log + more == (s.log + [d]) + rest;
  }

  lemma PlayEnds(cfg: Config, s: Stream, d: Dispatch, v: Served, script: seq<Attempt>)
    requires script != [] && v.log == s.log + [d] && !v.res.StillRunning?
    requires d.sent == s.out && d.got == SegmentOn(cfg, s.out, script[0]).delivered && SegmentOn(cfg, s.out, script[0]).out <= v.out
    ensures PlaysOn(cfg, s, v, script, [d])
  {
    assert [d][1..] == [];
  }

  lemma {:induction false} PlayDriven(cfg: Config, t: Terms, s: Stream, script: seq<Attempt>) returns (more: seq<Dispatch>)
    requires Sound(cfg, t, s)
    ensures PlaysOn(cfg, s, Play(cfg, t, s, script), script, more)
    decreases |script|
  {
    if script == [] {
      more := [];
      assert s.log + [] == s.log;
    } else {
      var v, turn, d := Play(cfg, t, s, script), TurnOf(cfg, t, s, script[0]), Dispatch(s.body, s.out, SegmentOn(cfg, s.out, script[0]).delivered);
      TurnDrives(cfg, t, s, script[0]);
      if turn.Onward? {
        TurnKeepsSound(cfg, t, s, script[0]);
        more := PlayDriven(cfg, t, turn.stream, script[1..]);
        PlaysOnFrom(cfg, s, turn.stream, d, v, script, more);
        more := [d] + more;
      } else {
        PlayEnds(cfg, s, d, v, script);
        more := [d];
      }
    }
  }

  /** Over every script. */
  lemma {:induction false} StreamContinues(cfg: Config, t: Terms, script: seq<Attempt>)
    requires t.budget >= 1
    ensures Continued(cfg, t, Play(cfg, t, OPENING, script))
  {
    OpeningSound(cfg, t);
    PlayContinues(cfg, t, OPENING, script);
  }

  lemma {:induction false} StreamIsDriven(cfg: Config, t: Terms, script: seq<Attempt>)
    requires t.budget >= 1
    ensures var v := Play(cfg, t, OPENING, script);
      Driven(cfg, v.log, v.out, script) && (v.res.StillRunning? ==> |v.log| == |script|) && (v.log != [] ==> v.log[0].sent == "")
  {
    OpeningSound(cfg, t);
    var more := PlayDriven(cfg, t, OPENING, script);
    assert [] + more == more;
  }

  lemma {:induction false} StreamCloses(cfg: Config, t: Terms, script: seq<Attempt>)
    requires t.budget >= 1
    ensures Closed(Play(cfg, t, OPENING, script), CompleteLines(script))
  {
    OpeningSound(cfg, t);
    PlayCloses(cfg, t, OPENING, script);
  }

  // ---- Where segments are joined ----

  /** What a client's event parser has seen: whole events, and the lines of an open one. */
  datatype Parser = Parser(events: seq<seq<string>>, open: seq<string>)

  /** Only a line with nothing before its end, be it LF or CR LF, ends an event. */
  predicate BlankLine(line: string) { line == "\n" || line == "\r\n" }

  function ParseLine(p: Parser, line: string): Parser {
    if !BlankLine(line) then Parser(p.events, p.open + [line])
    else if p.open == [] then p
    else Parser(p.events + [p.open], [])
  }

  function Parse(p: Parser, s: string): Parser
    decreases |s|
  {
    if s == "" then p
    else
      var i := NewlineAt(s);
      if i == |s| then ParseLine(p, s) else Parse(ParseLine(p, s[..i + 1]), s[i + 1..])
  }

  lemma {:induction false} ParseConcat(p: Parser, a: string, b: string)
    requires WholeLines(a)
    ensures Parse(p, a + b) == Parse(Parse(p, a), b)
    decreases |a|
  {
    if a == "" {
      assert a + b == b;
    } else {
      var i := NewlineAt(a);
      assert i < |a| by { assert a[|a| - 1] == '\n'; }
      NewlineInPrefix(a, b);
      assert (a + b)[..i + 1] == a[..i + 1] && (a + b)[i + 1..] == a[i + 1..] + b;
      ParseConcat(ParseLine(p, a[..i + 1]), a[i + 1..], b);
    }
  }

  /** Parsing on from earlier events and an open event: the open lines join the first event. */
  ghost predicate Extends(p: Parser, q: Parser, events: seq<seq<string>>, open: seq<string>) {
    if q.events == [] then p == Parser(events, open + q.open)
    else p == Parser(events + [open + q.events[0]] + q.events[1..], q.open)
  }

  lemma ParseLineExtends(p: Parser, q: Parser, events: seq<seq<string>>, open: seq<string>, line: string)
    requires Extends(p, q, events, open) && (q.events != [] || q.open != [])
    ensures Extends(ParseLine(p, line), ParseLine(q, line), events, open)
  {
    if !BlankLine(line) {
      if q.events == [] { Grouped(open, q.open, [line]); }
    } else if q.open != [] && q.events != [] {
      assert (q.events + [q.open])[1..] == q.events[1..] + [q.open] && (q.events + [q.open])[0] == q.events[0];
      assert p.events + [q.open] == events + [open + q.events[0]] + (q.events[1..] + [q.open]);
    } else if q.open != [] {
      assert [q.open][1..] == [] && events + [open + q.open] + [] == events + [open + q.open];
      assert [] + [q.open] == [q.open];
    }
  }

  lemma Grouped<T>(a: seq<T>, b: seq<T>, c: seq<T>)
    ensures a + (b + c) == (a + b) + c
  {
  }

  lemma {:induction false} ParseExtends(p: Parser, q: Parser, events: seq<seq<string>>, open: seq<string>, s: string)
    requires Extends(p, q, events, open) && (q.events != [] || q.open != [])
    ensures Extends(Parse(p, s), Parse(q, s), events, open)
    ensures Parse(q, s).events != [] || Parse(q, s).open != []
    decreases |s|
  {
    if s != "" {
      var i := NewlineAt(s);
      var line := if i == |s| then s else s[..i + 1];
      ParseLineExtends(p, q, events, open, line);
      if i < |s| { ParseExtends(ParseLine(p, line), ParseLine(q, line), events, open, s[i + 1..]); }
    }
  }

  /** A continuation is spliced in unseen exactly when the break fell between two events. If it
      fell inside one, behind a data line but before its blank line, the client's parser takes
      the continuation's first lines into that event. */
  lemma {:induction false} SpliceKeepsEvents(sent: string, first: string, rest: string)
    requires WholeLines(sent) && OneLine(first) && !BlankLine(first)
    ensures var none, more := Parser([], []), first + rest;
      Parse(none, sent + more) == Parser(Parse(none, sent).events + Parse(none, more).events, Parse(none, more).open)
      <==> Parse(none, sent).open == []
  {
    var none, before := Parser([], []), Parse(Parser([], []), sent);
    ParseConcat(none, sent, first + rest);
    FirstLineOpens(before, first, rest);
    FirstLineOpens(none, first, rest);
    var p, q := Parser(before.events, before.open + [first]), Parser([], [first]);
    assert [] + [first] == [first];
    ParseExtends(p, q, before.events, before.open, rest);
    SpliceShape(Parse(p, rest), Parse(q, rest), before.events, before.open);
  }

  lemma {:induction false} FirstLineOpens(p: Parser, first: string, rest: string)
    requires OneLine(first) && !BlankLine(first)
    ensures Parse(p, first + rest) == Parse(Parser(p.events, p.open + [first]), rest)
  {
    NewlineInPrefix(first, rest);
    assert (first + rest)[..|first|] == first && (first + rest)[|first|..] == rest;
  }

  lemma SpliceShape(p: Parser, q: Parser, events: seq<seq<string>>, open: seq<string>)
    requires Extends(p, q, events, open) && (q.events != [] || q.open != [])
    ensures p == Parser(events + q.events, q.open) <==> open == []
  {
    if q.events == [] {
      assert events + q.events == events;
      if open + q.open == q.open { assert |open| == 0; }
      if open == [] { assert open + q.open == q.open; }
    } else {
      var joined := events + [open + q.events[0]] + q.events[1..];
      assert q.events == [q.events[0]] + q.events[1..];
      assert joined[|events|] == open + q.events[0] && (events + q.events)[|events|] == q.events[0];
      if open == [] { assert open + q.events[0] == q.events[0] && joined == events + q.events; }
      if joined == events + q.events { assert open + q.events[0] == q.events[0]; assert |open| == 0; }
    }
  }

  function Line(payload: string): string { "data: " + payload + "\n" }

  /** A line of plain content: neither usage nor receipt nor error nor the end marker. */
  ghost predicate Plain(cfg: Config, payload: string) {
    && cfg.cl.usage(payload).None? && cfg.cl.receipt(payload).None? && cfg.cl.error(payload).None?
    && NoNewline("data: " + payload) && Trim(Line(payload)) == "data: " + payload != DONE
  }

  lemma LetterIsPlain(cfg: Config)
    ensures cfg.cl.usage("a").None? && cfg.cl.receipt("a").None? && cfg.cl.error("a").None? ==> Plain(cfg, "a")
  {
    var text := "data: " + "a";
    assert (text + "\n")[..|text|] == text && TrimRight(text + "\n") == TrimRight(text) == text && TrimLeft(text) == text;
  }

  lemma PlainProcessed(cfg: Config, st: Sse, payload: string, line: string)
    requires Plain(cfg, payload) && line == Line(payload)
    ensures Process(cfg, st, line).out == st.out + line
  {
    var trim := Trim(line);
    assert trim[6..] == payload && "data: " <= trim;
  }

  lemma LineFed(cfg: Config, st: Sse, text: string)
    requires st.pend == "" && NoNewline(text)
    ensures Feed(Step(cfg), st, text + "\n") == Process(cfg, st, text + "\n")
  {
    var line := text + "\n";
    assert "" + line == line && line + "" == line;
    PumpLine(Step(cfg), st, text, "");
  }

  /** A segment that sends the line and breaks off before its blank line. */
  lemma LineSent(cfg: Config, out: string, content: string, payload: string)
    requires Plain(cfg, payload)
    ensures var seg := Segment(cfg, out, content, [Line(payload)]); seg.out == out + Line(payload) && seg.pend == ""
  {
    var st := Fresh(out, content);
    assert [Line(payload)][..0] == [] && FeedAll(Step(cfg), st, []) == st;
    LineFed(cfg, st, "data: " + payload);
    PlainProcessed(cfg, st, payload, Line(payload));
  }

  /** A worker breaks off between a data line and its blank line: the filter has sent the line,
      the next segment's first line follows it, and the client gets one event for the two. */
  lemma SpliceJoinsEvents(cfg: Config, one: string, two: string)
    requires Plain(cfg, one) && Plain(cfg, two)
    ensures var first := Segment(cfg, "", "", [Line(one)]);
      var second := Segment(cfg, first.out, first.content, [Line(two)]);
      && second.out == Line(one) + Line(two) && second.pend == ""
      && Parse(Parser([], []), second.out + "\n").events == [[Line(one), Line(two)]]
  {
    LineSent(cfg, "", "", one);
    assert "" + Line(one) == Line(one);
    var first := Segment(cfg, "", "", [Line(one)]);
    LineSent(cfg, first.out, first.content, two);
    TwoLines("data: " + one, "data: " + two);
  }

  lemma {:induction false} TwoLines(a: string, b: string)
    requires NoNewline(a) && NoNewline(b) && a != "" && b != "" && a != "\r" && b != "\r"
    ensures Parse(Parser([], []), ((a + "\n") + (b + "\n")) + "\n").events == [[a + "\n", b + "\n"]]
  {
    var p, q := Parser([], [a + "\n"]), Parser([], [a + "\n", b + "\n"]);
    LineThenRest(Parser([], []), a, (b + "\n") + "\n");
    assert ((a + "\n") + (b + "\n")) + "\n" == (a + "\n") + ((b + "\n") + "\n");
    LineThenRest(p, b, "\n");
    assert [] + [a + "\n"] == [a + "\n"] && [a + "\n"] + [b + "\n"] == [a + "\n", b + "\n"];
    NewlineAfter("", "");
    assert "" + "\n" == "\n" && "\n"[..1] == "\n" && "\n"[1..] == "";
    assert Parse(q, "\n") == Parse(ParseLine(q, "\n"), "");
  }

  lemma {:induction false} LineThenRest(p: Parser, a: string, rest: string)
    requires NoNewline(a) && a != "" && a != "\r"
    ensures Parse(p, (a + "\n") + rest) == Parse(Parser(p.events, p.open + [a + "\n"]), rest)
  {
    NewlineAfter(a, rest);
    NewlineAfter(a, "");
    assert a + "\n" + rest == (a + "\n") + rest;
    assert ((a + "\n") + rest)[..|a| + 1] == a + "\n" && ((a + "\n") + rest)[|a| + 1..] == rest;
    assert (a + "\n")[0] == a[0] && (|a| == 1 ==> a == [a[0]]);
    assert |a + "\n"| >= 2 && a + "\n" != "\r\n";
  }
}
