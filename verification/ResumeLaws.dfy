/** When a client stream is resumed and how it ends, told from what its workers did and from the
    bytes the client had: a stream breaks only where it cannot go on. */
module ResumeLaws {
  import opened Orders
  import opened SseFilter
  import opened StreamLines
  import opened StreamResume

  function Reply(a: Attempt): seq<string> { Lines(Joined(a.writes)) }

  /** The worker failed before it said it was done; a read error behind its marker is none. */
  ghost predicate BrokeOff(a: Attempt) { a.failed && !SaysDone(Reply(a)) }

  ghost predicate Complained(cfg: Config, a: Attempt) { exists i | 0 <= i < |Reply(a)| :: Complains(cfg, Reply(a)[i]) }

  predicate Begins(a: Attempt) { a.header || a.writes != [] }

  predicate NoneContinues(a: Attempt) {
    (forall w | w in a.offered :: !w.continuation) && (a.queued.Some? ==> !a.queued.value.continuation)
  }

  /** With the bytes `sent` at the client and `resumes` used, the stream cannot go on. */
  ghost predicate Stuck(cfg: Config, t: Terms, a: Attempt, sent: string, resumes: nat) {
    || resumes >= t.maxResumes || a.clientGone || a.expired || !t.rebuildable || NoneContinues(a)
    || Text(cfg, sent) == "" || |Text(cfg, sent)| > cfg.contentCap || t.budget - |Deltas(cfg, sent)| < 1
  }

  /** After this attempt another worker is asked: the same request again while the client has
      nothing, a continuation of what it has after that. */
  ghost predicate GoesOn(cfg: Config, t: Terms, a: Attempt, sent: string, begun: bool, resumes: nat) {
    var stuck := Stuck(cfg, t, a, sent, resumes);
    if begun then (BrokeOff(a) || Complained(cfg, a)) && !stuck else BrokeOff(a) && a.retry.Some?
  }

  /** How a stream ends after this attempt. */
  ghost predicate EndsBy(cfg: Config, t: Terms, a: Attempt, sent: string, begun: bool, resumes: nat, res: Outcome) {
    var stuck := Stuck(cfg, t, a, sent, resumes);
    match res
    case Clean => !BrokeOff(a) && !Complained(cfg, a)
    case NoWorker => BrokeOff(a) && !begun && a.retry.None?
    case ClientLeft => BrokeOff(a) && begun && a.clientGone && Deltas(cfg, sent) != []
    case Interrupted =>
      && begun && (BrokeOff(a) || Complained(cfg, a)) && stuck
      && !(BrokeOff(a) && a.clientGone && Deltas(cfg, sent) != [])
    case StillRunning => false
  }

  /** The last error event of the reply, ended by a blank line. */
  ghost predicate ErrorShown(cfg: Config, lines: seq<string>, err: string) {
    exists held: Option<string> ::
      Last(ErrorLine(cfg), lines, None, held) && err == match held case Some(line) => line + "\n" case None => ""
  }

  function LineOf(tail: string): string { if tail == "" then "" else tail + "\n" }

  /** What the end adds to the bytes the client had: the unfinished line of the last reply, after
      an interruption the error event held back, and the marker; else nothing. */
  ghost predicate EndsAt(cfg: Config, a: Attempt, sent: string, v: Served) {
    var tail := Unfinished(Joined(a.writes));
    match v.res
    case Clean => v.tail == tail && v.out == sent + LineOf(tail) + DONE + "\n\n"
    case Interrupted => v.tail == tail && exists err :: ErrorShown(cfg, Reply(a), err) && v.out == sent + LineOf(tail) + err + DONE + "\n\n"
    case _ => v.tail == "" && v.out == sent
  }

  /** The bytes at the client after an attempt. */
  function Left(cfg: Config, d: Dispatch, a: Attempt): string { SegmentOn(cfg, d.sent, a).out }

  /** A whole stream, attempt by attempt. */
  ghost predicate Told(cfg: Config, t: Terms, begun: bool, resumes: nat, log: seq<Dispatch>, script: seq<Attempt>, v: Served)
    decreases |log|, 0
  {
    if log == [] then
      v.res.StillRunning? && script == [] && v.resumes == resumes
    else
      && script != [] && ToldFirst(cfg, t, begun, resumes, log, script[0], v)
      && (GoesFurther(log, v) ==> ToldRest(cfg, t, begun || Begins(script[0]), resumes, log[1..], script[1..], v))
  }

  ghost predicate ToldRest(cfg: Config, t: Terms, begun: bool, resumes: nat, log: seq<Dispatch>, script: seq<Attempt>, v: Served)
    decreases |log|, 1
  {
    Told(cfg, t, begun, Used(begun, resumes), log, script, v)
  }

  function Used(begun: bool, resumes: nat): nat { if begun then resumes + 1 else resumes }

  predicate GoesFurther(log: seq<Dispatch>, v: Served) { |log| > 1 || v.res.StillRunning? }

  ghost predicate ToldFirst(cfg: Config, t: Terms, begun: bool, resumes: nat, log: seq<Dispatch>, a: Attempt, v: Served)
    requires log != []
  {
    var sent, b := Left(cfg, log[0], a), begun || Begins(a);
    if GoesFurther(log, v) then
      GoesOn(cfg, t, a, sent, b, resumes) && (|log| > 1 ==> log[1].body.Continuation? == b)
    else
      EndsBy(cfg, t, a, sent, b, resumes, v.res) && v.resumes == resumes && EndsAt(cfg, a, sent, v)
  }

  // ---- The successor ----

  /** The worker asked to continue is the first on offer that can, and the queued one only if
      none is. */
  lemma {:induction false} SuccessorIsFirst(a: Attempt, w: Worker)
    ensures Successor(a) == Some(w) <==>
      || (exists i | 0 <= i < |a.offered| :: a.offered[i] == w && w.continuation && forall j | 0 <= j < i :: !a.offered[j].continuation)
      || ((forall x | x in a.offered :: !x.continuation) && a.queued == Some(w) && w.continuation)
    ensures Successor(a).None? <==> NoneContinues(a)
  {
    FirstIsFirst(a.offered);
    if FirstCapable(a.offered).None? {
      forall i | 0 <= i < |a.offered| ensures !a.offered[i].continuation { assert a.offered[i] in a.offered; }
    }
  }

  lemma {:induction false} FirstIsFirst(offered: seq<Worker>)
    ensures match FirstCapable(offered)
      case None => forall x | x in offered :: !x.continuation
      case Some(w) => exists i | 0 <= i < |offered| :: offered[i] == w && w.continuation && forall j | 0 <= j < i :: !offered[j].continuation
  {
    if offered != [] && !offered[0].continuation {
      var rest := offered[1..];
      FirstIsFirst(rest);
      assert offered == [offered[0]] + rest;
      if w :| FirstCapable(rest) == Some(w) {
        var i :| 0 <= i < |rest| && rest[i] == w && w.continuation && forall j | 0 <= j < i :: !rest[j].continuation;
        assert offered[i + 1] == w && forall j | 1 <= j < i + 1 :: offered[j] == rest[j - 1];
      }
    }
  }

  // ---- The kept text is over the cap exactly when it was given up ----

  ghost predicate Within(cfg: Config, st: Sse) {
    if st.overflow then |Text(cfg, st.out)| > cfg.contentCap else |st.content| <= cfg.contentCap && st.content == Text(cfg, st.out)
  }

  lemma {:induction false} DeliverWithin(st: Sse, deltas: seq<string>, cap: nat, text: string)
    requires if st.overflow then |text| > cap else |st.content| <= cap && st.content == text
    ensures var r, all := Deliver(st, deltas, cap), text + Joined(NonEmpty(deltas));
      if r.overflow then |all| > cap else |r.content| <= cap && r.content == all
  {
    if deltas == [] {
      assert text + "" == text;
    } else {
      var n := |deltas| - 1;
      var kept := NonEmpty(deltas[..n]);
      DeliverWithin(st, deltas[..n], cap, text);
      if deltas[n] == "" {
        assert kept + [] == kept;
      } else {
        JoinedSnoc(kept, deltas[n]);
        Together(text, Joined(kept), deltas[n]);
      }
    }
  }

  lemma DataWithin(cfg: Config, st: Sse, payload: string, line: string)
    requires Within(cfg, st) && WholeLines(st.out) && OneLine(line) && Trim(line) == "data: " + payload && Trim(line) != DONE
    ensures Within(cfg, DataLine(cfg, st, payload, line))
  {
    var used := if cfg.cl.usage(payload).Some? then st.(usage := cfg.cl.usage(payload)) else st;
    assert Trim(line)[6..] == payload && "data: " <= Trim(line);
    TextAppended(LineDeltas(cfg), st.out, line);
    if cfg.cl.receipt(payload).Some? {
      assert Text(cfg, st.out) + Joined([]) == Text(cfg, st.out);
    } else if cfg.cl.error(payload).None? {
      DeliverWithin(used, cfg.cl.deltas(payload), cfg.contentCap, Text(cfg, st.out));
    }
  }

  lemma ProcessWithin(cfg: Config, st: Sse, line: string)
    requires Within(cfg, st) && WholeLines(st.out) && OneLine(line)
    ensures Within(cfg, Process(cfg, st, line))
  {
    var trim := Trim(line);
    if trim != "" && trim != DONE && "data: " <= trim {
      assert trim == "data: " + trim[6..];
      DataWithin(cfg, st, trim[6..], line);
    } else {
      TextAppended(LineDeltas(cfg), st.out, line);
      assert "data: " <= DONE;
      assert Text(cfg, st.out) + Joined([]) == Text(cfg, st.out);
    }
  }

  lemma {:induction false} PumpWithin(cfg: Config, st: Sse, data: string)
    requires Within(cfg, st) && Unended(st)
    ensures Within(cfg, Pump(Step(cfg), st, data))
    decreases |data|
  {
    var i := NewlineAt(data);
    if i < |data| {
      CutLine(data);
      ProcessWithin(cfg, st, data[..i + 1]);
      ProcessKeepsUnended(cfg, st, data[..i + 1]);
      PumpWithin(cfg, Step(cfg)(st, data[..i + 1]), data[i + 1..]);
    }
  }

  lemma {:induction false} SegmentWithin(cfg: Config, out: string, content: string, writes: seq<string>)
    requires Unended(Fresh(out, content)) && content == Text(cfg, out) && |content| <= cfg.contentCap
    ensures Within(cfg, Segment(cfg, out, content, writes))
  {
    if writes != [] {
      var st := Fresh(out, content);
      ChunkIndependence(cfg, st, writes);
      PumpWithin(cfg, st.(pend := ""), st.pend + Joined(writes));
    }
  }

  // ---- Every turn ----

  /** The loop's invariant: nothing is with the client before the first reply begins. */
  ghost predicate Fit(cfg: Config, t: Terms, s: Stream) { Sound(cfg, t, s) && |s.content| <= cfg.contentCap }

  /** What the filter knows after a segment is what its bytes and the reply say. */
  ghost predicate Knows(cfg: Config, a: Attempt, seg: Sse, total: nat) {
    && Within(cfg, seg) && total == |Deltas(cfg, seg.out)|
    && (a.failed && !seg.heldDone <==> BrokeOff(a)) && (seg.streamError != "" <==> Complained(cfg, a))
    && seg.pend == Unfinished(Joined(a.writes)) && Last(ErrorLine(cfg), Reply(a), None, Held(seg.heldError))
  }

  lemma {:induction false} ReplyTold(cfg: Config, out: string, content: string, a: Attempt)
    ensures var seg := Segment(cfg, out, content, a.writes);
      && (seg.heldDone <==> SaysDone(Reply(a))) && (seg.streamError != "" <==> Complained(cfg, a))
      && seg.pend == Unfinished(Joined(a.writes)) && Last(ErrorLine(cfg), Reply(a), None, Held(seg.heldError))
  {
    ReplyRead(cfg, out, content, a.writes);
    ReplyLeaves(cfg, out, content, a.writes);
  }

  lemma SegmentTold(cfg: Config, t: Terms, s: Stream, a: Attempt)
    requires Fit(cfg, t, s)
    ensures SegmentOn(cfg, s.out, a) == Segment(cfg, s.out, s.content, a.writes)
    ensures Knows(cfg, a, SegmentOn(cfg, s.out, a), s.total + SegmentOn(cfg, s.out, a).delivered)
    ensures !s.started && !Begins(a) ==> SegmentOn(cfg, s.out, a) == Fresh("", "")
  {
    SegmentRecorded(cfg, t, s, a);
    SegmentWithin(cfg, s.out, s.content, a.writes);
    ReplyTold(cfg, s.out, s.content, a);
  }

  lemma MayResumeTold(cfg: Config, t: Terms, a: Attempt, seg: Sse, resumes: nat, total: nat)
    requires Within(cfg, seg) && total == |Deltas(cfg, seg.out)|
    ensures MayResume(a, t.maxResumes, resumes, seg.content, seg.overflow, t.budget - total, t.rebuildable)
      <==> !Stuck(cfg, t, a, seg.out, resumes)
  {
    if a.offered == [] { SuccessorIsFirst(a, Worker("", false)); } else { SuccessorIsFirst(a, a.offered[0]); }
  }

  ghost predicate TurnTold(cfg: Config, t: Terms, a: Attempt, sent: string, begun: bool, resumes: nat, turn: Turn) {
    match turn
    case Over(v) => EndsBy(cfg, t, a, sent, begun, resumes, v.res) && v.resumes == resumes && EndsAt(cfg, a, sent, v)
    case Onward(next) =>
      && GoesOn(cfg, t, a, sent, begun, resumes) && next.started == begun
      && next.resumes == Used(begun, resumes) && next.body.Continuation? == begun
  }

  lemma BothEndsAt(cfg: Config, a: Attempt, seg: Sse, total: nat, s: Stream)
    requires Knows(cfg, a, seg, total)
    ensures EndsAt(cfg, a, seg.out, Finish(Clean, s, Cleanly(seg).out, seg.pend))
    ensures EndsAt(cfg, a, seg.out, Finish(Interrupted, s, Flushed(seg).out, seg.pend))
  {
    var err := if seg.heldError == "" then "" else seg.heldError + "\n";
    assert ErrorShown(cfg, Reply(a), err);
  }

  lemma AfterTold(cfg: Config, t: Terms, a: Attempt, s: Stream, seg: Sse)
    requires Knows(cfg, a, seg, s.total) && s.content == seg.content && s.out == seg.out
    requires !s.started ==> seg == Fresh("", "") && s.body.Original?
    ensures TurnTold(cfg, t, a, seg.out, s.started, s.resumes, TurnAfter(t, a, s, seg))
  {
    MayResumeTold(cfg, t, a, seg, s.resumes, s.total);
    BothEndsAt(cfg, a, seg, s.total, s);
    assert Deltas(cfg, "") == [];
  }

  lemma EveryTurnTold(cfg: Config, t: Terms, s: Stream, a: Attempt)
    requires Fit(cfg, t, s)
    ensures TurnTold(cfg, t, a, SegmentOn(cfg, s.out, a).out, s.started || Begins(a), s.resumes, TurnOf(cfg, t, s, a))
    ensures TurnOf(cfg, t, s, a).Onward? ==> Fit(cfg, t, TurnOf(cfg, t, s, a).stream)
  {
    var seg := SegmentOn(cfg, s.out, a);
    SegmentTold(cfg, t, s, a);
    AfterTold(cfg, t, a, After(s, a, seg), seg);
    if TurnOf(cfg, t, s, a).Onward? { TurnKeepsSound(cfg, t, s, a); }
  }

  // ---- Whole streams ----

  /** The requests from here on, the first of them made now. */
  ghost predicate ToldFrom(cfg: Config, t: Terms, s: Stream, script: seq<Attempt>, more: seq<Dispatch>, v: Served) {
    && v.log == s.log + more && Told(cfg, t, s.started, s.resumes, more, script, v)
    && (more != [] ==> more[0].sent == s.out && more[0].body == s.body)
  }

  lemma OverTold(cfg: Config, t: Terms, s: Stream, script: seq<Attempt>, d: Dispatch, v: Served)
    requires script != [] && d.sent == s.out && d.body == s.body && v.log == s.log + [d] && !v.res.StillRunning?
    requires TurnTold(cfg, t, script[0], Left(cfg, d, script[0]), s.started || Begins(script[0]), s.resumes, Over(v))
    ensures ToldFrom(cfg, t, s, script, [d], v)
  {
    assert !GoesFurther([d], v);
  }

  lemma {:induction false} ToldOn(cfg: Config, t: Terms, begun: bool, resumes: nat, script: seq<Attempt>, b: bool, d: Dispatch, rest: seq<Dispatch>, v: Served)
    requires script != [] && b == (begun || Begins(script[0])) && GoesOn(cfg, t, script[0], Left(cfg, d, script[0]), b, resumes)
    requires if rest == [] then v.res.StillRunning? else rest[0].body.Continuation? == b
    requires ToldRest(cfg, t, b, resumes, rest, script[1..], v)
    ensures Told(cfg, t, begun, resumes, [d] + rest, script, v)
  {
    var more := [d] + rest;
    assert more[0] == d && more[1..] == rest;
    assert ToldFirst(cfg, t, begun, resumes, more, script[0], v);
  }

  lemma {:induction false} PlayTold(cfg: Config, t: Terms, s: Stream, script: seq<Attempt>) returns (more: seq<Dispatch>)
    requires Fit(cfg, t, s)
    ensures ToldFrom(cfg, t, s, script, more, Play(cfg, t, s, script))
    decreases |script|
  {
    if script == [] {
      more := [];
      assert s.log + [] == s.log;
    } else {
      var a, v, turn := script[0], Play(cfg, t, s, script), TurnOf(cfg, t, s, script[0]);
      var d := Dispatch(s.body, s.out, SegmentOn(cfg, s.out, a).delivered);
      EveryTurnTold(cfg, t, s, a);
      TurnDrives(cfg, t, s, a);
      if turn.Onward? {
        more := PlayTold(cfg, t, turn.stream, script[1..]);
        ToldOn(cfg, t, s.started, s.resumes, script, turn.stream.started, d, more, v);
        Grouped(s.log, [d], more);
        more := [d] + more;
      } else {
        OverTold(cfg, t, s, script, d, v);
        more := [d];
      }
    }
  }

  /** Every request of every stream, and its end, in terms of what the workers did and of the
      bytes the client had. */
  lemma {:induction false} StreamTold(cfg: Config, t: Terms, script: seq<Attempt>)
    requires t.budget >= 1
    ensures var v := Play(cfg, t, OPENING, script); Told(cfg, t, false, 0, v.log, script, v)
  {
    OpeningSound(cfg, t);
    var more := PlayTold(cfg, t, OPENING, script);
    assert [] + more == more;
  }

  ghost predicate Begun(script: seq<Attempt>) { exists i | 0 <= i < |script| :: Begins(script[i]) }

  lemma BegunFirst(a: Attempt, rest: seq<Attempt>)
    ensures Begun([a] + rest) <==> Begins(a) || Begun(rest)
  {
    var all := [a] + rest;
    assert all[0] == a && forall i | 0 < i < |all| :: all[i] == rest[i - 1];
    if i :| 0 <= i < |rest| && Begins(rest[i]) { assert Begins(all[i + 1]); }
  }

  /** The last request of those told. */
  ghost predicate LastEnds(cfg: Config, t: Terms, begun: bool, log: seq<Dispatch>, script: seq<Attempt>, v: Served) {
    var n := |log|;
    && 0 < n <= |script|
    && EndsBy(cfg, t, script[n - 1], Left(cfg, log[n - 1], script[n - 1]), begun || Begun(script[..n]), v.resumes, v.res)
    && EndsAt(cfg, script[n - 1], Left(cfg, log[n - 1], script[n - 1]), v)
  }

  function Continuations(log: seq<Dispatch>): nat {
    if log == [] then 0 else (if log[0].body.Continuation? then 1 else 0) + Continuations(log[1..])
  }

  lemma {:induction false} ResumesCounted(cfg: Config, t: Terms, begun: bool, resumes: nat, log: seq<Dispatch>, script: seq<Attempt>, v: Served)
    requires Told(cfg, t, begun, resumes, log, script, v) && !v.res.StillRunning?
    ensures log != [] && v.resumes == resumes + Continuations(log[1..])
    decreases |log|
  {
    if GoesFurther(log, v) {
      var b := begun || Begins(script[0]);
      ResumesCounted(cfg, t, b, Used(b, resumes), log[1..], script[1..], v);
    }
  }

  lemma LastOfMore(cfg: Config, t: Terms, begun: bool, log: seq<Dispatch>, script: seq<Attempt>, v: Served)
    requires |log| > 1 && script != [] && LastEnds(cfg, t, begun || Begins(script[0]), log[1..], script[1..], v)
    ensures LastEnds(cfg, t, begun, log, script, v)
  {
    var n := |log|;
    BegunFirst(script[0], script[1..][..n - 1]);
    assert script[..n] == [script[0]] + script[1..][..n - 1];
  }

  lemma OnlyOne(cfg: Config, t: Terms, begun: bool, log: seq<Dispatch>, script: seq<Attempt>, v: Served)
    requires |log| == 1 && script != []
    requires EndsBy(cfg, t, script[0], Left(cfg, log[0], script[0]), begun || Begins(script[0]), v.resumes, v.res)
    requires EndsAt(cfg, script[0], Left(cfg, log[0], script[0]), v)
    ensures LastEnds(cfg, t, begun, log, script, v)
  {
    BegunFirst(script[0], []);
    assert script[..1] == [script[0]] + [];
  }

  lemma {:induction false} LastTold(cfg: Config, t: Terms, begun: bool, resumes: nat, log: seq<Dispatch>, script: seq<Attempt>, v: Served)
    requires Told(cfg, t, begun, resumes, log, script, v)
    ensures if v.res.StillRunning? then |log| == |script| else LastEnds(cfg, t, begun, log, script, v)
    decreases |log|
  {
    if log != [] {
      if GoesFurther(log, v) {
        var b := begun || Begins(script[0]);
        LastTold(cfg, t, b, Used(b, resumes), log[1..], script[1..], v);
        if !v.res.StillRunning? { LastOfMore(cfg, t, begun, log, script, v); }
      } else {
        OnlyOne(cfg, t, begun, log, script, v);
      }
    }
  }

  /** A stream whose client stays is interrupted only where it is stuck: the resumes are used
      up, the deadline passed, the client has no text or too much of it, less than a token of
      the budget is left, no worker on offer or queued can continue, or the request cannot be
      rebuilt. It ends cleanly exactly when its last worker did not break off before its own
      marker and sent no error message. The client then gets what is left of the last reply, the
      error event it was spared if the stream is interrupted, and the marker. */
  lemma {:induction false} StreamEnds(cfg: Config, t: Terms, script: seq<Attempt>)
    requires t.budget >= 1
    ensures var v := Play(cfg, t, OPENING, script);
      var n := |v.log|;
      if v.res.StillRunning? then n == |script| else
        && 0 < n <= |script| && v.resumes == Continuations(v.log[1..])
        && EndsAsTold(cfg, t, script[n - 1], Left(cfg, v.log[n - 1], script[n - 1]), Begun(script[..n]), v)
        && EndsAt(cfg, script[n - 1], Left(cfg, v.log[n - 1], script[n - 1]), v)
  {
    var v := Play(cfg, t, OPENING, script);
    StreamTold(cfg, t, script);
    LastTold(cfg, t, false, 0, v.log, script, v);
    if !v.res.StillRunning? { ResumesCounted(cfg, t, false, 0, v.log, script, v); }
  }

  ghost predicate EndsAsTold(cfg: Config, t: Terms, last: Attempt, sent: string, begun: bool, v: Served) {
    && (v.res.Clean? <==> !BrokeOff(last) && !Complained(cfg, last))
    && (v.res.NoWorker? <==> BrokeOff(last) && !begun)
    && (v.res.ClientLeft? <==> BrokeOff(last) && begun && last.clientGone && Deltas(cfg, sent) != [])
    && (v.res.Interrupted? ==> begun && Stuck(cfg, t, last, sent, v.resumes))
    && (v.res.NoWorker? ==> last.retry.None?)
  }

  // ---- A stream that is resumed ----

  lemma PlainLine(cfg: Config, payload: string)
    requires Plain(cfg, payload)
    ensures Payload(Line(payload)) == Some(payload) && OneLine(Line(payload)) && !Complains(cfg, Line(payload))
    ensures LineDeltas(cfg)(Line(payload)) == NonEmpty(cfg.cl.deltas(payload))
  {
    NewlineAfter("data: " + payload, "");
    assert ("data: " + payload)[6..] == payload;
  }

  lemma {:induction false} TwoLinesCut(line: string)
    requires OneLine(line)
    ensures Lines(line + "\n") == [line, "\n"]
  {
    NewlineInPrefix(line, "\n");
    NewlineTrims();
    assert (line + "\n")[..|line|] == line && (line + "\n")[|line|..] == "\n";
    assert "\n"[..1] == "\n" && "\n"[1..] == "" && Lines("") == [];
    assert Lines("\n") == ["\n"] + [];
    assert [line] + ["\n"] == [line, "\n"];
  }

  lemma PairJoined(line: string)
    ensures Joined([line, "\n"]) == line + "\n"
  {
    JoinedSnoc([line], "\n");
    JoinedSnoc([], line);
    assert [line, "\n"] == [line] + ["\n"] && [line] == [] + [line] && "" + line == line;
  }

  /** The reply of one plain event, its line and its blank line. */
  lemma PlainReply(cfg: Config, payload: string, a: Attempt)
    requires Plain(cfg, payload) && a.writes == [Line(payload), "\n"]
    ensures Joined(a.writes) == Line(payload) + "\n" && !SaysDone(Reply(a)) && !Complained(cfg, a)
  {
    var line := Line(payload);
    PlainLine(cfg, payload);
    PairJoined(line);
    TwoLinesCut(line);
    NewlineTrims();
    assert !Complains(cfg, "\n") && Reply(a) == [line, "\n"];
  }

  lemma PlainSent(cfg: Config, payload: string, a: Attempt)
    requires Plain(cfg, payload) && a.writes == [Line(payload), "\n"]
    ensures SegmentOn(cfg, "", a).out == Line(payload) + "\n" && Deltas(cfg, Line(payload) + "\n") == NonEmpty(cfg.cl.deltas(payload))
  {
    var e, st := Event("data: " + payload, ""), Fresh("", "");
    PlainLine(cfg, payload);
    PlainReply(cfg, payload, a);
    NewlineTrims();
    assert Text(cfg, "") == "" && Trim("" + "\n") == "" by { assert "" + "\n" == "\n"; }
    assert Printed([e]) == Line(payload) + "" + "\n" + Printed([]) == Line(payload) + "\n";
    FilterRemovesEvents(cfg, st, [e]);
    ChunkIndependence(cfg, st, a.writes);
    assert !Suppressed(cfg, e) && Kept(cfg, [e]) == [e] + [] == [e];
    TextAppended(LineDeltas(cfg), Line(payload), "\n");
    CollectLine(LineDeltas(cfg), Line(payload));
  }

  function Broken(one: string): Attempt {
    Attempt(true, [Line(one), "\n"], true, false, false, None, [Worker("second", true)], None)
  }

  function Whole(two: string): Attempt { Attempt(true, [Line(two), "\n"], false, false, false, None, [], None) }

  const ONE_RESUME := Terms(1, 100, true)

  lemma OneWord(word: string)
    requires word != ""
    ensures NonEmpty([word]) == [word] && Joined([word]) == word
  {
    assert [word][..0] == [] && [] + [word] == [word];
    JoinedSnoc([], word);
    assert "" + word == word;
  }

  lemma WordSent(cfg: Config, one: string, word: string)
    requires Plain(cfg, one) && cfg.cl.deltas(one) == [word] && 0 < |word| <= cfg.contentCap
    ensures Deltas(cfg, SegmentOn(cfg, "", Broken(one)).out) == [word] && Text(cfg, SegmentOn(cfg, "", Broken(one)).out) == word
  {
    PlainSent(cfg, one, Broken(one));
    OneWord(word);
  }

  lemma NotStuck(cfg: Config, one: string, sent: string)
    requires |Deltas(cfg, sent)| == 1 && 0 < |Text(cfg, sent)| <= cfg.contentCap
    ensures !Stuck(cfg, ONE_RESUME, Broken(one), sent, 0)
  {
    assert Worker("second", true) in Broken(one).offered;
  }

  /** A first reply that breaks off where the stream is not stuck, and a clean second one. */
  lemma {:induction false} TwoTold(cfg: Config, t: Terms, a: Attempt, b: Attempt, log: seq<Dispatch>, v: Served)
    requires Told(cfg, t, false, 0, log, [a, b], v) && Begins(a) && !a.clientGone
    requires BrokeOff(a) && (log != [] ==> !Stuck(cfg, t, a, Left(cfg, log[0], a), 0))
    requires !BrokeOff(b) && !Complained(cfg, b)
    ensures v.res.Clean? && |log| == 2 && log[1].body.Continuation?
  {
    var script := [a, b];
    assert script[1..] == [b] && [b][1..] == [];
    assert ToldFirst(cfg, t, false, 0, log, a, v);
    assert GoesFurther(log, v) && Used(true, 0) == 1;
    assert Told(cfg, t, true, 1, log[1..], [b], v);
    assert log[1..] != [] && ToldFirst(cfg, t, true, 1, log[1..], b, v);
  }

  /** A worker sends one word and breaks off with the client still there; another is on offer
      that can continue. It is asked for the rest, and the client's stream ends cleanly. */
  lemma {:induction false} ResumedOnce(cfg: Config, one: string, two: string, word: string)
    requires Plain(cfg, one) && Plain(cfg, two) && cfg.cl.deltas(one) == [word] && 0 < |word| <= cfg.contentCap
    ensures var v := Play(cfg, ONE_RESUME, OPENING, [Broken(one), Whole(two)]);
      v.res.Clean? && |v.log| == 2 && v.log[1].body == Continuation(word, 99)
  {
    var script := [Broken(one), Whole(two)];
    var v := Play(cfg, ONE_RESUME, OPENING, script);
    StreamTold(cfg, ONE_RESUME, script);
    StreamIsDriven(cfg, ONE_RESUME, script);
    PlainReply(cfg, one, Broken(one));
    PlainReply(cfg, two, Whole(two));
    WordSent(cfg, one, word);
    NotStuck(cfg, one, SegmentOn(cfg, "", Broken(one)).out);
    TwoTold(cfg, ONE_RESUME, Broken(one), Whole(two), v.log, v);
    StreamContinues(cfg, ONE_RESUME, script);
    assert DrivenFirst(cfg, v.log, v.out, Broken(one));
    assert v.log[1] in v.log && Continuous(cfg, v.log[1], 100);
  }

  /** A line that is an error event with an empty message. */
  ghost predicate SaysNothing(cfg: Config, payload: string) {
    && NoNewline("data: " + payload) && Trim(Line(payload)) == "data: " + payload != DONE
    && cfg.cl.receipt(payload).None? && cfg.cl.error(payload) == Some("")
  }

  lemma SilentRead(cfg: Config, payload: string, a: Attempt)
    requires SaysNothing(cfg, payload) && a.writes == [Line(payload), "\n"]
    ensures Joined(a.writes) == Line(payload) + "\n" && !Complained(cfg, a)
    ensures SegmentOn(cfg, "", a).heldError == Line(payload)
  {
    var line := Line(payload);
    NewlineAfter("data: " + payload, "");
    assert ("data: " + payload)[6..] == payload;
    PairJoined(line);
    TwoLinesCut(line);
    NewlineTrims();
    assert ErrorIn(cfg, line) == Some("") && ErrorIn(cfg, "\n") == None && Reply(a) == [line, "\n"];
    ReplyRead(cfg, "", Text(cfg, ""), a.writes);
    assert ErrorLine(cfg)(line).Some? && ErrorLine(cfg)("\n").None?;
  }

  lemma SilentSent(cfg: Config, payload: string, a: Attempt)
    requires SaysNothing(cfg, payload) && a.writes == [Line(payload), "\n"] && Joined(a.writes) == Line(payload) + "\n"
    ensures SegmentOn(cfg, "", a).out == ""
  {
    var line, e, st := Line(payload), Event("data: " + payload, ""), Fresh("", Text(cfg, ""));
    NewlineTrims();
    assert ("data: " + payload)[6..] == payload && "" + "\n" == "\n";
    assert Printed([e]) == line + "" + "\n" + Printed([]) == line + "\n";
    FilterRemovesEvents(cfg, st, [e]);
    ChunkIndependence(cfg, st, a.writes);
    assert Suppressed(cfg, e) && Kept(cfg, [e]) == [] + [] == [];
  }

  /** An error event with an empty message counts as none: the filter holds its line back, the
      stream ends cleanly, and the client gets no error. */
  lemma {:induction false} SilentError(cfg: Config, t: Terms, payload: string, a: Attempt)
    requires t.budget >= 1 && SaysNothing(cfg, payload) && a.writes == [Line(payload), "\n"] && !a.failed
    ensures SegmentOn(cfg, "", a).out == "" && SegmentOn(cfg, "", a).heldError == Line(payload)
    ensures Play(cfg, t, OPENING, [a]).res.Clean?
  {
    SilentRead(cfg, payload, a);
    SilentSent(cfg, payload, a);
    StreamEndsAtOnce(cfg, t, a);
  }

  lemma {:induction false} StreamEndsAtOnce(cfg: Config, t: Terms, a: Attempt)
    requires t.budget >= 1 && !BrokeOff(a) && !Complained(cfg, a)
    ensures Play(cfg, t, OPENING, [a]).res.Clean?
  {
    var v := Play(cfg, t, OPENING, [a]);
    StreamTold(cfg, t, [a]);
    assert [a][1..] == [] && v.log != [];
    assert ToldFirst(cfg, t, false, 0, v.log, a, v);
  }
}
