/** What the filter records of a worker's reply, read off the lines of the reply alone: its end
    marker, its last usage, its last receipt, its first error message and last error event. */
module StreamLines {
  import opened Orders
  import opened SseFilter

  /** The complete lines of a text. */
  function Lines(s: string): seq<string>
    decreases |s|
  {
    var i := NewlineAt(s);
    if i == |s| then [] else [s[..i + 1]] + Lines(s[i + 1..])
  }

  /** What follows the last newline. */
  function Unfinished(s: string): string
    decreases |s|
  {
    var i := NewlineAt(s);
    if i == |s| then s else Unfinished(s[i + 1..])
  }

  function Payload(line: string): Option<string> {
    var trim := Trim(line);
    if trim != DONE && "data: " <= trim then Some(trim[6..]) else None
  }

  type Reading<A> = string -> Option<A>

  function UsageIn(cfg: Config): Reading<Usage> {
    (line: string) => if Payload(line).Some? then cfg.cl.usage(Payload(line).value) else None
  }

  function ReceiptIn(cfg: Config): Reading<string> {
    (line: string) => if Payload(line).Some? then cfg.cl.receipt(Payload(line).value) else None
  }

  /** The message of an error event; a receipt is none. */
  function ErrorIn(cfg: Config, line: string): Option<string> {
    if Payload(line).Some? && ReceiptIn(cfg)(line).None? then cfg.cl.error(Payload(line).value) else None
  }

  function ErrorLine(cfg: Config): Reading<string> {
    (line: string) => if ErrorIn(cfg, line).Some? then Some(line) else None
  }

  function Held(line: string): Option<string> { if line == "" then None else Some(line) }

  predicate Complains(cfg: Config, line: string) { ErrorIn(cfg, line).Some? && ErrorIn(cfg, line).value != "" }

  ghost predicate SaysDone(lines: seq<string>) { exists i | 0 <= i < |lines| :: Trim(lines[i]) == DONE }

  /** The last line that carries one decides, and without any the earlier value stays. */
  ghost predicate Last<A>(f: Reading<A>, lines: seq<string>, before: Option<A>, now: Option<A>) {
    || (now == before && forall i | 0 <= i < |lines| :: f(lines[i]).None?)
    || exists i | 0 <= i < |lines| && f(lines[i]).Some? :: now == f(lines[i]) && forall j | i < j < |lines| :: f(lines[j]).None?
  }

  /** The first message that says anything stays; an error event with an empty one is none. */
  ghost predicate FirstMessage(cfg: Config, lines: seq<string>, before: string, now: string) {
    || (now == before && (before != "" || forall i | 0 <= i < |lines| :: !Complains(cfg, lines[i])))
    || (before == "" && exists i | 0 <= i < |lines| && Complains(cfg, lines[i]) ::
      Some(now) == ErrorIn(cfg, lines[i]) && forall j | 0 <= j < i :: !Complains(cfg, lines[j]))
  }

  ghost predicate Reads(cfg: Config, st: Sse, lines: seq<string>, after: Sse) {
    && (after.heldDone <==> st.heldDone || SaysDone(lines))
    && Last(UsageIn(cfg), lines, st.usage, after.usage)
    && Last(ReceiptIn(cfg), lines, st.receipt, after.receipt)
    && Last(ErrorLine(cfg), lines, Held(st.heldError), Held(after.heldError))
    && FirstMessage(cfg, lines, st.streamError, after.streamError)
  }

  lemma OneLineRead(cfg: Config, st: Sse, line: string, after: Sse)
    requires after.heldDone <==> st.heldDone || Trim(line) == DONE
    requires after.usage == if UsageIn(cfg)(line).Some? then UsageIn(cfg)(line) else st.usage
    requires after.receipt == if ReceiptIn(cfg)(line).Some? then ReceiptIn(cfg)(line) else st.receipt
    requires line != "" && after.heldError == if ErrorIn(cfg, line).Some? then line else st.heldError
    requires after.streamError == if st.streamError == "" && Complains(cfg, line) then ErrorIn(cfg, line).value else st.streamError
    ensures Reads(cfg, st, [line], after)
  {
    assert [line][0] == line;
  }

  lemma ProcessReads(cfg: Config, st: Sse, line: string)
    requires line != ""
    ensures Reads(cfg, st, [line], Process(cfg, st, line))
  {
    if Payload(line).Some? {
      DataReads(cfg, st, Payload(line).value, line);
    } else {
      assert "data: " <= DONE;
      OneLineRead(cfg, st, line, Process(cfg, st, line));
    }
  }

  lemma DataReads(cfg: Config, st: Sse, payload: string, line: string)
    requires line != "" && Payload(line) == Some(payload)
    ensures Reads(cfg, st, [line], DataLine(cfg, st, payload, line))
  {
    OneLineRead(cfg, st, line, DataLine(cfg, st, payload, line));
  }

  lemma LastOn<A>(f: Reading<A>, line: string, rest: seq<string>, before: Option<A>, mid: Option<A>, now: Option<A>)
    requires mid == (if f(line).Some? then f(line) else before) && Last(f, rest, mid, now)
    ensures Last(f, [line] + rest, before, now)
  {
    var lines := [line] + rest;
    assert lines[0] == line && forall i | 1 <= i < |lines| :: lines[i] == rest[i - 1];
    if i :| 0 <= i < |rest| && f(rest[i]).Some? && now == f(rest[i]) && forall j | i < j < |rest| :: f(rest[j]).None? {
      assert lines[i + 1] == rest[i];
    } else if f(line).Some? {
      assert f(lines[0]).Some? && now == f(lines[0]);
    }
  }

  lemma FirstOn(cfg: Config, line: string, rest: seq<string>, before: string, mid: string, now: string)
    requires FirstMessage(cfg, [line], before, mid) && FirstMessage(cfg, rest, mid, now)
    ensures FirstMessage(cfg, [line] + rest, before, now)
  {
    var lines := [line] + rest;
    assert [line][0] == line && lines[0] == line && forall i | 1 <= i < |lines| :: lines[i] == rest[i - 1];
    assert forall i | 0 <= i < |rest| :: lines[i + 1] == rest[i];
  }

  lemma ReadsOn(cfg: Config, st: Sse, line: string, mid: Sse, rest: seq<string>, after: Sse)
    requires Reads(cfg, st, [line], mid) && Reads(cfg, mid, rest, after)
    ensures Reads(cfg, st, [line] + rest, after)
  {
    var lines := [line] + rest;
    assert [line][0] == line && lines[0] == line && forall i | 0 <= i < |rest| :: lines[i + 1] == rest[i];
    LastOn(UsageIn(cfg), line, rest, st.usage, mid.usage, after.usage);
    LastOn(ReceiptIn(cfg), line, rest, st.receipt, mid.receipt, after.receipt);
    LastOn(ErrorLine(cfg), line, rest, Held(st.heldError), Held(mid.heldError), Held(after.heldError));
    FirstOn(cfg, line, rest, st.streamError, mid.streamError, after.streamError);
  }

  lemma {:induction false} PumpReads(cfg: Config, st: Sse, data: string)
    ensures Reads(cfg, st, Lines(data), Pump(Step(cfg), st, data))
    decreases |data|
  {
    var i := NewlineAt(data);
    if i < |data| {
      var line, rest := data[..i + 1], data[i + 1..];
      var mid := Step(cfg)(st, line);
      ProcessReads(cfg, st, line);
      PumpReads(cfg, mid, rest);
      ReadsOn(cfg, st, line, mid, Lines(rest), Pump(Step(cfg), mid, rest));
    }
  }

  /** A reply, however it is cut into writes, leaves in the filter its last usage and receipt,
      its last error event and first message, and whether it said it was done. */
  lemma {:induction false} ReplyRead(cfg: Config, out: string, content: string, writes: seq<string>)
    ensures Reads(cfg, Fresh(out, content), Lines(Joined(writes)), FeedAll(Step(cfg), Fresh(out, content), writes))
  {
    var st, reply := Fresh(out, content), Joined(writes);
    if writes != [] {
      ChunkIndependence(cfg, st, writes);
      assert st.(pend := "") == st && st.pend + reply == reply;
      PumpReads(cfg, st, reply);
    }
  }

  lemma {:induction false} PumpLeaves(step: LineStep, st: Sse, data: string)
    ensures Pump(step, st, data).pend == Unfinished(data)
    decreases |data|
  {
    var i := NewlineAt(data);
    if i < |data| { PumpLeaves(step, step(st, data[..i + 1]), data[i + 1..]); }
  }

  /** Its unfinished line is kept back. */
  lemma {:induction false} ReplyLeaves(cfg: Config, out: string, content: string, writes: seq<string>)
    ensures FeedAll(Step(cfg), Fresh(out, content), writes).pend == Unfinished(Joined(writes))
  {
    var st, reply := Fresh(out, content), Joined(writes);
    if writes != [] {
      ChunkIndependence(cfg, st, writes);
      assert st.(pend := "") == st && st.pend + reply == reply;
      PumpLeaves(Step(cfg), st, reply);
    }
  }

  /** What is retained for sampling: everything, or its first `cap` bytes. */
  lemma CapturedIsPrefix(b: string, cap: nat)
    ensures Captured("", b, cap) <= b && |Captured("", b, cap)| == if |b| < cap then |b| else cap
  {
    assert "" + b == b;
  }
}
