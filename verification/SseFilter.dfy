/** The stream filter between a worker and a client: an incremental line parser that holds
    back error events and the worker's end marker, strips receipt events, and keeps the text
    it delivers. Events are framed by blank lines as in section 9.2.6 of the WHATWG HTML
    Standard; the filter treats each line on its own. */
module SseFilter {
  import opened Orders

  datatype Usage = Usage(prompt: int, completion: int, cached: int, total: int)

  /** How a data payload parses: a usage object with tokens, a receipt, an error message, and
      the content deltas, in order. */
  datatype Classifier = Classifier(
    usage: string -> Option<Usage>, receipt: string -> Option<string>, error: string -> Option<string>, deltas: string -> seq<string>)

  datatype Config = Config(cl: Classifier, forwardReceipt: bool, contentCap: nat)

  datatype Sse = Sse(
    out: string,                  // bytes sent to the client
    pend: string,                 // partial trailing line
    heldError: string, heldDone: bool, lastSuppressed: bool,
    usage: Option<Usage>, streamError: string, delivered: nat,
    content: string, overflow: bool, receipt: Option<string>)

  const DONE := "data: [DONE]"

  predicate IsSpace(c: char) { c == ' ' || c == '\t' || c == '\r' || c == '\n' || c == 11 as char || c == 12 as char }

  function TrimLeft(s: string): string { if s != [] && IsSpace(s[0]) then TrimLeft(s[1..]) else s }

  function TrimRight(s: string): string { if s != [] && IsSpace(s[|s| - 1]) then TrimRight(s[..|s| - 1]) else s }

  function Trim(s: string): string { TrimLeft(TrimRight(s)) }

  // ---- Specification ----

  function Deliver(st: Sse, deltas: seq<string>, cap: nat): (r: Sse)
    ensures r == st.(delivered := r.delivered, content := r.content, overflow := r.overflow)
  {
    if deltas == [] then st
    else
      var before := Deliver(st, deltas[..|deltas| - 1], cap);
      var c := deltas[|deltas| - 1];
      if c == "" then before
      else
        var counted := before.(delivered := before.delivered + 1);
        if counted.overflow then counted
        else if |counted.content| + |c| > cap then counted.(overflow := true)
        else counted.(content := counted.content + c)
  }

  function Forward(st: Sse, line: string): Sse { st.(lastSuppressed := false, out := st.out + line) }

  function DataLine(cfg: Config, st: Sse, payload: string, line: string): (r: Sse)
    ensures r.pend == st.pend
  {
    var used := if cfg.cl.usage(payload).Some? then st.(usage := cfg.cl.usage(payload)) else st;
    if cfg.cl.receipt(payload).Some? then
      var got := used.(receipt := cfg.cl.receipt(payload));
      if cfg.forwardReceipt then Forward(got, line) else got.(lastSuppressed := true)
    else if cfg.cl.error(payload).Some? then
      used.(streamError := if used.streamError == "" then cfg.cl.error(payload).value else used.streamError,
            heldError := line, lastSuppressed := true)
    else Forward(Deliver(used, cfg.cl.deltas(payload), cfg.contentCap), line)
  }

  function Process(cfg: Config, st: Sse, line: string): (r: Sse)
    ensures r.pend == st.pend
  {
    var trim := Trim(line);
    if trim == "" then
      if st.lastSuppressed then st.(lastSuppressed := false) else st.(out := st.out + line)
    else if trim == DONE then st.(heldDone := true, lastSuppressed := true)
    else if "data: " <= trim then DataLine(cfg, st, trim[6..], line)
    else Forward(st, line)
  }

  function NewlineAt(s: string): (i: nat)
    ensures i <= |s| && (i < |s| ==> s[i] == '\n') && (forall j | 0 <= j < i :: s[j] != '\n')
  {
    if s == [] || s[0] == '\n' then 0 else 1 + NewlineAt(s[1..])
  }

  ghost predicate NoNewline(s: string) { forall j | 0 <= j < |s| :: s[j] != '\n' }

  lemma {:induction false} NewlineAfter(a: string, b: string)
    requires NoNewline(a)
    ensures NewlineAt(a + "\n" + b) == |a| && NewlineAt(a + "\n") == |a|
  {
    var s, t := a + "\n" + b, a + "\n";
    assert s[|a|] == '\n' && t[|a|] == '\n';
    assert forall j | 0 <= j < |a| :: s[j] == a[j] && t[j] == a[j];
  }

  type LineStep = (Sse, string) -> Sse

  function Step(cfg: Config): LineStep { (st: Sse, line: string) => Process(cfg, st, line) }

  /** Processes every complete line of `data`; what is left becomes the pending tail. */
  function Pump(step: LineStep, st: Sse, data: string): Sse
    decreases |data|
  {
    var i := NewlineAt(data);
    if i == |data| then st.(pend := data) else Pump(step, step(st, data[..i + 1]), data[i + 1..])
  }

  /** Everything a chunk does. */
  function Feed(step: LineStep, st: Sse, b: string): Sse { Pump(step, st.(pend := ""), st.pend + b) }

  function FeedAll(step: LineStep, st: Sse, chunks: seq<string>): Sse {
    if chunks == [] then st else Feed(step, FeedAll(step, st, chunks[..|chunks| - 1]), chunks[|chunks| - 1])
  }

  function Joined(chunks: seq<string>): string {
    if chunks == [] then "" else Joined(chunks[..|chunks| - 1]) + chunks[|chunks| - 1]
  }

  function Tail(st: Sse): string { if st.pend == "" then "" else st.pend + "\n" }

  function Cleanly(st: Sse): Sse { st.(out := st.out + Tail(st) + DONE + "\n\n", pend := "") }

  function Flushed(st: Sse): Sse {
    st.(out := st.out + Tail(st) + (if st.heldError == "" then "" else st.heldError + "\n") + DONE + "\n\n", pend := "", heldError := "")
  }

  /** Raw bytes retained for sampling, bounded. */
  function Captured(buf: string, b: string, cap: nat): string {
    if |buf| >= cap then buf else if |buf| + |b| <= cap then buf + b else (buf + b)[..cap]
  }

  lemma EndAppended(out: string, tail: string, err: string)
    ensures out + "" == out && out + (tail + err + DONE + "\n\n") + "" == out + tail + err + DONE + "\n\n"
    ensures err == "" ==> tail + err == tail && out + tail + err == out + tail
  {
  }

  // ---- The code ----

  class SseCaptureWriter {
    const cfg: Config
    const sampled: bool
    const captureCap: nat
    var out: string
    var fwd: string               // forwarded by the current write, not sent yet
    var pend: string
    var heldError: string
    var heldDone: bool
    var lastSuppressed: bool
    var usage: Option<Usage>
    var streamError: string
    var delivered: nat
    var content: string
    var overflow: bool
    var receipt: Option<string>
    var captureBuf: string

    /** A segment continues the client's byte stream and the shared content buffer. */
    constructor (cfg: Config, sampled: bool, captureCap: nat, out: string, content: string)
      ensures View() == Fresh(out, content) && fwd == "" && captureBuf == ""
      ensures this.cfg == cfg && this.sampled == sampled && this.captureCap == captureCap
    {
      this.cfg, this.sampled, this.captureCap, this.out, this.content := cfg, sampled, captureCap, out, content;
      fwd, pend, heldError, heldDone, lastSuppressed := "", "", "", false, false;
      usage, streamError, delivered, overflow, receipt, captureBuf := None, "", 0, false, None, "";
      new;
      assert out + "" == out;
    }

    function View(): Sse
      reads this
    {
      Sse(out + fwd, pend, heldError, heldDone, lastSuppressed, usage, streamError, delivered, content, overflow, receipt)
    }

    method CountDeltas(deltas: seq<string>)
      modifies this`delivered, this`content, this`overflow
      ensures View() == Deliver(old(View()), deltas, cfg.contentCap)
    {
      for k := 0 to |deltas|
        invariant View() == Deliver(old(View()), deltas[..k], cfg.contentCap)
      {
        assert deltas[..k + 1][..k] == deltas[..k];
        var c := deltas[k];
        if c == "" { continue; }
        delivered := delivered + 1;
        if !overflow {
          if |content| + |c| > cfg.contentCap { overflow := true; } else { content := content + c; }
        }
      }
      assert deltas[..|deltas|] == deltas;
    }

    method ForwardLine(line: string)
      modifies this`fwd
      ensures View() == old(View()).(out := old(View()).out + line)
    {
      assert out + (fwd + line) == (out + fwd) + line;
      fwd := fwd + line;
    }

    /** One complete line. */
    method ProcessLine(line: string)
      modifies this`fwd, this`heldError, this`heldDone, this`lastSuppressed, this`usage, this`streamError, this`delivered, this`content, this`overflow, this`receipt
      ensures View() == Process(cfg, old(View()), line)
    {
      var trim := Trim(line);
      if |trim| == 0 {
        if lastSuppressed {
          lastSuppressed := false;
          return;
        }
        ForwardLine(line);
        return;
      }
      if trim == DONE {
        heldDone, lastSuppressed := true, true;
        return;
      }
      if "data: " <= trim {
        ProcessData(trim[6..], line);
        return;
      }
      lastSuppressed := false;
      ForwardLine(line);
    }

    method ProcessData(payload: string, line: string)
      modifies this`fwd, this`heldError, this`lastSuppressed, this`usage, this`streamError, this`delivered, this`content, this`overflow, this`receipt
      ensures View() == DataLine(cfg, old(View()), payload, line)
    {
      var u := cfg.cl.usage(payload);
      if u.Some? { usage := u; }
      var r := cfg.cl.receipt(payload);
      if r.Some? {
        receipt := r;
        if cfg.forwardReceipt {
          lastSuppressed := false;
          ForwardLine(line);
          return;
        }
        lastSuppressed := true;
        return;
      }
      var e := cfg.cl.error(payload);
      if e.Some? {
        if streamError == "" { streamError := e.value; }
        heldError, lastSuppressed := line, true;
        return;
      }
      CountDeltas(cfg.cl.deltas(payload));
      lastSuppressed := false;
      ForwardLine(line);
    }

    method Capture(b: string)
      modifies this`captureBuf
      ensures captureBuf == if sampled then Captured(old(captureBuf), b, captureCap) else old(captureBuf)
    {
      if sampled && |captureBuf| < captureCap {
        var room := captureCap - |captureBuf|;
        if room >= |b| {
          captureBuf := captureBuf + b;
        } else {
          assert (captureBuf + b)[..captureCap] == captureBuf + b[..room];
          captureBuf := captureBuf + b[..room];
        }
      }
    }

    method Write(b: string)
      requires fwd == ""
      modifies this
      ensures View() == Feed(Step(cfg), old(View()), b) && fwd == ""
      ensures captureBuf == if sampled then Captured(old(captureBuf), b, captureCap) else old(captureBuf)
    {
      Capture(b);
      FilterLines(b);
      if |fwd| > 0 { out := out + fwd; }
      assert out + "" == out;
      fwd := "";
    }

    method FilterLines(b: string)
      requires fwd == ""
      modifies this`fwd, this`pend, this`heldError, this`heldDone, this`lastSuppressed, this`usage, this`streamError, this`delivered, this`content, this`overflow, this`receipt
      ensures View() == Feed(Step(cfg), old(View()), b)
    {
      ghost var fed := Feed(Step(cfg), View(), b);
      var data := pend + b;
      pend := "";
      while true
        invariant pend == "" && Pump(Step(cfg), View(), data) == fed
        decreases |data|
      {
        var i := NewlineAt(data);
        if i == |data| {
          pend := data;
          break;
        }
        ghost var st := View();
        ProcessLine(data[..i + 1]);
        assert View() == Step(cfg)(st, data[..i + 1]);
        data := data[i + 1..];
      }
    }

    /** The stream ended in an interruption that could not be resumed. */
    method FlushHeld()
      requires fwd == ""
      modifies this`out, this`pend, this`heldError
      ensures View() == Flushed(old(View()))
    {
      var tail := "";
      if |pend| > 0 {
        tail := tail + pend + "\n";
        pend := "";
      }
      if |heldError| > 0 {
        tail := tail + heldError + "\n";
        heldError := "";
      }
      ghost var err := if old(heldError) == "" then "" else old(heldError) + "\n";
      assert tail == Tail(old(View())) + err;
      EndAppended(out, Tail(old(View())), err);
      tail := tail + DONE + "\n\n";
      out := out + tail;
    }

    /** The stream ended without interruption. */
    method FinishClean()
      requires fwd == ""
      modifies this`out, this`pend
      ensures View() == Cleanly(old(View()))
    {
      var tail := "";
      if |pend| > 0 {
        tail := tail + pend + "\n";
        pend := "";
      }
      assert tail == Tail(old(View())) + "";
      EndAppended(out, tail, "");
      tail := tail + DONE + "\n\n";
      out := out + tail;
    }
  }

  function Fresh(out: string, content: string): Sse { Sse(out, "", "", false, false, None, "", 0, content, false, None) }

  // ---- Chunk independence ----

  lemma {:induction false} NewlineInPrefix(a: string, b: string)
    ensures NewlineAt(a) < |a| ==> NewlineAt(a + b) == NewlineAt(a)
  {
    var i := NewlineAt(a);
    if i < |a| {
      assert (a + b)[i] == '\n';
      assert forall j | 0 <= j < i :: (a + b)[j] == a[j];
    }
  }

  ghost predicate KeepsPend(step: LineStep) { forall st, line :: step(st, line).pend == st.pend }

  lemma StepKeepsPend(cfg: Config)
    ensures KeepsPend(Step(cfg))
  {
    forall st, line ensures Step(cfg)(st, line).pend == st.pend { assert Step(cfg)(st, line) == Process(cfg, st, line); }
  }

  lemma {:induction false} PumpTwice(step: LineStep, st: Sse, a: string, b: string)
    requires KeepsPend(step) && st.pend == ""
    ensures Pump(step, st, a + b) == Feed(step, Pump(step, st, a), b)
    decreases |a|
  {
    var i := NewlineAt(a);
    if i < |a| {
      NewlineInPrefix(a, b);
      var line, rest := a[..i + 1], a[i + 1..];
      assert (a + b)[..i + 1] == line && (a + b)[i + 1..] == rest + b;
      PumpTwice(step, step(st, line), rest, b);
    } else {
      assert st.(pend := a).(pend := "") == st;
    }
  }

  lemma FeedTwice(step: LineStep, st: Sse, a: string, b: string)
    requires KeepsPend(step)
    ensures Feed(step, Feed(step, st, a), b) == Feed(step, st, a + b)
  {
    PumpTwice(step, st.(pend := ""), st.pend + a, b);
    assert st.pend + (a + b) == (st.pend + a) + b;
  }

  /** Any way of cutting the byte stream into writes sends the same bytes and ends in the same
      state: pending tail, held error, usage, delivered count, text, receipt. */
  lemma {:induction false} ChunkIndependence(cfg: Config, st: Sse, chunks: seq<string>)
    requires chunks != []
    ensures FeedAll(Step(cfg), st, chunks) == Feed(Step(cfg), st, Joined(chunks))
    decreases |chunks|
  {
    var n := |chunks| - 1;
    if n == 0 {
      assert chunks[..0] == [] && Joined(chunks) == "" + chunks[0] == chunks[0];
    } else {
      ChunkIndependence(cfg, st, chunks[..n]);
      StepKeepsPend(cfg);
      FeedTwice(Step(cfg), st, Joined(chunks[..n]), chunks[n]);
    }
  }

  /** The retained sample does not depend on the cut either. */
  lemma CaptureIndependence(buf: string, a: string, b: string, cap: nat)
    requires |buf| <= cap
    ensures Captured(Captured(buf, a, cap), b, cap) == Captured(buf, a + b, cap)
    ensures Captured(buf, a + b, cap) <= buf + a + b
  {
    assert buf + (a + b) == (buf + a) + b;
    if |buf| < cap && |buf| + |a| > cap { assert ((buf + a) + b)[..cap] == (buf + a)[..cap]; }
  }

  // ---- What a stream of single-line events becomes ----

  /** An event of one line and its blank terminator (which may hold spaces or a return). */
  datatype Event = Event(text: string, blank: string)

  ghost predicate WellFormed(e: Event) {
    && Trim(e.text + "\n") != "" && Trim(e.blank + "\n") == ""
    && NoNewline(e.text) && NoNewline(e.blank)
  }

  function Printed(events: seq<Event>): string {
    if events == [] then "" else events[0].text + "\n" + events[0].blank + "\n" + Printed(events[1..])
  }

  predicate Suppressed(cfg: Config, e: Event) {
    var trim := Trim(e.text + "\n");
    trim == DONE || ("data: " <= trim &&
      (if cfg.cl.receipt(trim[6..]).Some? then !cfg.forwardReceipt else cfg.cl.error(trim[6..]).Some?))
  }

  function Kept(cfg: Config, events: seq<Event>): seq<Event> {
    if events == [] then [] else (if Suppressed(cfg, events[0]) then [] else [events[0]]) + Kept(cfg, events[1..])
  }

  lemma {:induction false} PumpLine(step: LineStep, st: Sse, text: string, rest: string)
    requires NoNewline(text)
    ensures Pump(step, st, text + "\n" + rest) == Pump(step, step(st, text + "\n"), rest)
  {
    var data := text + "\n" + rest;
    NewlineAfter(text, rest);
    assert data[..|text| + 1] == text + "\n" && data[|text| + 1..] == rest;
  }

  lemma EventProcessed(cfg: Config, st: Sse, e: Event)
    requires WellFormed(e) && st.pend == "" && !st.lastSuppressed
    ensures var after := Process(cfg, Process(cfg, st, e.text + "\n"), e.blank + "\n");
      && after.pend == "" && !after.lastSuppressed
      && after.out == st.out + if Suppressed(cfg, e) then "" else e.text + "\n" + e.blank + "\n"
  {
    var line := e.text + "\n";
    var mid := Process(cfg, st, line);
    if Suppressed(cfg, e) {
      assert mid.lastSuppressed && mid.out == st.out;
      assert st.out + "" == st.out;
    } else {
      assert !mid.lastSuppressed && mid.out == st.out + line;
      assert st.out + line + (e.blank + "\n") == st.out + (e.text + "\n" + e.blank + "\n");
    }
  }

  lemma {:induction false} PumpEvent(cfg: Config, st: Sse, e: Event, rest: string)
    requires WellFormed(e)
    ensures var after := Process(cfg, Process(cfg, st, e.text + "\n"), e.blank + "\n");
      Pump(Step(cfg), st, e.text + "\n" + e.blank + "\n" + rest) == Pump(Step(cfg), after, rest)
  {
    var tail := e.blank + "\n" + rest;
    assert e.text + "\n" + e.blank + "\n" + rest == e.text + "\n" + tail;
    PumpLine(Step(cfg), st, e.text, tail);
    PumpLine(Step(cfg), Step(cfg)(st, e.text + "\n"), e.blank, rest);
  }

  lemma Together(a: string, b: string, c: string)
    ensures a + b + c == a + (b + c) && a + "" + c == a + c && a + "" == a
  {
  }

  lemma {:induction false} PumpRemovesEvents(cfg: Config, st: Sse, events: seq<Event>)
    requires st.pend == "" && !st.lastSuppressed && forall e | e in events :: WellFormed(e)
    ensures var after := Pump(Step(cfg), st, Printed(events));
      after.out == st.out + Printed(Kept(cfg, events)) && after.pend == "" && !after.lastSuppressed
    decreases |events|
  {
    if events == [] {
      assert st.out + "" == st.out;
    } else {
      var e, rest := events[0], events[1..];
      var after := Process(cfg, Process(cfg, st, e.text + "\n"), e.blank + "\n");
      PumpEvent(cfg, st, e, Printed(rest));
      EventProcessed(cfg, st, e);
      PumpRemovesEvents(cfg, after, rest);
      KeptFirst(cfg, e, rest);
      assert events == [e] + rest;
      Together(st.out, if Suppressed(cfg, e) then "" else e.text + "\n" + e.blank + "\n", Printed(Kept(cfg, rest)));
    }
  }

  /** The client receives the printed list with the suppressed events, terminators included,
      removed, and nothing else. */
  lemma {:induction false} FilterRemovesEvents(cfg: Config, st: Sse, events: seq<Event>)
    requires st.pend == "" && !st.lastSuppressed && forall e | e in events :: WellFormed(e)
    ensures var after := Feed(Step(cfg), st, Printed(events));
      after.out == st.out + Printed(Kept(cfg, events)) && after.pend == "" && !after.lastSuppressed
  {
    assert st.(pend := "") == st && st.pend + Printed(events) == Printed(events);
    PumpRemovesEvents(cfg, st, events);
  }

  lemma {:induction false} KeptFirst(cfg: Config, e: Event, rest: seq<Event>)
    ensures Printed(Kept(cfg, [e] + rest)) == (if Suppressed(cfg, e) then "" else e.text + "\n" + e.blank + "\n") + Printed(Kept(cfg, rest))
  {
    assert ([e] + rest)[1..] == rest;
    if Suppressed(cfg, e) {
      assert [] + Kept(cfg, rest) == Kept(cfg, rest);
    } else {
      assert ([e] + Kept(cfg, rest))[1..] == Kept(cfg, rest);
    }
  }

  // ---- Exactly one end marker ----

  /** Lines of a text that satisfy `p`; a last line without newline counts as a line. */
  function CountLines(p: string -> bool, s: string): nat
    decreases |s|
  {
    if s == "" then 0
    else
      var i := NewlineAt(s);
      var line := if i == |s| then s else s[..i + 1];
      (if p(line) then 1 else 0) + if i == |s| then 0 else CountLines(p, s[i + 1..])
  }

  function IsDone(): string -> bool { (line: string) => Trim(line) == DONE }

  function Markers(s: string): nat { CountLines(IsDone(), s) }

  ghost predicate WholeLines(s: string) { s == "" || s[|s| - 1] == '\n' }

  lemma {:induction false} CountConcat(p: string -> bool, a: string, b: string)
    requires WholeLines(a)
    ensures CountLines(p, a + b) == CountLines(p, a) + CountLines(p, b)
    decreases |a|
  {
    if a == "" {
      assert a + b == b;
    } else {
      var i := NewlineAt(a);
      assert i < |a| by { assert a[|a| - 1] == '\n'; }
      NewlineInPrefix(a, b);
      assert (a + b)[..i + 1] == a[..i + 1] && (a + b)[i + 1..] == a[i + 1..] + b;
      CountConcat(p, a[i + 1..], b);
    }
  }

  lemma MarkersConcat(a: string, b: string)
    requires WholeLines(a)
    ensures Markers(a + b) == Markers(a) + Markers(b)
    ensures WholeLines(b) ==> WholeLines(a + b)
  {
    CountConcat(IsDone(), a, b);
    if b == "" { assert a + b == a; } else { assert (a + b)[|a + b| - 1] == b[|b| - 1]; }
  }

  ghost predicate OneLine(s: string) { s != "" && NewlineAt(s) == |s| - 1 }

  /** What has been sent is whole lines without an end marker; so is the held error. */
  ghost predicate Unended(st: Sse) {
    && WholeLines(st.out) && Markers(st.out) == 0
    && (st.heldError != "" ==> OneLine(st.heldError) && Trim(st.heldError) != DONE)
    && NoNewline(st.pend)
  }

  lemma DataSends(cfg: Config, st: Sse, payload: string, line: string)
    ensures var after := DataLine(cfg, st, payload, line);
      && (after.out == st.out || after.out == st.out + line)
      && (after.heldError == st.heldError || after.heldError == line)
  {
  }

  lemma ProcessSends(cfg: Config, st: Sse, line: string)
    ensures var after := Process(cfg, st, line);
      && (after.out == st.out || (after.out == st.out + line && Trim(line) != DONE))
      && (after.heldError == st.heldError || (after.heldError == line && Trim(line) != DONE))
  {
    var trim := Trim(line);
    if trim != "" && trim != DONE && "data: " <= trim { DataSends(cfg, st, trim[6..], line); }
  }

  lemma LineMarkers(line: string)
    requires OneLine(line)
    ensures Markers(line) == if Trim(line) == DONE then 1 else 0
  {
    assert line[..|line|] == line && line[|line|..] == "";
    assert CountLines(IsDone(), "") == 0 && IsDone()(line) == (Trim(line) == DONE);
  }

  lemma ProcessKeepsUnended(cfg: Config, st: Sse, line: string)
    requires Unended(st) && OneLine(line)
    ensures Unended(Step(cfg)(st, line))
  {
    ProcessSends(cfg, st, line);
    MarkersConcat(st.out, line);
    LineMarkers(line);
  }

  lemma {:induction false} CutLine(data: string)
    requires NewlineAt(data) < |data|
    ensures OneLine(data[..NewlineAt(data) + 1])
  {
    var i := NewlineAt(data);
    var line := data[..i + 1];
    assert line[i] == '\n';
    assert forall j | 0 <= j < i :: line[j] == data[j];
  }

  lemma {:induction false} PumpKeepsUnended(cfg: Config, st: Sse, data: string)
    requires Unended(st)
    ensures Unended(Pump(Step(cfg), st, data))
    decreases |data|
  {
    var i := NewlineAt(data);
    if i < |data| {
      CutLine(data);
      ProcessKeepsUnended(cfg, st, data[..i + 1]);
      PumpKeepsUnended(cfg, Step(cfg)(st, data[..i + 1]), data[i + 1..]);
    }
  }

  /** However a stream is fed, no end marker has been sent before the stream is ended. */
  lemma FeedKeepsUnended(cfg: Config, st: Sse, b: string)
    requires Unended(st)
    ensures Unended(Feed(Step(cfg), st, b))
  {
    PumpKeepsUnended(cfg, st.(pend := ""), st.pend + b);
  }

  lemma NewlineTrims()
    ensures Trim("\n") == "" && OneLine("\n")
  {
    NewlineAfter("", "");
    assert "" + "\n" == "\n" && "\n"[..0] == "";
    assert TrimRight("\n") == TrimRight("\n"[..0]);
  }

  lemma NewlineAlone()
    ensures Trim("\n") == "" && Markers("\n") == 0 && OneLine("\n")
  {
    NewlineTrims();
    LineMarkers("\n");
  }

  lemma DoneIsAMarker()
    ensures Markers(DONE + "\n\n") == 1
  {
    var line := DONE + "\n";
    NewlineAfter(DONE, "\n");
    NewlineAlone();
    assert DONE + "\n" + "\n" == DONE + "\n\n";
    assert (DONE + "\n\n")[..|DONE| + 1] == line && (DONE + "\n\n")[|DONE| + 1..] == "\n";
    assert TrimRight(line) == TrimRight(line[..|DONE|]) && line[..|DONE|] == DONE;
    assert TrimRight(DONE) == DONE && TrimLeft(DONE) == DONE;
  }

  lemma TailMarkers(st: Sse)
    requires Unended(st)
    ensures WholeLines(Tail(st)) && Markers(Tail(st)) == if Trim(st.pend + "\n") == DONE then 1 else 0
  {
    if st.pend == "" {
      assert st.pend + "\n" == "\n";
      NewlineAlone();
    } else {
      NewlineAfter(st.pend, "");
      LineMarkers(st.pend + "\n");
    }
  }

  lemma HeldMarkers(st: Sse)
    requires Unended(st)
    ensures var err := if st.heldError == "" then "" else st.heldError + "\n"; WholeLines(err) && Markers(err) == 0
  {
    if st.heldError != "" {
      LineMarkers(st.heldError);
      NewlineAlone();
      MarkersConcat(st.heldError, "\n");
    }
  }

  lemma MarkerAppended(sent: string)
    requires WholeLines(sent)
    ensures Markers(sent + DONE + "\n\n") == Markers(sent) + 1
    ensures var all := sent + DONE + "\n\n"; sent <= all && all[|all| - |DONE| - 2..] == DONE + "\n\n"
  {
    DoneIsAMarker();
    MarkersConcat(sent, DONE + "\n\n");
    assert sent + (DONE + "\n\n") == sent + DONE + "\n\n";
  }

  lemma CleanlyMarked(st: Sse)
    requires Unended(st)
    ensures Markers(Cleanly(st).out) == 1 + Markers(Tail(st)) && EndsWithDone(Cleanly(st).out) && st.out <= Cleanly(st).out
  {
    TailMarkers(st);
    MarkersConcat(st.out, Tail(st));
    MarkerAppended(st.out + Tail(st));
  }

  lemma FlushedMarked(st: Sse)
    requires Unended(st)
    ensures Markers(Flushed(st).out) == 1 + Markers(Tail(st)) && EndsWithDone(Flushed(st).out) && st.out <= Flushed(st).out
  {
    var err := if st.heldError == "" then "" else st.heldError + "\n";
    TailMarkers(st);
    HeldMarkers(st);
    MarkersConcat(st.out, Tail(st));
    MarkersConcat(st.out + Tail(st), err);
    MarkerAppended(st.out + Tail(st) + err);
  }

  /** Both ways of ending a stream send the end marker last and, counting it, exactly once,
      unless a worker's reply broke off right behind its own end marker before the newline. */
  lemma ExactlyOneDone(st: Sse)
    requires Unended(st)
    ensures Markers(Cleanly(st).out) == 1 <==> Trim(st.pend + "\n") != DONE
    ensures Markers(Flushed(st).out) == 1 <==> Trim(st.pend + "\n") != DONE
    ensures EndsWithDone(Cleanly(st).out) && EndsWithDone(Flushed(st).out)
    ensures st.out <= Cleanly(st).out && st.out <= Flushed(st).out
  {
    TailMarkers(st);
    CleanlyMarked(st);
    FlushedMarked(st);
  }

  lemma NoLineYet(cfg: Config, st: Sse, s: string)
    requires st.pend == "" && NoNewline(s)
    ensures Feed(Step(cfg), st, s) == st.(pend := s)
  {
    assert NewlineAt(s) == |s| && st.pend + s == s;
  }

  /** The reply that breaks off there: a worker's last bytes are its marker without the newline,
      the stream ends, and the client gets two. */
  lemma DoneTwice(cfg: Config)
    ensures Markers(Cleanly(Feed(Step(cfg), Fresh("", ""), DONE)).out) == 2
  {
    var st := Fresh("", "").(pend := DONE);
    assert NoNewline(DONE);
    NoLineYet(cfg, Fresh("", ""), DONE);
    DoneTrims();
    FreshUnended();
    assert Unended(st);
    CleanlyMarked(st);
    TailMarkers(st);
  }

  lemma FreshUnended()
    ensures WholeLines("") && Markers("") == 0
  {
  }

  lemma DoneTrims()
    ensures Trim(DONE + "\n") == DONE
  {
    var line := DONE + "\n";
    assert TrimRight(line) == TrimRight(line[..|DONE|]) && line[..|DONE|] == DONE;
    assert TrimRight(DONE) == DONE && TrimLeft(DONE) == DONE;
  }

  predicate EndsWithDone(s: string) { |s| >= |DONE| + 2 && s[|s| - |DONE| - 2..] == DONE + "\n\n" }
}
