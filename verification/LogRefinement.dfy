/** The settlement engine reads the log as one stream by position; this is what the rotating
    files, the scanner and its cursors implement. */
module LogRefinement {
  import opened Orders
  import opened Billing
  import opened RequestLog
  import opened Scanner
  import opened Settlement

  /** The files hold the end of the engine's log, and the cursor stands at its position. */
  ghost predicate Implements(st: LogState, dropped: seq<Line>, c: Cursor, k: nat, n: nat, log: seq<Line>, pos: nat) {
    && WellFormed(st.dir, st.top) && Denotes(st.dir, c, k, n)
    && log == dropped + Lines(st.dir, st.top)
    && pos == |log| - |Rest(st.dir, st.top, k, n)|
  }

  lemma RestIsSuffix(dir: Dir, top: nat, k: nat, n: nat) returns (before: seq<Line>)
    requires WellFormed(dir, top) && k <= top && n <= |dir[k].lines|
    ensures Lines(dir, top) == before + Rest(dir, top, k, n)
  {
    var older := ChainPrefix(dir, top, k);
    before := older + dir[k].lines[..n];
    var rest := Rest(dir, top, k, n);
    assert dir[k].lines == dir[k].lines[..n] + dir[k].lines[n..];
    assert RequestLog.Chain(dir, k) == dir[k].lines[..n] + rest;
  }

  /** The scanner's peek over main and backups is the engine's unread stretch of the stream,
      and committing its new cursor moves the engine's position to the end of the stream. */
  lemma PeekIsUnread(st: LogState, dropped: seq<Line>, c: Cursor, k: nat, n: nat, s: Settlement.State)
    requires Implements(st, dropped, c, k, n, s.log, s.cursor)
    ensures PeekOf(st.dir, c).records == Unread(s)
    ensures Implements(st, dropped, PeekOf(st.dir, c).next, 0, |st.dir[0].lines|, s.log, |s.log|)
  {
    var before := RestIsSuffix(st.dir, st.top, k, n);
    var rest := Rest(st.dir, st.top, k, n);
    assert s.log == (dropped + before) + rest;
    assert s.log[s.cursor..] == rest;
    PeekRefines(st.dir, st.top, c, k, n);
  }

  /** Logging keeps the correspondence, at the same position, as long as the retained backups
      still hold the cursor's file. */
  lemma LogKeepsPosition(st: LogState, backups: nat, maxSize: int, l: Line, dropped: seq<Line>, c: Cursor, k: nat, n: nat, log: seq<Line>,
                         pos: nat)
    returns (at: nat, nowDropped: seq<Line>)
    requires backups >= 1 && SoundState(st, backups) && l.bytes > 0 && Implements(st, dropped, c, k, n, log, pos)
    requires Rotates(st, maxSize, l) ==> k < backups
    ensures Implements(Next(st, backups, maxSize, l), nowDropped, c, at, n, log + [l], pos)
    ensures at == (if Rotates(st, maxSize, l) then k + 1 else k) && nowDropped == dropped + Lost(st.dir, backups, maxSize, l)
  {
    at := if Rotates(st, maxSize, l) then k + 1 else k;
    nowDropped := dropped + Lost(st.dir, backups, maxSize, l);
    var _ := CursorStep(st, backups, maxSize, l, c, k, n);
    LogKeepsOrder(st.dir, st.top, backups, maxSize, l, st.inode);
    var after := Next(st, backups, maxSize, l);
    Reassociate(dropped, Lost(st.dir, backups, maxSize, l), Lines(st.dir, st.top), Lines(after.dir, after.top), [l]);
  }

  // ---- Whole runs of the writer and the scanner ----

  /** What the two processes do: log a line, read everything unread, commit what was read. */
  datatype Op = Append(line: Line) | Peek | Commit

  ghost function StateOf(logger: RequestLogger): LogState
    reads logger
  {
    LogState(logger.dir, logger.top, logger.nextInode)
  }

  /** Where the saved cursor's file is, and the file of a cursor that was read but not committed. */
  datatype Places = Places(saved: nat, held: Option<nat>)

  function Moved(at: Places, rotates: bool): Places {
    if !rotates then at
    else Places(at.saved + 1, match at.held case Some(k) => Some(k + 1) case None => None)
  }

  /** The retained backups hold the files of both cursors at every rotation. */
  ghost predicate Retained(st: LogState, backups: nat, maxSize: int, at: Places, ops: seq<Op>)
    requires 0 in st.dir && backups >= 1
    decreases |ops|
  {
    if ops == [] then true
    else match ops[0]
      case Append(l) =>
        && l.bytes > 0 && (Rotates(st, maxSize, l) ==> at.saved < backups && (at.held.Some? ==> at.held.value < backups))
        && Retained(Next(st, backups, maxSize, l), backups, maxSize, Moved(at, Rotates(st, maxSize, l)), ops[1..])
      case Peek => Retained(st, backups, maxSize, Places(at.saved, Some(0)), ops[1..])
      case Commit => Retained(st, backups, maxSize, if at.held.Some? then Places(at.held.value, None) else at, ops[1..])
  }

  /** The engine's view: its log, its cursor, and the end of what was read but not committed. */
  datatype Progress = Progress(log: seq<Line>, cursor: nat, held: Option<nat>)

  function Advance(p: Progress, ops: seq<Op>): Progress
    decreases |ops|
  {
    if ops == [] then p
    else match ops[0]
      case Append(l) => Advance(p.(log := p.log + [l]), ops[1..])
      case Peek => Advance(p.(held := Some(|p.log|)), ops[1..])
      case Commit => Advance(if p.held.Some? then Progress(p.log, p.held.value, None) else p, ops[1..])
  }

  /** A cursor, standing after `n` lines of file `k`, is at position `pos` of the log. */
  ghost predicate Stands(logger: RequestLogger, log: seq<Line>, c: Cursor, k: nat, n: nat, pos: nat)
    reads logger
  {
    logger.Valid() && Implements(StateOf(logger), logger.dropped, c, k, n, log, pos)
  }

  /** Committed so far: the billable part from `from` to the cursor; fetched: that up to the
      held position. */
  ghost predicate Accounted(p: Progress, from: nat, records: seq<Record>, fetched: seq<Record>) {
    && from <= p.cursor <= |p.log| && records == BillableOf(p.log[from..p.cursor])
    && (p.held.Some? ==> p.cursor <= p.held.value <= |p.log| && fetched == BillableOf(p.log[p.cursor..p.held.value]))
  }

  lemma AccountedGrows(p: Progress, from: nat, records: seq<Record>, fetched: seq<Record>, l: Line)
    requires Accounted(p, from, records, fetched)
    ensures Accounted(p.(log := p.log + [l]), from, records, fetched)
  {
    assert (p.log + [l])[from..p.cursor] == p.log[from..p.cursor];
    if p.held.Some? { assert (p.log + [l])[p.cursor..p.held.value] == p.log[p.cursor..p.held.value]; }
  }

  lemma AccountedCommit(p: Progress, from: nat, records: seq<Record>, fetched: seq<Record>)
    requires Accounted(p, from, records, fetched) && p.held.Some?
    ensures Accounted(Progress(p.log, p.held.value, None), from, records + fetched, [])
  {
    var log, mid, to := p.log, p.cursor, p.held.value;
    BillableConcat(log[from..mid], log[mid..to]);
    assert log[from..mid] + log[mid..to] == log[from..to];
  }

  /** The files and line counts at which the two cursors stand. */
  datatype Spots = Spots(k: nat, n: nat, hk: nat, hn: nat)

  ghost predicate Located(logger: RequestLogger, saved: Cursor, held: Option<Cursor>, g: Spots, p: Progress)
    reads logger
  {
    && Stands(logger, p.log, saved, g.k, g.n, p.cursor) && (held.Some? <==> p.held.Some?)
    && (held.Some? ==> Stands(logger, p.log, held.value, g.hk, g.hn, p.held.value))
  }

  function PlacesOf(g: Spots, p: Progress): Places { Places(g.k, if p.held.Some? then Some(g.hk) else None) }

  lemma LineKeeps(logger: RequestLogger, l: Line, log: seq<Line>, c: Cursor, k: nat, n: nat, pos: nat)
    requires Stands(logger, log, c, k, n, pos) && l.bytes > 0
    requires Rotates(StateOf(logger), logger.maxSize, l) ==> k < Backups(logger.maxBackups)
    ensures var st, backups := StateOf(logger), Backups(logger.maxBackups);
      Implements(Next(st, backups, logger.maxSize, l), logger.dropped + Lost(st.dir, backups, logger.maxSize, l), c,
                 if Rotates(st, logger.maxSize, l) then k + 1 else k, n, log + [l], pos)
  {
    var _, _ := LogKeepsPosition(StateOf(logger), Backups(logger.maxBackups), logger.maxSize, l, logger.dropped, c, k, n, log, pos);
  }

  /** One logged line, and where it leaves the two cursors. */
  method Grow(logger: RequestLogger, l: Line, ghost saved: Cursor, ghost held: Option<Cursor>, ghost g: Spots, ghost p: Progress)
    returns (ghost after: Spots)
    requires Located(logger, saved, held, g, p) && l.bytes > 0
    requires Rotates(StateOf(logger), logger.maxSize, l) ==>
      g.k < Backups(logger.maxBackups) && (held.Some? ==> g.hk < Backups(logger.maxBackups))
    modifies logger
    ensures StateOf(logger) == old(Next(StateOf(logger), Backups(logger.maxBackups), logger.maxSize, l))
    ensures Located(logger, saved, held, after, p.(log := p.log + [l]))
    ensures PlacesOf(after, p) == Moved(PlacesOf(g, p), old(Rotates(StateOf(logger), logger.maxSize, l)))
  {
    ghost var step := if Rotates(StateOf(logger), logger.maxSize, l) then 1 else 0;
    LineKeeps(logger, l, p.log, saved, g.k, g.n, p.cursor);
    if held.Some? { LineKeeps(logger, l, p.log, held.value, g.hk, g.hn, p.held.value); }
    after := Spots(g.k + step, g.n, g.hk + step, g.hn);
    logger.Log(l);
  }

  /** One reading of everything unread. */
  method Take(logger: RequestLogger, scanner: LogScanner, ghost held: Option<Cursor>, ghost g: Spots, ghost p: Progress,
              ghost from: nat, ghost records: seq<Record>, ghost before: seq<Record>)
    returns (fetched: seq<Record>, next: Cursor, ghost after: Spots)
    requires Located(logger, scanner.Loaded(), held, g, p) && Accounted(p, from, records, before)
    ensures var q := p.(held := Some(|p.log|));
      && Located(logger, scanner.Loaded(), Some(next), after, q) && Accounted(q, from, records, fetched)
      && PlacesOf(after, q) == Places(g.k, Some(0))
  {
    var oldCursor;
    fetched, oldCursor, next := scanner.Peek(logger.dir);
    PeekIsUnread(StateOf(logger), logger.dropped, scanner.Loaded(), g.k, g.n, Initial().(log := p.log, cursor := p.cursor));
    after := Spots(g.k, g.n, 0, |logger.dir[0].lines|);
    assert p.log[p.cursor..] == p.log[p.cursor..|p.log|];
  }

  /** The logger and the scanner themselves, over any run within the retention, lines arriving
      between reading and committing included: what is committed is exactly the billable part of
      what was logged between the two positions, in order, each once. */
  method Drive(logger: RequestLogger, scanner: LogScanner, ops: seq<Op>, ghost k: nat, ghost n: nat, ghost log: seq<Line>, ghost pos: nat)
    returns (records: seq<Record>, ghost p: Progress, ghost g: Spots)
    requires Stands(logger, log, scanner.Loaded(), k, n, pos)
    requires Retained(StateOf(logger), Backups(logger.maxBackups), logger.maxSize, Places(k, None), ops)
    modifies logger, scanner
    ensures p == Advance(Progress(log, pos, None), ops) && Stands(logger, p.log, scanner.Loaded(), g.k, g.n, p.cursor)
    ensures p.log == logger.stream && pos <= p.cursor <= |p.log| && records == BillableOf(p.log[pos..p.cursor])
  {
    records, p, g := [], Progress(log, pos, None), Spots(k, n, 0, 0);
    var held: Option<Cursor>, fetched: seq<Record> := None, [];
    assert log[pos..pos] == [] && ops[0..] == ops;
    for i := 0 to |ops|
      invariant Located(logger, scanner.Loaded(), held, g, p) && Accounted(p, pos, records, fetched)
      invariant Retained(StateOf(logger), Backups(logger.maxBackups), logger.maxSize, PlacesOf(g, p), ops[i..])
      invariant Advance(p, ops[i..]) == Advance(Progress(log, pos, None), ops)
    {
      assert ops[i..][1..] == ops[i + 1..] && ops[i..][0] == ops[i];
      match ops[i] {
        case Append(l) =>
          AccountedGrows(p, pos, records, fetched, l);
          g := Grow(logger, l, scanner.Loaded(), held, g, p);
          p := p.(log := p.log + [l]);
        case Peek =>
          var next;
          fetched, next, g := Take(logger, scanner, held, g, p, pos, records, fetched);
          held, p := Some(next), p.(held := Some(|p.log|));
        case Commit =>
          if held.Some? {
            AccountedCommit(p, pos, records, fetched);
            scanner.CommitCursor(held.value);
            records, fetched, held := records + fetched, [], None;
            g, p := Spots(g.hk, g.hn, 0, 0), Progress(p.log, p.held.value, None);
          }
      }
    }
  }

  // ---- Beyond the retention, and before the first cursor ----

  /** With one backup and a rotation at every line. */
  lemma LoggedAlone(dir: Dir, main: File, l: Line, inode: nat)
    requires 0 in dir && dir[0] == main && (forall k | k in dir :: k <= 1) && l.bytes > 0
    ensures Logged(dir, 1, 1, l, inode) == map[0 := File(inode, []), 1 := File(main.inode, main.lines + [l])]
  {
    var after := Appended(dir, l);
    SizeAppend(main.lines, l);
    SizeMonotone(main.lines, 0);
    var rotated := Rotated(after, 1, inode);
    forall k ensures At(rotated, k) ==
      if k == 0 then Some(File(inode, [])) else if k == 1 then Some(File(main.inode, main.lines + [l])) else None
    {
      RotatedAt(after, 1, inode, k);
    }
    assert forall k :: k in rotated <==> k == 0 || k == 1;
  }

  lemma OneLine(l: Line)
    requires BillableLine(l)
    ensures BillableOf([l]) == [l.rec.value] && BillableOf([]) == []
  {
    assert [l][..0] == [] && BillableOf([l]) == [] + [l.rec.value];
  }

  // A logger with one backup that rotates at every line, from its start.

  const EMPTY_LOG: Dir := map[0 := File(1, [])]

  function LoggedOne(l: Line): Dir { Logged(EMPTY_LOG, 1, 1, l, 2) }

  function LoggedTwo(l: Line, m: Line): Dir
    requires 0 in LoggedOne(l)
  {
    Logged(LoggedOne(l), 1, 1, m, 3)
  }

  lemma {:induction false} TwoLogged(l: Line, m: Line)
    requires l.bytes > 0 && m.bytes > 0
    ensures LoggedOne(l) == map[0 := File(2, []), 1 := File(1, [l])]
    ensures LoggedTwo(l, m) == map[0 := File(3, []), 1 := File(2, [m])]
  {
    LoggedAlone(EMPTY_LOG, File(1, []), l, 2);
    LoggedAlone(LoggedOne(l), File(2, []), m, 3);
    assert [] + [l] == [l] && [] + [m] == [m];
  }

  lemma {:induction false} OnlyTheLast(l: Line, m: Line)
    requires BillableLine(l) && BillableLine(m)
    ensures BillableOf([l, m]) == [l.rec.value, m.rec.value]
    ensures PeekOf(map[0 := File(3, []), 1 := File(2, [m])], Cursor(0, 1)).records == [m.rec.value]
  {
    var dir: Dir := map[0 := File(3, []), 1 := File(2, [m])];
    OneLine(l);
    OneLine(m);
    NoSuchBackup(dir, 1, 1);
    assert [l, m][..1] == [l] && BillableOf([l, m]) == BillableOf([l]) + [m.rec.value];
  }

  /** Past the retention a billable record is lost: the scanner reads and commits, two lines are
      logged, each rotating, and the next reading returns the second only. */
  lemma {:induction false} OverrunLosesRecord(l: Line, m: Line)
    requires BillableLine(l) && BillableLine(m)
    ensures 0 in LoggedOne(l) && BillableOf([l, m]) == [l.rec.value, m.rec.value]
    ensures var committed := PeekOf(EMPTY_LOG, Cursor(0, 0)).next; PeekOf(LoggedTwo(l, m), committed).records == [m.rec.value]
  {
    TwoLogged(l, m);
    OnlyTheLast(l, m);
  }

  /** A first reading after a rotation misses what is already in a backup. */
  lemma {:induction false} FirstRunMissesBackup(l: Line)
    requires BillableLine(l)
    ensures BillableOf([l]) == [l.rec.value] && PeekOf(LoggedOne(l), Cursor(0, 0)).records == []
  {
    TwoLogged(l, l);
    OneLine(l);
  }

  lemma RotatesAtOnce(dir: Dir, l: Line, inode: nat)
    requires 0 in dir && l.bytes > 0
    ensures InodeAfter(dir, 1, l, inode) == inode + 1
  {
    SizeAppend(dir[0].lines, l);
    SizeMonotone(dir[0].lines, 0);
  }

  /** A scanner that has read and committed what is there. */
  method CaughtUp(dir: Dir) returns (scanner: LogScanner)
    ensures fresh(scanner) && scanner.Loaded() == PeekOf(dir, Cursor(0, 0)).next
  {
    scanner := new LogScanner();
    var records, cursor, next := scanner.Peek(dir);
    scanner.CommitCursor(next);
  }

  method FirstReading(dir: Dir) returns (records: seq<Record>)
    ensures records == PeekOf(dir, Cursor(0, 0)).records
  {
    var scanner := new LogScanner();
    var cursor, next;
    records, cursor, next := scanner.Peek(dir);
  }

  /** Both on the objects: what the scanner returns is that reading of what the logger leaves. */
  method RunBoth(l: Line, m: Line) returns (late: seq<Record>, first: seq<Record>)
    requires BillableLine(l) && BillableLine(m)
    ensures 0 in LoggedOne(l) && first == PeekOf(LoggedOne(l), Cursor(0, 0)).records
    ensures late == PeekOf(LoggedTwo(l, m), PeekOf(EMPTY_LOG, Cursor(0, 0)).next).records
  {
    TwoLogged(l, m);
    var logger := new RequestLogger(1, 1);
    var early := CaughtUp(logger.dir);
    RotatesAtOnce(logger.dir, l, 2);
    logger.Log(l);
    first := FirstReading(logger.dir);
    logger.Log(m);
    var cursor, next;
    late, cursor, next := early.Peek(logger.dir);
  }
}
