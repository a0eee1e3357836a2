/** The settlement scanner: reads the billable records after a saved cursor, across any
    rotations that happened since, without advancing the cursor. */
module Scanner {
  import opened Orders
  import opened Billing
  import opened RequestLog

  datatype Peeked = Peeked(records: seq<Record>, next: Cursor)

  // ---- Specification of one peek ----

  function Scan(f: File, offset: nat): seq<Record> { BillableOf(From(f.lines, offset)) }

  function EndOf(f: File, offset: nat): nat { if offset > Size(f.lines) then offset else Size(f.lines) }

  ghost function KeysFrom(dir: Dir, i: nat): set<nat> { set k | k in dir && k >= i }

  lemma KeysShrink(dir: Dir, i: nat)
    requires i in dir
    ensures KeysFrom(dir, i + 1) < KeysFrom(dir, i)
  {
    assert i in KeysFrom(dir, i) && i !in KeysFrom(dir, i + 1);
  }

  predicate AllPresent(dir: Dir, from: nat, to: nat) { forall j: nat | from <= j <= to :: j in dir }

  /** The first numbered backup from `i` on that is the cursor's file; a missing number ends
      the search. */
  function FindBackup(dir: Dir, inode: nat, i: nat): (found: Option<nat>)
    ensures found.Some? ==> i <= found.value && AllPresent(dir, i, found.value) && dir[found.value].inode == inode
    decreases KeysFrom(dir, i)
  {
    if i !in dir then None
    else if dir[i].inode == inode then Some(i)
    else (KeysShrink(dir, i); FindBackup(dir, inode, i + 1))
  }

  /** Backups j, j-1, ..., 1 in chronological order. */
  function NewerRecords(dir: Dir, j: nat): seq<Record>
    requires AllPresent(dir, 1, j)
  {
    if j == 0 then [] else Scan(dir[j], 0) + NewerRecords(dir, j - 1)
  }

  predicate RotatedSince(dir: Dir, c: Cursor)
    requires 0 in dir
  {
    (c.inode != 0 && dir[0].inode != c.inode) || (c.offset > 0 && Size(dir[0].lines) < c.offset)
  }

  /** Best effort when the cursor's file is not among the backups: the newest backup only. */
  function NewestBackup(dir: Dir, c: Cursor): seq<Record> {
    if 1 in dir then Scan(dir[1], if c.inode == 0 || dir[1].inode == c.inode then c.offset else 0) else []
  }

  function Drained(dir: Dir, c: Cursor): seq<Record> {
    var found := if c.inode == 0 then None else FindBackup(dir, c.inode, 1);
    match found
    case Some(i) =>
      Scan(dir[i], c.offset) + NewerRecords(dir, i - 1)
    case None => NewestBackup(dir, c)
  }

  function PeekOf(dir: Dir, c: Cursor): Peeked {
    if 0 !in dir then Peeked(if 1 in dir then Scan(dir[1], c.offset) else [], c)
    else if RotatedSince(dir, c) then Peeked(Drained(dir, c) + Scan(dir[0], 0), Cursor(Size(dir[0].lines), dir[0].inode))
    else Peeked(Scan(dir[0], c.offset), Cursor(EndOf(dir[0], c.offset), dir[0].inode))
  }

  // ---- The code ----

  class LogScanner {
    var saved: Option<Cursor>     // the cursor file

    constructor ()
      ensures saved.None?
    {
      saved := None;
    }

    function Loaded(): Cursor
      reads this
    {
      match saved case Some(c) => c case None => Cursor(0, 0)
    }

    /** What is billed: a complete answer with tokens, of a named wallet, that did not fail on
        the server's side. */
    method ScanFrom(f: File, startOffset: nat) returns (records: seq<Record>, end: nat)
      ensures records == Scan(f, startOffset) && end == EndOf(f, startOffset)
      ensures forall r | r in records :: r.status == 200 && r.total > 0 && r.wallet != "" && r.errorReason == ""
      ensures forall l | l in From(f.lines, startOffset) && l.bytes > 0 && l.rec.Some? ::
        (var r := l.rec.value; r.status == 200 && r.total > 0 && r.wallet != "" && r.errorReason == "") ==> l.rec.value in records
    {
      var lines := From(f.lines, startOffset);
      records := [];
      for i := 0 to |lines|
        invariant records == BillableOf(lines[..i])
        invariant forall r | r in records :: r.status == 200 && r.total > 0 && r.wallet != "" && r.errorReason == ""
        invariant forall j | 0 <= j < i && lines[j].bytes > 0 && lines[j].rec.Some? :: Billable(lines[j].rec.value) ==> lines[j].rec.value in records
      {
        assert lines[..i + 1][..i] == lines[..i];
        if lines[i].bytes == 0 { continue; }
        if lines[i].rec.None? { continue; }
        var rec := lines[i].rec.value;
        if !(rec.status == 200 && rec.total > 0 && rec.wallet != "" && rec.errorReason == "") { continue; }
        records := records + [rec];
      }
      assert lines[..|lines|] == lines;
      end := if startOffset > Size(f.lines) then startOffset else Size(f.lines);
    }

    /** Looks for the cursor's file among ".1", ".2", ... until a number is missing. */
    method FindCursorFile(dir: Dir, inode: nat) returns (found: Option<nat>)
      ensures found == FindBackup(dir, inode, 1)
    {
      var i: nat := 1;
      while i in dir
        invariant i >= 1 && FindBackup(dir, inode, i) == FindBackup(dir, inode, 1)
        decreases KeysFrom(dir, i)
      {
        if dir[i].inode == inode { return Some(i); }
        KeysShrink(dir, i);
        i := i + 1;
      }
      return None;
    }

    method DrainNewer(dir: Dir, i: nat) returns (records: seq<Record>)
      requires AllPresent(dir, 1, i)
      ensures records == NewerRecords(dir, i)
    {
      records := [];
      var j := i;
      while j >= 1
        invariant 0 <= j <= i && records + NewerRecords(dir, j) == NewerRecords(dir, i)
      {
        var recs, _ := ScanFrom(dir[j], 0);
        records := records + recs;
        j := j - 1;
      }
    }

    method Drain(dir: Dir, c: Cursor) returns (records: seq<Record>)
      ensures records == Drained(dir, c)
    {
      if c.inode != 0 {
        var found := FindCursorFile(dir, c.inode);
        if found.Some? {
          var i := found.value;
          var tail, _ := ScanFrom(dir[i], c.offset);
          var newer := DrainNewer(dir, i - 1);
          return tail + newer;
        }
      }
      if 1 !in dir { return []; }
      var startAt := 0;
      if c.inode == 0 || dir[1].inode == c.inode { startAt := c.offset; }
      var tail, _ := ScanFrom(dir[1], startAt);
      return tail;
    }

    /** Reads without advancing: only CommitCursor moves the saved cursor. */
    method Peek(dir: Dir) returns (records: seq<Record>, oldCursor: Cursor, newCursor: Cursor)
      ensures oldCursor == Loaded() && Peeked(records, newCursor) == PeekOf(dir, Loaded())
    {
      oldCursor := match saved case Some(c) => c case None => Cursor(0, 0);
      if 0 !in dir {
        if 1 in dir {
          var tail, _ := ScanFrom(dir[1], oldCursor.offset);
          return tail, oldCursor, oldCursor;
        }
        return [], oldCursor, oldCursor;
      }
      var main := dir[0];
      var rotated := (oldCursor.inode != 0 && main.inode != oldCursor.inode)
                     || (oldCursor.offset > 0 && Size(main.lines) < oldCursor.offset);
      if rotated {
        var drained := Drain(dir, oldCursor);
        var newRecs, end := ScanFrom(main, 0);
        return drained + newRecs, oldCursor, Cursor(end, main.inode);
      }
      var recs, end := ScanFrom(main, oldCursor.offset);
      return recs, oldCursor, Cursor(end, main.inode);
    }

    method CommitCursor(c: Cursor)
      modifies this
      ensures saved == Some(c)
    {
      saved := Some(c);
    }
  }

  // ---- What a cursor denotes ----

  /** The cursor stands after the first `n` lines of file `k`. */
  ghost predicate Denotes(dir: Dir, c: Cursor, k: nat, n: nat) {
    k in dir && dir[k].inode == c.inode && n <= |dir[k].lines| && c.offset == Size(dir[k].lines[..n])
  }

  /** The part of the stream after that point. */
  ghost function Rest(dir: Dir, top: nat, k: nat, n: nat): seq<Line>
    requires WellFormed(dir, top) && k <= top && n <= |dir[k].lines|
  {
    dir[k].lines[n..] + Chain(dir, k - 1)
  }

  lemma {:induction false} FindsItsFile(dir: Dir, inode: nat, i: nat, k: nat)
    requires i <= k && AllPresent(dir, i, k) && dir[k].inode == inode
    requires forall j: nat | i <= j < k :: dir[j].inode != inode
    ensures FindBackup(dir, inode, i) == Some(k)
    decreases k - i
  {
    if i < k { FindsItsFile(dir, inode, i + 1, k); }
  }

  lemma {:induction false} NoSuchBackup(dir: Dir, inode: nat, i: nat)
    requires forall k | k in dir :: dir[k].inode != inode
    ensures FindBackup(dir, inode, i) == None
    decreases KeysFrom(dir, i)
  {
    if i in dir {
      KeysShrink(dir, i);
      NoSuchBackup(dir, inode, i + 1);
    }
  }

  lemma {:induction false} NewerAreTheChain(dir: Dir, j: nat)
    requires AllPresent(dir, 0, j)
    ensures NewerRecords(dir, j) + Scan(dir[0], 0) == BillableOf(Chain(dir, j))
  {
    if j > 0 {
      NewerAreTheChain(dir, j - 1);
      BillableConcat(dir[j].lines, Chain(dir, j - 1));
    } else {
      assert Chain(dir, 0) == dir[0].lines + Chain(dir, -1) == dir[0].lines;
    }
  }

  lemma Grouping<T>(a: seq<T>, b: seq<T>, c: seq<T>)
    ensures (a + b) + c == a + (b + c)
  {
  }

  lemma FirstThenRest<T>(a: seq<T>, b: seq<T>)
    requires b != []
    ensures a + b == (a + [b[0]]) + b[1..]
  {
  }

  lemma PeekUnrotated(dir: Dir, top: nat, c: Cursor, n: nat)
    requires WellFormed(dir, top) && Denotes(dir, c, 0, n)
    ensures PeekOf(dir, c) == Peeked(BillableOf(Rest(dir, top, 0, n)), Cursor(Size(dir[0].lines), dir[0].inode))
  {
    FromBoundary(dir[0].lines, n);
    SizeMonotone(dir[0].lines, n);
    assert dir[0].lines[n..] + Chain(dir, -1) == dir[0].lines[n..];
    assert !RotatedSince(dir, c);
    assert Scan(dir[0], c.offset) == BillableOf(dir[0].lines[n..]);
  }

  lemma {:induction false} FindsCursorFile(dir: Dir, top: nat, c: Cursor, k: nat, n: nat)
    requires WellFormed(dir, top) && k > 0 && Denotes(dir, c, k, n)
    ensures c.inode != 0 && dir[0].inode != c.inode && FindBackup(dir, c.inode, 1) == Some(k)
  {
    FindsItsFile(dir, c.inode, 1, k);
  }

  lemma PeekRotated(dir: Dir, top: nat, c: Cursor, k: nat, n: nat)
    requires WellFormed(dir, top) && k > 0 && Denotes(dir, c, k, n)
    ensures PeekOf(dir, c) == Peeked(BillableOf(Rest(dir, top, k, n)), Cursor(Size(dir[0].lines), dir[0].inode))
  {
    var tail, newer, main := Scan(dir[k], c.offset), NewerRecords(dir, k - 1), Scan(dir[0], 0);
    FindsCursorFile(dir, top, c, k, n);
    assert Drained(dir, c) == tail + newer;
    FromBoundary(dir[k].lines, n);
    NewerAreTheChain(dir, k - 1);
    BillableConcat(dir[k].lines[n..], Chain(dir, k - 1));
    Grouping(tail, newer, main);
  }

  /** A cursor whose file is still on disk: the peek returns exactly the billable records of
      the rest of the stream, in order, and its new cursor denotes the end of the stream. */
  lemma PeekRefines(dir: Dir, top: nat, c: Cursor, k: nat, n: nat)
    requires WellFormed(dir, top) && Denotes(dir, c, k, n)
    ensures PeekOf(dir, c).records == BillableOf(Rest(dir, top, k, n))
    ensures Denotes(dir, PeekOf(dir, c).next, 0, |dir[0].lines|) && Rest(dir, top, 0, |dir[0].lines|) == []
  {
    if k == 0 { PeekUnrotated(dir, top, c, n); } else { PeekRotated(dir, top, c, k, n); }
    assert dir[0].lines[..|dir[0].lines|] == dir[0].lines;
  }

  // ---- Runs of the writer ----

  datatype LogState = LogState(dir: Dir, top: nat, inode: nat)

  function Next(st: LogState, backups: nat, maxSize: int, l: Line): (after: LogState)
    requires 0 in st.dir && backups >= 1
    ensures 0 in after.dir
  {
    LogState(Logged(st.dir, backups, maxSize, l, st.inode), TopAfter(st.dir, st.top, backups, maxSize, l),
             InodeAfter(st.dir, maxSize, l, st.inode))
  }

  function Run(st: LogState, backups: nat, maxSize: int, lines: seq<Line>): (after: LogState)
    requires 0 in st.dir && backups >= 1
    ensures 0 in after.dir
    decreases |lines|
  {
    if lines == [] then st else Run(Next(st, backups, maxSize, lines[0]), backups, maxSize, lines[1..])
  }

  predicate Rotates(st: LogState, maxSize: int, l: Line)
    requires 0 in st.dir
  {
    Size(Appended(st.dir, l)[0].lines) >= maxSize
  }

  function Rotations(st: LogState, backups: nat, maxSize: int, lines: seq<Line>): nat
    requires 0 in st.dir && backups >= 1
    decreases |lines|
  {
    if lines == [] then 0
    else (if Rotates(st, maxSize, lines[0]) then 1 else 0) + Rotations(Next(st, backups, maxSize, lines[0]), backups, maxSize, lines[1..])
  }

  ghost predicate SoundState(st: LogState, backups: nat) { Sound(st.dir, st.top, backups, st.inode) }

  lemma AppendKeepsCursor(st: LogState, backups: nat, l: Line, c: Cursor, k: nat, n: nat)
    requires SoundState(st, backups) && Denotes(st.dir, c, k, n) && l.bytes > 0
    ensures WellFormed(Appended(st.dir, l), st.top) && Denotes(Appended(st.dir, l), c, k, n)
    ensures Rest(Appended(st.dir, l), st.top, k, n) == Rest(st.dir, st.top, k, n) + [l]
  {
    var mid := Appended(st.dir, l);
    if k > 0 {
      ChainEndsWithMain(st.dir, k - 1, l);
    } else {
      assert mid[0].lines[..n] == st.dir[0].lines[..n];
      assert mid[0].lines[n..] == st.dir[0].lines[n..] + [l];
    }
  }

  lemma RotationMovesCursor(dir: Dir, top: nat, backups: nat, inode: nat, c: Cursor, k: nat, n: nat)
    requires Sound(dir, top, backups, inode) && Denotes(dir, c, k, n) && k < backups
    ensures var after, newTop := Rotated(dir, backups, inode), if top < backups then top + 1 else top;
      WellFormed(after, newTop) && Denotes(after, c, k + 1, n) && Rest(after, newTop, k + 1, n) == Rest(dir, top, k, n)
  {
    var after := Rotated(dir, backups, inode);
    RotatedWellFormed(dir, backups, inode, top);
    RotatedAt(dir, backups, inode, k + 1);
    assert after[k + 1] == dir[k];
    if k > 0 { ChainShifts(dir, backups, inode, k - 1); } else { assert Chain(after, 0) == [] + Chain(after, -1); }
  }

  lemma RotationDropsCursor(dir: Dir, top: nat, backups: nat, inode: nat, c: Cursor, n: nat)
    requires Sound(dir, top, backups, inode) && backups >= 1 && Denotes(dir, c, backups, n)
    ensures var after := Rotated(dir, backups, inode);
      && WellFormed(after, top) && (forall j | j in after :: after[j].inode != c.inode)
      && Rest(dir, top, backups, n) == dir[backups].lines[n..] + Lines(after, top)
  {
    var after := Rotated(dir, backups, inode);
    RotatedWellFormed(dir, backups, inode, top);
    ChainShifts(dir, backups, inode, backups - 1);
    forall j | j in after ensures after[j].inode != c.inode { RotatedAt(dir, backups, inode, j); }
  }

  /** Rotated out: no file is the cursor's any more and `lost` is what can no longer be read. */
  ghost predicate Overrun(st: LogState, backups: nat, c: Cursor, tail: seq<Line>, lost: seq<Line>) {
    && SoundState(st, backups) && c.inode != 0 && c.inode < st.inode
    && (forall k | k in st.dir :: st.dir[k].inode != c.inode) && 1 in st.dir
    && tail == lost + Lines(st.dir, st.top)
  }

  lemma OverrunStep(st: LogState, backups: nat, maxSize: int, l: Line, c: Cursor, tail: seq<Line>, lost: seq<Line>)
    requires backups >= 1 && l.bytes > 0 && Overrun(st, backups, c, tail, lost)
    ensures Overrun(Next(st, backups, maxSize, l), backups, c, tail + [l], lost + Lost(st.dir, backups, maxSize, l))
  {
    LogKeepsOrder(st.dir, st.top, backups, maxSize, l, st.inode);
    var after := Next(st, backups, maxSize, l);
    Reassociate(lost, Lost(st.dir, backups, maxSize, l), Lines(st.dir, st.top), Lines(after.dir, after.top), [l]);
    var mid := Appended(st.dir, l);
    forall k | k in after.dir ensures after.dir[k].inode != c.inode {
      assert forall j | j in mid :: mid[j].inode != c.inode;
      if Rotates(st, maxSize, l) { RotatedAt(mid, backups, st.inode, k); }
    }
    if Rotates(st, maxSize, l) { RotatedAt(mid, backups, st.inode, 1); }
  }

  /** A cursor that stood in file `k` with `tail` after it is either in its file still, with
      the same lines after it, or overrun. */
  ghost predicate Tracked(st: LogState, backups: nat, c: Cursor, at: nat, n: nat, tail: seq<Line>, lost: seq<Line>) {
    && SoundState(st, backups)
    && (at <= backups ==> Denotes(st.dir, c, at, n) && Rest(st.dir, st.top, at, n) == tail)
    && (at > backups ==> Overrun(st, backups, c, tail, lost))
  }

  lemma TrackedStep(st: LogState, backups: nat, maxSize: int, l: Line, c: Cursor, at: nat, n: nat, tail: seq<Line>, lost: seq<Line>)
    returns (nowLost: seq<Line>)
    requires backups >= 1 && l.bytes > 0 && Tracked(st, backups, c, at, n, tail, lost)
    ensures Tracked(Next(st, backups, maxSize, l), backups, c, if Rotates(st, maxSize, l) then at + 1 else at, n, tail + [l], nowLost)
  {
    if at <= backups {
      nowLost := CursorStep(st, backups, maxSize, l, c, at, n);
    } else {
      OverrunStep(st, backups, maxSize, l, c, tail, lost);
      nowLost := lost + Lost(st.dir, backups, maxSize, l);
    }
  }

  /** Where a cursor is after a run: `r` rotations move its file down `r` backups, and more
      than the retained number of them take it off the disk for good. */
  lemma {:induction false} CursorAfterRun(st: LogState, backups: nat, maxSize: int, lines: seq<Line>, c: Cursor, k: nat, n: nat,
                                          tail: seq<Line>, lost: seq<Line>)
    returns (end: LogState, at: nat, all: seq<Line>, nowLost: seq<Line>)
    requires backups >= 1 && 0 in st.dir && Tracked(st, backups, c, k, n, tail, lost)
    requires forall l | l in lines :: l.bytes > 0
    ensures end == Run(st, backups, maxSize, lines) && at == k + Rotations(st, backups, maxSize, lines) && all == tail + lines
    ensures Tracked(end, backups, c, at, n, all, nowLost)
    decreases |lines|
  {
    end, at, all, nowLost := st, k, tail, lost;
    if lines != [] {
      var l := lines[0];
      nowLost := TrackedStep(st, backups, maxSize, l, c, k, n, tail, lost);
      end, at := Next(st, backups, maxSize, l), if Rotates(st, maxSize, l) then k + 1 else k;
      FirstThenRest(tail, lines);
      end, at, all, nowLost := CursorAfterRun(end, backups, maxSize, lines[1..], c, at, n, tail + [l], nowLost);
    }
  }

  lemma CursorStep(st: LogState, backups: nat, maxSize: int, l: Line, c: Cursor, k: nat, n: nat) returns (lost: seq<Line>)
    requires backups >= 1 && SoundState(st, backups) && Denotes(st.dir, c, k, n) && l.bytes > 0
    ensures Tracked(Next(st, backups, maxSize, l), backups, c, if Rotates(st, maxSize, l) then k + 1 else k, n,
                    Rest(st.dir, st.top, k, n) + [l], lost)
  {
    LogKeepsOrder(st.dir, st.top, backups, maxSize, l, st.inode);
    AppendKeepsCursor(st, backups, l, c, k, n);
    var mid := Appended(st.dir, l);
    lost := mid[k].lines[n..];
    if Rotates(st, maxSize, l) {
      if k < backups {
        RotationMovesCursor(mid, st.top, backups, st.inode, c, k, n);
      } else {
        RotationDropsCursor(mid, st.top, backups, st.inode, c, n);
      }
      RotatedAt(mid, backups, st.inode, 1);
    }
  }

  lemma {:induction false} ChainPrefix(dir: Dir, top: nat, j: nat) returns (older: seq<Line>)
    requires WellFormed(dir, top) && j <= top
    ensures Chain(dir, top) == older + Chain(dir, j)
    decreases top - j
  {
    older := [];
    if j < top {
      older := ChainPrefix(dir, top, j + 1);
      assert older + Chain(dir, j + 1) == older + dir[j + 1].lines + Chain(dir, j);
      older := older + dir[j + 1].lines;
    }
  }

  /** Rotation refinement: whatever was appended since the cursor was taken, the peek returns
      exactly the billable records appended since, in order, as long as its file is retained;
      beyond that it still does exactly when the lines it can no longer reach, the lost ones
      and those in backups older than the newest, hold no billable record. */
  lemma RotationRefinement(st: LogState, backups: nat, maxSize: int, lines: seq<Line>, c: Cursor, k: nat, n: nat)
    returns (unread: seq<Line>)
    requires backups >= 1 && SoundState(st, backups) && Denotes(st.dir, c, k, n)
    requires forall l | l in lines :: l.bytes > 0
    ensures var after, tail := Run(st, backups, maxSize, lines), Rest(st.dir, st.top, k, n) + lines;
      && (k + Rotations(st, backups, maxSize, lines) <= backups ==> unread == [])
      && unread <= tail
      && PeekOf(after.dir, c).records == BillableOf(tail[|unread|..])
      && (PeekOf(after.dir, c).records == BillableOf(tail) <==> BillableOf(unread) == [])
      && Denotes(after.dir, PeekOf(after.dir, c).next, 0, |after.dir[0].lines|)
  {
    var after, at, tail, lost := CursorAfterRun(st, backups, maxSize, lines, c, k, n, Rest(st.dir, st.top, k, n), []);
    unread := PeekTracked(after, backups, c, at, n, tail, lost);
  }

  lemma PeekTracked(st: LogState, backups: nat, c: Cursor, at: nat, n: nat, tail: seq<Line>, lost: seq<Line>) returns (unread: seq<Line>)
    requires Tracked(st, backups, c, at, n, tail, lost)
    ensures at <= backups ==> unread == []
    ensures unread <= tail && PeekOf(st.dir, c).records == BillableOf(tail[|unread|..])
    ensures PeekOf(st.dir, c).records == BillableOf(tail) <==> BillableOf(unread) == []
    ensures Denotes(st.dir, PeekOf(st.dir, c).next, 0, |st.dir[0].lines|)
  {
    unread := [];
    if at <= backups {
      PeekRefines(st.dir, st.top, c, at, n);
      assert tail[0..] == tail;
    } else {
      unread := PeekOverrun(st, backups, c, tail, lost);
    }
  }

  lemma PeekOverrun(st: LogState, backups: nat, c: Cursor, tail: seq<Line>, lost: seq<Line>) returns (unread: seq<Line>)
    requires Overrun(st, backups, c, tail, lost)
    ensures unread <= tail && PeekOf(st.dir, c).records == BillableOf(tail[|unread|..])
    ensures PeekOf(st.dir, c).records == BillableOf(tail) <==> BillableOf(unread) == []
    ensures Denotes(st.dir, PeekOf(st.dir, c).next, 0, |st.dir[0].lines|)
  {
    var older := ChainPrefix(st.dir, st.top, 1);
    unread := lost + older;
    var read := Chain(st.dir, 1);
    assert tail == unread + read && tail[|unread|..] == read;
    PeekPastRetention(st.dir, st.top, c);
    BillableConcat(unread, read);
  }

  lemma {:induction false} PeekPastRetention(dir: Dir, top: nat, c: Cursor)
    requires WellFormed(dir, top) && top >= 1 && c.inode != 0 && forall k | k in dir :: dir[k].inode != c.inode
    ensures PeekOf(dir, c).records == BillableOf(Chain(dir, 1))
    ensures Denotes(dir, PeekOf(dir, c).next, 0, |dir[0].lines|)
  {
    NoSuchBackup(dir, c.inode, 1);
    NewerAreTheChain(dir, 1);
    assert NewerRecords(dir, 1) == Scan(dir[1], 0) + NewerRecords(dir, 0);
    assert dir[0].lines[..|dir[0].lines|] == dir[0].lines;
  }

  /** A first run has no cursor and reads the main file alone: the whole stream is covered
      exactly when the backups hold nothing billable. */
  lemma FirstRunReadsMainOnly(dir: Dir, top: nat) returns (older: seq<Line>)
    requires WellFormed(dir, top)
    ensures Lines(dir, top) == older + dir[0].lines
    ensures PeekOf(dir, Cursor(0, 0)).records == BillableOf(dir[0].lines)
    ensures PeekOf(dir, Cursor(0, 0)).records == BillableOf(Lines(dir, top)) <==> BillableOf(older) == []
  {
    older := ChainPrefix(dir, top, 0);
    assert Chain(dir, 0) == dir[0].lines + Chain(dir, -1) == dir[0].lines;
    BillableConcat(older, dir[0].lines);
  }
}
