/** The request log: an append-only stream of lines kept in one main file and a bounded
    number of numbered backups, and the settlement scanner that reads it by cursor. */
module RequestLog {
  import opened Orders
  import opened Billing

  /** One line of the log: its decoded record, none if malformed, and its length in bytes. */
  datatype Line = Line(rec: Option<Record>, bytes: nat)

  datatype File = File(inode: nat, lines: seq<Line>)

  /** 0 is the main file, i is the backup ".i". */
  type Dir = map<nat, File>

  /** A zero inode is an unknown file: a first run or a cursor without identity. */
  datatype Cursor = Cursor(offset: nat, inode: nat)

  function At(dir: Dir, k: nat): Option<File> { if k in dir then Some(dir[k]) else None }

  function Size(lines: seq<Line>): nat {
    if lines == [] then 0 else lines[0].bytes + Size(lines[1..])
  }

  /** Reading from a byte offset; the rest of a partly covered line decodes to nothing. */
  function From(lines: seq<Line>, offset: nat): seq<Line> {
    if offset == 0 || lines == [] then lines
    else if offset < lines[0].bytes then lines[1..]
    else From(lines[1..], offset - lines[0].bytes)
  }

  predicate BillableLine(l: Line) { l.bytes > 0 && l.rec.Some? && Billable(l.rec.value) }

  function BillableOf(lines: seq<Line>): seq<Record> {
    if lines == [] then []
    else BillableOf(lines[..|lines| - 1])
         + (var l := lines[|lines| - 1]; if BillableLine(l) then [l.rec.value] else [])
  }

  lemma {:induction false} BillableConcat(a: seq<Line>, b: seq<Line>)
    ensures BillableOf(a + b) == BillableOf(a) + BillableOf(b)
    decreases |b|
  {
    if b == [] {
      assert a + b == a;
    } else {
      BillableConcat(a, b[..|b| - 1]);
      assert (a + b)[..|a + b| - 1] == a + b[..|b| - 1];
    }
  }

  lemma {:induction false} FromBoundary(lines: seq<Line>, n: nat)
    requires n <= |lines| && forall l | l in lines :: l.bytes > 0
    ensures From(lines, Size(lines[..n])) == lines[n..]
    decreases n
  {
    if n > 0 {
      FromBoundary(lines[1..], n - 1);
      assert lines[..n][1..] == lines[1..][..n - 1];
      assert lines[1..][n - 1..] == lines[n..];
    }
  }

  lemma {:induction false} SizeAppend(lines: seq<Line>, l: Line)
    ensures Size(lines + [l]) == Size(lines) + l.bytes
  {
    if lines != [] {
      SizeAppend(lines[1..], l);
      assert (lines + [l])[1..] == lines[1..] + [l];
    } else {
      assert [l][1..] == [];
    }
  }

  lemma {:induction false} SizeMonotone(lines: seq<Line>, n: nat)
    requires n <= |lines|
    ensures Size(lines[..n]) <= Size(lines)
  {
    if n > 0 {
      SizeMonotone(lines[1..], n - 1);
      assert lines[..n][1..] == lines[1..][..n - 1];
    }
  }

  // ---- The directory as one stream ----

  /** The lines of backups k, k-1, ... and of the main file, oldest first. */
  function Chain(dir: Dir, k: int): seq<Line>
    requires forall i: nat | i <= k :: i in dir
    decreases k + 1
  {
    if k < 0 then [] else dir[k].lines + Chain(dir, k - 1)
  }

  ghost predicate Contiguous(dir: Dir, top: nat) { forall k: nat :: k in dir <==> k <= top }

  ghost predicate WellFormed(dir: Dir, top: nat) {
    && Contiguous(dir, top)
    && (forall i, j | i in dir && j in dir && dir[i].inode == dir[j].inode :: i == j)
    && (forall k | k in dir :: dir[k].inode != 0 && forall l | l in dir[k].lines :: l.bytes > 0)
  }

  lemma {:induction false} ChainEndsWithMain(dir: Dir, k: nat, l: Line)
    requires forall i: nat | i <= k :: i in dir
    ensures Chain(dir[0 := File(dir[0].inode, dir[0].lines + [l])], k) == Chain(dir, k) + [l]
    decreases k
  {
    var after := dir[0 := File(dir[0].inode, dir[0].lines + [l])];
    if k > 0 { ChainEndsWithMain(dir, k - 1, l); }
  }

  // ---- The writer ----

  function Backups(maxBackups: int): nat { if maxBackups < 1 then 1 else maxBackups }

  /** rename(".i", ".i+1"), which does nothing when there is no ".i". */
  function Renamed(dir: Dir, i: nat): Dir { if i in dir then (dir - {i})[i + 1 := dir[i]] else dir }

  function Shifted(dir: Dir, i: nat): Dir
    decreases i
  {
    if i == 0 then dir else Shifted(Renamed(dir, i), i - 1)
  }

  function Removed(dir: Dir, k: nat): Dir { dir - {k} }

  function Rotated(dir: Dir, backups: nat, inode: nat): Dir
    requires backups >= 1
  {
    Renamed(Shifted(Removed(dir, backups), backups - 1), 0)[0 := File(inode, [])]
  }

  lemma {:induction false} ShiftedAt(dir: Dir, i: nat, k: nat)
    requires At(dir, i + 1) == None
    ensures At(Shifted(dir, i), k) ==
      if k == 0 || k > i + 1 then At(dir, k) else if k == 1 then None else At(dir, k - 1)
    decreases i
  {
    if i > 0 { ShiftedAt(Renamed(dir, i), i - 1, k); }
  }

  /** After a rotation `.k` holds what `.k-1` held, the oldest is gone and main is fresh. */
  lemma RotatedAt(dir: Dir, backups: nat, inode: nat, k: nat)
    requires backups >= 1 && 0 in dir
    ensures At(Rotated(dir, backups, inode), k) ==
      if k == 0 then Some(File(inode, [])) else if k <= backups then At(dir, k - 1) else At(dir, k)
  {
    ShiftedAt(Removed(dir, backups), backups - 1, k);
    ShiftedAt(Removed(dir, backups), backups - 1, 0);
  }

  function Appended(dir: Dir, l: Line): Dir
    requires 0 in dir
  {
    dir[0 := File(dir[0].inode, dir[0].lines + [l])]
  }

  /** One call of `Log`: append, then rotate once the file reaches the threshold. */
  function Logged(dir: Dir, backups: nat, maxSize: int, l: Line, inode: nat): Dir
    requires 0 in dir && backups >= 1
  {
    var after := Appended(dir, l);
    if Size(after[0].lines) >= maxSize then Rotated(after, backups, inode) else after
  }

  /** The files of a log: contiguous, within the retained number, each its own inode. */
  ghost predicate Sound(dir: Dir, top: nat, backups: nat, nextInode: nat) {
    top <= backups && WellFormed(dir, top) && 0 in dir && nextInode != 0 && forall k | k in dir :: dir[k].inode < nextInode
  }

  /** Everything still on disk, oldest line first. */
  ghost function Lines(dir: Dir, top: nat): seq<Line>
    requires WellFormed(dir, top)
  {
    Chain(dir, top)
  }

  class RequestLogger {
    var dir: Dir
    var currentSize: int
    const maxSize: int
    const maxBackups: int
    var nextInode: nat                // inodes are never reused
    ghost var top: nat                // the oldest backup in use
    ghost var dropped: seq<Line>      // lines of files rotated out of retention
    ghost var stream: seq<Line>       // every line ever logged

    ghost predicate Valid()
      reads this
    {
      && Sound(dir, top, Backups(maxBackups), nextInode)
      && currentSize == Size(dir[0].lines)
      && stream == dropped + Lines(dir, top)
    }

    constructor (maxSize: int, maxBackups: int)
      ensures Valid() && stream == [] && this.maxSize == maxSize && this.maxBackups == maxBackups
      ensures dir == map[0 := File(1, [])] && nextInode == 2
    {
      this.maxSize, this.maxBackups := maxSize, maxBackups;
      dir, currentSize, nextInode := map[0 := File(1, [])], 0, 2;
      top, dropped, stream := 0, [], [];
      new;
      assert Chain(dir, 0) == [];
    }

    /** Shifts the numbered backups down from the oldest and opens a fresh main file. */
    method Rotate()
      requires 0 in dir
      modifies this`dir, this`currentSize, this`nextInode
      ensures dir == Rotated(old(dir), Backups(maxBackups), old(nextInode))
      ensures currentSize == 0 && nextInode == old(nextInode) + 1
    {
      var backups := maxBackups;
      if backups < 1 { backups := 1; }
      dir := Removed(dir, backups);
      var i := backups - 1;
      while i >= 1
        modifies this`dir
        invariant 0 <= i && Shifted(dir, i) == Shifted(Removed(old(dir), backups), backups - 1)
      {
        dir := Renamed(dir, i);
        i := i - 1;
      }
      dir := Renamed(dir, 0);
      dir := dir[0 := File(nextInode, [])];
      currentSize, nextInode := 0, nextInode + 1;
    }

    /** Every line reaches the abstract stream, whatever rotation does to the files. The main
        file is rotated exactly when the line fills it, so it never stays at the threshold. */
    method Log(l: Line)
      requires Valid() && l.bytes > 0
      modifies this
      ensures Valid() && stream == old(stream) + [l]
      ensures dir == Logged(old(dir), Backups(maxBackups), maxSize, l, old(nextInode))
      ensures top == TopAfter(old(dir), old(top), Backups(maxBackups), maxSize, l) && nextInode == InodeAfter(old(dir), maxSize, l, old(nextInode))
      ensures dropped == old(dropped) + Lost(old(dir), Backups(maxBackups), maxSize, l)
      ensures maxSize > 0 ==> Size(dir[0].lines) < maxSize
      ensures dir[0].inode != old(dir)[0].inode <==> Size(old(dir)[0].lines) + l.bytes >= maxSize
    {
      LogKeepsOrder(dir, top, Backups(maxBackups), maxSize, l, nextInode);
      ghost var lost, newTop := Lost(dir, Backups(maxBackups), maxSize, l), TopAfter(dir, top, Backups(maxBackups), maxSize, l);
      Reassociate(dropped, lost, Lines(dir, top), Lines(Logged(dir, Backups(maxBackups), maxSize, l, nextInode), newTop), [l]);
      SizeAppend(dir[0].lines, l);
      Write(l);
      if currentSize >= maxSize { Rotate(); }
      dropped, top, stream := dropped + lost, newTop, stream + [l];
    }

    method Write(l: Line)
      requires 0 in dir && currentSize == Size(dir[0].lines)
      modifies this`dir, this`currentSize
      ensures dir == Appended(old(dir), l) && currentSize == Size(dir[0].lines)
    {
      SizeAppend(dir[0].lines, l);
      dir := dir[0 := File(dir[0].inode, dir[0].lines + [l])];
      currentSize := currentSize + l.bytes;
    }
  }

  lemma Reassociate(a: seq<Line>, lost: seq<Line>, before: seq<Line>, after: seq<Line>, l: seq<Line>)
    requires lost + after == before + l
    ensures a + lost + after == a + before + l
  {
    assert a + lost + after == a + (lost + after) == a + (before + l);
  }

  function InodeAfter(dir: Dir, maxSize: int, l: Line, inode: nat): nat
    requires 0 in dir
  {
    if Size(Appended(dir, l)[0].lines) >= maxSize then inode + 1 else inode
  }

  function TopAfter(dir: Dir, top: nat, backups: nat, maxSize: int, l: Line): nat
    requires 0 in dir
  {
    if Size(Appended(dir, l)[0].lines) >= maxSize && top < backups then top + 1 else top
  }

  /** The lines a rotation discards: the oldest backup's, when all backups are in use. */
  function Lost(dir: Dir, backups: nat, maxSize: int, l: Line): seq<Line>
    requires 0 in dir && backups >= 1
  {
    if Size(Appended(dir, l)[0].lines) >= maxSize && backups in dir then dir[backups].lines else []
  }

  lemma RotatedWellFormed(dir: Dir, backups: nat, inode: nat, top: nat)
    requires WellFormed(dir, top) && 1 <= backups && top <= backups && inode != 0
    requires forall k | k in dir :: dir[k].inode < inode
    ensures WellFormed(Rotated(dir, backups, inode), if top == backups then top else top + 1)
    ensures forall k | k in Rotated(dir, backups, inode) :: Rotated(dir, backups, inode)[k].inode <= inode
  {
    var after := Rotated(dir, backups, inode);
    var newTop := if top == backups then top else top + 1;
    forall k: nat ensures k in after <==> k <= newTop { RotatedAt(dir, backups, inode, k); }
    forall k | k in after ensures after[k] == if k == 0 then File(inode, []) else dir[k - 1] {
      RotatedAt(dir, backups, inode, k);
    }
    forall i, j | i in after && j in after && after[i].inode == after[j].inode ensures i == j {
      if i > 0 && j > 0 { assert dir[i - 1].inode == dir[j - 1].inode; }
    }
  }

  lemma {:induction false} ChainShifts(dir: Dir, backups: nat, inode: nat, k: nat)
    requires 1 <= backups && k + 1 <= backups && forall i: nat | i <= k :: i in dir
    ensures forall i: nat | i <= k + 1 :: i in Rotated(dir, backups, inode)
    ensures Chain(Rotated(dir, backups, inode), k + 1) == Chain(dir, k)
    decreases k
  {
    var after := Rotated(dir, backups, inode);
    forall i: nat | i <= k + 1 ensures i in after { RotatedAt(dir, backups, inode, i); }
    RotatedAt(dir, backups, inode, k + 1);
    if k > 0 {
      ChainShifts(dir, backups, inode, k - 1);
    } else {
      assert Chain(after, 1) == after[1].lines + Chain(after, 0);
      assert Chain(after, 0) == [] + Chain(after, -1);
    }
  }

  lemma RotationKeepsOrder(dir: Dir, backups: nat, inode: nat, top: nat)
    requires WellFormed(dir, top) && 1 <= backups && top <= backups && inode != 0
    requires forall k | k in dir :: dir[k].inode < inode
    ensures var after, newTop := Rotated(dir, backups, inode), if top < backups then top + 1 else top;
      WellFormed(after, newTop) && (if top == backups then dir[top].lines else []) + Lines(after, newTop) == Lines(dir, top)
  {
    RotatedWellFormed(dir, backups, inode, top);
    if top == backups {
      ChainShifts(dir, backups, inode, top - 1);
    } else {
      ChainShifts(dir, backups, inode, top);
    }
  }

  /** Whatever a call does to the files, what it discards followed by what it leaves is what
      was there followed by the new line. */
  lemma LogKeepsOrder(dir: Dir, top: nat, backups: nat, maxSize: int, l: Line, inode: nat)
    requires Sound(dir, top, backups, inode) && backups >= 1 && l.bytes > 0
    ensures var after, newTop := Logged(dir, backups, maxSize, l, inode), TopAfter(dir, top, backups, maxSize, l);
      && Sound(after, newTop, backups, InodeAfter(dir, maxSize, l, inode))
      && Lost(dir, backups, maxSize, l) + Lines(after, newTop) == Lines(dir, top) + [l]
  {
    var mid := Appended(dir, l);
    ChainEndsWithMain(dir, top, l);
    if Size(mid[0].lines) >= maxSize {
      RotationKeepsOrder(mid, backups, inode, top);
      RotatedWellFormed(mid, backups, inode, top);
    }
  }
}
