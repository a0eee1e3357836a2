/** The offline migration of a ledger with embedded records to thin lines, a record store and
    a sidecar: every proof and every record served before is served after. */
module Migration {
  import opened Orders
  import opened Batches
  import opened ReceiptStore

  function ThinBatch(b: LedgerBatch): LedgerBatch { b.(leaves := Thin(b.leaves)) }

  // ---- Specification ----

  function ThinLedger(codec: Codec, ledger: seq<Line<LedgerBatch>>): (thin: seq<Line<LedgerBatch>>)
    ensures |thin| == |ledger|
  {
    if ledger == [] then []
    else ThinLedger(codec, ledger[..|ledger| - 1]) + [BatchLine(codec, ThinBatch(ledger[|ledger| - 1].value))]
  }

  function MovedRecords(codec: Codec, ledger: seq<Line<LedgerBatch>>): seq<Line<Stored>> {
    if ledger == [] then []
    else MovedRecords(codec, ledger[..|ledger| - 1]) + RowRecords(codec, ledger[|ledger| - 1].value.leaves)
  }

  /** Where the records of one batch land when the store already holds `off` bytes. */
  function RowLocs(codec: Codec, rows: seq<LeafRow>, off: nat): map<string, Loc> {
    if rows == [] then map[]
    else
      var n := |rows| - 1;
      var before := RowLocs(codec, rows[..n], off);
      if rows[n].record.Some?
      then before[rows[n].rid := Loc(off + Size(RowRecords(codec, rows[..n])), RecordLine(codec, Stored(rows[n].rid, rows[n].record.value)).bytes)]
      else before
  }

  function MigratedLines(codec: Codec, ledger: seq<Line<LedgerBatch>>): seq<IdxLine> {
    if ledger == [] then []
    else
      var n := |ledger| - 1;
      var b := ledger[n].value;
      MigratedLines(codec, ledger[..n]) + [IdxLine(Size(ThinLedger(codec, ledger[..n])), 0, 0, RidsOf(b),
                                                   RowLocs(codec, b.leaves, Size(MovedRecords(codec, ledger[..n]))))]
  }

  // ---- The code ----

  datatype Files = Files(ledger: seq<Line<LedgerBatch>>, records: seq<Line<Stored>>, sidecar: seq<IdxLine>, backup: seq<Line<LedgerBatch>>)

  datatype Result = NothingToMigrate | Refused | Migrated(files: Files)

  /** One line: externalize its records, strip them, index it. */
  method MoveRows(codec: Codec, rows: seq<LeafRow>, recordOff: nat)
    returns (lines: seq<Line<Stored>>, recs: map<string, Loc>, thin: seq<LeafRow>, newOff: nat)
    ensures lines == RowRecords(codec, rows) && recs == RowLocs(codec, rows, recordOff) && thin == Thin(rows)
    ensures newOff == recordOff + Size(lines)
  {
    lines, recs, thin, newOff := [], map[], [], recordOff;
    for i := 0 to |rows|
      invariant lines == RowRecords(codec, rows[..i]) && recs == RowLocs(codec, rows[..i], recordOff) && thin == Thin(rows[..i])
      invariant newOff == recordOff + Size(lines)
    {
      assert rows[..i + 1] == rows[..i] + [rows[i]] && rows[..i + 1][..i] == rows[..i];
      ThinAppend(rows[..i], rows[i]);
      var l := rows[i];
      if l.record.Some? {
        var line := RecordLine(codec, Stored(l.rid, l.record.value));
        SizeSnoc(lines, line);
        lines := lines + [line];
        recs := recs[l.rid := Loc(newOff, line.bytes)];
        newOff := newOff + line.bytes;
      }
      thin := thin + [LeafRow(l.rid, l.leaf, l.sp, None)];
    }
    assert rows[..|rows|] == rows;
  }

  method Rewrite(codec: Codec, ledger: seq<Line<LedgerBatch>>)
    returns (thin: seq<Line<LedgerBatch>>, records: seq<Line<Stored>>, sidecar: seq<IdxLine>)
    ensures thin == ThinLedger(codec, ledger) && records == MovedRecords(codec, ledger)
    ensures sidecar == MigratedLines(codec, ledger) + [Marker(thin, records)]
  {
    thin, records, sidecar := [], [], [];
    var ledgerOff, recordOff := 0, 0;
    for i := 0 to |ledger|
      invariant thin == ThinLedger(codec, ledger[..i]) && records == MovedRecords(codec, ledger[..i])
      invariant sidecar == MigratedLines(codec, ledger[..i])
      invariant ledgerOff == Size(thin) && recordOff == Size(records)
    {
      assert ledger[..i + 1][..i] == ledger[..i];
      var b := ledger[i].value;
      var lines, recs, rows, newOff := MoveRows(codec, b.leaves, recordOff);
      var line := BatchLine(codec, b.(leaves := rows));
      sidecar := sidecar + [IdxLine(ledgerOff, 0, 0, RidsOf(b), recs)];
      SizeSnoc(thin, line);
      SizeConcat(records, lines);
      thin, records := thin + [line], records + lines;
      ledgerOff, recordOff := ledgerOff + line.bytes, newOff;
    }
    assert ledger[..|ledger|] == ledger;
    sidecar := sidecar + [IdxLine(0, ledgerOff, recordOff, [], map[])];
  }

  lemma {:induction false} SizeSnoc<T>(file: seq<Line<T>>, l: Line<T>)
    ensures Size(file + [l]) == Size(file) + l.bytes
  {
    assert (file + [l])[..|file|] == file;
  }

  lemma {:induction false} SizeConcat<T>(a: seq<Line<T>>, b: seq<Line<T>>)
    ensures Size(a + b) == Size(a) + Size(b)
    decreases |b|
  {
    if b == [] {
      assert a + b == a;
    } else {
      var n := |b| - 1;
      SizeConcat(a, b[..n]);
      assert a + b == (a + b[..n]) + [b[n]];
      SizeSnoc(a + b[..n], b[n]);
    }
  }

  /** `MigrateFatLedger`: refuses once a record store exists; otherwise rewrites the ledger and
      swaps the new files in by four renames, the thin ledger last. The process lives to do
      `renames` of them. */
  method MigrateFatLedger(codec: Codec, dir: Files, renames: nat) returns (r: Result)
    ensures dir.ledger == [] ==> r == NothingToMigrate
    ensures dir.ledger != [] && Size(dir.records) > 0 ==> r == Refused
    ensures dir.ledger != [] && Size(dir.records) == 0 ==> r == Migrated(Swapped(codec, dir, if renames < 4 then renames else 4))
  {
    if |dir.ledger| == 0 { return NothingToMigrate; }
    if Size(dir.records) > 0 { return Refused; }
    var thin, records, sidecar := Rewrite(codec, dir.ledger);
    var files := dir;
    if renames == 0 { return Migrated(files); }
    files := files.(records := records);
    if renames == 1 { return Migrated(files); }
    files := files.(sidecar := sidecar);
    if renames == 2 { return Migrated(files); }
    files := files.(ledger := [], backup := files.ledger);
    if renames == 3 { return Migrated(files); }
    files := files.(ledger := thin);
    return Migrated(files);
  }

  function NewSidecar(codec: Codec, ledger: seq<Line<LedgerBatch>>): seq<IdxLine> {
    MigratedLines(codec, ledger) + [Marker(ThinLedger(codec, ledger), MovedRecords(codec, ledger))]
  }

  /** The directory after the first `k` of the four renames. */
  function Swapped(codec: Codec, dir: Files, k: nat): Files {
    Files(if k < 3 then dir.ledger else if k == 3 then [] else ThinLedger(codec, dir.ledger),
          if k < 1 then dir.records else MovedRecords(codec, dir.ledger),
          if k < 2 then dir.sidecar else NewSidecar(codec, dir.ledger),
          if k < 3 then dir.backup else dir.ledger)
  }

  // ---- Proofs are unchanged ----

  lemma SameCarriers(b: LedgerBatch, rid: string)
    ensures Carries(ThinBatch(b), rid) <==> Carries(b, rid)
  {
    CarriesRid(b, rid);
    CarriesRid(ThinBatch(b), rid);
    assert RidsOf(ThinBatch(b)) == RidsOf(b);
  }

  lemma {:induction false} SameLastLine(codec: Codec, ledger: seq<Line<LedgerBatch>>, rid: string)
    ensures LastWith(ThinLedger(codec, ledger), rid) == LastWith(ledger, rid)
    decreases |ledger|
  {
    if ledger != [] {
      var n := |ledger| - 1;
      SameCarriers(ledger[n].value, rid);
      SameLastLine(codec, ledger[..n], rid);
      assert ThinLedger(codec, ledger)[..n] == ThinLedger(codec, ledger[..n]);
    }
  }

  lemma {:induction false} ThinAt(codec: Codec, ledger: seq<Line<LedgerBatch>>, i: nat)
    requires i < |ledger|
    ensures ThinLedger(codec, ledger)[i] == BatchLine(codec, ThinBatch(ledger[i].value))
    decreases |ledger|
  {
    if i < |ledger| - 1 { ThinAt(codec, ledger[..|ledger| - 1], i); }
  }

  lemma {:induction false} LastRecordConcat(a: seq<Line<Stored>>, b: seq<Line<Stored>>, rid: string)
    ensures match LastRecord(b, rid)
      case Some(i) => i < |b| && LastRecord(a + b, rid) == Some(|a| + i)
      case None => LastRecord(a + b, rid) == LastRecord(a, rid)
    decreases |b|
  {
    if b == [] {
      assert a + b == a;
    } else {
      var n := |b| - 1;
      LastRecordConcat(a, b[..n], rid);
      assert (a + b)[..|a + b| - 1] == a + b[..n];
    }
  }

  /** The last of a batch's moved records for a request id is that of its last row, if that
      row has one. */
  lemma {:induction false} LastOfRows(codec: Codec, rows: seq<LeafRow>, rid: string, idx: nat)
    requires rid != "" && idx < |rows| && rows[idx].rid == rid && rows[idx].record.Some?
    requires forall j | idx < j < |rows| :: rows[j].rid != rid
    ensures var moved := RowRecords(codec, rows);
      match LastRecord(moved, rid)
      case None => false
      case Some(i) => i < |moved| && moved[i].value.record == rows[idx].record.value
    decreases |rows|
  {
    var n := |rows| - 1;
    var before := RowRecords(codec, rows[..n]);
    if idx == n {
      assert RowRecords(codec, rows) == before + [RecordLine(codec, Stored(rid, rows[idx].record.value))];
    } else {
      LastOfRows(codec, rows[..n], rid, idx);
      if rows[n].record.Some? {
        assert RowRecords(codec, rows)[..|before|] == before;
      } else {
        assert RowRecords(codec, rows) == before;
      }
    }
  }

  lemma {:induction false} NoneOfRows(codec: Codec, rows: seq<LeafRow>, rid: string)
    requires forall row | row in rows :: row.rid != rid
    ensures LastRecord(RowRecords(codec, rows), rid) == None
    decreases |rows|
  {
    if rows != [] {
      var n := |rows| - 1;
      assert rows[n] in rows;
      NoneOfRows(codec, rows[..n], rid);
      var before := RowRecords(codec, rows[..n]);
      if rows[n].record.Some? { assert RowRecords(codec, rows)[..|before|] == before; } else { assert RowRecords(codec, rows) == before; }
    }
  }

  lemma {:induction false} MovedRecordFound(codec: Codec, ledger: seq<Line<LedgerBatch>>, rid: string, at: nat, idx: nat)
    requires rid != "" && LastWith(ledger, rid) == Some(at) && at < |ledger|
    requires idx < |ledger[at].value.leaves| && ledger[at].value.leaves[idx].rid == rid && ledger[at].value.leaves[idx].record.Some?
    requires forall j | idx < j < |ledger[at].value.leaves| :: ledger[at].value.leaves[j].rid != rid
    ensures var moved := MovedRecords(codec, ledger);
      match LastRecord(moved, rid)
      case None => false
      case Some(i) => i < |moved| && moved[i].value.record == ledger[at].value.leaves[idx].record.value
    decreases |ledger|
  {
    var n := |ledger| - 1;
    var rows := ledger[n].value.leaves;
    var before, here := MovedRecords(codec, ledger[..n]), RowRecords(codec, rows);
    LastRecordConcat(before, here, rid);
    if Carries(ledger[n].value, rid) {
      LastOfRows(codec, rows, rid, idx);
    } else {
      forall row | row in rows ensures row.rid != rid { assert !Carries(ledger[n].value, rid); }
      NoneOfRows(codec, rows, rid);
      MovedRecordFound(codec, ledger[..n], rid, at, idx);
    }
  }

  /** Migration preserves meaning. For every request id and everything served for it before,
      the same leaf, index, sibling path, root and hashes are served after, and a record that
      was served is still the record served. */
  lemma {:induction false} MigrationPreservesProofs(codec: Codec, ledger: seq<Line<LedgerBatch>>, rid: string, p: Proof)
    requires rid != "" && Serves(ledger, [], rid, p)
    ensures var q := p.(record := StoredRecord(MovedRecords(codec, ledger), rid));
      && Serves(ThinLedger(codec, ledger), MovedRecords(codec, ledger), rid, q)
      && (p.record.Some? ==> q.record == p.record)
  {
    var at := LastWith(ledger, rid).value;
    ThinServes(codec, ledger, rid, p, at);
    if p.record.Some? {
      assert ledger[at].value.leaves[p.index].record.Some?;
      MovedRecordFound(codec, ledger, rid, at, p.index);
    }
  }

  lemma {:induction false} ThinServes(codec: Codec, ledger: seq<Line<LedgerBatch>>, rid: string, p: Proof, at: nat)
    requires LastWith(ledger, rid) == Some(at) && ProofOf(ledger[at].value, rid, p)
    ensures Serves(ThinLedger(codec, ledger), MovedRecords(codec, ledger), rid, p.(record := StoredRecord(MovedRecords(codec, ledger), rid)))
  {
    SameLastLine(codec, ledger, rid);
    ThinAt(codec, ledger, at);
    assert RowLeaves(Thin(ledger[at].value.leaves)) == RowLeaves(ledger[at].value.leaves);
  }

  // ---- The sidecar it writes ----

  ghost predicate NamedRows(ledger: seq<Line<LedgerBatch>>) { forall l | l in ledger :: forall row | row in l.value.leaves :: row.rid != "" }

  lemma {:induction false} RowLocsStored(codec: Codec, base: seq<Line<Stored>>, rows: seq<LeafRow>)
    requires forall row | row in rows :: row.rid != ""
    ensures RowsStored(codec, base, base + RowRecords(codec, rows), rows, RowLocs(codec, rows, Size(base)))
    decreases |rows|
  {
    if rows == [] {
      assert base + [] == base;
    } else {
      var n := |rows| - 1;
      var before := RowRecords(codec, rows[..n]);
      assert rows[n] in rows && rows == rows[..n] + [rows[n]];
      RowLocsStored(codec, base, rows[..n]);
      SizeConcat(base, before);
      RowsStep(codec, base, base + before, rows[..n], RowLocs(codec, rows[..n], Size(base)), rows[n]);
      RowRecordsAppend(codec, base, rows[..n], rows[n]);
    }
  }

  lemma {:induction false} RowRecordsAppend(codec: Codec, base: seq<Line<Stored>>, rows: seq<LeafRow>, row: LeafRow)
    ensures base + RowRecords(codec, rows + [row]) == (base + RowRecords(codec, rows))
      + if row.record.Some? then [RecordLine(codec, Stored(row.rid, row.record.value))] else []
  {
    assert (rows + [row])[..|rows|] == rows;
  }

  lemma {:induction false} RowLocsScan(codec: Codec, base: seq<Line<Stored>>, rows: seq<LeafRow>)
    requires forall row | row in rows :: row.rid != ""
    ensures RecordScan(base + RowRecords(codec, rows)) == RecordScan(base) + RowLocs(codec, rows, Size(base))
  {
    RowLocsStored(codec, base, rows);
  }

  function MigratedLine(codec: Codec, ledger: seq<Line<LedgerBatch>>): IdxLine
    requires ledger != []
  {
    var n := |ledger| - 1;
    IdxLine(Size(ThinLedger(codec, ledger[..n])), 0, 0, RidsOf(ledger[n].value),
            RowLocs(codec, ledger[n].value.leaves, Size(MovedRecords(codec, ledger[..n]))))
  }

  lemma {:induction false} MigratedMerkle(codec: Codec, ledger: seq<Line<LedgerBatch>>)
    ensures SidecarMerkle(MigratedLines(codec, ledger)) == MerkleScan(ThinLedger(codec, ledger))
    decreases |ledger|
  {
    if ledger != [] {
      var n := |ledger| - 1;
      var b, thin := ledger[n].value, ThinLedger(codec, ledger[..n]);
      MigratedMerkle(codec, ledger[..n]);
      SidecarAppend(MigratedLines(codec, ledger[..n]), MigratedLine(codec, ledger));
      ScanAppend(thin, BatchLine(codec, ThinBatch(b)));
      assert RidsOf(ThinBatch(b)) == RidsOf(b);
    }
  }

  lemma {:induction false} MigratedRecords(codec: Codec, ledger: seq<Line<LedgerBatch>>)
    requires NamedRows(ledger)
    ensures SidecarRecords(MigratedLines(codec, ledger)) == RecordScan(MovedRecords(codec, ledger))
    decreases |ledger|
  {
    if ledger != [] {
      var n := |ledger| - 1;
      assert ledger[n] in ledger;
      MigratedRecords(codec, ledger[..n]);
      SidecarAppend(MigratedLines(codec, ledger[..n]), MigratedLine(codec, ledger));
      RowLocsScan(codec, MovedRecords(codec, ledger[..n]), ledger[n].value.leaves);
    }
  }

  lemma {:induction false} MovedRidsCarried(codec: Codec, ledger: seq<Line<LedgerBatch>>)
    requires NamedRows(ledger)
    ensures RecordScan(MovedRecords(codec, ledger)).Keys <= MerkleScan(ThinLedger(codec, ledger)).Keys
    decreases |ledger|
  {
    if ledger != [] {
      var n := |ledger| - 1;
      var b, thin, moved := ledger[n].value, ThinLedger(codec, ledger[..n]), MovedRecords(codec, ledger[..n]);
      assert ledger[n] in ledger;
      MovedRidsCarried(codec, ledger[..n]);
      ScanAppend(thin, BatchLine(codec, ThinBatch(b)));
      assert RidsOf(ThinBatch(b)) == RidsOf(b);
      RowLocsScan(codec, moved, b.leaves);
      RowLocsRids(codec, b, Size(moved));
      KeysGrow(RecordScan(moved), RowLocs(codec, b.leaves, Size(moved)), MerkleScan(thin), RidsOf(b), Size(thin));
    }
  }

  lemma KeysGrow(m: map<string, Loc>, more: map<string, Loc>, idx: map<string, nat>, rids: seq<string>, off: nat)
    requires m.Keys <= idx.Keys && forall rid | rid in more :: rid in rids
    ensures (m + more).Keys <= PutAll(idx, rids, off).Keys
  {
  }

  lemma {:induction false} RowLocsRids(codec: Codec, b: LedgerBatch, off: nat)
    ensures forall rid | rid in RowLocs(codec, b.leaves, off) :: rid in RidsOf(b)
  {
    forall rid | rid in RowLocs(codec, b.leaves, off) ensures rid in RidsOf(b) {
      RowLocsRow(codec, b.leaves, off, rid);
      CarriesRid(b, rid);
    }
  }

  lemma {:induction false} RowLocsRow(codec: Codec, rows: seq<LeafRow>, off: nat, rid: string)
    requires rid in RowLocs(codec, rows, off)
    ensures exists row | row in rows :: row.rid == rid
    decreases |rows|
  {
    var n := |rows| - 1;
    assert rows[n] in rows;
    if rid in RowLocs(codec, rows[..n], off) && rows[n].rid != rid { RowLocsRow(codec, rows[..n], off, rid); }
  }

  lemma {:induction false} NewSidecarValues(codec: Codec, ledger: seq<Line<LedgerBatch>>)
    requires NamedRows(ledger)
    ensures var thin, records, sidecar := ThinLedger(codec, ledger), MovedRecords(codec, ledger), NewSidecar(codec, ledger);
      && SidecarMerkle(sidecar) == MerkleScan(thin) && SidecarRecords(sidecar) == RecordScan(records)
      && SidecarSizes(sidecar) == (Size(thin), Size(records))
  {
    var thin, records := ThinLedger(codec, ledger), MovedRecords(codec, ledger);
    MigratedMerkle(codec, ledger);
    MigratedRecords(codec, ledger);
    SidecarAppend(MigratedLines(codec, ledger), Marker(thin, records));
    NothingPut(MerkleScan(thin));
    AllKept(RecordScan(records), RecordScan(records));
  }

  lemma {:induction false} FullyAccounts(sidecar: seq<IdxLine>, ledger: seq<Line<LedgerBatch>>, records: seq<Line<Stored>>)
    requires SidecarMerkle(sidecar) == MerkleScan(ledger) && SidecarRecords(sidecar) == RecordScan(records)
    requires SidecarSizes(sidecar) == (Size(ledger), Size(records))
    ensures Accounts(sidecar, ledger, records, |ledger|, |records|, {})
  {
    assert ledger[..|ledger|] == ledger && records[..|records|] == records;
    AllKept(RecordScan(records), RecordScan(records));
  }

  /** The sidecar the migration writes replays to exactly what a rebuild of the new files
      would give: it accounts for all of both, with nothing hidden. */
  lemma {:induction false} MigratedSidecarIsRebuild(codec: Codec, ledger: seq<Line<LedgerBatch>>)
    requires NamedRows(ledger)
    ensures var thin, records, sidecar := ThinLedger(codec, ledger), MovedRecords(codec, ledger), NewSidecar(codec, ledger);
      && Accounts(sidecar, thin, records, |thin|, |records|, {})
      && SidecarMerkle(sidecar) == SidecarMerkle(RebuiltLines(thin, RecordScan(records)))
      && SidecarRecords(sidecar) == SidecarRecords(RebuiltLines(thin, RecordScan(records)))
  {
    var thin, records := ThinLedger(codec, ledger), MovedRecords(codec, ledger);
    NewSidecarValues(codec, ledger);
    FullyAccounts(NewSidecar(codec, ledger), thin, records);
    RebuiltMerkle(thin, RecordScan(records));
    RebuiltRecords(thin, RecordScan(records));
    MovedRidsCarried(codec, ledger);
    AllKept(RecordScan(records), MerkleScan(thin));
  }

  lemma AllKept<U, V>(m: map<string, V>, keys: map<string, U>)
    requires m.Keys <= keys.Keys
    ensures KeptBy(m, keys) == m && Without(m, {}) == m && m + map[] == m
  {
  }

  // ---- Serving before and after ----

  lemma ServedOnce(ledger: seq<Line<LedgerBatch>>, records: seq<Line<Stored>>, rid: string, p: Proof, q: Proof)
    requires Serves(ledger, records, rid, p) && Serves(ledger, records, rid, q)
    ensures p == q
  {
  }

  lemma {:induction false} ThinLinesSound(codec: Codec, ledger: seq<Line<LedgerBatch>>)
    requires forall l | l in ledger :: SelfChecking(l.value)
    ensures NoEmptyLines(ThinLedger(codec, ledger)) && forall l | l in ThinLedger(codec, ledger) :: SelfChecking(l.value)
  {
    var thin := ThinLedger(codec, ledger);
    forall l | l in thin ensures l.bytes > 0 && SelfChecking(l.value) {
      var i :| 0 <= i < |thin| && thin[i] == l;
      ThinAt(codec, ledger, i);
      assert ledger[i] in ledger;
      assert RowLeaves(Thin(ledger[i].value.leaves)) == RowLeaves(ledger[i].value.leaves);
    }
  }

  lemma {:induction false} MovedLinesNotEmpty(codec: Codec, ledger: seq<Line<LedgerBatch>>)
    ensures NoEmptyLines(MovedRecords(codec, ledger))
    decreases |ledger|
  {
    if ledger != [] {
      MovedLinesNotEmpty(codec, ledger[..|ledger| - 1]);
      RowLinesNotEmpty(codec, ledger[|ledger| - 1].value.leaves);
    }
  }

  lemma {:induction false} RowLinesNotEmpty(codec: Codec, rows: seq<LeafRow>)
    ensures NoEmptyLines(RowRecords(codec, rows))
    decreases |rows|
  {
    if rows != [] { RowLinesNotEmpty(codec, rows[..|rows| - 1]); }
  }

  /** Rows written with their record wherever the leaf is a receipt's. */
  ghost predicate HonestLedger(ledger: seq<Line<LedgerBatch>>) {
    forall l | l in ledger :: forall row | row in l.value.leaves :: Vouches(row) ==> row.record.Some?
  }

  /** After migrating such a ledger every request id it vouches for has its record stored. */
  lemma {:induction false} VouchedMoved(codec: Codec, ledger: seq<Line<LedgerBatch>>)
    requires NamedRows(ledger) && HonestLedger(ledger)
    ensures Vouched(ThinLedger(codec, ledger)) <= RecordScan(MovedRecords(codec, ledger)).Keys
    decreases |ledger|
  {
    if ledger != [] {
      var n := |ledger| - 1;
      var rows, moved := ledger[n].value.leaves, MovedRecords(codec, ledger[..n]);
      assert ledger[n] in ledger;
      VouchedMoved(codec, ledger[..n]);
      VouchedAppend(ThinLedger(codec, ledger[..n]), BatchLine(codec, ThinBatch(ledger[n].value)));
      RowLocsScan(codec, moved, rows);
      forall rid | rid in VouchedBy(ThinBatch(ledger[n].value)) ensures rid in RowLocs(codec, rows, Size(moved)) {
        var i :| 0 <= i < |rows| && Vouches(Thin(rows)[i]) && Thin(rows)[i].rid == rid;
        assert rows[i] in rows;
        RowLocated(codec, rows, Size(moved), i);
      }
    }
  }

  lemma {:induction false} RowLocated(codec: Codec, rows: seq<LeafRow>, off: nat, i: nat)
    requires i < |rows| && rows[i].record.Some?
    ensures rows[i].rid in RowLocs(codec, rows, off)
    decreases |rows|
  {
    if i < |rows| - 1 { RowLocated(codec, rows[..|rows| - 1], off, i); }
  }

  /** The migrated files are ready for a start; if the old ledger was honest, `from` may be 0,
      and then no vouched record is ever lost. */
  lemma {:induction false} MigratedFilesOk(codec: Codec, ledger: seq<Line<LedgerBatch>>, from: nat)
    requires NamedRows(ledger) && (forall l | l in ledger :: SelfChecking(l.value))
    requires from == |ledger| || (from == 0 && HonestLedger(ledger))
    ensures var thin, records := ThinLedger(codec, ledger), MovedRecords(codec, ledger);
      FilesOk(thin, records, NewSidecar(codec, ledger), |thin|, |records|, from, {})
  {
    var thin, records := ThinLedger(codec, ledger), MovedRecords(codec, ledger);
    ThinLinesSound(codec, ledger);
    MovedLinesNotEmpty(codec, ledger);
    MigratedSidecarIsRebuild(codec, ledger);
    MovedRidsCarried(codec, ledger);
    assert thin[..|thin|] == thin && records[..|records|] == records && thin[|thin|..] == [] && thin[0..] == thin;
    if from == 0 && HonestLedger(ledger) { VouchedMoved(codec, ledger); }
  }

  lemma {:induction false} MigrationAddsNoProofs(codec: Codec, ledger: seq<Line<LedgerBatch>>, rid: string)
    ensures LastWith(ThinLedger(codec, ledger), rid).Some? <==> LastWith(ledger, rid).Some?
  {
    SameLastLine(codec, ledger, rid);
  }

  /** A process started on the given files, asked for one request id. */
  method ServeFrom(codec: Codec, files: Files, rid: string, from: nat, ghost a: nat, ghost b: nat, ghost hidden: set<string>)
    returns (proof: Option<Proof>)
    requires StartOk(files.ledger, files.records, files.sidecar, a, b, from, hidden)
    ensures proof.Some? <==> LastWith(files.ledger, rid).Some?
    ensures proof.Some? ==> ServesBut(files.ledger, files.records, Missing(files.sidecar, files.ledger, files.records), rid, proof.value)
  {
    var r := new Receipts.Open(codec, files.ledger, files.records, files.sidecar, from, a, b, hidden);
    proof := r.BuildReceiptProof(rid);
  }

  lemma {:induction false} SameService(codec: Codec, ledger: seq<Line<LedgerBatch>>, rid: string, p: Proof, q: Proof)
    requires rid != "" && Serves(ledger, [], rid, p) && Serves(ThinLedger(codec, ledger), MovedRecords(codec, ledger), rid, q)
    ensures q == p.(record := q.record) && (p.record.Some? ==> q.record == p.record)
  {
    MigrationPreservesProofs(codec, ledger, rid, p);
    ServedOnce(ThinLedger(codec, ledger), MovedRecords(codec, ledger), rid, p.(record := StoredRecord(MovedRecords(codec, ledger), rid)), q);
  }

  lemma {:induction false} NothingMissing(codec: Codec, ledger: seq<Line<LedgerBatch>>)
    requires NamedRows(ledger)
    ensures Missing(NewSidecar(codec, ledger), ThinLedger(codec, ledger), MovedRecords(codec, ledger)) == {}
  {
    NewSidecarValues(codec, ledger);
  }

  /** The code on both sides: what a process serves for a request id from the old files, and
      what a process started on the migrated ones serves. */
  method ServeAcrossMigration(codec: Codec, dir: Files, rid: string, ghost a: nat, ghost b: nat, ghost hidden: set<string>)
    returns (before: Option<Proof>, after: Option<Proof>)
    requires rid != "" && dir.ledger != [] && dir.records == [] && NamedRows(dir.ledger)
    requires FilesOk(dir.ledger, dir.records, dir.sidecar, a, b, |dir.ledger|, hidden)
    ensures before.Some? <==> after.Some?
    ensures before.Some? ==> after.value == before.value.(record := after.value.record)
    ensures before.Some? && before.value.record.Some? ==> after.value.record == before.value.record
  {
    before := ServeFrom(codec, dir, rid, |dir.ledger|, a, b, hidden);
    var r := MigrateFatLedger(codec, dir, 4);
    var files := r.files;
    MigratedFilesOk(codec, dir.ledger, |dir.ledger|);
    NothingMissing(codec, dir.ledger);
    after := ServeFrom(codec, files, rid, |files.ledger|, |files.ledger|, |files.records|, {});
    MigrationAddsNoProofs(codec, dir.ledger, rid);
    if before.Some? { SameService(codec, dir.ledger, rid, before.value, after.value); }
  }

  // ---- Interruption ----

  /** Stopped between renames, a request id keeps its last batch except in one window: once the
      old ledger is moved away and before the thin one is in place there is no ledger, so
      nothing at all is served. The code's own comment says otherwise. */
  lemma {:induction false} InterruptedMigration(codec: Codec, dir: Files, k: nat, rid: string)
    requires k <= 4 && LastWith(dir.ledger, rid).Some?
    ensures LastWith(Swapped(codec, dir, k).ledger, rid) == LastWith(dir.ledger, rid) <==> k != 3
    ensures k == 3 ==> LastWith(Swapped(codec, dir, k).ledger, rid) == None && Swapped(codec, dir, k).backup == dir.ledger
  {
    SameLastLine(codec, dir.ledger, rid);
  }

  /** Encoded lines shrink exactly when a record is stripped from them. */
  ghost predicate StrippingShrinks(codec: Codec, ledger: seq<Line<LedgerBatch>>) {
    forall l | l in ledger :: l.bytes == codec.batch(l.value) + 1
      && (if ThinBatch(l.value) == l.value then true else codec.batch(ThinBatch(l.value)) < codec.batch(l.value))
  }

  lemma {:induction false} ThinSize(codec: Codec, ledger: seq<Line<LedgerBatch>>)
    requires StrippingShrinks(codec, ledger)
    ensures Size(ThinLedger(codec, ledger)) <= Size(ledger)
    ensures Size(ThinLedger(codec, ledger)) == Size(ledger) <==> ThinLedger(codec, ledger) == ledger
    decreases |ledger|
  {
    if ledger != [] {
      var n := |ledger| - 1;
      assert ledger[n] in ledger && ledger == ledger[..n] + [ledger[n]];
      ThinSize(codec, ledger[..n]);
      assert ThinLedger(codec, ledger)[..n] == ThinLedger(codec, ledger[..n]);
      var last := BatchLine(codec, ThinBatch(ledger[n].value));
      if ThinLedger(codec, ledger) == ledger { assert last == ledger[n]; }
      if last.bytes == ledger[n].bytes { assert last == ledger[n]; }
    }
  }

  /** With the new sidecar beside the old ledger, a start does not trust it unless no line had
      a record to strip, and then the two ledgers are the same: the window is harmless. */
  lemma {:induction false} NewSidecarOldLedger(codec: Codec, dir: Files)
    requires StrippingShrinks(codec, dir.ledger)
    ensures var mid := Swapped(codec, dir, 2);
      SidecarSizes(mid.sidecar) == (Size(mid.ledger), Size(mid.records)) <==> ThinLedger(codec, dir.ledger) == dir.ledger
  {
    ThinSize(codec, dir.ledger);
    SidecarAppend(MigratedLines(codec, dir.ledger), Marker(ThinLedger(codec, dir.ledger), MovedRecords(codec, dir.ledger)));
  }

  // ---- Serving between the renames ----

  lemma {:induction false} NoLineNoBytes<T>(file: seq<Line<T>>)
    requires NoEmptyLines(file)
    ensures Size(file) == 0 <==> file == []
    decreases |file|
  {
    if file != [] {
      assert file[|file| - 1] in file;
      NoLineNoBytes(file[..|file| - 1]);
    }
  }

  lemma {:induction false} NothingStored(records: seq<Line<Stored>>)
    requires NoEmptyLines(records) && Size(records) == 0
    ensures records == [] && RecordScan(records).Keys == {}
  {
    NoLineNoBytes(records);
  }

  /** Once the records are moved in: the old sidecar still accounts for none of them. */
  lemma {:induction false} RecordsMoved(codec: Codec, dir: Files, a: nat, b: nat, hidden: set<string>)
    requires dir.records == [] && FilesOk(dir.ledger, [], dir.sidecar, a, b, |dir.ledger|, hidden)
    ensures var moved := MovedRecords(codec, dir.ledger);
      && FilesOk(dir.ledger, moved, dir.sidecar, a, b, |dir.ledger|, hidden)
      && Missing(dir.sidecar, dir.ledger, moved) == {}
  {
    var moved, none: seq<Line<Stored>> := MovedRecords(codec, dir.ledger), [];
    MovedLinesNotEmpty(codec, dir.ledger);
    assert b == 0 && moved[..0] == none[..0];
    assert dir.ledger[|dir.ledger|..] == [];
    if Size(moved) == 0 { NothingStored(moved); }
  }

  lemma {:induction false} NewSizes(codec: Codec, ledger: seq<Line<LedgerBatch>>)
    ensures SidecarSizes(NewSidecar(codec, ledger)) == (Size(ThinLedger(codec, ledger)), Size(MovedRecords(codec, ledger)))
  {
    SidecarAppend(MigratedLines(codec, ledger), Marker(ThinLedger(codec, ledger), MovedRecords(codec, ledger)));
  }

  /** Once the sidecar is in place, too: no start trusts it beside the old ledger, or the two
      ledgers are the same. */
  lemma {:induction false} SidecarMoved(codec: Codec, dir: Files, a: nat, b: nat, hidden: set<string>)
    requires dir.records == [] && FilesOk(dir.ledger, [], dir.sidecar, a, b, |dir.ledger|, hidden)
    requires NamedRows(dir.ledger) && StrippingShrinks(codec, dir.ledger)
    ensures var moved, sidecar := MovedRecords(codec, dir.ledger), NewSidecar(codec, dir.ledger);
      && StartOk(dir.ledger, moved, sidecar, |dir.ledger|, |moved|, |dir.ledger|, {})
      && Missing(sidecar, dir.ledger, moved) == {}
  {
    var moved, sidecar := MovedRecords(codec, dir.ledger), NewSidecar(codec, dir.ledger);
    MovedLinesNotEmpty(codec, dir.ledger);
    NewSizes(codec, dir.ledger);
    ThinSize(codec, dir.ledger);
    assert dir.ledger[|dir.ledger|..] == [];
    if SidecarSizes(sidecar) == (Size(dir.ledger), Size(moved)) {
      MigratedFilesOk(codec, dir.ledger, |dir.ledger|);
      NothingMissing(codec, dir.ledger);
    }
  }

  /** Once the old ledger is moved away there is nothing to serve from. */
  lemma {:induction false} LedgerMoved(codec: Codec, dir: Files)
    requires dir.ledger != []
    ensures StartOk([], MovedRecords(codec, dir.ledger), NewSidecar(codec, dir.ledger), 0, 0, 0, {})
  {
    var none: seq<Line<LedgerBatch>> := [];
    MovedLinesNotEmpty(codec, dir.ledger);
    NewSizes(codec, dir.ledger);
    ThinNotEmpty(codec, dir.ledger);
    assert none[0..] == none;
  }

  lemma {:induction false} ThinNotEmpty(codec: Codec, ledger: seq<Line<LedgerBatch>>)
    requires ledger != []
    ensures Size(ThinLedger(codec, ledger)) > 0
  {
    var n := |ledger| - 1;
    SizeSnoc(ThinLedger(codec, ledger[..n]), BatchLine(codec, ThinBatch(ledger[n].value)));
  }

  /** Beside the moved records the old ledger serves what the new one does. */
  lemma {:induction false} OldBesideMoved(codec: Codec, ledger: seq<Line<LedgerBatch>>, rid: string, p: Proof, q: Proof)
    requires rid != "" && Serves(ledger, MovedRecords(codec, ledger), rid, p)
    requires Serves(ThinLedger(codec, ledger), MovedRecords(codec, ledger), rid, q)
    ensures p == q
  {
    var moved, at := MovedRecords(codec, ledger), LastWith(ledger, rid).value;
    ThinServes(codec, ledger, rid, p, at);
    ServedOnce(ThinLedger(codec, ledger), moved, rid, p.(record := StoredRecord(moved, rid)), q);
    if ledger[at].value.leaves[p.index].record.Some? { MovedRecordFound(codec, ledger, rid, at, p.index); }
  }

  /** A process started on the files as they are after `k` renames. */
  method ServeInterrupted(codec: Codec, dir: Files, k: nat, rid: string, ghost a: nat, ghost b: nat, ghost hidden: set<string>)
    returns (proof: Option<Proof>)
    requires 1 <= k <= 4 && dir.ledger != [] && dir.records == [] && NamedRows(dir.ledger) && StrippingShrinks(codec, dir.ledger)
    requires FilesOk(dir.ledger, [], dir.sidecar, a, b, |dir.ledger|, hidden)
    ensures k == 3 ==> proof.None?
    ensures k != 3 ==> (proof.Some? <==> LastWith(dir.ledger, rid).Some?)
    ensures k != 3 && proof.Some? ==> Serves(Swapped(codec, dir, k).ledger, MovedRecords(codec, dir.ledger), rid, proof.value)
  {
    var r := MigrateFatLedger(codec, dir, k);
    var files := r.files;
    MigrationAddsNoProofs(codec, dir.ledger, rid);
    if k == 1 {
      RecordsMoved(codec, dir, a, b, hidden);
      proof := ServeFrom(codec, files, rid, |dir.ledger|, a, b, hidden);
    } else if k == 2 {
      SidecarMoved(codec, dir, a, b, hidden);
      proof := ServeFrom(codec, files, rid, |dir.ledger|, |dir.ledger|, |files.records|, {});
    } else if k == 3 {
      LedgerMoved(codec, dir);
      proof := ServeFrom(codec, files, rid, 0, 0, 0, {});
    } else {
      MigratedFilesOk(codec, dir.ledger, |dir.ledger|);
      NothingMissing(codec, dir.ledger);
      proof := ServeFrom(codec, files, rid, |files.ledger|, |files.ledger|, |files.records|, {});
    }
  }

  lemma {:induction false} SameDuring(codec: Codec, dir: Files, k: nat, rid: string, p: Proof, q: Proof)
    requires k == 1 || k == 2 || k == 4
    requires rid != "" && Serves(Swapped(codec, dir, k).ledger, MovedRecords(codec, dir.ledger), rid, p)
    requires Serves(ThinLedger(codec, dir.ledger), MovedRecords(codec, dir.ledger), rid, q)
    ensures p == q
  {
    if k == 4 {
      ServedOnce(ThinLedger(codec, dir.ledger), MovedRecords(codec, dir.ledger), rid, p, q);
    } else {
      OldBesideMoved(codec, dir.ledger, rid, p, q);
    }
  }

  /** What the serving code answers before the migration, after `k` of its renames, and after
      all: from the first rename on the same, with every record served before, except that
      nothing is served after three. */
  method ServeAtEveryStage(codec: Codec, dir: Files, k: nat, rid: string, ghost a: nat, ghost b: nat, ghost hidden: set<string>)
    returns (before: Option<Proof>, during: Option<Proof>, after: Option<Proof>)
    requires 1 <= k <= 4 && rid != "" && dir.ledger != [] && dir.records == [] && NamedRows(dir.ledger)
    requires StrippingShrinks(codec, dir.ledger) && FilesOk(dir.ledger, [], dir.sidecar, a, b, |dir.ledger|, hidden)
    ensures before.Some? <==> after.Some?
    ensures before.Some? ==> after.value == before.value.(record := after.value.record)
    ensures before.Some? && before.value.record.Some? ==> after.value.record == before.value.record
    ensures during == if k == 3 then None else after
  {
    before := ServeFrom(codec, dir, rid, |dir.ledger|, a, b, hidden);
    during := ServeInterrupted(codec, dir, k, rid, a, b, hidden);
    after := ServeInterrupted(codec, dir, 4, rid, a, b, hidden);
    if before.Some? { SameService(codec, dir.ledger, rid, before.value, after.value); }
    if k != 3 && after.Some? { SameDuring(codec, dir, k, rid, during.value, after.value); }
  }

  /** A second run is refused after one, two or four renames if any record was moved, and finds
      no ledger after three. If none was moved there was nothing to strip, and it runs through. */
  method SecondRun(codec: Codec, dir: Files, k: nat, renames: nat) returns (second: Result)
    requires 1 <= k <= 4 && dir.ledger != [] && Size(dir.records) == 0
    ensures k == 3 ==> second == NothingToMigrate
    ensures k != 3 && MovedRecords(codec, dir.ledger) != [] ==> second == Refused
    ensures k != 3 && MovedRecords(codec, dir.ledger) == [] ==>
      second == Migrated(Swapped(codec, Swapped(codec, dir, k), if renames < 4 then renames else 4))
  {
    var first := MigrateFatLedger(codec, dir, k);
    MovedLinesNotEmpty(codec, dir.ledger);
    NoLineNoBytes(MovedRecords(codec, dir.ledger));
    ThinNotEmpty(codec, dir.ledger);
    assert ThinLedger(codec, dir.ledger) != [];
    second := MigrateFatLedger(codec, first.files, renames);
  }
}
