/** Receipt-proof storage: an append-only ledger of confirmed batches, an append-only store of
    their records, and an index over both that survives restarts through a sidecar file. */
module ReceiptStore {
  import opened Orders
  import opened Merkle
  import opened Billing
  import opened Aggregator
  import opened Batches

  datatype LedgerBatch = LedgerBatch(
    detailsHash: Hash, legacyHash: Hash, merkleRoot: Hash, tx: string, block: nat, leaves: seq<LeafRow>)

  /** A line of a file: what it holds and how many bytes it takes. */
  datatype Line<T> = Line(value: T, bytes: nat)

  datatype Stored = Stored(rid: string, record: Record)

  datatype Loc = Loc(off: nat, len: nat)

  /** The sizes are those of the data files after the write the line accounts for. */
  datatype IdxLine = IdxLine(batchOff: nat, merkleSize: nat, recordSize: nat, rids: seq<string>, recs: map<string, Loc>)

  /** Lengths of encoded lines, newline excluded. */
  datatype Codec = Codec(record: Stored -> nat, batch: LedgerBatch -> nat)

  function RecordLine(codec: Codec, s: Stored): Line<Stored> { Line(s, codec.record(s) + 1) }

  function BatchLine(codec: Codec, b: LedgerBatch): Line<LedgerBatch> { Line(b, codec.batch(b) + 1) }

  /** The stored lines of a batch's rows. */
  function RowRecords(codec: Codec, rows: seq<LeafRow>): seq<Line<Stored>> {
    if rows == [] then []
    else
      var row := rows[|rows| - 1];
      RowRecords(codec, rows[..|rows| - 1])
        + if row.record.Some? then [RecordLine(codec, Stored(row.rid, row.record.value))] else []
  }

  function Size<T>(file: seq<Line<T>>): nat {
    if file == [] then 0 else Size(file[..|file| - 1]) + file[|file| - 1].bytes
  }

  ghost predicate NoEmptyLines<T>(file: seq<Line<T>>) { forall l | l in file :: l.bytes > 0 }

  function RidsOf(b: LedgerBatch): seq<string> { seq(|b.leaves|, i requires 0 <= i < |b.leaves| => b.leaves[i].rid) }

  predicate Carries(b: LedgerBatch, rid: string) { exists row | row in b.leaves :: row.rid == rid }

  // ---- What a plain scan finds ----

  function PutAll(m: map<string, nat>, rids: seq<string>, off: nat): map<string, nat> {
    m + map rid | rid in rids :: off
  }

  /** Request id -> offset of the last ledger line that carries it. */
  function MerkleScan(ledger: seq<Line<LedgerBatch>>): map<string, nat> {
    if ledger == [] then map[]
    else
      var n := |ledger| - 1;
      PutAll(MerkleScan(ledger[..n]), RidsOf(ledger[n].value), Size(ledger[..n]))
  }

  /** Request id -> place of its last stored record. */
  function RecordScan(records: seq<Line<Stored>>): map<string, Loc> {
    if records == [] then map[]
    else
      var n := |records| - 1;
      var before := RecordScan(records[..n]);
      if records[n].value.rid == "" then before else before[records[n].value.rid := Loc(Size(records[..n]), records[n].bytes)]
  }

  function LastWith(ledger: seq<Line<LedgerBatch>>, rid: string): (at: Option<nat>)
    ensures at.Some? ==> at.value < |ledger|
  {
    if ledger == [] then None
    else if Carries(ledger[|ledger| - 1].value, rid) then Some(|ledger| - 1)
    else LastWith(ledger[..|ledger| - 1], rid)
  }

  function LastRecord(records: seq<Line<Stored>>, rid: string): (at: Option<nat>)
    ensures at.Some? ==> at.value < |records|
  {
    if records == [] || rid == "" then None
    else if records[|records| - 1].value.rid == rid then Some(|records| - 1)
    else LastRecord(records[..|records| - 1], rid)
  }

  /** The last record stored for a request id. */
  function StoredRecord(records: seq<Line<Stored>>, rid: string): Option<Record> {
    match LastRecord(records, rid) case Some(i) => Some(records[i].value.record) case None => None
  }

  function LineAt<T>(file: seq<Line<T>>, off: nat): Option<T> {
    if file == [] then None
    else
      var n := |file| - 1;
      if off == Size(file[..n]) then Some(file[n].value) else LineAt(file[..n], off)
  }

  lemma CarriesRid(b: LedgerBatch, rid: string)
    ensures rid in RidsOf(b) <==> Carries(b, rid)
  {
    if Carries(b, rid) {
      var row :| row in b.leaves && row.rid == rid;
      var i :| 0 <= i < |b.leaves| && b.leaves[i] == row;
      assert RidsOf(b)[i] == rid;
    }
    if rid in RidsOf(b) {
      var i :| 0 <= i < |RidsOf(b)| && RidsOf(b)[i] == rid;
      assert b.leaves[i] in b.leaves && b.leaves[i].rid == rid;
    }
  }

  lemma {:induction false} ScanIsLast(ledger: seq<Line<LedgerBatch>>, rid: string)
    ensures match LastWith(ledger, rid)
      case None => rid !in MerkleScan(ledger)
      case Some(i) => i < |ledger| && rid in MerkleScan(ledger) && MerkleScan(ledger)[rid] == Size(ledger[..i])
    decreases |ledger|
  {
    if ledger != [] {
      var n := |ledger| - 1;
      CarriesRid(ledger[n].value, rid);
      ScanIsLast(ledger[..n], rid);
      if LastWith(ledger[..n], rid).Some? { assert ledger[..n][..LastWith(ledger[..n], rid).value] == ledger[..LastWith(ledger[..n], rid).value]; }
    }
  }

  lemma {:induction false} RecordScanIsLast(records: seq<Line<Stored>>, rid: string)
    ensures match LastRecord(records, rid)
      case None => rid !in RecordScan(records)
      case Some(i) => i < |records| && rid in RecordScan(records) && RecordScan(records)[rid] == Loc(Size(records[..i]), records[i].bytes)
    decreases |records|
  {
    if records != [] {
      var n := |records| - 1;
      RecordScanIsLast(records[..n], rid);
      if LastRecord(records[..n], rid).Some? {
        assert records[..n][..LastRecord(records[..n], rid).value] == records[..LastRecord(records[..n], rid).value];
      } else if rid == "" {
        EmptyRidNeverScanned(records);
      }
    }
  }

  lemma {:induction false} EmptyRidNeverScanned(records: seq<Line<Stored>>)
    ensures "" !in RecordScan(records)
    decreases |records|
  {
    if records != [] { EmptyRidNeverScanned(records[..|records| - 1]); }
  }

  lemma {:induction false} SizePrefix<T>(file: seq<Line<T>>, i: nat)
    requires i <= |file| && NoEmptyLines(file)
    ensures Size(file[..i]) <= Size(file) && (i < |file| ==> Size(file[..i]) < Size(file))
    decreases |file|
  {
    if file != [] {
      assert file[|file| - 1] in file;
      if i < |file| {
        SizePrefix(file[..|file| - 1], i);
        assert file[..|file| - 1][..i] == file[..i];
      } else {
        assert file[..i] == file;
      }
    }
  }

  /** Offsets identify lines: seeking to where line `i` starts reads line `i`. */
  lemma {:induction false} LineAtStart<T>(file: seq<Line<T>>, i: nat)
    requires i < |file| && NoEmptyLines(file)
    ensures LineAt(file, Size(file[..i])) == Some(file[i].value)
    decreases |file|
  {
    var n := |file| - 1;
    if i < n {
      assert file[..n][..i] == file[..i];
      SizePrefix(file[..n], i);
      LineAtStart(file[..n], i);
    }
  }

  // ---- What the sidecar says ----

  function SidecarMerkle(lines: seq<IdxLine>): map<string, nat> {
    if lines == [] then map[]
    else PutAll(SidecarMerkle(lines[..|lines| - 1]), lines[|lines| - 1].rids, lines[|lines| - 1].batchOff)
  }

  function SidecarRecords(lines: seq<IdxLine>): map<string, Loc> {
    if lines == [] then map[] else SidecarRecords(lines[..|lines| - 1]) + lines[|lines| - 1].recs
  }

  /** The last line's sizes; a missing or empty sidecar accounts for empty files. */
  function SidecarSizes(lines: seq<IdxLine>): (nat, nat) {
    if lines == [] then (0, 0) else (lines[|lines| - 1].merkleSize, lines[|lines| - 1].recordSize)
  }

  function Without<V>(m: map<string, V>, gone: set<string>): map<string, V> { m - gone }

  /** The sidecar accounts for the first `a` ledger lines and the first `b` records, and knows
      the place of every stored record but those of `hidden`. */
  ghost predicate Accounts(sidecar: seq<IdxLine>, ledger: seq<Line<LedgerBatch>>, records: seq<Line<Stored>>, a: nat, b: nat, hidden: set<string>) {
    && a <= |ledger| && b <= |records|
    && SidecarMerkle(sidecar) == MerkleScan(ledger[..a])
    && SidecarRecords(sidecar) == Without(RecordScan(records[..b]), hidden)
    && SidecarSizes(sidecar) == (Size(ledger[..a]), Size(records[..b]))
  }

  lemma {:induction false} SizesTell<T>(file: seq<Line<T>>, a: nat)
    requires NoEmptyLines(file) && a <= |file|
    ensures Size(file[..a]) == Size(file) <==> a == |file|
  {
    SizePrefix(file, a);
    assert file[..|file|] == file;
  }

  // ---- Which records the ledger vouches for ----

  /** The row's leaf is the digest of a receipt, so it was planned with its record at hand. */
  predicate Vouches(row: LeafRow) { row.leaf.Digest? && row.leaf.payload.ReceiptLeaf? }

  function VouchedBy(b: LedgerBatch): set<string> { set row | row in b.leaves && Vouches(row) :: row.rid }

  /** The request ids some ledger line has a receipt leaf for. */
  function Vouched(ledger: seq<Line<LedgerBatch>>): set<string> {
    if ledger == [] then {} else Vouched(ledger[..|ledger| - 1]) + VouchedBy(ledger[|ledger| - 1].value)
  }

  lemma {:induction false} VouchedAppend(ledger: seq<Line<LedgerBatch>>, l: Line<LedgerBatch>)
    ensures Vouched(ledger + [l]) == Vouched(ledger) + VouchedBy(l.value)
  {
    assert (ledger + [l])[..|ledger|] == ledger;
  }

  lemma VouchedListed(b: LedgerBatch)
    ensures forall rid | rid in VouchedBy(b) :: rid in RidsOf(b)
  {
    forall rid | rid in VouchedBy(b) ensures rid in RidsOf(b) { CarriesRid(b, rid); }
  }

  lemma {:induction false} VouchedCarried(ledger: seq<Line<LedgerBatch>>, from: nat)
    requires from <= |ledger|
    ensures Vouched(ledger[from..]) <= MerkleScan(ledger).Keys
    decreases |ledger|
  {
    if from < |ledger| {
      var n := |ledger| - 1;
      VouchedCarried(ledger[..n], from);
      assert ledger[from..] == ledger[..n][from..] + [ledger[n]];
      VouchedAppend(ledger[..n][from..], ledger[n]);
      VouchedListed(ledger[n].value);
    }
  }

  /** The stored request ids an index replayed from the sidecar lacks; nothing when the sizes
      have moved on, because then both files are scanned. */
  function Missing(sidecar: seq<IdxLine>, ledger: seq<Line<LedgerBatch>>, records: seq<Line<Stored>>): set<string> {
    if SidecarSizes(sidecar) == (Size(ledger), Size(records)) then RecordScan(records).Keys - SidecarRecords(sidecar).Keys else {}
  }

  /** `hidden` is what the sidecar lacks of what it accounts for: at least the records of ids no
      line carries, at most those of ids no line vouches for. */
  ghost predicate Bounded(ledger: seq<Line<LedgerBatch>>, records: seq<Line<Stored>>, a: nat, b: nat, from: nat, hidden: set<string>) {
    && a <= |ledger| && b <= |records| && from <= |ledger|
    && RecordScan(records[..b]).Keys - MerkleScan(ledger[..a]).Keys <= hidden <= RecordScan(records[..b]).Keys
    && Vouched(ledger[from..]) <= RecordScan(records).Keys
    && (a == |ledger| ==> hidden !! Vouched(ledger[from..]))
  }

  /** Records read back from the ledger for one line of a rebuilt sidecar. */
  function RecsFor(rids: seq<string>, recordIdx: map<string, Loc>): map<string, Loc> {
    map rid | rid in rids && rid in recordIdx :: recordIdx[rid]
  }

  function RebuiltLines(ledger: seq<Line<LedgerBatch>>, recordIdx: map<string, Loc>): seq<IdxLine> {
    if ledger == [] then []
    else
      var n := |ledger| - 1;
      var rids := RidsOf(ledger[n].value);
      RebuiltLines(ledger[..n], recordIdx) + [IdxLine(Size(ledger[..n]), 0, 0, rids, RecsFor(rids, recordIdx))]
  }

  lemma {:induction false} RebuiltMerkle(ledger: seq<Line<LedgerBatch>>, recordIdx: map<string, Loc>)
    ensures SidecarMerkle(RebuiltLines(ledger, recordIdx)) == MerkleScan(ledger)
    decreases |ledger|
  {
    if ledger != [] {
      var n := |ledger| - 1;
      var rids := RidsOf(ledger[n].value);
      RebuiltMerkle(ledger[..n], recordIdx);
      SidecarAppend(RebuiltLines(ledger[..n], recordIdx), IdxLine(Size(ledger[..n]), 0, 0, rids, RecsFor(rids, recordIdx)));
    }
  }

  function KeptBy<U, V>(m: map<string, V>, keys: map<string, U>): map<string, V> { map k | k in m && k in keys :: m[k] }

  lemma KeptMore(recordIdx: map<string, Loc>, idx: map<string, nat>, rids: seq<string>, off: nat)
    ensures KeptBy(recordIdx, idx) + RecsFor(rids, recordIdx) == KeptBy(recordIdx, PutAll(idx, rids, off))
  {
  }

  lemma {:induction false} RebuiltRecords(ledger: seq<Line<LedgerBatch>>, recordIdx: map<string, Loc>)
    ensures SidecarRecords(RebuiltLines(ledger, recordIdx)) == KeptBy(recordIdx, MerkleScan(ledger))
    decreases |ledger|
  {
    if ledger != [] {
      var n := |ledger| - 1;
      var rids := RidsOf(ledger[n].value);
      RebuiltRecords(ledger[..n], recordIdx);
      SidecarAppend(RebuiltLines(ledger[..n], recordIdx), IdxLine(Size(ledger[..n]), 0, 0, rids, RecsFor(rids, recordIdx)));
      KeptMore(recordIdx, MerkleScan(ledger[..n]), rids, Size(ledger[..n]));
    }
  }

  function Marker(ledger: seq<Line<LedgerBatch>>, records: seq<Line<Stored>>): IdxLine {
    IdxLine(0, Size(ledger), Size(records), [], map[])
  }

  lemma KeptAreTheRest<U, V>(m: map<string, V>, kept: map<string, U>)
    ensures KeptBy(m, kept) == Without(m, m.Keys - kept.Keys)
  {
  }

  lemma MergeHidden<V>(m: map<string, V>, hidden: set<string>, more: map<string, V>)
    ensures Without(m, hidden) + more == Without(m + more, hidden - more.Keys)
  {
  }

  lemma {:induction false} SidecarAppend(lines: seq<IdxLine>, line: IdxLine)
    ensures SidecarMerkle(lines + [line]) == PutAll(SidecarMerkle(lines), line.rids, line.batchOff)
    ensures SidecarRecords(lines + [line]) == SidecarRecords(lines) + line.recs
    ensures SidecarSizes(lines + [line]) == (line.merkleSize, line.recordSize)
  {
    assert (lines + [line])[..|lines|] == lines;
  }

  /** A rebuilt sidecar accounts for everything, but forgets the records of request ids that
      no ledger line carries. */
  lemma {:induction false} RebuiltAccounts(ledger: seq<Line<LedgerBatch>>, records: seq<Line<Stored>>)
    ensures Accounts(RebuiltLines(ledger, RecordScan(records)) + [Marker(ledger, records)], ledger, records, |ledger|, |records|,
                     RecordScan(records).Keys - MerkleScan(ledger).Keys)
  {
    var idx := RecordScan(records);
    var lines := RebuiltLines(ledger, idx);
    RebuiltMerkle(ledger, idx);
    RebuiltRecords(ledger, idx);
    SidecarAppend(lines, Marker(ledger, records));
    KeptAreTheRest(idx, MerkleScan(ledger));
    NothingPut(MerkleScan(ledger));
    assert SidecarRecords(lines) + map[] == SidecarRecords(lines);
    assert ledger[..|ledger|] == ledger && records[..|records|] == records;
  }

  lemma NothingPut(m: map<string, nat>)
    ensures PutAll(m, [], 0) == m
  {
  }

  // ---- Appends keep the scans ----

  lemma {:induction false} ScanAppend(ledger: seq<Line<LedgerBatch>>, l: Line<LedgerBatch>)
    ensures MerkleScan(ledger + [l]) == PutAll(MerkleScan(ledger), RidsOf(l.value), Size(ledger))
    ensures Size(ledger + [l]) == Size(ledger) + l.bytes
  {
    assert (ledger + [l])[..|ledger|] == ledger;
  }

  lemma {:induction false} RecordScanAppend(records: seq<Line<Stored>>, l: Line<Stored>)
    requires l.value.rid != ""
    ensures RecordScan(records + [l]) == RecordScan(records)[l.value.rid := Loc(Size(records), l.bytes)]
    ensures Size(records + [l]) == Size(records) + l.bytes
  {
    assert (records + [l])[..|records|] == records;
  }

  /** One more batch, indexed in lockstep: the sidecar line repeats what the data files got. */
  lemma {:induction false} AccountsAppend(sidecar: seq<IdxLine>, ledger: seq<Line<LedgerBatch>>, before: seq<Line<Stored>>, records: seq<Line<Stored>>,
                       hidden: set<string>, l: Line<LedgerBatch>, locs: map<string, Loc>)
    requires Accounts(sidecar, ledger, before, |ledger|, |before|, hidden)
    requires RecordScan(records) == RecordScan(before) + locs
    ensures Accounts(sidecar + [IdxLine(Size(ledger), Size(ledger + [l]), Size(records), RidsOf(l.value), locs)],
                     ledger + [l], records, |ledger| + 1, |records|, hidden - locs.Keys)
  {
    ScanAppend(ledger, l);
    SidecarAppend(sidecar, IdxLine(Size(ledger), Size(ledger + [l]), Size(records), RidsOf(l.value), locs));
    assert ledger[..|ledger|] == ledger && before[..|before|] == before;
    assert (ledger + [l])[..|ledger| + 1] == ledger + [l] && records[..|records|] == records;
    MergeHidden(RecordScan(before), hidden, locs);
  }

  /** A ledgered batch is self-checking: its rows' root is the stored one and combines with the
      legacy hash to the details hash on chain. */
  ghost predicate SelfChecking(b: LedgerBatch) {
    && PerfectLevel(RowLeaves(b.leaves), 0) && Root(RowLeaves(b.leaves)) == b.merkleRoot
    && b.detailsHash == CombinedDetailsHash(b.legacyHash, b.merkleRoot)
  }

  /** Enough, for the files alone, to recover from a crash at this point. */
  ghost predicate FilesOk(ledger: seq<Line<LedgerBatch>>, records: seq<Line<Stored>>, sidecar: seq<IdxLine>, a: nat, b: nat, from: nat,
                          hidden: set<string>) {
    && NoEmptyLines(ledger) && NoEmptyLines(records)
    && (forall l | l in ledger :: SelfChecking(l.value))
    && Accounts(sidecar, ledger, records, a, b, hidden)
    && Bounded(ledger, records, a, b, from, hidden)
  }

  /** Ledger and records alone, whatever the sidecar says. */
  ghost predicate DataOk(ledger: seq<Line<LedgerBatch>>, records: seq<Line<Stored>>, from: nat) {
    && NoEmptyLines(ledger) && NoEmptyLines(records)
    && (forall l | l in ledger :: SelfChecking(l.value))
    && from <= |ledger| && Vouched(ledger[from..]) <= RecordScan(records).Keys
  }

  /** Enough for a start: such files, or a sidecar no start will trust. */
  ghost predicate StartOk(ledger: seq<Line<LedgerBatch>>, records: seq<Line<Stored>>, sidecar: seq<IdxLine>, a: nat, b: nat, from: nat,
                          hidden: set<string>) {
    || FilesOk(ledger, records, sidecar, a, b, from, hidden)
    || (DataOk(ledger, records, from) && SidecarSizes(sidecar) != (Size(ledger), Size(records)))
  }

  ghost predicate IndexOk(idx: Option<map<string, nat>>, locs: Option<map<string, Loc>>,
                          ledger: seq<Line<LedgerBatch>>, records: seq<Line<Stored>>, hidden: set<string>, lost: set<string>) {
    idx == Some(MerkleScan(ledger)) && locs == Some(Without(RecordScan(records), lost)) && (lost == {} || lost == hidden)
  }

  /** A sidecar is accepted exactly when it accounts for everything, and then it knows all but
      the hidden. */
  lemma {:induction false} AcceptedSidecar(sidecar: seq<IdxLine>, ledger: seq<Line<LedgerBatch>>, records: seq<Line<Stored>>,
                                           a: nat, b: nat, from: nat, hidden: set<string>)
    requires FilesOk(ledger, records, sidecar, a, b, from, hidden)
    ensures var accepted := SidecarSizes(sidecar) == (Size(ledger), Size(records));
      && (accepted <==> a == |ledger| && b == |records|)
      && (accepted ==> IndexOk(Some(SidecarMerkle(sidecar)), Some(SidecarRecords(sidecar)), ledger, records, hidden, hidden))
      && Missing(sidecar, ledger, records) == if accepted then hidden else {}
  {
    SizesTell(ledger, a);
    SizesTell(records, b);
    assert ledger[..|ledger|] == ledger && records[..|records|] == records;
  }

  /** A rebuild leaves nothing out of the index, and out of the sidecar what no line carries. */
  lemma {:induction false} RebuiltFiles(ledger: seq<Line<LedgerBatch>>, records: seq<Line<Stored>>, from: nat)
    requires DataOk(ledger, records, from)
    ensures var idx, locs := MerkleScan(ledger), RecordScan(records);
      && FilesOk(ledger, records, RebuiltLines(ledger, locs) + [Marker(ledger, records)], |ledger|, |records|, from, locs.Keys - idx.Keys)
      && IndexOk(Some(idx), Some(locs), ledger, records, locs.Keys - idx.Keys, {})
  {
    RebuiltAccounts(ledger, records);
    assert Without(RecordScan(records), {}) == RecordScan(records);
    VouchedCarried(ledger, from);
    assert records[..|records|] == records && ledger[..|ledger|] == ledger;
  }

  /** A record appended to the store, before its ledger line follows. */
  lemma {:induction false} RecordAppended(ledger: seq<Line<LedgerBatch>>, records: seq<Line<Stored>>, sidecar: seq<IdxLine>,
                                          a: nat, b: nat, from: nat, hidden: set<string>, l: Line<Stored>)
    requires FilesOk(ledger, records, sidecar, a, b, from, hidden) && l.bytes > 0 && l.value.rid != ""
    ensures FilesOk(ledger, records + [l], sidecar, a, b, from, hidden)
  {
    RecordScanAppend(records, l);
    assert (records + [l])[..b] == records[..b];
  }

  /** A ledger line whose records are stored already, before the indexes follow. */
  lemma {:induction false} LineAppended(ledger: seq<Line<LedgerBatch>>, records: seq<Line<Stored>>, sidecar: seq<IdxLine>,
                                        a: nat, b: nat, from: nat, hidden: set<string>, l: Line<LedgerBatch>)
    requires FilesOk(ledger, records, sidecar, a, b, from, hidden)
    requires l.bytes > 0 && SelfChecking(l.value) && VouchedBy(l.value) <= RecordScan(records).Keys
    ensures FilesOk(ledger + [l], records, sidecar, a, b, from, hidden)
    ensures Vouched((ledger + [l])[from..]) == Vouched(ledger[from..]) + VouchedBy(l.value)
  {
    assert (ledger + [l])[..a] == ledger[..a] && (ledger + [l])[from..] == ledger[from..] + [l];
    VouchedAppend(ledger[from..], l);
    LinesGood(ledger, l);
  }

  lemma LinesGood(ledger: seq<Line<LedgerBatch>>, l: Line<LedgerBatch>)
    requires NoEmptyLines(ledger) && (forall x | x in ledger :: SelfChecking(x.value)) && l.bytes > 0 && SelfChecking(l.value)
    ensures NoEmptyLines(ledger + [l]) && forall x | x in ledger + [l] :: SelfChecking(x.value)
  {
    forall x | x in ledger + [l] ensures x.bytes > 0 && SelfChecking(x.value) { assert x in ledger || x == l; }
  }

  lemma {:induction false} AppendBounded(ledger: seq<Line<LedgerBatch>>, before: seq<Line<Stored>>, records: seq<Line<Stored>>, from: nat,
                                         hidden: set<string>, l: Line<LedgerBatch>, locs: map<string, Loc>)
    requires Bounded(ledger, before, |ledger|, |before|, from, hidden)
    requires RecordScan(records) == RecordScan(before) + locs && locs.Keys == VouchedBy(l.value)
    ensures Bounded(ledger + [l], records, |ledger| + 1, |records|, from, hidden - locs.Keys)
  {
    assert ledger[..|ledger|] == ledger && before[..|before|] == before && records[..|records|] == records;
    assert (ledger + [l])[..|ledger| + 1] == ledger + [l] && (ledger + [l])[from..] == ledger[from..] + [l];
    VouchedAppend(ledger[from..], l);
    ScanAppend(ledger, l);
    forall rid | rid in locs ensures rid in RidsOf(l.value) { CarriesRid(l.value, rid); }
  }

  /** The same line once the indexes and the sidecar have followed. */
  lemma {:induction false} IndexesFollow(ledger: seq<Line<LedgerBatch>>, before: seq<Line<Stored>>, records: seq<Line<Stored>>,
                                         sidecar: seq<IdxLine>, from: nat, hidden: set<string>, lost: set<string>,
                                         idx: map<string, nat>, recs: map<string, Loc>, l: Line<LedgerBatch>, locs: map<string, Loc>)
    requires Accounts(sidecar, ledger, before, |ledger|, |before|, hidden) && Bounded(ledger, before, |ledger|, |before|, from, hidden)
    requires FilesOk(ledger + [l], records, sidecar, |ledger|, |before|, from, hidden)
    requires IndexOk(Some(idx), Some(recs), ledger, before, hidden, lost)
    requires RecordScan(records) == RecordScan(before) + locs && locs.Keys == VouchedBy(l.value)
    ensures var line := IdxLine(Size(ledger), Size(ledger + [l]), Size(records), RidsOf(l.value), locs);
      FilesOk(ledger + [l], records, sidecar + [line], |ledger| + 1, |records|, from, hidden - locs.Keys)
    ensures IndexOk(Some(PutAll(idx, RidsOf(l.value), Size(ledger))), Some(recs + locs), ledger + [l], records,
                    hidden - locs.Keys, lost - locs.Keys)
  {
    ScanAppend(ledger, l);
    MergeHidden(RecordScan(before), lost, locs);
    AppendBounded(ledger, before, records, from, hidden, l, locs);
    AccountsAppend(sidecar, ledger, before, records, hidden, l, locs);
  }

  // ---- The code ----

  datatype Proof = Proof(sp: string, record: Option<Record>, leaf: Hash, index: nat, path: seq<Hash>,
                         merkleRoot: Hash, legacyHash: Hash, detailsHash: Hash)

  class Receipts {
    const codec: Codec
    var ledger: seq<Line<LedgerBatch>>
    var records: seq<Line<Stored>>
    var sidecar: seq<IdxLine>
    var merkleIdx: Option<map<string, nat>>       // None until first loaded
    var recordIdx: Option<map<string, Loc>>
    var warm: bool
    const from: nat                               // lines found when the store was opened
    ghost var a: nat
    ghost var b: nat
    ghost var hidden: set<string>
    ghost var lost: set<string>                   // stored ids the record index does not know

    /** What every single write keeps: enough to recover from a crash after it. */
    ghost predicate DiskOk()
      reads this
    {
      FilesOk(ledger, records, sidecar, a, b, from, hidden)
    }

    /** What a start needs. */
    ghost predicate CanStart()
      reads this
    {
      StartOk(ledger, records, sidecar, a, b, from, hidden)
    }

    /** Between appends, once warm: the indexes are what scans of the files would find, except
        for the records of `lost`, and the sidecar accounts for everything. */
    ghost predicate Indexed()
      reads this
    {
      DiskOk() && warm && a == |ledger| && b == |records| && IndexOk(merkleIdx, recordIdx, ledger, records, hidden, lost)
    }

    /** What the index misses is never something a receipt leaf vouches for. */
    lemma LostAreUnvouched()
      requires Indexed()
      ensures lost <= RecordScan(records).Keys && lost !! Vouched(ledger[from..])
    {
      assert records[..b] == records;
    }

    constructor (codec: Codec)
      ensures DiskOk() && !warm && ledger == [] && records == [] && hidden == {} && this.codec == codec
    {
      this.codec, from := codec, 0;
      ledger, records, sidecar := [], [], [];
      merkleIdx, recordIdx, warm := None, None, false;
      a, b, hidden, lost := 0, 0, {}, {};
    }

    /** A start on the files of an earlier process. */
    constructor Open(codec: Codec, ledger: seq<Line<LedgerBatch>>, records: seq<Line<Stored>>, sidecar: seq<IdxLine>, from: nat,
                     ghost a: nat, ghost b: nat, ghost hidden: set<string>)
      requires StartOk(ledger, records, sidecar, a, b, from, hidden)
      ensures CanStart() && !warm && this.codec == codec && this.from == from
      ensures FilesOk(ledger, records, sidecar, a, b, from, hidden) ==> DiskOk()
      ensures this.ledger == ledger && this.records == records && this.sidecar == sidecar
    {
      this.codec, this.from := codec, from;
      this.ledger, this.records, this.sidecar := ledger, records, sidecar;
      merkleIdx, recordIdx, warm := None, None, false;
      this.a, this.b, this.hidden, lost := a, b, hidden, {};
    }

    /** A process crash loses the indexes, wherever an append was. */
    method Crash()
      modifies this`merkleIdx, this`recordIdx, this`warm
      ensures !warm && merkleIdx.None? && recordIdx.None?
    {
      merkleIdx, recordIdx, warm := None, None, false;
    }

    method ScanRecordStore() returns (idx: map<string, Loc>)
      ensures idx == RecordScan(records)
    {
      idx := map[];
      var off := 0;
      for i := 0 to |records|
        invariant idx == RecordScan(records[..i]) && off == Size(records[..i])
      {
        assert records[..i + 1][..i] == records[..i];
        var rid := records[i].value.rid;
        if rid != "" { idx := idx[rid := Loc(off, records[i].bytes)]; }
        off := off + records[i].bytes;
      }
      assert records[..|records|] == records;
    }

    /** Accepts the sidecar only if its sizes still match the data files. */
    method ReplaySidecar() returns (ok: bool)
      modifies this`merkleIdx, this`recordIdx
      ensures ok <==> SidecarSizes(sidecar) == (Size(ledger), Size(records))
      ensures ok ==> merkleIdx == Some(SidecarMerkle(sidecar)) && recordIdx == Some(SidecarRecords(sidecar))
      ensures !ok ==> merkleIdx == old(merkleIdx) && recordIdx == old(recordIdx)
    {
      var m, rr, lastMerkle, lastRecord := map[], map[], 0, 0;
      for i := 0 to |sidecar|
        invariant m == SidecarMerkle(sidecar[..i]) && rr == SidecarRecords(sidecar[..i])
        invariant (lastMerkle, lastRecord) == SidecarSizes(sidecar[..i])
      {
        assert sidecar[..i + 1][..i] == sidecar[..i];
        var e := sidecar[i];
        m := PutAll(m, e.rids, e.batchOff);
        rr := rr + e.recs;
        lastMerkle, lastRecord := e.merkleSize, e.recordSize;
      }
      assert sidecar[..|sidecar|] == sidecar;
      if lastMerkle != Size(ledger) || lastRecord != Size(records) { return false; }
      merkleIdx, recordIdx := Some(m), Some(rr);
      return true;
    }

    method ScanLedger(locs: map<string, Loc>) returns (idx: map<string, nat>, lines: seq<IdxLine>)
      ensures idx == MerkleScan(ledger) && lines == RebuiltLines(ledger, locs)
    {
      idx, lines := map[], [];
      var off := 0;
      for i := 0 to |ledger|
        invariant idx == MerkleScan(ledger[..i]) && lines == RebuiltLines(ledger[..i], locs) && off == Size(ledger[..i])
      {
        assert ledger[..i + 1][..i] == ledger[..i];
        var rids := RidsOf(ledger[i].value);
        idx := PutAll(idx, rids, off);
        lines := lines + [IdxLine(off, 0, 0, rids, RecsFor(rids, locs))];
        off := off + ledger[i].bytes;
      }
      assert ledger[..|ledger|] == ledger;
    }

    /** Scans both files once and replaces the sidecar. */
    method RebuildFromData()
      requires DataOk(ledger, records, from)
      modifies this`merkleIdx, this`recordIdx, this`sidecar, this`a, this`b, this`hidden, this`lost
      ensures DiskOk() && IndexOk(merkleIdx, recordIdx, ledger, records, hidden, lost) && lost == {}
      ensures a == |ledger| && b == |records| && hidden == RecordScan(records).Keys - MerkleScan(ledger).Keys
    {
      var locs := ScanRecordStore();
      var idx, lines := ScanLedger(locs);
      var marker := IdxLine(0, Size(ledger), Size(records), [], map[]);
      assert marker == Marker(ledger, records);
      RebuiltFiles(ledger, records, from);
      Install(idx, locs, lines + [marker], |ledger|, |records|, locs.Keys - idx.Keys, {});
    }

    /** The indexes and the sidecar are replaced together, under the index lock. */
    method Install(idx: map<string, nat>, locs: map<string, Loc>, lines: seq<IdxLine>, ghost newA: nat, ghost newB: nat, ghost newHidden: set<string>,
                   ghost newLost: set<string>)
      modifies this`merkleIdx, this`recordIdx, this`sidecar, this`a, this`b, this`hidden, this`lost
      ensures merkleIdx == Some(idx) && recordIdx == Some(locs) && sidecar == lines
      ensures a == newA && b == newB && hidden == newHidden && lost == newLost
    {
      merkleIdx, recordIdx, sidecar := Some(idx), Some(locs), lines;
      a, b, hidden, lost := newA, newB, newHidden, newLost;
    }

    /** `loadOrWarmIndexes`: after any crash, the merkle index is the scan of the ledger, and
        the record index is the scan of the store but for what the sidecar lacks, if it is
        accepted, and never for an id the ledger vouches for. */
    method Warm()
      requires CanStart() && (warm ==> Indexed())
      modifies this`merkleIdx, this`recordIdx, this`sidecar, this`warm, this`a, this`b, this`hidden, this`lost
      ensures Indexed() && lost !! Vouched(ledger[from..])
      ensures lost == if old(warm) then old(lost) else old(Missing(sidecar, ledger, records))
      ensures !old(warm) && old(SidecarSizes(sidecar)) != (Size(ledger), Size(records)) ==>
        hidden == RecordScan(records).Keys - MerkleScan(ledger).Keys
    {
      if !warm { LoadIndexes(); }
      LostAreUnvouched();
    }

    method LoadIndexes()
      requires CanStart() && !warm
      modifies this`merkleIdx, this`recordIdx, this`sidecar, this`warm, this`a, this`b, this`hidden, this`lost
      ensures Indexed() && lost == old(Missing(sidecar, ledger, records))
      ensures old(SidecarSizes(sidecar)) != (Size(ledger), Size(records)) ==> hidden == RecordScan(records).Keys - MerkleScan(ledger).Keys
    {
      if DiskOk() { AcceptedSidecar(sidecar, ledger, records, a, b, from, hidden); }
      var replayed := ReplaySidecar();
      warm := true;
      if replayed {
        lost := hidden;
        return;
      }
      RebuildFromData();
    }

    method AppendReceiptRecord(rid: string, rec: Record) returns (loc: Loc)
      requires DiskOk() && rid != ""
      modifies this`records
      ensures DiskOk() && records == old(records) + [RecordLine(codec, Stored(rid, rec))]
      ensures loc == Loc(Size(old(records)), codec.record(Stored(rid, rec)) + 1)
    {
      var line := RecordLine(codec, Stored(rid, rec));
      loc := Loc(Size(records), line.bytes);
      RecordAppended(ledger, records, sidecar, a, b, from, hidden, line);
      records := records + [line];
    }

    /** Moves the rows' records into the record store; a crash may cut this short anywhere. */
    method StoreRecords(rows: seq<LeafRow>) returns (locs: map<string, Loc>, thin: seq<LeafRow>)
      requires DiskOk() && forall row | row in rows :: row.rid != ""
      modifies this`records
      ensures DiskOk() && RowsStored(codec, old(records), records, rows, locs)
      ensures thin == Thin(rows)
    {
      locs, thin := map[], [];
      assert records + [] == records && rows[..0] == [];
      for i := 0 to |rows|
        invariant DiskOk() && RowsStored(codec, old(records), records, rows[..i], locs)
        invariant thin == Thin(rows[..i])
      {
        assert rows[..i + 1] == rows[..i] + [rows[i]];
        ThinAppend(rows[..i], rows[i]);
        thin := thin + [LeafRow(rows[i].rid, rows[i].leaf, rows[i].sp, None)];
        locs := StoreRow(rows[i], locs, old(records), rows[..i]);
      }
      assert rows[..|rows|] == rows;
    }

    method StoreRow(row: LeafRow, locs0: map<string, Loc>, ghost before: seq<Line<Stored>>, ghost rows: seq<LeafRow>)
      returns (locs: map<string, Loc>)
      requires DiskOk() && row.rid != "" && RowsStored(codec, before, records, rows, locs0)
      modifies this`records
      ensures DiskOk() && RowsStored(codec, before, records, rows + [row], locs)
    {
      locs := locs0;
      RowsStep(codec, before, records, rows, locs, row);
      if row.record.Some? {
        var loc := AppendReceiptRecord(row.rid, row.record.value);
        locs := locs[row.rid := loc];
      }
    }

    method AppendLedgerLine(batch: LedgerBatch) returns (off: nat)
      requires DiskOk() && SelfChecking(batch) && VouchedBy(batch) <= RecordScan(records).Keys
      modifies this`ledger
      ensures DiskOk() && ledger == old(ledger) + [BatchLine(codec, batch)] && off == Size(old(ledger))
      ensures Vouched(ledger[from..]) == old(Vouched(ledger[from..])) + VouchedBy(batch)
    {
      off := Size(ledger);
      var line := BatchLine(codec, batch);
      LineAppended(ledger, records, sidecar, a, b, from, hidden, line);
      ledger := ledger + [line];
    }

    method LedgerHasHash(h: Hash) returns (found: bool)
      ensures found <==> exists l | l in ledger :: l.value.detailsHash == h
    {
      for i := 0 to |ledger|
        invariant forall l | l in ledger[..i] :: l.value.detailsHash != h
      {
        assert ledger[..i + 1] == ledger[..i] + [ledger[i]];
        if ledger[i].value.detailsHash == h { return true; }
      }
      assert ledger[..|ledger|] == ledger;
      return false;
    }

    /** `appendMerkleLedger`: idempotent by details hash; records first, then the thin line,
        then indexes and sidecar. The new line vouches for every record stored with it, and
        what the ledger vouches for is found after any restart. */
    method AppendMerkleLedger(pb: PlanBatch, tx: string, block: nat)
      requires Indexed() && pb.leaves != [] && (forall row | row in pb.leaves :: row.rid != "")
      requires SelfChecking(LedgerBatch(pb.detailsHash, pb.legacyHash, pb.merkleRoot, tx, block, Thin(pb.leaves)))
      requires HonestRows(pb.leaves)
      modifies this
      ensures Indexed()
      ensures (exists l | l in old(ledger) :: l.value.detailsHash == pb.detailsHash) ==>
        ledger == old(ledger) && records == old(records) && hidden == old(hidden) && lost == old(lost) && sidecar == old(sidecar)
      ensures (forall l | l in old(ledger) :: l.value.detailsHash != pb.detailsHash) ==>
        && hidden == old(hidden) - Recorded(pb.leaves) && lost == old(lost) - Recorded(pb.leaves)
        && records == old(records) + RowRecords(codec, pb.leaves)
        && Vouched(ledger[from..]) == old(Vouched(ledger[from..])) + Recorded(pb.leaves)
        && ledger == old(ledger) + [BatchLine(codec, LedgerBatch(pb.detailsHash, pb.legacyHash, pb.merkleRoot, tx, block, Thin(pb.leaves)))]
    {
      var known := LedgerHasHash(pb.detailsHash);
      if known { return; }
      AppendNewBatch(pb, tx, block);
    }

    method AppendNewBatch(pb: PlanBatch, tx: string, block: nat)
      requires Indexed() && (forall row | row in pb.leaves :: row.rid != "") && HonestRows(pb.leaves)
      requires SelfChecking(LedgerBatch(pb.detailsHash, pb.legacyHash, pb.merkleRoot, tx, block, Thin(pb.leaves)))
      modifies this
      ensures Indexed() && hidden == old(hidden) - Recorded(pb.leaves) && lost == old(lost) - Recorded(pb.leaves)
      ensures records == old(records) + RowRecords(codec, pb.leaves)
      ensures Vouched(ledger[from..]) == old(Vouched(ledger[from..])) + Recorded(pb.leaves)
      ensures ledger == old(ledger) + [BatchLine(codec, LedgerBatch(pb.detailsHash, pb.legacyHash, pb.merkleRoot, tx, block, Thin(pb.leaves)))]
    {
      ghost var was, before := ledger, records;
      var batch, off, locs := WriteFiles(pb, tx, block);
      UpdateIndexes(was, before, batch, off, locs);
    }

    /** The durable part: every record, then the line; a crash may cut it short anywhere. */
    method WriteFiles(pb: PlanBatch, tx: string, block: nat) returns (batch: LedgerBatch, off: nat, locs: map<string, Loc>)
      requires DiskOk() && (forall row | row in pb.leaves :: row.rid != "") && HonestRows(pb.leaves)
      requires SelfChecking(LedgerBatch(pb.detailsHash, pb.legacyHash, pb.merkleRoot, tx, block, Thin(pb.leaves)))
      modifies this`ledger, this`records
      ensures batch == LedgerBatch(pb.detailsHash, pb.legacyHash, pb.merkleRoot, tx, block, Thin(pb.leaves))
      ensures DiskOk() && ledger == old(ledger) + [BatchLine(codec, batch)] && off == Size(old(ledger))
      ensures records == old(records) + RowRecords(codec, pb.leaves)
      ensures RecordScan(records) == RecordScan(old(records)) + locs && locs.Keys == VouchedBy(batch) == Recorded(pb.leaves)
      ensures Vouched(ledger[from..]) == old(Vouched(ledger[from..])) + VouchedBy(batch)
    {
      var thin;
      locs, thin := StoreRecords(pb.leaves);
      batch := LedgerBatch(pb.detailsHash, pb.legacyHash, pb.merkleRoot, tx, block, thin);
      HonestlyVouched(pb.leaves, batch);
      off := AppendLedgerLine(batch);
    }

    /** The locked tail of an append: both indexes, then the sidecar line. */
    method UpdateIndexes(ghost was: seq<Line<LedgerBatch>>, ghost before: seq<Line<Stored>>, batch: LedgerBatch, off: nat, locs: map<string, Loc>)
      requires DiskOk() && warm && a == |was| && b == |before| && ledger == was + [BatchLine(codec, batch)] && off == Size(was)
      requires Accounts(sidecar, was, before, a, b, hidden) && Bounded(was, before, a, b, from, hidden)
      requires IndexOk(merkleIdx, recordIdx, was, before, hidden, lost)
      requires RecordScan(records) == RecordScan(before) + locs && locs.Keys == VouchedBy(batch)
      modifies this`merkleIdx, this`recordIdx, this`sidecar, this`a, this`b, this`hidden, this`lost
      ensures Indexed() && hidden == old(hidden) - locs.Keys && lost == old(lost) - locs.Keys
    {
      IndexesFollow(was, before, records, sidecar, from, hidden, lost, merkleIdx.value, recordIdx.value, BatchLine(codec, batch), locs);
      var rids := RidsOf(batch);
      Install(PutAll(merkleIdx.value, rids, off), recordIdx.value + locs,
              sidecar + [IdxLine(off, Size(ledger), Size(records), rids, locs)], |ledger|, |records|, hidden - locs.Keys,
              lost - locs.Keys);
    }

    /** `findMerkleBatch`: the last ledger line that carries the request id; a miss means that
        no line does. */
    method FindMerkleBatch(rid: string) returns (found: Option<LedgerBatch>)
      requires CanStart() && (warm ==> Indexed())
      modifies this`merkleIdx, this`recordIdx, this`sidecar, this`warm, this`a, this`b, this`hidden, this`lost
      ensures Indexed()
      ensures match LastWith(ledger, rid)
        case None => found.None?
        case Some(i) => i < |ledger| && found == Some(ledger[i].value)
      ensures lost == if old(warm) then old(lost) else old(Missing(sidecar, ledger, records))
    {
      Warm();
      ScanIsLast(ledger, rid);
      if rid !in merkleIdx.value { return None; }
      LineAtStart(ledger, LastWith(ledger, rid).value);
      found := LineAt(ledger, merkleIdx.value[rid]);
    }

    /** `loadRecordForRID`: the last record stored for the request id, unless the index lost it;
        after a start that is exactly what the files have missing, and an id the ledger
        vouches for is never among it. */
    method LoadRecord(rid: string) returns (found: Option<Record>)
      requires CanStart() && (warm ==> Indexed())
      modifies this`merkleIdx, this`recordIdx, this`sidecar, this`warm, this`a, this`b, this`hidden, this`lost
      ensures Indexed()
      ensures found == (if rid in lost then None else StoredRecord(records, rid))
      ensures found == StoredRecord(records, rid) <==> rid !in lost
      ensures lost == if old(warm) then old(lost) else old(Missing(sidecar, ledger, records))
      ensures rid in Vouched(ledger[from..]) ==> found.Some? && found == StoredRecord(records, rid)
    {
      Warm();
      LostAreUnvouched();
      RecordScanIsLast(records, rid);
      if rid !in recordIdx.value { return None; }
      var loc := recordIdx.value[rid];
      LineAtStart(records, LastRecord(records, rid).value);
      var line := LineAt(records, loc.off);
      found := Some(line.value.record);
    }

    /** The leaf hashes of a batch and the last position of a request id in it. */
    method LocateLeaf(rows: seq<LeafRow>, rid: string) returns (leaves: seq<Hash>, idx: nat)
      requires exists row | row in rows :: row.rid == rid
      ensures leaves == RowLeaves(rows) && idx < |rows| && rows[idx].rid == rid
      ensures forall j | idx < j < |rows| :: rows[j].rid != rid
    {
      var at := -1;
      leaves := [];
      for i := 0 to |rows|
        invariant leaves == RowLeaves(rows[..i])
        invariant -1 <= at < i && (at >= 0 ==> rows[at].rid == rid)
        invariant forall j | at < j < i :: rows[j].rid != rid
      {
        assert rows[..i + 1] == rows[..i] + [rows[i]];
        leaves := leaves + [rows[i].leaf];
        if rows[i].rid == rid { at := i; }
      }
      assert rows[..|rows|] == rows;
      assert at >= 0 by {
        var row :| row in rows && row.rid == rid;
      }
      idx := at;
    }

    /** `BuildReceiptProof`: what is served for a request id is its place in the last batch
        that carries it, it verifies against the details hash on chain, and its record is the
        embedded one or the one loaded. */
    method BuildReceiptProof(rid: string) returns (proof: Option<Proof>)
      requires CanStart() && (warm ==> Indexed())
      modifies this`merkleIdx, this`recordIdx, this`sidecar, this`warm, this`a, this`b, this`hidden, this`lost
      ensures Indexed()
      ensures proof.Some? <==> LastWith(ledger, rid).Some?
      ensures proof.Some? ==> Verifies(proof.value) && ServesBut(ledger, records, lost, rid, proof.value)
      ensures rid in Vouched(ledger[from..]) ==> proof.Some? && Serves(ledger, records, rid, proof.value)
      ensures lost == if old(warm) then old(lost) else old(Missing(sidecar, ledger, records))
    {
      var found := FindMerkleBatch(rid);
      LostAreUnvouched();
      VouchedCarried(ledger, from);
      ScanIsLast(ledger, rid);
      if found.None? { return None; }
      var batch := found.value;
      LastCarries(ledger, rid);
      assert ledger[LastWith(ledger, rid).value] in ledger;
      var leaves, idx := LocateLeaf(batch.leaves, rid);
      var record := batch.leaves[idx].record;
      if record.None? { record := LoadRecord(rid); }
      var p := ProofAt(batch, leaves, idx, record);
      proof := Some(p);
    }
  }

  method ProofAt(b: LedgerBatch, leaves: seq<Hash>, idx: nat, record: Option<Record>) returns (p: Proof)
    requires leaves == RowLeaves(b.leaves) && idx < |leaves| && SelfChecking(b)
    ensures Verifies(p)
    ensures p == Proof(b.leaves[idx].sp, record, b.leaves[idx].leaf, idx, Path(leaves, idx), b.merkleRoot, b.legacyHash, b.detailsHash)
  {
    var path := MerkleProofFor(leaves, idx);
    PathLeadsToRoot(leaves, idx);
    var row := b.leaves[idx];
    p := Proof(row.sp, record, row.leaf, idx, path, b.merkleRoot, b.legacyHash, b.detailsHash);
  }

  /** The path leads from the leaf to the root, and root and legacy hash to the hash on chain. */
  predicate Verifies(p: Proof) {
    Fold(p.leaf, p.index, p.path) == p.merkleRoot && CombinedDetailsHash(p.legacyHash, p.merkleRoot) == p.detailsHash
  }

  /** Everything of a served proof that comes from the ledger line itself. */
  ghost predicate ProofOf(b: LedgerBatch, rid: string, p: Proof) {
    && p.index < |b.leaves| && b.leaves[p.index].rid == rid
    && (forall j | p.index < j < |b.leaves| :: b.leaves[j].rid != rid)
    && p.leaf == b.leaves[p.index].leaf && p.sp == b.leaves[p.index].sp
    && p.path == Path(RowLeaves(b.leaves), p.index)
    && p.merkleRoot == b.merkleRoot && p.legacyHash == b.legacyHash && p.detailsHash == b.detailsHash
    && (b.leaves[p.index].record.Some? ==> p.record == b.leaves[p.index].record)
  }

  /** What a reader is served for a request id: its place in the last line that carries it, with
      the record embedded there or else the last stored one. */
  ghost predicate Serves(ledger: seq<Line<LedgerBatch>>, records: seq<Line<Stored>>, rid: string, p: Proof) {
    ServesBut(ledger, records, {}, rid, p)
  }

  /** The same with the records of `lost` missing. */
  ghost predicate ServesBut(ledger: seq<Line<LedgerBatch>>, records: seq<Line<Stored>>, lost: set<string>, rid: string, p: Proof) {
    var at := LastWith(ledger, rid);
    && at.Some? && ProofOf(ledger[at.value].value, rid, p)
    && (ledger[at.value].value.leaves[p.index].record.None? ==> p.record == if rid in lost then None else StoredRecord(records, rid))
  }

  lemma {:induction false} LastCarries(ledger: seq<Line<LedgerBatch>>, rid: string)
    ensures match LastWith(ledger, rid)
      case None => forall l | l in ledger :: !Carries(l.value, rid)
      case Some(i) => i < |ledger| && Carries(ledger[i].value, rid) && forall j | i < j < |ledger| :: !Carries(ledger[j].value, rid)
    decreases |ledger|
  {
    if ledger != [] {
      var n := |ledger| - 1;
      LastCarries(ledger[..n], rid);
      assert ledger == ledger[..n] + [ledger[n]];
    }
  }

  /** The request ids of the rows that carry a record. */
  function Recorded(rows: seq<LeafRow>): set<string> {
    if rows == [] then {}
    else Recorded(rows[..|rows| - 1]) + if rows[|rows| - 1].record.Some? then {rows[|rows| - 1].rid} else {}
  }

  /** Planned rows have a receipt leaf exactly when they have their record. */
  ghost predicate HonestRows(rows: seq<LeafRow>) { forall row | row in rows :: row.record.Some? <==> Vouches(row) }

  lemma {:induction false} RecordedIds(rows: seq<LeafRow>)
    ensures Recorded(rows) == set row | row in rows && row.record.Some? :: row.rid
    decreases |rows|
  {
    if rows != [] {
      var n := |rows| - 1;
      RecordedIds(rows[..n]);
      assert rows == rows[..n] + [rows[n]];
    }
  }

  lemma {:induction false} HonestlyVouched(rows: seq<LeafRow>, b: LedgerBatch)
    requires HonestRows(rows) && b.leaves == Thin(rows)
    ensures VouchedBy(b) == Recorded(rows)
  {
    RecordedIds(rows);
    forall rid ensures rid in VouchedBy(b) <==> rid in Recorded(rows) {
      if rid in VouchedBy(b) {
        var i :| 0 <= i < |b.leaves| && Vouches(b.leaves[i]) && b.leaves[i].rid == rid;
        assert rows[i] in rows && Vouches(rows[i]);
      }
      if rid in Recorded(rows) {
        var i :| 0 <= i < |rows| && rows[i].record.Some? && rows[i].rid == rid;
        assert rows[i] in rows && b.leaves[i] in b.leaves && Vouches(b.leaves[i]);
      }
    }
  }

  /** The records of the rows are appended, and `locs` says where the scan finds them. */
  ghost predicate RowsStored(codec: Codec, before: seq<Line<Stored>>, after: seq<Line<Stored>>, rows: seq<LeafRow>, locs: map<string, Loc>) {
    && after == before + RowRecords(codec, rows)
    && RecordScan(after) == RecordScan(before) + locs
    && locs.Keys == Recorded(rows)
  }

  lemma {:induction false} RowsStep(codec: Codec, before: seq<Line<Stored>>, after: seq<Line<Stored>>, rows: seq<LeafRow>,
                                    locs: map<string, Loc>, row: LeafRow)
    requires RowsStored(codec, before, after, rows, locs) && row.rid != ""
    ensures row.record.None? ==> RowsStored(codec, before, after, rows + [row], locs)
    ensures row.record.Some? ==>
      var line := RecordLine(codec, Stored(row.rid, row.record.value));
      RowsStored(codec, before, after + [line], rows + [row], locs[row.rid := Loc(Size(after), line.bytes)])
  {
    assert (rows + [row])[..|rows|] == rows;
    if row.record.Some? {
      var line := RecordLine(codec, Stored(row.rid, row.record.value));
      RecordScanAppend(after, line);
      MergeOne(RecordScan(before), locs, row.rid, Loc(Size(after), line.bytes));
      assert after + [line] == before + (RowRecords(codec, rows) + [line]);
    } else {
      assert RowRecords(codec, rows) + [] == RowRecords(codec, rows);
    }
  }

  lemma MergeOne<V>(m: map<string, V>, more: map<string, V>, k: string, v: V)
    ensures (m + more)[k := v] == m + more[k := v]
  {
  }

  /** Rows as the ledger keeps them: without their records. */
  function Thin(rows: seq<LeafRow>): seq<LeafRow> {
    seq(|rows|, i requires 0 <= i < |rows| => LeafRow(rows[i].rid, rows[i].leaf, rows[i].sp, None))
  }

  lemma ThinAppend(rows: seq<LeafRow>, row: LeafRow)
    ensures Thin(rows + [row]) == Thin(rows) + [LeafRow(row.rid, row.leaf, row.sp, None)]
  {
  }

  /** Every batch a plan freezes can be ledgered: what is later served for it verifies. */
  lemma PlannedBatchIsSelfChecking(batch: seq<Item>, byId: ById, tx: string, block: nat)
    ensures var pb := PlanBatchOf(batch, byId);
      SelfChecking(LedgerBatch(pb.detailsHash, pb.legacyHash, pb.merkleRoot, tx, block, Thin(pb.leaves))) && HonestRows(pb.leaves)
  {
    var pb := PlanBatchOf(batch, byId);
    FrozenBatchChecks(batch, byId);
    forall row | row in pb.leaves ensures row.record.Some? <==> Vouches(row) {
      var wallet :| row.leaf == LeafOfRow(row, wallet);
    }
    assert RowLeaves(Thin(pb.leaves)) == RowLeaves(pb.leaves);
  }

  // ---- What a record store can lose ----

  /** What a start does not find, when it trusts the sidecar: every stored id no line carries,
      and none that a line vouches for. */
  lemma {:induction false} MissingBetween(ledger: seq<Line<LedgerBatch>>, records: seq<Line<Stored>>, sidecar: seq<IdxLine>, a: nat, b: nat, from: nat,
                       hidden: set<string>)
    requires FilesOk(ledger, records, sidecar, a, b, from, hidden) && SidecarSizes(sidecar) == (Size(ledger), Size(records))
    ensures RecordScan(records).Keys - MerkleScan(ledger).Keys <= Missing(sidecar, ledger, records)
         <= RecordScan(records).Keys - Vouched(ledger[from..])
  {
    AcceptedSidecar(sidecar, ledger, records, a, b, from, hidden);
    assert ledger[..|ledger|] == ledger && records[..|records|] == records;
  }

  /** Between the two bounds a record can be lost: stored, cut off from its ledger line by a
      crash, left out of the rebuilt sidecar, and then ledgered as a debt without it. The
      request id is carried and its record stored, yet no later start finds the record. */
  method OrphanThenDebt(codec: Codec, rid: string, rec: Record, pb: PlanBatch, tx: string, block: nat)
    returns (r: Receipts, found: Option<Record>)
    requires rid != "" && DebtRows(pb.leaves, rid)
    requires SelfChecking(LedgerBatch(pb.detailsHash, pb.legacyHash, pb.merkleRoot, tx, block, Thin(pb.leaves)))
    ensures fresh(r) && r.Indexed() && r.from == 0
    ensures found.None? && StoredRecord(r.records, rid) == Some(rec) && LastWith(r.ledger, rid) == Some(0)
  {
    r := OrphanRecord(codec, rid, rec);
    LedgerDebt(r, rid, pb, tx, block);
    StillMissing(r.ledger, r.records, r.sidecar, r.from, r.hidden, rid);
    r.Crash();
    found := r.LoadRecord(rid);
  }

  method LedgerDebt(r: Receipts, rid: string, pb: PlanBatch, tx: string, block: nat)
    requires r.Indexed() && r.ledger == [] && rid in r.hidden && rid != ""
    requires DebtRows(pb.leaves, rid)
    requires SelfChecking(LedgerBatch(pb.detailsHash, pb.legacyHash, pb.merkleRoot, tx, block, Thin(pb.leaves)))
    modifies r
    ensures r.Indexed() && rid in r.hidden && r.records == old(r.records) && LastWith(r.ledger, rid) == Some(0)
  {
    NothingRecorded(r.codec, pb.leaves, rid);
    DebtCarried(r.codec, pb, tx, block, rid);
    ghost var records := r.records;
    assert records + [] == records;
    r.AppendMerkleLedger(pb, tx, block);
  }

  /** A process that stored a record, died before its ledger line, and was started again. */
  method OrphanRecord(codec: Codec, rid: string, rec: Record) returns (r: Receipts)
    requires rid != ""
    ensures fresh(r) && r.Indexed() && r.codec == codec && r.from == 0
    ensures r.ledger == [] && r.records == [RecordLine(codec, Stored(rid, rec))] && r.hidden == {rid}
  {
    r := new Receipts(codec);
    ghost var line := RecordLine(codec, Stored(rid, rec));
    RecordScanAppend([], line);
    var loc := r.AppendReceiptRecord(rid, rec);
    r.Crash();
    assert r.records == [] + [line];
    r.Warm();
  }

  lemma StillMissing(ledger: seq<Line<LedgerBatch>>, records: seq<Line<Stored>>, sidecar: seq<IdxLine>, from: nat, hidden: set<string>, rid: string)
    requires FilesOk(ledger, records, sidecar, |ledger|, |records|, from, hidden) && rid in hidden
    ensures rid in Missing(sidecar, ledger, records)
  {
    AcceptedSidecar(sidecar, ledger, records, |ledger|, |records|, from, hidden);
  }

  /** Rows of one request id without record or receipt. */
  ghost predicate DebtRows(rows: seq<LeafRow>, rid: string) {
    rows != [] && forall row | row in rows :: row.rid == rid && row.record.None? && !Vouches(row)
  }

  lemma {:induction false} DebtCarried(codec: Codec, pb: PlanBatch, tx: string, block: nat, rid: string)
    requires DebtRows(pb.leaves, rid)
    ensures LastWith([] + [BatchLine(codec, LedgerBatch(pb.detailsHash, pb.legacyHash, pb.merkleRoot, tx, block, Thin(pb.leaves)))], rid) == Some(0)
  {
    var b := LedgerBatch(pb.detailsHash, pb.legacyHash, pb.merkleRoot, tx, block, Thin(pb.leaves));
    assert pb.leaves[0] in pb.leaves && b.leaves[0] in b.leaves && b.leaves[0].rid == rid && Carries(b, rid);
  }

  lemma {:induction false} NothingRecorded(codec: Codec, rows: seq<LeafRow>, rid: string)
    requires DebtRows(rows, rid)
    ensures Recorded(rows) == {} && RowRecords(codec, rows) == [] && HonestRows(rows)
    decreases |rows|
  {
    var n := |rows| - 1;
    assert rows[n] in rows;
    if n > 0 {
      NothingRecorded(codec, rows[..n], rid);
    } else {
      assert rows[..0] == [] && RowRecords(codec, []) == [];
    }
  }

  // ---- Why the index is warmed before the first append ----

  /** A cold append after a gap makes the sidecar claim sizes it does not account for: the next
      start accepts it although a ledger line is missing from it. */
  lemma ColdAppendHidesGap(first: Line<LedgerBatch>, second: Line<LedgerBatch>, rid: string)
    requires Carries(first.value, rid) && !Carries(second.value, rid)
    ensures var ledger: seq<Line<LedgerBatch>> := [first, second];
      var records: seq<Line<Stored>> := [];
      var sidecar := [IdxLine(first.bytes, Size(ledger), Size(records), RidsOf(second.value), map[])];
      && SidecarSizes(sidecar) == (Size(ledger), Size(records))
      && rid !in SidecarMerkle(sidecar) && rid in MerkleScan(ledger)
  {
    var ledger := [first, second];
    CarriesRid(first.value, rid);
    CarriesRid(second.value, rid);
    ScanIsLast(ledger, rid);
    assert ledger[..1] == [first] && [first][..0] == [];
    assert LastWith([first], rid) == Some(0);
    assert LastWith(ledger, rid) == LastWith(ledger[..1], rid);
    var line := IdxLine(first.bytes, Size(ledger), 0, RidsOf(second.value), map[]);
    assert [line][..0] == [];
    assert SidecarMerkle([line]) == PutAll(SidecarMerkle([]), RidsOf(second.value), first.bytes);
  }
}
