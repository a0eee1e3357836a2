/** Batches of settlement items: their canonical hash, their receipt leaves and the frozen
    plan entry written to the write-ahead file. */
module Batches {
  import opened Orders
  import opened Sums
  import opened Merkle
  import opened Billing
  import opened Aggregator

  // ---- Canonical batch hash ----

  function Decimal(n: nat): string {
    if n < 10 then [Digit(n)] else Decimal(n / 10) + [Digit(n % 10)]
  }

  function Digit(d: nat): char
    requires d < 10
  {
    "0123456789"[d]
  }

  function AmountText(n: int): string { if n < 0 then "-" + Decimal(-n) else Decimal(n) }

  lemma {:induction false} DecimalInjective(a: nat, b: nat)
    requires Decimal(a) == Decimal(b)
    ensures a == b
  {
    var s, t := Decimal(a), Decimal(b);
    assert |s| > 0 && s[|s| - 1] == Digit(a % 10) && t[|t| - 1] == Digit(b % 10);
    if a >= 10 && b >= 10 {
      assert s[..|s| - 1] == Decimal(a / 10) && t[..|t| - 1] == Decimal(b / 10);
      DecimalInjective(a / 10, b / 10);
    }
  }

  lemma {:induction false} DecimalHasNoSign(n: nat)
    ensures |Decimal(n)| > 0 && Decimal(n)[0] != '-'
  {
    if n >= 10 { DecimalHasNoSign(n / 10); }
  }

  lemma AmountTextInjective(a: int, b: int)
    requires AmountText(a) == AmountText(b)
    ensures a == b
  {
    if a < 0 { assert AmountText(a)[1..] == Decimal(-a); } else { DecimalHasNoSign(a); }
    if b < 0 { assert AmountText(b)[1..] == Decimal(-b); } else { DecimalHasNoSign(b); }
    if a < 0 && b < 0 { DecimalInjective(-a, -b); }
    if a >= 0 && b >= 0 { DecimalInjective(a, b); }
  }

  function HashItemOf(it: Item): HashItem {
    HashItem(it.key.wallet, it.key.sp, AmountText(it.amount), it.token.address)
  }

  function HashItems(items: seq<Item>): seq<HashItem> {
    seq(|items|, i requires 0 <= i < |items| => HashItemOf(items[i]))
  }

  function HashKey(): HashItem -> seq<string> { (h: HashItem) => [h.user, h.sp, h.token, h.amount] }

  function IdSet(items: seq<Item>): set<string> { set it, id | it in items && id in it.ids :: id }

  ghost function BatchDigest(items: seq<Item>): Hash {
    Digest(BatchContent(Sort(HashKey(), HashItems(items)), SortedSet(IdSet(items))))
  }

  method BatchHash(items: seq<Item>) returns (h: Hash)
    ensures h == BatchDigest(items)
  {
    var hItems, ids := [], {};
    for i := 0 to |items|
      invariant hItems == HashItems(items[..i]) && ids == IdSet(items[..i])
    {
      assert items[..i + 1] == items[..i] + [items[i]];
      hItems := hItems + [HashItem(items[i].key.wallet, items[i].key.sp, AmountText(items[i].amount), items[i].token.address)];
      ids := ids + set id | id in items[i].ids;
    }
    assert items[..|items|] == items;
    var walk := ListOf(ids);
    SortedSetUnique(walk, ids);
    h := Digest(BatchContent(Sort(HashKey(), hItems), Sort(SelfKey(), walk)));
  }

  /** The hash is a function of the multiset of items and the set of ids, and determines both:
      permuting items or repeating and reordering ids changes nothing, anything else does. */
  lemma BatchHashCanonical(a: seq<Item>, b: seq<Item>)
    ensures BatchDigest(a) == BatchDigest(b) <==> multiset(HashItems(a)) == multiset(HashItems(b)) && IdSet(a) == IdSet(b)
  {
    var ha, hb := Sort(HashKey(), HashItems(a)), Sort(HashKey(), HashItems(b));
    SortSorts(HashKey(), HashItems(a));
    SortSorts(HashKey(), HashItems(b));
    SortedSetMembers(IdSet(a));
    SortedSetMembers(IdSet(b));
    if multiset(HashItems(a)) == multiset(HashItems(b)) {
      forall x: HashItem, y: HashItem | HashKey()(x) == HashKey()(y) ensures x == y {
        var kx, ky := HashKey()(x), HashKey()(y);
        assert kx[0] == ky[0] && kx[1] == ky[1] && kx[2] == ky[2] && kx[3] == ky[3];
      }
      SortedIsUnique(HashKey(), ha, hb);
    }
    if SortedSet(IdSet(a)) == SortedSet(IdSet(b)) {
      assert IdSet(a) == IdSet(b) by {
        forall x ensures x in IdSet(a) <==> x in IdSet(b) { assert x in IdSet(a) <==> x in SortedSet(IdSet(a)); }
      }
    }
  }

  /** Within the hash an item is its user, SP, token and amount, nothing less. */
  lemma HashItemDetermines(x: Item, y: Item)
    ensures HashItemOf(x) == HashItemOf(y) <==> x.key == y.key && x.token.address == y.token.address && x.amount == y.amount
  {
    if AmountText(x.amount) == AmountText(y.amount) { AmountTextInjective(x.amount, y.amount); }
  }

  // ---- Splitting ----

  function Chunks(items: seq<Item>, size: nat): seq<seq<Item>>
    requires size > 0
    decreases |items|
  {
    if items == [] then []
    else if |items| <= size then [items]
    else [items[..size]] + Chunks(items[size..], size)
  }

  function ChunkSize(maxSize: int): nat { if maxSize <= 0 then 50 else maxSize }

  function Flatten(batches: seq<seq<Item>>): seq<Item> {
    if batches == [] then [] else batches[0] + Flatten(batches[1..])
  }

  /** What the items from `i` on still have to be cut into. */
  function ChunksFrom(items: seq<Item>, i: nat, size: nat): seq<seq<Item>>
    requires size > 0
  {
    if i >= |items| then [] else Chunks(items[i..], size)
  }

  lemma NextChunk(items: seq<Item>, i: nat, size: nat)
    requires size > 0 && i < |items|
    ensures var end := if i + size > |items| then |items| else i + size;
      ChunksFrom(items, i, size) == [items[i..end]] + ChunksFrom(items, i + size, size)
  {
    var rest := items[i..];
    if |rest| > size {
      assert rest[..size] == items[i..i + size] && rest[size..] == items[i + size..];
    } else {
      assert items[i..|items|] == rest;
    }
  }

  lemma Snoc<T>(a: seq<T>, x: T, b: seq<T>)
    ensures a + ([x] + b) == (a + [x]) + b
  {
  }

  method SplitBatches(items: seq<Item>, maxSize: int) returns (batches: seq<seq<Item>>)
    ensures batches == Chunks(items, ChunkSize(maxSize))
  {
    var size := if maxSize <= 0 then 50 else maxSize;
    if |items| == 0 { return []; }
    if |items| <= size { return [items]; }
    batches := [];
    var i := 0;
    assert items[0..] == items;
    while i < |items|
      invariant 0 <= i && batches + ChunksFrom(items, i, size) == Chunks(items, size)
      decreases |items| - i
    {
      NextChunk(items, i, size);
      var end := i + size;
      if end > |items| { end := |items|; }
      Snoc(batches, items[i..end], ChunksFrom(items, i + size, size));
      batches := batches + [items[i..end]];
      i := i + size;
    }
  }

  lemma {:induction false} ChunksConcatenate(items: seq<Item>, size: nat)
    requires size > 0
    ensures Flatten(Chunks(items, size)) == items
    decreases |items|
  {
    if |items| > size {
      ChunksConcatenate(items[size..], size);
      assert Chunks(items, size)[1..] == Chunks(items[size..], size);
    } else if items != [] {
      assert Flatten([items]) == items + Flatten([items][1..]) == items;
    }
  }

  lemma {:induction false} ChunksBounded(items: seq<Item>, size: nat)
    requires size > 0
    ensures forall i | 0 <= i < |Chunks(items, size)| :: 0 < |Chunks(items, size)[i]| <= size
    decreases |items|
  {
    if |items| > size { ChunksBounded(items[size..], size); }
  }

  /** Batches put back together are the item list, none empty, none over the limit. */
  lemma {:induction false} ChunksPartition(items: seq<Item>, maxSize: int)
    ensures Flatten(Chunks(items, ChunkSize(maxSize))) == items
    ensures forall i | 0 <= i < |Chunks(items, ChunkSize(maxSize))| :: 0 < |Chunks(items, ChunkSize(maxSize))[i]| <= ChunkSize(maxSize)
    ensures maxSize > 0 ==> ChunkSize(maxSize) == maxSize
  {
    ChunksConcatenate(items, ChunkSize(maxSize));
    ChunksBounded(items, ChunkSize(maxSize));
  }

  /** And all but the last are full. */
  lemma {:induction false} ChunksFull(items: seq<Item>, size: nat, i: nat)
    requires size > 0 && i + 1 < |Chunks(items, size)|
    ensures |Chunks(items, size)[i]| == size
    decreases |items|
  {
    if i > 0 { ChunksFull(items[size..], size, i - 1); }
  }

  // ---- Receipt leaves ----

  datatype LeafEntry = LeafEntry(rid: string, leaf: Hash, sp: string)

  type ById = map<string, Record>

  function SigOf(r: Record): string { match r.sig case Some(s) => s case None => "" }

  function LeafFor(it: Item, rid: string, byId: ById): Hash {
    if rid in byId then
      var r := byId[rid];
      Digest(ReceiptLeaf(rid, r.wallet, it.key.sp, r.model, r.prompt, r.completion, r.cached, SigOf(r)))
    else Digest(DebtLeaf(rid, it.key.wallet, it.key.sp))
  }

  /** A leaf commits to everything the receipt of a request says: whose it was, who served it,
      the model, the tokens and the signature. */
  lemma LeafBinds(a: Item, aById: ById, b: Item, bById: ById, rid: string)
    requires rid in aById && rid in bById
    ensures LeafFor(a, rid, aById) == LeafFor(b, rid, bById) <==>
      (var r, q := aById[rid], bById[rid];
       r.wallet == q.wallet && a.key.sp == b.key.sp && r.model == q.model && r.prompt == q.prompt
       && r.completion == q.completion && r.cached == q.cached && SigOf(r) == SigOf(q))
  {
  }

  function Rids(ents: seq<LeafEntry>): set<string> { set e | e in ents :: e.rid }

  /** An id already attributed to an earlier item is skipped: the first carrier owns it. */
  function AddIds(ents: seq<LeafEntry>, it: Item, ids: seq<string>, byId: ById): seq<LeafEntry> {
    if ids == [] then ents
    else
      var n := |ids| - 1;
      var before := AddIds(ents, it, ids[..n], byId);
      if ids[n] in Rids(before) then before else before + [LeafEntry(ids[n], LeafFor(it, ids[n], byId), it.key.sp)]
  }

  function AddItems(batch: seq<Item>, byId: ById): seq<LeafEntry> {
    if batch == [] then []
    else
      var n := |batch| - 1;
      AddIds(AddItems(batch[..n], byId), batch[n], batch[n].ids, byId)
  }

  function RidKey(): LeafEntry -> seq<string> { (e: LeafEntry) => [e.rid] }

  function BatchEntries(batch: seq<Item>, byId: ById): seq<LeafEntry> { Sort(RidKey(), AddItems(batch, byId)) }

  function LeavesOf(ents: seq<LeafEntry>): seq<Hash> { seq(|ents|, i requires 0 <= i < |ents| => ents[i].leaf) }

  lemma RidsAppend(ents: seq<LeafEntry>, e: LeafEntry)
    ensures Rids(ents + [e]) == Rids(ents) + {e.rid}
  {
    assert forall x :: x in ents + [e] <==> x in ents || x == e;
  }

  /** The inner loop of `batchLeaves`: one item's request ids. */
  method ItemLeaves(ents0: seq<LeafEntry>, seen0: set<string>, it: Item, byId: ById)
    returns (ents: seq<LeafEntry>, seen: set<string>)
    requires seen0 == Rids(ents0)
    ensures ents == AddIds(ents0, it, it.ids, byId) && seen == Rids(ents)
  {
    ents, seen := ents0, seen0;
    for j := 0 to |it.ids|
      invariant ents == AddIds(ents0, it, it.ids[..j], byId) && seen == Rids(ents)
    {
      assert it.ids[..j + 1][..j] == it.ids[..j];
      var rid := it.ids[j];
      if rid in seen { continue; }
      var leaf;
      if rid in byId {
        var rec := byId[rid];
        var sig := match rec.sig case Some(s) => s case None => "";
        leaf := Digest(ReceiptLeaf(rid, rec.wallet, it.key.sp, rec.model, rec.prompt, rec.completion, rec.cached, sig));
      } else {
        leaf := Digest(DebtLeaf(rid, it.key.wallet, it.key.sp));
      }
      RidsAppend(ents, LeafEntry(rid, leaf, it.key.sp));
      seen := seen + {rid};
      ents := ents + [LeafEntry(rid, leaf, it.key.sp)];
    }
    assert it.ids[..|it.ids|] == it.ids;
  }

  /** `batchLeaves`: the deduplicated, request-id-sorted leaves of a batch. */
  method BatchLeaves(batch: seq<Item>, byId: ById) returns (ents: seq<LeafEntry>)
    ensures ents == BatchEntries(batch, byId)
  {
    var seen := {};
    ents := [];
    for i := 0 to |batch|
      invariant ents == AddItems(batch[..i], byId) && seen == Rids(ents)
    {
      assert batch[..i + 1][..i] == batch[..i];
      ents, seen := ItemLeaves(ents, seen, batch[i], byId);
    }
    assert batch[..|batch|] == batch;
    ents := Sort(RidKey(), ents);
  }

  /** A leaf commits to its own request id, so entries with distinct ids have distinct leaves. */
  ghost predicate EntryFaithful(e: LeafEntry, byId: ById) {
    && e.leaf.Digest?
    && if e.rid in byId then
         var r := byId[e.rid];
         e.leaf.payload == ReceiptLeaf(e.rid, r.wallet, e.sp, r.model, r.prompt, r.completion, r.cached, SigOf(r))
       else
         e.leaf.payload.DebtLeaf? && e.leaf.payload.rid == e.rid && e.leaf.payload.sp == e.sp
  }

  ghost predicate EntriesFaithful(ents: seq<LeafEntry>, byId: ById) {
    && (forall e | e in ents :: EntryFaithful(e, byId))
    && (forall i, j | 0 <= i < j < |ents| :: ents[i].rid != ents[j].rid)
  }

  lemma EntryAppended(ents: seq<LeafEntry>, e: LeafEntry, byId: ById)
    requires EntriesFaithful(ents, byId) && EntryFaithful(e, byId) && e.rid !in Rids(ents)
    ensures EntriesFaithful(ents + [e], byId)
  {
    forall i | 0 <= i < |ents| ensures ents[i].rid in Rids(ents) {}
  }

  lemma {:induction false} AddIdsFaithful(ents: seq<LeafEntry>, it: Item, ids: seq<string>, byId: ById)
    requires EntriesFaithful(ents, byId)
    ensures EntriesFaithful(AddIds(ents, it, ids, byId), byId)
    ensures Rids(AddIds(ents, it, ids, byId)) == Rids(ents) + set id | id in ids
    decreases |ids|
  {
    if ids != [] {
      var n := |ids| - 1;
      var before := AddIds(ents, it, ids[..n], byId);
      AddIdsFaithful(ents, it, ids[..n], byId);
      assert ids == ids[..n] + [ids[n]];
      var e := LeafEntry(ids[n], LeafFor(it, ids[n], byId), it.key.sp);
      if ids[n] !in Rids(before) {
        RidsAppend(before, e);
        EntryAppended(before, e, byId);
      }
    }
  }

  lemma {:induction false} AddItemsFaithful(batch: seq<Item>, byId: ById)
    ensures EntriesFaithful(AddItems(batch, byId), byId)
    ensures Rids(AddItems(batch, byId)) == IdSet(batch)
    decreases |batch|
  {
    if batch != [] {
      var n := |batch| - 1;
      AddItemsFaithful(batch[..n], byId);
      AddIdsFaithful(AddItems(batch[..n], byId), batch[n], batch[n].ids, byId);
      assert IdSet(batch) == IdSet(batch[..n]) + set id | id in batch[n].ids by { assert batch == batch[..n] + [batch[n]]; }
    }
  }

  lemma EntryOnce(ents: seq<LeafEntry>, byId: ById, e: LeafEntry)
    requires EntriesFaithful(ents, byId)
    ensures multiset(ents)[e] <= 1
  {
    if e in ents {
      var i :| 0 <= i < |ents| && ents[i] == e;
      assert ents == ents[..i] + [e] + ents[i + 1..];
      assert e !in ents[..i] && e !in ents[i + 1..];
    }
  }

  lemma SameRid(ents: seq<LeafEntry>, byId: ById, x: LeafEntry, y: LeafEntry)
    requires EntriesFaithful(ents, byId) && x in ents && y in ents && x.rid == y.rid
    ensures x == y
  {
    var i :| 0 <= i < |ents| && ents[i] == x;
    var j :| 0 <= j < |ents| && ents[j] == y;
    assert i == j;
  }

  lemma {:induction false} SortedEntriesFaithful(ents: seq<LeafEntry>, byId: ById)
    requires EntriesFaithful(ents, byId)
    ensures EntriesFaithful(Sort(RidKey(), ents), byId) && Rids(Sort(RidKey(), ents)) == Rids(ents)
  {
    var s := Sort(RidKey(), ents);
    SortSorts(RidKey(), ents);
    SortKeepsMembers(RidKey(), ents);
    forall i, j | 0 <= i < j < |s| ensures s[i].rid != s[j].rid {
      if s[i].rid == s[j].rid {
        SameRid(ents, byId, s[i], s[j]);
        TwiceThere(s, i, j);
        EntryOnce(ents, byId, s[i]);
      }
    }
  }

  /** The request-id dedup gives every batch pairwise distinct leaves, one per request id. */
  lemma BatchLeavesDistinct(batch: seq<Item>, byId: ById)
    ensures var ents := BatchEntries(batch, byId);
      && EntriesFaithful(ents, byId) && Rids(ents) == IdSet(batch)
      && Distinct(LeavesOf(ents)) && PerfectLevel(LeavesOf(ents), 0)
  {
    AddItemsFaithful(batch, byId);
    SortedEntriesFaithful(AddItems(batch, byId), byId);
    var ents := BatchEntries(batch, byId);
    forall i, j | 0 <= i < j < |ents| ensures LeavesOf(ents)[i] != LeavesOf(ents)[j] {
      assert EntryFaithful(ents[i], byId) && EntryFaithful(ents[j], byId);
    }
    forall i | 0 <= i < |ents| ensures LeavesOf(ents)[i].Digest? { assert EntryFaithful(ents[i], byId); }
  }

  /** The on-chain details hash binds a batch completely: its items, its request ids and every
      leaf, in order. */
  lemma DetailsHashBinds(a: seq<Item>, aById: ById, b: seq<Item>, bById: ById)
    ensures var ea, eb := BatchEntries(a, aById), BatchEntries(b, bById);
      CombinedDetailsHash(BatchDigest(a), Root(LeavesOf(ea))) == CombinedDetailsHash(BatchDigest(b), Root(LeavesOf(eb)))
      <==> multiset(HashItems(a)) == multiset(HashItems(b)) && IdSet(a) == IdSet(b) && LeavesOf(ea) == LeavesOf(eb)
  {
    BatchHashCanonical(a, b);
    BatchLeavesDistinct(a, aById);
    BatchLeavesDistinct(b, bById);
    RootBinding(LeavesOf(BatchEntries(a, aById)), LeavesOf(BatchEntries(b, bById)));
  }

  // ---- The frozen batch ----

  datatype LeafRow = LeafRow(rid: string, leaf: Hash, sp: string, record: Option<Record>)

  datatype PlanItem = PlanItem(
    user: string, sp: string, amount: int, token: string, usd: real, ids: seq<string>, requestCount: nat, tokenCount: int)

  datatype PlanBatch = PlanBatch(
    detailsHash: Hash, legacyHash: Hash, merkleRoot: Hash, leaves: seq<LeafRow>, items: seq<PlanItem>, confirmed: bool)

  function RecordOf(rid: string, byId: ById): Option<Record> { if rid in byId then Some(byId[rid]) else None }

  function RidTokens(rid: string, byId: ById): int { if rid in byId then byId[rid].prompt + byId[rid].completion else 0 }

  function TokensOf(ents: seq<LeafEntry>, byId: ById): int {
    if ents == [] then 0 else TokensOf(ents[..|ents| - 1], byId) + RidTokens(ents[|ents| - 1].rid, byId)
  }

  function Rows(ents: seq<LeafEntry>, byId: ById): seq<LeafRow> {
    seq(|ents|, i requires 0 <= i < |ents| => LeafRow(ents[i].rid, ents[i].leaf, ents[i].sp, RecordOf(ents[i].rid, byId)))
  }

  /** An item is credited with the request ids it is the first to carry. */
  function Credited(it: Item, before: seq<LeafEntry>, after: seq<LeafEntry>, byId: ById): PlanItem
    requires |before| <= |after|
  {
    PlanItem(it.key.wallet, it.key.sp, it.amount, it.token.address, it.usd, it.ids,
             |after| - |before|, TokensOf(after, byId) - TokensOf(before, byId))
  }

  lemma {:induction false} AddIdsGrows(ents: seq<LeafEntry>, it: Item, ids: seq<string>, byId: ById)
    ensures |ents| <= |AddIds(ents, it, ids, byId)|
    decreases |ids|
  {
    if ids != [] { AddIdsGrows(ents, it, ids[..|ids| - 1], byId); }
  }

  function PlanItems(batch: seq<Item>, byId: ById): (r: seq<PlanItem>)
    ensures |r| == |batch|
  {
    if batch == [] then []
    else
      var n := |batch| - 1;
      AddIdsGrows(AddItems(batch[..n], byId), batch[n], batch[n].ids, byId);
      PlanItems(batch[..n], byId) + [Credited(batch[n], AddItems(batch[..n], byId), AddItems(batch, byId), byId)]
  }

  ghost function PlanBatchOf(batch: seq<Item>, byId: ById): PlanBatch {
    var ents := BatchEntries(batch, byId);
    var legacy, root := BatchDigest(batch), Root(LeavesOf(ents));
    PlanBatch(CombinedDetailsHash(legacy, root), legacy, root, Rows(ents, byId), PlanItems(batch, byId), false)
  }

  ghost function PlanBatches(batches: seq<seq<Item>>, byId: ById): (frozen: seq<PlanBatch>)
    ensures |frozen| == |batches|
  {
    if batches == [] then []
    else PlanBatches(batches[..|batches| - 1], byId) + [PlanBatchOf(batches[|batches| - 1], byId)]
  }

  lemma {:induction false} PlanBatchAt(batches: seq<seq<Item>>, byId: ById, i: nat)
    requires i < |batches|
    ensures PlanBatches(batches, byId)[i] == PlanBatchOf(batches[i], byId)
    decreases |batches|
  {
    if i < |batches| - 1 { PlanBatchAt(batches[..|batches| - 1], byId, i); }
  }

  /** `m` names, for every request id, the SP of the first item that carries it. */
  ghost predicate FirstCarrier(ents: seq<LeafEntry>, m: map<string, string>) {
    m.Keys == Rids(ents) && forall e | e in ents :: e.rid in m && m[e.rid] == e.sp
  }

  method RidSPs(batch: seq<Item>, ghost byId: ById) returns (m: map<string, string>)
    ensures FirstCarrier(AddItems(batch, byId), m)
  {
    m := map[];
    for i := 0 to |batch|
      invariant FirstCarrier(AddItems(batch[..i], byId), m)
    {
      assert batch[..i + 1][..i] == batch[..i];
      m := ItemSPs(batch[i], m, AddItems(batch[..i], byId), byId);
    }
    assert batch[..|batch|] == batch;
  }

  method ItemSPs(it: Item, m0: map<string, string>, ghost ents0: seq<LeafEntry>, ghost byId: ById) returns (m: map<string, string>)
    requires FirstCarrier(ents0, m0)
    ensures FirstCarrier(AddIds(ents0, it, it.ids, byId), m)
  {
    m := m0;
    for j := 0 to |it.ids|
      invariant FirstCarrier(AddIds(ents0, it, it.ids[..j], byId), m)
    {
      assert it.ids[..j + 1][..j] == it.ids[..j];
      ghost var ents := AddIds(ents0, it, it.ids[..j], byId);
      var rid := it.ids[j];
      if rid !in m {
        RidsAppend(ents, LeafEntry(rid, LeafFor(it, rid, byId), it.key.sp));
        m := m[rid := it.key.sp];
      }
    }
    assert it.ids[..|it.ids|] == it.ids;
  }

  ghost predicate OneMoreId(before: seq<LeafEntry>, after: seq<LeafEntry>, rid: string, byId: ById) {
    && |after| == |before| + 1 && Rids(after) == Rids(before) + {rid}
    && TokensOf(after, byId) == TokensOf(before, byId) + RidTokens(rid, byId)
  }

  lemma {:induction false} NextId(ents0: seq<LeafEntry>, it: Item, j: nat, byId: ById)
    requires j < |it.ids|
    ensures var before, after := AddIds(ents0, it, it.ids[..j], byId), AddIds(ents0, it, it.ids[..j + 1], byId);
      if it.ids[j] in Rids(before) then after == before else OneMoreId(before, after, it.ids[j], byId)
  {
    assert it.ids[..j + 1][..j] == it.ids[..j];
    var before, e := AddIds(ents0, it, it.ids[..j], byId), LeafEntry(it.ids[j], LeafFor(it, it.ids[j], byId), it.key.sp);
    RidsAppend(before, e);
    assert (before + [e])[..|before|] == before;
  }

  method CountIds(it: Item, seen0: set<string>, ghost ents0: seq<LeafEntry>, byId: ById)
    returns (requests: nat, tokens: int, seen: set<string>)
    requires seen0 == Rids(ents0)
    ensures var after := AddIds(ents0, it, it.ids, byId);
      requests == |after| - |ents0| && tokens == TokensOf(after, byId) - TokensOf(ents0, byId) && seen == Rids(after)
  {
    requests, tokens, seen := 0, 0, seen0;
    ghost var ents := ents0;
    for j := 0 to |it.ids|
      invariant ents == AddIds(ents0, it, it.ids[..j], byId) && seen == Rids(ents)
      invariant requests == |ents| - |ents0| && tokens == TokensOf(ents, byId) - TokensOf(ents0, byId)
    {
      NextId(ents0, it, j, byId);
      ents := AddIds(ents0, it, it.ids[..j + 1], byId);
      var rid := it.ids[j];
      if rid in seen { continue; }
      seen := seen + {rid};
      requests := requests + 1;
      if rid in byId { tokens := tokens + byId[rid].prompt + byId[rid].completion; }
    }
    assert it.ids[..|it.ids|] == it.ids;
  }

  lemma {:induction false} NextItem(batch: seq<Item>, i: nat, byId: ById)
    requires i < |batch|
    ensures AddItems(batch[..i + 1], byId) == AddIds(AddItems(batch[..i], byId), batch[i], batch[i].ids, byId)
    ensures |AddItems(batch[..i], byId)| <= |AddItems(batch[..i + 1], byId)|
    ensures PlanItems(batch[..i + 1], byId) ==
      PlanItems(batch[..i], byId) + [Credited(batch[i], AddItems(batch[..i], byId), AddItems(batch[..i + 1], byId), byId)]
  {
    assert batch[..i + 1][..i] == batch[..i];
    AddIdsGrows(AddItems(batch[..i], byId), batch[i], batch[i].ids, byId);
  }

  method FreezeItem(it: Item, seen0: set<string>, ghost ents0: seq<LeafEntry>, byId: ById)
    returns (item: PlanItem, seen: set<string>)
    requires seen0 == Rids(ents0)
    ensures var after := AddIds(ents0, it, it.ids, byId);
      |ents0| <= |after| && item == Credited(it, ents0, after, byId) && seen == Rids(after)
  {
    var requests, tokens;
    requests, tokens, seen := CountIds(it, seen0, ents0, byId);
    AddIdsGrows(ents0, it, it.ids, byId);
    item := PlanItem(it.key.wallet, it.key.sp, it.amount, it.token.address, it.usd, it.ids, requests, tokens);
  }

  method FreezeItems(batch: seq<Item>, byId: ById) returns (items: seq<PlanItem>)
    ensures items == PlanItems(batch, byId)
  {
    items := [];
    var seen, i := {}, 0;
    ghost var ents := [];
    assert batch[..0] == [];
    while i < |batch|
      invariant i <= |batch| && ents == AddItems(batch[..i], byId)
      invariant items == PlanItems(batch[..i], byId) && seen == Rids(ents)
    {
      NextItem(batch, i, byId);
      var item;
      item, seen := FreezeItem(batch[i], seen, ents, byId);
      items := items + [item];
      i := i + 1;
      ents := AddItems(batch[..i], byId);
    }
    assert batch[..|batch|] == batch;
  }

  method FreezeLeaves(ents: seq<LeafEntry>, sps: map<string, string>, byId: ById) returns (rows: seq<LeafRow>)
    requires forall e | e in ents :: e.rid in sps && sps[e.rid] == e.sp
    ensures rows == Rows(ents, byId)
  {
    rows := [];
    for i := 0 to |ents|
      invariant rows == Rows(ents, byId)[..i]
    {
      var rid := ents[i].rid;
      assert ents[i] in ents;
      rows := rows + [LeafRow(rid, ents[i].leaf, sps[rid], if rid in byId then Some(byId[rid]) else None)];
    }
  }

  /** One round of `buildPending`. */
  method FreezeBatch(batch: seq<Item>, byId: ById) returns (pb: PlanBatch)
    ensures pb == PlanBatchOf(batch, byId)
  {
    var legacy := BatchHash(batch);
    var ents := BatchLeaves(batch, byId);
    var leaves := [];
    for i := 0 to |ents|
      invariant leaves == LeavesOf(ents)[..i]
    {
      leaves := leaves + [ents[i].leaf];
    }
    assert leaves == LeavesOf(ents);
    var root := MerkleRoot(leaves);
    var sps := RidSPs(batch, byId);
    SortKeepsMembers(RidKey(), AddItems(batch, byId));
    var rows := FreezeLeaves(ents, sps, byId);
    var items := FreezeItems(batch, byId);
    pb := PlanBatch(CombinedDetailsHash(legacy, root), legacy, root, rows, items, false);
  }

  lemma {:induction false} SortKeepsMembers<T>(key: T -> seq<string>, s: seq<T>)
    ensures forall x :: x in Sort(key, s) <==> x in s
  {
    SortSorts(key, s);
    forall x ensures x in Sort(key, s) <==> x in s { assert x in Sort(key, s) <==> x in multiset(s); }
  }

  lemma {:induction false} PlanBatchAppended(batches: seq<seq<Item>>, i: nat, byId: ById)
    requires i < |batches|
    ensures PlanBatches(batches[..i + 1], byId) == PlanBatches(batches[..i], byId) + [PlanBatchOf(batches[i], byId)]
  {
    assert batches[..i + 1][..i] == batches[..i];
  }

  /** `buildPending`: every batch of the split, frozen. */
  method BuildPending(items: seq<Item>, maxSize: int, byId: ById) returns (frozen: seq<PlanBatch>)
    ensures frozen == PlanBatches(Chunks(items, ChunkSize(maxSize)), byId)
  {
    var batches := SplitBatches(items, maxSize);
    frozen := FreezeAll(batches, byId);
  }

  method FreezeAll(batches: seq<seq<Item>>, byId: ById) returns (frozen: seq<PlanBatch>)
    ensures frozen == PlanBatches(batches, byId)
  {
    frozen := [];
    for i := 0 to |batches|
      invariant frozen == PlanBatches(batches[..i], byId)
    {
      PlanBatchAppended(batches, i, byId);
      var pb := FreezeBatch(batches[i], byId);
      frozen := frozen + [pb];
    }
    assert batches[..|batches|] == batches;
  }

  // ---- What a frozen batch says ----

  function RequestsOf(items: seq<PlanItem>): int {
    if items == [] then 0 else RequestsOf(items[..|items| - 1]) + items[|items| - 1].requestCount
  }

  function ItemTokens(items: seq<PlanItem>): int {
    if items == [] then 0 else ItemTokens(items[..|items| - 1]) + items[|items| - 1].tokenCount
  }

  function RowTokens(): LeafRow -> real {
    (row: LeafRow) => match row.record case Some(r) => (r.prompt + r.completion) as real case None => 0.0
  }

  function EntryTokens(byId: ById): LeafEntry -> real { (e: LeafEntry) => RidTokens(e.rid, byId) as real }

  lemma {:induction false} ItemsTelescope(batch: seq<Item>, byId: ById)
    ensures RequestsOf(PlanItems(batch, byId)) == |AddItems(batch, byId)|
    ensures ItemTokens(PlanItems(batch, byId)) == TokensOf(AddItems(batch, byId), byId)
    decreases |batch|
  {
    if batch != [] {
      var n := |batch| - 1;
      ItemsTelescope(batch[..n], byId);
      assert PlanItems(batch, byId)[..n] == PlanItems(batch[..n], byId);
    }
  }

  lemma {:induction false} TokensAsSum(ents: seq<LeafEntry>, byId: ById)
    ensures TokensOf(ents, byId) as real == Sum(EntryTokens(byId), ents)
    decreases |ents|
  {
    if ents != [] { TokensAsSum(ents[..|ents| - 1], byId); }
  }

  lemma {:induction false} RowsAsSum(ents: seq<LeafEntry>, byId: ById)
    ensures Sum(RowTokens(), Rows(ents, byId)) == Sum(EntryTokens(byId), ents)
    decreases |ents|
  {
    if ents != [] {
      RowsAsSum(ents[..|ents| - 1], byId);
      assert Rows(ents, byId)[..|ents| - 1] == Rows(ents[..|ents| - 1], byId);
    }
  }

  /** A request id split over several tokens is counted once: the item counts add up to the
      number of leaves, and the item tokens to the tokens of the records behind the leaves. */
  lemma BatchCountsAddUp(batch: seq<Item>, byId: ById)
    ensures var pb := PlanBatchOf(batch, byId);
      RequestsOf(pb.items) == |pb.leaves| && ItemTokens(pb.items) as real == Sum(RowTokens(), pb.leaves)
  {
    var ents := BatchEntries(batch, byId);
    ItemsTelescope(batch, byId);
    SortSorts(RidKey(), AddItems(batch, byId));
    assert |ents| == |multiset(ents)| == |AddItems(batch, byId)|;
    TokensAsSum(AddItems(batch, byId), byId);
    SumPermutation(EntryTokens(byId), ents, AddItems(batch, byId));
    RowsAsSum(ents, byId);
  }

  function LeafOfRow(row: LeafRow, wallet: string): Hash {
    match row.record
    case Some(r) => Digest(ReceiptLeaf(row.rid, r.wallet, row.sp, r.model, r.prompt, r.completion, r.cached, SigOf(r)))
    case None => Digest(DebtLeaf(row.rid, wallet, row.sp))
  }

  function RowLeaves(rows: seq<LeafRow>): seq<Hash> { seq(|rows|, i requires 0 <= i < |rows| => rows[i].leaf) }

  /** What is frozen is self-checking: the stored rows have one distinct leaf per request id,
      each leaf is re-derivable from its row, the rows' root and the legacy hash combine to
      the details hash that goes on chain. */
  lemma FrozenBatchChecks(batch: seq<Item>, byId: ById)
    ensures var pb := PlanBatchOf(batch, byId);
      && Distinct(RowLeaves(pb.leaves)) && PerfectLevel(RowLeaves(pb.leaves), 0)
      && Root(RowLeaves(pb.leaves)) == pb.merkleRoot
      && pb.detailsHash == CombinedDetailsHash(pb.legacyHash, pb.merkleRoot)
      && (set row | row in pb.leaves :: row.rid) == IdSet(batch)
      && forall row | row in pb.leaves :: exists wallet :: row.leaf == LeafOfRow(row, wallet)
  {
    BatchLeavesDistinct(batch, byId);
    var ents, pb := BatchEntries(batch, byId), PlanBatchOf(batch, byId);
    assert RowLeaves(pb.leaves) == LeavesOf(ents);
    RowsFaithful(ents, byId);
    RowIds(ents, byId);
  }

  lemma RowIds(ents: seq<LeafEntry>, byId: ById)
    ensures (set row | row in Rows(ents, byId) :: row.rid) == Rids(ents)
  {
    var rows := Rows(ents, byId);
    forall x ensures (x in set row | row in rows :: row.rid) <==> x in Rids(ents) {
      if x in Rids(ents) {
        var i :| 0 <= i < |ents| && ents[i].rid == x;
        assert rows[i] in rows && rows[i].rid == x;
      }
      if x in set row | row in rows :: row.rid {
        var i :| 0 <= i < |rows| && rows[i].rid == x;
        assert ents[i] in ents && ents[i].rid == x;
      }
    }
  }

  lemma RowsFaithful(ents: seq<LeafEntry>, byId: ById)
    requires EntriesFaithful(ents, byId)
    ensures forall row | row in Rows(ents, byId) :: exists wallet :: row.leaf == LeafOfRow(row, wallet)
  {
    forall i | 0 <= i < |ents| ensures exists wallet :: Rows(ents, byId)[i].leaf == LeafOfRow(Rows(ents, byId)[i], wallet) {
      assert EntryFaithful(ents[i], byId);
      var row := Rows(ents, byId)[i];
      var wallet := if ents[i].leaf.payload.DebtLeaf? then ents[i].leaf.payload.wallet else "";
      assert row.leaf == LeafOfRow(row, wallet);
    }
  }

  /** A batch with one request id an earlier batch did not have is a new batch on chain. */
  lemma NewRequestNewHash(a: seq<Item>, aById: ById, b: seq<Item>, bById: ById, rid: string)
    requires rid in IdSet(a) && rid !in IdSet(b)
    ensures PlanBatchOf(a, aById).detailsHash != PlanBatchOf(b, bById).detailsHash
  {
    DetailsHashBinds(a, aById, b, bById);
  }

  lemma {:induction false} DebtLeavesOnly(batch: seq<Item>, aById: ById, bById: ById)
    requires forall id | id in IdSet(batch) :: id !in aById && id !in bById
    ensures AddItems(batch, aById) == AddItems(batch, bById)
    decreases |batch|
  {
    if batch != [] {
      var n := |batch| - 1;
      assert batch == batch[..n] + [batch[n]];
      DebtLeavesOnly(batch[..n], aById, bById);
      forall id | id in batch[n].ids ensures id in IdSet(batch) { assert batch[n] in batch; }
      DebtIdsOnly(AddItems(batch[..n], aById), batch[n], batch[n].ids, aById, bById);
    }
  }

  lemma {:induction false} DebtIdsOnly(ents: seq<LeafEntry>, it: Item, ids: seq<string>, aById: ById, bById: ById)
    requires forall id | id in ids :: id !in aById && id !in bById
    ensures AddIds(ents, it, ids, aById) == AddIds(ents, it, ids, bById)
    decreases |ids|
  {
    if ids != [] { DebtIdsOnly(ents, it, ids[..|ids| - 1], aById, bById); }
  }

  /** Two equal instalments of a carried debt, whose records are long settled or unknown, get
      the same details hash: on chain the second is indistinguishable from the first. */
  lemma EqualInstalmentsCollide(batch: seq<Item>, aById: ById, bById: ById)
    requires forall id | id in IdSet(batch) :: id !in aById && id !in bById
    ensures PlanBatchOf(batch, aById).detailsHash == PlanBatchOf(batch, bById).detailsHash
  {
    DebtLeavesOnly(batch, aById, bById);
  }
}
