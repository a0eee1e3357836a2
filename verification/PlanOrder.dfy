/** The plan does not depend on the order in which its records and debts are read: ids and
    receipts included, every batch keeps the details hash by which the contract knows it. */
module PlanOrder {
  import opened Orders
  import opened Billing
  import opened Allocator
  import opened Aggregator
  import opened AggregatorLaws
  import opened Batches
  import opened Settlement

  // ---- The record index ----

  /** No two different records carry the same request id. */
  ghost predicate IdsTell(records: seq<Record>) {
    forall x, y | x in records && y in records && x.id == y.id != "" :: x == y
  }

  ghost predicate Indexes(byId: ById, records: seq<Record>) {
    && (forall r | r in records && r.id != "" :: r.id in byId && byId[r.id] == r)
    && (forall id | id in byId :: byId[id] in records && byId[id].id == id != "")
  }

  lemma {:induction false} IndexHolds(records: seq<Record>)
    requires IdsTell(records)
    ensures Indexes(IdIndex(records), records)
    decreases |records|
  {
    if records != [] {
      var n := |records| - 1;
      assert records == records[..n] + [records[n]];
      forall r | r in records[..n] ensures r in records {}
      IndexHolds(records[..n]);
    }
  }

  lemma {:induction false} IndexIgnoresOrder(r1: seq<Record>, r2: seq<Record>)
    requires multiset(r1) == multiset(r2) && IdsTell(r1)
    ensures IdIndex(r1) == IdIndex(r2)
  {
    forall r ensures r in r1 <==> r in r2 { assert r in r1 <==> r in multiset(r1); }
    IndexHolds(r1);
    IndexHolds(r2);
    assert IdIndex(r1).Keys == IdIndex(r2).Keys;
  }

  // ---- The ids of an item ----

  function IdsIn(ids: seq<string>): set<string> { set id | id in ids }

  lemma {:induction false} RecordIdMembers(env: Env, k: Key, records: seq<Record>, id: string)
    ensures id in RecordIds(env, k, records) <==>
      exists r :: r in records && Resolvable(env, r) && KeyOf(env, r) == k && r.id != "" && r.id == id
    decreases |records|
  {
    if records != [] {
      var n := |records| - 1;
      assert records == records[..n] + [records[n]];
      RecordIdMembers(env, k, records[..n], id);
      forall r ensures r in records <==> r in records[..n] || r == records[n] {}
    }
  }

  lemma {:induction false} DebtIdMembers(k: Key, debts: seq<Debt>, id: string)
    ensures id in DebtIds(k, debts) <==> exists d :: d in debts && d.usd > 0.0 && d.key == k && id in d.ids
    decreases |debts|
  {
    if debts != [] {
      var n := |debts| - 1;
      assert debts == debts[..n] + [debts[n]];
      DebtIdMembers(k, debts[..n], id);
      forall d ensures d in debts <==> d in debts[..n] || d == debts[n] {}
    }
  }

  lemma IdsIgnoreOrder(env: Env, r1: seq<Record>, r2: seq<Record>, d1: seq<Debt>, d2: seq<Debt>, k: Key)
    requires multiset(r1) == multiset(r2) && multiset(d1) == multiset(d2)
    ensures IdsIn(IdsOf(env, r1, d1, k)) == IdsIn(IdsOf(env, r2, d2, k))
  {
    forall r ensures r in r1 <==> r in r2 { assert r in r1 <==> r in multiset(r1); }
    forall d ensures d in d1 <==> d in d2 { assert d in d1 <==> d in multiset(d1); }
    forall id ensures id in IdsOf(env, r1, d1, k) <==> id in IdsOf(env, r2, d2, k) {
      RecordIdMembers(env, k, r1, id);
      RecordIdMembers(env, k, r2, id);
      DebtIdMembers(k, d1, id);
      DebtIdMembers(k, d2, id);
    }
  }

  // ---- Lists related element by element ----

  ghost predicate Pairs<T>(rel: (T, T) -> bool, a: seq<T>, b: seq<T>) { |a| == |b| && forall i | 0 <= i < |a| :: rel(a[i], b[i]) }

  /** Related elements compare alike. */
  ghost predicate SameKeys<T(!new)>(rel: (T, T) -> bool, key: T -> seq<string>) { forall x, y | rel(x, y) :: key(x) == key(y) }

  lemma PairsCons<T>(rel: (T, T) -> bool, x: T, y: T, a: seq<T>, b: seq<T>)
    requires rel(x, y) && Pairs(rel, a, b)
    ensures Pairs(rel, [x] + a, [y] + b)
  {
  }

  lemma {:induction false} InsertPairs<T(!new)>(rel: (T, T) -> bool, key: T -> seq<string>, x: T, y: T, a: seq<T>, b: seq<T>)
    requires SameKeys(rel, key) && rel(x, y) && Pairs(rel, a, b)
    ensures Pairs(rel, Insert(key, x, a), Insert(key, y, b))
    decreases |a|
  {
    if a == [] {
      PairsCons(rel, x, y, a, b);
      assert [x] + a == [x] && [y] + b == [y];
    } else {
      assert rel(a[0], b[0]) && key(x) == key(y);
      if KeyLe(key(x), key(a[0])) {
        PairsCons(rel, x, y, a, b);
      } else {
        InsertPairs(rel, key, x, y, a[1..], b[1..]);
        PairsCons(rel, a[0], b[0], Insert(key, x, a[1..]), Insert(key, y, b[1..]));
      }
    }
  }

  lemma {:induction false} SortPairs<T(!new)>(rel: (T, T) -> bool, key: T -> seq<string>, a: seq<T>, b: seq<T>)
    requires SameKeys(rel, key) && Pairs(rel, a, b)
    ensures Pairs(rel, Sort(key, a), Sort(key, b))
    decreases |a|
  {
    if a != [] {
      SortPairs(rel, key, a[1..], b[1..]);
      InsertPairs(rel, key, a[0], b[0], Sort(key, a[1..]), Sort(key, b[1..]));
    }
  }

  // ---- Items that differ only in the order of their ids ----

  predicate Alike(x: Item, y: Item) { MoneyOf(x) == MoneyOf(y) && IdsIn(x.ids) == IdsIn(y.ids) }

  ghost predicate AllAlike(a: seq<Item>, b: seq<Item>) { Pairs(Alike, a, b) }

  lemma {:induction false} AttachedAlike(payments: seq<Payment>, f: Key -> seq<string>, g: Key -> seq<string>)
    requires forall k :: IdsIn(f(k)) == IdsIn(g(k))
    ensures AllAlike(Sort(ItemKey(), AttachIds(payments, f)), Sort(ItemKey(), AttachIds(payments, g)))
  {
    assert SameKeys(Alike, ItemKey());
    SortPairs(Alike, ItemKey(), AttachIds(payments, f), AttachIds(payments, g));
  }

  lemma ItemsIgnoreOrder(cfg: Config, env: Env, r1: seq<Record>, r2: seq<Record>, d1: seq<Debt>, d2: seq<Debt>)
    requires multiset(r1) == multiset(r2) && multiset(d1) == multiset(d2)
    ensures AllAlike(Aggregate(cfg, env, r1, d1).items, Aggregate(cfg, env, r2, d2).items)
  {
    if env.market.fil > 0.0 {
      CostsIgnoreOrder(cfg, env, r1, r2, d1, d2);
      var f, g := IdsFor(env, r1, d1), IdsFor(env, r2, d2);
      forall k ensures IdsIn(f(k)) == IdsIn(g(k)) { IdsIgnoreOrder(env, r1, r2, d1, d2, k); }
      AttachedAlike(Pay(cfg, env, r1, d1).payments, f, g);
    }
  }

  // ---- Batches that differ only in the order of ids ----

  lemma {:induction false} ChunksAlike(a: seq<Item>, b: seq<Item>, size: nat)
    requires size > 0 && AllAlike(a, b)
    ensures |Chunks(a, size)| == |Chunks(b, size)|
    ensures forall i | 0 <= i < |Chunks(a, size)| :: AllAlike(Chunks(a, size)[i], Chunks(b, size)[i])
    decreases |a|
  {
    if |a| > size { ChunksAlike(a[size..], b[size..], size); }
  }

  lemma {:induction false} DigestAlike(a: seq<Item>, b: seq<Item>)
    requires AllAlike(a, b)
    ensures IdSet(a) == IdSet(b) && BatchDigest(a) == BatchDigest(b)
  {
    forall i | 0 <= i < |a| ensures HashItemOf(a[i]) == HashItemOf(b[i]) { assert Alike(a[i], b[i]); }
    assert HashItems(a) == HashItems(b);
    IdSetGrows(a, b);
    IdSetGrows(b, a);
  }

  lemma IdSetGrows(a: seq<Item>, b: seq<Item>)
    requires |a| == |b| && forall i | 0 <= i < |a| :: IdsIn(a[i].ids) == IdsIn(b[i].ids)
    ensures IdSet(a) <= IdSet(b)
  {
    forall id | id in IdSet(a) ensures id in IdSet(b) {
      var i :| 0 <= i < |a| && id in a[i].ids;
      assert id in IdsIn(a[i].ids);
      assert b[i] in b && id in b[i].ids;
    }
  }

  function EntryFor(it: Item, rid: string, byId: ById): LeafEntry { LeafEntry(rid, LeafFor(it, rid, byId), it.key.sp) }

  /** An item adds an entry for each of its ids that no earlier item carried. */
  lemma {:induction false} AddedIds(ents: seq<LeafEntry>, it: Item, ids: seq<string>, byId: ById, e: LeafEntry)
    ensures e in AddIds(ents, it, ids, byId) <==> e in ents || (e.rid in ids && e.rid !in Rids(ents) && e == EntryFor(it, e.rid, byId))
    ensures Rids(AddIds(ents, it, ids, byId)) == Rids(ents) + IdsIn(ids)
    decreases |ids|
  {
    if ids != [] {
      var n := |ids| - 1;
      assert ids == ids[..n] + [ids[n]];
      AddedIds(ents, it, ids[..n], byId, e);
      var before := AddIds(ents, it, ids[..n], byId);
      assert IdsIn(ids) == IdsIn(ids[..n]) + {ids[n]};
      if ids[n] !in Rids(before) { RidsAppend(before, EntryFor(it, ids[n], byId)); }
    }
  }

  lemma {:induction false} AddedAlike(a: seq<Item>, b: seq<Item>, byId: ById, e: LeafEntry)
    requires AllAlike(a, b)
    ensures e in AddItems(a, byId) <==> e in AddItems(b, byId)
    decreases |a|
  {
    if a != [] {
      var n := |a| - 1;
      AddedAlike(a[..n], b[..n], byId, e);
      assert Alike(a[n], b[n]);
      AddedIds(AddItems(a[..n], byId), a[n], a[n].ids, byId, e);
      AddedIds(AddItems(b[..n], byId), b[n], b[n].ids, byId, e);
      DigestAlike(a[..n], b[..n]);
      AddItemsFaithful(a[..n], byId);
      AddItemsFaithful(b[..n], byId);
      assert e.rid in a[n].ids <==> e.rid in IdsIn(b[n].ids);
      assert EntryFor(a[n], e.rid, byId) == EntryFor(b[n], e.rid, byId);
    }
  }

  lemma EntriesAlike(a: seq<Item>, b: seq<Item>, byId: ById)
    requires AllAlike(a, b)
    ensures BatchEntries(a, byId) == BatchEntries(b, byId)
  {
    var x, y := AddItems(a, byId), AddItems(b, byId);
    AddItemsFaithful(a, byId);
    AddItemsFaithful(b, byId);
    forall e ensures multiset(x)[e] == multiset(y)[e] {
      AddedAlike(a, b, byId, e);
      EntryOnce(x, byId, e);
      EntryOnce(y, byId, e);
      assert e in x <==> e in multiset(x);
      assert e in y <==> e in multiset(y);
    }
    assert multiset(x) == multiset(y);
    SortedAlike(x, y, byId);
  }

  lemma {:induction false} SortedAlike(x: seq<LeafEntry>, y: seq<LeafEntry>, byId: ById)
    requires EntriesFaithful(x, byId) && multiset(x) == multiset(y)
    ensures Sort(RidKey(), x) == Sort(RidKey(), y)
  {
    SortSorts(RidKey(), x);
    SortSorts(RidKey(), y);
    SortKeepsMembers(RidKey(), x);
    forall p, q | p in Sort(RidKey(), x) && q in Sort(RidKey(), x) && RidKey()(p) == RidKey()(q) ensures p == q {
      assert RidKey()(p)[0] == RidKey()(q)[0];
      SameRid(x, byId, p, q);
    }
    SortedIsUnique(RidKey(), Sort(RidKey(), x), Sort(RidKey(), y));
  }

  lemma BatchAlike(a: seq<Item>, b: seq<Item>, byId: ById)
    requires AllAlike(a, b)
    ensures PlanBatchOf(a, byId).detailsHash == PlanBatchOf(b, byId).detailsHash
    ensures PlanBatchOf(a, byId).leaves == PlanBatchOf(b, byId).leaves
  {
    DigestAlike(a, b);
    EntriesAlike(a, b, byId);
  }

  // ---- The plan ----

  ghost function BatchesPlanned(cfg: Config, env: Env, records: seq<Record>, carried: seq<Debt>): seq<PlanBatch> {
    PlanBatches(Chunks(Aggregate(cfg, env, records, carried).items, ChunkSize(cfg.maxBatch)), IdIndex(records))
  }

  ghost predicate SameOnChain(p: seq<PlanBatch>, q: seq<PlanBatch>) {
    |p| == |q| && forall i | 0 <= i < |p| :: p[i].detailsHash == q[i].detailsHash && p[i].leaves == q[i].leaves
  }

  lemma {:induction false} FrozenAlike(x: seq<seq<Item>>, y: seq<seq<Item>>, byId: ById)
    requires |x| == |y| && forall i | 0 <= i < |x| :: AllAlike(x[i], y[i])
    ensures SameOnChain(PlanBatches(x, byId), PlanBatches(y, byId))
  {
    var p, q := PlanBatches(x, byId), PlanBatches(y, byId);
    forall i | 0 <= i < |x| ensures p[i].detailsHash == q[i].detailsHash && p[i].leaves == q[i].leaves {
      PlanBatchAt(x, byId, i);
      PlanBatchAt(y, byId, i);
      BatchAlike(x[i], y[i], byId);
    }
  }

  /** Read in any other order, the same records and debts are planned in the same number of
      batches, each with the same details hash and the same leaves. */
  lemma HashesIgnoreOrder(cfg: Config, env: Env, r1: seq<Record>, r2: seq<Record>, d1: seq<Debt>, d2: seq<Debt>)
    requires multiset(r1) == multiset(r2) && multiset(d1) == multiset(d2) && IdsTell(r1)
    ensures SameOnChain(BatchesPlanned(cfg, env, r1, d1), BatchesPlanned(cfg, env, r2, d2))
  {
    var a, b := Aggregate(cfg, env, r1, d1).items, Aggregate(cfg, env, r2, d2).items;
    ItemsIgnoreOrder(cfg, env, r1, r2, d1, d2);
    IndexIgnoresOrder(r1, r2);
    ChunksAlike(a, b, ChunkSize(cfg.maxBatch));
    FrozenAlike(Chunks(a, ChunkSize(cfg.maxBatch)), Chunks(b, ChunkSize(cfg.maxBatch)), IdIndex(r1));
  }

  // ---- Records that share an id ----

  /** What a receipt leaf holds of a record. */
  function Receipted(r: Record): (string, string, int, int, int, string) { (r.wallet, r.model, r.prompt, r.completion, r.cached, SigOf(r)) }

  predicate SameReceipt(one: ById, two: ById, rid: string) { rid in one && rid in two ==> Receipted(one[rid]) == Receipted(two[rid]) }

  lemma LeafShows(it: Item, rid: string, one: ById, two: ById)
    requires one.Keys == two.Keys
    ensures LeafFor(it, rid, one) == LeafFor(it, rid, two) <==> SameReceipt(one, two, rid)
  {
  }

  /** Two entries for one id, which differ in their leaf exactly if the records do. */
  function Twin(one: ById, two: ById): (LeafEntry, LeafEntry) -> bool {
    (e: LeafEntry, f: LeafEntry) => e.rid == f.rid && e.sp == f.sp && (e.leaf == f.leaf <==> SameReceipt(one, two, e.rid))
  }

  lemma TwinRids(one: ById, two: ById, a: seq<LeafEntry>, b: seq<LeafEntry>)
    requires Pairs(Twin(one, two), a, b)
    ensures Rids(a) == Rids(b)
  {
    RidsWithin(a, b);
    RidsWithin(b, a);
  }

  lemma RidsWithin(a: seq<LeafEntry>, b: seq<LeafEntry>)
    requires |a| == |b| && forall i | 0 <= i < |a| :: a[i].rid == b[i].rid
    ensures Rids(a) <= Rids(b)
  {
    forall rid | rid in Rids(a) ensures rid in Rids(b) {
      var i :| 0 <= i < |a| && a[i].rid == rid;
      assert b[i] in b;
    }
  }

  lemma {:induction false} TwinIds(one: ById, two: ById, a: seq<LeafEntry>, b: seq<LeafEntry>, it: Item, ids: seq<string>)
    requires one.Keys == two.Keys && Pairs(Twin(one, two), a, b)
    ensures Pairs(Twin(one, two), AddIds(a, it, ids, one), AddIds(b, it, ids, two))
    decreases |ids|
  {
    if ids != [] {
      var n := |ids| - 1;
      TwinIds(one, two, a, b, it, ids[..n]);
      TwinRids(one, two, AddIds(a, it, ids[..n], one), AddIds(b, it, ids[..n], two));
      LeafShows(it, ids[n], one, two);
    }
  }

  lemma {:induction false} TwinItems(one: ById, two: ById, batch: seq<Item>)
    requires one.Keys == two.Keys
    ensures Pairs(Twin(one, two), AddItems(batch, one), AddItems(batch, two))
    decreases |batch|
  {
    if batch != [] {
      var n := |batch| - 1;
      TwinItems(one, two, batch[..n]);
      TwinIds(one, two, AddItems(batch[..n], one), AddItems(batch[..n], two), batch[n], batch[n].ids);
    }
  }

  lemma {:induction false} LeavesShow(one: ById, two: ById, a: seq<LeafEntry>, b: seq<LeafEntry>)
    requires Pairs(Twin(one, two), a, b)
    ensures LeavesOf(a) == LeavesOf(b) <==> forall rid | rid in Rids(a) :: SameReceipt(one, two, rid)
  {
    if LeavesOf(a) == LeavesOf(b) {
      forall rid | rid in Rids(a) ensures SameReceipt(one, two, rid) {
        var i :| 0 <= i < |a| && a[i].rid == rid;
        assert Twin(one, two)(a[i], b[i]) && LeavesOf(a)[i] == LeavesOf(b)[i];
      }
    }
    if forall rid | rid in Rids(a) :: SameReceipt(one, two, rid) {
      forall i | 0 <= i < |a| ensures LeavesOf(a)[i] == LeavesOf(b)[i] {
        assert Twin(one, two)(a[i], b[i]) && a[i].rid in Rids(a);
      }
    }
  }

  /** One batch, frozen with two indexes of the same ids. */
  lemma {:induction false} BatchShows(one: ById, two: ById, a: seq<Item>, b: seq<Item>)
    requires one.Keys == two.Keys && AllAlike(a, b)
    ensures PlanBatchOf(a, one).detailsHash == PlanBatchOf(b, two).detailsHash <==> forall rid | rid in IdSet(a) :: SameReceipt(one, two, rid)
  {
    TwinItems(one, two, a);
    assert SameKeys(Twin(one, two), RidKey());
    SortPairs(Twin(one, two), RidKey(), AddItems(a, one), AddItems(a, two));
    EntriesAlike(a, b, two);
    LeavesShow(one, two, BatchEntries(a, one), BatchEntries(a, two));
    BatchLeavesDistinct(a, one);
    DigestAlike(a, b);
    BatchHashCanonical(a, b);
    DetailsHashBinds(a, one, b, two);
  }

  // ---- The index keeps the last carrier ----

  /** The last record with a request id. */
  function LastCarrier(records: seq<Record>, id: string): Option<Record> {
    if records == [] then None
    else if records[|records| - 1].id == id then Some(records[|records| - 1])
    else LastCarrier(records[..|records| - 1], id)
  }

  lemma {:induction false} IndexIsLast(records: seq<Record>, id: string)
    requires id != ""
    ensures LastCarrier(records, id) == if id in IdIndex(records) then Some(IdIndex(records)[id]) else None
    ensures id in IdIndex(records) <==> exists r :: r in records && r.id == id
    decreases |records|
  {
    if records != [] {
      var n := |records| - 1;
      assert records == records[..n] + [records[n]];
      IndexIsLast(records[..n], id);
      forall r ensures r in records <==> r in records[..n] || r == records[n] {}
    }
  }

  lemma {:induction false} NoEmptyKey(records: seq<Record>)
    ensures "" !in IdIndex(records)
    decreases |records|
  {
    if records != [] { NoEmptyKey(records[..|records| - 1]); }
  }

  lemma {:induction false} IndexKeys(r1: seq<Record>, r2: seq<Record>)
    requires multiset(r1) == multiset(r2)
    ensures IdIndex(r1).Keys == IdIndex(r2).Keys
  {
    forall r ensures r in r1 <==> r in r2 { assert r in r1 <==> r in multiset(r1); }
    NoEmptyKey(r1);
    NoEmptyKey(r2);
    forall id | id != "" ensures id in IdIndex(r1) <==> id in IdIndex(r2) {
      IndexIsLast(r1, id);
      IndexIsLast(r2, id);
    }
  }

  /** The last carriers of an id in two orders have the same receipt, if it has any. */
  predicate LastAgree(r1: seq<Record>, r2: seq<Record>, id: string) {
    match (LastCarrier(r1, id), LastCarrier(r2, id))
    case (Some(a), Some(b)) => id == "" || Receipted(a) == Receipted(b)
    case _ => true
  }

  lemma {:induction false} AgreeIsSame(r1: seq<Record>, r2: seq<Record>, id: string)
    ensures LastAgree(r1, r2, id) <==> SameReceipt(IdIndex(r1), IdIndex(r2), id)
  {
    if id == "" {
      NoEmptyKey(r1);
    } else {
      IndexIsLast(r1, id);
      IndexIsLast(r2, id);
    }
  }

  // ---- When the order shows ----

  lemma {:induction false} FrozenShow(one: ById, two: ById, x: seq<seq<Item>>, y: seq<seq<Item>>, i: nat)
    requires one.Keys == two.Keys && |x| == |y| && i < |x| && AllAlike(x[i], y[i])
    ensures PlanBatches(x, one)[i].detailsHash == PlanBatches(y, two)[i].detailsHash <==> forall rid | rid in IdSet(x[i]) :: SameReceipt(one, two, rid)
  {
    PlanBatchAt(x, one, i);
    PlanBatchAt(y, two, i);
    BatchShows(one, two, x[i], y[i]);
  }

  /** For any records, however they share ids: reordering them, and the debts, leaves the number
      of batches and keeps the details hash of a batch exactly if, for every id planned in it,
      the records read last for the id in the two orders have the same receipt. */
  lemma {:induction false} SharedIdShowsOrder(cfg: Config, env: Env, r1: seq<Record>, r2: seq<Record>, d1: seq<Debt>, d2: seq<Debt>, i: nat)
    requires multiset(r1) == multiset(r2) && multiset(d1) == multiset(d2) && i < |BatchesPlanned(cfg, env, r1, d1)|
    ensures var p1, p2 := BatchesPlanned(cfg, env, r1, d1), BatchesPlanned(cfg, env, r2, d2);
      && |p1| == |p2| == |Chunks(Aggregate(cfg, env, r1, d1).items, ChunkSize(cfg.maxBatch))|
      && (p1[i].detailsHash == p2[i].detailsHash <==>
            forall id | id in IdSet(Chunks(Aggregate(cfg, env, r1, d1).items, ChunkSize(cfg.maxBatch))[i]) :: LastAgree(r1, r2, id))
  {
    var a, b := Aggregate(cfg, env, r1, d1).items, Aggregate(cfg, env, r2, d2).items;
    ItemsIgnoreOrder(cfg, env, r1, r2, d1, d2);
    IndexKeys(r1, r2);
    ChunksAlike(a, b, ChunkSize(cfg.maxBatch));
    FrozenShow(IdIndex(r1), IdIndex(r2), Chunks(a, ChunkSize(cfg.maxBatch)), Chunks(b, ChunkSize(cfg.maxBatch)), i);
    forall id ensures LastAgree(r1, r2, id) <==> SameReceipt(IdIndex(r1), IdIndex(r2), id) { AgreeIsSame(r1, r2, id); }
  }
}
