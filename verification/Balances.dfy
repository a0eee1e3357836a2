/** The 402 gate: cached balances, pending (unsettled) spend and debt suspension. */
module Balances {
  import opened Orders
  import opened Sums
  import opened Billing
  import opened Allocator
  import opened Aggregator

  type Pending = map<string, real>

  const DUST_CUTOFF: real := 0.000000000001

  function PendingOf(p: Pending, w: string): real { if w in p then p[w] else 0.0 }

  /** The code has several readings of an absent entry; they are kept apart here. */
  function AdjustSpend(p: Pending, w: string, estimated: real, actual: real): Pending {
    if w !in p then p
    else
      var next := p[w] - (estimated - actual);
      p[w := if next < 0.0 then 0.0 else next]
  }

  function SettleOne(p: Pending, w: string, settled: real): Pending {
    if w !in p then p
    else
      var rest := p[w] - settled;
      if rest <= 0.0 || rest < DUST_CUTOFF then p - {w} else p[w := rest]
  }

  function AddSpend(p: Pending, w: string, usd: real): Pending {
    if usd <= 0.0 then p else p[w := PendingOf(p, w) + usd]
  }

  function RestoreSpend(prices: Prices, p: Pending, records: seq<Record>): Pending {
    if records == [] then p
    else
      var r := records[|records| - 1];
      AddSpend(RestoreSpend(prices, p, records[..|records| - 1]), r.wallet, Cost(prices, r))
  }

  /** What a token holding counts for, both as credit and as something to collect. */
  function HoldingOf(m: Market, b: Allocator.Balances): Token -> real {
    (t: Token) =>
      if t.address in b && b[t.address] > 0 && !Excluded(m, t.symbol) then Worth(m, t, b[t.address]) else 0.0
  }

  function TokenValue(tokens: seq<Token>, m: Market, b: Allocator.Balances): real { Sum(HoldingOf(m, b), tokens) }

  function MapSumTerm(p: Pending): string -> real { (w: string) => PendingOf(p, w) }

  ghost function MapSum(p: Pending): real { Sum(MapSumTerm(p), Enumerate(p.Keys)) }

  ghost predicate SuspendedSet(debts: map<string, real>, threshold: Option<real>, suspended: map<string, real>) {
    suspended == if threshold.None? then map[] else map w | w in debts && debts[w] > 0.0 && debts[w] >= threshold.value :: debts[w]
  }

  class BalanceCache {
    const tokens: seq<Token>
    var chainBalances: map<string, Allocator.Balances>
    var pendingSpend: Pending
    var minBalanceFIL: Option<real>
    var maxPendingSpendFIL: Option<real>
    var suspendThreshold: Option<real>
    var suspended: map<string, real>

    constructor (tokens: seq<Token>)
      ensures this.tokens == tokens && chainBalances == map[] && pendingSpend == map[] && suspended == map[]
      ensures minBalanceFIL.None? && maxPendingSpendFIL.None? && suspendThreshold.None?
    {
      this.tokens := tokens;
      chainBalances, pendingSpend, suspended := map[], map[], map[];
      minBalanceFIL, maxPendingSpendFIL, suspendThreshold := None, None, None;
    }

    function Buffer(m: Market): real
      reads this
    {
      if minBalanceFIL.Some? && minBalanceFIL.value > 0.0 then minBalanceFIL.value * m.fil else 0.0
    }

    function Credit(m: Market, w: string): real
      reads this
    {
      Holdings(m, w) - PendingOf(pendingSpend, w) - Buffer(m)
    }

    /** What a wallet has on the chain. */
    function Holdings(m: Market, w: string): real
      reads this
    {
      if w in chainBalances then TokenValue(tokens, m, chainBalances[w]) else 0.0
    }

    /** The gate, with `pending` already reserved. */
    predicate Grants(m: Market, w: string, pending: real, estimated: real)
      reads this
    {
      && Holdings(m, w) - pending - estimated >= (if minBalanceFIL.Some? && minBalanceFIL.value > 0.0 then minBalanceFIL.value * m.fil else 0.0)
      && (maxPendingSpendFIL.Some? && maxPendingSpendFIL.value > 0.0 ==> pending + estimated <= maxPendingSpendFIL.value * m.fil)
    }

    method AvailableUSD(m: Market, w: string) returns (total: real)
      ensures total == Credit(m, w)
    {
      total := 0.0;
      if w in chainBalances {
        var b := chainBalances[w];
        for i := 0 to |tokens|
          invariant total == TokenValue(tokens[..i], m, b)
        {
          assert tokens[..i + 1][..i] == tokens[..i];
          var t := tokens[i];
          if t.address !in b || b[t.address] <= 0 { continue; }
          var balance := FromWei(b[t.address], t.decimals);
          if t.symbol == "FIL" {
            total := total + balance * m.fil;
          } else if Excluded(m, t.symbol) {
            continue;
          } else {
            total := total + balance * PriceOf(m, t.symbol);
          }
        }
        assert tokens[..|tokens|] == tokens;
      }
      if w in pendingSpend { total := total - pendingSpend[w]; }
      if minBalanceFIL.Some? && minBalanceFIL.value > 0.0 { total := total - minBalanceFIL.value * m.fil; }
    }

    /** Granted exactly if the token value of the wallet pays for what is pending and the
        estimate with the configured minimum left over, and the unsettled cap is kept. */
    method Reserve(m: Market, w: string, estimated: real) returns (ok: bool)
      modifies this`pendingSpend
      ensures ok <==> Grants(m, w, old(PendingOf(pendingSpend, w)), estimated)
      ensures !ok ==> pendingSpend == old(pendingSpend)
      ensures ok ==> pendingSpend == old(pendingSpend)[w := old(PendingOf(pendingSpend, w)) + estimated] && Credit(m, w) >= 0.0
    {
      var available := AvailableUSD(m, w);
      if available < estimated { return false; }
      var pending := if w in pendingSpend then pendingSpend[w] else 0.0;
      var newPending := pending + estimated;
      if maxPendingSpendFIL.Some? && maxPendingSpendFIL.value > 0.0 {
        var capUSD := maxPendingSpendFIL.value * m.fil;
        if newPending > capUSD { return false; }
      }
      pendingSpend := pendingSpend[w := newPending];
      return true;
    }

    method Adjust(w: string, estimated: real, actual: real)
      modifies this`pendingSpend
      ensures pendingSpend == AdjustSpend(old(pendingSpend), w, estimated, actual)
    {
      var diff := estimated - actual;
      if w !in pendingSpend { return; }
      pendingSpend := pendingSpend[w := pendingSpend[w] - diff];
      if pendingSpend[w] < 0.0 { pendingSpend := pendingSpend[w := 0.0]; }
    }

    method SettleSpend(w: string, settledUSD: real)
      modifies this`pendingSpend
      ensures pendingSpend == SettleOne(old(pendingSpend), w, settledUSD)
    {
      if w !in pendingSpend { return; }
      var remaining := pendingSpend[w] - settledUSD;
      if remaining <= 0.0 || remaining < DUST_CUTOFF {
        pendingSpend := pendingSpend - {w};
        return;
      }
      pendingSpend := pendingSpend[w := remaining];
    }

    method AddPendingSpend(w: string, usd: real)
      modifies this`pendingSpend
      ensures pendingSpend == AddSpend(old(pendingSpend), w, usd)
    {
      if usd <= 0.0 { return; }
      var pending := if w in pendingSpend then pendingSpend[w] else 0.0;
      pendingSpend := pendingSpend[w := pending + usd];
    }

    method RestorePendingSpend(prices: Prices, records: seq<Record>)
      modifies this`pendingSpend
      ensures pendingSpend == RestoreSpend(prices, old(pendingSpend), records)
    {
      for i := 0 to |records|
        invariant pendingSpend == RestoreSpend(prices, old(pendingSpend), records[..i])
      {
        assert records[..i + 1][..i] == records[..i];
        var cost := Cost(prices, records[i]);
        if cost <= 0.0 { continue; }
        var pending := if records[i].wallet in pendingSpend then pendingSpend[records[i].wallet] else 0.0;
        pendingSpend := pendingSpend[records[i].wallet := pending + cost];
      }
      assert records[..|records|] == records;
    }

    /** The suspended set is rebuilt from the debt ledger, so a paid debt lifts the suspension. */
    method UpdateDebts(debtByWallet: map<string, real>) returns (n: nat)
      modifies this`suspended
      ensures SuspendedSet(debtByWallet, suspendThreshold, suspended) && n == |suspended|
    {
      suspended := map[];
      if suspendThreshold.None? { return 0; }
      var todo := debtByWallet.Keys;
      while todo != {}
        invariant todo <= debtByWallet.Keys
        invariant suspended == map w | w in debtByWallet && w !in todo && debtByWallet[w] > 0.0 && debtByWallet[w] >= suspendThreshold.value :: debtByWallet[w]
        decreases todo
      {
        var w :| w in todo;
        todo := todo - {w};
        if debtByWallet[w] > 0.0 && debtByWallet[w] >= suspendThreshold.value {
          suspended := suspended[w := debtByWallet[w]];
        }
      }
      return |suspended|;
    }

    method TotalPendingSpendUSD() returns (total: real)
      ensures total == MapSum(pendingSpend)
    {
      total := SumOfMap(pendingSpend);
    }
  }

  /** What a grant leaves: the configured minimum in hand and the cap unexceeded. With neither
      configured, only a wallet that cannot pay is refused. */
  lemma GateKeepsMinimum(b: BalanceCache, m: Market, w: string, pending: real, estimated: real)
    ensures b.Grants(m, w, pending, estimated) && b.minBalanceFIL.Some? && b.minBalanceFIL.value > 0.0 ==>
      b.Holdings(m, w) >= pending + estimated + b.minBalanceFIL.value * m.fil
    ensures b.Grants(m, w, pending, estimated) && b.maxPendingSpendFIL.Some? && b.maxPendingSpendFIL.value > 0.0 ==>
      pending + estimated <= b.maxPendingSpendFIL.value * m.fil
    ensures b.minBalanceFIL.None? && b.maxPendingSpendFIL.None? ==>
      (b.Grants(m, w, pending, estimated) <==> pending + estimated <= b.Holdings(m, w))
  {
  }

  /** Adds up a map in whatever order it yields its keys. */
  method SumOfMap(p: Pending) returns (total: real)
    ensures total == MapSum(p)
  {
    var walk := ListOf(p.Keys);
    total := 0.0;
    for i := 0 to |walk|
      invariant total == Sum(MapSumTerm(p), walk[..i])
    {
      assert walk[..i + 1][..i] == walk[..i];
      total := total + PendingOf(p, walk[i]);
    }
    assert walk[..|walk|] == walk;
    SumPermutation(MapSumTerm(p), walk, Enumerate(p.Keys));
  }
}
