/** The greedy multi-token allocator: one (wallet, SP) cost is deducted from the wallet's
    cached token balances in priority order, in whole smallest units. */
module Allocator {
  import opened Orders
  import opened Sums
  import opened Billing

  datatype Token = Token(symbol: string, address: string, decimals: nat)

  /** Plan-time prices: the FIL snapshot and the monitored stablecoin's price and peg status. */
  datatype Market = Market(fil: real, stableSymbol: string, stablePrice: real, depegged: bool)

  datatype Config = Config(tokens: seq<Token>, priority: seq<string>, prices: Prices, maxBatch: int)

  /** One deduction: an amount of smallest units and the USD it stands for. */
  datatype Slice = Slice(token: Token, amount: int, usd: real)

  type Balances = map<string, int>    // token address -> smallest units

  /** The allocation loop's state: slices so far, USD still to collect, running balances. */
  datatype Till = Till(slices: seq<Slice>, remaining: real, working: Balances)

  function Pow10(n: nat): (p: int)
    ensures p > 0
  {
    if n == 0 then 1 else 10 * Pow10(n - 1)
  }

  function PriceOf(m: Market, symbol: string): real {
    if symbol == "FIL" then m.fil
    else if m.stableSymbol != "" && symbol == m.stableSymbol then m.stablePrice
    else 1.0
  }

  /** A depegged stablecoin is neither collected nor counted as credit. */
  predicate Excluded(m: Market, symbol: string) {
    symbol != "FIL" && m.stableSymbol != "" && symbol == m.stableSymbol && m.depegged
  }

  function Truncate(x: real): int { if x >= 0.0 then x.Floor else -((-x).Floor) }

  function ToWei(x: real, decimals: nat): int { Truncate(x * Pow10(decimals) as real) }

  function FromWei(wei: int, decimals: nat): real { wei as real / Pow10(decimals) as real }

  /** USD value of an amount of smallest units. */
  function Worth(m: Market, t: Token, amount: int): real { FromWei(amount, t.decimals) * PriceOf(m, t.symbol) }

  function FindToken(tokens: seq<Token>, symbol: string): Option<Token> {
    if tokens == [] then None
    else if tokens[0].symbol == symbol then Some(tokens[0])
    else FindToken(tokens[1..], symbol)
  }

  // ---- Specification of the deduction ----

  function DeductToken(m: Market, till: Till, t: Token): Till
    requires t.address in till.working
  {
    var balance := till.working[t.address];
    var want := ToWei(till.remaining / PriceOrOne(m, t.symbol), t.decimals);
    if want > balance then
      var used := Worth(m, t, balance);
      Till(till.slices + [Slice(t, balance, used)], till.remaining - used, till.working[t.address := 0])
    else if want > 0 then
      Till(till.slices + [Slice(t, want, till.remaining)], 0.0, till.working[t.address := balance - want])
    else
      till.(remaining := 0.0)
  }

  /** A price of zero would make the division undefined; the price feeds reject it. */
  function PriceOrOne(m: Market, symbol: string): (p: real)
    ensures p != 0.0
  {
    if PriceOf(m, symbol) == 0.0 then 1.0 else PriceOf(m, symbol)
  }

  function DeductSymbol(cfg: Config, m: Market, till: Till, symbol: string): Till {
    match FindToken(cfg.tokens, symbol)
    case None => till
    case Some(t) =>
      if till.remaining <= 0.0 || t.address !in till.working || till.working[t.address] <= 0 || Excluded(m, symbol)
      then till
      else DeductToken(m, till, t)
  }

  function Deduct(cfg: Config, m: Market, priority: seq<string>, total: real, working: Balances): Till {
    if priority == [] then Till([], total, working)
    else
      var n := |priority| - 1;
      DeductSymbol(cfg, m, Deduct(cfg, m, priority[..n], total, working), priority[n])
  }

  // ---- The code ----

  method FindTokenLoop(tokens: seq<Token>, symbol: string) returns (found: Option<Token>)
    ensures found == FindToken(tokens, symbol)
  {
    for i := 0 to |tokens|
      invariant FindToken(tokens[i..], symbol) == FindToken(tokens, symbol)
    {
      if tokens[i].symbol == symbol { return Some(tokens[i]); }
      assert tokens[i..][1..] == tokens[i + 1..];
    }
    return None;
  }

  /** The loop body of `allocate` for a token with a positive, collectable balance. */
  method AllocateFrom(m: Market, t: Token, slices0: seq<Slice>, remaining: real, working0: Balances)
    returns (slices: seq<Slice>, rest: real, working: Balances)
    requires PositivePrices(m) && t.address in working0 && working0[t.address] > 0
    ensures Till(slices, rest, working) == DeductToken(m, Till(slices0, remaining, working0), t)
  {
    slices, working := slices0, working0;
    var balance := working[t.address];
    var amount := ToWei(remaining / PriceOf(m, t.symbol), t.decimals);
    var itemUSD;
    if amount > balance {
      amount := balance;
      var usedUSD := Worth(m, t, amount);
      rest := remaining - usedUSD;
      itemUSD := usedUSD;
    } else {
      itemUSD := remaining;
      rest := 0.0;
    }
    if amount > 0 {
      working := working[t.address := balance - amount];
      slices := slices + [Slice(t, amount, itemUSD)];
    }
  }

  /** `allocate`: the running balances are passed in and handed back instead of shared. */
  method Allocate(cfg: Config, m: Market, total: real, balances: Balances)
    returns (slices: seq<Slice>, shortfall: real, working: Balances)
    requires PositivePrices(m)
    ensures Till(slices, shortfall, working) == Deduct(cfg, m, cfg.priority, total, balances)
  {
    slices, shortfall, working := [], total, balances;
    for i := 0 to |cfg.priority|
      invariant Till(slices, shortfall, working) == Deduct(cfg, m, cfg.priority[..i], total, balances)
    {
      assert cfg.priority[..i + 1][..i] == cfg.priority[..i];
      if shortfall <= 0.0 {
        NothingLeftToDeduct(cfg, m, i, total, balances);
        break;
      }
      var symbol := cfg.priority[i];
      var token := FindTokenLoop(cfg.tokens, symbol);
      if token.None? { continue; }
      var t := token.value;
      assert t.symbol == symbol by { FindTokenMatches(cfg.tokens, symbol); }
      if t.address !in working || working[t.address] <= 0 { continue; }
      if Excluded(m, symbol) { continue; }
      slices, shortfall, working := AllocateFrom(m, t, slices, shortfall, working);
    }
    assert cfg.priority[..|cfg.priority|] == cfg.priority;
  }

  lemma {:induction false} NothingLeftToDeduct(cfg: Config, m: Market, i: nat, total: real, balances: Balances)
    requires i <= |cfg.priority|
    requires Deduct(cfg, m, cfg.priority[..i], total, balances).remaining <= 0.0
    ensures Deduct(cfg, m, cfg.priority, total, balances) == Deduct(cfg, m, cfg.priority[..i], total, balances)
    decreases |cfg.priority| - i
  {
    if i < |cfg.priority| {
      assert cfg.priority[..i + 1][..i] == cfg.priority[..i];
      NothingLeftToDeduct(cfg, m, i + 1, total, balances);
    } else {
      assert cfg.priority[..i] == cfg.priority;
    }
  }

  lemma {:induction false} FindTokenMatches(tokens: seq<Token>, symbol: string)
    ensures FindToken(tokens, symbol).Some? ==> FindToken(tokens, symbol).value in tokens && FindToken(tokens, symbol).value.symbol == symbol
  {
    if tokens != [] && tokens[0].symbol != symbol { FindTokenMatches(tokens[1..], symbol); }
  }

  /** The price feeds accept only positive prices. */
  predicate PositivePrices(m: Market) { m.fil > 0.0 && m.stablePrice > 0.0 }

  // ---- Rounding ----

  lemma DivisionBounds(usd: real, price: real, scale: real, want: int)
    requires usd >= 0.0 && price > 0.0 && scale > 0.0 && want == (usd / price * scale).Floor
    ensures want as real / scale * price <= usd < (want + 1) as real / scale * price
  {
    var q := usd / price;
    var w, w1 := want as real, (want + 1) as real;
    assert w <= q * scale < w1;
    assert w / scale <= q by { assert w / scale * scale == w; }
    assert q < w1 / scale by { assert w1 / scale * scale == w1; }
    assert q * price == usd;
  }

  /** The truncated amount is worth at most the USD asked for, by less than one unit. */
  lemma TruncationBounds(m: Market, t: Token, usd: real)
    requires PositivePrices(m) && usd > 0.0
    ensures var want := ToWei(usd / PriceOf(m, t.symbol), t.decimals);
            want >= 0 && Worth(m, t, want) <= usd < Worth(m, t, want + 1)
  {
    var price, scale := PriceOf(m, t.symbol), Pow10(t.decimals) as real;
    assert usd / price * scale >= 0.0;
    DivisionBounds(usd, price, scale, ToWei(usd / price, t.decimals));
  }

  lemma Scaled(a: int, b: int, scale: real)
    requires a <= b && scale > 0.0
    ensures a as real / scale <= b as real / scale
    ensures a < b ==> a as real / scale < b as real / scale
    ensures (b - a) as real / scale == b as real / scale - a as real / scale
  {
    var x, y := a as real / scale, b as real / scale;
    assert x * scale == a as real && y * scale == b as real;
    if x > y { Priced(y, x, scale); }
  }

  lemma Priced(x: real, y: real, price: real)
    requires x <= y && price > 0.0
    ensures x * price <= y * price
    ensures x < y ==> x * price < y * price
    ensures (y - x) * price == y * price - x * price
  {
    assert (y - x) * price >= 0.0;
    if x < y { assert (y - x) * price > 0.0; }
  }

  lemma WorthMonotone(m: Market, t: Token, a: int, b: int)
    requires PositivePrices(m) && a <= b
    ensures Worth(m, t, a) <= Worth(m, t, b)
    ensures a < b ==> Worth(m, t, a) < Worth(m, t, b)
    ensures a == 0 ==> Worth(m, t, a) == 0.0
    ensures Worth(m, t, b - a) == Worth(m, t, b) - Worth(m, t, a)
  {
    var scale, price := Pow10(t.decimals) as real, PriceOf(m, t.symbol);
    Scaled(a, b, scale);
    Priced(a as real / scale, b as real / scale, price);
  }

  // ---- What a finished deduction guarantees ----

  function AmountAt(address: string): Slice -> real {
    (s: Slice) => if s.token.address == address then s.amount as real else 0.0
  }

  function SliceUSD(): Slice -> real { (s: Slice) => s.usd }

  /** Every slice moves a positive amount, charged at its exact value plus less than one unit. */
  ghost predicate SliceExactToOneUnit(m: Market, s: Slice) {
    s.amount > 0 && Worth(m, s.token, s.amount) <= s.usd < Worth(m, s.token, s.amount + 1)
  }

  /** USD collected without a slice: an amount below one smallest unit. */
  function Dust(total: real, till: Till): real { total - till.remaining - Sum(SliceUSD(), till.slices) }

  ghost predicate Accounted(m: Market, total: real, start: Balances, till: Till) {
    && 0.0 <= till.remaining <= total
    && 0.0 <= Dust(total, till)
    && (till.remaining > 0.0 ==> Dust(total, till) == 0.0)
    && (forall s | s in till.slices :: SliceExactToOneUnit(m, s) && s.token.address in start)
    && till.working.Keys == start.Keys
    && (forall a | a in start :: till.working[a] as real + Sum(AmountAt(a), till.slices) == start[a] as real)
    && (forall a | a in start :: till.working[a] <= start[a] && (start[a] >= 0 ==> till.working[a] >= 0))
  }

  lemma SliceAdded(m: Market, total: real, start: Balances, till: Till, s: Slice)
    requires Accounted(m, total, start, till) && s.token.address in start
    requires SliceExactToOneUnit(m, s) && s.amount <= till.working[s.token.address]
    ensures forall a | a in start ::
      till.working[s.token.address := till.working[s.token.address] - s.amount][a] as real + Sum(AmountAt(a), till.slices + [s]) == start[a] as real
    ensures Sum(SliceUSD(), till.slices + [s]) == Sum(SliceUSD(), till.slices) + s.usd
  {
    forall a | a in start
      ensures till.working[s.token.address := till.working[s.token.address] - s.amount][a] as real + Sum(AmountAt(a), till.slices + [s]) == start[a] as real
    {
      SumAppend(AmountAt(a), till.slices, s);
    }
    SumAppend(SliceUSD(), till.slices, s);
  }

  lemma TakeAllAccounted(m: Market, total: real, start: Balances, till: Till, t: Token)
    requires PositivePrices(m) && Accounted(m, total, start, till)
    requires till.remaining > 0.0 && t.address in till.working && till.working[t.address] > 0
    requires Worth(m, t, till.working[t.address]) < till.remaining
    ensures var balance := till.working[t.address];
            Accounted(m, total, start, Till(till.slices + [Slice(t, balance, Worth(m, t, balance))],
                                            till.remaining - Worth(m, t, balance), till.working[t.address := 0]))
  {
    var balance := till.working[t.address];
    var used := Worth(m, t, balance);
    WorthMonotone(m, t, 0, balance);
    WorthMonotone(m, t, balance, balance + 1);
    SliceAdded(m, total, start, till, Slice(t, balance, used));
  }

  lemma TakeRestAccounted(m: Market, total: real, start: Balances, till: Till, t: Token, want: int)
    requires PositivePrices(m) && Accounted(m, total, start, till)
    requires till.remaining > 0.0 && t.address in till.working && 0 < want <= till.working[t.address]
    requires Worth(m, t, want) <= till.remaining < Worth(m, t, want + 1)
    ensures Accounted(m, total, start, Till(till.slices + [Slice(t, want, till.remaining)], 0.0,
                                            till.working[t.address := till.working[t.address] - want]))
    ensures Dust(total, Till(till.slices + [Slice(t, want, till.remaining)], 0.0,
                             till.working[t.address := till.working[t.address] - want])) == 0.0
  {
    SliceAdded(m, total, start, till, Slice(t, want, till.remaining));
  }

  lemma DeductTokenAccounted(m: Market, total: real, start: Balances, till: Till, t: Token)
    requires PositivePrices(m) && Accounted(m, total, start, till)
    requires till.remaining > 0.0 && t.address in till.working && till.working[t.address] > 0
    ensures Accounted(m, total, start, DeductToken(m, till, t))
    ensures Dust(total, DeductToken(m, till, t)) < Worth(m, t, 1)
  {
    var balance := till.working[t.address];
    var want := ToWei(till.remaining / PriceOf(m, t.symbol), t.decimals);
    TruncationBounds(m, t, till.remaining);
    WorthMonotone(m, t, 0, 1);
    if want > balance {
      WorthMonotone(m, t, balance, want);
      TakeAllAccounted(m, total, start, till, t);
    } else if want > 0 {
      TakeRestAccounted(m, total, start, till, t, want);
    }
  }

  /** No over-allocation and the rounding bound, over the whole priority list. */
  lemma {:induction false} DeductAccounted(cfg: Config, m: Market, priority: seq<string>, total: real, working: Balances)
    requires PositivePrices(m) && total >= 0.0
    ensures Accounted(m, total, working, Deduct(cfg, m, priority, total, working))
    ensures var dust := Dust(total, Deduct(cfg, m, priority, total, working));
            dust > 0.0 ==> exists t | t in cfg.tokens :: dust < Worth(m, t, 1)
  {
    if priority != [] {
      var n := |priority| - 1;
      var before := Deduct(cfg, m, priority[..n], total, working);
      DeductAccounted(cfg, m, priority[..n], total, working);
      FindTokenMatches(cfg.tokens, priority[n]);
      var after := DeductSymbol(cfg, m, before, priority[n]);
      if after != before {
        DeductTokenAccounted(m, total, working, before, FindToken(cfg.tokens, priority[n]).value);
      }
    }
  }
}
