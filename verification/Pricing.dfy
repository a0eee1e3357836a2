/** What a request costs, token by token, and that this is what a wallet is charged; which
    payee is paid; and in which order a wallet's tokens are spent. */
module Pricing {
  import opened Orders
  import opened Sums
  import opened Billing
  import opened Allocator
  import opened Aggregator
  import opened AggregatorLaws

  // ---- Rates ----

  predicate HasRate(m: map<string, real>, model: string) { model in m || "default" in m }

  /** A model's own rate comes before the default one; without either there is none. */
  predicate RateIs(m: map<string, real>, model: string, x: real) {
    if model in m then x == m[model] else if "default" in m then x == m["default"] else x == 0.0
  }

  /** Cached prompt tokens have a rate of their own or the input rate. */
  predicate CacheRateIs(p: Prices, model: string, x: real) {
    if HasRate(p.cacheRead, model) then RateIs(p.cacheRead, model, x) else RateIs(p.input, model, x)
  }

  lemma OneMore(rate: real, n: int)
    ensures rate * (n + 1) as real == rate * n as real + rate
  {
  }

  lemma NoTokensAreFree(p: Prices, r: Record)
    requires r.prompt == 0 && r.completion == 0 && r.total == 0
    ensures Cost(p, r) == 0.0
  {
  }

  /** With an input rate one more completion token costs the output rate. */
  lemma CompletionTokenCosts(p: Prices, r: Record, out: real)
    requires HasRate(p.input, r.model) && RateIs(p.out, r.model, out)
    ensures Cost(p, r.(completion := r.completion + 1)) == Cost(p, r) + out
  {
    OneMore(out, r.completion);
  }

  /** One more prompt token that is not cached costs the input rate. */
  lemma PromptTokenCosts(p: Prices, r: Record, inp: real)
    requires HasRate(p.input, r.model) && RateIs(p.input, r.model, inp) && r.prompt >= 0 && r.cached <= r.prompt
    ensures Cost(p, r.(prompt := r.prompt + 1)) == Cost(p, r) + inp
  {
    OneMore(inp, r.prompt - CachedPart(r.prompt, r.cached));
  }

  /** One more prompt token that is cached costs the cache rate. */
  lemma CachedTokenCosts(p: Prices, r: Record, cr: real)
    requires HasRate(p.input, r.model) && CacheRateIs(p, r.model, cr) && 0 <= r.cached <= r.prompt
    ensures Cost(p, r.(prompt := r.prompt + 1, cached := r.cached + 1)) == Cost(p, r) + cr
  {
    OneMore(cr, r.cached);
  }

  /** A cached count outside the prompt is read as the nearest one inside; the total is not
      looked at. */
  lemma CachedIsClamped(p: Prices, r: Record, total: int)
    requires HasRate(p.input, r.model) && r.prompt >= 0
    ensures r.cached < 0 ==> Cost(p, r) == Cost(p, r.(cached := 0))
    ensures r.cached > r.prompt ==> Cost(p, r) == Cost(p, r.(cached := r.prompt))
    ensures Cost(p, r.(total := total)) == Cost(p, r)
  {
  }

  /** Without an input rate one more token costs the output rate and the split does not matter. */
  lemma FlatTokenCosts(p: Prices, r: Record, out: real, prompt: int, completion: int, cached: int)
    requires !HasRate(p.input, r.model) && RateIs(p.out, r.model, out)
    ensures Cost(p, r.(total := r.total + 1)) == Cost(p, r) + out
    ensures Cost(p, r.(prompt := prompt, completion := completion, cached := cached)) == Cost(p, r)
  {
    OneMore(out, r.total);
  }

  /** An estimate is flat at the output rate. */
  lemma EstimatedTokenCosts(p: Prices, model: string, tokens: int, out: real)
    requires RateIs(p.out, model, out)
    ensures EstimateCost(p, model, 0) == 0.0 && EstimateCost(p, model, tokens + 1) == EstimateCost(p, model, tokens) + out
  {
    OneMore(out, tokens);
  }

  // ---- What a wallet is charged ----

  /** Everything a cycle books on a wallet: what it settles and what it leaves as debt. */
  ghost function BookedOn(settled: map<string, real>, debts: seq<Debt>, w: string): real {
    SettledOf(settled, w) + Sum(DebtBy(w), debts)
  }

  ghost function ChargedTo(cfg: Config, env: Env, records: seq<Record>, carried: seq<Debt>, w: string): real {
    var agg := Aggregate(cfg, env, records, carried);
    BookedOn(agg.settled, agg.debts, w)
  }

  lemma {:induction false} ResolvedReplaced(cfg: Config, env: Env, records: seq<Record>, i: nat, r: Record, w: string)
    requires i < |records| && Resolvable(env, records[i]) && r.worker == records[i].worker && r.wallet == records[i].wallet
    ensures Sum(CostBy(cfg, w), Resolved(env, records[i := r])) == Sum(CostBy(cfg, w), Resolved(env, records))
      + if w == r.wallet then Cost(cfg.prices, r) - Cost(cfg.prices, records[i]) else 0.0
    decreases |records|
  {
    var n := |records| - 1;
    var after := records[i := r];
    if i == n {
      assert after[..n] == records[..n];
      SumAppend(CostBy(cfg, w), Resolved(env, records[..n]), r);
      SumAppend(CostBy(cfg, w), Resolved(env, records[..n]), records[n]);
    } else {
      assert after[..n] == records[..n][i := r] && after[n] == records[n];
      ResolvedReplaced(cfg, env, records[..n], i, r, w);
      SumConcat(CostBy(cfg, w), Resolved(env, after[..n]), if Resolvable(env, records[n]) then [records[n]] else []);
      SumConcat(CostBy(cfg, w), Resolved(env, records[..n]), if Resolvable(env, records[n]) then [records[n]] else []);
    }
  }

  /** Changing one payable record of a cycle changes what its wallet is booked for by the
      change of its cost, and nobody else's. */
  lemma {:induction false} ChargeFollowsCost(cfg: Config, env: Env, records: seq<Record>, carried: seq<Debt>, i: nat, r: Record, w: string)
    requires PositivePrices(env.market) && Chargeable(cfg, records) && i < |records| && Resolvable(env, records[i])
    requires r.worker == records[i].worker && r.wallet == records[i].wallet && Metered(r)
    ensures ChargedTo(cfg, env, records[i := r], carried, w) == ChargedTo(cfg, env, records, carried, w)
      + if w == r.wallet then Cost(cfg.prices, r) - Cost(cfg.prices, records[i]) else 0.0
  {
    AggregationConserves(cfg, env, records, carried, w);
    AggregationConserves(cfg, env, records[i := r], carried, w);
    ResolvedReplaced(cfg, env, records, i, r, w);
  }

  lemma {:induction false} OneResolved(cfg: Config, env: Env, r: Record, w: string)
    ensures Sum(CostBy(cfg, w), Resolved(env, [r])) == if Resolvable(env, r) && w == r.wallet then Cost(cfg.prices, r) else 0.0
  {
    assert [r][..0] == [];
    if Resolvable(env, r) { SumAppend(CostBy(cfg, w), [], r); }
  }

  /** A single record is booked on its wallet at its cost, or not at all without a payee. */
  lemma {:induction false} ChargedOnce(cfg: Config, env: Env, r: Record, w: string)
    requires PositivePrices(env.market) && Chargeable(cfg, [r])
    ensures ChargedTo(cfg, env, [r], [], w) == if Resolvable(env, r) && w == r.wallet then Cost(cfg.prices, r) else 0.0
  {
    AggregationConserves(cfg, env, [r], [], w);
    OneResolved(cfg, env, r, w);
  }

  /** The aggregation itself, run on a payable record and on the same with one token more of
      each kind: the difference is the rate of that token. */
  method TokenPrices(cfg: Config, env: Env, r: Record, out: real, inp: real, cr: real)
    returns (base: (map<string, real>, seq<Debt>), completion: (map<string, real>, seq<Debt>), prompt: (map<string, real>, seq<Debt>),
             cached: (map<string, real>, seq<Debt>))
    requires PositivePrices(env.market) && PricesNonNegative(cfg.prices) && Metered(r) && 0 <= r.cached <= r.prompt && Resolvable(env, r)
    requires HasRate(cfg.prices.input, r.model) && RateIs(cfg.prices.out, r.model, out)
    requires RateIs(cfg.prices.input, r.model, inp) && CacheRateIs(cfg.prices, r.model, cr)
    ensures BookedOn(completion.0, completion.1, r.wallet) == BookedOn(base.0, base.1, r.wallet) + out
    ensures BookedOn(prompt.0, prompt.1, r.wallet) == BookedOn(base.0, base.1, r.wallet) + inp
    ensures BookedOn(cached.0, cached.1, r.wallet) == BookedOn(base.0, base.1, r.wallet) + cr
  {
    base := Booked(cfg, env, r);
    completion := BookedInstead(cfg, env, r, r.(completion := r.completion + 1));
    CompletionTokenCosts(cfg.prices, r, out);
    prompt := BookedInstead(cfg, env, r, r.(prompt := r.prompt + 1));
    PromptTokenCosts(cfg.prices, r, inp);
    cached := BookedInstead(cfg, env, r, r.(prompt := r.prompt + 1, cached := r.cached + 1));
    CachedTokenCosts(cfg.prices, r, cr);
  }

  method Booked(cfg: Config, env: Env, r: Record) returns (books: (map<string, real>, seq<Debt>))
    requires PositiveFeeds(env.market)
    ensures forall w :: BookedOn(books.0, books.1, w) == ChargedTo(cfg, env, [r], [], w)
  {
    var items, unresolved, settled, debts := AggregateWithDebts(cfg, env, [r], []);
    var agg := Aggregation(items, unresolved, settled, debts);
    books := (agg.settled, agg.debts);
  }

  method BookedInstead(cfg: Config, env: Env, ghost r: Record, other: Record) returns (books: (map<string, real>, seq<Debt>))
    requires PositivePrices(env.market) && Chargeable(cfg, [r]) && Resolvable(env, r) && Metered(other)
    requires other.worker == r.worker && other.wallet == r.wallet
    ensures BookedOn(books.0, books.1, r.wallet) ==
      ChargedTo(cfg, env, [r], [], r.wallet) + Cost(cfg.prices, other) - Cost(cfg.prices, r)
  {
    books := Booked(cfg, env, other);
    assert [r][0 := other] == [other];
    ChargeFollowsCost(cfg, env, [r], [], 0, other, r.wallet);
  }

  const CATALOG := Prices(map["m" := 15.0], map["m" := 1.0], map[])

  /** A hundred prompt tokens at one dollar and ten completion tokens at fifteen. */
  lemma CatalogExample(r: Record)
    requires r.model == "m" && r.prompt == 100 && r.completion == 10 && r.cached == 0
    ensures Cost(CATALOG, r) == 250.0
  {
    assert LookupPrice(CATALOG.out, "m") == Some(15.0) && LookupPrice(CATALOG.input, "m") == Some(1.0);
  }
}
