/** Request records, the one billing formula, and worker-to-payee resolution. */
module Billing {
  import opened Orders

  datatype Record = Record(
    id: string, wallet: string, worker: string, model: string, status: int, errorReason: string,
    prompt: int, completion: int, cached: int, total: int, sig: Option<string>)

  /** What settlement bills: a 200 with tokens, a wallet and no error reason. */
  predicate Billable(r: Record) {
    r.status == 200 && r.total > 0 && r.wallet != "" && r.errorReason == ""
  }

  /** Which finished requests keep their usage: a streamed reply whatever its status, any other
      reply only with a 200, and nothing that failed on the server's side. */
  predicate KeepsUsage(streamed: bool, r: Record) { r.errorReason == "" && (streamed || r.status == 200) }

  /** What a reservation becomes when its request ends; usage without tokens costs nothing. */
  function Charged(p: Prices, streamed: bool, r: Record): real {
    if KeepsUsage(streamed, r) && r.total > 0 then Cost(p, r) else 0.0
  }

  /** A streamed reply that keeps its usage although settlement never bills it. */
  predicate Strands(streamed: bool, r: Record) { streamed && r.status != 200 && r.errorReason == "" && r.total > 0 }

  /** Per-token USD prices: output (base), catalog input, catalog cache-read. */
  datatype Prices = Prices(out: map<string, real>, input: map<string, real>, cacheRead: map<string, real>)

  function LookupPrice(m: map<string, real>, model: string): Option<real> {
    if model in m then Some(m[model])
    else if "default" in m then Some(m["default"])
    else None
  }

  function CachedPart(prompt: int, cached: int): int {
    var c := if cached < 0 then 0 else cached;
    if c > prompt then prompt else c
  }

  /** The billing formula shared by reservation, settlement, restore and reconciliation. */
  function Cost(p: Prices, r: Record): real {
    var out := match LookupPrice(p.out, r.model) case Some(x) => x case None => 0.0;
    match LookupPrice(p.input, r.model)
    case None => out * r.total as real
    case Some(inp) =>
      var cr := match LookupPrice(p.cacheRead, r.model) case Some(x) => x case None => inp;
      var cached := CachedPart(r.prompt, r.cached);
      inp * (r.prompt - cached) as real + cr * cached as real + out * r.completion as real
  }

  function EstimateCost(p: Prices, model: string, tokens: int): real {
    match LookupPrice(p.out, model)
    case Some(x) => x * tokens as real
    case None => 0.0
  }

  ghost predicate PricesNonNegative(p: Prices) {
    && (forall k | k in p.out :: p.out[k] >= 0.0)
    && (forall k | k in p.input :: p.input[k] >= 0.0)
    && (forall k | k in p.cacheRead :: p.cacheRead[k] >= 0.0)
  }

  /** Token counts as a worker reports them honestly. */
  predicate Metered(r: Record) { r.prompt >= 0 && r.completion >= 0 && r.total >= 0 }

  lemma ScaleNonNegative(a: real, n: int)
    requires a >= 0.0 && n >= 0
    ensures a * n as real >= 0.0
  {
  }

  lemma ScaleMonotone(a: real, b: real, m: int, n: int)
    requires 0.0 <= a <= b && 0 <= m <= n
    ensures a * m as real <= b * n as real
  {
    assert a * m as real <= b * m as real <= b * n as real;
  }

  lemma CostNonNegative(p: Prices, r: Record)
    requires PricesNonNegative(p) && Metered(r)
    ensures Cost(p, r) >= 0.0
  {
    var cached := CachedPart(r.prompt, r.cached);
    match LookupPrice(p.out, r.model) {
      case Some(out) => ScaleNonNegative(out, r.total); ScaleNonNegative(out, r.completion);
      case None =>
    }
    match LookupPrice(p.input, r.model) {
      case Some(inp) =>
        ScaleNonNegative(inp, r.prompt - cached);
        ScaleNonNegative(match LookupPrice(p.cacheRead, r.model) case Some(x) => x case None => inp, cached);
      case None =>
    }
  }

  lemma SplitAtMostFlat(inp: real, cr: real, out: real, a: int, b: int, c: int, n: int)
    requires 0.0 <= inp <= out && 0.0 <= cr <= out && 0 <= a && 0 <= b && 0 <= c && a + b + c <= n
    ensures inp * a as real + cr * b as real + out * c as real <= out * n as real
  {
    var x, y, z := a as real, b as real, c as real;
    assert inp * x <= out * x;
    assert cr * y <= out * y;
    assert out * x + out * y + out * z == out * (x + y + z);
    assert out * (x + y + z) <= out * n as real;
  }

  /** When no catalog rate of the model exceeds its output rate, a reservation for at least
      the tokens finally used covers the final cost. */
  lemma EstimateCovers(p: Prices, r: Record, tokens: int)
    requires PricesNonNegative(p) && Metered(r) && LookupPrice(p.out, r.model).Some?
    requires LookupPrice(p.input, r.model).Some? ==> LookupPrice(p.input, r.model).value <= LookupPrice(p.out, r.model).value
    requires LookupPrice(p.cacheRead, r.model).Some? ==> LookupPrice(p.cacheRead, r.model).value <= LookupPrice(p.out, r.model).value
    requires r.prompt + r.completion <= tokens && r.total <= tokens
    ensures Cost(p, r) <= EstimateCost(p, r.model, tokens)
  {
    var out := LookupPrice(p.out, r.model).value;
    if LookupPrice(p.input, r.model).Some? {
      var inp := LookupPrice(p.input, r.model).value;
      var cr := match LookupPrice(p.cacheRead, r.model) case Some(x) => x case None => inp;
      var cached := CachedPart(r.prompt, r.cached);
      SplitAtMostFlat(inp, cr, out, r.prompt - cached, cached, r.completion, tokens);
    } else {
      ScaleMonotone(out, out, r.total, tokens);
    }
  }

  /** worker id -> miner -> payout address; the miner-signed address outranks the static map. */
  datatype Resolver = Resolver(workerMiner: map<string, string>, signedPayout: map<string, string>, staticPayout: map<string, string>)

  /** The empty string stands for "unresolvable". */
  function ResolveWorker(rs: Resolver, worker: string): string {
    if worker !in rs.workerMiner then ""
    else
      var miner := rs.workerMiner[worker];
      if miner in rs.signedPayout && rs.signedPayout[miner] != "" then rs.signedPayout[miner]
      else if miner in rs.staticPayout then rs.staticPayout[miner]
      else ""
  }
}
