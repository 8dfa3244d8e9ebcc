/**
  The deterministic part of the market-data client (src/services/api/brapiService.ts).

  The HTTP round trip is an input: a `Transport` value says what the request to
  the quote endpoint produced (a response whose `results` may be missing, an
  HTTP-library error, or some other error). Both fetch operations look in the
  shared cache first, answer a live entry without consulting the provider, and
  otherwise map the provider's quotes to `StockData`, store them and return them;
  every failure becomes an `ApiError` and writes nothing to the cache. The
  clock is read twice, as in the source: once for the lookup (`now`) and once,
  after the response arrived, for the store (`arrival`).
*/
module Brapi {
  import opened Wrappers
  import Cache

  /** One quote of the provider's `results`; ratios the provider may omit are optional. */
  datatype Quote = Quote(
    symbol: string,
    name: string,
    price: real,
    priceClose: real,
    pl: Option<real>,
    pbv: Option<real>,
    dy: Option<real>,
    roe: Option<real>,
    roic: Option<real>,
    netMargin: Option<real>
  )

  /** The client's normalised view of a stock. */
  datatype StockData = StockData(
    symbol: string,
    name: string,
    currentPrice: real,
    previousPrice: real,
    lpa: real,
    growthRate: real,
    pl: real,
    pbv: real,
    dy: real,
    roe: real,
    roic: real,
    netMargin: real,
    liquidezCorrente: real,
    dividaBrutaPl: real
  )

  /** What a fetch can throw: an error of the HTTP library, or anything else. */
  datatype Failure =
    | HttpFailure(status: Option<int>, serverMessage: Option<string>, code: Option<string>, message: string)
    | OtherFailure

  /** The outcome of the request to the quote endpoint. */
  datatype Transport = Delivered(results: Option<seq<Quote>>) | Failed(failure: Failure)

  /** The classified error callers receive (its timestamp is not modelled). */
  datatype ApiError = ApiError(message: string, code: string)

  /** What the client keeps in the shared cache: one stock, or the list of a multi-symbol fetch. */
  datatype Cached = One(stock: StockData) | Many(stocks: seq<StockData>)

  /** Lifetime of the client's cache entries when the configuration names none. */
  const DefaultCacheDuration: int := 300000

  const UnauthorizedMessage: string := "Token de autenticação inválido ou ausente. Configure VITE_BRAPI_KEY no arquivo .env"
  const NotFoundMessage: string := "Ação não encontrada. Verifique o símbolo digitado"
  const RateLimitedMessage: string := "Limite de requisições excedido. Aguarde alguns minutos"
  const UnknownMessage: string := "Erro desconhecido ao buscar dados"
  const UnknownCode: string := "UNKNOWN_ERROR"

  // ---------------------------------------------------------------------------
  // Estimators and the mapping of a quote
  // ---------------------------------------------------------------------------

  /** Earnings per share implied by the price and the P/L ratio; 0 when the ratio is missing or not positive. */
  function EstimateLpa(price: real, pl: Option<real>): (lpa: real)
    ensures pl.None? || pl.value <= 0.0 ==> lpa == 0.0
    ensures pl.Some? && pl.value > 0.0 ==> lpa * pl.value == price
    ensures pl.Some? && pl.value > 0.0 ==> (lpa > 0.0 <==> price > 0.0)
  {
    if pl.None? || pl.value == 0.0 || pl.value <= 0.0 then 0.0
    else
      var r := price / pl.value;
      assert r * pl.value == price;
      r
  }

  /** Expected growth as half the ROE, capped at 25; 0 when the ROE is missing or not positive. */
  function EstimateGrowthRate(roe: Option<real>): (g: real)
    ensures 0.0 <= g <= 25.0
    ensures roe.None? || roe.value <= 0.0 ==> g == 0.0
    ensures roe.Some? && roe.value > 0.0 ==> g <= roe.value * 0.5 && (g == roe.value * 0.5 || g == 25.0)
  {
    if roe.None? || roe.value == 0.0 || roe.value <= 0.0 then 0.0
    else if roe.value * 0.5 <= 25.0 then roe.value * 0.5
    else 25.0
  }

  /** `x || 0`: a missing (or zero) ratio reads as 0. */
  function OrZero(x: Option<real>): (r: real)
    ensures x.None? ==> r == 0.0
    ensures x.Some? ==> r == x.value
  {
    if x.None? || x.value == 0.0 then 0.0 else x.value
  }

  /** A provider quote as the client's `StockData`. */
  function ToStockData(q: Quote): (d: StockData)
    ensures d.symbol == q.symbol && d.name == q.name
    ensures d.currentPrice == q.price && d.previousPrice == q.priceClose
    ensures d.pl == OrZero(q.pl) && d.pbv == OrZero(q.pbv) && d.dy == OrZero(q.dy)
    ensures d.roe == OrZero(q.roe) && d.roic == OrZero(q.roic) && d.netMargin == OrZero(q.netMargin)
    ensures d.liquidezCorrente == 1.5 && d.dividaBrutaPl == 0.5
    // The estimates agree with the ratios that are reported beside them.
    ensures d.pl > 0.0 ==> d.lpa * d.pl == d.currentPrice
    ensures d.pl <= 0.0 ==> d.lpa == 0.0
    ensures 0.0 <= d.growthRate <= 25.0 && (d.roe <= 0.0 ==> d.growthRate == 0.0)
    ensures d.lpa == EstimateLpa(q.price, q.pl) && d.growthRate == EstimateGrowthRate(q.roe)
  {
    StockData(
      q.symbol,
      q.name,
      q.price,
      q.priceClose,
      EstimateLpa(q.price, q.pl),
      EstimateGrowthRate(q.roe),
      OrZero(q.pl),
      OrZero(q.pbv),
      OrZero(q.dy),
      OrZero(q.roe),
      OrZero(q.roic),
      OrZero(q.netMargin),
      1.5,
      0.5)
  }

  // ---------------------------------------------------------------------------
  // Error classification
  // ---------------------------------------------------------------------------

  /** A string value that JavaScript treats as true: present and not empty. */
  predicate Truthy(s: Option<string>)
  {
    s.Some? && s.value != ""
  }

  /** Turns whatever a fetch threw into an `ApiError`. */
  function HandleError(f: Failure): (e: ApiError)
    ensures f.OtherFailure? ==> e == ApiError(UnknownMessage, UnknownCode)
    ensures e.code != ""
    ensures f.HttpFailure? && Truthy(f.code) ==> e.code == f.code.value
    ensures f.HttpFailure? && !Truthy(f.code) ==> e.code == UnknownCode
    ensures f.HttpFailure? && f.status == Some(401) ==> e.message == UnauthorizedMessage
    ensures f.HttpFailure? && f.status == Some(404) ==> e.message == NotFoundMessage
    ensures f.HttpFailure? && f.status == Some(429) ==> e.message == RateLimitedMessage
    ensures f.HttpFailure? && f.status != Some(401) && f.status != Some(404) && f.status != Some(429) ==>
      e.message == (if Truthy(f.serverMessage) then f.serverMessage.value else f.message)
  {
    match f
    case HttpFailure(status, serverMessage, code, ownMessage) =>
      var message := if Truthy(serverMessage) then serverMessage.value else ownMessage;
      var code := if Truthy(code) then code.value else UnknownCode;
      if status == Some(401) then ApiError(UnauthorizedMessage, code)
      else if status == Some(404) then ApiError(NotFoundMessage, code)
      else if status == Some(429) then ApiError(RateLimitedMessage, code)
      else ApiError(message, code)
    case OtherFailure =>
      ApiError(UnknownMessage, UnknownCode)
  }

  /** An unauthorised response never surfaces the server's own text: it asks for the credential to be configured. */
  lemma UnauthorizedIsClassified(serverMessage: Option<string>, code: Option<string>, message: string)
    ensures HandleError(HttpFailure(Some(401), serverMessage, code, message)).message == UnauthorizedMessage
    ensures HandleError(HttpFailure(Some(401), serverMessage, code, message)).message != message || message == UnauthorizedMessage
  {
  }

  // ---------------------------------------------------------------------------
  // Cache keys
  // ---------------------------------------------------------------------------

  /** Keys of single-symbol entries start with "stock_". */
  predicate IsSingleKey(k: string)
  {
    |k| >= 6 && k[..6] == "stock_"
  }

  /** Keys of multi-symbol entries start with "stocks_". */
  predicate IsMultiKey(k: string)
  {
    |k| >= 7 && k[..7] == "stocks_"
  }

  /** The cache key of a single-symbol fetch. */
  function SingleKey(symbol: string): (k: string)
    ensures IsSingleKey(k) && k[6..] == symbol
  {
    "stock_" + symbol
  }

  /** The parts separated by `sep`, as `Array.prototype.join` writes them. */
  function Join(parts: seq<string>, sep: string): (s: string)
    ensures parts == [] ==> s == ""
    ensures |parts| == 1 ==> s == parts[0]
    ensures |parts| > 1 ==> |s| >= |parts[0]| + |sep| && s[..|parts[0]|] == parts[0]
    ensures |parts| > 1 ==> s[|parts[0]|..|parts[0]| + |sep|] == sep
  {
    if parts == [] then ""
    else if |parts| == 1 then parts[0]
    else parts[0] + sep + Join(parts[1..], sep)
  }

  /** The cache key of a multi-symbol fetch: the symbols joined by commas, in the order given. */
  function MultiKey(symbols: seq<string>): (k: string)
    ensures IsMultiKey(k) && k[7..] == Join(symbols, ",")
  {
    "stocks_" + Join(symbols, ",")
  }

  /** No key is both a single-symbol and a multi-symbol key, so the two fetches never read each other's entries. */
  lemma KeyKindsDisjoint(k: string)
    ensures !(IsSingleKey(k) && IsMultiKey(k))
  {
    if IsSingleKey(k) && |k| >= 7 {
      assert k[..7][5] == k[5] == k[..6][5];
    }
  }

  /** Distinct symbols have distinct single-symbol keys. */
  lemma SingleKeyInjective(a: string, b: string)
    requires SingleKey(a) == SingleKey(b)
    ensures a == b
  {
    assert a == SingleKey(a)[6..];
  }

  /** A ticker symbol as the provider writes it contains no comma. */
  predicate NoComma(symbol: string)
  {
    forall i :: 0 <= i < |symbol| ==> symbol[i] != ','
  }

  /** Every symbol of the list is free of commas. */
  predicate CommaFree(symbols: seq<string>)
  {
    forall i :: 0 <= i < |symbols| ==> NoComma(symbols[i])
  }

  /** A join of comma-free symbols contains a comma exactly when there are several symbols. */
  lemma JoinHasCommaIffSeveral(parts: seq<string>)
    requires parts != [] && CommaFree(parts)
    ensures NoComma(Join(parts, ",")) <==> |parts| == 1
  {
    if |parts| > 1 {
      assert Join(parts, ",")[|parts[0]|] == ',';
    }
  }

  /** Joining a non-empty list of comma-free symbols with commas loses nothing: the list can be read back. */
  lemma {:induction false} JoinInjective(a: seq<string>, b: seq<string>)
    requires a != [] && b != [] && CommaFree(a) && CommaFree(b)
    requires Join(a, ",") == Join(b, ",")
    ensures a == b
  {
    JoinHasCommaIffSeveral(a);
    JoinHasCommaIffSeveral(b);
    if |a| > 1 {
      var s, n := Join(a, ","), |a[0]|;
      FirstPartNotShorter(a, b);
      FirstPartNotShorter(b, a);
      assert a[0] == s[..n] == b[0];
      assert Join(a[1..], ",") == s[n + 1..] == Join(b[1..], ",");
      JoinInjective(a[1..], b[1..]);
      assert a == [a[0]] + a[1..];
      assert b == [b[0]] + b[1..];
    }
  }

  /** Where two joins of several comma-free symbols agree, the first comma sits at the same place, so the first symbols have the same length. */
  lemma FirstPartNotShorter(a: seq<string>, b: seq<string>)
    requires |a| > 1 && |b| > 1 && CommaFree(a) && CommaFree(b)
    requires Join(a, ",") == Join(b, ",")
    ensures |b[0]| <= |a[0]|
  {
    var s, n := Join(a, ","), |a[0]|;
    assert s[n] == ',';
    assert NoComma(b[0]);
    assert forall i :: 0 <= i < |b[0]| ==> s[i] == b[0][i];
  }

  /** Two non-empty lists of comma-free symbols share a multi-symbol key only if they are the same list, in the same order. */
  lemma MultiKeyInjective(a: seq<string>, b: seq<string>)
    requires a != [] && b != [] && CommaFree(a) && CommaFree(b)
    requires MultiKey(a) == MultiKey(b)
    ensures a == b
  {
    assert Join(a, ",") == MultiKey(a)[7..] == Join(b, ",");
    JoinInjective(a, b);
  }

  /** The multi-symbol key is not sorted: two different comma-free symbols in the other order make another key. */
  lemma MultiKeyKeepsOrder(x: string, y: string)
    requires x != y && NoComma(x) && NoComma(y)
    ensures MultiKey([x, y]) != MultiKey([y, x])
  {
    if MultiKey([x, y]) == MultiKey([y, x]) {
      MultiKeyInjective([x, y], [y, x]);
    }
  }

  // ---------------------------------------------------------------------------
  // What the cache holds for the client
  // ---------------------------------------------------------------------------

  type Entries = map<string, Cache.Entry<Cached>>

  /** The kind of value a key holds: one stock under a single-symbol key, a list under a multi-symbol key. */
  predicate KindFits(k: string, c: Cached)
  {
    (IsSingleKey(k) ==> c.One?) && (IsMultiKey(k) ==> c.Many?)
  }

  /** Every entry holds the kind of value its key promises (the source's unchecked cast, made explicit). */
  predicate WellTyped(m: Entries)
  {
    forall k :: k in m ==> KindFits(k, m[k].data)
  }

  /**
    One fetch against the cache: a live entry under `key` is answered as it is
    and the provider's outcome `answer` is not looked at; otherwise `answer` is the
    answer and, when it is a success, it is stored under `key` at `arrival`.
    An expired entry is evicted by the lookup either way.
  */
  function Fetch(m: Entries, key: string, now: int, arrival: int, answer: Result<Cached, ApiError>, ttl: int): (r: (Result<Cached, ApiError>, Entries))
    ensures forall k :: k != key ==> (k in r.1 <==> k in m)
    ensures forall k :: k != key && k in m ==> r.1[k] == m[k]
  {
    var afterLookup := Cache.AfterGet(m, key, now);
    match Cache.Lookup(m, key, now)
    case Some(c) => (Success(c), afterLookup)
    case None =>
      (answer, if answer.Success? then afterLookup[key := Cache.Entry(answer.value, arrival, ttl)] else afterLookup)
  }

  /** On a hit the provider is not consulted: the outcome is the same whatever it would have answered. */
  lemma FetchHitIgnoresProvider(m: Entries, key: string, now: int, arrival1: int, arrival2: int,
                                answer1: Result<Cached, ApiError>, answer2: Result<Cached, ApiError>, ttl: int)
    requires Cache.Lookup(m, key, now).Some?
    ensures Fetch(m, key, now, arrival1, answer1, ttl) == Fetch(m, key, now, arrival2, answer2, ttl)
    ensures Fetch(m, key, now, arrival1, answer1, ttl) == (Success(Cache.Lookup(m, key, now).value), m)
  {
  }

  /** A failed fetch writes nothing: at most the expired entry under `key` is evicted. */
  lemma FetchFailureWritesNothing(m: Entries, key: string, now: int, arrival: int, answer: Result<Cached, ApiError>, ttl: int)
    requires Fetch(m, key, now, arrival, answer, ttl).0.Failure?
    ensures Fetch(m, key, now, arrival, answer, ttl).1.Keys <= m.Keys
    ensures forall k :: k in Fetch(m, key, now, arrival, answer, ttl).1 ==> Fetch(m, key, now, arrival, answer, ttl).1[k] == m[k]
    ensures Fetch(m, key, now, arrival, answer, ttl).1 == Cache.AfterGet(m, key, now)
  {
  }

  /** A successful miss stores its answer under `key` with the client's lifetime, stamped at `arrival`. */
  lemma FetchMissStores(m: Entries, key: string, now: int, arrival: int, answer: Result<Cached, ApiError>, ttl: int)
    requires Cache.Lookup(m, key, now).None? && answer.Success?
    ensures Fetch(m, key, now, arrival, answer, ttl).0 == answer
    ensures Fetch(m, key, now, arrival, answer, ttl).1 == Cache.AfterGet(m, key, now)[key := Cache.Entry(answer.value, arrival, ttl)]
  {
  }

  /**
    After a successful miss, a second fetch of the same key while the entry is
    live answers the same value and leaves the cache as it is, whatever the
    provider would say: within the lifetime only one request reaches the provider.
  */
  lemma {:induction false} RepeatWithinTtl(m: Entries, key: string, now1: int, arrival1: int, answer1: Result<Cached, ApiError>,
                                           now2: int, arrival2: int, answer2: Result<Cached, ApiError>, ttl: int)
    requires Cache.Lookup(m, key, now1).None? && answer1.Success?
    requires now2 - arrival1 <= ttl
    ensures Fetch(Fetch(m, key, now1, arrival1, answer1, ttl).1, key, now2, arrival2, answer2, ttl) == Fetch(m, key, now1, arrival1, answer1, ttl)
  {
    var m1 := Fetch(m, key, now1, arrival1, answer1, ttl).1;
    FetchMissStores(m, key, now1, arrival1, answer1, ttl);
    assert m1[key] == Cache.Entry(answer1.value, arrival1, ttl);
    assert Cache.Lookup(m1, key, now2) == Some(answer1.value);
    FetchHitIgnoresProvider(m1, key, now2, arrival2, arrival2, answer2, answer2, ttl);
  }

  /** Once the lifetime of the stored answer has passed, the next fetch goes back to the provider. */
  lemma {:induction false} RefetchAfterExpiry(m: Entries, key: string, now1: int, arrival1: int, answer1: Result<Cached, ApiError>,
                                              now3: int, arrival3: int, answer3: Result<Cached, ApiError>, ttl: int)
    requires Cache.Lookup(m, key, now1).None? && answer1.Success?
    requires now3 - arrival1 > ttl
    ensures Fetch(Fetch(m, key, now1, arrival1, answer1, ttl).1, key, now3, arrival3, answer3, ttl).0 == answer3
  {
    var m1 := Fetch(m, key, now1, arrival1, answer1, ttl).1;
    FetchMissStores(m, key, now1, arrival1, answer1, ttl);
    assert m1[key] == Cache.Entry(answer1.value, arrival1, ttl);
    assert Cache.Lookup(m1, key, now3) == None;
  }

  /** A fetch keeps every entry of the right kind, provided what it may store fits its key. */
  lemma FetchKeepsWellTyped(m: Entries, key: string, now: int, arrival: int, answer: Result<Cached, ApiError>, ttl: int)
    requires WellTyped(m)
    requires answer.Success? ==> KindFits(key, answer.value)
    ensures WellTyped(Fetch(m, key, now, arrival, answer, ttl).1)
  {
  }

  // ---------------------------------------------------------------------------
  // What the provider's outcome means for each fetch
  // ---------------------------------------------------------------------------

  /** The answer of a single-symbol request: its first quote, or an error. */
  function FromTransportOne(t: Transport): (r: Result<StockData, ApiError>)
    ensures t.Failed? ==> r == Failure(HandleError(t.failure))
    ensures t.Delivered? && (t.results.None? || t.results.value == []) ==> r == Failure(ApiError(UnknownMessage, UnknownCode))
    ensures t.Delivered? && t.results.Some? && t.results.value != [] ==> r == Success(ToStockData(t.results.value[0]))
  {
    match t
    case Failed(f) => Failure(HandleError(f))
    case Delivered(results) =>
      // the "not found" Error thrown here is not an HTTP-library error
      if results.None? || |results.value| == 0 then Failure(HandleError(OtherFailure))
      else Success(ToStockData(results.value[0]))
  }

  /** The answer of a multi-symbol request: every quote mapped, in order; an empty list is a success. */
  function FromTransportMany(t: Transport): (r: Result<seq<StockData>, ApiError>)
    ensures t.Failed? ==> r == Failure(HandleError(t.failure))
    ensures t.Delivered? && t.results.None? ==> r == Failure(ApiError(UnknownMessage, UnknownCode))
    ensures t.Delivered? && t.results.Some? ==>
      && r.Success?
      && |r.value| == |t.results.value|
      && forall i :: 0 <= i < |r.value| ==> r.value[i] == ToStockData(t.results.value[i])
  {
    match t
    case Failed(f) => Failure(HandleError(f))
    case Delivered(results) =>
      if results.None? then Failure(HandleError(OtherFailure))
      else Success(seq(|results.value|, i requires 0 <= i < |results.value| => ToStockData(results.value[i])))
  }

  /** A single-symbol answer as a cache value. */
  function AsOne(r: Result<StockData, ApiError>): Result<Cached, ApiError>
  {
    match r
    case Success(d) => Success(One(d))
    case Failure(e) => Failure(e)
  }

  /** A multi-symbol answer as a cache value. */
  function AsMany(r: Result<seq<StockData>, ApiError>): Result<Cached, ApiError>
  {
    match r
    case Success(ds) => Success(Many(ds))
    case Failure(e) => Failure(e)
  }

  // ---------------------------------------------------------------------------
  // The client
  // ---------------------------------------------------------------------------

  class BrapiService {
    /** The shared cache, which other code may also use. */
    const cache: Cache.CacheService<Cached>
    /** Lifetime of the entries this client stores, in milliseconds. */
    const cacheDuration: int

    /** The cache holds under each key the kind of value the client reads back from it. */
    ghost predicate Valid()
      reads this, cache
    {
      WellTyped(cache.entries)
    }

    constructor (cache: Cache.CacheService<Cached>, cacheDuration: int := DefaultCacheDuration)
      requires WellTyped(cache.entries)
      ensures this.cache == cache && this.cacheDuration == cacheDuration
      ensures Valid()
    {
      this.cache := cache;
      this.cacheDuration := cacheDuration;
    }

    /** Fetches one symbol: from the cache if live, else from the provider's outcome `transport`. */
    method GetStockData(symbol: string, now: int, arrival: int, transport: Transport) returns (r: Result<StockData, ApiError>)
      requires Valid()
      modifies cache
      ensures Valid()
      ensures (AsOne(r), cache.entries)
           == Fetch(old(cache.entries), SingleKey(symbol), now, arrival, AsOne(FromTransportOne(transport)), cacheDuration)
    {
      var cacheKey := SingleKey(symbol);
      KeyKindsDisjoint(cacheKey);
      FetchKeepsWellTyped(cache.entries, cacheKey, now, arrival, AsOne(FromTransportOne(transport)), cacheDuration);

      var cached := cache.Get(cacheKey, now);
      if cached.Some? {
        return Success(cached.value.stock);
      }

      match transport {
        case Failed(f) =>
          r := Failure(HandleError(f));
        case Delivered(results) =>
          if results.None? || |results.value| == 0 {
            r := Failure(HandleError(OtherFailure));
          } else {
            var stockData := ToStockData(results.value[0]);
            cache.Set(cacheKey, One(stockData), arrival, cacheDuration);
            r := Success(stockData);
          }
      }
    }

    /** Fetches several symbols in one request, cached under the symbols joined in the given order. */
    method GetMultipleStocks(symbols: seq<string>, now: int, arrival: int, transport: Transport) returns (r: Result<seq<StockData>, ApiError>)
      requires Valid()
      modifies cache
      ensures Valid()
      ensures (AsMany(r), cache.entries)
           == Fetch(old(cache.entries), MultiKey(symbols), now, arrival, AsMany(FromTransportMany(transport)), cacheDuration)
    {
      var cacheKey := MultiKey(symbols);
      KeyKindsDisjoint(cacheKey);
      FetchKeepsWellTyped(cache.entries, cacheKey, now, arrival, AsMany(FromTransportMany(transport)), cacheDuration);

      var cached := cache.Get(cacheKey, now);
      if cached.Some? {
        return Success(cached.value.stocks);
      }

      match transport {
        case Failed(f) =>
          r := Failure(HandleError(f));
        case Delivered(results) =>
          if results.None? {
            r := Failure(HandleError(OtherFailure));
          } else {
            var quotes := results.value;
            var stocksData := seq(|quotes|, i requires 0 <= i < |quotes| => ToStockData(quotes[i]));
            cache.Set(cacheKey, Many(stocksData), arrival, cacheDuration);
            r := Success(stocksData);
          }
      }
    }

    /** Empties the shared cache. */
    method ClearCache()
      requires Valid()
      modifies cache
      ensures Valid() && cache.entries == map[]
    {
      cache.Clear();
    }

    /** The number of entries in the shared cache. */
    method GetCacheSize() returns (n: nat)
      ensures n == |cache.entries|
    {
      n := cache.GetSize();
    }
  }
}
