# share-wise-sheets: allocation engine, TTL cache and market-data client in Dafny

This project models the logic of the share-wise-sheets portfolio tool that can be
stated and checked. It has three parts.

- **The TTL cache** (`cache.dfy`, module `Cache`). `CacheService` is a class.
  Its field `entries` is a `map<string, Entry<T>>`, and each entry holds its
  data, the clock reading when it was stored, and its lifetime in milliseconds.
  `Set`, `Get`, `Delete`, `Clear` and `GetSize` update or read that map in place.
  `Get` evicts lazily: an entry whose age is strictly greater than its lifetime
  is deleted when it is read. The wall clock is a `now` parameter.
  The pure functions `Lookup` and `AfterGet` state what a read answers and what
  map it leaves behind. The lemmas about those functions state the cache's
  properties: hit right after a store, strict expiry, eviction of exactly one
  key, size accounting, and that nothing else changes.
- **The valuation and allocation arithmetic** (`allocation.dfy`, module
  `Allocation`). These are pure functions over `real` and `seq<Stock>`:
  variation, inverse weight (previous price over current price), Graham's simple
  intrinsic value, safety margin, and the allocation table. The central facts
  are that the normalised weights sum to exactly 1 and that the amounts invested
  sum to exactly the total investment. The list edits (`AddStock`,
  `RemoveStock`, `UpdateStock`) are functions that return the new list.
- **The market-data client** (`brapi.dfy`, module `Brapi`). The HTTP round trip
  is an input value, `Transport`: either a response whose `results` may be
  missing, or a failure. A failure is either an error of the HTTP library
  (status, server message, code, own message) or any other error.
  `BrapiService` holds the shared cache. Its `GetStockData` and
  `GetMultipleStocks` look the key up, answer a live entry without consulting
  the provider, and otherwise map the quotes, store them and return them.
  Each method's postcondition ties its result and the new cache contents to the
  pure function `Fetch`. The lemmas about `Fetch` state the following: a hit
  ignores the provider, a success is stored under the same key, a failure
  writes nothing, a second fetch within the lifetime is answered from the
  cache, and a fetch after expiry goes back to the provider.

`wrappers.dfy` holds the `Option` and `Result` datatypes used by the other modules.

The model follows the code where a natural reading of the system would differ:

- The multi-symbol cache key joins the symbols in the order given. It is not
  sorted, so `["ITUB4","BBDC4"]` and `["BBDC4","ITUB4"]` are different keys.
- The intrinsic value is guarded only against zero inputs. Negative earnings,
  growth or rate go through the formula.
- There is no equal-weight fallback when the total weight is zero or negative.
  The model requires a non-zero total weight instead, where the code would
  produce NaN or Infinity.
- A response with missing or empty `results` is not classified as "not found".
  The `Error` thrown for it is not an HTTP-library error, so it becomes the
  generic unknown error with code `UNKNOWN_ERROR`.
- A multi-symbol fetch whose `results` is an empty array succeeds with an empty
  list and caches it.
- A 401, 404 or 429 status replaces only the message. The code is still the
  HTTP library's code, not a status-specific one.

## Model

| member | source | states |
|---|---|---|
| Cache.CacheService.constructor | src/services/cache/cacheService.ts:7-8 | a new cache is empty |
| Cache.CacheService.Set | src/services/cache/cacheService.ts:10-17 | the entry under the key becomes (data, now, ttl) and every other entry is unchanged; the lifetime defaults to 300000 |
| Cache.CacheService.Get | src/services/cache/cacheService.ts:19-34 | the answer is `Lookup` of the old map and the new map is `AfterGet` of the old map: an expired entry is answered with nothing and evicted |
| Cache.CacheService.Clear | src/services/cache/cacheService.ts:36-39 | the map becomes empty |
| Cache.CacheService.Delete | src/services/cache/cacheService.ts:41-44 | the map loses exactly the key |
| Cache.CacheService.GetSize | src/services/cache/cacheService.ts:46-48 | the count is the number of stored entries, expired ones included |
| Cache.GetAfterSet | src/services/cache/cacheService.ts:10-34 | a read at the clock reading of the store, with a non-negative lifetime, answers the stored value and evicts nothing |
| Cache.GetAbsent | src/services/cache/cacheService.ts:20-22 | reading a key never stored answers nothing and leaves the map unchanged |
| Cache.ExpiryBoundary | src/services/cache/cacheService.ts:24 | an entry is still a hit when exactly ttl has elapsed and a miss one millisecond later |
| Cache.ExpiredGetEvicts | src/services/cache/cacheService.ts:24-30 | reading an expired entry answers nothing, removes exactly that key (size drops by one) and leaves every other entry as it was |
| Cache.SetSize | src/services/cache/cacheService.ts:10-15 | storing grows the map by one exactly when the key was new and leaves the other keys and entries as they were |
| Cache.DeleteSize | src/services/cache/cacheService.ts:41-43 | deleting a present key shrinks the map by one; deleting an absent key changes nothing; other keys stay |
| Cache.GetAfterClear | src/services/cache/cacheService.ts:36-37 | after clearing, the size is 0 and every read misses |
| Cache.Expired | src/services/cache/cacheService.ts:24 | an entry is expired when strictly more than its lifetime has elapsed since it was stored |
| Cache.ExpiredStaysExpired | src/services/cache/cacheService.ts:24 | once an entry is expired it stays expired at every later clock reading |
| Cache.Lookup | src/services/cache/cacheService.ts:19-34 | a read answers a value exactly when the key is stored and not expired, and then it answers the stored data |
| Cache.AfterGet | src/services/cache/cacheService.ts:24-30 | a read only ever removes entries, leaves every other key and every remaining entry as it was, and keeps the read key exactly when the read is a hit |
| Allocation.Variation | src/components/StockAllocationTable.tsx:30-32 | one plus the variation over 100 is the price ratio current/previous; the variation is 0 exactly when the prices are equal; for a positive previous price it is positive exactly when the price rose |
| Allocation.InverseWeight | src/components/StockAllocationTable.tsx:34-36 | the weight times the growth factor 1 + v/100 is 1 |
| Allocation.InverseWeightIsPriceRatio | src/components/StockAllocationTable.tsx:30-36 | the inverse weight of a stock equals previous/current and is positive when both prices are |
| Allocation.IntrinsicValue | src/components/StockAllocationTable.tsx:38-42 | 0 when lpa, growth or selic is zero; otherwise the value times selic is 4.4 * lpa * (8.5 + 2g), so it is 0 exactly when one of them is zero or g is -4.25; positive for positive inputs; negative when lpa is negative and growth and selic are positive |
| Allocation.IntrinsicValueExample | src/components/StockAllocationTable.tsx:38-42 | lpa 2, growth 5, selic 10 gives 16.28; lpa 0 gives 0 |
| Allocation.SafetyMargin | src/components/StockAllocationTable.tsx:44-48 | 0 when the intrinsic value is 0; otherwise the price is recovered as iv * (1 - m/100); for iv > 0 the margin is positive exactly when the price is below iv, and at most 100 for a non-negative price |
| Allocation.Variations | src/components/StockAllocationTable.tsx:51 | for stocks with non-zero previous prices: one variation per stock, in order, each giving that stock's price ratio |
| Allocation.PriceFellToZero | src/components/StockAllocationTable.tsx:30-32 | a stock whose price fell to 0 from 10 has variation -100 |
| Allocation.InverseWeights | src/components/StockAllocationTable.tsx:52 | one weight per stock, in order, each previous/current |
| Allocation.TotalWeightPositive | src/components/StockAllocationTable.tsx:53 | with positive prices the total weight of a non-empty list is positive, so normalising is defined |
| Allocation.Sum | src/components/StockAllocationTable.tsx:53 | the left-to-right sum starting from 0, as `reduce`; its properties are `SumDivided`, `SumScaled`, `SumConstant` and `SumPositive` |
| Allocation.TotalWeight | src/components/StockAllocationTable.tsx:53 | the sum of the inverse weights; `TotalWeightPositive` states when it is positive |
| Allocation.Row | src/components/StockAllocationTable.tsx:56-69 | the row built for one stock from its weights; `AllocationRowShare` states its fields |
| Allocation.Normalize | src/components/StockAllocationTable.tsx:54 | one entry per weight, and each entry times the sum of the weights gives the weight back |
| Allocation.NormalizeSumsToOne | src/components/StockAllocationTable.tsx:53-54 | the normalised weights of a non-empty list with non-zero sum add up to exactly 1 |
| Allocation.Allocations | src/components/StockAllocationTable.tsx:50-71 | one row per stock, in order; each row keeps its stock, and its variation, inverse weight and normalised weight are that stock's entries in `Variations`, `InverseWeights` and the normalised inverse weights |
| Allocation.AllocationRowShare | src/components/StockAllocationTable.tsx:56-69 | in each row the percentage is the normalised weight, the amount is the normalised weight times the budget, and the intrinsic value and safety margin are those of the row's stock |
| Allocation.WeightsSumToOne | src/components/StockAllocationTable.tsx:50-54 | the normalised weights of a non-empty table sum to exactly 1 |
| Allocation.AmountsSumToBudget | src/components/StockAllocationTable.tsx:291 | the amounts invested sum to exactly the total investment |
| Allocation.EqualPricesUnitWeights | src/components/StockAllocationTable.tsx:51-53 | when no price moved every inverse weight is 1 and the total weight is N |
| Allocation.EqualPricesSplitEvenly | src/components/StockAllocationTable.tsx:50-70 | when no price moved every normalised weight is 1/N and every amount is budget/N |
| Allocation.DefaultAllocation | src/components/StockAllocationTable.tsx:20-28 | with the starting five stocks and budget 1000, each weight is 0.2 and each amount 200 |
| Allocation.MaxId | src/components/StockAllocationTable.tsx:76 | the result bounds every id and is either 0 or one of the ids |
| Allocation.DecimalDigits | src/components/StockAllocationTable.tsx:76 | the decimal text of an id is non-empty, all digits, with no leading zero |
| Allocation.DecimalRoundTrip | src/components/StockAllocationTable.tsx:76 | parsing the decimal text of an id gives back the id |
| Allocation.AddStock | src/components/StockAllocationTable.tsx:75-85 | the list grows by exactly one stock at the end, the old stocks unchanged; the new stock has id max(ids, 0) + 1, which exceeds every existing id, name "A" followed by the id, prices 10 and 10, lpa 0.5 and growth 5 |
| Allocation.NewStock | src/components/StockAllocationTable.tsx:77-84 | the row appended by `AddStock` for a given id; `AddStock` states its fields |
| Allocation.AddStockKeepsIdsUnique | src/components/StockAllocationTable.tsx:75-85 | adding a stock to a list with unique ids keeps them unique |
| Allocation.DefaultStocksUniqueIds | src/components/StockAllocationTable.tsx:20-28 | the five starting stocks have distinct ids |
| Allocation.WithoutId | src/components/StockAllocationTable.tsx:89 | a stock is kept exactly when it was in the list and its id differs; the list does not grow |
| Allocation.WithoutIdAppend | src/components/StockAllocationTable.tsx:89 | filtering distributes over concatenation, so order is preserved |
| Allocation.WithoutIdUnique | src/components/StockAllocationTable.tsx:87-89 | with unique ids filtering removes at most one stock |
| Allocation.WithoutIdKeepsAll | src/components/StockAllocationTable.tsx:89 | when no stock has the id, filtering returns the list unchanged |
| Allocation.RemoveStock | src/components/StockAllocationTable.tsx:87-93 | a list of at most one stock is returned unchanged; otherwise exactly the stocks with another id remain |
| Allocation.RemoveStockNeverEmpties | src/components/StockAllocationTable.tsx:87-93 | with unique ids removing never empties a non-empty list |
| Allocation.WithoutIdKeepsIdsUnique | src/components/StockAllocationTable.tsx:89 | filtering a list with unique ids keeps them unique |
| Allocation.RemoveStockKeepsIdsUnique | src/components/StockAllocationTable.tsx:87-93 | removing a stock keeps unique ids unique, so with `DefaultStocksUniqueIds`, `AddStockKeepsIdsUnique` and `UpdateStockKeepsIdsUnique` every list the table reaches has unique ids |
| Allocation.SetField | src/components/StockAllocationTable.tsx:96 | the named field takes the value, the id and every other field are unchanged |
| Allocation.UpdateStock | src/components/StockAllocationTable.tsx:95-97 | length, order and ids are kept; stocks with another id are unchanged; in stocks with the id only the named field changes, to the value |
| Allocation.UpdateStockKeepsIdsUnique | src/components/StockAllocationTable.tsx:95-97 | updating a field keeps unique ids unique |
| Brapi.EstimateLpa | src/services/api/brapiService.ts:125-128 | 0 when P/L is missing or not positive; otherwise earnings times P/L gives the price back, and earnings are positive exactly when the price is |
| Brapi.EstimateGrowthRate | src/services/api/brapiService.ts:133-138 | always in [0, 25]; 0 when ROE is missing or not positive; otherwise the smaller of half the ROE and 25 |
| Brapi.OrZero | src/services/api/brapiService.ts:53-58 | a missing ratio reads as 0, a present one as itself |
| Brapi.ToStockData | src/services/api/brapiService.ts:46-61 | prices, symbol and name copied; ratios default to 0; the two constant fields are 1.5 and 0.5; lpa and growth are the two estimators applied to the quote, so lpa times P/L gives the price when P/L is positive and lpa is 0 otherwise, and growth is min(roe/2, 25) for a positive ROE and 0 otherwise |
| Brapi.HandleError | src/services/api/brapiService.ts:143-174 | a non-HTTP error gives the generic message and UNKNOWN_ERROR; for an HTTP error, 401/404/429 fix the message, other statuses keep the server message if present else the error's own, and the code is the error's code or UNKNOWN_ERROR; the code is never empty |
| Brapi.UnauthorizedIsClassified | src/services/api/brapiService.ts:150-151 | a 401 always surfaces the message asking for the credential to be configured |
| Brapi.SingleKey | src/services/api/brapiService.ts:28 | the key is "stock_" followed by the symbol, which can be read back from it |
| Brapi.Join | src/services/api/brapiService.ts:77 | an empty list joins to "", a single part to itself, and longer lists start with the first part followed by the separator |
| Brapi.MultiKey | src/services/api/brapiService.ts:77 | the key is "stocks_" followed by the symbols joined by commas |
| Brapi.JoinHasCommaIffSeveral | src/services/api/brapiService.ts:77 | the join of comma-free symbols contains a comma exactly when there are at least two symbols |
| Brapi.JoinInjective | src/services/api/brapiService.ts:77 | two non-empty lists of comma-free symbols with the same comma join are the same list |
| Brapi.MultiKeyInjective | src/services/api/brapiService.ts:77 | two non-empty lists of comma-free symbols share a multi-symbol key only if they are the same list in the same order |
| Brapi.KeyKindsDisjoint | src/services/api/brapiService.ts:28-31 | no key is both a single-symbol and a multi-symbol key |
| Brapi.SingleKeyInjective | src/services/api/brapiService.ts:28 | different symbols have different single-symbol keys |
| Brapi.MultiKeyKeepsOrder | src/services/api/brapiService.ts:77 | the multi-symbol key is not sorted: two different comma-free symbols in the other order give another key |
| Brapi.Fetch | src/services/api/brapiService.ts:76-119 | one fetch against the cache: it never adds, removes or changes an entry under any other key |
| Brapi.FetchHitIgnoresProvider | src/services/api/brapiService.ts:80-83 | on a live entry the answer is the cached value and the cache is unchanged, whatever the provider would answer |
| Brapi.FetchFailureWritesNothing | src/services/api/brapiService.ts:117-119 | after a failed fetch the cache is exactly what the lookup left: at most the expired entry under the key is evicted, nothing is added or changed |
| Brapi.FetchMissStores | src/services/api/brapiService.ts:112-113 | a successful miss answers the provider's value and stores it under the same key, stamped at arrival with the client's lifetime |
| Brapi.RepeatWithinTtl | src/services/api/brapiService.ts:76-116 | after a successful miss, a second fetch within the lifetime answers the same value, leaves the cache as it is and does not consult the provider |
| Brapi.RefetchAfterExpiry | src/services/api/brapiService.ts:76-116 | once the lifetime has passed, the next fetch answers what the provider says |
| Brapi.FetchKeepsWellTyped | src/services/api/brapiService.ts:31-33 | a fetch keeps each key holding the kind of value the client reads back from it |
| Brapi.FromTransportOne | src/services/api/brapiService.ts:36-70 | a transport failure is classified by HandleError; missing or empty results give the generic unknown error; otherwise the first quote is mapped |
| Brapi.FromTransportMany | src/services/api/brapiService.ts:85-119 | a transport failure is classified; missing results give the generic unknown error; otherwise every quote is mapped in order, and an empty list is a success |
| Brapi.BrapiService.constructor | src/services/api/brapiService.ts:11-22 | the client uses the given cache and lifetime (default 300000) |
| Brapi.BrapiService.GetStockData | src/services/api/brapiService.ts:27-71 | result and new cache are `Fetch` under "stock_" + symbol with the single-symbol answer; the cache stays well typed |
| Brapi.BrapiService.GetMultipleStocks | src/services/api/brapiService.ts:76-120 | result and new cache are `Fetch` under "stocks_" + joined symbols with the multi-symbol answer; the cache stays well typed |
| Brapi.BrapiService.ClearCache | src/services/api/brapiService.ts:179-181 | the shared cache becomes empty |
| Brapi.BrapiService.GetCacheSize | src/services/api/brapiService.ts:186-188 | the count is the number of entries of the shared cache |

## Left out

- Rendering, spreadsheet export and toast notifications (src/components/StockAllocationTable.tsx:99-297): these are UI and file output through libraries. `RemoveStock` returns a one-stock list unchanged, and the error toast shown there is not modelled.
- The HTTP client set-up (base URL, headers, bearer token, timeout) and the parsing of environment variables (src/services/api/brapiService.ts:1-22): the request is an input `Transport`, and the cache lifetime is a constructor parameter.
- Logging (`console.log` and `console.error`): its only effect is output.
- src/hooks/useStockData.ts is not part of this model. It only toggles loading and error flags around the service calls.
- src/services/api/types.ts only shapes the datatypes. The fields `priceOpen`, `psr`, `requestedAt` and `responseStatus` are not carried, because the code never reads them.
- The `ApiError` timestamp (`new Date()`) is dropped.
- Floating point: the model uses exact reals. Rounding, `toFixed`, NaN and Infinity are not modelled.
- The string ids of the table are naturals. `parseInt` is modelled only through `DecimalDigits`/`ParseDecimal` and their round trip.
- Allocation.Variation: requires a non-zero previous price, because the source divides by it and yields Infinity or NaN.
- Allocation.InverseWeight: requires a non-zero growth factor, for the same reason.
- Allocation.Allocations: requires both prices of every stock to be non-zero, and a non-zero total weight for a non-empty list. Without these the source produces NaN or Infinity; with positive prices `TotalWeightPositive` shows the total weight is non-zero.
- Allocation.UpdateStock: the field names exclude `id`. The source's `keyof Stock` admits it, but every call site (src/components/StockAllocationTable.tsx:211-247) passes one of the five editable fields.
- Allocation.UpdateStock: requires the value's kind to fit the field (text for the name, a number otherwise). The source's `string | number` parameter accepts either, but every call site passes the matching kind.
- Brapi.BrapiService.GetStockData: requires the shared cache to hold a single stock under every "stock_" key and a list under every "stocks_" key. The source casts the cached value without checking; a foreign writer breaking this is not modelled.
- The clock: `Date.now()` is a parameter. The fetches take two readings: `now` for the lookup and `arrival` for the store after the response.
- The two module-level singletons are ordinary instances, and the client receives its cache in the constructor.
- Concurrent or overlapping fetches and refresh timing are not modelled. Each fetch is one atomic step over the cache.
