/**
  The valuation and allocation arithmetic of the allocation table
  (src/components/StockAllocationTable.tsx, lines 30-97), and its edits of the stock list.

  Each stock's weight is the inverse of its price growth since the previous
  price (previous / current), so laggards get more. The weights are normalised
  to sum to one and the total investment is split in those proportions. The
  intrinsic value (Graham's simple formula) and the safety margin are computed
  beside the weights and do not affect them. Prices are reals; the source's
  floating point and its NaN/Infinity on zero prices are not modelled, so the
  divisions carry preconditions instead.
*/
module Allocation {

  /** A row of the table. Ids are the numeric values of the source's string ids. */
  datatype Stock = Stock(
    id: nat,
    name: string,
    previousPrice: real,
    currentPrice: real,
    lpa: real,         // earnings per share
    growthRate: real   // expected growth, in percent
  )

  /** A computed row: the stock with its weights, its share of the budget and its valuation. */
  datatype Allocation = Allocation(
    stock: Stock,
    variation: real,
    inverseWeight: real,
    normalizedWeight: real,
    investmentPercentage: real,
    investmentValue: real,
    intrinsicValue: real,
    safetyMargin: real
  )

  // ---------------------------------------------------------------------------
  // Per-stock valuation
  // ---------------------------------------------------------------------------

  /** Both prices are non-zero, so the variation and the inverse weight are defined. */
  predicate Priced(s: Stock)
  {
    s.previousPrice != 0.0 && s.currentPrice != 0.0
  }

  /** Percentage change from the previous to the current price. */
  function Variation(s: Stock): (v: real)
    requires s.previousPrice != 0.0
    ensures 1.0 + v / 100.0 == s.currentPrice / s.previousPrice
    ensures v == 0.0 <==> s.currentPrice == s.previousPrice
    ensures s.previousPrice > 0.0 ==> (v > 0.0 <==> s.currentPrice > s.previousPrice)
  {
    (s.currentPrice / s.previousPrice - 1.0) * 100.0
  }

  /** The reciprocal of the growth factor `1 + v/100`. */
  function InverseWeight(v: real): (w: real)
    requires 1.0 + v / 100.0 != 0.0
    ensures w * (1.0 + v / 100.0) == 1.0
  {
    1.0 / (1.0 + v / 100.0)
  }

  /** The inverse weight of a stock is its previous price over its current price. */
  lemma InverseWeightIsPriceRatio(s: Stock)
    requires Priced(s)
    ensures 1.0 + Variation(s) / 100.0 != 0.0
    ensures InverseWeight(Variation(s)) == s.previousPrice / s.currentPrice
    ensures s.previousPrice > 0.0 && s.currentPrice > 0.0 ==> InverseWeight(Variation(s)) > 0.0
  {
    var p, c := s.previousPrice, s.currentPrice;
    var g := 1.0 + Variation(s) / 100.0;
    assert g == c / p;
    assert g * p == c;
    var w := InverseWeight(Variation(s));
    assert w * g == 1.0;
    assert w * c == p by {
      calc {
        w * c;
        w * (g * p);
        (w * g) * p;
        p;
      }
    }
  }

  /**
    Graham's simple formula, LPA * (8.5 + 2g) * (4.4 / selic). Only zero inputs
    are guarded; negative inputs go through the formula.
  */
  function IntrinsicValue(s: Stock, selicRate: real): (iv: real)
    ensures s.lpa == 0.0 || s.growthRate == 0.0 || selicRate == 0.0 ==> iv == 0.0
    ensures iv == 0.0 <==> s.lpa == 0.0 || s.growthRate == 0.0 || selicRate == 0.0 || s.growthRate == -4.25
    ensures s.lpa > 0.0 && s.growthRate > 0.0 && selicRate > 0.0 ==> iv > 0.0
    ensures s.lpa < 0.0 && s.growthRate > 0.0 && selicRate > 0.0 ==> iv < 0.0
    ensures s.lpa != 0.0 && s.growthRate != 0.0 && selicRate != 0.0 ==>
      iv * selicRate == 4.4 * s.lpa * (8.5 + 2.0 * s.growthRate)
  {
    if s.lpa == 0.0 || s.growthRate == 0.0 || selicRate == 0.0 then 0.0
    else
      var k := 8.5 + 2.0 * s.growthRate;
      var d := 4.4 / selicRate;
      assert d != 0.0;
      assert s.lpa * k != 0.0 <==> k != 0.0;
      assert d * selicRate == 4.4;
      assert s.lpa * k * d * selicRate == 4.4 * s.lpa * k by {
        calc {
          s.lpa * k * d * selicRate;
          (s.lpa * k) * (d * selicRate);
          (s.lpa * k) * 4.4;
        }
      }
      s.lpa * k * d
  }

  /** A worked case of the formula: lpa 2, growth 5, selic 10 gives 16.28; a zero lpa gives 0. */
  lemma IntrinsicValueExample()
    ensures IntrinsicValue(Stock(1, "A1", 10.0, 10.0, 2.0, 5.0), 10.0) == 16.28
    ensures IntrinsicValue(Stock(1, "A1", 10.0, 10.0, 0.0, 5.0), 10.0) == 0.0
  {
  }

  /** Percentage by which the price lies below the intrinsic value; 0 when the value is 0. */
  function SafetyMargin(intrinsicValue: real, currentPrice: real): (m: real)
    ensures intrinsicValue == 0.0 ==> m == 0.0
    ensures intrinsicValue != 0.0 ==> currentPrice == intrinsicValue * (1.0 - m / 100.0)
    ensures intrinsicValue > 0.0 ==> (m > 0.0 <==> currentPrice < intrinsicValue)
    ensures intrinsicValue > 0.0 && currentPrice >= 0.0 ==> m <= 100.0
  {
    if intrinsicValue == 0.0 then 0.0
    else
      var m := (intrinsicValue - currentPrice) / intrinsicValue * 100.0;
      assert m / 100.0 == (intrinsicValue - currentPrice) / intrinsicValue;
      assert intrinsicValue * (m / 100.0) == intrinsicValue - currentPrice;
      m
  }

  // ---------------------------------------------------------------------------
  // Weights and the budget split
  // ---------------------------------------------------------------------------

  /** Left-to-right sum, as `reduce((sum, w) => sum + w, 0)`. */
  function Sum(xs: seq<real>): real
  {
    if xs == [] then 0.0 else Sum(xs[..|xs| - 1]) + xs[|xs| - 1]
  }

  /** Dividing every term by `t` divides the sum by `t`. */
  lemma {:induction false} SumDivided(xs: seq<real>, ys: seq<real>, t: real)
    requires t != 0.0
    requires |ys| == |xs|
    requires forall i :: 0 <= i < |xs| ==> ys[i] == xs[i] / t
    ensures Sum(ys) == Sum(xs) / t
  {
    if xs != [] {
      var n := |xs| - 1;
      SumDivided(xs[..n], ys[..n], t);
      assert Sum(ys) == Sum(xs[..n]) / t + xs[n] / t;
    }
  }

  /** Multiplying every term by `c` multiplies the sum by `c`. */
  lemma {:induction false} SumScaled(xs: seq<real>, ys: seq<real>, c: real)
    requires |ys| == |xs|
    requires forall i :: 0 <= i < |xs| ==> ys[i] == xs[i] * c
    ensures Sum(ys) == Sum(xs) * c
  {
    if xs != [] {
      var n := |xs| - 1;
      SumScaled(xs[..n], ys[..n], c);
      assert Sum(ys) == Sum(xs[..n]) * c + xs[n] * c;
    }
  }

  /** A sequence of `n` copies of `c` sums to `n * c`. */
  lemma {:induction false} SumConstant(xs: seq<real>, c: real)
    requires forall i :: 0 <= i < |xs| ==> xs[i] == c
    ensures Sum(xs) == |xs| as real * c
  {
    if xs != [] {
      SumConstant(xs[..|xs| - 1], c);
    }
  }

  /** A sum of positive terms over a non-empty sequence is positive. */
  lemma {:induction false} SumPositive(xs: seq<real>)
    requires xs != []
    requires forall i :: 0 <= i < |xs| ==> xs[i] > 0.0
    ensures Sum(xs) > 0.0
  {
    if |xs| > 1 {
      SumPositive(xs[..|xs| - 1]);
    }
  }

  /** Every stock of the list has both prices non-zero. */
  predicate AllPriced(stocks: seq<Stock>)
  {
    forall i :: 0 <= i < |stocks| ==> Priced(stocks[i])
  }

  /** The variation of each stock, in order. */
  function Variations(stocks: seq<Stock>): (vs: seq<real>)
    requires forall i :: 0 <= i < |stocks| ==> stocks[i].previousPrice != 0.0
    ensures |vs| == |stocks|
    ensures forall i :: 0 <= i < |stocks| ==> 1.0 + vs[i] / 100.0 == stocks[i].currentPrice / stocks[i].previousPrice
  {
    seq(|stocks|, i requires 0 <= i < |stocks| => Variation(stocks[i]))
  }

  /** A stock whose price fell to zero has variation -100; only its inverse weight is undefined. */
  lemma PriceFellToZero()
    ensures Variations([Stock(1, "A1", 10.0, 0.0, 0.5, 5.0)]) == [-100.0]
  {
    var vs := Variations([Stock(1, "A1", 10.0, 0.0, 0.5, 5.0)]);
    assert 1.0 + vs[0] / 100.0 == 0.0;
  }

  /** The inverse weight of each stock, in order: previous price over current price. */
  function InverseWeights(stocks: seq<Stock>): (ws: seq<real>)
    requires AllPriced(stocks)
    ensures |ws| == |stocks|
    ensures forall i :: 0 <= i < |stocks| ==> ws[i] == stocks[i].previousPrice / stocks[i].currentPrice
  {
    seq(|stocks|, i requires 0 <= i < |stocks| =>
      InverseWeightIsPriceRatio(stocks[i]);
      InverseWeight(Variation(stocks[i])))
  }

  /** The sum of the inverse weights, by which each weight is normalised. */
  function TotalWeight(stocks: seq<Stock>): real
    requires AllPriced(stocks)
  {
    Sum(InverseWeights(stocks))
  }

  /** With every price positive the total weight of a non-empty list is positive, so it can be divided by. */
  lemma TotalWeightPositive(stocks: seq<Stock>)
    requires stocks != []
    requires forall i :: 0 <= i < |stocks| ==> stocks[i].previousPrice > 0.0 && stocks[i].currentPrice > 0.0
    ensures TotalWeight(stocks) > 0.0
  {
    var ws := InverseWeights(stocks);
    forall i | 0 <= i < |ws|
      ensures ws[i] > 0.0
    {
      InverseWeightIsPriceRatio(stocks[i]);
    }
    SumPositive(ws);
  }

  /** The computation the table renders: one row per stock, in order. */
  function Allocations(stocks: seq<Stock>, totalInvestment: real, selicRate: real): (rows: seq<Allocation>)
    requires AllPriced(stocks)
    requires stocks != [] ==> TotalWeight(stocks) != 0.0
    ensures |rows| == |stocks|
    ensures forall i :: 0 <= i < |rows| ==>
      && rows[i].stock == stocks[i]
      && rows[i].variation == Variations(stocks)[i]
      && rows[i].inverseWeight == InverseWeights(stocks)[i]
      && rows[i].normalizedWeight == Normalize(InverseWeights(stocks))[i]
  {
    var variations := Variations(stocks);
    var inverseWeights := InverseWeights(stocks);
    var normalizedWeights := Normalize(inverseWeights);
    seq(|stocks|, i requires 0 <= i < |stocks| =>
      Row(stocks[i], variations[i], inverseWeights[i], normalizedWeights[i], totalInvestment, selicRate))
  }

  /** Each weight divided by the sum of the weights. */
  function Normalize(ws: seq<real>): (ns: seq<real>)
    requires ws != [] ==> Sum(ws) != 0.0
    ensures |ns| == |ws|
    ensures forall i :: 0 <= i < |ws| ==> ns[i] * Sum(ws) == ws[i]
  {
    var total := Sum(ws);
    seq(|ws|, i requires 0 <= i < |ws| =>
      var n := ws[i] / total;
      assert n * total == ws[i];
      n)
  }

  /** One row of the table: the stock, its weights, its share of the budget and its valuation. */
  function Row(s: Stock, variation: real, inverseWeight: real, normalizedWeight: real, totalInvestment: real, selicRate: real): Allocation
  {
    var intrinsicValue := IntrinsicValue(s, selicRate);
    Allocation(
      s,
      variation,
      inverseWeight,
      normalizedWeight,
      normalizedWeight,
      normalizedWeight * totalInvestment,
      intrinsicValue,
      SafetyMargin(intrinsicValue, s.currentPrice))
  }

  /** The share of the budget and the valuation in row `i`. */
  lemma AllocationRowShare(stocks: seq<Stock>, totalInvestment: real, selicRate: real, i: nat)
    requires AllPriced(stocks)
    requires stocks != [] ==> TotalWeight(stocks) != 0.0
    requires i < |stocks|
    ensures var row := Allocations(stocks, totalInvestment, selicRate)[i];
      && row.stock == stocks[i]
      && row.investmentPercentage == row.normalizedWeight
      && row.investmentValue == row.normalizedWeight * totalInvestment
      && row.intrinsicValue == IntrinsicValue(stocks[i], selicRate)
      && row.safetyMargin == SafetyMargin(row.intrinsicValue, stocks[i].currentPrice)
  {
    var ws := InverseWeights(stocks);
    RowShare(Allocations(stocks, totalInvestment, selicRate)[i], stocks[i], Variations(stocks)[i], ws[i], Normalize(ws)[i], totalInvestment, selicRate);
  }

  /** The derived fields of a row built by `Row`. */
  lemma RowShare(row: Allocation, s: Stock, variation: real, inverseWeight: real, normalizedWeight: real, totalInvestment: real, selicRate: real)
    requires row == Row(s, variation, inverseWeight, normalizedWeight, totalInvestment, selicRate)
    ensures row.stock == s
    ensures row.investmentPercentage == row.normalizedWeight
    ensures row.investmentValue == row.normalizedWeight * totalInvestment
    ensures row.intrinsicValue == IntrinsicValue(s, selicRate)
    ensures row.safetyMargin == SafetyMargin(row.intrinsicValue, s.currentPrice)
  {
  }

  /** The normalised weights of the rows, in order. */
  function NormalizedWeights(rows: seq<Allocation>): (ws: seq<real>)
    ensures |ws| == |rows| && forall i :: 0 <= i < |rows| ==> ws[i] == rows[i].normalizedWeight
  {
    seq(|rows|, i requires 0 <= i < |rows| => rows[i].normalizedWeight)
  }

  /** The amounts invested in the rows, in order. */
  function InvestmentValues(rows: seq<Allocation>): (vs: seq<real>)
    ensures |vs| == |rows| && forall i :: 0 <= i < |rows| ==> vs[i] == rows[i].investmentValue
  {
    seq(|rows|, i requires 0 <= i < |rows| => rows[i].investmentValue)
  }

  /** Normalised weights sum to exactly one. */
  lemma NormalizeSumsToOne(ws: seq<real>)
    requires ws != [] && Sum(ws) != 0.0
    ensures Sum(Normalize(ws)) == 1.0
  {
    var t := Sum(ws);
    var ns := Normalize(ws);
    forall i | 0 <= i < |ns|
      ensures ns[i] == ws[i] / t
    {
      QuotientOf(ns[i], ws[i], t);
    }
    SumDivided(ws, ns, t);
    QuotientOf(1.0, t, t);
  }

  /** A factor `a` with `a * t == b` is the quotient `b / t`. */
  lemma QuotientOf(a: real, b: real, t: real)
    requires t != 0.0 && a * t == b
    ensures a == b / t
  {
  }

  /** The normalised weights of the table sum to exactly one. */
  lemma WeightsSumToOne(stocks: seq<Stock>, totalInvestment: real, selicRate: real)
    requires AllPriced(stocks)
    requires stocks != []
    requires TotalWeight(stocks) != 0.0
    ensures Sum(NormalizedWeights(Allocations(stocks, totalInvestment, selicRate))) == 1.0
  {
    var rows := Allocations(stocks, totalInvestment, selicRate);
    assert NormalizedWeights(rows) == Normalize(InverseWeights(stocks));
    NormalizeSumsToOne(InverseWeights(stocks));
  }

  /** The amounts invested sum to exactly the total investment (the table's "Total Alocado"). */
  lemma AmountsSumToBudget(stocks: seq<Stock>, totalInvestment: real, selicRate: real)
    requires AllPriced(stocks)
    requires stocks != []
    requires TotalWeight(stocks) != 0.0
    ensures Sum(InvestmentValues(Allocations(stocks, totalInvestment, selicRate))) == totalInvestment
  {
    var rows := Allocations(stocks, totalInvestment, selicRate);
    WeightsSumToOne(stocks, totalInvestment, selicRate);
    SumScaled(NormalizedWeights(rows), InvestmentValues(rows), totalInvestment);
  }

  /** When no price moved, every inverse weight is 1, so the total weight is the number of stocks. */
  lemma EqualPricesUnitWeights(stocks: seq<Stock>)
    requires forall i :: 0 <= i < |stocks| ==> stocks[i].previousPrice != 0.0 && stocks[i].currentPrice == stocks[i].previousPrice
    ensures AllPriced(stocks) && TotalWeight(stocks) == |stocks| as real
  {
    var ws := InverseWeights(stocks);
    forall i | 0 <= i < |ws|
      ensures ws[i] == 1.0
    {
      var p := stocks[i].previousPrice;
      assert ws[i] == p / p;
    }
    SumConstant(ws, 1.0);
  }

  /** When no price moved, every stock gets weight 1/N and the budget is split evenly. */
  lemma EqualPricesSplitEvenly(stocks: seq<Stock>, totalInvestment: real, selicRate: real)
    requires stocks != []
    requires forall i :: 0 <= i < |stocks| ==> stocks[i].previousPrice != 0.0 && stocks[i].currentPrice == stocks[i].previousPrice
    ensures AllPriced(stocks) && TotalWeight(stocks) == |stocks| as real
    ensures forall i :: 0 <= i < |stocks| ==>
      && Allocations(stocks, totalInvestment, selicRate)[i].normalizedWeight == 1.0 / |stocks| as real
      && Allocations(stocks, totalInvestment, selicRate)[i].investmentValue == totalInvestment / |stocks| as real
  {
    EqualPricesUnitWeights(stocks);
    var n := |stocks| as real;
    var rows := Allocations(stocks, totalInvestment, selicRate);
    forall i | 0 <= i < |stocks|
      ensures rows[i].normalizedWeight == 1.0 / n
      ensures rows[i].investmentValue == totalInvestment / n
    {
      var w := rows[i].normalizedWeight;
      assert w * n == 1.0;
      AllocationRowShare(stocks, totalInvestment, selicRate, i);
      EvenShare(w, n, rows[i].investmentValue, totalInvestment);
    }
  }

  /** A weight that is one N-th of the whole buys one N-th of the budget. */
  lemma EvenShare(w: real, n: real, amount: real, totalInvestment: real)
    requires n > 0.0 && w * n == 1.0
    requires amount == w * totalInvestment
    ensures w == 1.0 / n && amount == totalInvestment / n
  {
  }

  /** Budget the table starts with. */
  const DefaultInvestment: real := 1000.0

  /** Selic rate, in percent, the table starts with. */
  const DefaultSelicRate: real := 10.5

  /** The five rows the table starts with. */
  const DefaultStocks: seq<Stock> := [
    Stock(1, "A1", 10.0, 10.0, 0.5, 5.0),
    Stock(2, "A2", 10.0, 10.0, 0.5, 5.0),
    Stock(3, "A3", 10.0, 10.0, 0.5, 5.0),
    Stock(4, "A4", 10.0, 10.0, 0.5, 5.0),
    Stock(5, "A5", 10.0, 10.0, 0.5, 5.0)
  ]

  /** With the starting data each of the five stocks gets weight 0.2 and 200 of the 1000. */
  lemma DefaultAllocation()
    ensures AllPriced(DefaultStocks) && TotalWeight(DefaultStocks) != 0.0
    ensures forall i :: 0 <= i < 5 ==>
      && Allocations(DefaultStocks, DefaultInvestment, DefaultSelicRate)[i].normalizedWeight == 0.2
      && Allocations(DefaultStocks, DefaultInvestment, DefaultSelicRate)[i].investmentValue == 200.0
  {
    EqualPricesSplitEvenly(DefaultStocks, DefaultInvestment, DefaultSelicRate);
  }

  // ---------------------------------------------------------------------------
  // Editing the stock list
  // ---------------------------------------------------------------------------

  /** The largest id in the list, or 0 for an empty list: `Math.max(...ids, 0)`. */
  function MaxId(stocks: seq<Stock>): (m: nat)
    ensures forall i :: 0 <= i < |stocks| ==> stocks[i].id <= m
    ensures m == 0 || exists i :: 0 <= i < |stocks| && stocks[i].id == m
  {
    if stocks == [] then 0
    else
      var rest := MaxId(stocks[..|stocks| - 1]);
      var last := stocks[|stocks| - 1].id;
      if last <= rest then rest else last
  }

  /** The decimal digit character for `d`. */
  function DigitChar(d: nat): char
    requires d < 10
  {
    ('0' as int + d) as char
  }

  /** The decimal representation of `n`, as `toString` writes it. */
  function DecimalDigits(n: nat): (s: string)
    ensures s != []
    ensures forall i :: 0 <= i < |s| ==> '0' <= s[i] <= '9'
    ensures |s| > 1 ==> s[0] != '0'
  {
    if n < 10 then [DigitChar(n)] else DecimalDigits(n / 10) + [DigitChar(n % 10)]
  }

  /** The number a string of decimal digits denotes, as `parseInt` reads it. */
  function ParseDecimal(s: string): nat
    requires forall i :: 0 <= i < |s| ==> '0' <= s[i] <= '9'
  {
    if s == [] then 0 else 10 * ParseDecimal(s[..|s| - 1]) + (s[|s| - 1] as int - '0' as int)
  }

  /** Reading back the decimal representation of an id gives the id. */
  lemma {:induction false} DecimalRoundTrip(n: nat)
    ensures ParseDecimal(DecimalDigits(n)) == n
  {
    var s := DecimalDigits(n);
    if n >= 10 {
      DecimalRoundTrip(n / 10);
      assert s[..|s| - 1] == DecimalDigits(n / 10);
    }
  }

  /** The row `addStock` appends, with the given id and the default values. */
  function NewStock(id: nat): Stock
  {
    Stock(id, "A" + DecimalDigits(id), 10.0, 10.0, 0.5, 5.0)
  }

  /** Appends one default stock whose id is one more than the largest id. */
  function AddStock(stocks: seq<Stock>): (r: seq<Stock>)
    ensures |r| == |stocks| + 1 && r[..|stocks|] == stocks
    ensures forall i :: 0 <= i < |stocks| ==> stocks[i].id < r[|stocks|].id
    ensures r[|stocks|].name == "A" + DecimalDigits(r[|stocks|].id)
    ensures Priced(r[|stocks|])
    ensures r[|stocks|] == Stock(MaxId(stocks) + 1, "A" + DecimalDigits(MaxId(stocks) + 1), 10.0, 10.0, 0.5, 5.0)
  {
    stocks + [NewStock(MaxId(stocks) + 1)]
  }

  /** No two stocks share an id. */
  predicate UniqueIds(stocks: seq<Stock>)
  {
    forall i, j :: 0 <= i < j < |stocks| ==> stocks[i].id != stocks[j].id
  }

  /** The starting rows have distinct ids. */
  lemma DefaultStocksUniqueIds()
    ensures UniqueIds(DefaultStocks)
  {
  }

  /** Adding a stock keeps the ids unique. */
  lemma AddStockKeepsIdsUnique(stocks: seq<Stock>)
    requires UniqueIds(stocks)
    ensures UniqueIds(AddStock(stocks))
  {
  }

  /** The stocks whose id differs from `id`, in their original order. */
  function WithoutId(stocks: seq<Stock>, id: nat): (r: seq<Stock>)
    ensures |r| <= |stocks|
    ensures forall s :: s in r <==> s in stocks && s.id != id
  {
    if stocks == [] then []
    else (if stocks[0].id != id then [stocks[0]] else []) + WithoutId(stocks[1..], id)
  }

  /** Filtering keeps order: it distributes over concatenation. */
  lemma {:induction false} WithoutIdAppend(a: seq<Stock>, b: seq<Stock>, id: nat)
    ensures WithoutId(a + b, id) == WithoutId(a, id) + WithoutId(b, id)
  {
    if a == [] {
      assert a + b == b;
    } else {
      var head := if a[0].id != id then [a[0]] else [];
      assert (a + b)[0] == a[0];
      assert (a + b)[1..] == a[1..] + b;
      calc {
        WithoutId(a + b, id);
        head + WithoutId(a[1..] + b, id);
        { WithoutIdAppend(a[1..], b, id); }
        head + (WithoutId(a[1..], id) + WithoutId(b, id));
        (head + WithoutId(a[1..], id)) + WithoutId(b, id);
        WithoutId(a, id) + WithoutId(b, id);
      }
    }
  }

  /** A list with unique ids loses at most one stock when filtered. */
  lemma {:induction false} WithoutIdUnique(stocks: seq<Stock>, id: nat)
    requires UniqueIds(stocks)
    ensures |WithoutId(stocks, id)| >= |stocks| - 1
  {
    if stocks != [] {
      WithoutIdUnique(stocks[1..], id);
      if stocks[0].id == id {
        forall s | s in stocks[1..]
          ensures s.id != id
        {
          var j :| 0 <= j < |stocks[1..]| && stocks[1..][j] == s;
          assert stocks[j + 1] == s;
        }
        WithoutIdKeepsAll(stocks[1..], id);
      }
    }
  }

  /** When no stock has the id, filtering changes nothing. */
  lemma {:induction false} WithoutIdKeepsAll(stocks: seq<Stock>, id: nat)
    requires forall s :: s in stocks ==> s.id != id
    ensures WithoutId(stocks, id) == stocks
  {
    if stocks != [] {
      WithoutIdKeepsAll(stocks[1..], id);
    }
  }

  /** Removes the stocks with the given id, unless the list has a single stock (or none). */
  function RemoveStock(stocks: seq<Stock>, id: nat): (r: seq<Stock>)
    ensures |stocks| <= 1 ==> r == stocks
    ensures |stocks| > 1 ==> forall s :: s in r <==> s in stocks && s.id != id
  {
    if |stocks| > 1 then WithoutId(stocks, id) else stocks
  }

  /** Filtering a list with unique ids keeps them unique. */
  lemma {:induction false} WithoutIdKeepsIdsUnique(stocks: seq<Stock>, id: nat)
    requires UniqueIds(stocks)
    ensures UniqueIds(WithoutId(stocks, id))
  {
    if stocks != [] {
      var rest := stocks[1..];
      WithoutIdKeepsIdsUnique(rest, id);
      var tail := WithoutId(rest, id);
      forall j | 0 <= j < |tail|
        ensures tail[j].id != stocks[0].id
      {
        assert tail[j] in rest;
        var k :| 0 <= k < |rest| && rest[k] == tail[j];
        assert stocks[k + 1] == tail[j];
      }
    }
  }

  /** Removing a stock keeps the ids unique. */
  lemma RemoveStockKeepsIdsUnique(stocks: seq<Stock>, id: nat)
    requires UniqueIds(stocks)
    ensures UniqueIds(RemoveStock(stocks, id))
  {
    WithoutIdKeepsIdsUnique(stocks, id);
  }

  /** With unique ids, removing a stock never empties a non-empty list. */
  lemma RemoveStockNeverEmpties(stocks: seq<Stock>, id: nat)
    requires UniqueIds(stocks)
    requires stocks != []
    ensures RemoveStock(stocks, id) != []
  {
    if |stocks| > 1 {
      WithoutIdUnique(stocks, id);
    }
  }

  /** The editable fields of a row. */
  datatype Field = Name | PreviousPrice | CurrentPrice | Lpa | GrowthRate

  /** A value typed into a field: text for the name, a number for the others. */
  datatype Value = Text(text: string) | Number(number: real)

  /** The value of field `f` of a stock. */
  function FieldValue(s: Stock, f: Field): Value
  {
    match f
    case Name => Text(s.name)
    case PreviousPrice => Number(s.previousPrice)
    case CurrentPrice => Number(s.currentPrice)
    case Lpa => Number(s.lpa)
    case GrowthRate => Number(s.growthRate)
  }

  /** The name takes text and the other fields take numbers. */
  predicate Fits(f: Field, v: Value)
  {
    if f == Name then v.Text? else v.Number?
  }

  /** The stock with field `f` replaced by `v`: `{ ...s, [field]: value }`. */
  function SetField(s: Stock, f: Field, v: Value): (r: Stock)
    requires Fits(f, v)
    ensures r.id == s.id
    ensures FieldValue(r, f) == v
    ensures forall g :: g != f ==> FieldValue(r, g) == FieldValue(s, g)
  {
    match f
    case Name => s.(name := v.text)
    case PreviousPrice => s.(previousPrice := v.number)
    case CurrentPrice => s.(currentPrice := v.number)
    case Lpa => s.(lpa := v.number)
    case GrowthRate => s.(growthRate := v.number)
  }

  /** Sets field `f` to `v` in every stock with the given id; every other stock is left as it was. */
  function UpdateStock(stocks: seq<Stock>, id: nat, f: Field, v: Value): (r: seq<Stock>)
    requires Fits(f, v)
    ensures |r| == |stocks|
    ensures forall i :: 0 <= i < |stocks| ==> r[i].id == stocks[i].id
    ensures forall i :: 0 <= i < |stocks| && stocks[i].id != id ==> r[i] == stocks[i]
    ensures forall i :: 0 <= i < |stocks| && stocks[i].id == id ==>
      && FieldValue(r[i], f) == v
      && forall g :: g != f ==> FieldValue(r[i], g) == FieldValue(stocks[i], g)
  {
    seq(|stocks|, i requires 0 <= i < |stocks| => if stocks[i].id == id then SetField(stocks[i], f, v) else stocks[i])
  }

  /** Updating a field keeps the ids unique. */
  lemma UpdateStockKeepsIdsUnique(stocks: seq<Stock>, id: nat, f: Field, v: Value)
    requires Fits(f, v)
    requires UniqueIds(stocks)
    ensures UniqueIds(UpdateStock(stocks, id, f, v))
  {
  }
}
