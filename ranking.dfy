/** The ranking analysis of `DataAnalyzer.analyze_products`: filter the
    crawled products by price and positive counts, give each a rank score for
    seven-day sales (highest first) and for influencer count (lowest first),
    combine the two with weights and order by the combined score. */
module Ranking {

  import opened Wrappers
  import opened Numbers
  import opened Sorting

  /** A crawled product record; a field is `None` when the key is absent or
      null. Only the fields the analysis reads or copies are kept. */
  datatype Product = Product(
    productId: Option<string>,
    productName: Option<string>,
    avgPrice: Option<string>,
    totalSaleNdCnt: Option<string>,
    influencersCount: Option<string>,
    productRating: Option<string>,
    category: Option<string>,
    coverUrl: Option<string>)

  /** A product that passed the filter, with its parsed numbers and the two
      rank scores (0.0 until the corresponding pass assigns them). */
  datatype Entry = Entry(
    product: Product,
    price: real,
    sales: real,
    influencers: real,
    salesScore: real,
    influencerScore: real)

  /** One row of the analysis result. */
  datatype ScoredProduct = ScoredProduct(
    product: Product,
    salesScore: real,
    influencerScore: real,
    finalScore: real)

  datatype PriceRange = PriceRange(low: real, high: real)

  function SalesKey(e: Entry): real { e.sales }
  function InfluencerKey(e: Entry): real { e.influencers }
  function FinalKey(r: ScoredProduct): real { r.finalScore }
  function EntryProduct(e: Entry): Product { e.product }
  function EntrySalesScore(e: Entry): real { e.salesScore }
  function EntryInfluencerScore(e: Entry): real { e.influencerScore }
  function RowProduct(r: ScoredProduct): Product { r.product }
  function RowSalesScore(r: ScoredProduct): real { r.salesScore }
  function RowInfluencerScore(r: ScoredProduct): real { r.influencerScore }

  /** The entry a product becomes when it passes the filter: every field
      parses, the price lies in the range and both counts are positive. */
  function Qualify(p: Product, range: PriceRange): (r: Option<Entry>)
    ensures r.Some? ==> r.value.product == p && r.value.sales > 0.0 && r.value.influencers > 0.0
    ensures r.Some? ==> range.low <= r.value.price <= range.high
    ensures r.Some? <==>
      ConvertPrice(p.avgPrice).Ok? && ConvertCount(p.totalSaleNdCnt).Ok? && ConvertCount(p.influencersCount).Ok?
      && range.low <= ConvertPrice(p.avgPrice).value <= range.high
      && ConvertCount(p.totalSaleNdCnt).value > 0.0 && ConvertCount(p.influencersCount).value > 0.0
  {
    var price := ConvertPrice(p.avgPrice);
    var sales := ConvertCount(p.totalSaleNdCnt);
    var influencers := ConvertCount(p.influencersCount);
    if price.Ok? && sales.Ok? && influencers.Ok?
       && range.low <= price.value <= range.high && sales.value > 0.0 && influencers.value > 0.0
    then Some(Entry(p, price.value, sales.value, influencers.value, 0.0, 0.0))
    else None
  }

  predicate Eligible(p: Product, range: PriceRange) {
    Qualify(p, range).Some?
  }

  /** The entries kept by the filter pass, in input order. */
  function Valid(ps: seq<Product>, range: PriceRange): (r: seq<Entry>)
    ensures |r| <= |ps|
    ensures forall e :: e in r ==> e.product in ps && Qualify(e.product, range) == Some(e)
    ensures forall p :: p in ps && Eligible(p, range) ==> Qualify(p, range).value in r
  {
    if |ps| == 0 then []
    else
      var last := ps[|ps| - 1];
      assert ps == ps[..|ps| - 1] + [last];
      Valid(ps[..|ps| - 1], range) + (if Eligible(last, range) then [Qualify(last, range).value] else [])
  }

  /** The score of rank `i` (0-based) among `n`: 100 for the first, then
      down in steps of `100 / n`. */
  function Ladder(i: nat, n: nat): real
    requires n > 0
  {
    100.0 - (i as real) * (100.0 / (n as real))
  }

  function LadderSeq(n: nat): (r: seq<real>)
    requires n > 0
    ensures |r| == n && forall i :: 0 <= i < n ==> r[i] == Ladder(i, n)
  {
    seq(n, i requires 0 <= i < n => Ladder(i, n))
  }

  /** Give position `i` of `s` the sales score `Ladder(i, n)`. */
  function WithSalesScores(s: seq<Entry>, n: nat): (r: seq<Entry>)
    requires n > 0
    ensures |r| == |s|
    ensures forall i :: 0 <= i < |s| ==> r[i] == s[i].(salesScore := Ladder(i, n))
  {
    seq(|s|, i requires 0 <= i < |s| => s[i].(salesScore := Ladder(i, n)))
  }

  /** Give position `i` of `s` the influencer score `Ladder(i, n)`. */
  function WithInfluencerScores(s: seq<Entry>, n: nat): (r: seq<Entry>)
    requires n > 0
    ensures |r| == |s|
    ensures forall i :: 0 <= i < |s| ==> r[i] == s[i].(influencerScore := Ladder(i, n))
  {
    seq(|s|, i requires 0 <= i < |s| => s[i].(influencerScore := Ladder(i, n)))
  }

  function Finalize(e: Entry, salesWeight: real, influencerWeight: real): ScoredProduct {
    ScoredProduct(e.product, e.salesScore, e.influencerScore,
                  e.salesScore * salesWeight + e.influencerScore * influencerWeight)
  }

  function FinalizeAll(s: seq<Entry>, salesWeight: real, influencerWeight: real): (r: seq<ScoredProduct>)
    ensures |r| == |s|
    ensures forall i :: 0 <= i < |s| ==> r[i] == Finalize(s[i], salesWeight, influencerWeight)
  {
    seq(|s|, i requires 0 <= i < |s| => Finalize(s[i], salesWeight, influencerWeight))
  }

  /** The valid entries in stable descending order of sales. */
  function SalesOrder(valid: seq<Entry>): (r: seq<Entry>)
    ensures |r| == |valid|
  {
    SortBy(valid, SalesKey, true)
  }

  /** The sales order with each entry carrying its sales score. */
  function SalesScored(valid: seq<Entry>): seq<Entry>
    requires |valid| > 0
  {
    WithSalesScores(SalesOrder(valid), |valid|)
  }

  /** The entries carrying their sales scores, sorted by ascending influencer
      count; ties keep the sales order. */
  function InfluencerOrder(valid: seq<Entry>): (r: seq<Entry>)
    requires |valid| > 0
    ensures |r| == |valid|
  {
    SortBy(SalesScored(valid), InfluencerKey, false)
  }

  /** The entries carrying both scores, in influencer order. */
  function Scored(valid: seq<Entry>): (r: seq<Entry>)
    requires |valid| > 0
    ensures |r| == |valid|
  {
    WithInfluencerScores(InfluencerOrder(valid), |valid|)
  }

  /** The result rows of a non-empty list of valid entries, best first:
      one row per entry, non-increasing in final score, and every final
      score the weighted sum of the row's two scores. */
  function Rank(valid: seq<Entry>, salesWeight: real, influencerWeight: real): (r: seq<ScoredProduct>)
    requires |valid| > 0
    ensures |r| == |valid|
    ensures Ordered(r, FinalKey, true)
    ensures forall x :: x in r ==> Weighted(x, salesWeight, influencerWeight)
  {
    var rows := FinalizeAll(Scored(valid), salesWeight, influencerWeight);
    FinalizeAllWeighted(Scored(valid), salesWeight, influencerWeight);
    SortedRowsWeighted(rows, salesWeight, influencerWeight);
    SortBy(rows, FinalKey, true)
  }

  /** The whole result list, before it is cut to `top_n`: empty exactly
      when no product passes the filter, and otherwise one row per kept
      entry. */
  function Ranked(ps: seq<Product>, range: PriceRange, salesWeight: real, influencerWeight: real): (r: seq<ScoredProduct>)
    ensures |r| == |Valid(ps, range)|
    ensures r == [] <==> forall p :: p in ps ==> !Eligible(p, range)
  {
    var valid := Valid(ps, range);
    EmptyValidIff(ps, range);
    if |valid| == 0 then [] else Rank(valid, salesWeight, influencerWeight)
  }

  /** The filter pass: keeps the eligible products in order and counts
      the others, including those whose fields fail to convert. */
  method FilterProducts(products: seq<Product>, range: PriceRange) returns (valid: seq<Entry>, skipped: nat)
    ensures valid == Valid(products, range)
    ensures skipped + |valid| == |products|
  {
    valid := [];
    skipped := 0;
    var i := 0;
    while i < |products|
      invariant 0 <= i <= |products|
      invariant valid == Valid(products[..i], range)
      invariant skipped + |valid| == i
    {
      var p := products[i];
      var price := ConvertPrice(p.avgPrice);
      var sales := ConvertCount(p.totalSaleNdCnt);
      var influencers := ConvertCount(p.influencersCount);
      if price.Err? || sales.Err? || influencers.Err? {
        // a conversion raised: the product is skipped
        skipped := skipped + 1;
      } else if range.low <= price.value <= range.high && sales.value > 0.0 && influencers.value > 0.0 {
        valid := valid + [Entry(p, price.value, sales.value, influencers.value, 0.0, 0.0)];
      } else {
        skipped := skipped + 1;
      }
      ValidSnoc(products, i, range);
      i := i + 1;
    }
    assert products[..i] == products;
  }

  /** One more product extends the filter's result by its entry, if any. */
  lemma ValidSnoc(ps: seq<Product>, i: nat, range: PriceRange)
    requires i < |ps|
    ensures Valid(ps[..i + 1], range)
         == Valid(ps[..i], range) + (if Eligible(ps[i], range) then [Qualify(ps[i], range).value] else [])
  {
    assert ps[..i + 1][..i] == ps[..i];
  }

  /** The pass `for i, product in enumerate(...)` that writes the sales score. */
  method AssignSalesScores(s: seq<Entry>) returns (r: seq<Entry>)
    requires |s| > 0
    ensures r == WithSalesScores(s, |s|)
  {
    var n := |s|;
    var step := 100.0 / (n as real);
    r := s;
    var k := 0;
    while k < n
      invariant 0 <= k <= n && |r| == n
      invariant forall m :: 0 <= m < k ==> r[m] == s[m].(salesScore := Ladder(m, n))
      invariant forall m :: k <= m < n ==> r[m] == s[m]
    {
      r := r[k := r[k].(salesScore := 100.0 - (k as real) * step)];
      k := k + 1;
    }
  }

  /** The pass that writes the influencer score. */
  method AssignInfluencerScores(s: seq<Entry>) returns (r: seq<Entry>)
    requires |s| > 0
    ensures r == WithInfluencerScores(s, |s|)
  {
    var n := |s|;
    var step := 100.0 / (n as real);
    r := s;
    var k := 0;
    while k < n
      invariant 0 <= k <= n && |r| == n
      invariant forall m :: 0 <= m < k ==> r[m] == s[m].(influencerScore := Ladder(m, n))
      invariant forall m :: k <= m < n ==> r[m] == s[m]
    {
      r := r[k := r[k].(influencerScore := 100.0 - (k as real) * step)];
      k := k + 1;
    }
  }

  /** The loop that builds one result row per entry with its weighted score. */
  method BuildRows(s: seq<Entry>, salesWeight: real, influencerWeight: real) returns (rows: seq<ScoredProduct>)
    ensures rows == FinalizeAll(s, salesWeight, influencerWeight)
  {
    rows := [];
    var k := 0;
    while k < |s|
      invariant 0 <= k <= |s| && |rows| == k
      invariant forall m :: 0 <= m < k ==> rows[m] == Finalize(s[m], salesWeight, influencerWeight)
    {
      var finalScore := s[k].salesScore * salesWeight + s[k].influencerScore * influencerWeight;
      rows := rows + [ScoredProduct(s[k].product, s[k].salesScore, s[k].influencerScore, finalScore)];
      k := k + 1;
    }
  }

  /** The analysis: returns the first `topN` rows (Python slice semantics)
      and the number of products the filter skipped. */
  method AnalyzeProducts(products: seq<Product>, range: PriceRange, salesWeight: real, influencerWeight: real, topN: int)
    returns (top: seq<ScoredProduct>, skipped: nat)
    ensures skipped + |Valid(products, range)| == |products|
    ensures top == Take(Ranked(products, range, salesWeight, influencerWeight), topN)
  {
    var valid;
    valid, skipped := FilterProducts(products, range);
    if |valid| == 0 {
      return [], skipped;
    }
    var n := |valid|;
    valid := SortBy(valid, SalesKey, true);
    valid := AssignSalesScores(valid);
    valid := SortBy(valid, InfluencerKey, false);
    valid := AssignInfluencerScores(valid);
    var results := BuildRows(valid, salesWeight, influencerWeight);
    results := SortBy(results, FinalKey, true);
    top := Take(results, topN);
  }

  /** The parsed seven-day sales of a product (0 when the field does not convert). */
  function SalesOf(p: Product): real {
    match ConvertCount(p.totalSaleNdCnt)
    case Ok(v) => v
    case Err(_) => 0.0
  }

  /** The parsed influencer count of a product (0 when the field does not convert). */
  function InfluencersOf(p: Product): real {
    match ConvertCount(p.influencersCount)
    case Ok(v) => v
    case Err(_) => 0.0
  }

  /** Rank scores strictly decrease along the ranking and stay within
      `[100 / n, 100]`. */
  lemma LadderProperties(n: nat)
    requires n > 0
    ensures Ladder(0, n) == 100.0
    ensures forall i, j :: 0 <= i < j < n ==> Ladder(i, n) > Ladder(j, n)
    ensures forall i :: 0 <= i < n ==> 100.0 / (n as real) <= Ladder(i, n) <= 100.0
  {
    var step := 100.0 / (n as real);
    assert step > 0.0;
    assert step * (n as real) == 100.0;
    forall i, j | 0 <= i < j < n ensures Ladder(i, n) > Ladder(j, n) {
      assert (j as real) * step - (i as real) * step == ((j - i) as real) * step;
    }
    forall i | 0 <= i < n ensures 100.0 / (n as real) <= Ladder(i, n) <= 100.0 {
      assert (i as real) * step <= ((n - 1) as real) * step;
      assert ((n - 1) as real) * step == (n as real) * step - step;
    }
  }

  /** Exactly one position of the ladder holds the top score. */
  lemma {:induction false} TopScoreOnce(n: nat)
    requires n > 0
    ensures multiset(LadderSeq(n))[100.0] == 1
  {
    var l := LadderSeq(n);
    LadderProperties(n);
    assert l == [l[0]] + l[1..];
    assert 100.0 !in l[1..];
  }

  lemma EmptyValidIff(ps: seq<Product>, range: PriceRange)
    ensures |Valid(ps, range)| == 0 <==> forall p :: p in ps ==> !Eligible(p, range)
  {
    if |Valid(ps, range)| > 0 {
      assert Valid(ps, range)[0] in Valid(ps, range);
    }
  }

  /** Every row of `Rank(valid)` comes from some position `k` of the
      influencer order, which in turn holds the entry at position `p` of
      the sales order: the row carries that product, sales score
      `Ladder(p)`, influencer score `Ladder(k)` and their weighted sum. */
  lemma {:induction false} RowOrigin(valid: seq<Entry>, salesWeight: real, influencerWeight: real, r: ScoredProduct)
    requires |valid| > 0
    requires r in Rank(valid, salesWeight, influencerWeight)
    ensures exists p, k :: (0 <= p < |valid| && 0 <= k < |valid|
      && InfluencerOrder(valid)[k] == SalesOrder(valid)[p].(salesScore := Ladder(p, |valid|))
      && r == Finalize(InfluencerOrder(valid)[k].(influencerScore := Ladder(k, |valid|)), salesWeight, influencerWeight))
  {
    var n := |valid|;
    var withSales := WithSalesScores(SalesOrder(valid), n);
    var rows := FinalizeAll(Scored(valid), salesWeight, influencerWeight);
    assert r in multiset(rows);
    var k :| 0 <= k < n && rows[k] == r;
    assert InfluencerOrder(valid)[k] in multiset(withSales);
    var p :| 0 <= p < n && withSales[p] == InfluencerOrder(valid)[k];
  }

  predicate Weighted(r: ScoredProduct, salesWeight: real, influencerWeight: real) {
    r.finalScore == r.salesScore * salesWeight + r.influencerScore * influencerWeight
  }

  /** Sorting built rows keeps every row's weighted-sum identity. */
  lemma SortedRowsWeighted(rows: seq<ScoredProduct>, salesWeight: real, influencerWeight: real)
    requires forall x :: x in rows ==> Weighted(x, salesWeight, influencerWeight)
    ensures forall x :: x in SortBy(rows, FinalKey, true) ==> Weighted(x, salesWeight, influencerWeight)
  {
    var sorted := SortBy(rows, FinalKey, true);
    forall x | x in sorted ensures Weighted(x, salesWeight, influencerWeight) {
      assert x in multiset(sorted);
    }
  }

  /** Each built row's final score is the weighted sum of its scores. */
  lemma FinalizeAllWeighted(s: seq<Entry>, salesWeight: real, influencerWeight: real)
    ensures forall x :: x in FinalizeAll(s, salesWeight, influencerWeight) ==> Weighted(x, salesWeight, influencerWeight)
  {
    var rows := FinalizeAll(s, salesWeight, influencerWeight);
    forall x | x in rows ensures Weighted(x, salesWeight, influencerWeight) {
      var i :| 0 <= i < |rows| && rows[i] == x;
      assert x == Finalize(s[i], salesWeight, influencerWeight);
    }
  }

  /** The result is a rearrangement of the valid entries' products: each
      appears once per occurrence and nothing else does. */
  lemma {:induction false} RankPermutesValid(valid: seq<Entry>, salesWeight: real, influencerWeight: real)
    requires |valid| > 0
    ensures multiset(Map(RowProduct, Rank(valid, salesWeight, influencerWeight)))
         == multiset(Map(EntryProduct, valid))
  {
    var n := |valid|;
    var salesOrder := SalesOrder(valid);
    var withSales := WithSalesScores(salesOrder, n);
    var inflOrder := InfluencerOrder(valid);
    var rows := FinalizeAll(Scored(valid), salesWeight, influencerWeight);
    MapPermutes(RowProduct, Rank(valid, salesWeight, influencerWeight), rows);
    assert Map(RowProduct, rows) == Map(EntryProduct, inflOrder);
    MapPermutes(EntryProduct, inflOrder, withSales);
    assert Map(EntryProduct, withSales) == Map(EntryProduct, salesOrder);
    MapPermutes(EntryProduct, salesOrder, valid);
  }

  /** The sales scores, and the influencer scores, of the result are each
      the ladder `100, 100 - 100/n, ..., 100/n` in some order: every score is
      used exactly once, so exactly one product scores 100 on each. */
  lemma {:induction false} RankScoresAreLadders(valid: seq<Entry>, salesWeight: real, influencerWeight: real)
    requires |valid| > 0
    ensures multiset(Map(RowSalesScore, Rank(valid, salesWeight, influencerWeight))) == multiset(LadderSeq(|valid|))
    ensures multiset(Map(RowInfluencerScore, Rank(valid, salesWeight, influencerWeight))) == multiset(LadderSeq(|valid|))
    ensures multiset(Map(RowSalesScore, Rank(valid, salesWeight, influencerWeight)))[100.0] == 1
    ensures multiset(Map(RowInfluencerScore, Rank(valid, salesWeight, influencerWeight)))[100.0] == 1
  {
    var n := |valid|;
    var withSales := WithSalesScores(SalesOrder(valid), n);
    var inflOrder := InfluencerOrder(valid);
    var rows := FinalizeAll(Scored(valid), salesWeight, influencerWeight);
    var ranked := Rank(valid, salesWeight, influencerWeight);
    MapPermutes(RowSalesScore, ranked, rows);
    MapPermutes(RowInfluencerScore, ranked, rows);
    assert Map(RowInfluencerScore, rows) == LadderSeq(n);
    assert Map(RowSalesScore, rows) == Map(EntrySalesScore, inflOrder);
    MapPermutes(EntrySalesScore, inflOrder, withSales);
    assert Map(EntrySalesScore, withSales) == LadderSeq(n);
    TopScoreOnce(n);
  }

  /** Every score in the result lies in `[100 / n, 100]`. */
  lemma RankScoreBounds(valid: seq<Entry>, salesWeight: real, influencerWeight: real, r: ScoredProduct)
    requires |valid| > 0
    requires r in Rank(valid, salesWeight, influencerWeight)
    ensures 100.0 / (|valid| as real) <= r.salesScore <= 100.0
    ensures 100.0 / (|valid| as real) <= r.influencerScore <= 100.0
  {
    RowOrigin(valid, salesWeight, influencerWeight, r);
    LadderProperties(|valid|);
  }

  lemma LadderDecreasing(i: nat, j: nat, n: nat)
    requires i < j < n
    ensures Ladder(i, n) > Ladder(j, n)
  {
    var step := 100.0 / (n as real);
    assert (j as real) * step - (i as real) * step == ((j - i) as real) * step;
  }

  /** The sales score of a row is the ladder value of the position, in the
      sales order, of an entry with the row's sales. */
  lemma {:induction false} SalesRankOf(valid: seq<Entry>, salesWeight: real, influencerWeight: real, r: ScoredProduct)
    requires |valid| > 0
    requires forall e :: e in valid ==> e.sales == SalesOf(e.product)
    requires r in Rank(valid, salesWeight, influencerWeight)
    ensures exists p :: (0 <= p < |valid| && SalesOrder(valid)[p].sales == SalesOf(r.product)
      && r.salesScore == Ladder(p, |valid|))
  {
    var n := |valid|;
    RowOrigin(valid, salesWeight, influencerWeight, r);
    var p, k :| 0 <= p < n && 0 <= k < n
      && InfluencerOrder(valid)[k] == SalesOrder(valid)[p].(salesScore := Ladder(p, n))
      && r == Finalize(InfluencerOrder(valid)[k].(influencerScore := Ladder(k, n)), salesWeight, influencerWeight);
    assert SalesOrder(valid)[p] in multiset(valid);
  }

  /** The influencer score of a row is the ladder value of the position, in
      the influencer order, of an entry with the row's influencer count. */
  lemma {:induction false} InfluencerRankOf(valid: seq<Entry>, salesWeight: real, influencerWeight: real, r: ScoredProduct)
    requires |valid| > 0
    requires forall e :: e in valid ==> e.influencers == InfluencersOf(e.product)
    requires r in Rank(valid, salesWeight, influencerWeight)
    ensures exists k :: (0 <= k < |valid| && InfluencerOrder(valid)[k].influencers == InfluencersOf(r.product)
      && r.influencerScore == Ladder(k, |valid|))
  {
    var n := |valid|;
    RowOrigin(valid, salesWeight, influencerWeight, r);
    var p, k :| 0 <= p < n && 0 <= k < n
      && InfluencerOrder(valid)[k] == SalesOrder(valid)[p].(salesScore := Ladder(p, n))
      && r == Finalize(InfluencerOrder(valid)[k].(influencerScore := Ladder(k, n)), salesWeight, influencerWeight);
    assert SalesOrder(valid)[p] in multiset(valid);
  }

  /** An entry with strictly higher sales gets a strictly higher sales score. */
  lemma HigherSalesScoresHigher(valid: seq<Entry>, salesWeight: real, influencerWeight: real, a: ScoredProduct, b: ScoredProduct)
    requires |valid| > 0
    requires forall e :: e in valid ==> e.sales == SalesOf(e.product)
    requires a in Rank(valid, salesWeight, influencerWeight)
    requires b in Rank(valid, salesWeight, influencerWeight)
    requires SalesOf(a.product) > SalesOf(b.product)
    ensures a.salesScore > b.salesScore
  {
    var n := |valid|;
    var order := SalesOrder(valid);
    SalesRankOf(valid, salesWeight, influencerWeight, a);
    SalesRankOf(valid, salesWeight, influencerWeight, b);
    var p :| 0 <= p < n && order[p].sales == SalesOf(a.product) && a.salesScore == Ladder(p, n);
    var q :| 0 <= q < n && order[q].sales == SalesOf(b.product) && b.salesScore == Ladder(q, n);
    OrderedBefore(order, SalesKey, true, p, q);
    LadderDecreasing(p, q, n);
  }

  /** An entry with strictly fewer influencers gets a strictly higher
      influencer score. */
  lemma FewerInfluencersScoresHigher(valid: seq<Entry>, salesWeight: real, influencerWeight: real, a: ScoredProduct, b: ScoredProduct)
    requires |valid| > 0
    requires forall e :: e in valid ==> e.influencers == InfluencersOf(e.product)
    requires a in Rank(valid, salesWeight, influencerWeight)
    requires b in Rank(valid, salesWeight, influencerWeight)
    requires InfluencersOf(a.product) < InfluencersOf(b.product)
    ensures a.influencerScore > b.influencerScore
  {
    var n := |valid|;
    var order := InfluencerOrder(valid);
    InfluencerRankOf(valid, salesWeight, influencerWeight, a);
    InfluencerRankOf(valid, salesWeight, influencerWeight, b);
    var k :| 0 <= k < n && order[k].influencers == InfluencersOf(a.product) && a.influencerScore == Ladder(k, n);
    var l :| 0 <= l < n && order[l].influencers == InfluencersOf(b.product) && b.influencerScore == Ladder(l, n);
    OrderedBefore(order, InfluencerKey, false, k, l);
    LadderDecreasing(k, l, n);
  }

  /** The eligible input products, in input order. */
  function EligibleProducts(ps: seq<Product>, range: PriceRange): (r: seq<Product>)
    ensures forall p :: p in r <==> p in ps && Eligible(p, range)
  {
    if |ps| == 0 then []
    else
      var last := ps[|ps| - 1];
      assert ps == ps[..|ps| - 1] + [last];
      EligibleProducts(ps[..|ps| - 1], range) + (if Eligible(last, range) then [last] else [])
  }

  lemma {:induction false} ValidProducts(ps: seq<Product>, range: PriceRange)
    ensures Map(EntryProduct, Valid(ps, range)) == EligibleProducts(ps, range)
  {
    if |ps| > 0 {
      var init := ps[..|ps| - 1];
      var last := ps[|ps| - 1];
      ValidProducts(init, range);
      var tail := if Eligible(last, range) then [Qualify(last, range).value] else [];
      assert Map(EntryProduct, Valid(init, range) + tail) == Map(EntryProduct, Valid(init, range)) + Map(EntryProduct, tail);
    }
  }

  /** The rows of the analysis are the eligible input products, each as
      often as it occurs, rearranged. */
  lemma RankedRowsAreEligibleProducts(ps: seq<Product>, range: PriceRange, salesWeight: real, influencerWeight: real)
    ensures multiset(Map(RowProduct, Ranked(ps, range, salesWeight, influencerWeight)))
         == multiset(EligibleProducts(ps, range))
  {
    ValidProducts(ps, range);
    if |Valid(ps, range)| > 0 {
      RankPermutesValid(Valid(ps, range), salesWeight, influencerWeight);
    }
  }

  /** The entries kept by the filter carry their product's parsed sales
      and influencer counts. */
  lemma ValidCarriesCounts(ps: seq<Product>, range: PriceRange)
    ensures forall e :: e in Valid(ps, range) ==>
      e.sales == SalesOf(e.product) && e.influencers == InfluencersOf(e.product)
  {
  }

  /** Ties are broken by the earlier order: products with equal sales keep
      their input order in the sales ranking, and products with equal
      influencer counts keep their sales-ranking order. */
  lemma TiesKeepPriorOrder(valid: seq<Entry>, v: real)
    requires |valid| > 0
    ensures KeyClass(SalesOrder(valid), SalesKey, v) == KeyClass(valid, SalesKey, v)
    ensures KeyClass(InfluencerOrder(valid), InfluencerKey, v) == KeyClass(SalesScored(valid), InfluencerKey, v)
  {
    SortByStable(valid, SalesKey, true, v);
    SortByStable(SalesScored(valid), InfluencerKey, false, v);
  }

  /** In a sequence scored along the ladder, the entries sharing a key
      value have strictly decreasing scores. */
  lemma ClassScoresDecrease(s: seq<Entry>, key: Entry -> real, v: real, score: Entry -> real, n: nat)
    requires |s| <= n
    requires forall i :: 0 <= i < |s| ==> score(s[i]) == Ladder(i, n)
    ensures forall k, l :: 0 <= k < l < |KeyClass(s, key, v)| ==> score(KeyClass(s, key, v)[k]) > score(KeyClass(s, key, v)[l])
  {
    var c := KeyClass(s, key, v);
    var idx := KeyClassPositions(s, key, v);
    forall k, l | 0 <= k < l < |c| ensures score(c[k]) > score(c[l]) {
      LadderDecreasing(idx[k], idx[l], n);
    }
  }

  /** Scoring a sequence along the sales ladder changes, within each
      sales class, only the sales scores, which strictly decrease. */
  lemma SalesLadderClass(order: seq<Entry>, n: nat, v: real)
    requires 0 < n && |order| <= n
    ensures var c, sc := KeyClass(order, SalesKey, v), KeyClass(WithSalesScores(order, n), SalesKey, v);
      |sc| == |c|
      && (forall k :: 0 <= k < |c| ==> sc[k] == c[k].(salesScore := sc[k].salesScore))
      && (forall k, l :: 0 <= k < l < |sc| ==> sc[k].salesScore > sc[l].salesScore)
  {
    var scored := WithSalesScores(order, n);
    KeyClassAlong(order, scored, SalesKey, v, (x: Entry, y: Entry) => x == y.(salesScore := x.salesScore));
    ClassScoresDecrease(scored, SalesKey, v, EntrySalesScore, n);
  }

  /** Scoring a sequence along the influencer ladder changes, within each
      influencer class, only the influencer scores, which strictly decrease. */
  lemma InfluencerLadderClass(order: seq<Entry>, n: nat, v: real)
    requires 0 < n && |order| <= n
    ensures var c, sc := KeyClass(order, InfluencerKey, v), KeyClass(WithInfluencerScores(order, n), InfluencerKey, v);
      |sc| == |c|
      && (forall k :: 0 <= k < |c| ==> sc[k] == c[k].(influencerScore := sc[k].influencerScore))
      && (forall k, l :: 0 <= k < l < |sc| ==> sc[k].influencerScore > sc[l].influencerScore)
  {
    var scored := WithInfluencerScores(order, n);
    KeyClassAlong(order, scored, InfluencerKey, v, (x: Entry, y: Entry) => x == y.(influencerScore := x.influencerScore));
    ClassScoresDecrease(scored, InfluencerKey, v, EntryInfluencerScore, n);
  }

  /** Products with equal sales are scored by input order: the entries
      with sales `v` after the sales pass are the input's entries with
      sales `v`, in input order and changed only in their sales score, and
      an earlier one has a strictly higher sales score. */
  lemma SalesTiesByInputOrder(valid: seq<Entry>, v: real)
    requires |valid| > 0
    ensures var c, sc := KeyClass(valid, SalesKey, v), KeyClass(SalesScored(valid), SalesKey, v);
      |sc| == |c|
      && (forall k :: 0 <= k < |c| ==> sc[k] == c[k].(salesScore := sc[k].salesScore))
      && (forall k, l :: 0 <= k < l < |sc| ==> sc[k].salesScore > sc[l].salesScore)
  {
    TiesKeepPriorOrder(valid, v);
    SalesLadderClass(SalesOrder(valid), |valid|, v);
  }

  /** Products with equal influencer counts are scored by the sales order:
      the entries with influencer count `v` after the influencer pass are
      those of the sales pass, in sales order and changed only in their
      influencer score, and an earlier one has a strictly higher influencer
      score. */
  lemma InfluencerTiesBySalesOrder(valid: seq<Entry>, v: real)
    requires |valid| > 0
    ensures var c, sc := KeyClass(SalesScored(valid), InfluencerKey, v), KeyClass(Scored(valid), InfluencerKey, v);
      |sc| == |c|
      && (forall k :: 0 <= k < |c| ==> sc[k] == c[k].(influencerScore := sc[k].influencerScore))
      && (forall k, l :: 0 <= k < l < |sc| ==> sc[k].influencerScore > sc[l].influencerScore)
  {
    TiesKeepPriorOrder(valid, v);
    InfluencerLadderClass(InfluencerOrder(valid), |valid|, v);
  }
}
