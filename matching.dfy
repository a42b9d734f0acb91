/** The per-product matching loop of `analyze_product_data` (and its twin in
    `main`): search 1688 by the product's cover image, keep the first three
    hits (scheme one), keep the hits among the first ten whose image
    similarity reaches the threshold (scheme two), and count the outcome in
    the run summary. The image search and the similarity measure are
    parameters: both reach the network. */
module Matching {

  import opened Wrappers
  import opened Sorting
  import opened Ranking

  /** `ImageMatcher.similarity_threshold`. */
  const SimilarityThreshold: real := 0.8
  /** Scheme one keeps this many hits. */
  const SchemeOneCount: nat := 3
  /** Scheme two compares this many hits. */
  const MaxCompared: nat := 10
  /** Scheme two needs this many similar hits to validate a product. */
  const MinSimilar: nat := 2
  /** Scheme two writes at most this many similar hits to its sheet. */
  const SheetCount: nat := 3

  /** One search result: its image, its product link, title and price. */
  datatype Hit = Hit(imageUrl: string, productUrl: string, title: string, price: string)

  /** A hit with its similarity to the product's cover image. */
  datatype SimilarHit = SimilarHit(hit: Hit, similarity: real)

  /** What the image search gives back: a list of hits, or an exception. */
  datatype SearchOutcome = Found(hits: seq<Hit>) | SearchFailed

  /** The JSON record of one matched product. */
  datatype ProductResult = ProductResult(product: ScoredProduct, matches1: seq<Hit>, matches2: seq<SimilarHit>)

  /** What happened to one product: skipped before it was counted (search
      raised or found nothing), abandoned after it was counted (a similarity
      computation raised), or matched. */
  datatype StepOutcome =
    | Skipped
    | Abandoned
    | Matched(result: ProductResult, validated: bool)

  /** The `summary` object of the analysis JSON, with its `products` list. */
  datatype Summary = Summary(total: nat, processed: nat, scheme1: nat, scheme2: nat, products: seq<ProductResult>)

  function SimilarityKey(s: SimilarHit): real { s.similarity }
  function HitOf(s: SimilarHit): Hit { s.hit }

  /** Scheme one: the first three hits, whatever their similarity. */
  function SchemeOne(hits: seq<Hit>): (r: seq<Hit>)
    ensures |r| == if |hits| < SchemeOneCount then |hits| else SchemeOneCount
    ensures forall i :: 0 <= i < |r| ==> r[i] == hits[i]
  {
    Take(hits, SchemeOneCount)
  }

  /** The similarity loop over `candidates`: `None` when a comparison raises,
      otherwise the hits reaching the threshold, in search order. The loop
      fails exactly when some comparison raises, and keeps at most one
      entry per candidate. */
  function Scan(cover: Option<string>, candidates: seq<Hit>, sim: (Option<string>, string) -> Option<real>): (r: Option<seq<SimilarHit>>)
    ensures r.None? <==> exists h :: h in candidates && sim(cover, h.imageUrl).None?
    ensures r.Some? ==> |r.value| <= |candidates|
  {
    if |candidates| == 0 then Some([])
    else
      var last := candidates[|candidates| - 1];
      assert candidates == candidates[..|candidates| - 1] + [last];
      match Scan(cover, candidates[..|candidates| - 1], sim)
      case None => None
      case Some(acc) =>
        match sim(cover, last.imageUrl)
        case None => None
        case Some(v) => Some(acc + if v >= SimilarityThreshold then [SimilarHit(last, v)] else [])
  }

  /** When the loop succeeds it keeps exactly the candidates reaching the
      threshold, with their similarity, in search order. */
  lemma {:induction false} ScanKeepsSimilar(cover: Option<string>, candidates: seq<Hit>, sim: (Option<string>, string) -> Option<real>)
    requires Scan(cover, candidates, sim).Some?
    ensures forall s :: s in Scan(cover, candidates, sim).value ==>
      s.hit in candidates && sim(cover, s.hit.imageUrl) == Some(s.similarity) && s.similarity >= SimilarityThreshold
    ensures forall h :: h in candidates && sim(cover, h.imageUrl).Some? && sim(cover, h.imageUrl).value >= SimilarityThreshold ==>
      SimilarHit(h, sim(cover, h.imageUrl).value) in Scan(cover, candidates, sim).value
    ensures Map(HitOf, Scan(cover, candidates, sim).value) == AboveThreshold(cover, candidates, sim)
  {
    if |candidates| > 0 {
      var init := candidates[..|candidates| - 1];
      var last := candidates[|candidates| - 1];
      ScanKeepsSimilar(cover, init, sim);
      assert candidates == init + [last];
      assert forall h :: h in candidates <==> h in init || h == last;
      var acc := Scan(cover, init, sim).value;
      var v := sim(cover, last.imageUrl).value;
      var tail := if v >= SimilarityThreshold then [SimilarHit(last, v)] else [];
      assert Map(HitOf, acc + tail) == Map(HitOf, acc) + Map(HitOf, tail);
    }
  }

  /** The candidates whose similarity reaches the threshold, in search order. */
  function AboveThreshold(cover: Option<string>, candidates: seq<Hit>, sim: (Option<string>, string) -> Option<real>): seq<Hit>
  {
    if |candidates| == 0 then []
    else
      var last := candidates[|candidates| - 1];
      AboveThreshold(cover, candidates[..|candidates| - 1], sim)
        + if sim(cover, last.imageUrl).Some? && sim(cover, last.imageUrl).value >= SimilarityThreshold then [last] else []
  }

  /** A failure in a prefix is a failure of the whole loop. */
  lemma {:induction false} ScanFailurePersists(cover: Option<string>, candidates: seq<Hit>, k: nat, sim: (Option<string>, string) -> Option<real>)
    requires k <= |candidates|
    requires Scan(cover, candidates[..k], sim).None?
    decreases |candidates| - k
    ensures Scan(cover, candidates, sim).None?
  {
    if k < |candidates| {
      assert candidates[..k + 1][..k] == candidates[..k];
      ScanFailurePersists(cover, candidates, k + 1, sim);
    } else {
      assert candidates[..k] == candidates;
    }
  }

  /** Scheme two's loop: compare each of the first ten hits with the cover
      image and collect those reaching the threshold. */
  method CollectSimilar(cover: Option<string>, hits: seq<Hit>, sim: (Option<string>, string) -> Option<real>)
    returns (r: Option<seq<SimilarHit>>)
    ensures r == Scan(cover, Take(hits, MaxCompared), sim)
  {
    var candidates := Take(hits, MaxCompared);
    var similar: seq<SimilarHit> := [];
    var i := 0;
    while i < |candidates|
      invariant 0 <= i <= |candidates|
      invariant Scan(cover, candidates[..i], sim) == Some(similar)
    {
      var s := sim(cover, candidates[i].imageUrl);
      assert candidates[..i + 1][..i] == candidates[..i];
      assert candidates[..i + 1][i] == candidates[i];
      if s.None? {
        ScanFailurePersists(cover, candidates, i + 1, sim);
        return None;
      }
      if s.value >= SimilarityThreshold {
        similar := similar + [SimilarHit(candidates[i], s.value)];
      } else {
        assert similar + [] == similar;
      }
      i := i + 1;
    }
    assert candidates[..i] == candidates;
    r := Some(similar);
  }

  /** Scheme two validates a product when at least two hits are similar. */
  predicate Validated(similar: seq<SimilarHit>) {
    |similar| >= MinSimilar
  }

  /** The similar hits written to the scheme-two sheet: the three most
      similar, ties in search order. */
  function SchemeTwoSheet(similar: seq<SimilarHit>): seq<SimilarHit> {
    Take(SortBy(similar, SimilarityKey, true), SheetCount)
  }

  /** The sheet holds at most three of the similar hits, most similar first,
      and no similar hit left off it beats one on it. */
  lemma SchemeTwoSheetIsTop(similar: seq<SimilarHit>)
    ensures |SchemeTwoSheet(similar)| <= SheetCount
    ensures |similar| >= SheetCount ==> |SchemeTwoSheet(similar)| == SheetCount
    ensures forall s :: s in SchemeTwoSheet(similar) ==> s in similar
    ensures Ordered(SchemeTwoSheet(similar), SimilarityKey, true)
    ensures forall s, t :: s in SchemeTwoSheet(similar) && t in similar && t !in SchemeTwoSheet(similar) ==>
      s.similarity >= t.similarity
  {
    var sorted := SortBy(similar, SimilarityKey, true);
    var sheet := SchemeTwoSheet(similar);
    forall s | s in sheet ensures s in similar {
      assert s in multiset(sorted);
    }
    forall s, t | s in sheet && t in similar && t !in sheet
      ensures s.similarity >= t.similarity
    {
      assert t in multiset(sorted);
      var i :| 0 <= i < |sheet| && sheet[i] == s;
      var j :| 0 <= j < |sorted| && sorted[j] == t;
      if j >= |sheet| {
        assert InOrder(SimilarityKey, true, sorted[i], sorted[j]);
      }
    }
  }

  /** What the loop body does with one product: it is skipped when the
      search raises or finds nothing, abandoned when a comparison among the
      first ten hits raises, and otherwise matched. A matched product's
      `matches_1` is its first three hits, its `matches_2` every similar
      hit among the first ten, even when fewer than two, and it is
      validated iff at least two hits are similar. */
  function Step(p: ScoredProduct, search: Option<string> -> SearchOutcome, sim: (Option<string>, string) -> Option<real>): (o: StepOutcome)
    ensures o.Skipped? <==> search(p.product.coverUrl).SearchFailed? || |search(p.product.coverUrl).hits| == 0
    ensures o.Abandoned? <==> (search(p.product.coverUrl).Found? && |search(p.product.coverUrl).hits| > 0
      && exists h :: h in Take(search(p.product.coverUrl).hits, MaxCompared) && sim(p.product.coverUrl, h.imageUrl).None?)
    ensures o.Matched? ==> (search(p.product.coverUrl).Found? && |search(p.product.coverUrl).hits| > 0
      && o.result.product == p
      && |o.result.matches1| > 0
      && o.result.matches1 == SchemeOne(search(p.product.coverUrl).hits)
      && Scan(p.product.coverUrl, Take(search(p.product.coverUrl).hits, MaxCompared), sim) == Some(o.result.matches2)
      && (o.validated <==> |o.result.matches2| >= MinSimilar))
  {
    match search(p.product.coverUrl)
    case SearchFailed => Skipped
    case Found(hits) =>
      if |hits| == 0 then Skipped
      else
        match Scan(p.product.coverUrl, Take(hits, MaxCompared), sim)
        case None => Abandoned
        case Some(similar) => Matched(ProductResult(p, SchemeOne(hits), similar), Validated(similar))
  }

  /** The summary after the loop over `ps`. */
  function Run(ps: seq<ScoredProduct>, search: Option<string> -> SearchOutcome, sim: (Option<string>, string) -> Option<real>): (s: Summary)
    ensures s.total == |ps|
  {
    if |ps| == 0 then Summary(0, 0, 0, 0, [])
    else
      var before := Run(ps[..|ps| - 1], search, sim);
      match Step(ps[|ps| - 1], search, sim)
      case Skipped => before.(total := |ps|)
      case Abandoned => before.(total := |ps|, processed := before.processed + 1)
      case Matched(result, validated) =>
        Summary(|ps|, before.processed + 1,
                before.scheme1 + (if |result.matches1| > 0 then 1 else 0),
                before.scheme2 + (if validated then 1 else 0),
                before.products + (if |result.matches1| > 0 || |result.matches2| > 0 then [result] else []))
  }

  /** The summary's counters: every recorded product has scheme-one hits,
      so `scheme2 <= scheme1 == |products| <= processed <= total`. */
  lemma {:induction false} RunCounters(ps: seq<ScoredProduct>, search: Option<string> -> SearchOutcome, sim: (Option<string>, string) -> Option<real>)
    ensures Run(ps, search, sim).scheme2 <= Run(ps, search, sim).scheme1
    ensures Run(ps, search, sim).scheme1 == |Run(ps, search, sim).products|
    ensures |Run(ps, search, sim).products| <= Run(ps, search, sim).processed <= |ps|
    ensures forall r :: r in Run(ps, search, sim).products ==> |r.matches1| > 0
  {
    if |ps| > 0 {
      RunCounters(ps[..|ps| - 1], search, sim);
    }
  }

  /** The loop of `analyze_product_data` over the ranked products. */
  method AnalyzeProductData(ps: seq<ScoredProduct>, search: Option<string> -> SearchOutcome, sim: (Option<string>, string) -> Option<real>)
    returns (summary: Summary)
    ensures summary == Run(ps, search, sim)
  {
    summary := Summary(|ps|, 0, 0, 0, []);
    var i := 0;
    while i < |ps|
      invariant 0 <= i <= |ps|
      invariant summary == Run(ps[..i], search, sim).(total := |ps|)
    {
      var p := ps[i];
      assert ps[..i + 1][..i] == ps[..i];
      var outcome := search(p.product.coverUrl);
      if outcome.SearchFailed? || |outcome.hits| == 0 {
        i := i + 1;
        continue;
      }
      var results := outcome.hits;
      summary := summary.(processed := summary.processed + 1);
      var matches1 := SchemeOne(results);
      var similar := CollectSimilar(p.product.coverUrl, results, sim);
      if similar.None? {
        i := i + 1;
        continue;
      }
      var matches2 := similar.value;
      if |matches2| >= MinSimilar {
        summary := summary.(scheme2 := summary.scheme2 + 1);
      }
      if |matches1| > 0 || |matches2| > 0 {
        summary := summary.(products := summary.products + [ProductResult(p, matches1, matches2)]);
        if |matches1| > 0 {
          summary := summary.(scheme1 := summary.scheme1 + 1);
        }
      }
      i := i + 1;
    }
    assert ps[..i] == ps;
  }

  /** The twin loop in `main`: it counts processed products and collects
      the products scheme two validates, writing each sheet row. */
  method MainLoop(ps: seq<ScoredProduct>, search: Option<string> -> SearchOutcome, sim: (Option<string>, string) -> Option<real>)
    returns (processed: nat, validProducts: seq<ScoredProduct>)
    ensures processed == Run(ps, search, sim).processed
    ensures |validProducts| == Run(ps, search, sim).scheme2
    ensures forall p :: p in validProducts ==> p in ps && Step(p, search, sim).Matched? && Step(p, search, sim).validated
  {
    processed := 0;
    validProducts := [];
    var i := 0;
    while i < |ps|
      invariant 0 <= i <= |ps|
      invariant processed == Run(ps[..i], search, sim).processed
      invariant |validProducts| == Run(ps[..i], search, sim).scheme2
      invariant forall p :: p in validProducts ==> p in ps[..i] && Step(p, search, sim).Matched? && Step(p, search, sim).validated
    {
      var p := ps[i];
      assert ps[..i + 1] == ps[..i] + [p];
      var outcome := search(p.product.coverUrl);
      if outcome.SearchFailed? || |outcome.hits| == 0 {
        i := i + 1;
        continue;
      }
      processed := processed + 1;
      var similar := CollectSimilar(p.product.coverUrl, outcome.hits, sim);
      if similar.None? {
        i := i + 1;
        continue;
      }
      if |similar.value| >= MinSimilar {
        // the row written to the sheet is `SchemeTwoSheet(similar.value)`
        validProducts := validProducts + [p];
      }
      i := i + 1;
    }
    assert ps[..i] == ps;
  }
}
