/** The best-sellers carousel (src/components/BestSellers.tsx): the ten
    perfumes with the most sales. */
module BestSellers {
  import opened Catalog
  import opened Seqs
  import opened Sorting

  /** `p.sales && p.sales > 0`: an absent or zero count is falsy. */
  predicate Selling(p: Perfume) {
    p.sales.Some? && p.sales.value > 0
  }

  /** The comparator `(b.sales || 0) - (a.sales || 0)`, as "may stay in front". */
  function BySales(): (Perfume, Perfume) -> bool {
    (a: Perfume, b: Perfume) => SalesOf(b) - SalesOf(a) <= 0
  }

  lemma BySalesConsistent()
    ensures TotalPreorder(BySales())
  {
  }

  /** The bestSellers memo (src/components/BestSellers.tsx:19-24). */
  function TopSellers(perfumes: seq<Perfume>): (r: seq<Perfume>)
    ensures |r| <= 10
    ensures forall i :: 0 <= i < |r| ==> Selling(r[i])
    ensures forall i, j :: 0 <= i < j < |r| ==> SalesOf(r[i]) >= SalesOf(r[j])
    ensures forall p :: p in r ==> p in perfumes
    ensures multiset(r) <= multiset(perfumes)
  {
    var sold := Filter(perfumes, Selling);
    FilterMembers(perfumes, Selling);
    FilterSubseq(perfumes, Selling);
    SubseqMultiset(sold, perfumes);
    var sorted := SortBy(sold, BySales());
    BySalesConsistent();
    assert forall p :: p in sorted <==> p in sold by {
      forall p ensures p in sorted <==> p in sold {
        assert p in sorted <==> p in multiset(sorted);
        assert p in sold <==> p in multiset(sold);
      }
    }
    TakeMultiset(sorted, 10);
    Take(sorted, 10)
  }

  /** A selling perfume that did not make the list only misses out because
      ten others sell at least as much; the list is empty exactly when nothing
      sells, and then the carousel renders nothing
      (src/components/BestSellers.tsx:26-28). */
  lemma TopSellersExcluded(perfumes: seq<Perfume>)
    ensures forall p :: p in perfumes && Selling(p) && p !in TopSellers(perfumes) ==>
      |TopSellers(perfumes)| == 10 && forall i :: 0 <= i < 10 ==> SalesOf(p) <= SalesOf(TopSellers(perfumes)[i])
    ensures TopSellers(perfumes) == [] <==> forall p :: p in perfumes ==> !Selling(p)
  {
    var sold := Filter(perfumes, Selling);
    FilterMembers(perfumes, Selling);
    var sorted := SortBy(sold, BySales());
    BySalesConsistent();
    var r := TopSellers(perfumes);
    assert r == Take(sorted, 10);
    assert forall p :: p in sorted <==> p in perfumes && Selling(p) by {
      forall p ensures p in sorted <==> p in perfumes && Selling(p) {
        assert p in sorted <==> p in multiset(sorted);
        assert p in sold <==> p in multiset(sold);
      }
    }
    forall p | p in perfumes && Selling(p) && p !in r
      ensures |r| == 10 && forall i :: 0 <= i < 10 ==> SalesOf(p) <= SalesOf(r[i])
    {
      var k :| 0 <= k < |sorted| && sorted[k] == p;
      assert forall i :: 0 <= i < |r| ==> r[i] == sorted[i];
      assert k >= |r|;
      forall i | 0 <= i < 10 ensures SalesOf(p) <= SalesOf(r[i]) {
        assert BySales()(sorted[i], sorted[k]);
      }
    }
    assert forall i :: 0 <= i < |r| ==> r[i] in perfumes && Selling(r[i]);
  }

  /** Perfumes with equal sales appear in catalog order, since `sort` is
      stable: those the carousel shows are the first of them, in the order
      the catalog lists the selling ones. */
  lemma TopSellersTiesInCatalogOrder(perfumes: seq<Perfume>)
    ensures forall x ::
              Filter(TopSellers(perfumes), TiesOf(BySales(), x)) <= Filter(Filter(perfumes, Selling), TiesOf(BySales(), x))
  {
    var sold := Filter(perfumes, Selling);
    var sorted := SortBy(sold, BySales());
    var r := TopSellers(perfumes);
    assert r == Take(sorted, 10);
    assert sorted == r + sorted[|r|..];
    BySalesConsistent();
    SortKeepsTies(sold, BySales());
    forall x ensures Filter(r, TiesOf(BySales(), x)) <= Filter(sold, TiesOf(BySales(), x)) {
      FilterAppend(r, sorted[|r|..], TiesOf(BySales(), x));
    }
  }
}
