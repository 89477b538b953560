/** The catalog page's query engine (src/components/CatalogView.tsx): the
    price bounds of the catalog, the gender / family / price filters, the
    four sort orders and the filter updates. */
module CatalogView {
  import opened Catalog
  import opened Seqs
  import opened Sorting

  datatype SortOption = Relevance | PriceAsc | PriceDesc | Newest

  /** The filter state: the chosen genders and families (empty means any)
      and the `priceRange` array, whose entries 0 and 1 are the inclusive
      price range and whose further entries (`appended`) are the pairs the
      array updater pushes onto it, which nothing reads. */
  datatype Filters = Filters(gender: seq<Gender>, olfactoryFamily: seq<Family>, priceRange: (int, int),
                             appended: seq<(int, int)>)

  function MinOf(xs: seq<int>): (m: int)
    requires |xs| > 0
    ensures m in xs && forall i :: 0 <= i < |xs| ==> m <= xs[i]
  {
    if |xs| == 1 then xs[0]
    else
      var m := MinOf(xs[1..]);
      assert m in xs;
      if xs[0] <= m then xs[0] else m
  }

  function MaxOf(xs: seq<int>): (m: int)
    requires |xs| > 0
    ensures m in xs && forall i :: 0 <= i < |xs| ==> xs[i] <= m
  {
    if |xs| == 1 then xs[0]
    else
      var m := MaxOf(xs[1..]);
      assert m in xs;
      if xs[0] >= m then xs[0] else m
  }

  function Prices(ps: seq<Perfume>): (r: seq<int>)
    ensures |r| == |ps| && forall i :: 0 <= i < |ps| ==> r[i] == ps[i].price
  {
    seq(|ps|, i requires 0 <= i < |ps| => ps[i].price)
  }

  /** The min/max price memo (src/components/CatalogView.tsx:31-35): an
      empty catalog gives 0 to 150000; otherwise the cheapest and the
      dearest price of the catalog. */
  function PriceBounds(ps: seq<Perfume>): (r: (int, int))
    ensures |ps| == 0 ==> r == (0, 150000)
    ensures |ps| > 0 ==> exists i :: 0 <= i < |ps| && ps[i].price == r.0
    ensures |ps| > 0 ==> exists j :: 0 <= j < |ps| && ps[j].price == r.1
    ensures forall i :: 0 <= i < |ps| ==> r.0 <= ps[i].price <= r.1
  {
    if |ps| == 0 then (0, 150000)
    else
      var prices := Prices(ps);
      var lo, hi := MinOf(prices), MaxOf(prices);
      assert exists i :: 0 <= i < |prices| && prices[i] == lo;
      assert exists j :: 0 <= j < |prices| && prices[j] == hi;
      (lo, hi)
  }

  /** initialFilters (src/components/CatalogView.tsx:37-41). */
  function InitialFilters(ps: seq<Perfume>): Filters {
    Filters([], [], PriceBounds(ps), [])
  }

  predicate GenderPasses(f: Filters, p: Perfume) {
    |f.gender| == 0 || p.gender in f.gender
  }

  predicate FamilyPasses(f: Filters, p: Perfume) {
    |f.olfactoryFamily| == 0 || p.olfactoryFamily in f.olfactoryFamily
  }

  predicate PricePasses(f: Filters, p: Perfume) {
    f.priceRange.0 <= p.price <= f.priceRange.1
  }

  /** A perfume passes when each of the three filters lets it through. */
  predicate Passes(f: Filters, p: Perfume) {
    GenderPasses(f, p) && FamilyPasses(f, p) && PricePasses(f, p)
  }

  /** `Passes` as the callback a `filter` takes. */
  function PassesWith(f: Filters): Perfume -> bool {
    p => Passes(f, p)
  }

  /** The value of the comparator the page hands to `sort`
      (src/components/CatalogView.tsx:63-79). For relevance, `||` falls
      through to the rating difference exactly when the sales difference
      is 0. */
  function Compare(opt: SortOption, a: Perfume, b: Perfume): real {
    match opt
    case PriceAsc => (a.price - b.price) as real
    case PriceDesc => (b.price - a.price) as real
    case Newest => (b.id - a.id) as real
    case Relevance =>
      var bySales := (SalesOf(b) - SalesOf(a)) as real;
      if bySales != 0.0 then bySales else RatingOf(b) - RatingOf(a)
  }

  /** `a` may stay in front of `b`. */
  function Le(opt: SortOption): (Perfume, Perfume) -> bool {
    (a: Perfume, b: Perfume) => Compare(opt, a, b) <= 0.0
  }

  /** What each comparator orders by. */
  lemma LeMeaning(opt: SortOption, a: Perfume, b: Perfume)
    ensures opt == PriceAsc ==> (Le(opt)(a, b) <==> a.price <= b.price)
    ensures opt == PriceDesc ==> (Le(opt)(a, b) <==> a.price >= b.price)
    ensures opt == Newest ==> (Le(opt)(a, b) <==> a.id >= b.id)
    ensures opt == Relevance ==> (Le(opt)(a, b) <==>
      SalesOf(a) > SalesOf(b) || (SalesOf(a) == SalesOf(b) && RatingOf(a) >= RatingOf(b)))
  {
  }

  /** Every one of the four comparators is consistent, so `sort` orders by it. */
  lemma ComparatorConsistent(opt: SortOption)
    ensures TotalPreorder(Le(opt))
  {
    forall a, b ensures Le(opt)(a, b) || Le(opt)(b, a) {
      LeMeaning(opt, a, b);
      LeMeaning(opt, b, a);
    }
    forall a, b, c | Le(opt)(a, b) && Le(opt)(b, c) ensures Le(opt)(a, c) {
      LeMeaning(opt, a, b);
      LeMeaning(opt, b, c);
      LeMeaning(opt, a, c);
    }
  }

  /** The three filter steps of filteredAndSortedPerfumes
      (src/components/CatalogView.tsx:47-60); an empty gender or family
      list skips its step. */
  method ApplyFilters(perfumes: seq<Perfume>, filters: Filters) returns (filtered: seq<Perfume>)
    ensures forall x :: multiset(filtered)[x] == if Passes(filters, x) then multiset(perfumes)[x] else 0
    ensures |filtered| <= |perfumes|
    ensures filtered == Filter(perfumes, PassesWith(filters))
  {
    var afterGender := FilterGender(perfumes, filters);
    var afterFamily := FilterFamily(afterGender, filters);
    filtered := FilterPrice(afterFamily, filters);
    SubseqTrans(afterFamily, afterGender, perfumes);
    SubseqTrans(filtered, afterFamily, perfumes);
    FilterUnique(filtered, perfumes, PassesWith(filters));
  }

  /** The gender step (src/components/CatalogView.tsx:50-52). */
  method FilterGender(perfumes: seq<Perfume>, filters: Filters) returns (filtered: seq<Perfume>)
    ensures forall x :: multiset(filtered)[x] == if GenderPasses(filters, x) then multiset(perfumes)[x] else 0
    ensures |filtered| <= |perfumes|
    ensures Subseq(filtered, perfumes)
  {
    filtered := perfumes;
    SubseqRefl(perfumes);
    if |filters.gender| > 0 {
      FilterCount(filtered, (p: Perfume) => p.gender in filters.gender);
      FilterSubseq(filtered, (p: Perfume) => p.gender in filters.gender);
      filtered := Filter(filtered, (p: Perfume) => p.gender in filters.gender);
    }
  }

  /** The family step (src/components/CatalogView.tsx:55-57). */
  method FilterFamily(perfumes: seq<Perfume>, filters: Filters) returns (filtered: seq<Perfume>)
    ensures forall x :: multiset(filtered)[x] == if FamilyPasses(filters, x) then multiset(perfumes)[x] else 0
    ensures |filtered| <= |perfumes|
    ensures Subseq(filtered, perfumes)
  {
    filtered := perfumes;
    SubseqRefl(perfumes);
    if |filters.olfactoryFamily| > 0 {
      FilterCount(filtered, (p: Perfume) => p.olfactoryFamily in filters.olfactoryFamily);
      FilterSubseq(filtered, (p: Perfume) => p.olfactoryFamily in filters.olfactoryFamily);
      filtered := Filter(filtered, (p: Perfume) => p.olfactoryFamily in filters.olfactoryFamily);
    }
  }

  /** The price step, always applied (src/components/CatalogView.tsx:60). */
  method FilterPrice(perfumes: seq<Perfume>, filters: Filters) returns (filtered: seq<Perfume>)
    ensures forall x :: multiset(filtered)[x] == if PricePasses(filters, x) then multiset(perfumes)[x] else 0
    ensures |filtered| <= |perfumes|
    ensures Subseq(filtered, perfumes)
  {
    FilterCount(perfumes, (p: Perfume) => filters.priceRange.0 <= p.price <= filters.priceRange.1);
    FilterSubseq(perfumes, (p: Perfume) => filters.priceRange.0 <= p.price <= filters.priceRange.1);
    filtered := Filter(perfumes, (p: Perfume) => filters.priceRange.0 <= p.price <= filters.priceRange.1);
  }

  /** What a list sorted by each comparator looks like. */
  lemma SortedMeaning(r: seq<Perfume>, opt: SortOption)
    requires SortedBy(r, Le(opt))
    ensures opt == PriceAsc ==> forall i, j :: 0 <= i < j < |r| ==> r[i].price <= r[j].price
    ensures opt == PriceDesc ==> forall i, j :: 0 <= i < j < |r| ==> r[i].price >= r[j].price
    ensures opt == Newest ==> forall i, j :: 0 <= i < j < |r| ==> r[i].id >= r[j].id
    ensures opt == Relevance ==> forall i, j :: 0 <= i < j < |r| ==>
      SalesOf(r[i]) > SalesOf(r[j]) || (SalesOf(r[i]) == SalesOf(r[j]) && RatingOf(r[i]) >= RatingOf(r[j]))
  {
    forall i, j | 0 <= i < j < |r|
      ensures opt == PriceAsc ==> r[i].price <= r[j].price
      ensures opt == PriceDesc ==> r[i].price >= r[j].price
      ensures opt == Newest ==> r[i].id >= r[j].id
      ensures opt == Relevance ==>
        SalesOf(r[i]) > SalesOf(r[j]) || (SalesOf(r[i]) == SalesOf(r[j]) && RatingOf(r[i]) >= RatingOf(r[j]))
    {
      LeMeaning(opt, r[i], r[j]);
    }
  }

  /** filteredAndSortedPerfumes (src/components/CatalogView.tsx:46-81): the
      result holds each perfume that passes all three filters as often as the
      catalog does and nothing else, ordered by the chosen key; perfumes the
      key ties keep their catalog order, since `sort` is stable. */
  method FilteredAndSorted(perfumes: seq<Perfume>, filters: Filters, sortBy: SortOption) returns (r: seq<Perfume>)
    ensures forall x :: multiset(r)[x] == if Passes(filters, x) then multiset(perfumes)[x] else 0
    ensures |r| <= |perfumes|
    ensures forall i :: 0 <= i < |r| ==> Passes(filters, r[i])
    ensures forall i :: 0 <= i < |r| ==> filters.priceRange.0 <= r[i].price <= filters.priceRange.1
    ensures SortedBy(r, Le(sortBy))
    ensures sortBy == PriceAsc ==> forall i, j :: 0 <= i < j < |r| ==> r[i].price <= r[j].price
    ensures sortBy == PriceDesc ==> forall i, j :: 0 <= i < j < |r| ==> r[i].price >= r[j].price
    ensures sortBy == Newest ==> forall i, j :: 0 <= i < j < |r| ==> r[i].id >= r[j].id
    ensures sortBy == Relevance ==> forall i, j :: 0 <= i < j < |r| ==>
      SalesOf(r[i]) > SalesOf(r[j]) || (SalesOf(r[i]) == SalesOf(r[j]) && RatingOf(r[i]) >= RatingOf(r[j]))
    ensures forall x :: Filter(r, TiesOf(Le(sortBy), x)) == Filter(Filter(perfumes, PassesWith(filters)), TiesOf(Le(sortBy), x))
  {
    var filtered := ApplyFilters(perfumes, filters);
    r := SortBy(filtered, Le(sortBy));
    ComparatorConsistent(sortBy);
    SortKeepsTies(filtered, Le(sortBy));
    forall i | 0 <= i < |r| ensures Passes(filters, r[i]) {
      assert r[i] in multiset(r);
    }
    SortedMeaning(r, sortBy);
  }

  /** With the initial filters every perfume of the catalog passes, so the
      page first shows the whole catalog, reordered. */
  lemma InitialFiltersPassAll(ps: seq<Perfume>)
    ensures forall i :: 0 <= i < |ps| ==> Passes(InitialFilters(ps), ps[i])
  {
  }

  /** The updater of an array filter (src/components/CatalogView.tsx:86-91):
      a value that is present is removed (every copy of it), otherwise it is
      appended. */
  function Toggle<T(==, !new)>(xs: seq<T>, v: T): (r: seq<T>)
    ensures v in r <==> v !in xs
    ensures forall x :: x != v ==> (x in r <==> x in xs)
    ensures v !in xs ==> r == xs + [v]
  {
    if v in xs then
      FilterMembers(xs, x => x != v);
      Filter(xs, x => x != v)
    else xs + [v]
  }

  /** Toggling a value that is absent and then toggling it back restores the
      list exactly; on a list without repeats, toggling twice restores its
      elements and their number (a removed value comes back at the end). */
  lemma ToggleTwice<T(!new)>(xs: seq<T>, v: T)
    ensures v !in xs ==> Toggle(Toggle(xs, v), v) == xs
    ensures NoDup(xs) ==> multiset(Toggle(Toggle(xs, v), v)) == multiset(xs)
  {
    if v !in xs {
      FilterAll(xs, x => x != v);
      assert Toggle(xs, v) == xs + [v];
      FilterAppend(xs, [v], x => x != v);
      assert Filter([v], x => x != v) == [];
    } else if NoDup(xs) {
      NoDupCount(xs);
      FilterCount(xs, x => x != v);
      var once := Filter(xs, x => x != v);
      assert Toggle(Toggle(xs, v), v) == once + [v];
      assert multiset(xs)[v] == 1;
      assert multiset(once + [v]) == multiset(xs);
    }
  }

  /** Toggling never introduces a repeat. */
  lemma ToggleNoDup<T(!new)>(xs: seq<T>, v: T)
    requires NoDup(xs)
    ensures NoDup(Toggle(xs, v))
  {
    if v in xs {
      FilterNoDup(xs, x => x != v);
    }
  }

  /** What handleFilterChange may be asked to change. */
  datatype FilterChange = ToggleGender(g: Gender) | ToggleFamily(f: Family) | SetPriceRange(range: (int, int))

  /** handleFilterChange (src/components/CatalogView.tsx:84-95) as written.
      All three filters are arrays, so each change takes the array branch:
      a gender or family is toggled, and the slider's pair, a fresh array
      that `includes` never finds, is pushed after the two bounds, which stay
      as they were. */
  function ApplyChange(f: Filters, c: FilterChange): (r: Filters)
    ensures c.ToggleGender? ==> r == f.(gender := Toggle(f.gender, c.g))
    ensures c.ToggleFamily? ==> r == f.(olfactoryFamily := Toggle(f.olfactoryFamily, c.f))
    ensures c.SetPriceRange? ==> r.priceRange == f.priceRange && r.appended == f.appended + [c.range]
    ensures c.SetPriceRange? ==> r.gender == f.gender && r.olfactoryFamily == f.olfactoryFamily
  {
    match c
    case ToggleGender(g) => f.(gender := Toggle(f.gender, g))
    case ToggleFamily(fam) => f.(olfactoryFamily := Toggle(f.olfactoryFamily, fam))
    case SetPriceRange(range) => f.(appended := f.appended + [range])
  }

  /** Releasing the slider changes nothing a shopper sees: every perfume
      passes the filters after the change exactly when it did before, and
      the bounds handed back to the slider, which it resets its thumbs to
      (src/components/PriceSlider.tsx:23-26), are the old ones. */
  lemma PriceReleaseIgnored(f: Filters, range: (int, int))
    ensures ApplyChange(f, SetPriceRange(range)).priceRange == f.priceRange
    ensures forall p :: Passes(ApplyChange(f, SetPriceRange(range)), p) == Passes(f, p)
  {
  }

  /** Example: with the range 100 to 500 and the thumbs released at 200 and
      300, a perfume of price 400 is still shown, outside the chosen range. */
  lemma PriceReleaseOutsideRange(p: Perfume)
    requires p.price == 400
    ensures var f := Filters([], [], (100, 500), []);
      Passes(ApplyChange(f, SetPriceRange((200, 300))), p) && !(200 <= p.price <= 300)
  {
  }

  /** handleFilterChange as evidently intended: the price range is replaced
      by the slider's pair, the array filters are toggled as before. */
  function ApplyChangeFixed(f: Filters, c: FilterChange): (r: Filters)
    ensures !c.SetPriceRange? ==> r == ApplyChange(f, c)
    ensures c.SetPriceRange? ==> r == f.(priceRange := c.range)
  {
    match c
    case SetPriceRange(range) => f.(priceRange := range)
    case _ => ApplyChange(f, c)
  }

  /** After the corrected change the page shows exactly the perfumes of the
      chosen genders and families priced within the slider's pair. */
  lemma PriceReleaseFixed(f: Filters, range: (int, int))
    ensures forall p :: Passes(ApplyChangeFixed(f, SetPriceRange(range)), p) <==>
      GenderPasses(f, p) && FamilyPasses(f, p) && range.0 <= p.price <= range.1
  {
  }

  /** The page's filter and sort state. */
  class Browser {
    var filters: Filters
    var sortBy: SortOption

    /** The lists of chosen genders and families never hold a repeat. */
    ghost predicate Valid()
      reads this
    {
      NoDup(filters.gender) && NoDup(filters.olfactoryFamily)
    }

    constructor (perfumes: seq<Perfume>)
      ensures Valid()
      ensures filters == InitialFilters(perfumes) && sortBy == Relevance
    {
      filters := InitialFilters(perfumes);
      sortBy := Relevance;
    }

    method HandleFilterChange(c: FilterChange)
      requires Valid()
      modifies this`filters
      ensures Valid()
      ensures filters == ApplyChange(old(filters), c)
    {
      match c {
        case ToggleGender(g) => ToggleNoDup(filters.gender, g);
        case ToggleFamily(fam) => ToggleNoDup(filters.olfactoryFamily, fam);
        case SetPriceRange(_) =>
      }
      filters := ApplyChange(filters, c);
    }

    /** The handler with the corrected price branch. */
    method HandleFilterChangeFixed(c: FilterChange)
      requires Valid()
      modifies this`filters
      ensures Valid()
      ensures filters == ApplyChangeFixed(old(filters), c)
    {
      match c {
        case ToggleGender(g) => ToggleNoDup(filters.gender, g);
        case ToggleFamily(fam) => ToggleNoDup(filters.olfactoryFamily, fam);
        case SetPriceRange(_) =>
      }
      filters := ApplyChangeFixed(filters, c);
    }

    /** handleClearFilters (src/components/CatalogView.tsx:97-99): back to
        the initial filters of the catalog as it is now. */
    method HandleClearFilters(perfumes: seq<Perfume>)
      requires Valid()
      modifies this`filters
      ensures Valid()
      ensures filters == InitialFilters(perfumes)
    {
      filters := InitialFilters(perfumes);
    }

    method SetSortBy(opt: SortOption)
      requires Valid()
      modifies this`sortBy
      ensures Valid()
      ensures sortBy == opt
    {
      sortBy := opt;
    }
  }
}
