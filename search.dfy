/** The search dialog (src/components/SearchModal.tsx): a case-insensitive
    substring search over name, brand, family and description, capped at
    ten results. */
module Search {
  import opened Catalog
  import opened Seqs
  import opened Text

  /** The lowercased query `lq` occurs in the lowercased name, brand or
      family, or in the description when the perfume has a non-empty one
      (src/components/SearchModal.tsx:36-40). */
  predicate Matches(p: Perfume, lq: string) {
    Contains(Lower(p.name), lq)
    || Contains(Lower(p.brand), lq)
    || Contains(Lower(FamilyName(p.olfactoryFamily)), lq)
    || (p.details.Some? && p.details.value.description != "" && Contains(Lower(p.details.value.description), lq))
  }

  function Matcher(lq: string): Perfume -> bool {
    (p: Perfume) => Matches(p, lq)
  }

  const Limit: nat := 10

  /** searchResults (src/components/SearchModal.tsx:31-42). A query that
      trims to nothing finds nothing; otherwise the result is the first ten
      matches for the lowercased, untrimmed query, in catalog order. */
  function SearchResults(perfumes: seq<Perfume>, query: string): (r: seq<Perfume>)
    ensures AllWhitespace(query) ==> r == []
    ensures |r| <= Limit
    ensures forall i :: 0 <= i < |r| ==> Matches(r[i], Lower(query))
    ensures !AllWhitespace(query) ==>
      var all := Filter(perfumes, Matcher(Lower(query)));
      |r| == (if |all| < Limit then |all| else Limit) && r == all[..|r|]
  {
    TrimSpec(query);
    if Trim(query) == [] then []
    else Take(Filter(perfumes, Matcher(Lower(query))), Limit)
  }

  /** Every result comes from the catalog, and while there are fewer than
      ten matches every matching perfume is found. */
  lemma SearchComplete(perfumes: seq<Perfume>, query: string)
    ensures forall p :: p in SearchResults(perfumes, query) ==> p in perfumes
    ensures !AllWhitespace(query) && |SearchResults(perfumes, query)| < Limit ==>
      forall p :: p in perfumes && Matches(p, Lower(query)) ==> p in SearchResults(perfumes, query)
  {
    var all := Filter(perfumes, Matcher(Lower(query)));
    FilterMembers(perfumes, Matcher(Lower(query)));
    var r := SearchResults(perfumes, query);
    forall p | p in r ensures p in perfumes {
      if !AllWhitespace(query) {
        var i :| 0 <= i < |r| && r[i] == p;
        assert all[i] == p;
      }
    }
    if !AllWhitespace(query) && |r| < Limit {
      assert r == all;
    }
  }

  /** Lowering the query first changes nothing: the search is already
      case-insensitive. */
  lemma SearchCaseInsensitive(perfumes: seq<Perfume>, query: string)
    ensures SearchResults(perfumes, Lower(query)) == SearchResults(perfumes, query)
  {
    LowerIdempotent(query);
    assert AllWhitespace(Lower(query)) <==> AllWhitespace(query) by {
      forall i | 0 <= i < |query| ensures IsWhitespace(Lower(query)[i]) <==> IsWhitespace(query[i]) {
        LowerIndex(query, i);
        LowerCharWhitespace(query[i]);
      }
    }
  }

  /** The dialog's query, emptied whenever the dialog closes
      (src/components/SearchModal.tsx:25-29). */
  class SearchBox {
    var query: string

    constructor ()
      ensures query == ""
    {
      query := "";
    }

    method SetQuery(q: string)
      modifies this
      ensures query == q
    {
      query := q;
    }

    /** The effect that runs when `isOpen` changes. */
    method OpenChanged(isOpen: bool)
      modifies this
      ensures !isOpen ==> query == ""
      ensures isOpen ==> query == old(query)
    {
      if !isOpen {
        query := "";
      }
    }
  }
}
