/**
 The visible list of the home page: the fetched countries that pass the name
 search and the region selector, in fetch order.
 */
module Search {
  import opened Wrappers
  import opened Text
  import opened Countries
  import Seqs

  /** The lower-cased common name contains the lower-cased query. */
  predicate MatchesSearch(c: Country, searchQuery: string) {
    Contains(Lower(c.name), Lower(searchQuery))
  }

  /** An empty selector is falsy and admits every region; otherwise the region must be identical. */
  predicate MatchesRegion(c: Country, regionFilter: string) {
    regionFilter == "" || c.region == Some(regionFilter)
  }

  /** The test passed to `countries.filter`: both the name search and the region selector. */
  predicate Keep(c: Country, searchQuery: string, regionFilter: string)
    ensures Keep(c, searchQuery, regionFilter) ==> |searchQuery| <= |c.name|
    ensures Keep(c, searchQuery, regionFilter) && regionFilter != "" ==> c.region == Some(regionFilter)
    ensures searchQuery == "" && regionFilter == "" ==> Keep(c, searchQuery, regionFilter)
  {
    ContainsEmpty(Lower(c.name));
    MatchesSearch(c, searchQuery) && MatchesRegion(c, regionFilter)
  }

  /** `countries.filter(...)` with both tests. */
  function Visible(countries: seq<Country>, searchQuery: string, regionFilter: string): (v: seq<Country>)
    ensures |v| <= |countries|
    ensures forall c <- v :: c in countries && Keep(c, searchQuery, regionFilter)
    ensures forall c <- countries :: Keep(c, searchQuery, regionFilter) ==> c in v
  {
    Seqs.FilterMembership(countries, c => Keep(c, searchQuery, regionFilter));
    Seqs.Filter(countries, c => Keep(c, searchQuery, regionFilter))
  }

  /** Every visible country was fetched, and fetch order is kept. */
  lemma VisibleIsSubsequence(countries: seq<Country>, searchQuery: string, regionFilter: string)
    ensures Seqs.IsSubsequence(Visible(countries, searchQuery, regionFilter), countries)
  {
    Seqs.FilterIsSubsequence(countries, c => Keep(c, searchQuery, regionFilter));
  }

  /** A country is visible exactly when it was fetched and passes both tests. */
  lemma VisibleMembership(countries: seq<Country>, searchQuery: string, regionFilter: string, c: Country)
    ensures c in Visible(countries, searchQuery, regionFilter)
        <==> c in countries
             && Contains(Lower(c.name), Lower(searchQuery))
             && (regionFilter == "" || c.region == Some(regionFilter))
  {
  }

  /** An empty query passes every name: only the region selector decides. */
  lemma EmptyQueryOnlyRegion(countries: seq<Country>, regionFilter: string)
    ensures Visible(countries, "", regionFilter)
         == Seqs.Filter(countries, c => MatchesRegion(c, regionFilter))
  {
    forall c <- countries
      ensures Keep(c, "", regionFilter) == MatchesRegion(c, regionFilter)
    {
      ContainsEmpty(Lower(c.name));
    }
    Seqs.FilterCongruent(countries, c => Keep(c, "", regionFilter), c => MatchesRegion(c, regionFilter));
  }

  /** An empty region selector passes every region: only the search decides. */
  lemma EmptyRegionOnlySearch(countries: seq<Country>, searchQuery: string)
    ensures Visible(countries, searchQuery, "")
         == Seqs.Filter(countries, c => MatchesSearch(c, searchQuery))
  {
    Seqs.FilterCongruent(countries, c => Keep(c, searchQuery, ""), c => MatchesSearch(c, searchQuery));
  }

  /** With neither filter set, every fetched country is shown, in order. */
  lemma NoFilterShowsAll(countries: seq<Country>)
    ensures Visible(countries, "", "") == countries
  {
    EmptyQueryOnlyRegion(countries, "");
    Seqs.FilterAllPass(countries, c => MatchesRegion(c, ""));
  }

  /**
   Region matching is exact: with a selector set, a country whose region is
   absent or differs from it in any character (case included) is not shown.
   */
  lemma RegionIsExact(countries: seq<Country>, searchQuery: string, regionFilter: string, c: Country)
    requires regionFilter != ""
    requires c.region != Some(regionFilter)
    ensures c !in Visible(countries, searchQuery, regionFilter)
  {
  }

  /** Queries that differ only in the case of their letters show the same list. */
  lemma QueryCaseInsensitive(countries: seq<Country>, q1: string, q2: string, regionFilter: string)
    requires SameUpToCase(q1, q2)
    ensures Visible(countries, q1, regionFilter) == Visible(countries, q2, regionFilter)
  {
    LowerEqualIffSameUpToCase(q1, q2);
    Seqs.FilterCongruent(countries, c => Keep(c, q1, regionFilter), c => Keep(c, q2, regionFilter));
  }

  /** Upper-casing the query shows the same list. */
  lemma UpperQuerySameList(countries: seq<Country>, searchQuery: string, regionFilter: string)
    ensures Visible(countries, Upper(searchQuery), regionFilter) == Visible(countries, searchQuery, regionFilter)
  {
    UpperSameUpToCase(searchQuery);
    QueryCaseInsensitive(countries, Upper(searchQuery), searchQuery, regionFilter);
  }

  /** Filtering the visible list again with the same inputs changes nothing. */
  lemma VisibleIdempotent(countries: seq<Country>, searchQuery: string, regionFilter: string)
    ensures Visible(Visible(countries, searchQuery, regionFilter), searchQuery, regionFilter)
         == Visible(countries, searchQuery, regionFilter)
  {
    Seqs.FilterIdempotent(countries, c => Keep(c, searchQuery, regionFilter));
  }

  /** The visible list of a concatenation of collections is the concatenation of their lists. */
  lemma VisibleAppend(a: seq<Country>, b: seq<Country>, searchQuery: string, regionFilter: string)
    ensures Visible(a + b, searchQuery, regionFilter)
         == Visible(a, searchQuery, regionFilter) + Visible(b, searchQuery, regionFilter)
  {
    Seqs.FilterAppend(a, b, c => Keep(c, searchQuery, regionFilter));
  }

  /** Applying the search and then the region selector is the combined filter. */
  lemma SearchThenRegion(countries: seq<Country>, searchQuery: string, regionFilter: string)
    ensures Visible(countries, searchQuery, regionFilter)
         == Visible(Visible(countries, searchQuery, ""), "", regionFilter)
  {
    var bySearch := c => MatchesSearch(c, searchQuery);
    var byRegion := c => MatchesRegion(c, regionFilter);
    EmptyRegionOnlySearch(countries, searchQuery);
    EmptyQueryOnlyRegion(Seqs.Filter(countries, bySearch), regionFilter);
    Seqs.FilterFilter(countries, bySearch, byRegion, c => Keep(c, searchQuery, regionFilter));
  }
}
