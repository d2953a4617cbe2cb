/** Concrete sessions with one fetched country. */
module Scenarios {
  import opened Wrappers
  import opened Text
  import opened Countries
  import opened Search
  import opened HomePage

  function France(): Country {
    Country("FRA", "France", 67000000, Some("Europe"), Some(["Paris"]), "fr.png")
  }

  /** A query in capitals finds the country whose name it starts. */
  lemma UpperCaseQueryFindsFrance()
    ensures Visible([France()], "FRAN", "") == [France()]
  {
    assert OccursAt(Lower("France"), Lower("FRAN"), 0);
  }

  /** A query with some letters in the other case finds the same country. */
  lemma MixedCaseQueryFindsFrance()
    ensures Visible([France()], "fRaN", "") == [France()]
  {
    assert SameUpToCase("fRaN", "FRAN") by {
      assert SameCharUpToCase('f', 'F') && SameCharUpToCase('a', 'A');
    }
    QueryCaseInsensitive([France()], "fRaN", "FRAN", "");
    UpperCaseQueryFindsFrance();
  }

  /** A query that occurs nowhere in the name shows no card. */
  lemma UnknownQueryFindsNothing()
    ensures Visible([France()], "xyz", "") == []
  {
    var name := Lower("France");
    forall k | 0 <= k <= |name|
      ensures !OccursAt(name, Lower("xyz"), k)
    {
      assert name == "france";
      if k + 3 <= |name| {
        assert name[k..k + 3][0] == name[k] != 'x';
      }
    }
  }

  /** A region that only starts with the selected one does not match it. */
  lemma RegionPrefixExcluded()
    ensures Visible([France().(region := Some("Europe."))], "", "Europe") == []
  {
    RegionIsExact([France().(region := Some("Europe."))], "", "Europe", France().(region := Some("Europe.")));
  }

  /** The region selector compares case as well. */
  lemma RegionCaseMatters()
    ensures Visible([France()], "", "europe") == []
  {
    RegionIsExact([France()], "", "europe", France());
  }

  /** After a successful load the one card shows the name, region and first capital. */
  lemma LoadedFranceCard()
    ensures Render(Resolve(Initial(), Fetched([France()])))
         == GridView([Card("FRA", "fr.png", "France", Some("Europe"), Some("Paris"))])
  {
    NoFilterShowsAll([France()]);
  }

  /** After a failed load only the message is shown. */
  lemma FailedLoadShowsMessage()
    ensures Render(Resolve(Initial(), FetchFailed)) == ErrorView("Failed to fetch country data")
  {
  }

  /** An empty capital array is present, so the placeholder is not used. */
  lemma EmptyCapitalShowsNothing()
    ensures CardOf(France().(capital := Some([]))).capital == None
    ensures CardOf(France().(capital := None)).capital == Some("N/A")
  {
  }
}
