/**
 The home page component: its state, the two ways the one fetch can end, the
 two filter inputs, and which of three views a render produces.
 */
module HomePage {
  import opened Wrappers
  import opened Countries
  import opened Search

  /** The message set when the fetch fails; the error itself is not shown. */
  const FetchErrorMessage: string := "Failed to fetch country data"

  /** How the request for the country collection ended. */
  datatype FetchOutcome = Fetched(data: seq<Country>) | FetchFailed

  /** The five `useState` hooks of the component. `error` is `null` as `None`. */
  datatype State = State(
    countries: seq<Country>,
    searchQuery: string,
    regionFilter: string,
    loading: bool,
    error: Option<string>
  )

  /** The three things a render can produce. */
  datatype Card = Card(key: string, flag: string, name: string, region: Option<string>, capital: Option<string>)
  datatype View = LoadingView | ErrorView(message: string) | GridView(cards: seq<Card>)

  /** The status the page is in, read from `loading` and `error` as the render reads them. */
  datatype Status = Pending | Failed | Ready

  /** `if (error)`: a non-null, non-empty string is truthy. */
  predicate ErrorSet(error: Option<string>) {
    error.Some? && error.value != ""
  }

  /** The state on first render: nothing fetched, no filters, loading, no error. */
  function Initial(): (s: State)
    ensures s.loading && s.error.None? && s.countries == []
    ensures s.searchQuery == "" && s.regionFilter == ""
  {
    State([], "", "", true, None)
  }

  /**
   The fetch settles. On success the data replaces `countries` and loading
   ends; on failure the fixed message is stored and loading ends. Nothing else
   is touched: in particular a success does not clear an earlier error.
   */
  function Resolve(s: State, outcome: FetchOutcome): (t: State)
    ensures !t.loading
    ensures t.searchQuery == s.searchQuery && t.regionFilter == s.regionFilter
    ensures outcome.Fetched? ==> t.countries == outcome.data && t.error == s.error
    ensures outcome.FetchFailed? ==> t.countries == s.countries && t.error == Some(FetchErrorMessage)
  {
    match outcome
    case Fetched(data) => s.(countries := data, loading := false)
    case FetchFailed => s.(error := Some(FetchErrorMessage), loading := false)
  }

  /** Typing in the search box replaces the query and nothing else. */
  function SetSearchQuery(s: State, query: string): (t: State)
    ensures t.searchQuery == query
    ensures t.countries == s.countries && t.regionFilter == s.regionFilter
    ensures t.loading == s.loading && t.error == s.error
  {
    s.(searchQuery := query)
  }

  /** Choosing a region in the selector replaces the region filter and nothing else. */
  function SetRegionFilter(s: State, region: string): (t: State)
    ensures t.regionFilter == region
    ensures t.countries == s.countries && t.searchQuery == s.searchQuery
    ensures t.loading == s.loading && t.error == s.error
  {
    s.(regionFilter := region)
  }

  function StatusOf(s: State): Status {
    if s.loading then Pending else if ErrorSet(s.error) then Failed else Ready
  }

  /** One card of the grid, keyed by `cca3`. */
  function CardOf(c: Country): (card: Card)
    ensures card.key == c.cca3 && card.name == c.name && card.region == c.region
    ensures card.flag == c.flag
    ensures card.capital == CapitalCell(c.capital)
  {
    Card(c.cca3, c.flag, c.name, c.region, CapitalCell(c.capital))
  }

  function Cards(countries: seq<Country>): (cards: seq<Card>)
    ensures |cards| == |countries|
    ensures forall i :: 0 <= i < |countries| ==> cards[i] == CardOf(countries[i])
  {
    seq(|countries|, i requires 0 <= i < |countries| => CardOf(countries[i]))
  }

  /**
   The render: the loading text first, then the error text, then the grid of
   visible countries. The grid never has more cards than there are fetched
   countries, and with no filter it has one card for each.
   */
  function Render(s: State): (v: View)
    ensures s.loading ==> v == LoadingView
    ensures v.ErrorView? ==> v.message != "" && s.error == Some(v.message)
    ensures v.GridView? ==> |v.cards| <= |s.countries|
    ensures v.GridView? && s.searchQuery == "" && s.regionFilter == "" ==> |v.cards| == |s.countries|
  {
    NoFilterShowsAll(s.countries);
    if s.loading then LoadingView
    else if ErrorSet(s.error) then ErrorView(s.error.value)
    else GridView(Cards(Visible(s.countries, s.searchQuery, s.regionFilter)))
  }

  /**
   The states a session can reach while the fetch settles at most once:
   countries arrive only with a success, the error is only ever the fixed
   message, and a failed session has no countries.
   */
  ghost predicate Consistent(s: State) {
    && (s.loading ==> s.countries == [] && s.error.None?)
    && (s.error.Some? ==> s.error == Some(FetchErrorMessage) && s.countries == [] && !s.loading)
  }

  /** Loading wins over an error that is already set. */
  lemma LoadingHidesError(s: State)
    requires s.loading && ErrorSet(s.error)
    ensures Render(s) == LoadingView
  {
  }

  /** The filter inputs only affect the grid: while loading or failed the view ignores them. */
  lemma FiltersOnlyAffectGrid(s: State, query: string, region: string)
    requires StatusOf(s) != Ready
    ensures Render(SetRegionFilter(SetSearchQuery(s, query), region)) == Render(s)
  {
  }

  /** Editing the filters never changes the fetched data or the load status. */
  lemma FiltersKeepStatus(s: State, query: string, region: string)
    ensures StatusOf(SetSearchQuery(s, query)) == StatusOf(s)
    ensures StatusOf(SetRegionFilter(s, region)) == StatusOf(s)
    ensures SetSearchQuery(s, query).countries == s.countries
    ensures SetRegionFilter(s, region).countries == s.countries
  {
  }

  /** The initial state is consistent and renders the loading text. */
  lemma InitialLoading()
    ensures Consistent(Initial())
    ensures StatusOf(Initial()) == Pending && Render(Initial()) == LoadingView
  {
  }

  /** Consistency is kept by the filter inputs, and by the fetch settling while still loading. */
  lemma StepsKeepConsistent(s: State, outcome: FetchOutcome, query: string, region: string)
    requires Consistent(s)
    ensures Consistent(SetSearchQuery(s, query))
    ensures Consistent(SetRegionFilter(s, region))
    ensures s.loading ==> Consistent(Resolve(s, outcome))
  {
  }

  /**
   A successful fetch from a loading, consistent state leaves the page ready,
   with the fetched data and no error, showing one card per visible country
   in fetch order.
   */
  lemma SuccessShowsGrid(s: State, data: seq<Country>)
    requires Consistent(s) && s.loading
    ensures Resolve(s, Fetched(data)).countries == data
    ensures Resolve(s, Fetched(data)).error.None?
    ensures StatusOf(Resolve(s, Fetched(data))) == Ready
    ensures Render(Resolve(s, Fetched(data)))
         == GridView(Cards(Visible(data, s.searchQuery, s.regionFilter)))
  {
  }

  /** A failed fetch from a loading, consistent state shows only the fixed message, with no countries. */
  lemma FailureShowsMessage(s: State)
    requires Consistent(s) && s.loading
    ensures Resolve(s, FetchFailed).countries == []
    ensures StatusOf(Resolve(s, FetchFailed)) == Failed
    ensures Render(Resolve(s, FetchFailed)) == ErrorView(FetchErrorMessage)
  {
  }

  /**
   A failure followed by a success (the effect running twice) keeps the error:
   the data is stored, yet the error view is shown.
   */
  lemma SuccessAfterFailureKeepsError(s: State, data: seq<Country>)
    ensures Resolve(Resolve(s, FetchFailed), Fetched(data)).countries == data
    ensures Render(Resolve(Resolve(s, FetchFailed), Fetched(data))) == ErrorView(FetchErrorMessage)
  {
  }

  /** The grid shows exactly the visible countries, card by card, in order. */
  lemma GridShowsVisible(s: State)
    requires StatusOf(s) == Ready
    ensures Render(s).GridView?
    ensures |Render(s).cards| == |Visible(s.countries, s.searchQuery, s.regionFilter)|
    ensures forall i :: 0 <= i < |Render(s).cards| ==>
              Render(s).cards[i].name == Visible(s.countries, s.searchQuery, s.regionFilter)[i].name
  {
  }

  /** Everything that changes the state of a session. */
  datatype Event = Settled(outcome: FetchOutcome) | SearchTyped(query: string) | RegionChosen(region: string)

  function Step(s: State, e: Event): State {
    match e
    case Settled(outcome) => Resolve(s, outcome)
    case SearchTyped(query) => SetSearchQuery(s, query)
    case RegionChosen(region) => SetRegionFilter(s, region)
  }

  /** The state after the events, in order, starting from `s`. */
  function Run(s: State, events: seq<Event>): State
    decreases |events|
  {
    if events == [] then s else Run(Step(s, events[0]), events[1..])
  }

  /** How many times the fetch settles among the events. */
  function SettleCount(events: seq<Event>): (n: nat)
    ensures n <= |events|
    ensures n == 0 <==> forall i :: 0 <= i < |events| ==> !events[i].Settled?
  {
    if events == [] then 0
    else (if events[0].Settled? then 1 else 0) + SettleCount(events[1..])
  }

  /**
   Any session in which the fetch settles at most once, and not after it has
   already settled, stays consistent.
   */
  lemma {:induction false} RunKeepsConsistent(s: State, events: seq<Event>)
    requires Consistent(s)
    requires SettleCount(events) <= (if s.loading then 1 else 0)
    ensures Consistent(Run(s, events))
    decreases |events|
  {
    if events != [] {
      match events[0] {
        case Settled(outcome) =>
          StepsKeepConsistent(s, outcome, s.searchQuery, s.regionFilter);
        case SearchTyped(query) =>
          StepsKeepConsistent(s, FetchFailed, query, s.regionFilter);
        case RegionChosen(region) =>
          StepsKeepConsistent(s, FetchFailed, s.searchQuery, region);
      }
      RunKeepsConsistent(Step(s, events[0]), events[1..]);
    }
  }

  /** Filter edits alone never change the fetched data, `loading` or `error`, so never the status. */
  lemma {:induction false} FilterEditsKeepStatus(s: State, events: seq<Event>)
    requires SettleCount(events) == 0
    ensures StatusOf(Run(s, events)) == StatusOf(s)
    ensures Run(s, events).countries == s.countries
    ensures Run(s, events).loading == s.loading && Run(s, events).error == s.error
    decreases |events|
  {
    if events != [] {
      assert !events[0].Settled?;
      FilterEditsKeepStatus(Step(s, events[0]), events[1..]);
    }
  }

  /** The outcome of the first settling among the events, if any. */
  function SettledOutcome(events: seq<Event>): (o: Option<FetchOutcome>)
    ensures o.None? <==> SettleCount(events) == 0
  {
    if events == [] then None
    else if events[0].Settled? then Some(events[0].outcome)
    else SettledOutcome(events[1..])
  }

  /**
   The state at the end of a session that starts loading and in which the
   fetch settles at most once: still loading while nothing has settled; after
   a failure, the fixed message and no countries; after a success, the data
   and no error.
   */
  lemma {:induction false} SessionState(s: State, events: seq<Event>)
    requires Consistent(s) && s.loading
    requires SettleCount(events) <= 1
    ensures Run(s, events).loading <==> SettledOutcome(events).None?
    ensures SettledOutcome(events) == Some(FetchFailed) ==>
              Run(s, events).error == Some(FetchErrorMessage) && Run(s, events).countries == []
    ensures SettledOutcome(events).Some? && SettledOutcome(events).value.Fetched? ==>
              Run(s, events).error.None? && Run(s, events).countries == SettledOutcome(events).value.data
    decreases |events|
  {
    if events != [] {
      var e := events[0];
      if e.Settled? {
        assert SettleCount(events[1..]) == 0;
        FilterEditsKeepStatus(Resolve(s, e.outcome), events[1..]);
      } else {
        StepsKeepConsistent(s, FetchFailed,
                            if e.SearchTyped? then e.query else s.searchQuery,
                            if e.RegionChosen? then e.region else s.regionFilter);
        SessionState(Step(s, e), events[1..]);
      }
    }
  }

  /**
   Which view a session shows, starting from a loading state, when the fetch
   settles at most once: the loading text exactly while nothing has settled,
   the fixed message exactly when the fetch failed, and the grid exactly when
   it succeeded. The status moves from loading to one of the other two and
   stays there.
   */
  lemma SessionView(s: State, events: seq<Event>)
    requires Consistent(s) && s.loading
    requires SettleCount(events) <= 1
    ensures Render(Run(s, events)) == LoadingView <==> SettledOutcome(events).None?
    ensures Render(Run(s, events)) == ErrorView(FetchErrorMessage) <==> SettledOutcome(events) == Some(FetchFailed)
    ensures Render(Run(s, events)).GridView? <==> SettledOutcome(events).Some? && SettledOutcome(events).value.Fetched?
  {
    SessionState(s, events);
  }

  /**
   After a successful fetch in such a session, the grid holds the cards of the
   fetched data's countries that pass the filters in force at the end.
   */
  lemma SessionGrid(s: State, events: seq<Event>, data: seq<Country>)
    requires Consistent(s) && s.loading
    requires SettleCount(events) <= 1
    requires SettledOutcome(events) == Some(Fetched(data))
    ensures Render(Run(s, events)) == GridView(Cards(Visible(data, Run(s, events).searchQuery, Run(s, events).regionFilter)))
  {
    SessionState(s, events);
  }

  /** Once the fetch has settled at least once in a session, the page is no longer loading. */
  lemma {:induction false} SettledSessionNotLoading(s: State, events: seq<Event>)
    requires SettleCount(events) >= 1
    ensures !Run(s, events).loading
    decreases |events|
  {
    var e := events[0];
    if e.Settled? {
      SettledLoadingStaysOff(Step(s, e), events[1..]);
    } else {
      SettledSessionNotLoading(Step(s, e), events[1..]);
    }
  }

  /** `loading` never becomes true again once it is false. */
  lemma {:induction false} SettledLoadingStaysOff(s: State, events: seq<Event>)
    requires !s.loading
    ensures !Run(s, events).loading
    decreases |events|
  {
    if events != [] {
      SettledLoadingStaysOff(Step(s, events[0]), events[1..]);
    }
  }
}
