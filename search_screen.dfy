/** The search screen: a query cell whose changes start a debounced catalog
    search, the recent-searches list mirrored from the store, and the two
    handlers that write that list. */
module SearchScreen {
  import opened Lists
  import opened Text
  import opened Catalog
  import opened Storage

  /** The results the screen settles on for a query: nothing for a blank
      query, otherwise the catalog search on the query as typed (untrimmed). */
  function ResultsFor(query: string): (r: seq<Product>)
    ensures Subsequence(r, MockProducts)
  {
    if Trim(query) == "" then [] else SearchProducts(query)
  }

  /** A blank query settles on no results; any other query on exactly the
      catalog products whose name or brand contains it, case aside. */
  lemma ResultsForMeaning(query: string)
    ensures IsBlank(query) ==> ResultsFor(query) == []
    ensures forall p :: p in ResultsFor(query) <==> !IsBlank(query) && p in MockProducts && Matches(p, Lower(query))
  {
    TrimEmptyIffBlank(query);
  }

  /** The blank guard is what stops the empty query from listing the whole
      catalog: the catalog search alone would return everything. */
  lemma BlankGuardMatters()
    ensures ResultsFor("") == [] && SearchProducts("") == MockProducts
    ensures ResultsFor("   ") == []
  {
    SearchEmptyQuery();
    TrimEmptyIffBlank("   ");
  }

  class SearchView {
    const store: Store
    var query: string
    var results: seq<Product>
    var recentSearches: seq<string>
    var isSearching: bool

    /** The displayed results belong to the current query unless a search is
        pending, and a search is pending only for a query that is not blank. */
    ghost predicate Settled()
      reads this`query, this`results, this`isSearching
    {
      (isSearching ==> Trim(query) != "") && (!isSearching ==> results == ResultsFor(query))
    }

    /** The recent-searches cell shows the stored list. */
    ghost predicate Synced()
      reads this`recentSearches, store`searches
    {
      recentSearches == store.SearchesGet()
    }

    /** Mounting: empty query and results, the recent searches read from the
        store (the query effect's first run finds a blank query). */
    constructor (store: Store)
      ensures this.store == store
      ensures query == "" && results == [] && !isSearching
      ensures recentSearches == store.SearchesGet()
      ensures Settled() && Synced()
    {
      this.store := store;
      query := "";
      results := [];
      recentSearches := store.SearchesGet();
      isSearching := false;
    }

    /** Typing into the search bar. When the query changes, the effect runs:
        a blank query clears the results at once, any other query starts a
        search (a pending one is cancelled and restarted). */
    method SetQuery(q: string)
      modifies this`query, this`results, this`isSearching
      ensures query == q
      ensures q == old(query) ==> results == old(results) && isSearching == old(isSearching)
      ensures q != old(query) && Trim(q) == "" ==> results == [] && !isSearching
      ensures q != old(query) && Trim(q) != "" ==> results == old(results) && isSearching
      ensures old(Settled()) ==> Settled()
    {
      var changed := q != query;
      query := q;
      if changed {
        if Trim(q) != "" {
          isSearching := true;
        } else {
          results := [];
          isSearching := false;
        }
      }
    }

    /** The debounce timer of a pending search fires: the results become the
        catalog search on the current query. */
    method SearchTimerFires()
      requires isSearching
      modifies this`results, this`isSearching
      ensures results == SearchProducts(query) && !isSearching
      ensures old(Settled()) ==> Settled()
    {
      results := SearchProducts(query);
      isSearching := false;
    }

    /** The storage half of `handleSearch`: the query is promoted in the
        stored searches and the cell re-reads the store. */
    method RecordSearch(t: string)
      modifies this`recentSearches, store`searches
      ensures store.searches == Stored(Promote(old(store.SearchesGet()), t, SearchesCap))
      ensures recentSearches == store.SearchesGet() && Synced()
      ensures |recentSearches| > 0 && recentSearches[0] == t && |recentSearches| <= SearchesCap
      ensures old(store.Tidy()) ==> store.Tidy()
    {
      store.SearchesAdd(t);
      recentSearches := store.SearchesGet();
    }

    /** `handleSearch`: a blank input does nothing; otherwise the trimmed
        query is recorded and the query is set to the input as given. */
    method HandleSearch(s: string)
      modifies this`query, this`results, this`isSearching, this`recentSearches, store`searches
      ensures Trim(s) == "" ==> query == old(query) && results == old(results) && isSearching == old(isSearching)
      ensures Trim(s) == "" ==> recentSearches == old(recentSearches) && store.searches == old(store.searches)
      ensures Trim(s) != "" ==> store.searches == Stored(Promote(old(store.SearchesGet()), Trim(s), SearchesCap))
      ensures Trim(s) != "" ==> recentSearches == store.SearchesGet()
      ensures Trim(s) != "" ==> |recentSearches| > 0 && recentSearches[0] == Trim(s)
      ensures Trim(s) != "" ==> |recentSearches| <= SearchesCap && query == s
      ensures old(Settled()) ==> Settled()
      ensures old(Synced()) ==> Synced()
      ensures old(store.Tidy()) ==> store.Tidy()
    {
      var trimmed := Trim(s);
      if trimmed != "" {
        RecordSearch(trimmed);
        SetQuery(s);
      }
    }

    /** `clearRecentSearch`: the cell's own list, minus `x`, is written to the
        searches key and kept in the cell. */
    method ClearRecentSearch(x: string)
      modifies this`recentSearches, store`searches
      ensures recentSearches == Without(old(recentSearches), x)
      ensures x !in recentSearches && Subsequence(recentSearches, old(recentSearches))
      ensures store.searches == Stored(recentSearches) && Synced()
    {
      var updated := Without(recentSearches, x);
      store.searches := Stored(updated);
      recentSearches := updated;
    }
  }

  /** When the cell is synced, clearing an entry from the screen is removing
      it from the stored list: duplicate-freedom and the cap are kept. */
  lemma ClearKeepsStoredListTidy(stored: seq<string>, x: string)
    requires NoDup(stored) && |stored| <= SearchesCap
    ensures NoDup(Without(stored, x)) && |Without(stored, x)| <= SearchesCap
    ensures forall y :: y in Without(stored, x) <==> y in stored && y != x
  {
    WithoutNoDup(stored, x);
  }
}
