/**
 * The profile search screen: each change of the query replaces the scheduled search,
 * and the search that fires uses the latest query.
 */
module Search {
  import opened Wrappers
  import opened Text
  import opened Records
  import opened Api

  class SearchScreen {
    const api: Backend
    var query: string
    var results: seq<Profile>
    var loading: bool
    /** The query of the scheduled run that has not fired yet, if any. */
    var pending: Option<string>

    /** A scheduled run is always for the query as it stands. */
    ghost predicate Valid()
      reads this
    {
      pending.Some? ==> pending.value == query
    }

    /** The effect also runs on mount, so a run for the empty query is scheduled. */
    constructor (api: Backend)
      ensures Valid()
      ensures this.api == api && query == "" && results == [] && !loading && pending == Some("")
    {
      this.api := api;
      query := "";
      results := [];
      loading := false;
      pending := Some("");
    }

    /** Typing: the query changes, and the run scheduled for the old one is cancelled
        in favour of one for the new query. */
    method SetQuery(q: string)
      modifies this
      ensures Valid()
      ensures query == q && pending == Some(q)
      ensures results == old(results) && loading == old(loading)
    {
      query := q;
      pending := Some(q);
    }

    /** The scheduled run fires. An empty query empties the results without a request
        and leaves loading alone; any other query searches for its trimmed text, so a
        query of white space only finds nothing. A failed search, one whose text
        breaks the server's filter included, keeps the results,
        and loading ends after every search that was started. */
    method Fire(up: bool)
      requires Valid() && pending.Some?
      modifies this
      ensures Valid() && pending == None && query == old(query)
      ensures query == [] ==> results == [] && loading == old(loading)
      ensures query != [] ==> !loading
      ensures query != [] && Trim(query) == [] ==> results == []
      ensures Trim(query) != [] && !up ==> results == old(results)
      ensures Trim(query) != [] && BreaksOrFilter(Trim(query)) ==> results == old(results)
      ensures Trim(query) != [] && up && !BreaksOrFilter(Trim(query)) ==>
                results <= Matches(api.profiles, Trim(query))
                && |results| == if |Matches(api.profiles, Trim(query))| < SearchLimit
                                then |Matches(api.profiles, Trim(query))| else SearchLimit
    {
      var q := pending.value;
      pending := None;
      if q == [] {
        results := [];
        return;
      }
      loading := true;
      var data := api.SearchProfiles(Trim(q), up);
      if data.Ok? {
        results := data.value;
      }
      loading := false;
    }

    /** Two edits before the timer fires: only the second query is searched for. */
    method RetypeThenFire(first: string, second: string, up: bool)
      modifies this
      ensures Valid() && query == second && pending == None
      ensures second == [] ==> results == []
      ensures Trim(second) != [] && up && !BreaksOrFilter(Trim(second)) ==>
                results <= Matches(api.profiles, Trim(second))
      ensures Trim(second) != [] && BreaksOrFilter(Trim(second)) ==> results == old(results)
    {
      SetQuery(first);
      SetQuery(second);
      Fire(up);
    }
  }
}
