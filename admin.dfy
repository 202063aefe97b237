/** The search box of the admin panel. */
module Admin {
  import opened Lists
  import opened Text
  import opened Domain

  /** The filter lambda of `AdminScreen`: the query occurs in the title or the description, ignoring case. */
  predicate SearchMatches(inc: Incident, query: string) {
    Contains(inc.title, query, true) || Contains(inc.description, query, true)
  }

  function MatchesQuery(query: string): Incident -> bool {
    inc => SearchMatches(inc, query)
  }

  /** `filteredIncidents`: the incidents the admin list shows for a query. */
  function SearchResults(incidents: seq<Incident>, query: string): (r: seq<Incident>)
    ensures |r| <= |incidents|
    ensures forall inc | inc in r :: inc in incidents && SearchMatches(inc, query)
  {
    Keep(incidents, MatchesQuery(query))
  }

  /**
   * The admin list keeps, in order and as often as they occur, exactly the
   * incidents whose title or description has a case-insensitive occurrence
   * of the query at some position.
   */
  lemma SearchResultsExactly(incidents: seq<Incident>, query: string, inc: Incident)
    ensures IsSubsequence(SearchResults(incidents, query), incidents)
    ensures multiset(SearchResults(incidents, query))[inc] ==
      if SearchMatches(inc, query) then multiset(incidents)[inc] else 0
    ensures inc in SearchResults(incidents, query) <==>
      && inc in incidents
      && ((exists i: nat :: i + |query| <= |inc.title| && MatchesAt(inc.title, query, i, true))
       || (exists i: nat :: i + |query| <= |inc.description| && MatchesAt(inc.description, query, i, true)))
  {
    KeepIsSubsequence(incidents, MatchesQuery(query));
    KeepCount(incidents, MatchesQuery(query), inc);
    KeepMember(incidents, MatchesQuery(query), inc);
  }

  /** The empty query (the panel's initial state) lists every incident. */
  lemma SearchEmptyQuery(incidents: seq<Incident>)
    ensures SearchResults(incidents, "") == incidents
  {
    forall i | 0 <= i < |incidents| ensures MatchesQuery("")(incidents[i]) {
      ContainsEmpty(incidents[i].title, true);
    }
    KeepAll(incidents, MatchesQuery(""));
  }

  /** The search ignores ASCII case: "WIFI" finds a title "Kampüs wifi arızası". */
  lemma SearchIgnoresCase(now: Long)
    ensures
      var inc := Incident("7", "TECH", "Kampüs wifi arızası", "", "OPEN", now, "", DefaultLocation);
      SearchMatches(inc, "WIFI")
  {
    var title := "Kampüs wifi arızası";
    assert MatchesAt(title, "WIFI", 7, true);
  }
}
