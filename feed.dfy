/**
 * The feed screen: the three AND-ed filters over the live incident list and
 * the filter chips that set them.
 */
module Feed {
  import opened Wrappers
  import opened Lists
  import opened Domain

  /** The filter lambda of `FeedScreen`: type, status and followed-only, all three required. */
  predicate Matches(inc: Incident, filterType: Option<IncidentType>, filterStatus: Option<IncidentStatus>,
                    onlyFollowed: bool, followed: seq<string>)
  {
    && (filterType == None || TypeOf(inc) == filterType.value)
    && (filterStatus == None || StatusOf(inc) == filterStatus.value)
    && (if onlyFollowed then inc.id in followed else true)
  }

  function MatchesFilters(filterType: Option<IncidentType>, filterStatus: Option<IncidentStatus>,
                          onlyFollowed: bool, followed: seq<string>): Incident -> bool
  {
    inc => Matches(inc, filterType, filterStatus, onlyFollowed, followed)
  }

  /** `filtered`: the incidents the feed shows. */
  function Visible(incidents: seq<Incident>, filterType: Option<IncidentType>, filterStatus: Option<IncidentStatus>,
                   onlyFollowed: bool, user: User): (r: seq<Incident>)
    ensures |r| <= |incidents|
    ensures forall inc | inc in r :: inc in incidents && Matches(inc, filterType, filterStatus, onlyFollowed, user.followedIncidents)
  {
    Keep(incidents, MatchesFilters(filterType, filterStatus, onlyFollowed, user.followedIncidents))
  }

  /**
   * The feed is an order-preserving subsequence of the incident list, and an
   * incident is shown (as often as it occurs) exactly when the type filter
   * is off or equals its parsed type, the status filter is off or equals its
   * parsed status, and followed-only is off or the user follows its id.
   */
  lemma VisibleExactly(incidents: seq<Incident>, filterType: Option<IncidentType>, filterStatus: Option<IncidentStatus>,
                       onlyFollowed: bool, user: User, inc: Incident)
    ensures IsSubsequence(Visible(incidents, filterType, filterStatus, onlyFollowed, user), incidents)
    ensures multiset(Visible(incidents, filterType, filterStatus, onlyFollowed, user))[inc] ==
      if && (filterType == None || TypeOf(inc) == filterType.value)
         && (filterStatus == None || StatusOf(inc) == filterStatus.value)
         && (!onlyFollowed || inc.id in user.followedIncidents)
      then multiset(incidents)[inc] else 0
    ensures inc in Visible(incidents, filterType, filterStatus, onlyFollowed, user) <==>
      && inc in incidents
      && (filterType == None || TypeOf(inc) == filterType.value)
      && (filterStatus == None || StatusOf(inc) == filterStatus.value)
      && (!onlyFollowed || inc.id in user.followedIncidents)
  {
    var p := MatchesFilters(filterType, filterStatus, onlyFollowed, user.followedIncidents);
    KeepIsSubsequence(incidents, p);
    KeepCount(incidents, p, inc);
    KeepMember(incidents, p, inc);
  }

  /** With every filter off the feed is the whole list, unchanged. */
  lemma VisibleUnfiltered(incidents: seq<Incident>, user: User)
    ensures Visible(incidents, None, None, false, user) == incidents
  {
    KeepAll(incidents, MatchesFilters(None, None, false, user.followedIncidents));
  }

  /** Turning on a filter can only hide incidents: the type filter narrows the unfiltered feed. */
  lemma VisibleNarrowsByType(incidents: seq<Incident>, t: IncidentType, filterStatus: Option<IncidentStatus>,
                             onlyFollowed: bool, user: User, inc: Incident)
    ensures inc in Visible(incidents, Some(t), filterStatus, onlyFollowed, user) <==>
      inc in Visible(incidents, None, filterStatus, onlyFollowed, user) && TypeOf(inc) == t
  {
    KeepMember(incidents, MatchesFilters(Some(t), filterStatus, onlyFollowed, user.followedIncidents), inc);
    KeepMember(incidents, MatchesFilters(None, filterStatus, onlyFollowed, user.followedIncidents), inc);
  }

  /**
   * A filter chip of the single-select-with-toggle kind: clicking the active
   * value clears the filter, clicking any other value selects it.
   */
  function ToggleChoice<T(==)>(current: Option<T>, clicked: T): (r: Option<T>)
    ensures r == None <==> current == Some(clicked)
    ensures r != None ==> r == Some(clicked)
  {
    if current == Some(clicked) then None else Some(clicked)
  }

  /** Clicking the same chip twice, starting from any other state, clears the filter. */
  lemma ToggleChoiceTwice<T>(current: Option<T>, clicked: T)
    requires current != Some(clicked)
    ensures ToggleChoice(ToggleChoice(current, clicked), clicked) == None
  {
  }

  /** The local state of `FeedScreen` (its `remember` variables) and its chip handlers. */
  class FeedScreenState {
    var filterType: Option<IncidentType>
    var filterStatus: Option<IncidentStatus>
    var showOnlyFollowed: bool

    /** Every filter starts off. */
    constructor ()
      ensures filterType == None && filterStatus == None && !showOnlyFollowed
    {
      filterType := None;
      filterStatus := None;
      showOnlyFollowed := false;
    }

    /** "Takip Ettiklerim": negates followed-only. */
    method ClickFollowedChip()
      modifies this`showOnlyFollowed
      ensures showOnlyFollowed == !old(showOnlyFollowed)
    {
      showOnlyFollowed := !showOnlyFollowed;
    }

    /** A status chip. */
    method ClickStatusChip(s: IncidentStatus)
      modifies this`filterStatus
      ensures filterStatus == ToggleChoice(old(filterStatus), s)
    {
      filterStatus := if filterStatus == Some(s) then None else Some(s);
    }

    /** "Tüm Tipler": always clears the type filter. */
    method ClickAllTypesChip()
      modifies this`filterType
      ensures filterType == None
    {
      filterType := None;
    }

    /** A type chip. */
    method ClickTypeChip(t: IncidentType)
      modifies this`filterType
      ensures filterType == ToggleChoice(old(filterType), t)
    {
      filterType := if filterType == Some(t) then None else Some(t);
    }
  }

  /**
   * Two HEALTH/OPEN and TECH/RESOLVED incidents, a user following "2", and
   * the TECH and followed-only filters on: only incident "2" is shown.
   */
  lemma ScenarioTechFollowed(now: Long)
    ensures
      var first := Incident("1", "HEALTH", "", "", "OPEN", now, "", DefaultLocation);
      var second := Incident("2", "TECH", "", "", "RESOLVED", now, "", DefaultLocation);
      var user := User("u", "", "", UserRole, "", ["2"]);
      Visible([first, second], Some(Tech), None, true, user) == [second]
  {
    var first := Incident("1", "HEALTH", "", "", "OPEN", now, "", DefaultLocation);
    var second := Incident("2", "TECH", "", "", "RESOLVED", now, "", DefaultLocation);
    var user := User("u", "", "", UserRole, "", ["2"]);
    var p := MatchesFilters(Some(Tech), None, true, user.followedIncidents);
    assert !p(first);
    assert p(second);
    assert [first, second][1..] == [second];
    assert [second][1..] == [];
    assert Keep([second], p) == [second] + Keep([], p);
    assert Keep([first, second], p) == Keep([second], p);
  }
}
