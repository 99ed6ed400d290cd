/** The club search panel (`ClubSearch`): a filter over the bundled club list
    capped at four results, and the query and selection it keeps. */
module ClubSearch {
  import opened Wrappers
  import opened Text
  import Lists
  import opened Ui

  const MaxResults := 4

  /** A record of the bundled club list; its other fields play no part here. */
  datatype Club = Club(name: string, university: string)

  /** `${club.name} ${club.university}`: the text a chosen result puts in the box. */
  function Label(club: Club): string {
    club.name + " " + club.university
  }

  /** The club's name, its university or its label contains the lowered
      query; `lower` is `toLowerCase`. */
  predicate Matches(club: Club, loweredQuery: string, lower: string -> string) {
    Contains(lower(club.name), loweredQuery)
    || Contains(lower(club.university), loweredQuery)
    || Contains(lower(Label(club)), loweredQuery)
  }

  /** Every club that matches, in list order. */
  function Matching(clubs: seq<Club>, query: string, lower: string -> string): seq<Club> {
    Lists.Filter(clubs, c => Matches(c, lower(query), lower))
  }

  /** `searchResults`: nothing for a blank query or before the list has
      loaded; otherwise the first four matching clubs. The query is lowered
      but not trimmed for the match. */
  function SearchResults(query: string, clubs: Option<seq<Club>>, lower: string -> string): (r: seq<Club>)
    ensures IsBlank(query) || clubs.None? ==> r == []
    ensures |r| <= MaxResults
    ensures !IsBlank(query) && clubs.Some? ==>
      var all := Matching(clubs.value, query, lower);
      |r| == (if |all| < MaxResults then |all| else MaxResults) && r == all[..|r|]
  {
    if IsBlank(query) || clubs.None? then []
    else Lists.Take(Matching(clubs.value, query, lower), MaxResults)
  }

  /** Every result is a listed club that matches the query. */
  lemma ResultsMatch(query: string, clubs: seq<Club>, lower: string -> string, i: nat)
    requires i < |SearchResults(query, Some(clubs), lower)|
    ensures var c := SearchResults(query, Some(clubs), lower)[i];
      c in clubs && Matches(c, lower(query), lower)
  {
    var all := Matching(clubs, query, lower);
    assert SearchResults(query, Some(clubs), lower)[i] == all[i];
  }

  /** A string contains itself. */
  lemma ContainsSelf(s: string)
    ensures Contains(s, s)
  {
    assert OccursAt(s, s, 0);
  }

  /** A chosen club matches the text it puts in the box. */
  lemma ChosenClubMatchesItsLabel(club: Club, lower: string -> string)
    ensures Matches(club, lower(Label(club)), lower)
  {
    ContainsSelf(lower(Label(club)));
  }

  /** The panel's state; `clubs` is what the club list request has delivered
      (`None` until then). */
  class Panel {
    var query: string
    var selected: Option<Club>
    var clubs: Option<seq<Club>>

    constructor ()
      ensures query == "" && selected == None && clubs == None
    {
      query := "";
      selected := None;
      clubs := None;
    }

    /** The results shown for the current state. */
    function Results(lower: string -> string): (r: seq<Club>)
      reads this
      ensures |r| <= MaxResults
      ensures IsBlank(query) || clubs.None? ==> r == []
      ensures !IsBlank(query) && clubs.Some? ==>
        var all := Matching(clubs.value, query, lower);
        |r| == (if |all| < MaxResults then |all| else MaxResults) && r == all[..|r|]
    {
      SearchResults(query, clubs, lower)
    }

    /** The list request has finished with `data`. */
    method ClubsLoaded(data: seq<Club>)
      modifies this
      ensures clubs == Some(data) && query == old(query) && selected == old(selected)
    {
      clubs := Some(data);
    }

    /** `handleSearchChange`: a new query forgets the selection. */
    method SearchChange(value: string)
      modifies this
      ensures query == value && selected == None && clubs == old(clubs)
    {
      query := value;
      selected := None;
    }

    /** `handleResultClick`: the club becomes the selection and its label the query. */
    method ResultClick(club: Club)
      modifies this
      ensures selected == Some(club) && query == Label(club) && clubs == old(clubs)
    {
      selected := Some(club);
      query := Label(club);
    }

    /** `isNextButtonDisabled`. */
    predicate NextDisabled()
      reads this
    {
      selected.None?
    }

    /** `handleNext`: with a selection the panel goes back to the previous
        page; without one nothing happens. */
    method Next() returns (effect: Option<Effect>)
      ensures effect.Some? <==> !NextDisabled()
      ensures effect.Some? ==> effect.value == NavigateBack
    {
      effect := if selected.Some? then Some(NavigateBack) else None;
    }
  }
}
