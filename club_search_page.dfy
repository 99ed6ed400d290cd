/** The club search page (`ClubSearchPage`): the first four clubs the search
    request returns, the selection, and the route to the join page. */
module ClubSearchPage {
  import opened Wrappers
  import opened Js
  import Lists
  import opened Ui

  const MaxResults := 4

  /** `searchResults`: nothing when the request has returned nothing;
      otherwise its first four clubs, in the order returned. */
  function SearchResults(clubs: Option<seq<Json>>): (r: seq<Json>)
    ensures clubs.None? ==> r == []
    ensures |r| == if clubs.None? then 0 else if |clubs.value| < MaxResults then |clubs.value| else MaxResults
    ensures clubs.Some? ==> r == clubs.value[..|r|]
  {
    if clubs.None? || |clubs.value| == 0 then [] else Lists.Take(clubs.value, MaxResults)
  }

  /** `${club.name} ${club.university}`. */
  function Label(club: Json): string {
    ToStr(Prop(club, "name")) + " " + ToStr(Prop(club, "university"))
  }

  /** `/club/join/${selectedClub.id}`. */
  function JoinRoute(club: Json): string {
    "/club/join/" + ToStr(Prop(club, "id"))
  }

  class Page {
    var query: string
    var selected: Option<Json>

    constructor ()
      ensures query == "" && selected == None
    {
      query := "";
      selected := None;
    }

    /** `handleSearchChange`: a new query (which starts a new search) forgets
        the selection. */
    method SearchChange(value: string)
      modifies this
      ensures query == value && selected == None
    {
      query := value;
      selected := None;
    }

    /** `handleResultClick`; a listed result is never null. */
    method ResultClick(club: Json)
      requires club != JNull
      modifies this
      ensures selected == Some(club) && query == Label(club)
    {
      selected := Some(club);
      query := Label(club);
    }

    /** `isNextButtonDisabled`. */
    predicate NextDisabled()
      reads this
    {
      !Truthy(selected)
    }

    /** `handleNext`: the join page of the selected club, or nothing. */
    method Next() returns (effect: Option<Effect>)
      ensures effect.Some? <==> !NextDisabled()
      ensures effect.Some? ==> effect.value == Navigate(JoinRoute(selected.value))
    {
      effect := if Truthy(selected) then Some(Navigate(JoinRoute(selected.value))) else None;
    }
  }
}
