/** The onboarding university step (`UniversityStep`): the search box, the
    result list it keeps (at most ten names) and the step's next button. */
module UniversityStep {
  import opened Wrappers
  import opened Text
  import opened Js
  import Lists
  import opened Ui
  import opened Universities

  const MaxResults := 10

  /** What the search effect computes: nothing for a blank query or an empty
      list; otherwise the first ten universities whose name contains the
      trimmed query, in list order. */
  function SearchResults(query: string, universities: seq<University>): (r: seq<University>)
    ensures IsBlank(query) || universities == [] ==> r == []
    ensures |r| <= MaxResults
    ensures !IsBlank(query) ==>
      var all := Matching(universities, query);
      |r| == (if |all| < MaxResults then |all| else MaxResults) && r == all[..|r|]
  {
    if IsBlank(query) || |universities| == 0 then []
    else Lists.Take(Matching(universities, query), MaxResults)
  }

  /** Every result is a listed university whose name contains the trimmed query. */
  lemma ResultsMatch(query: string, universities: seq<University>, i: nat)
    requires i < |SearchResults(query, universities)|
    ensures var u := SearchResults(query, universities)[i];
      u in universities && NameContains(u, query)
  {
    assert SearchResults(query, universities)[i] == Matching(universities, query)[i];
  }

  /** The draft fields the step reports. */
  function UniversityPatch(value: string): Obj {
    map["university" := JStr(value)]
  }

  /** The step's state after each render and the effects it triggers.
      `universities` is what the list request has delivered (`[]` until then). */
  class Step {
    var query: string
    var results: seq<University>
    var universities: seq<University>

    /** The list shown is empty or what the search effect computes. */
    predicate Valid()
      reads this
    {
      results == [] || results == SearchResults(query, universities)
    }

    /** Mounting with the draft's university (`data.university || ''`); the
        search effect then runs on an empty list. */
    constructor (university: Option<string>)
      ensures Valid()
      ensures query == university.GetOr("") && results == [] && universities == []
    {
      query := university.GetOr("");
      universities := [];
      results := SearchResults(university.GetOr(""), []);
    }

    /** The list request has finished: the search effect runs again. */
    method UniversitiesLoaded(data: seq<University>)
      modifies this
      ensures Valid()
      ensures universities == data && query == old(query) && results == SearchResults(query, data)
    {
      universities := data;
      results := SearchResults(query, universities);
    }

    /** `handleSearchChange`: the raw value becomes the query and the draft's
        university; the search effect runs when the query changed. */
    method SearchChange(value: string) returns (effect: Effect)
      requires Valid()
      modifies this
      ensures Valid()
      ensures query == value && universities == old(universities)
      ensures effect == Update(UniversityPatch(value))
      ensures results == if value != old(query) then SearchResults(value, universities) else old(results)
    {
      var changed := value != query;
      query := value;
      effect := Update(UniversityPatch(value));
      if changed {
        results := SearchResults(query, universities);
      }
    }

    /** `handleSelectUniversity`: the chosen name becomes the query and the
        draft's university and the list is cleared; but when the name differs
        from the query the search effect runs after that and fills the list again. */
    method SelectUniversity(u: University) returns (effect: Effect)
      requires Valid()
      modifies this
      ensures Valid()
      ensures query == u.name && universities == old(universities)
      ensures effect == Update(UniversityPatch(u.name))
      ensures results == if u.name != old(query) then SearchResults(u.name, universities) else []
    {
      var changed := u.name != query;
      query := u.name;
      effect := Update(UniversityPatch(u.name));
      results := [];
      if changed {
        results := SearchResults(query, universities);
      }
    }

    /** `isNextDisabled`. */
    predicate NextDisabled()
      reads this
    {
      IsBlank(query)
    }

    /** `handleNextClick`: the wizard advances exactly when the trimmed query
        is not empty. */
    method NextClick() returns (effect: Option<Effect>)
      ensures effect.Some? <==> !NextDisabled()
      ensures effect.Some? ==> effect.value == Advance
    {
      effect := if !IsBlank(query) then Some(Advance) else None;
    }
  }

  /** Choosing a listed university by a name other than the current query
      leaves the result list open: the search for that name finds it. */
  lemma {:induction false} SelectionListsAgain(universities: seq<University>, u: University)
    requires u in universities && !IsBlank(u.name)
    ensures SearchResults(u.name, universities) != []
  {
    OwnNameMatches(universities, u);
    assert |Matching(universities, u.name)| > 0;
  }
}
