/** The university editor of the profile page (`UniversityFieldEditor`): the
    same search as onboarding but uncapped, reporting every change to its
    parent, and taking the initial value from its prop only once. */
module UniversityFieldEditor {
  import opened Wrappers
  import opened Text
  import opened Ui
  import opened Universities

  /** What the search effect computes: nothing for a blank query or an empty
      list; otherwise every university whose name contains the trimmed query,
      in list order. */
  function SearchResults(query: string, universities: seq<University>): (r: seq<University>)
    ensures IsBlank(query) || universities == [] ==> r == []
    ensures !IsBlank(query) ==> r == Matching(universities, query)
  {
    if IsBlank(query) || |universities| == 0 then [] else Matching(universities, query)
  }

  /** `value` is truthy. */
  predicate Given(value: Option<string>) {
    value.Some? && value.value != ""
  }

  class Editor {
    var query: string
    var results: seq<University>
    var universities: seq<University>
    var initialized: bool

    predicate Valid()
      reads this
    {
      results == [] || results == SearchResults(query, universities)
    }

    /** Mounting with the prop `value`: the query starts as `value || ''`, and
        the initialising effect marks a truthy value as taken. */
    constructor (value: Option<string>)
      ensures Valid()
      ensures query == value.GetOr("") && results == [] && universities == []
      ensures initialized == Given(value)
    {
      query := value.GetOr("");
      results := [];
      universities := [];
      initialized := Given(value);
    }

    /** The parent passes a new `value`: it is copied into the query only if
        no truthy value has been taken before. */
    method ValueChanged(value: Option<string>)
      requires Valid()
      modifies this
      ensures Valid() && universities == old(universities)
      ensures old(initialized) || !Given(value) ==>
        query == old(query) && results == old(results) && initialized == old(initialized)
      ensures !old(initialized) && Given(value) ==>
        && query == value.value && initialized
        && results == if value.value != old(query) then SearchResults(query, universities) else old(results)
    {
      if !initialized && Given(value) {
        var changed := value.value != query;
        query := value.value;
        initialized := true;
        if changed {
          results := SearchResults(query, universities);
        }
      }
    }

    /** The list request has finished: the search effect runs again. */
    method UniversitiesLoaded(data: seq<University>)
      modifies this
      ensures Valid()
      ensures universities == data && query == old(query) && initialized == old(initialized)
      ensures results == SearchResults(query, data)
    {
      universities := data;
      results := SearchResults(query, universities);
    }

    /** `handleSearchChange`: the query changes and the parent hears the same value. */
    method SearchChange(value: string) returns (effect: Effect)
      requires Valid()
      modifies this
      ensures Valid()
      ensures query == value && effect == Report(value)
      ensures universities == old(universities) && initialized == old(initialized)
      ensures results == if value != old(query) then SearchResults(value, universities) else old(results)
    {
      var changed := value != query;
      query := value;
      effect := Report(value);
      if changed {
        results := SearchResults(query, universities);
      }
    }

    /** `handleSelectUniversity`: the parent hears the name, which becomes the
        query, and the list is cleared, to be filled again by the search
        effect when the name differs from the query. */
    method SelectUniversity(u: University) returns (effect: Effect)
      requires Valid()
      modifies this
      ensures Valid()
      ensures query == u.name && effect == Report(u.name)
      ensures universities == old(universities) && initialized == old(initialized)
      ensures results == if u.name != old(query) then SearchResults(u.name, universities) else []
    {
      var changed := u.name != query;
      effect := Report(u.name);
      query := u.name;
      results := [];
      if changed {
        results := SearchResults(query, universities);
      }
    }
  }

  /** With no cap, every matching university is offered, however many there are. */
  lemma {:induction false} EveryMatchOffered(universities: seq<University>, query: string, u: University)
    requires !IsBlank(query) && u in universities && NameContains(u, query)
    ensures u in SearchResults(query, universities)
  {
    var i :| 0 <= i < |universities| && universities[i] == u;
  }
}
