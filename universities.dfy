/** The university list the onboarding step and the profile editor search: a
    record per university and the substring test both screens apply. */
module Universities {
  import opened Text
  import Lists

  /** A record of the bundled university list; its other fields play no part here. */
  datatype University = University(name: string)

  /** `uni.name.includes(query.trim())`. */
  predicate NameContains(u: University, query: string) {
    Contains(u.name, Trim(query))
  }

  /** `universities.filter(...)`: every university whose name contains the
      trimmed query, in list order. */
  function Matching(universities: seq<University>, query: string): seq<University> {
    Lists.Filter(universities, u => NameContains(u, query))
  }

  /** The trimmed text is part of the text. */
  lemma ContainsOwnTrim(s: string)
    ensures Contains(s, Trim(s))
  {
    var i, _ := TrimBounds(s);
    assert OccursAt(s, Trim(s), i);
  }

  /** Searching for a listed university's own name finds it. */
  lemma OwnNameMatches(universities: seq<University>, u: University)
    requires u in universities
    ensures u in Matching(universities, u.name)
  {
    ContainsOwnTrim(u.name);
  }
}
