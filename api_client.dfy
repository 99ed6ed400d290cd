/** The request layer: the base URL, the endpoint paths, the URL joiner and the
    two interceptors around every request. */
module ApiClient {
  import opened Wrappers
  import opened Text
  import opened Js

  const DefaultBaseUrl := "http://localhost:8080"
  const TimeoutMs := 10000
  const TokenKey := "accessToken"
  const LoginRoute := "/login"

  /** `USE_MOCK_DATA`: the build variable is exactly the string "true". */
  predicate UseMockData(envMock: Option<string>) {
    envMock == Some("true")
  }

  /** `API_BASE_URL`: relative URLs in mock mode; otherwise the configured base
      URL, or the local server when it is unset or empty. */
  function BaseUrl(mock: bool, envBase: Option<string>): (r: string)
    ensures mock ==> r == ""
    ensures !mock && envBase.Some? && envBase.value != "" ==> r == envBase.value
    ensures !mock && (envBase.None? || envBase.value == "") ==> r == DefaultBaseUrl
  {
    if mock then ""
    else if envBase.Some? && envBase.value != "" then envBase.value
    else DefaultBaseUrl
  }

  /** `getApiUrl`: absolute URLs unchanged; paths starting with '/' appended to
      the base; anything else joined to the base with a '/'. */
  function GetApiUrl(base: string, endpoint: string): (r: string)
    ensures StartsWith(endpoint, "http://") || StartsWith(endpoint, "https://") ==> r == endpoint
    ensures !StartsWith(endpoint, "http://") && !StartsWith(endpoint, "https://") && StartsWith(endpoint, "/")
      ==> r == base + endpoint
    ensures !StartsWith(endpoint, "http://") && !StartsWith(endpoint, "https://") && !StartsWith(endpoint, "/")
      ==> r == base + "/" + endpoint
  {
    if StartsWith(endpoint, "http://") || StartsWith(endpoint, "https://") then endpoint
    else if StartsWith(endpoint, "/") then (if base != "" then base + endpoint else endpoint)
    else base + "/" + endpoint
  }

  /** The endpoint is always the tail of the URL, and in mock mode a path
      that starts with '/' is used as it is. */
  lemma {:induction false} UrlEndsWithEndpoint(base: string, endpoint: string)
    ensures var r := GetApiUrl(base, endpoint);
      |r| >= |endpoint| && r[|r| - |endpoint|..] == endpoint
    ensures StartsWith(endpoint, "/") ==> GetApiUrl("", endpoint) == endpoint
  {
    var r := GetApiUrl(base, endpoint);
    if !StartsWith(endpoint, "http://") && !StartsWith(endpoint, "https://") {
      var prefix := if StartsWith(endpoint, "/") then base else base + "/";
      assert r == prefix + endpoint;
      assert r[|prefix|..] == endpoint;
    }
    if StartsWith(endpoint, "/") {
      assert !StartsWith(endpoint, "http://") by { assert endpoint[0] == '/'; }
      assert !StartsWith(endpoint, "https://") by { assert endpoint[0] == '/'; }
    }
  }

  // The fixed endpoints.
  const MembersRegister := "/api/members/register"
  const MembersLogin := "/api/members/login"
  const MembersMe := "/api/members/me"
  const MembersInfo := "/api/members"
  const MembersUpdate := "/api/members"
  const MembersDelete := "/api/members"
  const ClubsCreate := "/api/clubs"
  const ComplimentsSelect := "/api/compliments/select"
  const ComplimentsEmbedding := "/api/compliments/embedding"
  const RankingGet := "/api/ranking"

  // The endpoint builders. Each argument is interpolated with `String(v)`,
  // so a missing argument reads "undefined".

  function CategoryOptions(category: Option<Json>): string {
    "/api/members/categories/options?category=" + ToStr(category)
  }

  /** `CLUBS.GET` and `CLUBS.DELETE`, which build the same path. */
  function ClubPath(clubId: Option<Json>): string {
    "/api/clubs/" + ToStr(clubId)
  }

  /** `CLUBS.SEARCH`; `encode` is `encodeURIComponent`. */
  function ClubSearch(query: Option<Json>, encode: string -> string): string {
    "/api/clubs/search?q=" + encode(ToStr(query))
  }

  function ClubJoin(clubId: Option<Json>): string {
    "/api/clubs/" + ToStr(clubId) + "/join"
  }

  /** `CLUBS.MEMBERS`: the query string appears exactly when `active` is given
      and is not null. */
  function ClubMembers(clubId: Option<Json>, active: Option<Json>): (r: string)
    ensures active.None? || active == Some(JNull) ==> r == "/api/clubs/" + ToStr(clubId) + "/members"
    ensures active.Some? && active != Some(JNull) ==>
      r == "/api/clubs/" + ToStr(clubId) + "/members" + "?active=" + ToStr(active)
  {
    var base := "/api/clubs/" + ToStr(clubId) + "/members";
    var a := active.GetOr(JNull);
    if a != JNull then base + "?active=" + ToStr(Some(a)) else base
  }

  function ApproveMember(clubId: Option<Json>, userId: Option<Json>): string {
    "/api/clubs/" + ToStr(clubId) + "/members/" + ToStr(userId) + "/approve"
  }

  function RejectMember(clubId: Option<Json>, userId: Option<Json>): string {
    "/api/clubs/" + ToStr(clubId) + "/members/" + ToStr(userId) + "/reject"
  }

  function ComplimentsGive(clubId: Option<Json>, userId: Option<Json>): string {
    "/api/compliments/clubs/" + ToStr(clubId) + "/users/" + ToStr(userId)
  }

  function Id(n: nat): Option<Json> {
    Some(JNum(n))
  }

  /** String(n) for a non-negative id is its digits. */
  lemma IdText(n: nat)
    ensures ToStr(Id(n)) == NatToString(n)
  {
  }

  /** The club path of a numeric id determines the id, and the join and
      member-list paths of a club extend its club path. */
  lemma {:induction false} ClubPathDeterminesId(a: nat, b: nat)
    ensures ClubPath(Id(a)) == ClubPath(Id(b)) <==> a == b
    ensures ClubJoin(Id(a)) == ClubPath(Id(a)) + "/join"
    ensures ClubMembers(Id(a), None) == ClubPath(Id(a)) + "/members"
  {
    IdText(a);
    IdText(b);
    if ClubPath(Id(a)) == ClubPath(Id(b)) {
      PrefixCancel("/api/clubs/", NatToString(a), NatToString(b));
      NatToStringInjective(a, b);
    }
  }

  /** With an encoder that keeps distinct strings distinct, the search path
      determines the query, and it always starts with the search prefix. */
  lemma {:induction false} ClubSearchDeterminesQuery(q1: string, q2: string, encode: string -> string)
    requires encode(q1) == encode(q2) ==> q1 == q2
    ensures ClubSearch(Some(JStr(q1)), encode) == ClubSearch(Some(JStr(q2)), encode) <==> q1 == q2
    ensures StartsWith(ClubSearch(Some(JStr(q1)), encode), "/api/clubs/search?q=")
  {
    var p := "/api/clubs/search?q=";
    assert ToStr(Some(JStr(q1))) == q1 && ToStr(Some(JStr(q2))) == q2;
    if ClubSearch(Some(JStr(q1)), encode) == ClubSearch(Some(JStr(q2)), encode) {
      PrefixCancel(p, encode(q1), encode(q2));
    }
    assert (p + encode(q1))[..|p|] == p;
  }

  /** The join path of a numeric id determines the id. */
  lemma {:induction false} JoinPathDeterminesId(a: nat, b: nat)
    ensures ClubJoin(Id(a)) == ClubJoin(Id(b)) <==> a == b
  {
    if ClubJoin(Id(a)) == ClubJoin(Id(b)) {
      IdText(a);
      IdText(b);
      var p := "/api/clubs/";
      assert p + NatToString(a) + "/join" == p + (NatToString(a) + "/join");
      assert p + NatToString(b) + "/join" == p + (NatToString(b) + "/join");
      PrefixCancel(p, NatToString(a) + "/join", NatToString(b) + "/join");
      DigitsPrefixCancel(a, b, "/join", "/join");
    }
  }

  /** The approve and reject paths of numeric ids determine both ids, and the
      two never coincide. */
  lemma {:induction false} MemberPathsDetermineIds(c1: nat, u1: nat, c2: nat, u2: nat)
    ensures ApproveMember(Id(c1), Id(u1)) == ApproveMember(Id(c2), Id(u2)) <==> c1 == c2 && u1 == u2
    ensures RejectMember(Id(c1), Id(u1)) == RejectMember(Id(c2), Id(u2)) <==> c1 == c2 && u1 == u2
    ensures ApproveMember(Id(c1), Id(u1)) != RejectMember(Id(c2), Id(u2))
  {
    IdText(c1); IdText(u1); IdText(c2); IdText(u2);
    MemberPathCancel(c1, u1, c2, u2, "/approve", "/approve");
    MemberPathCancel(c1, u1, c2, u2, "/reject", "/reject");
    MemberPathCancel(c1, u1, c2, u2, "/approve", "/reject");
  }

  lemma {:induction false} MemberPathCancel(c1: nat, u1: nat, c2: nat, u2: nat, t1: string, t2: string)
    requires t1 == "/approve" || t1 == "/reject"
    requires t2 == "/approve" || t2 == "/reject"
    ensures "/api/clubs/" + NatToString(c1) + "/members/" + NatToString(u1) + t1
         == "/api/clubs/" + NatToString(c2) + "/members/" + NatToString(u2) + t2
        <==> c1 == c2 && u1 == u2 && t1 == t2
  {
    var p := "/api/clubs/";
    var s1 := "/members/" + NatToString(u1) + t1;
    var s2 := "/members/" + NatToString(u2) + t2;
    if p + NatToString(c1) + "/members/" + NatToString(u1) + t1 == p + NatToString(c2) + "/members/" + NatToString(u2) + t2 {
      Assoc5(p, NatToString(c1), "/members/", NatToString(u1), t1);
      Assoc5(p, NatToString(c2), "/members/", NatToString(u2), t2);
      PrefixCancel(p, NatToString(c1) + s1, NatToString(c2) + s2);
      DigitsPrefixCancel(c1, c2, s1, s2);
      assert s1 == "/members/" + (NatToString(u1) + t1);
      assert s2 == "/members/" + (NatToString(u2) + t2);
      PrefixCancel("/members/", NatToString(u1) + t1, NatToString(u2) + t2);
      DigitsPrefixCancel(u1, u2, t1, t2);
    }
  }

  /** Regrouping a five-part path so that its common prefix can be cancelled. */
  lemma Assoc5(a: string, b: string, c: string, d: string, e: string)
    ensures a + b + c + d + e == a + (b + (c + d + e))
  {
  }

  /** The browser state the interceptors use: the stored token and the page
      location. */
  class Browser {
    var token: Option<string>
    var location: string

    constructor (token0: Option<string>, location0: string)
      ensures token == token0 && location == location0
    {
      token := token0;
      location := location0;
    }

    /** The request interceptor: the bearer header is set exactly when a
        non-empty token is stored; no other header changes. */
    method OnRequest(headers: map<string, string>) returns (out: map<string, string>)
      ensures token.Some? && token.value != "" ==> out == headers["Authorization" := "Bearer " + token.value]
      ensures token.None? || token.value == "" ==> out == headers
    {
      out := headers;
      if token.Some? && token.value != "" {
        out := out["Authorization" := "Bearer " + token.value];
      }
    }

    /** The response interceptor: a success passes through; every failure is
        passed on to the caller, and a 401 first clears the token and sends the
        browser to the login page, whatever page it was on. */
    method OnResponse(outcome: Result<Response, JsError>) returns (r: Result<Response, JsError>)
      modifies this
      ensures r == outcome
      ensures Unauthorized(outcome) ==> token == None && location == LoginRoute
      ensures !Unauthorized(outcome) ==> token == old(token) && location == old(location)
    {
      if Unauthorized(outcome) {
        token := None;
        location := LoginRoute;
      }
      r := outcome;
    }
  }

  /** `error.response?.status === 401`. */
  predicate Unauthorized(outcome: Result<Response, JsError>) {
    outcome.Failure? && outcome.error.response.Some? && outcome.error.response.value.status == 401
  }
}
