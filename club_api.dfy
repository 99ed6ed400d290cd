/** The club requests and the normalisation of what the backend (or, in mock
    mode, the bundled JSON files) returns. Each transport call is a function
    parameter from the request path (and body) to the response data or the
    thrown error. */
module ClubApi {
  import opened Wrappers
  import opened Text
  import opened Js
  import Lists
  import MemberData
  import ApiClient

  type Get = string -> Result<Json, JsError>
  type Post = (string, Option<Json>) -> Result<Json, JsError>

  /** `item.clubId.toString() === clubId.toString() || item.clubId === clubId`;
      either `toString` throws on a missing value. */
  function MatchesClub(item: Json, clubId: Option<Json>): (r: Result<bool, JsError>)
    ensures r.Success? <==> item != JNull && !IsNullish(Prop(item, "clubId")) && !IsNullish(clubId)
    ensures r.Success? ==> (r.value <==> ToStr(Prop(item, "clubId")) == ToStr(clubId) || StrictEq(Prop(item, "clubId"), clubId))
  {
    if item == JNull then Failure(JsError("Cannot read properties of null (reading 'clubId')", None))
    else match ToStringMethod(Prop(item, "clubId"))
         case Failure(e) => Failure(e)
         case Success(a) =>
           match ToStringMethod(clubId)
           case Failure(e) => Failure(e)
           case Success(b) => Success(a == b || StrictEq(Prop(item, "clubId"), clubId))
  }

  /** `list.find(...)` with `MatchesClub`: the first match, stopping at the
      first element whose test throws. */
  function FindClub(items: seq<Json>, clubId: Option<Json>): (r: Result<Option<Json>, JsError>)
    ensures r.Success? && r.value.None? ==> forall i | 0 <= i < |items| :: MatchesClub(items[i], clubId) == Success(false)
    ensures r.Success? && r.value.Some? ==>
      exists i | 0 <= i < |items| :: items[i] == r.value.value && MatchesClub(items[i], clubId) == Success(true)
        && forall k | 0 <= k < i :: MatchesClub(items[k], clubId) == Success(false)
    ensures (forall i | 0 <= i < |items| :: MatchesClub(items[i], clubId).Success?) ==> r.Success?
  {
    if items == [] then Success(None)
    else match MatchesClub(items[0], clubId)
         case Failure(e) => Failure(e)
         case Success(true) => Success(Some(items[0]))
         case Success(false) =>
           assert forall k | 1 <= k < |items| :: items[k] == items[1..][k - 1];
           FindClub(items[1..], clubId)
  }

  /** A string id and the same number find the same mock record. */
  lemma {:induction false} StringAndNumberIdsMatchAlike(item: Json, n: int)
    requires MatchesClub(item, Some(JNum(n))).Success?
    ensures MatchesClub(item, Some(JStr(IntToString(n)))) == MatchesClub(item, Some(JNum(n)))
  {
    var c := Prop(item, "clubId");
    if StrictEq(c, Some(JStr(IntToString(n)))) {
      assert ToStr(c) == IntToString(n);
    }
    if StrictEq(c, Some(JNum(n))) {
      assert ToStr(c) == IntToString(n);
    }
  }

  /** `json.find(...)` on a response body: a non-array body has no `find`. */
  function FindInBody(body: Json, clubId: Option<Json>): (r: Result<Option<Json>, JsError>)
    ensures body.JArr? ==> r == FindClub(body.xs, clubId)
    ensures !body.JArr? ==> r.Failure?
  {
    match body
    case JArr(xs) => FindClub(xs, clubId)
    case _ => Failure(JsError("find is not a function", None))
  }

  /** Only an object has a `clubId`, so whatever the lookup finds is an
      object, and so truthy. */
  lemma {:induction false} FoundIsObject(body: Json, clubId: Option<Json>)
    ensures var r := FindInBody(body, clubId);
      r.Success? && r.value.Some? ==> r.value.value.JObj? && Truthy(r.value)
  {
    var r := FindInBody(body, clubId);
    if r.Success? && r.value.Some? {
      var items := body.xs;
      var i :| 0 <= i < |items| && items[i] == r.value.value && MatchesClub(items[i], clubId) == Success(true);
      assert !IsNullish(Prop(items[i], "clubId"));
      assert ParseNat("clubId") == None by { assert !IsDigit("clubId"[0]); }
    }
  }

  /** The lookup in a bundled file: the failed fetch, or `find` on its body. */
  function MockFind(file: string, clubId: Option<Json>, get: Get): Result<Option<Json>, JsError> {
    match get(file)
    case Failure(e) => Failure(e)
    case Success(body) => FindInBody(body, clubId)
  }

  /** A record found in a bundled file is an object listed in that file whose
      `clubId` matches. */
  lemma FoundInFile(file: string, clubId: Option<Json>, get: Get)
    requires MockFind(file, clubId, get).Success? && MockFind(file, clubId, get).value.Some?
    ensures get(file).Success? && get(file).value.JArr?
    ensures var xs, x := get(file).value.xs, MockFind(file, clubId, get).value.value;
      x.JObj? && exists i | 0 <= i < |xs| :: xs[i] == x && MatchesClub(x, clubId) == Success(true)
  {
    FoundIsObject(get(file).value, clubId);
  }

  const ClubDetailsFile := "/data/club-details.json"
  const ClubMembersFile := "/data/club-members.json"

  function ClubNotFound(): JsError {
    JsError("Club not found", None)
  }

  /** `getClub`: the mock record for the id, or the backend's club. In mock
      mode a failed fetch or lookup is passed on, a hit is returned as it is
      and a miss throws 'Club not found'. */
  function GetClub(mock: bool, clubId: Option<Json>, get: Get): (r: Result<Json, JsError>)
    ensures !mock ==> r == get(ApiClient.ClubPath(clubId))
    ensures mock && MockFind(ClubDetailsFile, clubId, get).Failure? ==>
      r == Failure(MockFind(ClubDetailsFile, clubId, get).error)
    ensures mock && MockFind(ClubDetailsFile, clubId, get) == Success(None) ==> r == Failure(ClubNotFound())
    ensures mock && MockFind(ClubDetailsFile, clubId, get).Success? && MockFind(ClubDetailsFile, clubId, get).value.Some? ==>
      r == Success(MockFind(ClubDetailsFile, clubId, get).value.value)
  {
    if !mock then get(ApiClient.ClubPath(clubId))
    else match get(ClubDetailsFile)
         case Failure(e) => Failure(e)
         case Success(body) =>
           match FindInBody(body, clubId)
           case Failure(e) => Failure(e)
           case Success(found) =>
             FoundIsObject(body, clubId);
             if Truthy(found) then Success(found.value) else Failure(ClubNotFound())
  }

  /** The record a mock member lookup returns when no club matches. */
  function EmptyClubMembers(): Json {
    JObj(map["memberCount" := JNum(0), "rankings" := JArr([]), "members" := JArr([])])
  }

  /** The mock miss record already has the shape the real mode normalises
      to: a count of 0 and nothing to rename. */
  lemma EmptyClubMembersIsNormal()
    ensures NormaliseClubMembers(EmptyClubMembers()) == Success(EmptyClubMembers())
    ensures Prop(EmptyClubMembers(), "memberCount") == Some(JNum(0))
    ensures Prop(EmptyClubMembers(), "members") == Some(JArr([]))
  {
    var m := map["memberCount" := JNum(0), "rankings" := JArr([]), "members" := JArr([])];
    SpreadObject(m);
    assert MemberData.TransformOrEmpty(Some(JArr([]))) == Success(JArr([]));
    assert m["memberCount" := JNum(0)]["rankings" := JArr([])]["members" := JArr([])] == m;
  }

  /** The backend's member list in the client's shape: `memberCount` falls back
      to `activeMemberCount` and then 0; `rankings` and `members` are
      transformed, or [] when missing. Reading a field of `null` throws. */
  function NormaliseClubMembers(data: Json): (r: Result<Json, JsError>)
    ensures IsNullish(Some(data)) ==> r.Failure?
    ensures r.Success? ==>
      && r.value.JObj?
      && Prop(r.value, "memberCount") ==
           (if Prop(data, "memberCount").Some? then Prop(data, "memberCount")
            else if Prop(data, "activeMemberCount").Some? then Prop(data, "activeMemberCount")
            else Some(JNum(0)))
      && Prop(r.value, "rankings").Some?
      && MemberData.TransformOrEmpty(Prop(data, "rankings")) == Success(Prop(r.value, "rankings").value)
      && Prop(r.value, "members").Some?
      && MemberData.TransformOrEmpty(Prop(data, "members")) == Success(Prop(r.value, "members").value)
      && forall k | k !in {"memberCount", "rankings", "members"} :: Prop(r.value, k) == Prop(JObj(Spread(Some(data))), k)
  {
    if data == JNull then Failure(JsError("Cannot read properties of null (reading 'memberCount')", None))
    else
      var count := if Prop(data, "memberCount").Some? then Prop(data, "memberCount").value
                   else if Prop(data, "activeMemberCount").Some? then Prop(data, "activeMemberCount").value
                   else JNum(0);
      match MemberData.TransformOrEmpty(Prop(data, "rankings"))
      case Failure(e) => Failure(e)
      case Success(rankings) =>
        match MemberData.TransformOrEmpty(Prop(data, "members"))
        case Failure(e) => Failure(e)
        case Success(members) =>
          Success(JObj(Spread(Some(data))["memberCount" := count]["rankings" := rankings]["members" := members]))
  }

  /** `getClubMembers`; `active` defaults to true. In mock mode a failed
      fetch or lookup is passed on, a hit is returned as it is and a miss
      gives the empty record. */
  function GetClubMembers(mock: bool, clubId: Option<Json>, active: Option<Json>, get: Get): (r: Result<Json, JsError>)
    ensures !mock ==> r == (match get(ApiClient.ClubMembers(clubId, Some(active.GetOr(JBool(true)))))
                            case Failure(e) => Failure(e)
                            case Success(data) => NormaliseClubMembers(data))
    ensures mock && MockFind(ClubMembersFile, clubId, get).Failure? ==>
      r == Failure(MockFind(ClubMembersFile, clubId, get).error)
    ensures mock && MockFind(ClubMembersFile, clubId, get) == Success(None) ==> r == Success(EmptyClubMembers())
    ensures mock && MockFind(ClubMembersFile, clubId, get).Success? && MockFind(ClubMembersFile, clubId, get).value.Some? ==>
      r == Success(MockFind(ClubMembersFile, clubId, get).value.value)
  {
    if mock then
      match get(ClubMembersFile)
      case Failure(e) => Failure(e)
      case Success(body) =>
        match FindInBody(body, clubId)
        case Failure(e) => Failure(e)
        case Success(found) =>
          FoundIsObject(body, clubId);
          if Truthy(found) then Success(found.value) else Success(EmptyClubMembers())
    else
      match get(ApiClient.ClubMembers(clubId, Some(active.GetOr(JBool(true)))))
      case Failure(e) => Failure(e)
      case Success(data) => NormaliseClubMembers(data)
  }

  /** The record a mock approved or pending lookup returns when no club matches. */
  function EmptyMemberList(clubId: Option<Json>, active: bool): Json {
    JObj(map["clubId" := JsNumber(clubId), "active" := JBool(active), "count" := JNum(0), "members" := JArr([])])
  }

  /** The mock miss record for the approved or pending list already has the
      shape the real mode normalises to: no members, a count of 0, and the
      list's own `active` flag. */
  lemma EmptyMemberListIsNormal(clubId: Option<Json>, active: bool)
    ensures NormaliseMemberList(EmptyMemberList(clubId, active)) == Success(EmptyMemberList(clubId, active))
    ensures Prop(EmptyMemberList(clubId, active), "count") == Some(JNum(0))
    ensures Prop(EmptyMemberList(clubId, active), "active") == Some(JBool(active))
    ensures Prop(EmptyMemberList(clubId, active), "members") == Some(JArr([]))
  {
    var l := map["clubId" := JsNumber(clubId), "active" := JBool(active), "count" := JNum(0), "members" := JArr([])];
    SpreadObject(l);
    assert MemberData.TransformOrEmpty(Some(JArr([]))) == Success(JArr([]));
    assert l["members" := JArr([])] == l;
  }

  /** `{...data, members: data.members ? transformMemberData(data.members) : []}`. */
  function NormaliseMemberList(data: Json): (r: Result<Json, JsError>)
    ensures IsNullish(Some(data)) ==> r.Failure?
    ensures r.Success? ==>
      && r.value.JObj?
      && Prop(r.value, "members").Some?
      && MemberData.TransformOrEmpty(Prop(data, "members")) == Success(Prop(r.value, "members").value)
      && forall k | k != "members" :: Prop(r.value, k) == Prop(JObj(Spread(Some(data))), k)
  {
    if data == JNull then Failure(JsError("Cannot read properties of null (reading 'members')", None))
    else match MemberData.TransformOrEmpty(Prop(data, "members"))
         case Failure(e) => Failure(e)
         case Success(members) => Success(JObj(Spread(Some(data))["members" := members]))
  }

  /** `getApprovedMembers` (`active` true) and `getPendingMembers` (false).
      In mock mode a failed fetch or lookup is passed on, a hit is returned
      as it is and a miss gives the empty list. */
  function GetMemberList(mock: bool, clubId: Option<Json>, active: bool, get: Get): (r: Result<Json, JsError>)
    ensures !mock ==> r == (match get(ApiClient.ClubMembers(clubId, Some(JBool(active))))
                            case Failure(e) => Failure(e)
                            case Success(data) => NormaliseMemberList(data))
    ensures mock && MockFind(MockMemberFile(active), clubId, get).Failure? ==>
      r == Failure(MockFind(MockMemberFile(active), clubId, get).error)
    ensures mock && MockFind(MockMemberFile(active), clubId, get) == Success(None) ==>
      r == Success(EmptyMemberList(clubId, active))
    ensures mock && MockFind(MockMemberFile(active), clubId, get).Success?
            && MockFind(MockMemberFile(active), clubId, get).value.Some? ==>
      r == Success(MockFind(MockMemberFile(active), clubId, get).value.value)
  {
    if mock then
      match get(MockMemberFile(active))
      case Failure(e) => Failure(e)
      case Success(body) =>
        match FindInBody(body, clubId)
        case Failure(e) => Failure(e)
        case Success(found) =>
          FoundIsObject(body, clubId);
          if Truthy(found) then Success(found.value) else Success(EmptyMemberList(clubId, active))
    else
      match get(ApiClient.ClubMembers(clubId, Some(JBool(active))))
      case Failure(e) => Failure(e)
      case Success(data) => NormaliseMemberList(data)
  }

  function MockMemberFile(active: bool): string {
    if active then "/data/club-members-active.json" else "/data/club-members-pending.json"
  }

  /** A request the mock mode does not support: it throws before any call. */
  function Unsupported(what: string): JsError {
    JsError(what + " is not supported in mock data mode", None)
  }

  function CreateClub(mock: bool, clubData: Option<Json>, post: Post): (r: Result<Json, JsError>)
    ensures mock ==> r == Failure(Unsupported("Create"))
    ensures !mock ==> r == post(ApiClient.ClubsCreate, clubData)
  {
    if mock then Failure(Unsupported("Create")) else post(ApiClient.ClubsCreate, clubData)
  }

  function DeleteClub(mock: bool, clubId: Option<Json>, delete: Get): (r: Result<Json, JsError>)
    ensures mock ==> r == Failure(Unsupported("Delete"))
    ensures !mock ==> r == delete(ApiClient.ClubPath(clubId))
  {
    if mock then Failure(Unsupported("Delete")) else delete(ApiClient.ClubPath(clubId))
  }

  function ApproveMember(mock: bool, clubId: Option<Json>, userId: Option<Json>, post: Post): (r: Result<Json, JsError>)
    ensures mock ==> r == Failure(Unsupported("Approve"))
    ensures !mock ==> r == post(ApiClient.ApproveMember(clubId, userId), None)
  {
    if mock then Failure(Unsupported("Approve")) else post(ApiClient.ApproveMember(clubId, userId), None)
  }

  function RejectMember(mock: bool, clubId: Option<Json>, userId: Option<Json>, post: Post): (r: Result<Json, JsError>)
    ensures mock ==> r == Failure(Unsupported("Reject"))
    ensures !mock ==> r == post(ApiClient.RejectMember(clubId, userId), None)
  {
    if mock then Failure(Unsupported("Reject")) else post(ApiClient.RejectMember(clubId, userId), None)
  }

  /** The mock search test: the name or the description contains the query,
      both lowered by `lower` (`toLowerCase`). A missing name or description
      fails that half; a non-string one throws. */
  function MockMatch(club: Json, query: string, lower: string -> string): (r: Result<bool, JsError>)
    ensures r == Success(true) <==>
      club != JNull && (HasText(Prop(club, "name"), query, lower) ||
                        (HalfOk(Prop(club, "name")) && HasText(Prop(club, "description"), query, lower)))
    ensures r.Success? <==>
      club != JNull && HalfOk(Prop(club, "name")) &&
      (HasText(Prop(club, "name"), query, lower) || HalfOk(Prop(club, "description")))
  {
    if club == JNull then Failure(JsError("Cannot read properties of null (reading 'name')", None))
    else match TextHalf(Prop(club, "name"), query, lower)
         case Failure(e) => Failure(e)
         case Success(true) => Success(true)
         case Success(false) => TextHalf(Prop(club, "description"), query, lower)
  }

  /** `field?.toLowerCase().includes(query.toLowerCase())`. */
  function TextHalf(field: Option<Json>, query: string, lower: string -> string): (r: Result<bool, JsError>)
    ensures r == Success(true) <==> HasText(field, query, lower)
    ensures r.Success? <==> HalfOk(field)
  {
    match field
    case None => Success(false)
    case Some(JNull) => Success(false)
    case Some(JStr(s)) => Success(Contains(lower(s), lower(query)))
    case Some(_) => Failure(JsError("toLowerCase is not a function", None))
  }

  predicate HalfOk(field: Option<Json>) {
    IsNullish(field) || field.value.JStr?
  }

  predicate HasText(field: Option<Json>, query: string, lower: string -> string) {
    field.Some? && field.value.JStr? && Contains(lower(field.value.s), lower(query))
  }

  /** The mock search test as the filter calls it. */
  function MockTest(query: string, lower: string -> string): Json -> Result<bool, JsError> {
    c => MockMatch(c, query, lower)
  }

  /** The clubs the mock search keeps. */
  function MockKeeps(query: string, lower: string -> string): Json -> bool {
    c => MockMatch(c, query, lower) == Success(true)
  }

  /** `clubs.filter(MockMatch)`, stopping at the first club whose test throws. */
  function FilterClubs(clubs: seq<Json>, query: string, lower: string -> string): (r: Result<seq<Json>, JsError>)
    ensures r.Success? <==> forall i | 0 <= i < |clubs| :: MockMatch(clubs[i], query, lower).Success?
    ensures r.Success? ==> r.value == Lists.Filter(clubs, MockKeeps(query, lower))
  {
    var r := Lists.FilterResult(clubs, MockTest(query, lower));
    if r.Success? then
      Lists.FilterResultNoThrow(clubs, MockTest(query, lower), MockKeeps(query, lower));
      r
    else r
  }

  /** `{...club, id: club.id !== undefined ? club.id : club.clubId}`. */
  function WithId(club: Json): (r: Result<Json, JsError>)
    ensures r.Failure? <==> club == JNull
    ensures r.Success? ==>
      && r.value.JObj?
      && Prop(r.value, "id") == (if Prop(club, "id").Some? then Prop(club, "id") else Prop(club, "clubId"))
      && forall k | k != "id" :: Prop(r.value, k) == Prop(JObj(Spread(Some(club))), k)
  {
    if club == JNull then Failure(JsError("Cannot read properties of null (reading 'id')", None))
    else Success(JObj(With(Spread(Some(club)), "id", if Prop(club, "id").Some? then Prop(club, "id") else Prop(club, "clubId"))))
  }

  function WithIds(clubs: seq<Json>): (r: Result<seq<Json>, JsError>)
    ensures r.Success? <==> forall i | 0 <= i < |clubs| :: clubs[i] != JNull
    ensures r.Success? ==> |r.value| == |clubs| && forall i | 0 <= i < |clubs| :: Success(r.value[i]) == WithId(clubs[i])
  {
    if clubs == [] then Success([])
    else match WithId(clubs[0])
         case Failure(e) => Failure(e)
         case Success(head) =>
           assert forall i | 1 <= i < |clubs| :: clubs[i] == clubs[1..][i - 1];
           match WithIds(clubs[1..])
           case Failure(e) => Failure(e)
           case Success(tail) => Success([head] + tail)
  }

  /** `searchClubs`. In mock mode the bundled list is filtered; otherwise a
      non-array response is treated as no results and every result gets an `id`. */
  function SearchClubs(mock: bool, query: string, get: Get, lower: string -> string, encode: string -> string)
    : (r: Result<seq<Json>, JsError>)
    ensures mock && get("/data/clubs.json").Success? && get("/data/clubs.json").value.JArr? ==>
      r == FilterClubs(get("/data/clubs.json").value.xs, query, lower)
    ensures !mock && get(ApiClient.ClubSearch(Some(JStr(query)), encode)).Success? ==>
      r == WithIds(var d := get(ApiClient.ClubSearch(Some(JStr(query)), encode)).value; if d.JArr? then d.xs else [])
    ensures mock && get("/data/clubs.json").Failure? ==> r == Failure(get("/data/clubs.json").error)
    ensures mock && get("/data/clubs.json").Success? && !get("/data/clubs.json").value.JArr? ==> r.Failure?
    ensures !mock && get(ApiClient.ClubSearch(Some(JStr(query)), encode)).Failure? ==>
      r == Failure(get(ApiClient.ClubSearch(Some(JStr(query)), encode)).error)
  {
    if mock then
      match get("/data/clubs.json")
      case Failure(e) => Failure(e)
      case Success(JArr(clubs)) => FilterClubs(clubs, query, lower)
      case Success(_) => Failure(JsError("filter is not a function", None))
    else
      match get(ApiClient.ClubSearch(Some(JStr(query)), encode))
      case Failure(e) => Failure(e)
      case Success(data) => WithIds(if data.JArr? then data.xs else [])
  }

  /** The mock search keeps exactly the matching clubs, in their original order. */
  lemma {:induction false} MockSearchOrder(a: seq<Json>, b: seq<Json>, query: string, lower: string -> string)
    requires FilterClubs(a + b, query, lower).Success?
    ensures FilterClubs(a, query, lower).Success? && FilterClubs(b, query, lower).Success?
    ensures FilterClubs(a + b, query, lower).value == FilterClubs(a, query, lower).value + FilterClubs(b, query, lower).value
  {
    assert forall i | 0 <= i < |a| :: a[i] == (a + b)[i];
    assert forall i | 0 <= i < |b| :: b[i] == (a + b)[|a| + i];
    Lists.FilterAppend(a, b, MockKeeps(query, lower));
  }

  const UserProfileFile := "/data/user-profile.json"

  /** `joinClub` in mock mode: the stored profile's id (or 1 when it is missing
      or cannot be fetched) asks to join with a numeric club id. */
  function JoinClub(mock: bool, clubId: Option<Json>, get: Get, post: Post): (r: Result<Json, JsError>)
    ensures mock ==>
      && r.Success? && r.value.JObj?
      && r.value.m.Keys == {"clubId", "userId", "requestStatus"}
      && Prop(r.value, "requestStatus") == Some(JStr("PENDING"))
      && Prop(r.value, "clubId") == Some(JsNumber(clubId))
      && Truthy(Prop(r.value, "userId"))
    ensures mock && get(UserProfileFile).Success? && Truthy(OptProp(Some(get(UserProfileFile).value), "id")) ==>
      Prop(r.value, "userId") == OptProp(Some(get(UserProfileFile).value), "id")
    ensures mock && (get(UserProfileFile).Failure? || !Truthy(OptProp(Some(get(UserProfileFile).value), "id"))) ==>
      Prop(r.value, "userId") == Some(JNum(1))
    ensures !mock ==> r == post(ApiClient.ClubJoin(clubId), None)
  {
    if mock then
      var userId := match get(UserProfileFile)
                    case Failure(_) => JNum(1)
                    case Success(profile) => FirstTruthy([OptProp(Some(profile), "id")], Some(JNum(1))).value;
      Success(JObj(map["clubId" := JsNumber(clubId), "userId" := userId, "requestStatus" := JStr("PENDING")]))
    else post(ApiClient.ClubJoin(clubId), None)
  }
}
