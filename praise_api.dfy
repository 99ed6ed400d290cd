/** The praise requests: the candidate lists per praise category and the
    request that gives a compliment. */
module PraiseApi {
  import opened Wrappers
  import opened Js
  import Lists
  import MemberData
  import ApiClient

  type Post = (string, Option<Json>) -> Result<Json, JsError>

  /** The category path as the code builds it: the two-argument compliment
      builder called with the club id alone, so the user segment reads
      "undefined". */
  function CategoriesEndpointAsWritten(clubId: Option<Json>): string {
    ApiClient.ComplimentsGive(clubId, None)
  }

  /** The documented category path, `/api/compliments/clubs/{clubId}`. */
  function CategoriesEndpoint(clubId: Option<Json>): (r: string)
    ensures ApiClient.ComplimentsGive(clubId, None) == r + "/users/undefined"
  {
    "/api/compliments/clubs/" + ToStr(clubId)
  }

  /** Every club's category request goes to a `/users/undefined` path instead
      of the club's own. */
  lemma AsWrittenEndpointHasUndefinedUser(clubId: Option<Json>)
    ensures CategoriesEndpointAsWritten(clubId) == CategoriesEndpoint(clubId) + "/users/undefined"
    ensures CategoriesEndpointAsWritten(clubId) != CategoriesEndpoint(clubId)
  {
  }

  /** One category: its fields kept, `candidates` and `users` transformed, or
      [] when missing. A `null` category throws. */
  function NormaliseCategory(category: Json): (r: Result<Json, JsError>)
    ensures category == JNull ==> r.Failure?
    ensures r.Success? ==>
      && r.value.JObj?
      && Prop(r.value, "candidates").Some?
      && MemberData.TransformOrEmpty(Prop(category, "candidates")) == Success(Prop(r.value, "candidates").value)
      && Prop(r.value, "users").Some?
      && MemberData.TransformOrEmpty(Prop(category, "users")) == Success(Prop(r.value, "users").value)
      && forall k | k != "candidates" && k != "users" :: Prop(r.value, k) == Prop(JObj(Spread(Some(category))), k)
  {
    if category == JNull then Failure(JsError("Cannot read properties of null (reading 'candidates')", None))
    else match MemberData.TransformOrEmpty(Prop(category, "candidates"))
         case Failure(e) => Failure(e)
         case Success(candidates) =>
           match MemberData.TransformOrEmpty(Prop(category, "users"))
           case Failure(e) => Failure(e)
           case Success(users) => Success(JObj(Spread(Some(category))["candidates" := candidates]["users" := users]))
  }

  /** The response in the client's shape: each category of an array, or the
      single object, normalised; any other value unchanged. */
  function NormaliseCategories(data: Json): (r: Result<Json, JsError>)
    ensures data.JArr? ==> r == (match Lists.MapResult(data.xs, NormaliseCategory)
                                 case Success(ys) => Success(JArr(ys))
                                 case Failure(e) => Failure(e))
    ensures data.JObj? ==> r == NormaliseCategory(data)
    ensures !data.JArr? && !data.JObj? ==> r == Success(data)
  {
    match data
    case JArr(xs) =>
      (match Lists.MapResult(xs, NormaliseCategory) case Success(ys) => Success(JArr(ys)) case Failure(e) => Failure(e))
    case JObj(_) => NormaliseCategory(data)
    case _ => Success(data)
  }

  /** An array response keeps its length and order. */
  lemma CategoriesKeepOrder(xs: seq<Json>)
    requires NormaliseCategories(JArr(xs)).Success?
    ensures var ys := NormaliseCategories(JArr(xs)).value;
      ys.JArr? && |ys.xs| == |xs| && forall i | 0 <= i < |xs| :: NormaliseCategory(xs[i]) == Success(ys.xs[i])
  {
  }

  const CategoriesFile := "/data/praise-categories.json"

  /** The category request on `endpoint` with an empty body: the response
      normalised, or the error rethrown. */
  function PostCategories(endpoint: string, post: Post): Result<Json, JsError> {
    match post(endpoint, Some(JObj(map[])))
    case Failure(e) => Failure(e)
    case Success(data) => NormaliseCategories(data)
  }

  /** `getPraiseCategories` as written: the bundled data unchanged in mock
      mode; otherwise the category request on the path the code builds, which
      ends in `/users/undefined`, normalised, with any error passed on to the
      caller. */
  function GetPraiseCategories(mock: bool, clubId: Option<Json>, get: string -> Result<Json, JsError>, post: Post)
    : (r: Result<Json, JsError>)
    ensures mock ==> r == get(CategoriesFile)
    ensures !mock && post(CategoriesEndpointAsWritten(clubId), Some(JObj(map[]))).Failure? ==>
      r == post(CategoriesEndpointAsWritten(clubId), Some(JObj(map[])))
    ensures !mock && post(CategoriesEndpointAsWritten(clubId), Some(JObj(map[]))).Success? ==>
      r == NormaliseCategories(post(CategoriesEndpointAsWritten(clubId), Some(JObj(map[]))).value)
  {
    if mock then get(CategoriesFile) else PostCategories(CategoriesEndpointAsWritten(clubId), post)
  }

  /** `getPraiseCategories` as its comment intends it: the same, but the
      request goes to the club's own category path. */
  function GetPraiseCategoriesIntended(mock: bool, clubId: Option<Json>, get: string -> Result<Json, JsError>, post: Post)
    : (r: Result<Json, JsError>)
    ensures mock ==> r == get(CategoriesFile)
    ensures !mock && post(CategoriesEndpoint(clubId), Some(JObj(map[]))).Failure? ==>
      r == post(CategoriesEndpoint(clubId), Some(JObj(map[])))
    ensures !mock && post(CategoriesEndpoint(clubId), Some(JObj(map[]))).Success? ==>
      r == NormaliseCategories(post(CategoriesEndpoint(clubId), Some(JObj(map[]))).value)
  {
    if mock then get(CategoriesFile) else PostCategories(CategoriesEndpoint(clubId), post)
  }

  /** The two differ only in the path: they agree in mock mode, and whenever
      the backend answers the two paths alike. A backend that serves only the
      intended path fails every request as written. */
  lemma AsWrittenDiffersOnlyInPath(mock: bool, clubId: Option<Json>, get: string -> Result<Json, JsError>, post: Post)
    ensures mock ==> GetPraiseCategories(mock, clubId, get, post) == GetPraiseCategoriesIntended(mock, clubId, get, post)
    ensures post(CategoriesEndpointAsWritten(clubId), Some(JObj(map[]))) == post(CategoriesEndpoint(clubId), Some(JObj(map[])))
      ==> GetPraiseCategories(mock, clubId, get, post) == GetPraiseCategoriesIntended(mock, clubId, get, post)
    ensures !mock && post(CategoriesEndpointAsWritten(clubId), Some(JObj(map[]))).Failure? ==>
      GetPraiseCategories(mock, clubId, get, post).Failure?
  {
  }

  /** The body of a compliment: exactly the compliment, the user and the
      anonymity flag (true unless given). */
  function ComplimentBody(complimentId: Option<Json>, userId: Option<Json>, isAnonymous: Option<Json>): (r: Obj)
    ensures r.Keys <= {"complimentId", "userId", "anonymity"}
    ensures Field(r, "complimentId") == complimentId && Field(r, "userId") == userId
    ensures Field(r, "anonymity") == Some(isAnonymous.GetOr(JBool(true)))
  {
    With(With(map["anonymity" := isAnonymous.GetOr(JBool(true))], "complimentId", complimentId), "userId", userId)
  }

  /** `giveCompliment`: throws in mock mode; otherwise sends the body to the
      selection endpoint. */
  function GiveCompliment(mock: bool, complimentId: Option<Json>, userId: Option<Json>, isAnonymous: Option<Json>,
                          patch: Post): (r: Result<Json, JsError>)
    ensures mock ==> r == Failure(JsError("Give compliment is not supported in mock data mode", None))
    ensures !mock ==> r == patch(ApiClient.ComplimentsSelect, Some(JObj(ComplimentBody(complimentId, userId, isAnonymous))))
  {
    if mock then Failure(JsError("Give compliment is not supported in mock data mode", None))
    else patch(ApiClient.ComplimentsSelect, Some(JObj(ComplimentBody(complimentId, userId, isAnonymous))))
  }
}
