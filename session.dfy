/** The session store (`AuthProvider`): the signed-in user, whether the
    profile is still loading, and the last load error. */
module Session {
  import opened Wrappers
  import opened Js

  const DefaultGender := "여성"

  /** `clubs && clubs.length > 0`, with `>` comparing `Number(length)` to 0. */
  predicate HasClubs(clubs: Option<Json>) {
    Truthy(clubs) && match JsNumber(Prop(clubs.value, "length")) case JNum(n) => n > 0 case _ => false
  }

  /** The in-place fixes `loadUser` applies to a fetched profile: a missing
      gender becomes '여성', and a missing `selectedClubId` becomes the first
      club's id as a string when the profile has clubs. Reading the first
      club's id throws when that club or its id is missing. */
  function Normalise(u: Obj): (r: Result<Obj, JsError>)
    ensures r.Success? ==>
      && r.value.Keys - {"gender", "selectedClubId"} == u.Keys - {"gender", "selectedClubId"}
      && forall k | k in u && k != "gender" && k != "selectedClubId" :: k in r.value && r.value[k] == u[k]
  {
    var withGender := if Truthy(Field(u, "gender")) then u else u["gender" := JStr(DefaultGender)];
    if Truthy(Field(u, "selectedClubId")) || !HasClubs(Field(u, "clubs")) then Success(withGender)
    else
      var first := Prop(u["clubs"], "0");
      if IsNullish(first) then Failure(JsError("Cannot read properties of " + ToStr(first) + " (reading 'id')", None))
      else match ToStringMethod(Prop(first.value, "id"))
           case Failure(e) => Failure(e)
           case Success(id) => Success(withGender["selectedClubId" := JStr(id)])
  }

  /** The gender is always set afterwards: kept when it was truthy, '여성' otherwise. */
  lemma GenderDefault(u: Obj)
    requires Normalise(u).Success?
    ensures var r := Normalise(u).value;
      "gender" in r && r["gender"] == (if Truthy(Field(u, "gender")) then u["gender"] else JStr(DefaultGender))
  {
  }

  /** A truthy `selectedClubId` is kept; without clubs a falsy one stays as it
      was; with clubs it becomes the string form of the first club's id. */
  lemma SelectedClubDefault(u: Obj)
    requires Normalise(u).Success?
    ensures var r := Normalise(u).value;
      && (Truthy(Field(u, "selectedClubId")) || !HasClubs(Field(u, "clubs"))
          ==> Field(r, "selectedClubId") == Field(u, "selectedClubId"))
      && (!Truthy(Field(u, "selectedClubId")) && HasClubs(Field(u, "clubs"))
          ==> Field(r, "selectedClubId") == Some(JStr(ToStr(OptProp(Prop(u["clubs"], "0"), "id")))))
  {
  }

  /** Normalising a normalised profile changes nothing more. */
  lemma {:induction false} NormaliseIdempotent(u: Obj)
    requires Normalise(u).Success?
    ensures Normalise(Normalise(u).value) == Normalise(u)
  {
    var r := Normalise(u).value;
    GenderDefault(u);
    assert Field(r, "clubs") == Field(u, "clubs");
    if !Truthy(Field(u, "selectedClubId")) && HasClubs(Field(u, "clubs")) {
      SelectedClubDefault(u);
      assert r["clubs"] == u["clubs"];
      var first := Prop(u["clubs"], "0");
      var id := ToStr(Prop(first.value, "id"));
      assert r == (if Truthy(Field(u, "gender")) then u else u["gender" := JStr(DefaultGender)])["selectedClubId" := JStr(id)];
      assert r["gender"] == (if Truthy(Field(u, "gender")) then u["gender"] else JStr(DefaultGender));
      assert Truthy(Field(r, "gender"));
      if id == "" {
        assert r["selectedClubId" := JStr(id)] == r;
      }
    }
  }

  /** The load's result: the normalised profile, or the error the request or
      the normalisation threw. */
  function Loaded(response: Result<Obj, JsError>): (r: Result<Obj, JsError>)
    ensures response.Failure? ==> r == response
    ensures response.Success? ==> r == Normalise(response.value)
  {
    match response
    case Failure(e) => Failure(e)
    case Success(u) => Normalise(u)
  }

  class AuthStore {
    var user: Option<Obj>
    var loading: bool
    var error: Option<JsError>

    /** The store before the first load completes. */
    constructor ()
      ensures user == None && loading && error == None
    {
      user := None;
      loading := true;
      error := None;
    }

    /** The start of `loadUser`. */
    method BeginLoad()
      modifies this
      ensures user == old(user) && loading && error == None
    {
      loading := true;
      error := None;
    }

    /** The end of `loadUser`, with the profile request's result. A cancelled
        load (the provider went away) changes nothing; otherwise the loaded
        profile becomes the user, or the error is recorded and the user is
        kept, and loading ends. */
    method FinishLoad(response: Result<Obj, JsError>, cancelled: bool)
      modifies this
      ensures cancelled ==> user == old(user) && loading == old(loading) && error == old(error)
      ensures !cancelled ==> !loading && match Loaded(response)
        case Success(u) => user == Some(u) && error == old(error)
        case Failure(e) => user == old(user) && error == Some(e)
    {
      if !cancelled {
        match Loaded(response) {
          case Success(u) => user := Some(u);
          case Failure(e) => error := Some(e);
        }
        loading := false;
      }
    }

    /** `login`: the given data becomes the user; no request is made. */
    method Login(userData: Obj)
      modifies this
      ensures user == Some(userData) && error == None && loading == old(loading)
    {
      user := Some(userData);
      error := None;
    }

    method Logout()
      modifies this
      ensures user == None && error == None && loading == old(loading)
    {
      user := None;
      error := None;
    }

    /** `updateUser`: a shallow merge; with no user the patch alone becomes the user. */
    method UpdateUser(patch: Option<Json>)
      modifies this
      ensures user == Some(Merge(if old(user).Some? then old(user).value else map[], Spread(patch)))
      ensures loading == old(loading) && error == old(error)
    {
      var prev := if user.Some? then user.value else map[];
      user := Some(Merge(prev, Spread(patch)));
    }

    /** `setSelectedClubId`: with a user, only `selectedClubId` changes, to the
        id's string form, whether or not the user is in that club; without one
        nothing changes. A missing id throws. */
    method SetSelectedClubId(clubId: Option<Json>) returns (thrown: Option<JsError>)
      modifies this
      ensures loading == old(loading) && error == old(error)
      ensures old(user).None? ==> user == None && thrown == None
      ensures old(user).Some? ==> match ToStringMethod(clubId)
        case Success(id) => user == Some(old(user).value["selectedClubId" := JStr(id)]) && thrown == None
        case Failure(e) => user == old(user) && thrown == Some(e)
    {
      thrown := None;
      if user.Some? {
        match ToStringMethod(clubId)
        case Success(id) => user := Some(user.value["selectedClubId" := JStr(id)]);
        case Failure(e) => thrown := Some(e);
      }
    }
  }

  /** The shallow merge keeps every field the patch does not name and takes
      every field it does. */
  lemma MergeKeepsOthers(prev: Obj, patch: Obj, k: string)
    ensures k in patch ==> Merge(prev, patch)[k] == patch[k]
    ensures k !in patch ==> Field(Merge(prev, patch), k) == Field(prev, k)
  {
  }

  /** Selecting a club is idempotent and undoes no other field. */
  lemma SelectTwice(u: Obj, a: string, b: string)
    ensures u["selectedClubId" := JStr(a)]["selectedClubId" := JStr(b)] == u["selectedClubId" := JStr(b)]
  {
  }
}
