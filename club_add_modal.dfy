/** The club selector modal: the list of clubs it offers, which one is marked
    selected, and what its buttons trigger. */
module ClubAddModal {
  import opened Wrappers
  import opened Js
  import Lists

  /** The entry built for one profile club: `{id: club.id.toString(), name,
      university}`; a club without an id (or a `null` club) throws. */
  function UserClub(club: Json, university: Option<Json>): (r: Result<Json, JsError>)
    ensures r.Success? <==> !IsNullish(Some(club)) && !IsNullish(Prop(club, "id"))
    ensures r.Success? ==>
      && r.value.JObj?
      && Prop(r.value, "id") == Some(JStr(ToStr(Prop(club, "id"))))
      && Prop(r.value, "name") == Prop(club, "name")
      && Prop(r.value, "university") == university
  {
    if IsNullish(Some(club)) then Failure(JsError("Cannot read properties of null (reading 'id')", None))
    else match ToStringMethod(Prop(club, "id"))
         case Failure(e) => Failure(e)
         case Success(id) =>
           Success(JObj(With(With(map["id" := JStr(id)], "name", Prop(club, "name")), "university", university)))
  }

  /** `clubs.map(...)`, stopping at the first club that throws. */
  function MapUserClubs(clubs: seq<Json>, university: Option<Json>): (r: Result<seq<Json>, JsError>)
    ensures r.Success? <==> forall i | 0 <= i < |clubs| :: UserClub(clubs[i], university).Success?
    ensures r.Success? ==>
      && |r.value| == |clubs|
      && forall i | 0 <= i < |clubs| :: Success(r.value[i]) == UserClub(clubs[i], university)
  {
    Lists.MapResult(clubs, c => UserClub(c, university))
  }

  /** `userClubs`: the profile's clubs with their ids as strings and the
      profile's university; [] when the profile or its clubs are missing, and a
      TypeError when `clubs` is not an array. */
  function UserClubs(profile: Option<Json>): (r: Result<seq<Json>, JsError>)
    ensures IsNullish(OptProp(profile, "clubs")) ==> r == Success([])
    ensures (match OptProp(profile, "clubs")
             case Some(JArr(xs)) => r == MapUserClubs(xs, OptProp(profile, "university"))
             case Some(JNull) => true
             case None => true
             case _ => r.Failure?)
  {
    match OptProp(profile, "clubs")
    case None => Success([])
    case Some(JNull) => Success([])
    case Some(JArr(xs)) => MapUserClubs(xs, OptProp(profile, "university"))
    case Some(_) => Failure(JsError("profileData.clubs.map is not a function", None))
  }

  /** `defaultClubs`: the `clubs` prop (default []) when it is non-empty,
      otherwise the profile's clubs. */
  function DefaultClubs(clubs: Option<seq<Json>>, userClubs: seq<Json>): (r: seq<Json>)
    ensures clubs.Some? && clubs.value != [] ==> r == clubs.value
    ensures (clubs.None? || clubs.value == []) ==> r == userClubs
  {
    var given := clubs.GetOr([]);
    if |given| > 0 then given else userClubs
  }

  /** `selectedClubId === club.id`, with `selectedClubId` defaulting to null. */
  predicate IsSelected(selectedClubId: Option<Json>, club: Json) {
    StrictEq(Some(selectedClubId.GetOr(JNull)), Prop(club, "id"))
  }

  /** A profile club is marked selected exactly when the selected id is the
      string form of its id; a numeric selected id never matches one. */
  lemma {:induction false} SelectedProfileClub(selectedClubId: Option<Json>, club: Json, university: Option<Json>)
    requires UserClub(club, university).Success?
    ensures IsSelected(selectedClubId, UserClub(club, university).value) <==>
      selectedClubId == Some(JStr(ToStr(Prop(club, "id"))))
    ensures forall n :: !IsSelected(Some(JNum(n)), UserClub(club, university).value)
  {
    var item := UserClub(club, university).value;
    assert Prop(item, "id") == Some(JStr(ToStr(Prop(club, "id"))));
  }

  /** What a click asks of the surrounding page. */
  datatype Effect = Close | Navigate(path: string) | SelectClub(id: Option<Json>)

  /** `handleClubSelect`: the id goes to `onSelectClub` when one is given. */
  function ClubSelectEffects(hasOnSelectClub: bool, clubId: Option<Json>): (r: seq<Effect>)
    ensures hasOnSelectClub ==> r == [SelectClub(clubId)]
    ensures !hasOnSelectClub ==> r == []
  {
    if hasOnSelectClub then [SelectClub(clubId)] else []
  }

  /** `handleAddClub`: the modal closes first, then the club search opens. */
  function AddClubEffects(): seq<Effect> {
    [Close, Navigate("/club/search")]
  }

  /** Only the add button leaves the modal: choosing a club neither closes
      it nor navigates, while adding closes it before anything else and then
      opens the club search and nothing more. */
  lemma OnlyAddClubLeaves(hasOnSelectClub: bool, clubId: Option<Json>)
    ensures Close !in ClubSelectEffects(hasOnSelectClub, clubId)
    ensures forall e | e in ClubSelectEffects(hasOnSelectClub, clubId) :: !e.Navigate?
    ensures var r := AddClubEffects();
      && r[0] == Close
      && (forall i | 0 < i < |r| :: r[i] != Close)
      && (forall e | e in r :: !e.SelectClub?)
      && r[|r| - 1] == Navigate("/club/search")
  {
  }
}
