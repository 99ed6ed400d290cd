/** The profile editing page (`ProfileEditPage`): the form filled from the
    session's user, the placeholder-image test, and leaving a club through
    the confirmation modal, which edits the page's own club list only. */
module ProfileEditPage {
  import opened Wrappers
  import opened Text
  import opened Js
  import Lists

  const DefaultImage := "/assets/profile.svg"
  const PlaceholderName := "profile.svg"

  /** `user.<k> || fallback`. */
  function FieldOr(user: Obj, k: string, fallback: Json): (r: Json)
    ensures Truthy(Field(user, k)) ==> r == user[k]
    ensures !Truthy(Field(user, k)) ==> r == fallback
  {
    FirstTruthy([Field(user, k)], Some(fallback)).value
  }

  /** `src.includes('profile.svg')` for `src = profileImage || DefaultImage`:
      a substring test on a string, an element test on an array, and a
      TypeError on anything else. */
  function IsPlaceholderImage(profileImage: Json): (r: Result<bool, JsError>)
    ensures !Truthy(Some(profileImage)) ==> r == Success(true)
    ensures profileImage.JStr? && profileImage.s != "" ==> r == Success(Contains(profileImage.s, PlaceholderName))
    ensures r.Failure? <==> Truthy(Some(profileImage)) && !profileImage.JStr? && !profileImage.JArr?
  {
    DefaultIsPlaceholder();
    var src := FirstTruthy([Some(profileImage)], Some(JStr(DefaultImage))).value;
    match src
    case JStr(s) => Success(Contains(s, PlaceholderName))
    case JArr(xs) => Success(JStr(PlaceholderName) in xs)
    case _ => Failure(JsError("src.includes is not a function", None))
  }

  /** The default image is the placeholder. */
  lemma DefaultIsPlaceholder()
    ensures Contains(DefaultImage, PlaceholderName)
  {
    assert OccursAt(DefaultImage, PlaceholderName, 8);
  }

  /** `club.id !== selectedClub.id`; reading the id of a null entry throws. */
  function KeepClub(selectedId: Option<Json>, club: Json): (r: Result<bool, JsError>)
    ensures r.Failure? <==> club == JNull
    ensures r.Success? ==> (r.value <==> !StrictEq(Prop(club, "id"), selectedId))
  {
    match Get(Some(club), "id")
    case Failure(e) => Failure(e)
    case Success(id) => Success(!StrictEq(id, selectedId))
  }

  /** The test `KeepClub` makes on an entry that is not null. */
  function OtherClub(selectedId: Option<Json>): Json -> bool {
    c => c != JNull && !StrictEq(Prop(c, "id"), selectedId)
  }

  /** `clubs.filter(club => club.id !== selected.id)`; a list that is not an
      array has no `filter`. */
  function LeaveFilter(clubs: Json, selected: Json): (r: Result<Json, JsError>)
    requires Truthy(Some(selected))
    ensures r.Success? ==> clubs.JArr? && r.value.JArr? && |r.value.xs| <= |clubs.xs|
  {
    match clubs
    case JArr(xs) =>
      (match Lists.FilterResult(xs, c => KeepClub(Prop(selected, "id"), c))
       case Failure(e) => Failure(e)
       case Success(kept) => Success(JArr(kept)))
    case _ => Failure(JsError("clubs.filter is not a function", None))
  }

  /** Leaving a club from a list of records removes exactly the clubs whose
      id is the selected club's id and keeps the others, in order. */
  lemma {:induction false} LeaveRemovesExactly(xs: seq<Json>, selected: Json)
    requires Truthy(Some(selected))
    requires forall i | 0 <= i < |xs| :: xs[i] != JNull
    ensures LeaveFilter(JArr(xs), selected).Success?
    ensures var kept := LeaveFilter(JArr(xs), selected).value.xs;
      && kept == Lists.Filter(xs, OtherClub(Prop(selected, "id")))
      && (forall i | 0 <= i < |kept| :: kept[i] in xs && !StrictEq(Prop(kept[i], "id"), Prop(selected, "id")))
      && (forall i | 0 <= i < |xs| && !StrictEq(Prop(xs[i], "id"), Prop(selected, "id")) :: xs[i] in kept)
  {
    Lists.FilterResultNoThrow(xs, c => KeepClub(Prop(selected, "id"), c), OtherClub(Prop(selected, "id")));
  }

  /** The page's form state. `selectedClub` is `null` when no club is picked. */
  class Form {
    var name: Json
    var university: Json
    var clubs: Json
    var profileImage: Json
    var showLeaveModal: bool
    var selectedClub: Json

    constructor ()
      ensures name == JStr("") && university == JStr("") && clubs == JArr([]) && profileImage == JStr("")
      ensures !showLeaveModal && selectedClub == JNull
    {
      name := JStr("");
      university := JStr("");
      clubs := JArr([]);
      profileImage := JStr("");
      showLeaveModal := false;
      selectedClub := JNull;
    }

    /** The form effect: with a user, each field is the user's or its default. */
    method UserLoaded(user: Option<Obj>)
      modifies this
      ensures user.Some? ==>
        && name == FieldOr(user.value, "name", JStr(""))
        && university == FieldOr(user.value, "university", JStr(""))
        && clubs == FieldOr(user.value, "clubs", JArr([]))
        && profileImage == FieldOr(user.value, "profileImage", JStr(""))
      ensures user.None? ==>
        name == old(name) && university == old(university) && clubs == old(clubs) && profileImage == old(profileImage)
      ensures showLeaveModal == old(showLeaveModal) && selectedClub == old(selectedClub)
    {
      if user.Some? {
        name := FieldOr(user.value, "name", JStr(""));
        university := FieldOr(user.value, "university", JStr(""));
        clubs := FieldOr(user.value, "clubs", JArr([]));
        profileImage := FieldOr(user.value, "profileImage", JStr(""));
      }
    }

    /** `handleLeaveClubClick`: the club is picked and the modal opens. */
    method LeaveClubClick(club: Json)
      modifies this
      ensures selectedClub == club && showLeaveModal
      ensures name == old(name) && university == old(university) && clubs == old(clubs)
      ensures profileImage == old(profileImage)
    {
      selectedClub := club;
      showLeaveModal := true;
    }

    /** `handleConfirmLeave`: with a picked club, the filtered list replaces
        the clubs, the modal closes and the pick is cleared; nothing is sent
        to the server. Without one nothing happens. A filter that throws
        leaves the state as it was. */
    method ConfirmLeave() returns (thrown: Option<JsError>)
      modifies this
      ensures name == old(name) && university == old(university) && profileImage == old(profileImage)
      ensures !Truthy(Some(old(selectedClub))) ==>
        thrown == None && clubs == old(clubs) && showLeaveModal == old(showLeaveModal) && selectedClub == old(selectedClub)
      ensures Truthy(Some(old(selectedClub))) ==> match LeaveFilter(old(clubs), old(selectedClub))
        case Success(kept) => thrown == None && clubs == kept && !showLeaveModal && selectedClub == JNull
        case Failure(e) =>
          thrown == Some(e) && clubs == old(clubs) && showLeaveModal == old(showLeaveModal) && selectedClub == old(selectedClub)
    {
      thrown := None;
      if Truthy(Some(selectedClub)) {
        match LeaveFilter(clubs, selectedClub) {
          case Success(kept) =>
            clubs := kept;
            showLeaveModal := false;
            selectedClub := JNull;
          case Failure(e) =>
            thrown := Some(e);
        }
      }
    }

    /** `handleCancelLeave`: the modal closes and the pick is cleared; the
        clubs stay. */
    method CancelLeave()
      modifies this
      ensures !showLeaveModal && selectedClub == JNull
      ensures name == old(name) && university == old(university) && clubs == old(clubs)
      ensures profileImage == old(profileImage)
    {
      showLeaveModal := false;
      selectedClub := JNull;
    }

    /** `isPlaceholderImage` on the current image. */
    function Placeholder(): (r: Result<bool, JsError>)
      reads this
      ensures profileImage == JStr("") ==> r == Success(true)
    {
      IsPlaceholderImage(profileImage)
    }
  }
}
