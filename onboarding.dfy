/** The sign-up wizard (`useOnboarding`): a step counter from 1 to 7, the draft
    record the steps fill in, and the completion routine that validates the
    draft, registers the member and logs them in. */
module Onboarding {
  import opened Wrappers
  import opened Js

  const TotalSteps := 7
  const RequiredSelections := 5

  const MissingCredentials := "이메일과 비밀번호를 입력해주세요."
  const MissingProfile := "이름과 성별을 입력해주세요."
  const MissingSelections := "모든 카테고리를 선택해주세요."
  const RegistrationFallback := "회원가입 중 오류가 발생했습니다."

  /** The draft before any step has reported. */
  function InitialDraft(): (r: Obj)
    ensures r.Keys == {"email", "password", "name", "gender", "selections"}
    ensures r["selections"] == JArr([])
  {
    map["email" := JStr(""), "password" := JStr(""), "name" := JStr(""), "gender" := JStr(""),
        "selections" := JArr([])]
  }

  /** The three checks, in the order the routine makes them; `None` when the
      draft passes all three. */
  function Validate(draft: Obj): (r: Option<string>)
    ensures r == Some(MissingCredentials) <==> !Truthy(Field(draft, "email")) || !Truthy(Field(draft, "password"))
    ensures r == Some(MissingProfile) <==>
      Truthy(Field(draft, "email")) && Truthy(Field(draft, "password"))
      && (!Truthy(Field(draft, "name")) || !Truthy(Field(draft, "gender")))
    ensures r == None <==>
      Truthy(Field(draft, "email")) && Truthy(Field(draft, "password"))
      && Truthy(Field(draft, "name")) && Truthy(Field(draft, "gender"))
      && HasAllSelections(draft)
  {
    if !Truthy(Field(draft, "email")) || !Truthy(Field(draft, "password")) then Some(MissingCredentials)
    else if !Truthy(Field(draft, "name")) || !Truthy(Field(draft, "gender")) then Some(MissingProfile)
    else if !HasAllSelections(draft) then Some(MissingSelections)
    else None
  }

  /** `selections` is present and its `length` is exactly 5. */
  predicate HasAllSelections(draft: Obj) {
    var sel := Field(draft, "selections");
    Truthy(sel) && StrictEq(Prop(sel.value, "length"), Some(JNum(RequiredSelections)))
  }

  /** `genderMapping[gender] || gender`: the two Korean labels become the API's
      words; anything else goes through unchanged. */
  function ApiGender(gender: Json): (r: Json)
    ensures ToStr(Some(gender)) == "남성" ==> r == JStr("male")
    ensures ToStr(Some(gender)) == "여성" ==> r == JStr("female")
    ensures ToStr(Some(gender)) != "남성" && ToStr(Some(gender)) != "여성" ==> r == gender
  {
    var key := ToStr(Some(gender));
    if key == "남성" then JStr("male") else if key == "여성" then JStr("female") else gender
  }

  /** `(location.state || {}).avatarUrl || ''`: the navigation state's own
      avatar URL when the state and that URL are both truthy, else ''. */
  function AvatarUrl(navigationState: Option<Json>): (r: Json)
    ensures Truthy(navigationState) && Truthy(OptProp(navigationState, "avatarUrl")) ==>
      r == OptProp(navigationState, "avatarUrl").value
    ensures !(Truthy(navigationState) && Truthy(OptProp(navigationState, "avatarUrl"))) ==> r == JStr("")
  {
    var info := if Truthy(navigationState) then navigationState else Some(JObj(map[]));
    FirstTruthy([OptProp(info, "avatarUrl")], Some(JStr(""))).value
  }

  /** The body sent to the registration endpoint. */
  function RegisterPayload(draft: Obj, navigationState: Option<Json>): (r: Obj)
    requires Validate(draft) == None
    ensures r.Keys == {"email", "password", "name", "nickname", "avatarUrl", "gender", "selections"}
    ensures r["nickname"] == JNull
    ensures r["avatarUrl"] == AvatarUrl(navigationState)
    ensures r["selections"] == draft["selections"]
    ensures r["email"] == draft["email"] && r["password"] == draft["password"] && r["name"] == draft["name"]
    ensures r["gender"] == ApiGender(draft["gender"])
  {
    map["email" := draft["email"], "password" := draft["password"], "name" := draft["name"],
        "nickname" := JNull, "avatarUrl" := AvatarUrl(navigationState),
        "gender" := ApiGender(draft["gender"]), "selections" := draft["selections"]]
  }

  /** How completion ends: a failed check, a failed registration (with the
      text shown to the user), or the route opened once registration succeeded. */
  datatype Outcome = ValidationError(message: string) | RegistrationFailed(error: JsError, alert: string)
                   | Home | LoginPage

  /** The credentials and options passed to `login` after registering. */
  datatype LoginCall = LoginCall(email: Json, password: Json, skipUserProfile: bool)

  /** Everything one completion does: its outcome, the calls it makes (`None`
      when a call is not made) and the error it stores. `registerError` and
      `loginError` are how those calls end (`None` for success). */
  datatype Completion = Completion(outcome: Outcome, registerCall: Option<Obj>,
                                   loginCall: Option<LoginCall>, error: Option<JsError>)

  function Complete(draft: Obj, navigationState: Option<Json>,
                    registerError: Option<JsError>, loginError: Option<JsError>): (r: Completion)
    ensures Validate(draft).Some? ==>
      r == Completion(ValidationError(Validate(draft).value), None, None, Some(JsError(Validate(draft).value, None)))
    ensures (r.registerCall.Some? <==> Validate(draft) == None)
    ensures Validate(draft) == None ==> r.registerCall == Some(RegisterPayload(draft, navigationState))
    ensures r.loginCall.Some? ==> r.registerCall.Some? && registerError == None && r.loginCall.value.skipUserProfile
    ensures r.outcome.RegistrationFailed? ==> r.loginCall == None && r.error == registerError
    ensures Validate(draft) == None && registerError.Some? ==>
      && r.outcome == RegistrationFailed(registerError.value, ErrorText(registerError.value, RegistrationFallback))
      && r.loginCall == None && r.error == registerError
    ensures Validate(draft) == None && registerError.None? ==> r.error == None && !r.outcome.RegistrationFailed?
  {
    match Validate(draft)
    case Some(message) => Completion(ValidationError(message), None, None, Some(JsError(message, None)))
    case None =>
      var payload := RegisterPayload(draft, navigationState);
      match registerError
      case Some(e) =>
        Completion(RegistrationFailed(e, ErrorText(e, RegistrationFallback)), Some(payload), None, Some(e))
      case None =>
        if Truthy(Some(payload["email"])) && Truthy(Some(payload["password"])) then
          var call := LoginCall(payload["email"], payload["password"], true);
          Completion(if loginError.None? then Home else LoginPage, Some(payload), Some(call), None)
        else Completion(Home, Some(payload), None, None)
  }

  /** The checks run in a fixed order and stop the routine before any call:
      missing credentials first, then a missing name or gender, then a
      selection count other than 5. */
  lemma ValidationOrder(draft: Obj, navigationState: Option<Json>,
                        registerError: Option<JsError>, loginError: Option<JsError>)
    ensures var r := Complete(draft, navigationState, registerError, loginError);
      && (!Truthy(Field(draft, "email")) || !Truthy(Field(draft, "password"))
          ==> r.outcome == ValidationError(MissingCredentials))
      && (Truthy(Field(draft, "email")) && Truthy(Field(draft, "password"))
          && (!Truthy(Field(draft, "name")) || !Truthy(Field(draft, "gender")))
          ==> r.outcome == ValidationError(MissingProfile))
      && (Truthy(Field(draft, "email")) && Truthy(Field(draft, "password"))
          && Truthy(Field(draft, "name")) && Truthy(Field(draft, "gender")) && !HasAllSelections(draft)
          ==> r.outcome == ValidationError(MissingSelections))
      && (r.outcome.ValidationError? ==> r.registerCall == None && r.loginCall == None)
  {
  }

  /** Once registration succeeds the member is always logged in with the
      registered credentials; a successful login opens the home page and a
      failed one the login page, and neither stores an error. */
  lemma {:induction false} AfterRegistration(draft: Obj, navigationState: Option<Json>, loginError: Option<JsError>)
    requires Validate(draft) == None
    ensures var r := Complete(draft, navigationState, None, loginError);
      && r.loginCall == Some(LoginCall(draft["email"], draft["password"], true))
      && r.outcome == (if loginError.None? then Home else LoginPage)
      && r.error == None
  {
    var payload := RegisterPayload(draft, navigationState);
    assert Truthy(Some(payload["email"])) && Truthy(Some(payload["password"])) by {
      assert Field(draft, "email") == Some(draft["email"]);
      assert Field(draft, "password") == Some(draft["password"]);
    }
  }

  /** The wizard's state. `error` is the last completion failure. */
  class Wizard {
    var step: int
    var draft: Obj
    var loading: bool
    var error: Option<JsError>

    predicate Valid()
      reads this
    {
      1 <= step <= TotalSteps
    }

    constructor ()
      ensures Valid()
      ensures step == 1 && draft == InitialDraft() && !loading && error == None
    {
      step := 1;
      draft := InitialDraft();
      loading := false;
      error := None;
    }

    /** `updateStepData`: the fields a step reports overwrite the draft's, the
        others are kept. */
    method UpdateStepData(stepData: Option<Json>)
      modifies this
      ensures draft == Merge(old(draft), Spread(stepData))
      ensures step == old(step) && loading == old(loading) && error == old(error)
    {
      draft := Merge(draft, Spread(stepData));
    }

    /** `handleNext`: one step forward, or completion on the last step. */
    method Next(navigationState: Option<Json>, registerError: Option<JsError>, loginError: Option<JsError>)
      returns (completion: Option<Completion>)
      requires Valid()
      modifies this
      ensures Valid()
      ensures old(step) < TotalSteps ==>
        (step == old(step) + 1 && completion == None
         && draft == old(draft) && loading == old(loading) && error == old(error))
      ensures old(step) == TotalSteps ==>
        (step == TotalSteps && completion == Some(Complete(old(draft), navigationState, registerError, loginError))
         && draft == old(draft) && !loading && error == completion.value.error)
    {
      if step < TotalSteps {
        step := step + 1;
        completion := None;
      } else {
        var c := RunCompletion(navigationState, registerError, loginError);
        completion := Some(c);
      }
    }

    /** `handleBack`: one step back, never below the first. */
    method Back()
      requires Valid()
      modifies this
      ensures Valid()
      ensures step == if old(step) > 1 then old(step) - 1 else 1
      ensures draft == old(draft) && loading == old(loading) && error == old(error)
    {
      if step > 1 {
        step := step - 1;
      }
    }

    /** `handleComplete`: loading while it runs and cleared on every path;
        the error it stores is the completion's; step and draft are kept. */
    method RunCompletion(navigationState: Option<Json>, registerError: Option<JsError>, loginError: Option<JsError>)
      returns (c: Completion)
      modifies this
      ensures c == Complete(old(draft), navigationState, registerError, loginError)
      ensures step == old(step) && draft == old(draft)
      ensures !loading && error == c.error
    {
      loading := true;
      error := None;
      c := Complete(draft, navigationState, registerError, loginError);
      if c.error.Some? {
        error := c.error;
      }
      loading := false;
    }
  }
}
