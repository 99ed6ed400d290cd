/** The login page (`LoginPage`): the two fields, the guard before the
    session's `login`, and the loading and error state around the call. */
module LoginPage {
  import opened Wrappers
  import opened Text
  import opened Js
  import opened Ui
  import Session

  const FieldsRequired := "이메일과 비밀번호를 입력해주세요."
  const LoginFailed := "로그인에 실패했습니다. 이메일과 비밀번호를 확인해주세요."
  const HomeRoute := "/"

  /** `err.response?.data?.message || LoginFailed`: the server's message,
      whatever its type, or the default text. */
  function LoginError(e: JsError): (r: Json)
    ensures Truthy(ResponseField(e, "message")) ==> r == ResponseField(e, "message").value
    ensures !Truthy(ResponseField(e, "message")) ==> r == JStr(LoginFailed)
    ensures Truthy(Some(r))
  {
    FirstTruthy([ResponseField(e, "message")], Some(JStr(LoginFailed))).value
  }

  /** `isDisabled`. */
  predicate DisabledFor(email: string, password: string, loading: bool) {
    IsBlank(email) || IsBlank(password) || loading
  }

  /** What `login` receives: the fields as typed, not trimmed. */
  function Credentials(email: string, password: string): (r: Obj)
    ensures r.Keys == {"email", "password"} && r["email"] == JStr(email) && r["password"] == JStr(password)
  {
    map["email" := JStr(email), "password" := JStr(password)]
  }

  class Page {
    var email: string
    var password: string
    var loading: bool
    var error: Option<Json>

    constructor ()
      ensures email == "" && password == "" && !loading && error == None
    {
      email := "";
      password := "";
      loading := false;
      error := None;
    }

    predicate IsDisabled()
      reads this
    {
      DisabledFor(email, password, loading)
    }

    /** `handleEmailChange`: typing clears the error. */
    method EmailChange(value: string)
      modifies this
      ensures email == value && error == None && password == old(password) && loading == old(loading)
    {
      email := value;
      error := None;
    }

    /** `handlePasswordChange`: typing clears the error. */
    method PasswordChange(value: string)
      modifies this
      ensures password == value && error == None && email == old(email) && loading == old(loading)
    {
      password := value;
      error := None;
    }

    /** The part of `handleLogin` before the call: blank fields set the error
        and nothing is sent; otherwise loading starts, the error is cleared
        and the credentials are what `login` receives. */
    method BeginLogin() returns (request: Option<Obj>)
      modifies this
      ensures email == old(email) && password == old(password)
      ensures request.Some? <==> !IsBlank(email) && !IsBlank(password)
      ensures request.None? ==> error == Some(JStr(FieldsRequired)) && loading == old(loading)
      ensures request.Some? ==> request.value == Credentials(email, password) && loading && error == None
    {
      if IsBlank(email) || IsBlank(password) {
        error := Some(JStr(FieldsRequired));
        return None;
      }
      loading := true;
      error := None;
      request := Some(Credentials(email, password));
    }

    /** The part of `handleLogin` after the call: success goes home, failure
        shows the error, and loading ends either way. */
    method FinishLogin(result: Result<(), JsError>) returns (effect: Option<Effect>)
      modifies this
      ensures email == old(email) && password == old(password) && !loading
      ensures result.Success? ==> effect == Some(Navigate(HomeRoute)) && error == old(error)
      ensures result.Failure? ==> effect == None && error == Some(LoginError(result.error))
    {
      match result {
        case Success(_) =>
          effect := Some(Navigate(HomeRoute));
        case Failure(e) =>
          error := Some(LoginError(e));
          effect := None;
      }
      loading := false;
    }

    /** `handleLogin` with the session store's `login`, which stores the
        credentials as the user and cannot fail: a submission with both
        fields filled always signs in and goes home. */
    method Submit(store: Session.AuthStore) returns (effect: Option<Effect>)
      modifies this, store
      ensures email == old(email) && password == old(password)
      ensures IsBlank(email) || IsBlank(password) ==>
        effect == None && error == Some(JStr(FieldsRequired)) && loading == old(loading)
        && store.user == old(store.user) && store.error == old(store.error)
      ensures !IsBlank(email) && !IsBlank(password) ==>
        effect == Some(Navigate(HomeRoute)) && error == None && !loading
        && store.user == Some(Credentials(email, password)) && store.error == None
      ensures store.loading == old(store.loading)
    {
      var request := BeginLogin();
      if request.None? {
        return None;
      }
      store.Login(request.value);
      effect := FinishLogin(Success(()));
    }
  }

  /** The button is enabled only when `handleLogin` would call `login`. */
  lemma EnabledButtonSignsIn(email: string, password: string, loading: bool)
    requires !DisabledFor(email, password, loading)
    ensures !IsBlank(email) && !IsBlank(password)
  {
  }
}
