/** The club creation page (`ClubCreatePage`): a name step, a description
    step capped at thirty UTF-16 code units, and the create request with what
    the page does with its answer. */
module ClubCreatePage {
  import opened Wrappers
  import opened Text
  import opened Js
  import opened Ui

  const MaxDescriptionLength := 30
  const CreateFailed := "동아리 생성에 실패했습니다. 다시 시도해주세요."

  /** `requestData`: both fields trimmed. */
  function Request(name: string, description: string): (r: Obj)
    ensures r.Keys == {"name", "description"}
    ensures r["name"] == JStr(Trim(name)) && r["description"] == JStr(Trim(description))
  {
    map["name" := JStr(Trim(name)), "description" := JStr(Trim(description))]
  }

  /** The guard at the top of `handleCreate`. */
  predicate CanCreate(name: string, description: string, submitting: bool) {
    !IsBlank(name) && !IsBlank(description) && !submitting
  }

  /** What the page does once `create` has settled. The profile reload in
      between calls a function the auth context does not provide; the
      TypeError that raises is caught and ignored, so it plays no part.
      Reading `clubId` of a missing response throws into the same handler as
      a failed request. */
  function AfterCreate(created: Result<Option<Json>, JsError>): (r: Effect)
    ensures created.Failure? ==> r == Alert(DetailedErrorText(created.error, CreateFailed))
    ensures created.Success? && IsNullish(created.value) ==> r.Alert?
    ensures created.Success? && !IsNullish(created.value) ==>
      var id := OptProp(created.value, "clubId");
      r == if Truthy(id) then Navigate("/club/" + ToStr(id)) else NavigateBack
  {
    match created
    case Failure(e) => Alert(DetailedErrorText(e, CreateFailed))
    case Success(response) =>
      match Get(response, "clubId")
      case Failure(e) => Alert(DetailedErrorText(e, CreateFailed))
      case Success(id) => if Truthy(id) then Navigate("/club/" + ToStr(id)) else NavigateBack
  }

  /** A server answer with a club id leads to that club's page. */
  lemma CreatedClubPage(response: Obj, id: int)
    requires "clubId" in response && response["clubId"] == JNum(id) && id != 0
    ensures AfterCreate(Success(Some(JObj(response)))) == Navigate("/club/" + IntToString(id))
  {
  }

  /** A failed request shows the server's message first. */
  lemma ServerMessageShown(status: int, data: Obj, message: string, text: string)
    requires "message" in data && data["message"] == JStr(text) && text != ""
    ensures AfterCreate(Failure(JsError(message, Some(Response(status, JObj(data)))))) == Alert(text)
  {
  }

  /** `isCreateButtonDisabled`. */
  predicate ButtonDisabledFor(step: int, name: string, description: string, submitting: bool) {
    (step == 1 && IsBlank(name))
    || (step == 2 && (IsBlank(name) || IsBlank(description)))
    || submitting
  }

  class Page {
    var step: int
    var name: string
    var description: string

    /** The page keeps to its two steps and its description cap. */
    predicate Valid()
      reads this
    {
      (step == 1 || step == 2) && Utf16Length(description) <= MaxDescriptionLength
    }

    constructor ()
      ensures Valid() && step == 1 && name == "" && description == ""
    {
      step := 1;
      name := "";
      description := "";
    }

    /** `handleBack`: from the first step the page is left; from the second
        it returns to the first. */
    method Back() returns (effect: Option<Effect>)
      requires Valid()
      modifies this
      ensures Valid() && name == old(name) && description == old(description)
      ensures old(step) == 1 ==> step == 1 && effect == Some(NavigateBack)
      ensures old(step) == 2 ==> step == 1 && effect == None
    {
      if step == 1 {
        effect := Some(NavigateBack);
      } else {
        step := 1;
        effect := None;
      }
    }

    /** `handleNameChange`. */
    method NameChange(value: string)
      requires Valid()
      modifies this
      ensures Valid() && name == value && step == old(step) && description == old(description)
    {
      name := value;
    }

    /** `handleDescriptionChange`: a value longer than the cap is refused and
        the previous description stays. */
    method DescriptionChange(value: string)
      requires Valid()
      modifies this
      ensures Valid() && name == old(name) && step == old(step)
      ensures description == if Utf16Length(value) <= MaxDescriptionLength then value else old(description)
    {
      if Utf16Length(value) <= MaxDescriptionLength {
        description := value;
      }
    }

    /** `handleNameNext`: a name that is not blank moves to the second step. */
    method NameNext()
      requires Valid()
      modifies this
      ensures Valid() && name == old(name) && description == old(description)
      ensures step == if IsBlank(name) then old(step) else 2
    {
      if !IsBlank(name) {
        step := 2;
      }
    }

    /** `handleCreate`: the request `create` receives, if any, and what the
        page then does; `create` is the hook's request function and
        `submitting` its loading flag. */
    method Create(submitting: bool, create: Obj -> Result<Option<Json>, JsError>)
      returns (request: Option<Obj>, effect: Option<Effect>)
      ensures request.Some? <==> CanCreate(name, description, submitting)
      ensures request.Some? ==>
        request.value == Request(name, description) && effect == Some(AfterCreate(create(request.value)))
      ensures request.None? ==> effect == None
    {
      if IsBlank(name) || IsBlank(description) || submitting {
        return None, None;
      }
      var body := Request(name, description);
      request := Some(body);
      effect := Some(AfterCreate(create(body)));
    }

    predicate ButtonDisabled(submitting: bool)
      reads this
    {
      ButtonDisabledFor(step, name, description, submitting)
    }
  }

  /** On the second step the button is enabled exactly when its handler
      would send the request; on the first, an enabled button always moves
      on. */
  lemma ButtonAgreesWithHandlers(step: int, name: string, description: string, submitting: bool)
    requires step == 1 || step == 2
    ensures step == 2 ==> (!ButtonDisabledFor(step, name, description, submitting) <==> CanCreate(name, description, submitting))
    ensures step == 1 && !ButtonDisabledFor(step, name, description, submitting) ==> !IsBlank(name)
  {
  }
}
