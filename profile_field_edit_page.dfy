/** The single-field profile editor (`ProfileFieldEditPage`): which field the
    route names, the value the editor starts from, and what the complete
    button saves into the session's user. */
module ProfileFieldEditPage {
  import opened Wrappers
  import opened Text
  import opened Js
  import opened Ui
  import Session

  const NameRequired := "이름을 입력해주세요."
  const GenderRequired := "성별을 선택해주세요."
  const EditRoute := "/profile/edit"

  /** `path.split('/').pop()`: the text after the last '/', or the whole path
      when it has none. */
  function LastSegment(path: string): string {
    if path == [] || path[|path| - 1] == '/' then []
    else LastSegment(path[..|path| - 1]) + [path[|path| - 1]]
  }

  /** The field type has no '/' and is the tail of the path after its last
      '/' (or the whole path when there is none). */
  lemma {:induction false} LastSegmentIsTail(path: string)
    ensures var r := LastSegment(path);
      && '/' !in r
      && |r| <= |path| && path[|path| - |r|..] == r
      && (|r| < |path| ==> path[|path| - |r| - 1] == '/')
  {
    if path != [] && path[|path| - 1] != '/' {
      var init, c := path[..|path| - 1], path[|path| - 1];
      LastSegmentIsTail(init);
      var r0 := LastSegment(init);
      assert LastSegment(path) == r0 + [c];
      var i := |init| - |r0|;
      assert path == init + [c];
      assert (init + [c])[i..] == init[i..] + [c];
      if |r0| < |init| {
        assert path[|path| - |r0| - 2] == init[|init| - |r0| - 1];
      }
    }
  }

  /** A segment appended after a '/' is what the route names. */
  lemma {:induction false} LastSegmentOfRoute(prefix: string, field: string)
    requires '/' !in field
    ensures LastSegment(prefix + "/" + field) == field
  {
    if field != [] {
      var init := field[..|field| - 1];
      assert (prefix + "/" + field)[..|prefix + "/" + field| - 1] == prefix + "/" + init;
      assert forall k | 0 <= k < |init| :: init[k] == field[k];
      LastSegmentOfRoute(prefix, init);
    } else {
      assert prefix + "/" + field == prefix + "/";
    }
  }

  /** `getFieldConfig`'s answer: the page title and the user property edited. */
  datatype FieldConfig = FieldConfig(title: string, fieldKey: string)

  /** `getFieldConfig`: only the name and the gender can be edited here. */
  function ConfigOf(fieldType: string): (r: Option<FieldConfig>)
    ensures r.Some? <==> fieldType == "name" || fieldType == "gender"
    ensures r.Some? ==> r.value.fieldKey == fieldType
  {
    if fieldType == "name" then Some(FieldConfig("이름", "name"))
    else if fieldType == "gender" then Some(FieldConfig("성별", "gender"))
    else None
  }

  /** `user && config ? (user[config.fieldKey] || '') : ''`. */
  function InitialValue(user: Option<Obj>, config: Option<FieldConfig>): (r: Json)
    ensures user.Some? && config.Some? && Truthy(Field(user.value, config.value.fieldKey))
      ==> r == user.value[config.value.fieldKey]
    ensures !(user.Some? && config.Some? && Truthy(Field(user.value, config.value.fieldKey))) ==> r == JStr("")
    ensures Truthy(Some(r)) || r == JStr("")
  {
    if user.Some? && config.Some? then FirstTruthy([Field(user.value, config.value.fieldKey)], Some(JStr(""))).value
    else JStr("")
  }

  /** What the page shows: the checks run in this order. */
  datatype View = InvalidPath | Loading | NoUser | Editor(title: string, field: string)

  function Render(path: string, loading: bool, user: Option<Obj>): (r: View)
    ensures ConfigOf(LastSegment(path)).None? <==> r == InvalidPath
    ensures r.Loading? <==> ConfigOf(LastSegment(path)).Some? && loading
    ensures r.NoUser? <==> ConfigOf(LastSegment(path)).Some? && !loading && user.None?
    ensures r.Editor? ==> r.field == LastSegment(path) && r.title == ConfigOf(r.field).value.title
  {
    var config := ConfigOf(LastSegment(path));
    if config.None? then InvalidPath
    else if loading then Loading
    else if user.None? then NoUser
    else Editor(config.value.title, LastSegment(path))
  }

  /** What `handleComplete` comes to: an alert, the one-field patch to save,
      or an error thrown before the `try` (which nothing catches). */
  datatype Outcome = Alerted(text: string) | Save(patch: Obj) | Uncaught(error: JsError)

  /** `handleComplete` on a route that has a config: the name is trimmed
      (which throws on a value that is not a string) and refused when blank;
      the gender is refused when falsy and saved as it is. */
  function CompleteOutcome(fieldType: string, value: Json): Outcome
    requires ConfigOf(fieldType).Some?
  {
    if fieldType == "name" then
      match TrimOf(Some(value))
      case Failure(e) => Uncaught(e)
      case Success(t) => if t == "" then Alerted(NameRequired) else Save(map["name" := JStr(t)])
    else
      if !Truthy(Some(value)) then Alerted(GenderRequired) else Save(map["gender" := value])
  }

  /** The name is saved trimmed, and refused when blank; a value that is
      not a string throws at the first check. */
  lemma NameOutcome(value: Json)
    ensures !value.JStr? ==> CompleteOutcome("name", value).Uncaught?
    ensures value.JStr? ==>
      CompleteOutcome("name", value) ==
        if IsBlank(value.s) then Alerted(NameRequired) else Save(map["name" := JStr(Trim(value.s))])
  {
    if value.JStr? {
      assert TrimOf(Some(value)) == Success(Trim(value.s));
      BlankIffEmptyTrim(value.s);
    }
  }

  /** The gender is saved as it is, and refused when empty. */
  lemma GenderOutcome(value: Json)
    ensures CompleteOutcome("gender", value) ==
      if Truthy(Some(value)) then Save(map["gender" := value]) else Alerted(GenderRequired)
  {
  }

  /** A save always writes one truthy field, the routed one. */
  lemma SaveWritesRoutedField(fieldType: string, value: Json)
    requires ConfigOf(fieldType).Some? && CompleteOutcome(fieldType, value).Save?
    ensures var patch := CompleteOutcome(fieldType, value).patch;
      patch.Keys == {fieldType} && Truthy(Some(patch[fieldType]))
  {
    if fieldType == "name" {
      NameOutcome(value);
    }
  }

  lemma BlankIffEmptyTrim(s: string)
    ensures IsBlank(s) <==> Trim(s) == ""
  {
  }

  /** After a save, the page opened again on the same field starts from the
      saved value. */
  lemma SavedValueReopens(fieldType: string, value: Json, user: Obj)
    requires ConfigOf(fieldType).Some? && CompleteOutcome(fieldType, value).Save?
    ensures var patch := CompleteOutcome(fieldType, value).patch;
      InitialValue(Some(Merge(user, patch)), ConfigOf(fieldType)) == patch[fieldType]
  {
    SaveWritesRoutedField(fieldType, value);
  }

  /** Saving changes the one field and keeps the rest of the user. */
  lemma SaveTouchesOneField(fieldType: string, value: Json, user: Obj, k: string)
    requires ConfigOf(fieldType).Some? && CompleteOutcome(fieldType, value).Save? && k != fieldType
    ensures Field(Merge(user, CompleteOutcome(fieldType, value).patch), k) == Field(user, k)
  {
    SaveWritesRoutedField(fieldType, value);
  }

  class Page {
    var value: Json
    var prevFieldType: string

    /** Mounting on `path` with the session's `user`. */
    constructor (path: string, user: Option<Obj>)
      ensures value == InitialValue(user, ConfigOf(LastSegment(path)))
      ensures prevFieldType == LastSegment(path)
    {
      var fieldType := LastSegment(path);
      value := InitialValue(user, ConfigOf(fieldType));
      prevFieldType := fieldType;
    }

    /** The reset effect after a render: only when the field named by the
        route has changed (and there is a user) does the value start over. */
    method Sync(path: string, user: Option<Obj>)
      modifies this
      ensures var fieldType := LastSegment(path);
        if user.Some? && ConfigOf(fieldType).Some? && old(prevFieldType) != fieldType
        then value == InitialValue(user, ConfigOf(fieldType)) && prevFieldType == fieldType
        else value == old(value) && prevFieldType == old(prevFieldType)
    {
      var fieldType := LastSegment(path);
      var config := ConfigOf(fieldType);
      if user.Some? && config.Some? && prevFieldType != fieldType {
        value := InitialValue(user, config);
        prevFieldType := fieldType;
      }
    }

    /** The editor's `onChange`. */
    method SetValue(v: string)
      modifies this
      ensures value == JStr(v) && prevFieldType == old(prevFieldType)
    {
      value := JStr(v);
    }

    /** `handleComplete`: a saved patch goes to the session store and the
        page returns to the profile editor. */
    method Complete(path: string, store: Session.AuthStore) returns (effect: Option<Effect>)
      requires ConfigOf(LastSegment(path)).Some?
      modifies store
      ensures var outcome := CompleteOutcome(LastSegment(path), old(value));
        match outcome
        case Alerted(text) => effect == Some(Alert(text)) && store.user == old(store.user)
        case Uncaught(_) => effect == None && store.user == old(store.user)
        case Save(patch) =>
          && effect == Some(Navigate(EditRoute))
          && store.user == Some(Merge(if old(store.user).Some? then old(store.user).value else map[], patch))
      ensures store.loading == old(store.loading) && store.error == old(store.error)
    {
      var outcome := CompleteOutcome(LastSegment(path), value);
      match outcome
      case Alerted(text) =>
        effect := Some(Alert(text));
      case Uncaught(_) =>
        effect := None;
      case Save(patch) =>
        SpreadObject(patch);
        store.UpdateUser(Some(JObj(patch)));
        effect := Some(Navigate(EditRoute));
    }
  }
}
