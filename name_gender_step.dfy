/** The onboarding name and gender step (`NameAndGenderStep`): the name box,
    the two-option gender dropdown and the step's next button. */
module NameAndGenderStep {
  import opened Wrappers
  import opened Text
  import opened Js
  import opened Ui
  import Onboarding

  const Male := "남성"
  const Female := "여성"

  /** The labels the dropdown offers. */
  const GenderOptions: seq<string> := [Male, Female]

  /** `isNextDisabled`. */
  predicate NextDisabledFor(name: string, gender: string) {
    IsBlank(name) || gender == ""
  }

  class Step {
    var name: string
    var gender: string
    var dropdownOpen: bool

    /** Mounting with the draft's name and gender (`data.name || ''`). */
    constructor (dataName: Option<string>, dataGender: Option<string>)
      ensures name == dataName.GetOr("") && gender == dataGender.GetOr("") && !dropdownOpen
    {
      name := dataName.GetOr("");
      gender := dataGender.GetOr("");
      dropdownOpen := false;
    }

    predicate NextDisabled()
      reads this
    {
      NextDisabledFor(name, gender)
    }

    /** `handleNameChange`: the raw value, spaces included, goes to the draft. */
    method NameChange(value: string) returns (effect: Effect)
      modifies this
      ensures name == value && gender == old(gender) && dropdownOpen == old(dropdownOpen)
      ensures effect == Update(map["name" := JStr(value)])
    {
      name := value;
      effect := Update(map["name" := JStr(value)]);
    }

    /** The dropdown button toggles the option list. */
    method ToggleDropdown()
      modifies this
      ensures dropdownOpen == !old(dropdownOpen) && name == old(name) && gender == old(gender)
    {
      dropdownOpen := !dropdownOpen;
    }

    /** A mouse press outside the dropdown closes it. */
    method ClickOutside()
      modifies this
      ensures !dropdownOpen && name == old(name) && gender == old(gender)
    {
      dropdownOpen := false;
    }

    /** `handleGenderSelect`, reached only through one of the two options:
        the label is kept, the dropdown closes and the label goes to the draft. */
    method GenderSelect(option: nat) returns (effect: Effect)
      requires option < |GenderOptions|
      modifies this
      ensures gender == GenderOptions[option] && !dropdownOpen && name == old(name)
      ensures effect == Update(map["gender" := JStr(GenderOptions[option])])
    {
      gender := GenderOptions[option];
      dropdownOpen := false;
      effect := Update(map["gender" := JStr(gender)]);
    }

    /** `handleNextClick`: advances exactly when the button is enabled. */
    method NextClick() returns (effect: Option<Effect>)
      ensures effect.Some? <==> !IsBlank(name) && gender != ""
      ensures effect.Some? ==> effect.value == Advance
    {
      effect := if !IsBlank(name) && gender != "" then Some(Advance) else None;
    }
  }

  /** Every label the dropdown offers is one the wizard maps to the API's
      words, so a gender chosen here is never sent as it is. */
  lemma OptionsAreMapped(option: nat)
    requires option < |GenderOptions|
    ensures Onboarding.ApiGender(JStr(GenderOptions[option])) in {JStr("male"), JStr("female")}
  {
    assert ToStr(Some(JStr(GenderOptions[option]))) == GenderOptions[option];
  }
}
