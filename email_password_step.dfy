/** The onboarding email and password step (`EmailPasswordStep`): the email
    pattern, the next-button rule, and the handlers that keep the email error
    and forward the fields to the wizard's draft. */
module EmailPasswordStep {
  import opened Wrappers
  import opened Text
  import opened Js
  import opened Ui

  const InvalidEmail := "올바른 이메일 형식을 입력해주세요."
  const MinPasswordLength := 6

  /** A character of the class `[^\s@]`. */
  predicate EmailChar(c: char) {
    !IsSpace(c) && c != '@'
  }

  predicate AllEmailChars(s: string) {
    forall k | 0 <= k < |s| :: EmailChar(s[k])
  }

  /** The language of `^[^\s@]+@[^\s@]+\.[^\s@]+$`: a non-empty local part,
      '@' at `i`, a non-empty domain part, '.' at `j`, and a non-empty tail,
      none of them holding whitespace or '@'. */
  predicate EmailSplit(e: string, i: int, j: int)
    requires 0 < i < j < |e|
  {
    e[i] == '@' && e[j] == '.' && i + 1 < j && j + 1 < |e|
    && AllEmailChars(e[..i]) && AllEmailChars(e[i + 1..j]) && AllEmailChars(e[j + 1..])
  }

  /** `isValidEmail`: `emailRegex.test(email)`. */
  predicate IsValidEmail(e: string) {
    exists i, j | 0 < i < j < |e| :: EmailSplit(e, i, j)
  }

  /** The same language described character by character: no whitespace,
      exactly one '@', which is not first, and a '.' somewhere after the
      character that follows the '@' and before the last character. */
  predicate EmailShape(e: string) {
    exists i | 0 < i < |e| :: ShapeAt(e, i)
  }

  /** The shape with its one '@' at `i`. */
  predicate ShapeAt(e: string, i: int)
    requires 0 < i < |e|
  {
    && i + 2 < |e| - 1
    && (forall k | 0 <= k < |e| :: !IsSpace(e[k]) && (e[k] == '@' <==> k == i))
    && '.' in e[i + 2..|e| - 1]
  }

  lemma {:induction false} SplitGivesShape(e: string, i: int, j: int)
    requires 0 < i < j < |e| && EmailSplit(e, i, j)
    ensures EmailShape(e)
  {
    forall k | 0 <= k < |e| ensures !IsSpace(e[k]) && (e[k] == '@' <==> k == i) {
      if k < i { assert e[..i][k] == e[k]; }
      else if i < k < j { assert e[i + 1..j][k - i - 1] == e[k]; }
      else if j < k { assert e[j + 1..][k - j - 1] == e[k]; }
    }
    assert e[i + 2..|e| - 1][j - i - 2] == '.';
    assert ShapeAt(e, i);
  }

  lemma {:induction false} ShapeGivesSplit(e: string)
    requires EmailShape(e)
    ensures IsValidEmail(e)
  {
    var i :| 0 < i < |e| && ShapeAt(e, i);
    var dots := e[i + 2..|e| - 1];
    var d :| 0 <= d < |dots| && dots[d] == '.';
    var j := i + 2 + d;
    assert e[j] == '.';
    var local, domain, tail := e[..i], e[i + 1..j], e[j + 1..];
    forall k | 0 <= k < |local| ensures EmailChar(local[k]) { assert local[k] == e[k]; }
    forall k | 0 <= k < |domain| ensures EmailChar(domain[k]) { assert domain[k] == e[i + 1 + k]; }
    forall k | 0 <= k < |tail| ensures EmailChar(tail[k]) { assert tail[k] == e[j + 1 + k]; }
    assert EmailSplit(e, i, j);
  }

  /** The pattern accepts exactly the strings of that shape. */
  lemma EmailPattern(e: string)
    ensures IsValidEmail(e) <==> EmailShape(e)
  {
    if IsValidEmail(e) {
      var i, j :| 0 < i < j < |e| && EmailSplit(e, i, j);
      SplitGivesShape(e, i, j);
    }
    if EmailShape(e) {
      ShapeGivesSplit(e);
    }
  }

  /** A valid email has no whitespace at either end, so trimming keeps it. */
  lemma ValidEmailIsTrimmed(e: string)
    requires IsValidEmail(e)
    ensures Trim(e) == e && !IsBlank(e)
  {
    EmailPattern(e);
    TrimOfUnpadded(e);
  }

  /** `isPasswordMatch`. */
  predicate PasswordMatch(password: string, confirm: string) {
    password == confirm && !IsBlank(confirm)
  }

  /** `isNextDisabled`; `password.length` counts UTF-16 code units. */
  predicate NextDisabledFor(email: string, password: string, confirm: string, emailError: string) {
    IsBlank(email) || IsBlank(password) || IsBlank(confirm) || !IsValidEmail(email)
    || Utf16Length(password) < MinPasswordLength || !PasswordMatch(password, confirm) || emailError != ""
  }

  /** The checks `handleNextClick` makes before advancing. */
  predicate ClickAdvancesFor(email: string, password: string, confirm: string) {
    !IsBlank(email) && !IsBlank(password) && password == confirm && IsValidEmail(email)
  }

  /** Whenever the button is enabled, clicking it advances. */
  lemma EnabledButtonAdvances(email: string, password: string, confirm: string, emailError: string)
    requires !NextDisabledFor(email, password, confirm, emailError)
    ensures ClickAdvancesFor(email, password, confirm)
  {
  }

  /** The click handler itself does not enforce the six-character minimum:
      a five-character password passes it while the button stays disabled. */
  lemma ClickSkipsMinimumLength()
    ensures ClickAdvancesFor("a@b.co", "12345", "12345")
    ensures NextDisabledFor("a@b.co", "12345", "12345", "")
  {
    SampleEmailValid();
    SamplePassword();
  }

  lemma SamplePassword()
    ensures !IsBlank("12345") && Utf16Length("12345") == 5
  {
    FiveDigitsNotBlank();
    FiveDigitsLength();
  }

  lemma FiveDigitsNotBlank()
    ensures !IsBlank("12345")
  {
    TrimOfUnpadded("12345");
  }

  lemma FiveDigitsLength()
    ensures Utf16Length("12345") == 5
  {
    var p := "12345";
    assert forall k | 0 <= k < |p| :: p[k] as int <= 0xFFFF;
    Utf16LengthOfBmp(p);
  }

  /** Without characters outside the Basic Multilingual Plane, `length` is
      the number of characters. */
  lemma {:induction false} Utf16LengthOfBmp(s: string)
    requires forall k | 0 <= k < |s| :: s[k] as int <= 0xFFFF
    ensures Utf16Length(s) == |s|
  {
    if s != [] {
      Utf16LengthOfBmp(s[..|s| - 1]);
    }
  }

  lemma SampleEmailValid()
    ensures IsValidEmail("a@b.co") && !IsBlank("a@b.co")
  {
    var e := "a@b.co";
    assert e[..1] == "a" && e[2..3] == "b" && e[4..] == "co";
    assert EmailSplit(e, 1, 3);
    ValidEmailIsTrimmed(e);
  }

  /** The draft fields a handler reports. */
  function Patch(key: string, value: string): Obj {
    map[key := JStr(value)]
  }

  class Step {
    var email: string
    var password: string
    var confirm: string
    var emailError: string
    var checkedEmail: bool

    /** Mounting with the draft's email and password (`data.email || ''`). */
    constructor (dataEmail: Option<string>, dataPassword: Option<string>)
      ensures email == dataEmail.GetOr("") && password == dataPassword.GetOr("")
      ensures confirm == "" && emailError == "" && !checkedEmail
    {
      email := dataEmail.GetOr("");
      password := dataPassword.GetOr("");
      confirm := "";
      emailError := "";
      checkedEmail := false;
    }

    predicate NextDisabled()
      reads this
    {
      NextDisabledFor(email, password, confirm, emailError)
    }

    /** `handleEmailChange`: the error and the checked flag are reset and the
        value goes to the draft. */
    method EmailChange(value: string) returns (effect: Effect)
      modifies this
      ensures email == value && emailError == "" && !checkedEmail
      ensures password == old(password) && confirm == old(confirm)
      ensures effect == Update(Patch("email", value))
    {
      email := value;
      emailError := "";
      checkedEmail := false;
      effect := Update(Patch("email", value));
    }

    /** `handleEmailBlur`: a blank email is left alone; otherwise the trimmed
        email is checked against the pattern. */
    method EmailBlur()
      modifies this
      ensures email == old(email) && password == old(password) && confirm == old(confirm)
      ensures if IsBlank(email) then emailError == old(emailError) && checkedEmail == old(checkedEmail)
              else if IsValidEmail(Trim(email)) then emailError == "" && checkedEmail
              else emailError == InvalidEmail && !checkedEmail
    {
      var trimmed := Trim(email);
      if trimmed == "" {
        return;
      }
      if !IsValidEmail(trimmed) {
        emailError := InvalidEmail;
        checkedEmail := false;
        return;
      }
      emailError := "";
      checkedEmail := true;
    }

    /** `handlePasswordChange`: the value goes to the draft. */
    method PasswordChange(value: string) returns (effect: Effect)
      modifies this
      ensures password == value && effect == Update(Patch("password", value))
      ensures email == old(email) && confirm == old(confirm) && emailError == old(emailError)
      ensures checkedEmail == old(checkedEmail)
    {
      password := value;
      effect := Update(Patch("password", value));
    }

    /** `handlePasswordConfirmChange`: the confirmation stays in the step and
        never reaches the draft. */
    method ConfirmChange(value: string)
      modifies this
      ensures confirm == value
      ensures email == old(email) && password == old(password) && emailError == old(emailError)
      ensures checkedEmail == old(checkedEmail)
    {
      confirm := value;
    }

    /** `handleNextClick`: blank fields or a mismatch do nothing; an email
        that fails the pattern sets the error; otherwise the wizard advances. */
    method NextClick() returns (effect: Option<Effect>)
      modifies this
      ensures email == old(email) && password == old(password) && confirm == old(confirm)
      ensures checkedEmail == old(checkedEmail)
      ensures effect.Some? <==> ClickAdvancesFor(email, password, confirm)
      ensures effect.Some? ==> effect.value == Advance
      ensures emailError == (if !IsBlank(email) && !IsBlank(password) && password == confirm && !IsValidEmail(email)
                             then InvalidEmail else old(emailError))
    {
      if IsBlank(email) || IsBlank(password) || password != confirm {
        return None;
      }
      if !IsValidEmail(email) {
        emailError := InvalidEmail;
        return None;
      }
      effect := Some(Advance);
    }
  }
}
