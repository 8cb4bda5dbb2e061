/**
 * The older signup screen: first name, last name, email shape and a
 * six-character password, checked in that order, then navigation to `index`.
 * Its error line is shown under every field whose keyword it mentions.
 */
module LegacySignupView {
  import opened JsValues
  import opened Validators
  import opened Platform
  import opened LegacyLoginView

  /** Written, like the password message, as their keyword followed by the rest of the sentence. */
  const FirstNameMessage := "First name" + " can only contain letters and hyphens"
  const LastNameMessage := "Last name" + " can only contain letters"

  /** The checks of `validateAndSignup`, in order; the first failure names the error. */
  function LegacySignupCheck(firstName: string, lastName: string, email: string, password: string): (r: Option<string>)
    ensures r == Some(FirstNameMessage) <==> !FirstNameValid(firstName)
    ensures r == Some(LastNameMessage) <==> FirstNameValid(firstName) && !LastNameValid(lastName)
    ensures r == Some(InvalidEmailMessage) <==>
            FirstNameValid(firstName) && LastNameValid(lastName) && !IsEmail(email)
    ensures r == Some(ShortPasswordMessage) <==>
            FirstNameValid(firstName) && LastNameValid(lastName) && IsEmail(email) && Utf16Length(password) < 6
    ensures r.None? <==>
            FirstNameValid(firstName) && LastNameValid(lastName) && IsEmail(email) && Utf16Length(password) >= 6
  {
    if !FirstNameValid(firstName) then Some(FirstNameMessage)
    else if !LastNameValid(lastName) then Some(LastNameMessage)
    else if !IsEmail(email) then Some(InvalidEmailMessage)
    else if !LegacyPasswordLongEnough(password) then Some(ShortPasswordMessage)
    else None
  }

  /** A hyphenated last name is refused, though the same text would pass as a first name. */
  lemma HyphenatedLastNameRefused(firstName: string, a: string, b: string, email: string, password: string)
    requires FirstNameValid(firstName) && LastNameValid(a) && LastNameValid(b)
    ensures LegacySignupCheck(firstName, a + "-" + b, email, password) == Some(LastNameMessage)
    ensures FirstNameValid(a + "-" + b)
  {
    HyphenOnlyInFirstName(a, b);
  }

  lemma FirstNameErrorOffLastName()
    ensures !ShownUnder(FirstNameMessage, LastNameField)
  {
    CharAbsent(FirstNameMessage, "Last name", 0);
  }

  lemma FirstNameErrorOffPassword()
    ensures !ShownUnder(FirstNameMessage, PasswordField)
  {
    CharAbsent(FirstNameMessage, "Password", 0);
  }

  lemma FirstNameErrorOffEmail()
    ensures !ShownUnder(FirstNameMessage, EmailField)
  {
    assert NoPair("First name", 'e', 'm');
    PairAbsent("First name", " can only contain letters and hyphens", "email");
  }

  /** The first-name error appears below the first-name field only. */
  lemma FirstNameErrorShownUnderFirstName()
    ensures ShownUnder(FirstNameMessage, FirstNameField)
    ensures !ShownUnder(FirstNameMessage, LastNameField) && !ShownUnder(FirstNameMessage, EmailField)
    ensures !ShownUnder(FirstNameMessage, PasswordField)
  {
    IncludesPrefix("First name", " can only contain letters and hyphens");
    FirstNameErrorOffLastName();
    FirstNameErrorOffPassword();
    FirstNameErrorOffEmail();
  }

  lemma LastNameErrorOffFirstName()
    ensures !ShownUnder(LastNameMessage, FirstNameField)
  {
    CharAbsent(LastNameMessage, "First name", 0);
  }

  lemma LastNameErrorOffPassword()
    ensures !ShownUnder(LastNameMessage, PasswordField)
  {
    CharAbsent(LastNameMessage, "Password", 0);
  }

  lemma LastNameErrorOffEmail()
    ensures !ShownUnder(LastNameMessage, EmailField)
  {
    assert NoPair("Last name", 'e', 'm');
    PairAbsent("Last name", " can only contain letters", "email");
  }

  /** The last-name error appears below the last-name field only. */
  lemma LastNameErrorShownUnderLastName()
    ensures ShownUnder(LastNameMessage, LastNameField)
    ensures !ShownUnder(LastNameMessage, FirstNameField) && !ShownUnder(LastNameMessage, EmailField)
    ensures !ShownUnder(LastNameMessage, PasswordField)
  {
    IncludesPrefix("Last name", " can only contain letters");
    LastNameErrorOffFirstName();
    LastNameErrorOffPassword();
    LastNameErrorOffEmail();
  }

  /** The email error stays off the two name fields. */
  lemma InvalidEmailNotShownUnderNames()
    ensures !ShownUnder(InvalidEmailMessage, FirstNameField) && !ShownUnder(InvalidEmailMessage, LastNameField)
  {
    CharAbsent(InvalidEmailMessage, "First name", 0);
    CharAbsent(InvalidEmailMessage, "Last name", 0);
  }

  lemma ShortPasswordOffFirstName()
    ensures !ShownUnder(ShortPasswordMessage, FirstNameField)
  {
    CharAbsent(ShortPasswordMessage, "First name", 0);
  }

  lemma ShortPasswordOffLastName()
    ensures !ShownUnder(ShortPasswordMessage, LastNameField)
  {
    CharAbsent(ShortPasswordMessage, "Last name", 0);
  }

  /** So does the password error. */
  lemma ShortPasswordNotShownUnderNames()
    ensures !ShownUnder(ShortPasswordMessage, FirstNameField) && !ShownUnder(ShortPasswordMessage, LastNameField)
  {
    ShortPasswordOffFirstName();
    ShortPasswordOffLastName();
  }

  /** The screen's five `useState` slots. */
  class LegacySignupScreen {
    var firstName: string
    var lastName: string
    var email: string
    var password: string
    var error: string

    constructor ()
      ensures firstName == "" && lastName == "" && email == "" && password == "" && error == ""
    {
      firstName, lastName, email, password, error := "", "", "", "", "";
    }

    /**
     * `validateAndSignup`: a failed check sets its message and stays; otherwise
     * the error is cleared and the screen navigates to `index`. No request is
     * made and no field is cleared.
     */
    method ValidateAndSignup(router: Router)
      modifies this, router
      ensures firstName == old(firstName) && lastName == old(lastName)
      ensures email == old(email) && password == old(password)
      ensures LegacySignupCheck(old(firstName), old(lastName), old(email), old(password)).Some? ==>
        && error == LegacySignupCheck(old(firstName), old(lastName), old(email), old(password)).value
        && router.history == old(router.history)
      ensures LegacySignupCheck(old(firstName), old(lastName), old(email), old(password)).None? ==>
        error == "" && router.history == old(router.history) + [NavigateTo("index")]
    {
      if !FirstNameValid(firstName) {
        error := FirstNameMessage;
        return;
      }
      if !LastNameValid(lastName) {
        error := LastNameMessage;
        return;
      }
      if !IsEmail(email) {
        error := InvalidEmailMessage;
        return;
      }
      if Utf16Length(password) < 6 {
        error := ShortPasswordMessage;
        return;
      }
      error := "";
      router.Navigate("index");
    }
  }
}
