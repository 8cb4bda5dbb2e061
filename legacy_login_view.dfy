/**
 * The older login screen: an email shape check and a six-character password
 * rule, then navigation to `index`. Its error line is shown under the email
 * field when it mentions `email` and under the password field when it
 * mentions `Password`; the older signup screen adds the two name fields.
 */
module LegacyLoginView {
  import opened JsValues
  import opened Validators
  import opened Platform

  const InvalidEmailMessage := "Invalid email format"
  /** Written as the keyword it is displayed by, followed by the rest of the sentence. */
  const ShortPasswordMessage := "Password" + " must be at least 6 characters long"

  /** The checks of `validateAndLogin`, in order; the first failure names the error. */
  function LegacyLoginCheck(email: string, password: string): (r: Option<string>)
    ensures r == Some(InvalidEmailMessage) <==> !IsEmail(email)
    ensures r == Some(ShortPasswordMessage) <==> IsEmail(email) && Utf16Length(password) < 6
    ensures r.None? <==> IsEmail(email) && Utf16Length(password) >= 6
  {
    if !IsEmail(email) then Some(InvalidEmailMessage)
    else if !LegacyPasswordLongEnough(password) then Some(ShortPasswordMessage)
    else None
  }

  /** The input fields of the older screens, each with the keyword its error line looks for. */
  datatype Field = FirstNameField | LastNameField | EmailField | PasswordField

  function Keyword(f: Field): (k: string)
    ensures |k| >= 5
  {
    match f
    case FirstNameField => "First name"
    case LastNameField => "Last name"
    case EmailField => "email"
    case PasswordField => "Password"
  }

  /** `error.includes(keyword) && <Text>{error}</Text>` below the field. */
  predicate ShownUnder(error: string, f: Field)
  {
    Includes(error, Keyword(f))
  }

  /** The cleared error line is shown nowhere. */
  lemma EmptyErrorIsHidden(f: Field)
    ensures !ShownUnder("", f)
  {
  }

  /** Each login error appears below its own field and below no other. */
  lemma InvalidEmailShownUnderEmail()
    ensures ShownUnder(InvalidEmailMessage, EmailField) && !ShownUnder(InvalidEmailMessage, PasswordField)
  {
    assert OccursAt(InvalidEmailMessage, "email", 8);
    CharAbsent(InvalidEmailMessage, "Password", 0);
  }

  lemma ShortPasswordShownUnderPassword()
    ensures ShownUnder(ShortPasswordMessage, PasswordField) && !ShownUnder(ShortPasswordMessage, EmailField)
  {
    IncludesPrefix("Password", " must be at least 6 characters long");
    CharAbsent(ShortPasswordMessage, "email", 3);
  }

  /** The screen's three `useState` slots. */
  class LegacyLoginScreen {
    var email: string
    var password: string
    var error: string

    constructor ()
      ensures email == "" && password == "" && error == ""
    {
      email, password, error := "", "", "";
    }

    /**
     * `validateAndLogin`: a failed check sets its message and stays; otherwise
     * the error is cleared and the screen navigates to `index`. No request is made.
     */
    method ValidateAndLogin(router: Router)
      modifies this, router
      ensures email == old(email) && password == old(password)
      ensures LegacyLoginCheck(old(email), old(password)).Some? ==>
        error == LegacyLoginCheck(old(email), old(password)).value && router.history == old(router.history)
      ensures LegacyLoginCheck(old(email), old(password)).None? ==>
        error == "" && router.history == old(router.history) + [NavigateTo("index")]
    {
      if !IsEmail(email) {
        error := InvalidEmailMessage;
        return;
      }
      if Utf16Length(password) < 6 {
        error := ShortPasswordMessage;
        return;
      }
      error := "";
      router.Navigate("index");
    }
  }
}
