/**
 * The login form: two required fields and the message shown when the login
 * request fails.
 */
module LoginPage {
  import opened Js
  import AuthSlice

  const USERNAME_REQUIRED := "L'adresse e-mail est requise"
  const PASSWORD_REQUIRED := "Le mot de passe est requis"
  const WRONG_CREDENTIALS := "Nom d'utilisateur ou mot de passe incorrect."
  const GENERIC_FAILURE := "Une erreur est survenue."

  /** The message for a failed login, from the HTTP status of the response
      (absent when no response came back). */
  function LoginFailureMessage(httpStatus: Option<int>): (m: string)
    ensures m == WRONG_CREDENTIALS <==> httpStatus == Some(401)
    ensures m != WRONG_CREDENTIALS ==> m == GENERIC_FAILURE
  {
    if httpStatus == Some(401) then WRONG_CREDENTIALS else GENERIC_FAILURE
  }

  /** A 403 restores no session, yet on the login form it reads as a generic
      failure rather than as wrong credentials. */
  lemma ForbiddenReadsDifferently()
    ensures AuthSlice.ClassifySessionFailure(Some(403)) == AuthSlice.UNAUTHENTICATED
    ensures LoginFailureMessage(Some(403)) == GENERIC_FAILURE
    ensures AuthSlice.ClassifySessionFailure(Some(401)) == AuthSlice.UNAUTHENTICATED
    ensures LoginFailureMessage(Some(401)) == WRONG_CREDENTIALS
  {
  }

  datatype Credentials = Credentials(username: string, password: string)

  datatype LoginErrors = LoginErrors(username: Option<string>, password: Option<string>)

  /** The `required` rule of each field: only the empty value is refused. */
  function RequiredErrors(c: Credentials): (e: LoginErrors)
    ensures e.username.None? <==> c.username != ""
    ensures e.password.None? <==> c.password != ""
    ensures e.username.Some? ==> e.username.value == USERNAME_REQUIRED
    ensures e.password.Some? ==> e.password.value == PASSWORD_REQUIRED
  {
    LoginErrors(
      if c.username == "" then Some(USERNAME_REQUIRED) else None,
      if c.password == "" then Some(PASSWORD_REQUIRED) else None)
  }

  class LoginForm {
    var values: Credentials
    var errors: LoginErrors
    var backendError: Option<string>
    /** react-hook-form's `isSubmitted`: set by the first submit, even one
        the rules refuse. */
    var isSubmitted: bool

    /** Once the form has been submitted, the messages shown are exactly the
        required rules applied to the current values. */
    predicate Valid()
      reads this
    {
      isSubmitted ==> errors == RequiredErrors(values)
    }

    constructor ()
      ensures values == Credentials("", "") && errors == LoginErrors(None, None) && backendError == None
      ensures !isSubmitted && Valid()
    {
      values, errors, backendError := Credentials("", ""), LoginErrors(None, None), None;
      isSubmitted := false;
    }

    /** Typing in the fields. With the library's default modes (validate on
        submit, re-validate on change) nothing is checked before the first
        submit; afterwards each changed field gets its `required` message
        again, and an unchanged field keeps the one it has. */
    method SetValues(c: Credentials)
      modifies this
      ensures values == c && backendError == old(backendError) && isSubmitted == old(isSubmitted)
      ensures !old(isSubmitted) ==> errors == old(errors)
      ensures old(isSubmitted) ==>
        errors.username == (if c.username != old(values).username then RequiredErrors(c).username else old(errors).username)
      ensures old(isSubmitted) ==>
        errors.password == (if c.password != old(values).password then RequiredErrors(c).password else old(errors).password)
      ensures old(Valid()) ==> Valid()
    {
      if isSubmitted {
        var rules := RequiredErrors(c);
        var username := if c.username != values.username then rules.username else errors.username;
        var password := if c.password != values.password then rules.password else errors.password;
        errors := LoginErrors(username, password);
      }
      values := c;
    }

    /** `handleSubmit(onSubmit)`: the required rules first; only filled-in
        credentials are sent, after the previous message is cleared; a failed
        login then shows the message for its status. */
    method Submit(login: Outcome<()>) returns (sent: Option<Credentials>)
      modifies this
      ensures errors == RequiredErrors(old(values)) && values == old(values)
      ensures isSubmitted && Valid()
      ensures sent.Some? <==> values.username != "" && values.password != ""
      ensures sent.Some? ==> sent.value == values
      ensures sent.None? ==> backendError == old(backendError)
      ensures sent.Some? && login.Ok? ==> backendError == None
      ensures sent.Some? && login.Err? ==> backendError == Some(LoginFailureMessage(login.error.status))
    {
      errors := RequiredErrors(values);
      isSubmitted := true;
      if errors != LoginErrors(None, None) {
        return None;
      }
      sent := Some(values);
      backendError := None;
      if login.Err? {
        backendError := Some(LoginFailureMessage(login.error.status));
      }
    }
  }

  /** Submitting an empty form shows both messages; typing a user name then
      removes that field's message at once, and clearing it brings it back. */
  method RetypingAfterRefusedSubmit(login: Outcome<()>)
    returns (refused: LoginErrors, typed: LoginErrors, cleared: LoginErrors)
    ensures refused == LoginErrors(Some(USERNAME_REQUIRED), Some(PASSWORD_REQUIRED))
    ensures typed == LoginErrors(None, Some(PASSWORD_REQUIRED))
    ensures cleared == refused
  {
    var form := new LoginForm();
    var sent := form.Submit(login);
    refused := form.errors;
    form.SetValues(Credentials("a", ""));
    typed := form.errors;
    form.SetValues(Credentials("", ""));
    cleared := form.errors;
  }
}
