/** The mock login page: its three state cells and the fixed credential check. */
module LoginPage {
  const DemoEmail := "admin@example.com"
  const DemoPassword := "password"
  const AdminPath := "/admin"
  const InvalidMessage := "Invalid credentials"

  /** What a submit does: go to the admin area, or show an alert. */
  datatype Outcome = Navigate(path: string) | Alert(message: string)

  predicate CredentialsAccepted(email: string, password: string) {
    email == DemoEmail && password == DemoPassword
  }

  /** The submit rule: navigate exactly for the demo credentials, alert otherwise. */
  function SubmitOutcome(email: string, password: string): (o: Outcome)
    ensures o.Navigate? <==> CredentialsAccepted(email, password)
    ensures o.Navigate? ==> o.path == AdminPath
    ensures o.Alert? ==> o.message == InvalidMessage
  {
    if CredentialsAccepted(email, password) then Navigate(AdminPath) else Alert(InvalidMessage)
  }

  /** Any other password is turned away, whatever the email. */
  lemma WrongPasswordRejected(email: string, password: string)
    requires password != DemoPassword
    ensures SubmitOutcome(email, password) == Alert(InvalidMessage)
  {
  }

  class Form {
    var showPassword: bool
    var email: string
    var password: string

    /** The page opens pre-filled with the demo credentials and the password hidden. */
    constructor ()
      ensures !showPassword && email == DemoEmail && password == DemoPassword
      ensures CredentialsAccepted(email, password)
    {
      showPassword := false;
      email := DemoEmail;
      password := DemoPassword;
    }

    method TogglePasswordVisibility()
      modifies this`showPassword
      ensures showPassword == !old(showPassword)
    {
      showPassword := !showPassword;
    }

    method SetEmail(e: string)
      modifies this`email
      ensures email == e
    {
      email := e;
    }

    method SetPassword(p: string)
      modifies this`password
      ensures password == p
    {
      password := p;
    }

    /** `handleSubmit`, which changes no state of the form. */
    method HandleSubmit() returns (o: Outcome)
      ensures o == SubmitOutcome(email, password)
    {
      o := SubmitOutcome(email, password);
    }
  }

  /** Toggling the visibility twice restores it. */
  method ToggleTwice(f: Form)
    modifies f`showPassword
    ensures f.showPassword == old(f.showPassword)
  {
    f.TogglePasswordVisibility();
    f.TogglePasswordVisibility();
  }

  /** Submitting the untouched page logs in. */
  method SubmitUntouched() returns (o: Outcome)
    ensures o == Navigate(AdminPath)
  {
    var f := new Form();
    o := f.HandleSubmit();
  }
}
