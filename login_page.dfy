/** The sign-in form and its fixed pair of accounts. */
module LoginPage {

  import opened Common
  import opened Text
  import opened Records
  import opened AppRoutes
  import opened FormValidation

  const AdminUser := User("Admin Goma", Superviseur, "AG")
  const AgentUser := User("Agent Tambua", FieldAgent, "AT")
  const FailureMessage := "Adresse e-mail ou mot de passe incorrect."

  /** A sign-in either logs a user in and navigates, or reports an error. */
  datatype LoginOutcome = LoggedIn(user: User, destination: Path) | Failed(message: string)

  predicate IsAdminLogin(email: string, password: string)
  {
    Lower(email) == "admin@tambua.com" && password == "admin123"
  }

  predicate IsAgentLogin(email: string, password: string)
  {
    Lower(email) == "agent@tambua.com" && password == "agent123"
  }

  /** `handleLogin`'s decision: the e-mail is compared ignoring case, the password exactly. */
  function Authenticate(email: string, password: string): (r: LoginOutcome)
    ensures r == LoggedIn(AdminUser, ["dashboard"]) <==> IsAdminLogin(email, password)
    ensures r == LoggedIn(AgentUser, ["agent-dashboard"]) <==> IsAgentLogin(email, password)
    ensures r.Failed? <==> !IsAdminLogin(email, password) && !IsAgentLogin(email, password)
    ensures r.Failed? ==> r.message == FailureMessage
  {
    if IsAdminLogin(email, password) then LoggedIn(AdminUser, ["dashboard"])
    else if IsAgentLogin(email, password) then LoggedIn(AgentUser, ["agent-dashboard"])
    else Failed(FailureMessage)
  }

  /** The two accounts never overlap: no input logs in as both. */
  lemma AccountsExclusive(email: string, password: string)
    ensures !(IsAdminLogin(email, password) && IsAgentLogin(email, password))
  {
  }

  /** Typing the e-mail in capitals gives the same outcome. */
  lemma EmailCaseIgnored(email: string, password: string)
    ensures Authenticate(Upper(email), password) == Authenticate(email, password)
  {
    LowerOfUpper(email);
  }

  /** The password is compared case-sensitively: its upper-case form is refused. */
  lemma PasswordCaseMatters(email: string)
    ensures Authenticate(email, "ADMIN123").Failed? && Authenticate(email, "AGENT123").Failed?
  {
  }

  /**
   * The browser submits the form only when the e-mail input holds a valid
   * address (it is `type="email"` and `required`) and the `required`
   * password input is not empty.
   */
  predicate CanSubmit(email: string, password: string)
  {
    IsValidEmail(email) && password != ""
  }

  lemma AccountEmailsValid()
    ensures IsValidEmail("admin@tambua.com") && IsValidEmail("agent@tambua.com")
  {
    SimpleAddressValid("admin", "tambua", "com");
    assert "admin" + "@" + "tambua" + "." + "com" == "admin@tambua.com";
    SimpleAddressValid("agent", "tambua", "com");
    assert "agent" + "@" + "tambua" + "." + "com" == "agent@tambua.com";
  }

  /**
   * The browser's validation never stands in the way of a login: every
   * e-mail and password that `handleLogin` accepts passes it.
   */
  lemma LoginsPassValidation(email: string, password: string)
    requires Authenticate(email, password).LoggedIn?
    ensures CanSubmit(email, password)
  {
    AccountEmailsValid();
    ValidEmailIgnoresCase(email);
  }

  /** After a successful sign-in, the page navigated to is shown to the new session. */
  lemma LoginLandsOnPage(email: string, password: string)
    requires Authenticate(email, password).LoggedIn?
    ensures var r := Authenticate(email, password);
            Resolve(Session(true, Some(r.user)), r.destination).Show?
  {
    if IsAdminLogin(email, password) {
      AdminLandsOnDashboard();
    } else {
      AgentLandsOnDashboard();
    }
  }

  lemma AdminLandsOnDashboard()
    ensures Resolve(Session(true, Some(AdminUser)), ["dashboard"]) == Show(Dashboard)
  {
    LowerName("dashboard");
    SignedInRoutes(Session(true, Some(AdminUser)), ["dashboard"]);
  }

  lemma AgentLandsOnDashboard()
    ensures Resolve(Session(true, Some(AgentUser)), ["agent-dashboard"]) == Show(AgentDashboard)
  {
    LowerName("agent-dashboard");
    SignedInRoutes(Session(true, Some(AgentUser)), ["agent-dashboard"]);
  }

  class LoginPage {
    var email: string
    var password: string
    var error: string

    constructor ()
      ensures email == "" && password == "" && error == ""
    {
      email := "";
      password := "";
      error := "";
    }

    /** The e-mail input's `onChange`: the browser hands over the cleaned text. */
    method SetEmail(value: string)
      modifies this
      ensures email == SanitizeEmail(value) && password == old(password) && error == old(error)
    {
      email := SanitizeEmail(value);
    }

    /** The password input's `onChange`: the browser hands over the text without line breaks. */
    method SetPassword(value: string)
      modifies this
      ensures password == SanitizePassword(value) && email == old(email) && error == old(error)
    {
      password := SanitizePassword(value);
    }

    /**
     * Submitting the form. An empty or malformed e-mail or an empty password
     * stops the submit in the browser: `handleLogin` does not run and nothing
     * changes (`None`). Otherwise `handleLogin` clears the error, then either
     * logs the user in and navigates (returned to the caller) or sets the
     * error message.
     */
    method HandleLogin() returns (outcome: Option<LoginOutcome>)
      modifies this
      ensures outcome.Some? <==> CanSubmit(email, password)
      ensures outcome.Some? ==> outcome.value == Authenticate(email, password)
      ensures outcome.None? ==> error == old(error)
      ensures outcome.Some? ==> error == (if outcome.value.Failed? then FailureMessage else "")
      ensures email == old(email) && password == old(password)
    {
      if !CanSubmit(email, password) {
        return None;
      }
      error := "";
      var result := Authenticate(email, password);
      if result.Failed? {
        error := result.message;
      }
      outcome := Some(result);
    }
  }
}
