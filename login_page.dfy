/** The login page (client/pages/login.js).  The login call is an input:
    the signed-in user, or a failure carrying the server's message (empty
    when it sent none). */
module LoginPage {
  import opened Wrappers
  import opened Accounts
  import opened Navigation

  const CredentialFields: set<string> := {"email", "password"}
  const DefaultError := "Login failed"

  /** `error.response?.data?.message || 'Login failed'`. */
  function ErrorText(serverMessage: string): (text: string)
    ensures text != ""
    ensures serverMessage != "" ==> text == serverMessage
  {
    if serverMessage != "" then serverMessage else DefaultError
  }

  datatype Credentials = Credentials(email: string, password: string)

  class LoginForm {
    var formData: map<string, string>
    var loading: bool
    var error: string
    /** What the page handed to `setUser`, if anything. */
    var signedIn: Option<User>
    /** Where the page navigated, if anywhere. */
    var route: Option<Route>

    predicate Valid()
      reads this
    {
      CredentialFields <= formData.Keys
    }

    constructor ()
      ensures Valid()
      ensures formData == map["email" := "", "password" := ""]
      ensures !loading && error == "" && signedIn.None? && route.None?
    {
      formData := map["email" := "", "password" := ""];
      loading, error, signedIn, route := false, "", None, None;
    }

    /** `handleChange`: the named credential takes the new value; the other
        keeps its value. */
    method HandleChange(name: string, value: string)
      requires Valid()
      modifies this`formData
      ensures Valid()
      ensures formData == old(formData)[name := value]
      ensures forall k :: k in old(formData) && k != name ==> k in formData && formData[k] == old(formData)[k]
    {
      formData := formData[name := value];
    }

    /** The part of `handleSubmit` before the awaited call: the spinner is
        on and the old error is cleared before the credentials are sent. */
    method BeginSubmit() returns (credentials: Credentials)
      requires Valid()
      modifies this`loading, this`error
      ensures Valid()
      ensures loading && error == ""
      ensures credentials == Credentials(formData["email"], formData["password"])
    {
      loading := true;
      error := "";
      credentials := Credentials(formData["email"], formData["password"]);
    }

    /** The part of `handleSubmit` after the call settles: on success the
        user is set and then the dashboard opened; on failure the error is
        shown and no user is set; `loading` ends false either way. */
    method CompleteSubmit(reply: Result<User>)
      modifies this`loading, this`error, this`signedIn, this`route
      ensures !loading
      ensures reply.Ok? ==> signedIn == Some(reply.value) && route == Some(DashboardRoute) && error == old(error)
      ensures reply.Err? ==> error == ErrorText(reply.message) && signedIn == old(signedIn) && route == old(route)
    {
      match reply {
        case Ok(user) =>
          signedIn := Some(user);
          route := Some(DashboardRoute);
        case Err(message) =>
          error := ErrorText(message);
      }
      loading := false;
    }

    /** `handleSubmit` as a whole. */
    method HandleSubmit(reply: Result<User>) returns (credentials: Credentials)
      requires Valid()
      modifies this`loading, this`error, this`signedIn, this`route
      ensures Valid() && !loading
      ensures credentials == Credentials(formData["email"], formData["password"])
      ensures reply.Ok? ==> signedIn == Some(reply.value) && route == Some(DashboardRoute) && error == ""
      ensures reply.Err? ==> error == ErrorText(reply.message) && signedIn == old(signedIn) && route == old(route)
    {
      credentials := BeginSubmit();
      CompleteSubmit(reply);
    }

    /** The sign-in button is disabled while the request is in flight. */
    function SubmitDisabled(): (disabled: bool)
      reads this
      ensures disabled <==> loading
    {
      loading
    }
  }
}
