/** The registration form: the request body it builds and its message states. */
module Register {
  import opened Api

  /** `{ name, email, password }`, with `secretKey` added only for an admin registration. */
  datatype RegisterPayload = RegisterPayload(name: string, email: string, password: string, secretKey: Option<string>)

  /** The key is attached when the admin box is checked and the key is non-empty (a truthy string). */
  function BuildUserData(name: string, email: string, password: string, isRegisteringAsAdmin: bool, secretKey: string)
    : (p: RegisterPayload)
    ensures p.name == name && p.email == email && p.password == password
    ensures p.secretKey.Some? <==> isRegisteringAsAdmin && secretKey != ""
    ensures p.secretKey.Some? ==> p.secretKey.value == secretKey
  {
    var userData := RegisterPayload(name, email, password, None);
    if isRegisteringAsAdmin && secretKey != "" then userData.(secretKey := Some(secretKey)) else userData
  }

  /** A key typed and then hidden by unticking the box is never sent. */
  lemma UncheckedSendsNoKey(name: string, email: string, password: string, secretKey: string)
    ensures BuildUserData(name, email, password, false, secretKey).secretKey == None
  {
  }

  const RegisterError := "An error occurred during registration."

  class RegisterPage {
    var name: string
    var email: string
    var password: string
    var secretKey: string
    var isRegisteringAsAdmin: bool
    var error: string
    var success: string
    var loading: bool

    constructor ()
      ensures name == "" && email == "" && password == "" && secretKey == ""
      ensures !isRegisteringAsAdmin && error == "" && success == "" && !loading
    {
      name, email, password, secretKey := "", "", "", "";
      isRegisteringAsAdmin, error, success, loading := false, "", "", false;
    }

    /** `success ? <message and login link> : <form>`: the form is shown while no success message is set. */
    predicate ShowsForm()
      reads this
    {
      success == ""
    }

    /** The synchronous part of `handleSubmit`: set loading, clear both messages, build the body. */
    method BeginSubmit() returns (payload: RegisterPayload)
      modifies this
      ensures loading && error == "" && success == ""
      ensures payload == BuildUserData(name, email, password, isRegisteringAsAdmin, secretKey)
      ensures name == old(name) && email == old(email) && password == old(password)
      ensures secretKey == old(secretKey) && isRegisteringAsAdmin == old(isRegisteringAsAdmin)
    {
      loading := true;
      error := "";
      success := "";
      payload := BuildUserData(name, email, password, isRegisteringAsAdmin, secretKey);
    }

    /**
     * The settled request: the server's message becomes the success text, or
     * the error is the server's message or the fallback; loading ends either way.
     */
    method FinishSubmit(response: Outcome<string>)
      modifies this
      ensures !loading
      ensures response.Resolved? ==> success == response.data && error == old(error)
      ensures response.Rejected? ==> error == MessageOr(response.serverMessage, RegisterError) && error != ""
                                     && success == old(success)
      ensures name == old(name) && email == old(email) && password == old(password)
      ensures secretKey == old(secretKey) && isRegisteringAsAdmin == old(isRegisteringAsAdmin)
    {
      match response {
        case Resolved(message) => success := message;
        case Rejected(serverMessage) => error := MessageOr(serverMessage, RegisterError);
      }
      loading := false;
    }
  }

  /**
   * A whole submission: a success with a non-empty message hides the form;
   * a failure leaves the form shown, with an error.
   */
  method Submit(page: RegisterPage, response: Outcome<string>) returns (payload: RegisterPayload)
    modifies page
    ensures payload == BuildUserData(old(page.name), old(page.email), old(page.password),
                                     old(page.isRegisteringAsAdmin), old(page.secretKey))
    ensures !page.loading
    ensures response.Resolved? ==> page.success == response.data && page.error == ""
    ensures response.Resolved? ==> (page.ShowsForm() <==> response.data == "")
    ensures response.Rejected? ==> page.ShowsForm() && page.success == ""
    ensures response.Rejected? ==> page.error == MessageOr(response.serverMessage, RegisterError) && page.error != ""
    ensures page.name == old(page.name) && page.email == old(page.email) && page.password == old(page.password)
    ensures page.secretKey == old(page.secretKey) && page.isRegisteringAsAdmin == old(page.isRegisteringAsAdmin)
  {
    payload := page.BeginSubmit();
    page.FinishSubmit(response);
  }
}
