/** The password-reset page reached from the emailed link. */
module ResetPassword {
  import opened Api

  /** `PUT /api/users/reset-password/<token>` with body `{ password }`. */
  datatype ResetRequest = ResetRequest(token: string, password: string)

  const MismatchError := "Passwords do not match."
  const ResetError := "An error occurred."

  class ResetPasswordPage {
    var password: string
    var confirmPassword: string
    var message: string
    var error: string
    var loading: bool
    /** The route parameter of the link. */
    const token: string
    /** The navigation to the login page scheduled after a successful reset. */
    var redirect: Option<string>

    constructor (token: string)
      ensures this.token == token
      ensures password == "" && confirmPassword == "" && message == "" && error == ""
      ensures !loading && redirect == None
    {
      this.token := token;
      password, confirmPassword, message, error := "", "", "", "";
      loading, redirect := false, None;
    }

    /**
     * The synchronous part of `handleSubmit`. Different passwords: only the
     * error changes and no request is made. Equal ones: loading is set, both
     * messages cleared, and the request carries the route's token and the
     * new password only.
     */
    method BeginSubmit() returns (request: Option<ResetRequest>)
      modifies this
      ensures password == old(password) && confirmPassword == old(confirmPassword) && redirect == old(redirect)
      ensures old(password) != old(confirmPassword) ==>
                request == None && error == MismatchError && loading == old(loading) && message == old(message)
      ensures old(password) == old(confirmPassword) ==>
                request == Some(ResetRequest(token, old(password))) && loading && message == "" && error == ""
    {
      if password != confirmPassword {
        error := MismatchError;
        return None;
      }
      loading := true;
      message := "";
      error := "";
      request := Some(ResetRequest(token, password));
    }

    /** The settled request: the server's message and a redirect to `/login`, or an error; loading ends. */
    method FinishSubmit(response: Outcome<string>)
      modifies this
      ensures !loading
      ensures password == old(password) && confirmPassword == old(confirmPassword)
      ensures response.Resolved? ==> message == response.data && redirect == Some("/login") && error == old(error)
      ensures response.Rejected? ==> error == MessageOr(response.serverMessage, ResetError) && error != ""
                                     && message == old(message) && redirect == old(redirect)
    {
      match response {
        case Resolved(msg) =>
          message := msg;
          redirect := Some("/login");
        case Rejected(serverMessage) =>
          error := MessageOr(serverMessage, ResetError);
      }
      loading := false;
    }
  }
}
