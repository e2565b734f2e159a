/**
 * The parts of the authentication service (src/app/services/auth.service.ts) that are not
 * calls into Firebase: the error-code translation, the temporary-credential slot and the
 * signed-in check. The signed-in user is the slot Firebase keeps, held here as a field.
 */
module Auth {
  import opened Wrappers
  import opened QuizModel

  const UnknownErrorCode := "auth/unknown-error"
  const DefaultErrorMessage := "Authentication failed"

  /** The code and message an error object may carry; an absent or empty one is falsy. */
  datatype ErrorInput = ErrorInput(code: Option<string>, message: Option<string>)

  /** AuthenticationError(code, message) */
  datatype AuthenticationError = AuthenticationError(code: string, message: string)

  datatype Credentials = Credentials(email: string, password: string)

  /** The seven codes with a fixed message. */
  const KnownMessages: map<string, string> := map[
    "auth/invalid-email" := "Invalid email address format",
    "auth/user-disabled" := "This user account has been disabled",
    "auth/user-not-found" := "No user found with this email",
    "auth/wrong-password" := "Incorrect password",
    "auth/email-already-in-use" := "Email is already registered",
    "auth/popup-closed-by-user" := "Login popup was closed",
    "auth/operation-not-allowed" := "Operation not allowed"]

  function Truthy(s: Option<string>): bool {
    s.Some? && s.value != ""
  }

  /** handleAuthError: the switch on the error's code. */
  function HandleAuthError(error: ErrorInput): AuthenticationError {
    var code := if error.code.Some? then error.code.value else "";
    if error.code.Some? && code == "auth/invalid-email" then AuthenticationError(code, "Invalid email address format")
    else if error.code.Some? && code == "auth/user-disabled" then AuthenticationError(code, "This user account has been disabled")
    else if error.code.Some? && code == "auth/user-not-found" then AuthenticationError(code, "No user found with this email")
    else if error.code.Some? && code == "auth/wrong-password" then AuthenticationError(code, "Incorrect password")
    else if error.code.Some? && code == "auth/email-already-in-use" then AuthenticationError(code, "Email is already registered")
    else if error.code.Some? && code == "auth/popup-closed-by-user" then AuthenticationError(code, "Login popup was closed")
    else if error.code.Some? && code == "auth/operation-not-allowed" then AuthenticationError(code, "Operation not allowed")
    else AuthenticationError(
      if Truthy(error.code) then error.code.value else UnknownErrorCode,
      if Truthy(error.message) then error.message.value else DefaultErrorMessage)
  }

  /**
   * A listed code keeps itself with its fixed message; any other code is passed through
   * (or becomes the unknown code when missing) with the error's own message or the default.
   * Either way the code is the input's whenever it has one, and the message is never empty.
   */
  lemma HandleAuthErrorTable(error: ErrorInput)
    ensures Truthy(error.code) && error.code.value in KnownMessages ==>
      HandleAuthError(error) == AuthenticationError(error.code.value, KnownMessages[error.code.value])
    ensures !(Truthy(error.code) && error.code.value in KnownMessages) ==>
      && HandleAuthError(error).code == (if Truthy(error.code) then error.code.value else UnknownErrorCode)
      && HandleAuthError(error).message == (if Truthy(error.message) then error.message.value else DefaultErrorMessage)
    ensures HandleAuthError(error).code == (if Truthy(error.code) then error.code.value else UnknownErrorCode)
    ensures HandleAuthError(error).message != ""
  {
  }

  class AuthService {
    var currentUser: Option<User>
    var tempCredentials: Option<Credentials>

    constructor ()
      ensures currentUser.None? && tempCredentials.None?
    {
      currentUser, tempCredentials := None, None;
    }

    /** isAuthenticated: a user is signed in. */
    predicate IsAuthenticated()
      reads this
    {
      currentUser.Some?
    }

    method StoreTemporaryCredentials(email: string, password: string)
      modifies this
      ensures tempCredentials == Some(Credentials(email, password)) && currentUser == old(currentUser)
    {
      tempCredentials := Some(Credentials(email, password));
    }

    function GetTemporaryCredentials(): Option<Credentials>
      reads this
    {
      tempCredentials
    }

    method ClearTemporaryCredentials()
      modifies this
      ensures tempCredentials.None? && currentUser == old(currentUser)
    {
      tempCredentials := None;
    }
  }

  /** Store then get returns what was stored; clear then get returns nothing. */
  method CredentialSlotRoundTrip(auth: AuthService, email: string, password: string)
    returns (stored: Option<Credentials>, cleared: Option<Credentials>)
    modifies auth
    ensures stored == Some(Credentials(email, password)) && cleared.None?
    ensures auth.currentUser == old(auth.currentUser)
  {
    auth.StoreTemporaryCredentials(email, password);
    stored := auth.GetTemporaryCredentials();
    auth.ClearTemporaryCredentials();
    cleared := auth.GetTemporaryCredentials();
  }
}
