/** The authentication error (src/errors/AuthError.ts). */
module Errors {

  /** The message for an error type: two known types, a default for all others. */
  function MessageFor(errorType: string): (message: string)
    ensures errorType == "token_expired" ==> message == "Your login has timed out. Please login again."
    ensures errorType == "invalid_token" ==> message == "Invalid session. Please login again."
    ensures errorType != "token_expired" && errorType != "invalid_token" ==>
              message == "Unauthorized. Please login again."
  {
    if errorType == "token_expired" then "Your login has timed out. Please login again."
    else if errorType == "invalid_token" then "Invalid session. Please login again."
    else "Unauthorized. Please login again."
  }

  /** The message tells the three cases apart, and every message asks the user to log in again. */
  lemma MessageIdentifiesCase(errorType: string)
    ensures MessageFor(errorType) == "Your login has timed out. Please login again." <==> errorType == "token_expired"
    ensures MessageFor(errorType) == "Invalid session. Please login again." <==> errorType == "invalid_token"
    ensures MessageFor(errorType) == "Unauthorized. Please login again." <==>
              errorType != "token_expired" && errorType != "invalid_token"
    ensures var m := MessageFor(errorType); |m| >= 19 && m[|m| - 19..] == "Please login again."
  {
  }

  class AuthError {
    var name: string
    var errorType: string
    var message: string

    constructor (errorType: string)
      ensures name == "TokenError"
      ensures this.errorType == errorType
      ensures message == MessageFor(errorType)
    {
      name := "TokenError";
      this.errorType := errorType;
      message := "Unauthorized. Please login again.";
      if errorType == "token_expired" {
        message := "Your login has timed out. Please login again.";
      } else if errorType == "invalid_token" {
        message := "Invalid session. Please login again.";
      }
    }
  }
}
