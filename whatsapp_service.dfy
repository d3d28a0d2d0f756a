/** The webhook handshake check of src/services/whatsapp.js (`verifyWebhook`).
    `sendMessage` is modelled as an `Outgoing` entry in the handlers' outbox. */
module WhatsAppService {
  import opened Wrappers
  import opened Errors

  /** JavaScript truthiness of an optional string. */
  predicate Truthy(s: Option<string>)
  {
    s.Some? && s.value != ""
  }

  /** Echoes the challenge exactly when the mode is "subscribe" and the token
      is the configured verify token (`verifyToken`, itself possibly unset). */
  function VerifyWebhook(mode: Option<string>, token: Option<string>, challenge: Option<string>,
                         verifyToken: Option<string>): (r: Result<string, Error>)
    ensures !(Truthy(mode) && Truthy(token) && Truthy(challenge)) ==>
      r == Failure(MissingVerificationParameters)
    ensures r.Success? <==>
      Truthy(mode) && Truthy(token) && Truthy(challenge) && mode.value == "subscribe" && verifyToken == token
    ensures r.Success? ==> Some(r.value) == challenge
    ensures Truthy(mode) && Truthy(token) && Truthy(challenge) && r.Failure? ==>
      r.error == InvalidVerificationToken
  {
    if !Truthy(mode) || !Truthy(token) || !Truthy(challenge) then Failure(MissingVerificationParameters)
    else if mode.value == "subscribe" && token == verifyToken then Success(challenge.value)
    else Failure(InvalidVerificationToken)
  }
}
