/** The errors the core throws, one constructor per distinct `Error` message. */
module Errors {

  datatype Error =
    | NoFreeSummariesRemaining   // "No free summaries remaining"
    | UserNotFound               // "User not found"
    | InvalidDetailLevel         // "Invalid detail level. Must be brief, normal, or detailed."
    | ValidationFailed           // a schema validator refused the document on save
    | MissingVerificationParameters  // "Missing required webhook verification parameters"
    | InvalidVerificationToken   // "Invalid webhook verification token"
    | MalformedPayload           // a property read on `undefined` while extracting a payload
}
