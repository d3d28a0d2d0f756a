# Audio2Summary: free-summary ledger, message routers and billing callbacks

Audio2Summary is a WhatsApp bot. It turns voice messages into summaries, and each user gets a small free quota. This project models the sequential core of the bot in Dafny and proves properties of that model. The core has five parts:

- **The user document** (`src/models/user.js`). This covers the schema defaults and the `min: 0` and `required` validators. It also covers `updateLastInteraction`, `hasFreeSummaries`, `useFreeSummary` and `addFreeSummaries`.
  - The pure value is `UserModel.UserState`.
  - The stored, mutable document is `class UserModel.User`, whose methods are proved equal to the value functions.
- **The user service** (`src/services/user.js`). This is a store of documents keyed by phone number, with the operations `getOrCreateUser`, `checkSummaryAvailability`, `useSummary`, `addBonusSummaries`, `setSummaryDetailLevel`, `getUserPreferences` and `getUserStats`.
  - The specification is `UserService.Db`, a value holding `map<string, UserState>`.
  - The store is `class UserService.UserStore`, which holds `map<string, User>`. Each of its methods is proved to leave the store whose snapshot the `Db` operation gives.
- **The two inbound message controllers** (`src/controllers/whatsapp.js` and `src/controllers/webhook.js`).
  - Each has a payload validator, an extractor and a case-sensitive `startsWith` command chain: status, subscribe, unsubscribe (in `whatsapp.js` only), detail, audio or voice, and help.
  - For each controller, `MessageOutcome` gives the HTTP status, the outbox of messages sent and the resulting store. `HandleMessage` runs the same chain against a `UserStore` and is proved to match it.
- **The handshake check** (`verifyWebhook` in `src/services/whatsapp.js`).
- **The PayPal callbacks** (`src/controllers/paypal.js`). These are the signature gate and event-type notices of `handleWebhook`, the id match that is the only path to ACTIVE inside `handleSuccess`, and `handleCancel`.

Several operations are called by the core but defined in none of its files:
- `initiateSubscription`, `cancelSubscription` and `getUserStatus` on the user service;
- `cancelSubscription` and `verifyWebhookSignature` on the PayPal service;
- `handlePayPalWebhook` and `findBySubscriptionId`;
- `user.setSubscription` and `user.isSubscribed`;
- transcription.

The model treats them as follows:
- Their results are inputs: the `Outcomes` record, a signature verdict `bool` and a `BillingUpdate`. In `Outcomes` and `BillingUpdate`, `None`, `false` or `UpdateFailed` stands for a call that throws. `findBySubscriptionId`, `user.setSubscription` and the database itself get no such input: they are taken never to throw (see "## Left out"). The signature check catches its own errors and answers false (`src/services/paypal.js:117-147`), so a false verdict covers both an invalid signature and a failed check.
- Their effects on the store are one user's subscription record being replaced (`Db.ReplaceSubscription`).
- `isSubscribed` is read as "the subscription record has status ACTIVE".
- `findBySubscriptionId` returns some user whose record carries the id.

`whatsapp.js` passes the user document where the service expects a phone number (`src/controllers/whatsapp.js:50,87,146,165,193,199` against `src/services/user.js:29,46,103,129`). The model calls the service by phone number, which is the contract the service declares.

Replies are tags (`Messaging.Reply`), not message texts. `sendMessage` is an entry appended to the returned outbox.

## Model

| member | source | states |
|---|---|---|
| UserModel.NewUser | src/models/user.js:3-47 | a new document has the given phone, 10 free summaries, 0 used, messageCount 1, level normal, active, and no subscription; it passes the validators exactly when the phone is non-empty |
| UserModel.ParseLevel | src/models/user.js:32-36 | the level enum accepts exactly "brief", "normal" and "detailed", and the accepted level's name is the input |
| UserModel.LevelNameParses | src/models/user.js:32-36 | every level's name parses back to that level |
| UserModel.UserState.UpdateLastInteraction | src/models/user.js:50-54 | messageCount goes up by exactly 1; no other field changes; well-formedness is kept |
| UserModel.UserState.UseFreeSummary | src/models/user.js:62-70 | fails with "no free summaries remaining" exactly when the quota is not positive; otherwise the quota drops by 1 and the total rises by 1, nothing else changes, and the quota stays >= 0 |
| UserModel.UserState.AddFreeSummaries | src/models/user.js:73-76 | adds exactly `count` to the quota and changes nothing else; when the sum would be negative, the `min: 0` validator refuses the save (src/models/user.js:26) |
| UserModel.UseManyConserves | src/models/user.js:62-70 | n successive uses succeed exactly when the quota holds n; they then move exactly n units from the quota to the total, and the quota never goes negative |
| UserModel.User.constructor | src/models/user.js:3-47 | a new stored document equals `NewUser(phone)` |
| UserModel.User.UpdateLastInteraction | src/models/user.js:50-54 | the document's new state is `UpdateLastInteraction` of its old state |
| UserModel.User.HasFreeSummaries | src/models/user.js:57-59 | true exactly when the stored quota is positive |
| UserModel.User.UseFreeSummary | src/models/user.js:62-70 | the new state is `UseFreeSummary` of the old state; on failure it reports the error and nothing changes |
| UserModel.User.AddFreeSummaries | src/models/user.js:73-76 | the new state is `AddFreeSummaries(count)` of the old state; a refused save changes nothing |
| UserModel.User.SetSubscription | src/controllers/paypal.js:63 | only the subscription record changes, to the given id (possibly absent) and status |
| UserService.Db.GetOrCreateUser | src/services/user.js:4-27 | a known phone has its messageCount bumped and no record is created; an unseen non-empty phone gets exactly one new record with the defaults; an empty phone fails and changes nothing; afterwards the phone is a key, and the store stays keyed by each document's own phone |
| UserService.Db.CheckSummaryAvailability | src/services/user.js:29-44 | fails with "User not found" exactly for an unknown phone; otherwise reports hasFreeSummaries (quota > 0), the quota and the total |
| UserService.Db.UseSummary | src/services/user.js:46-61 | an unknown user or an empty quota fails and changes nothing; otherwise that user's `useFreeSummary` is applied and the counters after the decrement are returned |
| UserService.Db.AddBonusSummaries | src/services/user.js:63-75 | returns the previous quota plus `count` and stores it; an unknown user fails with no change |
| UserService.Db.SetSummaryDetailLevel | src/services/user.js:103-127 | a level outside brief, normal and detailed is rejected before the lookup, with no change; otherwise only that user's level is set, and the message is "Summary detail level set to: " followed by the level |
| UserService.Db.GetUserPreferences | src/services/user.js:129-143 | fails with "User not found" exactly for an unknown phone; otherwise returns the stored detail level |
| UserService.Db.ReplaceSubscription | src/controllers/whatsapp.js:87-115 | the effect of the undefined subscription operations: only that user's subscription record changes, and validity is kept |
| UserService.Db.UserStats | src/services/user.js:81-101 | totalUsers is the store size; the active and with-free-summaries counts are bounded by it; an empty store gives all zeros |
| UserService.UseSummaryCountsOnce | src/services/user.js:46-61 | a successful `useSummary` raises the store-wide usage total by exactly 1 and leaves the user count alone |
| UserService.Tally | src/services/user.js:81-101 | the document-by-document counts and sum equal `UserStats`: users with active set, users with quota > 0, and the sum of totals |
| UserService.UserStore.constructor | src/services/user.js:3 | an empty store |
| UserService.UserStore.GetOrCreateUser | src/services/user.js:4-27 | the store's new snapshot and the result are those of `Db.GetOrCreateUser` |
| UserService.UserStore.Touch | src/services/user.js:16-19 | the known-user branch: the snapshot and result of `Db.GetOrCreateUser` |
| UserService.UserStore.Create | src/services/user.js:8-14 | the new-user branch: the snapshot and result of `Db.GetOrCreateUser` |
| UserService.UserStore.CheckSummaryAvailability | src/services/user.js:29-44 | the result is `Db.CheckSummaryAvailability` of the snapshot, and nothing is modified |
| UserService.UserStore.UseSummary | src/services/user.js:46-61 | the new snapshot and the result are those of `Db.UseSummary` |
| UserService.UserStore.AddBonusSummaries | src/services/user.js:63-75 | the new snapshot and the result are those of `Db.AddBonusSummaries` |
| UserService.UserStore.SetSummaryDetailLevel | src/services/user.js:103-127 | the new snapshot and the result are those of `Db.SetSummaryDetailLevel` |
| UserService.UserStore.GetUserPreferences | src/services/user.js:129-143 | the result is `Db.GetUserPreferences` of the snapshot, and nothing is modified |
| UserService.UserStore.SetSubscription | src/controllers/paypal.js:63 | the new snapshot replaces only that phone's subscription with (id, status) |
| UserService.UserStore.ReplaceSubscription | src/controllers/whatsapp.js:87-115 | the new snapshot is `Db.ReplaceSubscription` of the old one |
| UserService.UserStore.FindBySubscriptionId | src/controllers/paypal.js:21-22 | a returned phone holds a subscription with that id; `None` means no user does |
| UserService.UserStore.GetUserStats | src/services/user.js:81-101 | returns `UserStats` of the snapshot, without modifying the store |
| WhatsAppService.VerifyWebhook | src/services/whatsapp.js:50-60 | a missing or empty mode, token or challenge fails as "missing parameters"; the challenge comes back unchanged exactly when mode is "subscribe" and the token equals the configured one; any other mode or token fails as "invalid token" |
| Messaging.MessageDataOf | src/controllers/whatsapp.js:252-259 | the extracted record copies type, sender, id and text, takes the phone-number id from the metadata, and takes `audio`, falling back to `voice` |
| Messaging.CommandPrefixesExclusive | src/controllers/whatsapp.js:49-132 | no text starts with two of "/status", "/subscribe", "/unsubscribe" and "/detail", so the order of the `startsWith` tests never decides between them |
| Messaging.ConfinedThroughLookup | src/services/user.js:4-27 | the lookup-or-create at the head of each handler moves no quota or total, so a handler step confined to the sender and metered leaves the whole handler so |
| WhatsAppController.VerificationResponse | src/controllers/whatsapp.js:8-26 | 200 with the challenge exactly when the handshake check passes, 403 otherwise |
| WhatsAppController.ExtractMessageData | src/controllers/whatsapp.js:244-260 | success projects the first message of the first change with its metadata; for a payload the validator accepts, extraction fails exactly when metadata is missing |
| WhatsAppController.Classify | src/controllers/whatsapp.js:49-222 | status, subscribe, unsubscribe and detail are each chosen exactly when the text starts with "/status", "/subscribe", "/unsubscribe" or "/detail" respectively; audio or voice types are the only route to the audio branch; a message with no "/" text is audio for those types and help otherwise |
| WhatsAppController.DetailOutcome | src/controllers/whatsapp.js:132-162 | answers 200; a token count other than 2 gives the usage text with no change; with exactly 2 tokens, a lower-cased second token that is not a level, or an unknown sender, gives the invalid-level text with no change, and otherwise the sender's level is set to it and the confirmation "Summary detail level set to: " plus that token is sent; only the sender's detail level can change; validity is kept |
| WhatsAppController.AudioOutcome | src/controllers/whatsapp.js:164-212 | an unknown sender gives 500 with no change; no quota gives the notice and no change; quota without a media id gives the unreadable-audio text and no change; quota, a media id and a returned transcription charge the sender one `useSummary` and send exactly "processing" then the summary; a failed transcription sends "processing" then the error text and charges nothing; conversely any store change is that charge; every user stays metered |
| WhatsAppController.Dispatch | src/controllers/whatsapp.js:47-224 | only the sender's record can change; every quota drops by at most 1 with quota plus total conserved; a total that moved means a summary was the second message sent; "/status" changes nothing, sends the report and answers 500 exactly when the status call throws; "/subscribe" answers 200 with one message and can change only a subscription record |
| WhatsAppController.MessageOutcome | src/controllers/whatsapp.js:28-229 | an invalid payload gives 200 and no change; a failed extraction gives 500 and no change; a "status" type gives 200 before any user is touched; otherwise only the sender is created or changed, quotas are metered, usage (for a stored sender or one this message creates) only accompanies a sent summary, and store validity is kept |
| WhatsAppController.HelpDoesNotMutate | src/controllers/whatsapp.js:213-222 | an unrecognised message gets the help text, and the only change is the sender's lookup-or-create |
| WhatsAppController.DetailNeedsOneArgument | src/controllers/whatsapp.js:133-142 | "/detail" with a token count other than 2 sends the usage text, and no level changes |
| WhatsAppController.StatusIsReadOnly | src/controllers/whatsapp.js:49-75 | for any sender the lookup accepts, "/status" sends the report and changes nothing beyond the lookup, or answers 500 when the status call throws |
| WhatsAppController.SubscribeInitiates | src/controllers/whatsapp.js:77-101 | a sender who is not subscribed, new ones included, gets the link and the returned record is stored; when the initiation throws, the error text is sent and nothing beyond the lookup changes |
| WhatsAppController.SubscribeWhenSubscribed | src/controllers/whatsapp.js:79-86 | a subscribed user's "/subscribe" sends the notice, and no subscription is initiated |
| WhatsAppController.UnsubscribeWhenNotSubscribed | src/controllers/whatsapp.js:104-111 | a sender who is not subscribed, a first-time sender included, gets only the not-subscribed notice, and nothing but the lookup changes |
| WhatsAppController.UnsubscribeCancels | src/controllers/whatsapp.js:112-119 | when both cancellations succeed, the sender's subscription record becomes the one the local cancellation returned and the cancellation notice is sent |
| WhatsAppController.UnsubscribeNeedsBillingCancel | src/controllers/whatsapp.js:104-128 | when the PayPal cancellation fails, the local cancellation is skipped and the error text is sent |
| WhatsAppController.AudioWithoutQuota | src/controllers/whatsapp.js:164-174 | a user without quota gets the notice and nothing beyond the lookup changes, so quota and total are unchanged |
| WhatsAppController.NoTranscriptionNoCharge | src/controllers/whatsapp.js:176-212 | with no media id, or a failed transcription, the store is what the lookup left: a stored sender's quota and total are unchanged, and a first-time sender's record is the new one |
| WhatsAppController.HandleMessage | src/controllers/whatsapp.js:28-229 | run against the store, gives the status code, outbox and new snapshot of `MessageOutcome` |
| WhatsAppController.HandleCommand | src/controllers/whatsapp.js:47-224 | run against the store, gives the outcome of `Dispatch` |
| WhatsAppController.HandleDetail | src/controllers/whatsapp.js:132-162 | run against the store, gives the outcome of `DetailOutcome`; webhook.js:98-130 uses the same branch |
| WhatsAppController.HandleAudio | src/controllers/whatsapp.js:164-212 | run against the store, gives the outcome of `AudioOutcome` |
| WebhookController.ExtractMessageData | src/controllers/webhook.js:207-228 | for an accepted payload, the first status update wins whatever `messages` holds; otherwise an empty array or missing metadata fails, else the first message is projected |
| WebhookController.Classify | src/controllers/webhook.js:47-185 | never chooses unsubscribe; status, subscribe and detail are each chosen exactly when the text starts with "/status", "/subscribe" or "/detail" respectively; audio or voice types are the only route to the audio branch |
| WebhookController.AudioOutcome | src/controllers/webhook.js:132-175 | an unknown sender gives 500 with no change; no quota gives the notice; quota without a media id gives the unreadable-audio text; quota, a media id and a returned transcription charge the sender one `useSummary` and send "processing" then the summary; a failed transcription answers 500 after the "processing" notice with no store change; conversely any store change is that charge |
| WebhookController.Dispatch | src/controllers/webhook.js:47-187 | only the sender's record can change; quotas are metered; usage only accompanies a sent summary; "/status" changes nothing, sends the report and answers 500 exactly when the status call throws; "/subscribe" answers 200 with one message and can change only a subscription record |
| WebhookController.MessageOutcome | src/controllers/webhook.js:20-192 | an invalid payload gives 404 and no change; a failed extraction gives 500; a status update gives 200 before any user is touched; otherwise the same confinement, metering and usage-with-summary guarantee (new senders included) as the other controller |
| WebhookController.ValidatorsDiffer | src/controllers/webhook.js:194-205 | every payload whatsapp.js accepts is accepted here too; the only extra ones have an empty `messages` array |
| WebhookController.ClassifiersDiffer | src/controllers/webhook.js:47-185 | the two chains agree, except that "/unsubscribe" falls through here to the audio test and then to help |
| WebhookController.StatusTakesPrecedence | src/controllers/webhook.js:207-218 | a payload with a status update gets 200 and the store is untouched |
| WebhookController.EmptyMessagesFail | src/controllers/webhook.js:207-228 | an empty `messages` array without status updates passes the validator, but the answer is 500 with no change |
| WebhookController.UnsubscribeIsHelp | src/controllers/webhook.js:176-185 | a text "/unsubscribe" gets the help text with no change beyond the lookup |
| WebhookController.StatusIsReadOnly | src/controllers/webhook.js:47-76 | "/status" sends the report and changes nothing beyond the lookup, or answers 500 when the status call throws |
| WebhookController.SubscribeAlwaysInitiates | src/controllers/webhook.js:78-96 | "/subscribe" initiates for every sender, subscribed or not: the link is sent and the returned record stored, or the error text is sent with nothing beyond the lookup changed |
| WebhookController.AudioWithoutQuota | src/controllers/webhook.js:132-144 | a user without quota gets the notice with no change beyond the lookup |
| WebhookController.TranscriptionFailureIs500 | src/controllers/webhook.js:156-175 | for any sender, a first-time one included, a failed transcription answers 500 after the "processing" notice, and `useSummary` never runs |
| WebhookController.HandleMessage | src/controllers/webhook.js:20-192 | run against the store, gives the outcome of `MessageOutcome` |
| WebhookController.HandleCommand | src/controllers/webhook.js:47-187 | run against the store, gives the outcome of `Dispatch` |
| WebhookController.HandleAudio | src/controllers/webhook.js:132-175 | run against the store, gives the outcome of `AudioOutcome` |
| PayPalController.NotificationFor | src/controllers/paypal.js:23-47 | exactly the four subscription event types get a notice, each the one named for it; any other type gets none |
| PayPalController.EventTypeOf | src/controllers/paypal.js:26-43 | every notice is announced by one of the four event types |
| PayPalController.NotificationRoundTrip | src/controllers/paypal.js:26-43 | each notice is chosen for exactly the event type that names it |
| PayPalController.StoredId | src/controllers/paypal.js:62 | `subscription?.paypalSubscriptionId`: absent without a record, and the record's (possibly absent) id otherwise |
| PayPalController.AsWrittenActivatesWithoutSubscription | src/controllers/paypal.js:62 | the written check accepts a new user and a request naming no subscription; the intended check rejects them |
| PayPalController.SuccessMatchesRefinesAsWritten | src/controllers/paypal.js:62 | the intended check is the written one, restricted to a stored record and a named id |
| PayPalController.SuccessOutcomeAsWritten | src/controllers/paypal.js:57-79 | the handler with the check as written: a failed lookup gives 500; 200 exactly when the stored id equals the request's, absent ones included, and then the record becomes ACTIVE with the request's id and one notice is sent; otherwise 400, nothing sent and no subscription changed; other users are untouched |
| PayPalController.AsWrittenHandlerActivatesNewUser | src/controllers/paypal.js:57-79 | for a new phone and no `subscription_id`, the handler as written answers 200 and stores an ACTIVE record without an id; the corrected handler answers 400 and stores no subscription |
| PayPalController.SuccessOutcome | src/controllers/paypal.js:57-79 | with the corrected check: a failed lookup gives 500; 200 exactly when the request names the subscription the user holds, which then becomes ACTIVE and triggers one notice; otherwise 400 with no subscription changed; the user exists afterwards even on 400 |
| PayPalController.CancelOutcome | src/controllers/paypal.js:81-96 | looks up or creates the user, answers 200 and sends one notice; no subscription ever changes |
| PayPalController.HandleWebhook | src/controllers/paypal.js:6-55 | a false signature verdict gives 400 with no change; otherwise the billing update is applied; a notice goes only to a user holding the event's resource id, only for the four event types, and without a sender number |
| PayPalController.HandleSuccess | src/controllers/paypal.js:57-79 | run against the store, gives the outcome of `SuccessOutcome`, the handler with the corrected check |
| PayPalController.HandleCancel | src/controllers/paypal.js:81-96 | run against the store, gives the outcome of `CancelOutcome` |
| Text.Split | src/controllers/whatsapp.js:133 | `split(" ")`: one more piece than there are separators, and no piece contains the separator |
| Text.JoinSplit | src/controllers/whatsapp.js:133 | joining the pieces with the separator gives back the text |
| Text.ToLower | src/controllers/whatsapp.js:145 | `toLowerCase`: the length is kept, each ASCII capital becomes the letter 32 code points above it, no capital remains, and every other character is unchanged |

## Findings

| source | as written | input that shows it | evidently intended | confidence | as-written member | corrected member |
|---|---|---|---|---|---|---|
| src/controllers/paypal.js:62 | `user.subscription?.paypalSubscriptionId === subscription_id` is true when both sides are `undefined` | a request to the success URL with `phone` set to a number that has no subscription and no `subscription_id`: the lookup creates the user, the check passes, and `setSubscription(undefined, "ACTIVE")` runs | activate only when the user holds a subscription record whose id equals the `subscription_id` the request names | likely; not executed | PayPalController.SuccessOutcomeAsWritten (check: PayPalController.SuccessMatchesAsWritten; counterexample: PayPalController.AsWrittenActivatesWithoutSubscription) | PayPalController.SuccessMatches (used by PayPalController.SuccessOutcome and PayPalController.HandleSuccess; see PayPalController.SuccessMatchesRefinesAsWritten and PayPalController.AsWrittenHandlerActivatesNewUser) |

## Left out

- Transcription (media download, Whisper, chat completion), the PayPal HTTP service and `sendMessage` are network calls. Their results are inputs, and every send is taken to succeed.
- Subscription operations that none of the modelled files define have no behaviour of their own here. These are `initiateSubscription`, `cancelSubscription`, `getUserStatus`, `handlePayPalWebhook`, `findBySubscriptionId`, `user.setSubscription` and `user.isSubscribed`. Their effect is at most one user's subscription record being replaced, and `isSubscribed` is read as status ACTIVE.
- PayPalController.HandleWebhook: the effect of `handlePayPalWebhook` is taken as one user's record being replaced (or a throw). A single bulk update of several users is not modelled.
- PayPalController.HandleWebhook: `findBySubscriptionId` (src/controllers/paypal.js:21) is taken never to throw. Its rejection would reach the `catch` at src/controllers/paypal.js:51-54 and answer 500; here the 500 answer comes only from `handlePayPalWebhook` failing (`UpdateFailed`). That is why a valid signature, an applied update and a resource id are promised 200.
- PayPalController.SuccessOutcome: `user.setSubscription` (src/controllers/paypal.js:63) is taken never to throw. Its rejection would reach the `catch` at src/controllers/paypal.js:75-78 and answer 500; here the 500 answer comes only from `getOrCreateUser` failing its validation. The same holds for PayPalController.SuccessOutcomeAsWritten, PayPalController.HandleSuccess, UserService.UserStore.SetSubscription and UserService.UserStore.FindBySubscriptionId.
- UserService.Db.GetOrCreateUser: the database's reads and saves (`findOne`, `find`, `save`, `countDocuments`) are taken never to reject. Every failure the store operations report is one the service or the schema raises itself: an unknown user, an invalid level, an empty quota or a failed validator. The same holds for every other `Db` operation and its `UserStore` method, and for the controllers' 500 answers that a database error would cause.
- The `whatsapp.js` controller calls the service with the user document rather than a phone number. The model uses the phone number, so the lookups the JavaScript would actually perform with a document are not modelled.
- Timestamps are not modelled: `firstSeen`, `lastInteraction`, the schema's `timestamps` and `lastDayUsers` in `getUserStats` are wall-clock values. `name` and `language` are not modelled either, since the core never reads them.
- `getAllUsers` is not part of this model. It is a plain query that the modelled controllers never call.
- Concurrency is not modelled. Handlers run one at a time, so the gap between the availability check and the consume cannot interleave with another request.
- Payload fields are assumed to have the types the handlers expect. This covers a missing `from`, `type` or message `id`, a non-array `messages`, a `resource` without an `id`, and a missing `phone` query parameter. A missing `event_type` behaves like an unknown one.
- UserModel.UserState.AddFreeSummaries: counts are integers. JavaScript numbers can be fractional, so a call such as `addFreeSummaries(0.5)` is not modelled; the same holds for every counter of the user document.
- Text.ToLower: only ASCII capitals are folded, while `toLowerCase` folds all of Unicode.
- The message texts (emoji and wording) are replaced by reply tags. The one exception is the detail-level confirmation, which is modelled as text.
- A `sendMessage` failure after `res.send` in `handleSuccess` and `handleCancel` is not modelled. Sends always succeed here, so that path never happens.
- The status reply's contents come from the undefined `getUserStatus`, and the model takes them as input.
