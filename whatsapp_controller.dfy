/** The WhatsApp message controller of src/controllers/whatsapp.js: the
    payload check, the extractor, the command chain of `handleMessage`, and the
    handshake endpoint. The store operations are called by phone number, the
    contract src/services/user.js declares. */
module WhatsAppController {
  import opened Wrappers
  import opened Errors
  import opened Text
  import opened UserModel
  import opened UserService
  import opened Messaging
  import opened WhatsAppService

  /** GET handshake endpoint: 200 with the challenge, or 403. */
  function VerificationResponse(mode: Option<string>, token: Option<string>, challenge: Option<string>,
                                verifyToken: Option<string>): (r: (int, Option<string>))
    ensures r.0 == 200 || r == (403, None)
    ensures r.0 == 200 <==> Truthy(mode) && mode.value == "subscribe" && Truthy(token) &&
                            token == verifyToken && Truthy(challenge)
    ensures r.0 == 200 ==> r.1 == challenge
  {
    match VerifyWebhook(mode, token, challenge, verifyToken)
    case Success(echo) => (200, Some(echo))
    case Failure(_) => (403, None)
  }

  /** The object type matches and the first change carries a non-empty
      `messages` array. */
  predicate IsValidMessageRequest(body: Body)
  {
    body.objectType == Some(BusinessAccount) &&
    FirstValue(body).Some? && FirstValue(body).value.messages.Some? &&
    |FirstValue(body).value.messages.value| > 0
  }

  /** The first message of the first change; fails where the JavaScript reads
      a property of `undefined` (no change, no value, no message, no metadata). */
  function ExtractMessageData(body: Body): (r: Result<MessageData, Error>)
    ensures r.Success? ==>
      FirstValue(body).Some? && FirstValue(body).value.messages.Some? &&
      |FirstValue(body).value.messages.value| > 0 && FirstValue(body).value.metadata.Some? &&
      r.value == MessageDataOf(FirstValue(body).value.messages.value[0], FirstValue(body).value.metadata.value)
    ensures IsValidMessageRequest(body) ==> (r.Success? <==> FirstValue(body).value.metadata.Some?)
  {
    match FirstChange(body)
    case None => Failure(MalformedPayload)
    case Some(change) =>
      if change.value.None? then Failure(MalformedPayload)
      else
        var v := change.value.value;
        if v.messages.None? || |v.messages.value| == 0 then Failure(MalformedPayload)
        else if v.metadata.None? then Failure(MalformedPayload)
        else Success(MessageDataOf(v.messages.value[0], v.metadata.value))
  }

  /** The `startsWith` chain: commands first, case-sensitive and in the order
      /status, /subscribe, /unsubscribe, /detail; then audio and voice; then
      help. */
  function Classify(text: Option<string>, kind: string): (c: Command)
    ensures c == ShowStatus <==> text.Some? && "/status" <= text.value
    ensures c == Subscribe <==> text.Some? && "/subscribe" <= text.value
    ensures c == Unsubscribe <==> text.Some? && "/unsubscribe" <= text.value
    ensures c == SetDetail <==> text.Some? && "/detail" <= text.value
    ensures c == Audio ==> kind == "audio" || kind == "voice"
    ensures c == Help ==> kind != "audio" && kind != "voice"
    ensures (text.None? || !("/" <= text.value)) ==> c == (if kind == "audio" || kind == "voice" then Audio else Help)
  {
    if text.Some? && "/status" <= text.value then CommandPrefixesExclusive(text.value); ShowStatus
    else if text.Some? && "/subscribe" <= text.value then CommandPrefixesExclusive(text.value); Subscribe
    else if text.Some? && "/unsubscribe" <= text.value then CommandPrefixesExclusive(text.value); Unsubscribe
    else if text.Some? && "/detail" <= text.value then SetDetail
    else if kind == "audio" || kind == "voice" then Audio
    else Help
  }

  /** `/detail <level>`: exactly two space-separated tokens, the second
      lower-cased and handed to `setSummaryDetailLevel`; only the sender's
      detail level can change. */
  function DetailOutcome(db: Db, d: MessageData): (h: Handled)
    requires d.MessageData? && d.text.Some?
    ensures h.code == 200 && h.db.users.Keys == db.users.Keys
    ensures forall p :: p in db.users ==>
      h.db.users[p].(summaryDetailLevel := db.users[p].summaryDetailLevel) == db.users[p]
    ensures forall p :: p in db.users && p != d.from ==> h.db.users[p] == db.users[p]
    ensures |Split(d.text.value, ' ')| != 2 ==> h == Handled(200, [Send(d, DetailUsage)], db)
    ensures |Split(d.text.value, ' ')| == 2 && ParseLevel(ToLower(Split(d.text.value, ' ')[1])).None? ==>
      h == Handled(200, [Send(d, DetailInvalid)], db)
    ensures |Split(d.text.value, ' ')| == 2 && d.from !in db.users ==>
      h == Handled(200, [Send(d, DetailInvalid)], db)
    ensures |Split(d.text.value, ' ')| == 2 && d.from in db.users && ParseLevel(ToLower(Split(d.text.value, ' ')[1])).Some? ==>
      h.sent == [Send(d, DetailSet("Summary detail level set to: " + ToLower(Split(d.text.value, ' ')[1])))] &&
      h.db.users == db.users[d.from := db.users[d.from].(summaryDetailLevel := ParseLevel(ToLower(Split(d.text.value, ' ')[1])).value)]
    ensures db.Valid() ==> h.db.Valid()
  {
    var args := Split(d.text.value, ' ');
    if |args| != 2 then Handled(200, [Send(d, DetailUsage)], db)
    else
      var s := db.SetSummaryDetailLevel(d.from, ToLower(args[1]));
      match s.result
      case Failure(_) => Handled(200, [Send(d, DetailInvalid)], db)
      case Success(levelSet) => Handled(200, [Send(d, DetailSet(levelSet.message))], s.db)
  }

  /** An audio or voice message: gated on the free quota alone; the quota is
      consumed only after the transcription returned, and every failure after
      the "processing" notice is reported to the sender. */
  function AudioOutcome(db: Db, d: MessageData, env: Outcomes): (h: Handled)
    requires d.MessageData?
    ensures h.code == 200 || h == Handled(500, [], db)
    ensures h.db.users.Keys == db.users.Keys
    ensures forall p :: p in db.users && p != d.from ==> h.db.users[p] == db.users[p]
    ensures forall p :: p in db.users ==> Metered(db.users[p], h.db.users[p])
    ensures d.from in db.users && !db.users[d.from].HasFreeSummaries() ==>
      h == Handled(200, [Send(d, NoFreeSummaries)], db)
    ensures d.from !in db.users ==> h == Handled(500, [], db)
    ensures d.from in db.users && db.users[d.from].HasFreeSummaries() && !HasMediaId(d.audio) ==>
      h == Handled(200, [Send(d, AudioUnreadable)], db)
    ensures d.from in db.users && db.users[d.from].HasFreeSummaries() && HasMediaId(d.audio) &&
            env.transcribe(d.audio.value.id.value, db.users[d.from].summaryDetailLevel).None? ==>
      h == Handled(200, [Send(d, Processing), Send(d, AudioError)], db)
    ensures d.from in db.users && db.users[d.from].HasFreeSummaries() && HasMediaId(d.audio) &&
            env.transcribe(d.audio.value.id.value, db.users[d.from].summaryDetailLevel).Some? ==>
      h == Handled(200, [Send(d, Processing),
                         Send(d, Summary(env.transcribe(d.audio.value.id.value, db.users[d.from].summaryDetailLevel).value))],
                   db.UseSummary(d.from).db)
    ensures h.db != db ==>
      d.from in db.users && HasMediaId(d.audio) &&
      env.transcribe(d.audio.value.id.value, db.users[d.from].summaryDetailLevel).Some? &&
      h.sent == [Send(d, Processing),
                 Send(d, Summary(env.transcribe(d.audio.value.id.value, db.users[d.from].summaryDetailLevel).value))] &&
      h.db == db.UseSummary(d.from).db
    ensures db.Valid() ==> h.db.Valid()
  {
    match db.CheckSummaryAvailability(d.from)
    case Failure(_) => Handled(500, [], db)
    case Success(availability) =>
      if !availability.hasFreeSummaries then Handled(200, [Send(d, NoFreeSummaries)], db)
      else if !HasMediaId(d.audio) then Handled(200, [Send(d, AudioUnreadable)], db)
      else
        var processing := [Send(d, Processing)];
        var failed := Handled(200, processing + [Send(d, AudioError)], db);
        match db.GetUserPreferences(d.from)
        case Failure(_) => failed
        case Success(level) =>
          match env.transcribe(d.audio.value.id.value, level)
          case None => failed
          case Some(summary) =>
            var used := db.UseSummary(d.from);
            if used.result.Failure? then failed
            else Handled(200, processing + [Send(d, Summary(summary))], used.db)
  }

  /** The command chain once the sender's record exists (`user` is it). */
  function Dispatch(db: Db, user: UserState, d: MessageData, env: Outcomes): (h: Handled)
    requires d.MessageData?
    ensures h.code == 200 || h.code == 500
    ensures h.db.users.Keys == db.users.Keys
    ensures forall p :: p in db.users && p != d.from ==> h.db.users[p] == db.users[p]
    ensures forall p :: p in db.users ==> Metered(db.users[p], h.db.users[p])
    ensures forall p :: p in db.users && h.db.users[p].totalSummariesUsed != db.users[p].totalSummariesUsed ==>
      |h.sent| == 2 && h.sent[1].reply.Summary?
    ensures Classify(d.text, d.kind) == ShowStatus ==>
      h.db == db && (h.code == 500 <==> env.status.None?) &&
      (env.status.Some? ==> h.sent == [Send(d, StatusReport(env.status.value))])
    ensures Classify(d.text, d.kind) == Subscribe ==>
      h.code == 200 && |h.sent| == 1 &&
      forall p :: p in db.users ==> h.db.users[p].(subscription := db.users[p].subscription) == db.users[p]
    ensures db.Valid() ==> h.db.Valid()
  {
    match Classify(d.text, d.kind)
    case ShowStatus =>
      if env.status.None? then Handled(500, [], db)
      else Handled(200, [Send(d, StatusReport(env.status.value))], db)
    case Subscribe =>
      if user.IsSubscribed() then Handled(200, [Send(d, AlreadySubscribed)], db)
      else if env.initiate.None? then Handled(200, [Send(d, SubscriptionLinkError)], db)
      else Handled(200, [Send(d, SubscriptionLink(env.initiate.value.message))],
                   db.ReplaceSubscription(d.from, env.initiate.value.record))
    case Unsubscribe =>
      if !user.IsSubscribed() then Handled(200, [Send(d, NotSubscribed)], db)
      else if !env.billingCancel || env.localCancel.None? then Handled(200, [Send(d, CancelError)], db)
      else Handled(200, [Send(d, SubscriptionCancelled)], db.ReplaceSubscription(d.from, env.localCancel.value))
    case SetDetail => DetailOutcome(db, d)
    case Audio => AudioOutcome(db, d, env)
    case Help => Handled(200, [Send(d, HelpText)], db)
  }

  /** POST handler: what it answers, what it sends and the store it leaves. */
  function MessageOutcome(db: Db, body: Body, env: Outcomes): (h: Handled)
    ensures !IsValidMessageRequest(body) ==> h == Handled(200, [], db)
    ensures IsValidMessageRequest(body) && ExtractMessageData(body).Failure? ==> h == Handled(500, [], db)
    ensures ExtractMessageData(body).Success? && ExtractMessageData(body).value.kind == "status" ==>
      h == Handled(200, [], db)
    ensures h.code == 200 || h.code == 500
    ensures h.db == db || (ExtractMessageData(body).Success? && ExtractMessageData(body).value.MessageData? &&
                           Confined(db, h.db, ExtractMessageData(body).value.from))
    ensures forall p :: p in db.users && p in h.db.users ==>
      (h.db.users[p].totalSummariesUsed != db.users[p].totalSummariesUsed ==> |h.sent| == 2 && h.sent[1].reply.Summary?)
    ensures forall p :: p in h.db.users && p !in db.users ==>
      (h.db.users[p].totalSummariesUsed != 0 ==> |h.sent| == 2 && h.sent[1].reply.Summary?)
    ensures db.Valid() ==> h.db.Valid()
  {
    if !IsValidMessageRequest(body) then Handled(200, [], db)
    else match ExtractMessageData(body)
      case Failure(_) => Handled(500, [], db)
      case Success(d) =>
        if d.kind == "status" then Handled(200, [], db)
        else
          var s := db.GetOrCreateUser(d.from);
          match s.result
          case Failure(_) => Handled(500, [], db)
          case Success(user) =>
            var h := Dispatch(s.db, user, d, env);
            ConfinedThroughLookup(db, d.from, h.db);
            h
  }

  /** A message the chain does not recognise gets the help text; the only
      change is the sender's record being looked up or created. */
  lemma HelpDoesNotMutate(db: Db, body: Body, env: Outcomes, d: MessageData)
    requires IsValidMessageRequest(body) && ExtractMessageData(body) == Success(d)
    requires d.kind != "status" && d.from != "" && Classify(d.text, d.kind) == Help
    ensures MessageOutcome(db, body, env) == Handled(200, [Send(d, HelpText)], db.GetOrCreateUser(d.from).db)
  {
  }

  /** `/detail` with other than two space-separated tokens answers with the
      usage text and leaves every detail level as it was. */
  lemma DetailNeedsOneArgument(db: Db, body: Body, env: Outcomes, d: MessageData)
    requires IsValidMessageRequest(body) && ExtractMessageData(body) == Success(d)
    requires d.kind != "status" && d.from != "" && Classify(d.text, d.kind) == SetDetail
    requires |Split(d.text.value, ' ')| != 2
    ensures MessageOutcome(db, body, env) == Handled(200, [Send(d, DetailUsage)], db.GetOrCreateUser(d.from).db)
  {
  }

  /** `/status`: the report `getUserStatus` returned goes to the sender and
      nothing changes beyond the lookup; when that call throws the answer
      is 500. */
  lemma StatusIsReadOnly(db: Db, body: Body, env: Outcomes, d: MessageData)
    requires IsValidMessageRequest(body) && ExtractMessageData(body) == Success(d)
    requires d.kind != "status" && db.GetOrCreateUser(d.from).result.Success? && Classify(d.text, d.kind) == ShowStatus
    ensures env.status.Some? ==>
      MessageOutcome(db, body, env) == Handled(200, [Send(d, StatusReport(env.status.value))], db.GetOrCreateUser(d.from).db)
    ensures env.status.None? ==> MessageOutcome(db, body, env) == Handled(500, [], db.GetOrCreateUser(d.from).db)
  {
  }

  /** `/subscribe` from a subscribed user: a notice, and no subscription is
      initiated (the store's subscriptions are untouched). */
  lemma SubscribeWhenSubscribed(db: Db, body: Body, env: Outcomes, d: MessageData)
    requires IsValidMessageRequest(body) && ExtractMessageData(body) == Success(d)
    requires d.kind != "status" && db.GetOrCreateUser(d.from).result.Success? && Classify(d.text, d.kind) == Subscribe
    requires LookedUp(db, d.from).IsSubscribed()
    ensures MessageOutcome(db, body, env) == Handled(200, [Send(d, AlreadySubscribed)], db.GetOrCreateUser(d.from).db)
  {
  }

  /** `/subscribe` from a user who is not subscribed, new ones included: the
      link is sent and the record `initiateSubscription` returned is stored,
      or, when that call throws, the error text is sent and nothing else
      changes. */
  lemma SubscribeInitiates(db: Db, body: Body, env: Outcomes, d: MessageData)
    requires IsValidMessageRequest(body) && ExtractMessageData(body) == Success(d)
    requires d.kind != "status" && db.GetOrCreateUser(d.from).result.Success? && Classify(d.text, d.kind) == Subscribe
    requires !LookedUp(db, d.from).IsSubscribed()
    ensures env.initiate.Some? ==>
      MessageOutcome(db, body, env) ==
        Handled(200, [Send(d, SubscriptionLink(env.initiate.value.message))],
                db.GetOrCreateUser(d.from).db.ReplaceSubscription(d.from, env.initiate.value.record))
    ensures env.initiate.None? ==>
      MessageOutcome(db, body, env) == Handled(200, [Send(d, SubscriptionLinkError)], db.GetOrCreateUser(d.from).db)
  {
  }

  /** `/unsubscribe`: when the billing cancellation fails the local
      cancellation is skipped and the sender is told it failed. */
  lemma UnsubscribeNeedsBillingCancel(db: Db, body: Body, env: Outcomes, d: MessageData)
    requires IsValidMessageRequest(body) && ExtractMessageData(body) == Success(d)
    requires d.kind != "status" && db.GetOrCreateUser(d.from).result.Success? && Classify(d.text, d.kind) == Unsubscribe
    requires LookedUp(db, d.from).IsSubscribed() && !env.billingCancel
    ensures MessageOutcome(db, body, env) == Handled(200, [Send(d, CancelError)], db.GetOrCreateUser(d.from).db)
  {
  }

  /** `/unsubscribe` from a sender who is not subscribed, a first-time sender
      included: only the notice, and neither the billing service nor the
      record is asked to cancel. */
  lemma UnsubscribeWhenNotSubscribed(db: Db, body: Body, env: Outcomes, d: MessageData)
    requires IsValidMessageRequest(body) && ExtractMessageData(body) == Success(d)
    requires d.kind != "status" && db.GetOrCreateUser(d.from).result.Success? && Classify(d.text, d.kind) == Unsubscribe
    requires !LookedUp(db, d.from).IsSubscribed()
    ensures MessageOutcome(db, body, env) == Handled(200, [Send(d, NotSubscribed)], db.GetOrCreateUser(d.from).db)
  {
  }

  /** `/unsubscribe` when both cancellations succeed: the sender's record
      becomes the one the local cancellation returned, and the sender is
      told. */
  lemma UnsubscribeCancels(db: Db, body: Body, env: Outcomes, d: MessageData)
    requires IsValidMessageRequest(body) && ExtractMessageData(body) == Success(d)
    requires d.kind != "status" && db.GetOrCreateUser(d.from).result.Success? && Classify(d.text, d.kind) == Unsubscribe
    requires LookedUp(db, d.from).IsSubscribed() && env.billingCancel && env.localCancel.Some?
    ensures MessageOutcome(db, body, env) ==
      Handled(200, [Send(d, SubscriptionCancelled)],
              db.GetOrCreateUser(d.from).db.ReplaceSubscription(d.from, env.localCancel.value))
    ensures MessageOutcome(db, body, env).db.users[d.from].subscription == env.localCancel.value
  {
  }

  /** An audio or voice message from a user without free summaries: the
      notice, and neither the quota nor the total moves. */
  lemma AudioWithoutQuota(db: Db, body: Body, env: Outcomes, d: MessageData)
    requires IsValidMessageRequest(body) && ExtractMessageData(body) == Success(d)
    requires d.kind != "status" && db.GetOrCreateUser(d.from).result.Success? && Classify(d.text, d.kind) == Audio
    requires !LookedUp(db, d.from).HasFreeSummaries()
    ensures MessageOutcome(db, body, env) == Handled(200, [Send(d, NoFreeSummaries)], db.GetOrCreateUser(d.from).db)
    ensures d.from in db.users ==>
      MessageOutcome(db, body, env).db.users[d.from].freeSummariesRemaining == db.users[d.from].freeSummariesRemaining &&
      MessageOutcome(db, body, env).db.users[d.from].totalSummariesUsed == db.users[d.from].totalSummariesUsed
  {
  }

  /** The quota is consumed only once a transcription came back: with no media
      id, or a failed transcription, the sender's quota and total stay as the
      lookup left them, and a first-time sender's record stays the new one. */
  lemma NoTranscriptionNoCharge(db: Db, body: Body, env: Outcomes, d: MessageData)
    requires IsValidMessageRequest(body) && ExtractMessageData(body) == Success(d)
    requires d.kind != "status" && db.GetOrCreateUser(d.from).result.Success? && Classify(d.text, d.kind) == Audio
    requires !HasMediaId(d.audio) ||
             env.transcribe(d.audio.value.id.value, LookedUp(db, d.from).summaryDetailLevel).None?
    ensures MessageOutcome(db, body, env).db == db.GetOrCreateUser(d.from).db
    ensures d.from in db.users ==>
      MessageOutcome(db, body, env).db.users[d.from].freeSummariesRemaining == db.users[d.from].freeSummariesRemaining &&
      MessageOutcome(db, body, env).db.users[d.from].totalSummariesUsed == db.users[d.from].totalSummariesUsed
    ensures d.from !in db.users ==> MessageOutcome(db, body, env).db.users[d.from] == NewUser(d.from)
  {
  }

  /** `handleMessage` over the store: the same chain, calling the store's
      operations in the same order, with sent messages appended to the
      returned outbox. */
  method HandleMessage(store: UserStore, body: Body, env: Outcomes) returns (code: int, sent: seq<Outgoing>)
    requires store.Valid()
    modifies store.Repr
    ensures store.Valid() && fresh(store.Repr - old(store.Repr))
    ensures Handled(code, sent, store.Snapshot()) == MessageOutcome(old(store.Snapshot()), body, env)
  {
    if !IsValidMessageRequest(body) {
      return 200, [];
    }
    var extracted := ExtractMessageData(body);
    if extracted.Failure? {
      return 500, [];
    }
    var d := extracted.value;
    if d.kind == "status" {
      return 200, [];
    }
    var found := store.GetOrCreateUser(d.from);
    if found.Failure? {
      return 500, [];
    }
    code, sent := HandleCommand(store, found.value, d, env);
  }

  /** The command chain of `handleMessage` once the sender's record exists. */
  method HandleCommand(store: UserStore, user: UserState, d: MessageData, env: Outcomes)
    returns (code: int, sent: seq<Outgoing>)
    requires store.Valid() && d.MessageData?
    modifies store.Repr
    ensures store.Valid() && store.Repr == old(store.Repr)
    ensures Handled(code, sent, store.Snapshot()) == Dispatch(old(store.Snapshot()), user, d, env)
  {
    code := 200;
    match Classify(d.text, d.kind) {
      case ShowStatus =>
        if env.status.None? {
          return 500, [];
        }
        sent := [Send(d, StatusReport(env.status.value))];
      case Subscribe =>
        if user.IsSubscribed() {
          sent := [Send(d, AlreadySubscribed)];
        } else if env.initiate.None? {
          sent := [Send(d, SubscriptionLinkError)];
        } else {
          store.ReplaceSubscription(d.from, env.initiate.value.record);
          sent := [Send(d, SubscriptionLink(env.initiate.value.message))];
        }
      case Unsubscribe =>
        if !user.IsSubscribed() {
          sent := [Send(d, NotSubscribed)];
        } else if !env.billingCancel || env.localCancel.None? {
          sent := [Send(d, CancelError)];
        } else {
          store.ReplaceSubscription(d.from, env.localCancel.value);
          sent := [Send(d, SubscriptionCancelled)];
        }
      case SetDetail =>
        code, sent := HandleDetail(store, d);
      case Audio =>
        code, sent := HandleAudio(store, d, env);
      case Help =>
        sent := [Send(d, HelpText)];
    }
  }

  /** The `/detail` branch of `handleMessage`. */
  method HandleDetail(store: UserStore, d: MessageData) returns (code: int, sent: seq<Outgoing>)
    requires store.Valid() && d.MessageData? && d.text.Some?
    modifies store.Repr
    ensures store.Valid() && store.Repr == old(store.Repr)
    ensures Handled(code, sent, store.Snapshot()) == DetailOutcome(old(store.Snapshot()), d)
  {
    code := 200;
    var args := Split(d.text.value, ' ');
    if |args| != 2 {
      sent := [Send(d, DetailUsage)];
    } else {
      var levelSet := store.SetSummaryDetailLevel(d.from, ToLower(args[1]));
      if levelSet.Failure? {
        sent := [Send(d, DetailInvalid)];
      } else {
        sent := [Send(d, DetailSet(levelSet.value.message))];
      }
    }
  }

  /** The audio branch of `handleMessage`. */
  method HandleAudio(store: UserStore, d: MessageData, env: Outcomes) returns (code: int, sent: seq<Outgoing>)
    requires store.Valid() && d.MessageData?
    modifies store.Repr
    ensures store.Valid() && store.Repr == old(store.Repr)
    ensures Handled(code, sent, store.Snapshot()) == AudioOutcome(old(store.Snapshot()), d, env)
  {
    var availability := store.CheckSummaryAvailability(d.from);
    if availability.Failure? {
      return 500, [];
    }
    if !availability.value.hasFreeSummaries {
      return 200, [Send(d, NoFreeSummaries)];
    }
    if !HasMediaId(d.audio) {
      return 200, [Send(d, AudioUnreadable)];
    }
    sent := [Send(d, Processing)];
    var failed := sent + [Send(d, AudioError)];
    var preferences := store.GetUserPreferences(d.from);
    if preferences.Failure? {
      return 200, failed;
    }
    var summary := env.transcribe(d.audio.value.id.value, preferences.value);
    if summary.None? {
      return 200, failed;
    }
    var used := store.UseSummary(d.from);
    if used.Failure? {
      return 200, failed;
    }
    return 200, sent + [Send(d, Summary(summary.value))];
  }
}
