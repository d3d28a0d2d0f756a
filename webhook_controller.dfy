/** The second message controller, src/controllers/webhook.js: a looser
    payload check (404 when it fails), status updates taking precedence over
    messages, no `/unsubscribe`, no subscribed check on `/subscribe`, and
    audio-path failures after the "processing" notice left uncaught (500). */
module WebhookController {
  import opened Wrappers
  import opened Errors
  import opened UserModel
  import opened UserService
  import opened Messaging
  import WhatsApp = WhatsAppController

  /** The object type matches and the first change carries a `messages`
      array, which may be empty. */
  predicate IsValidMessageRequest(body: Body)
  {
    body.objectType == Some(BusinessAccount) &&
    FirstValue(body).Some? && FirstValue(body).value.messages.Some?
  }

  /** The first status update when there is one; otherwise the first message.
      Fails where the JavaScript reads a property of `undefined`. */
  function ExtractMessageData(body: Body): (r: Result<MessageData, Error>)
    ensures r.Success? ==> FirstValue(body).Some? && FirstValue(body).value.messages.Some?
    ensures IsValidMessageRequest(body) ==>
      var v := FirstValue(body).value;
      if v.statuses.Some? && |v.statuses.value| > 0 then
        r == Success(StatusData(v.statuses.value[0].id, v.statuses.value[0].status))
      else if |v.messages.value| == 0 || v.metadata.None? then r.Failure?
      else r == Success(MessageDataOf(v.messages.value[0], v.metadata.value))
  {
    match FirstChange(body)
    case None => Failure(MalformedPayload)
    case Some(change) =>
      if change.value.None? || change.value.value.messages.None? then Failure(MalformedPayload)
      else
        var v := change.value.value;
        if v.statuses.Some? && |v.statuses.value| > 0 then
          Success(StatusData(v.statuses.value[0].id, v.statuses.value[0].status))
        else if |v.messages.value| == 0 then Failure(MalformedPayload)
        else if v.metadata.None? then Failure(MalformedPayload)
        else Success(MessageDataOf(v.messages.value[0], v.metadata.value))
  }

  /** The `startsWith` chain of this controller: /status, /subscribe, /detail,
      then audio and voice, then help. */
  function Classify(text: Option<string>, kind: string): (c: Command)
    ensures c != Unsubscribe
    ensures c == ShowStatus <==> text.Some? && "/status" <= text.value
    ensures c == Subscribe <==> text.Some? && "/subscribe" <= text.value
    ensures c == SetDetail <==> text.Some? && "/detail" <= text.value
    ensures c == Audio ==> kind == "audio" || kind == "voice"
    ensures c == Help ==> kind != "audio" && kind != "voice"
  {
    if text.Some? && "/status" <= text.value then CommandPrefixesExclusive(text.value); ShowStatus
    else if text.Some? && "/subscribe" <= text.value then CommandPrefixesExclusive(text.value); Subscribe
    else if text.Some? && "/detail" <= text.value then SetDetail
    else if kind == "audio" || kind == "voice" then Audio
    else Help
  }

  /** The audio branch: the same gate as the other controller, but a failure
      after the "processing" notice is not caught and answers 500. */
  function AudioOutcome(db: Db, d: MessageData, env: Outcomes): (h: Handled)
    requires d.MessageData?
    ensures h.code == 200 || h.code == 500
    ensures h.db.users.Keys == db.users.Keys
    ensures forall p :: p in db.users && p != d.from ==> h.db.users[p] == db.users[p]
    ensures forall p :: p in db.users ==> Metered(db.users[p], h.db.users[p])
    ensures d.from in db.users && !db.users[d.from].HasFreeSummaries() ==>
      h == Handled(200, [Send(d, NoFreeSummaries)], db)
    ensures d.from !in db.users ==> h == Handled(500, [], db)
    ensures d.from in db.users && db.users[d.from].HasFreeSummaries() && !HasMediaId(d.audio) ==>
      h == Handled(200, [Send(d, AudioUnreadable)], db)
    ensures d.from in db.users && db.users[d.from].HasFreeSummaries() && HasMediaId(d.audio) &&
            env.transcribe(d.audio.value.id.value, db.users[d.from].summaryDetailLevel).None? ==>
      h == Handled(500, [Send(d, Processing)], db)
    ensures d.from in db.users && db.users[d.from].HasFreeSummaries() && HasMediaId(d.audio) &&
            env.transcribe(d.audio.value.id.value, db.users[d.from].summaryDetailLevel).Some? ==>
      h == Handled(200, [Send(d, Processing),
                         Send(d, Summary(env.transcribe(d.audio.value.id.value, db.users[d.from].summaryDetailLevel).value))],
                   db.UseSummary(d.from).db)
    ensures h.code == 500 ==> h.db == db
    ensures h.db != db ==>
      d.from in db.users && HasMediaId(d.audio) &&
      env.transcribe(d.audio.value.id.value, db.users[d.from].summaryDetailLevel).Some? &&
      h.sent == [Send(d, Processing),
                 Send(d, Summary(env.transcribe(d.audio.value.id.value, db.users[d.from].summaryDetailLevel).value))] &&
      h.db == db.UseSummary(d.from).db
    ensures db.Valid() ==> h.db.Valid()
  {
    match db.CheckSummaryAvailability(d.from)
    case Failure(_) => Handled(500, [], db)
    case Success(availability) =>
      if !availability.hasFreeSummaries then Handled(200, [Send(d, NoFreeSummaries)], db)
      else if !HasMediaId(d.audio) then Handled(200, [Send(d, AudioUnreadable)], db)
      else
        var processing := [Send(d, Processing)];
        var failed := Handled(500, processing, db);
        match db.GetUserPreferences(d.from)
        case Failure(_) => failed
        case Success(level) =>
          match env.transcribe(d.audio.value.id.value, level)
          case None => failed
          case Some(summary) =>
            var used := db.UseSummary(d.from);
            if used.result.Failure? then failed
            else Handled(200, processing + [Send(d, Summary(summary))], used.db)
  }

  /** The command chain once the sender's record exists. */
  function Dispatch(db: Db, d: MessageData, env: Outcomes): (h: Handled)
    requires d.MessageData?
    ensures h.code == 200 || h.code == 500
    ensures h.db.users.Keys == db.users.Keys
    ensures forall p :: p in db.users && p != d.from ==> h.db.users[p] == db.users[p]
    ensures forall p :: p in db.users ==> Metered(db.users[p], h.db.users[p])
    ensures forall p :: p in db.users && h.db.users[p].totalSummariesUsed != db.users[p].totalSummariesUsed ==>
      |h.sent| == 2 && h.sent[1].reply.Summary?
    ensures Classify(d.text, d.kind) == ShowStatus ==>
      h.db == db && (h.code == 500 <==> env.status.None?) &&
      (env.status.Some? ==> h.sent == [Send(d, StatusReport(env.status.value))])
    ensures Classify(d.text, d.kind) == Subscribe ==>
      h.code == 200 && |h.sent| == 1 &&
      forall p :: p in db.users ==> h.db.users[p].(subscription := db.users[p].subscription) == db.users[p]
    ensures db.Valid() ==> h.db.Valid()
  {
    var command := Classify(d.text, d.kind);
    if command == ShowStatus then
      if env.status.None? then Handled(500, [], db)
      else Handled(200, [Send(d, StatusReport(env.status.value))], db)
    else if command == Subscribe then
      if env.initiate.None? then Handled(200, [Send(d, SubscriptionLinkError)], db)
      else Handled(200, [Send(d, SubscriptionLink(env.initiate.value.message))],
                   db.ReplaceSubscription(d.from, env.initiate.value.record))
    else if command == SetDetail then WhatsApp.DetailOutcome(db, d)
    else if command == Audio then AudioOutcome(db, d, env)
    else Handled(200, [Send(d, HelpText)], db)
  }

  /** POST handler: what it answers, what it sends and the store it leaves. */
  function MessageOutcome(db: Db, body: Body, env: Outcomes): (h: Handled)
    ensures !IsValidMessageRequest(body) ==> h == Handled(404, [], db)
    ensures IsValidMessageRequest(body) && ExtractMessageData(body).Failure? ==> h == Handled(500, [], db)
    ensures IsValidMessageRequest(body) && ExtractMessageData(body).Success? && ExtractMessageData(body).value.IsStatus()
      ==> h == Handled(200, [], db)
    ensures h.code == 200 || h.code == 404 || h.code == 500
    ensures h.db == db || (ExtractMessageData(body).Success? && ExtractMessageData(body).value.MessageData? &&
                           Confined(db, h.db, ExtractMessageData(body).value.from))
    ensures forall p :: p in db.users && p in h.db.users ==>
      (h.db.users[p].totalSummariesUsed != db.users[p].totalSummariesUsed ==> |h.sent| == 2 && h.sent[1].reply.Summary?)
    ensures forall p :: p in h.db.users && p !in db.users ==>
      (h.db.users[p].totalSummariesUsed != 0 ==> |h.sent| == 2 && h.sent[1].reply.Summary?)
    ensures db.Valid() ==> h.db.Valid()
  {
    if !IsValidMessageRequest(body) then Handled(404, [], db)
    else match ExtractMessageData(body)
      case Failure(_) => Handled(500, [], db)
      case Success(d) =>
        if d.IsStatus() then Handled(200, [], db)
        else
          var s := db.GetOrCreateUser(d.from);
          if s.result.Failure? then Handled(500, [], db)
          else
            var h := Dispatch(s.db, d, env);
            ConfinedThroughLookup(db, d.from, h.db);
            h
  }

  /** Both controllers accept the same payloads except one whose `messages`
      array is empty, which only this one accepts. */
  lemma ValidatorsDiffer(body: Body)
    ensures WhatsApp.IsValidMessageRequest(body) ==> IsValidMessageRequest(body)
    ensures IsValidMessageRequest(body) && !WhatsApp.IsValidMessageRequest(body) <==>
      IsValidMessageRequest(body) && FirstValue(body).value.messages.value == []
  {
  }

  /** The two chains agree except on `/unsubscribe`, which this one does not
      know: it falls through to the audio test and then to help. */
  lemma ClassifiersDiffer(text: Option<string>, kind: string)
    ensures var c := WhatsApp.Classify(text, kind);
      Classify(text, kind) == (if c != Unsubscribe then c
                               else if kind == "audio" || kind == "voice" then Audio
                               else Help)
  {
  }

  /** A status update is acknowledged with 200 before any user is created or
      touched, whatever the `messages` array holds. */
  lemma StatusTakesPrecedence(db: Db, body: Body, env: Outcomes)
    requires IsValidMessageRequest(body)
    requires FirstValue(body).value.statuses.Some? && |FirstValue(body).value.statuses.value| > 0
    ensures MessageOutcome(db, body, env) == Handled(200, [], db)
  {
  }

  /** An empty `messages` array without status updates passes the check but
      makes the extraction fail: 500, no change. */
  lemma EmptyMessagesFail(db: Db, body: Body, env: Outcomes)
    requires IsValidMessageRequest(body) && FirstValue(body).value.messages.value == []
    requires FirstValue(body).value.statuses.None? || FirstValue(body).value.statuses.value == []
    ensures MessageOutcome(db, body, env) == Handled(500, [], db)
  {
  }

  /** `/unsubscribe` from a text message gets the help text; the only change
      is the sender's record being looked up or created. */
  lemma UnsubscribeIsHelp(db: Db, body: Body, env: Outcomes, d: MessageData)
    requires IsValidMessageRequest(body) && ExtractMessageData(body) == Success(d)
    requires !d.IsStatus() && d.from != "" && d.text.Some? && "/unsubscribe" <= d.text.value
    requires d.kind != "audio" && d.kind != "voice"
    ensures MessageOutcome(db, body, env) == Handled(200, [Send(d, HelpText)], db.GetOrCreateUser(d.from).db)
  {
    assert !("/status" <= d.text.value) by { assert d.text.value[1] == 'u'; }
    assert !("/subscribe" <= d.text.value) by { assert d.text.value[2] == 'n'; }
    assert !("/detail" <= d.text.value) by { assert d.text.value[1] == 'u'; }
  }

  /** `/status`: the report goes to the sender and nothing changes beyond
      the lookup; when `getUserStatus` throws the answer is 500. */
  lemma StatusIsReadOnly(db: Db, body: Body, env: Outcomes, d: MessageData)
    requires IsValidMessageRequest(body) && ExtractMessageData(body) == Success(d)
    requires !d.IsStatus() && db.GetOrCreateUser(d.from).result.Success? && Classify(d.text, d.kind) == ShowStatus
    ensures env.status.Some? ==>
      MessageOutcome(db, body, env) == Handled(200, [Send(d, StatusReport(env.status.value))], db.GetOrCreateUser(d.from).db)
    ensures env.status.None? ==> MessageOutcome(db, body, env) == Handled(500, [], db.GetOrCreateUser(d.from).db)
  {
  }

  /** `/subscribe` initiates whether or not the sender is already
      subscribed: the link and the returned record, or the error text. */
  lemma SubscribeAlwaysInitiates(db: Db, body: Body, env: Outcomes, d: MessageData)
    requires IsValidMessageRequest(body) && ExtractMessageData(body) == Success(d)
    requires !d.IsStatus() && db.GetOrCreateUser(d.from).result.Success? && Classify(d.text, d.kind) == Subscribe
    ensures env.initiate.Some? ==>
      MessageOutcome(db, body, env) ==
        Handled(200, [Send(d, SubscriptionLink(env.initiate.value.message))],
                db.GetOrCreateUser(d.from).db.ReplaceSubscription(d.from, env.initiate.value.record))
    ensures env.initiate.None? ==>
      MessageOutcome(db, body, env) == Handled(200, [Send(d, SubscriptionLinkError)], db.GetOrCreateUser(d.from).db)
  {
  }

  /** An audio or voice message from a user without free summaries: the
      notice, and no mutation beyond the lookup. */
  lemma AudioWithoutQuota(db: Db, body: Body, env: Outcomes, d: MessageData)
    requires IsValidMessageRequest(body) && ExtractMessageData(body) == Success(d)
    requires !d.IsStatus() && db.GetOrCreateUser(d.from).result.Success? && Classify(d.text, d.kind) == Audio
    requires !LookedUp(db, d.from).HasFreeSummaries()
    ensures MessageOutcome(db, body, env) == Handled(200, [Send(d, NoFreeSummaries)], db.GetOrCreateUser(d.from).db)
  {
  }

  /** A failed transcription is not caught: the sender, a first-time one
      included, has been told the message is being processed, the answer is
      500 and `useSummary` never runs. */
  lemma TranscriptionFailureIs500(db: Db, body: Body, env: Outcomes, d: MessageData)
    requires IsValidMessageRequest(body) && ExtractMessageData(body) == Success(d)
    requires !d.IsStatus() && db.GetOrCreateUser(d.from).result.Success? && Classify(d.text, d.kind) == Audio
    requires LookedUp(db, d.from).HasFreeSummaries() && HasMediaId(d.audio)
    requires env.transcribe(d.audio.value.id.value, LookedUp(db, d.from).summaryDetailLevel).None?
    ensures MessageOutcome(db, body, env) == Handled(500, [Send(d, Processing)], db.GetOrCreateUser(d.from).db)
  {
  }

  /** `handleMessage` over the store, calling its operations in the same
      order. */
  method HandleMessage(store: UserStore, body: Body, env: Outcomes) returns (code: int, sent: seq<Outgoing>)
    requires store.Valid()
    modifies store.Repr
    ensures store.Valid() && fresh(store.Repr - old(store.Repr))
    ensures Handled(code, sent, store.Snapshot()) == MessageOutcome(old(store.Snapshot()), body, env)
  {
    if !IsValidMessageRequest(body) {
      return 404, [];
    }
    var extracted := ExtractMessageData(body);
    if extracted.Failure? {
      return 500, [];
    }
    var d := extracted.value;
    if d.IsStatus() {
      return 200, [];
    }
    var found := store.GetOrCreateUser(d.from);
    if found.Failure? {
      return 500, [];
    }
    code, sent := HandleCommand(store, d, env);
  }

  /** The command chain of `handleMessage` once the sender's record exists. */
  method HandleCommand(store: UserStore, d: MessageData, env: Outcomes) returns (code: int, sent: seq<Outgoing>)
    requires store.Valid() && d.MessageData?
    modifies store.Repr
    ensures store.Valid() && store.Repr == old(store.Repr)
    ensures Handled(code, sent, store.Snapshot()) == Dispatch(old(store.Snapshot()), d, env)
  {
    code := 200;
    var command := Classify(d.text, d.kind);
    if command == ShowStatus {
      if env.status.None? {
        return 500, [];
      }
      sent := [Send(d, StatusReport(env.status.value))];
    } else if command == Subscribe {
      if env.initiate.None? {
        sent := [Send(d, SubscriptionLinkError)];
      } else {
        store.ReplaceSubscription(d.from, env.initiate.value.record);
        sent := [Send(d, SubscriptionLink(env.initiate.value.message))];
      }
    } else if command == SetDetail {
      code, sent := WhatsApp.HandleDetail(store, d);
    } else if command == Audio {
      code, sent := HandleAudio(store, d, env);
    } else {
      sent := [Send(d, HelpText)];
    }
  }

  /** The audio branch of `handleMessage`. */
  method HandleAudio(store: UserStore, d: MessageData, env: Outcomes) returns (code: int, sent: seq<Outgoing>)
    requires store.Valid() && d.MessageData?
    modifies store.Repr
    ensures store.Valid() && store.Repr == old(store.Repr)
    ensures Handled(code, sent, store.Snapshot()) == AudioOutcome(old(store.Snapshot()), d, env)
  {
    var availability := store.CheckSummaryAvailability(d.from);
    if availability.Failure? {
      return 500, [];
    }
    if !availability.value.hasFreeSummaries {
      return 200, [Send(d, NoFreeSummaries)];
    }
    if !HasMediaId(d.audio) {
      return 200, [Send(d, AudioUnreadable)];
    }
    sent := [Send(d, Processing)];
    var preferences := store.GetUserPreferences(d.from);
    if preferences.Failure? {
      return 500, sent;
    }
    var summary := env.transcribe(d.audio.value.id.value, preferences.value);
    if summary.None? {
      return 500, sent;
    }
    var used := store.UseSummary(d.from);
    if used.Failure? {
      return 500, sent;
    }
    return 200, sent + [Send(d, Summary(summary.value))];
  }
}
