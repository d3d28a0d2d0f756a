/** What the message controllers read and write: the inbound webhook payload
    (the fields the controllers touch, each optional as in the JSON), the
    extracted message data, the outcomes of the collaborators the controllers
    call, and the outbox that `sendMessage` appends to. */
module Messaging {
  import opened Wrappers
  import opened UserModel
  import opened UserService

  const BusinessAccount := "whatsapp_business_account"

  datatype Body = Body(objectType: Option<string>, entry: Option<seq<Entry>>)
  datatype Entry = Entry(changes: Option<seq<Change>>)
  datatype Change = Change(value: Option<Value>)
  datatype Value = Value(messages: Option<seq<Message>>, statuses: Option<seq<StatusUpdate>>, metadata: Option<Metadata>)
  datatype Metadata = Metadata(phoneNumberId: Option<string>)
  /** One inbound message; `text` is `text.body`. */
  datatype Message = Message(from: string, id: string, kind: string, text: Option<string>,
                             audio: Option<Media>, voice: Option<Media>)
  datatype Media = Media(id: Option<string>)
  datatype StatusUpdate = StatusUpdate(id: string, status: string)

  /** `body.entry?.[0]?.changes?.[0]` */
  function FirstChange(body: Body): Option<Change>
  {
    if body.entry.Some? && |body.entry.value| > 0 &&
       body.entry.value[0].changes.Some? && |body.entry.value[0].changes.value| > 0
    then Some(body.entry.value[0].changes.value[0])
    else None
  }

  /** `body.entry?.[0]?.changes?.[0]?.value` */
  function FirstValue(body: Body): Option<Value>
  {
    match FirstChange(body)
    case None => None
    case Some(change) => change.value
  }

  /** The extracted form of an event: a message, or (in webhook.js) the first
      delivery-status update. */
  datatype MessageData =
    | MessageData(kind: string, from: string, phoneNumberId: Option<string>, messageId: string,
                  text: Option<string>, audio: Option<Media>)
    | StatusData(messageId: string, status: string)
  {
    predicate IsStatus()
    {
      StatusData? || kind == "status"
    }
  }

  /** The projection both extractors share; `audio` and `voice` are merged into
      one media field, `audio` first. */
  function MessageDataOf(m: Message, meta: Metadata): (d: MessageData)
    ensures d.MessageData? && d.from == m.from && d.kind == m.kind && d.text == m.text
    ensures d.phoneNumberId == meta.phoneNumberId && d.messageId == m.id
    ensures m.audio.Some? ==> d.audio == m.audio
    ensures m.audio.None? ==> d.audio == m.voice
  {
    MessageData(m.kind, m.from, meta.phoneNumberId, m.id, m.text,
                if m.audio.Some? then m.audio else m.voice)
  }

  /** `messageData.audio?.id`, when it is a non-empty string. */
  predicate HasMediaId(audio: Option<Media>)
  {
    audio.Some? && audio.value.id.Some? && audio.value.id.value != ""
  }

  /** The actions the command chains choose between. */
  datatype Command = ShowStatus | Subscribe | Unsubscribe | SetDetail | Audio | Help

  /** No text starts with two of the command words, so the order of the
      `startsWith` tests decides nothing. */
  lemma CommandPrefixesExclusive(t: string)
    ensures "/status" <= t ==> !("/subscribe" <= t) && !("/unsubscribe" <= t) && !("/detail" <= t)
    ensures "/subscribe" <= t ==> !("/unsubscribe" <= t) && !("/detail" <= t)
    ensures "/unsubscribe" <= t ==> !("/detail" <= t)
  {
    if "/status" <= t {
      assert t[1] == 's' && t[2] == 't';
    }
    if "/subscribe" <= t {
      assert t[1] == 's';
    }
  }

  /** What the (unmodelled) `getUserStatus` returns. */
  datatype StatusView = StatusView(planType: string, isSubscribed: bool, freeSummariesRemaining: int,
                                   summaryDetailLevel: string, totalSummariesUsed: int)

  /** What `initiateSubscription` returns: the text for the user and the new
      subscription record it stores. */
  datatype Initiated = Initiated(message: string, record: Option<Subscription>)

  /** The outcomes of the calls the message handlers make into code this model
      does not define; `None` and `false` stand for a call that throws. */
  datatype Outcomes = Outcomes(
    status: Option<StatusView>,                        // userService.getUserStatus
    initiate: Option<Initiated>,                       // userService.initiateSubscription
    billingCancel: bool,                               // paypalService.cancelSubscription
    localCancel: Option<Option<Subscription>>,         // userService.cancelSubscription: the new record
    transcribe: (string, DetailLevel) -> Option<string>) // transcriptionService.transcribeWhatsAppAudio

  datatype BillingNotice = NowActive | NowCancelled | NowSuspended | NowExpired

  /** The texts the core sends, as tags. */
  datatype Reply =
    | StatusReport(view: StatusView)
    | AlreadySubscribed
    | SubscriptionLink(message: string)
    | SubscriptionLinkError
    | NotSubscribed
    | SubscriptionCancelled
    | CancelError
    | DetailUsage
    | DetailSet(message: string)
    | DetailInvalid
    | NoFreeSummaries
    | AudioUnreadable
    | Processing
    | Summary(text: string)
    | AudioError
    | HelpText
    | SubscriptionNotice(notice: BillingNotice)
    | PremiumActive
    | PaymentCancelled

  /** One `sendMessage(to, text, phoneNumberId)` call. */
  datatype Outgoing = Outgoing(to: string, phoneNumberId: Option<string>, reply: Reply)

  /** The HTTP status a handler answers with, the messages it sent in order,
      and the store it leaves. */
  datatype Handled = Handled(code: int, sent: seq<Outgoing>, db: Db)

  /** A reply to the sender of `d`. */
  function Send(d: MessageData, reply: Reply): Outgoing
    requires d.MessageData?
  {
    Outgoing(d.from, d.phoneNumberId, reply)
  }

  /** The sender's record as the lookup-or-create at the head of each message
      handler returns it. */
  function LookedUp(db: Db, phone: string): UserState
    requires db.GetOrCreateUser(phone).result.Success?
  {
    db.GetOrCreateUser(phone).result.value
  }

  /** What every handler keeps: quota never grows, one unit at most is
      consumed and it moves to the usage total. */
  predicate Metered(before: UserState, after: UserState)
  {
    after.freeSummariesRemaining <= before.freeSummariesRemaining &&
    before.freeSummariesRemaining - after.freeSummariesRemaining <= 1 &&
    after.freeSummariesRemaining + after.totalSummariesUsed ==
      before.freeSummariesRemaining + before.totalSummariesUsed
  }

  /** Only `sender`'s record may differ, or be new. */
  predicate OnlyTouches(before: Db, after: Db, sender: string)
  {
    after.users.Keys <= before.users.Keys + {sender} &&
    forall p :: p in before.users && p != sender ==> p in after.users && after.users[p] == before.users[p]
  }

  /** What a message handler may do to the store: change or create the
      sender's record only, and keep every record metered (a new record
      against the defaults it was created with). */
  predicate Confined(before: Db, after: Db, sender: string)
  {
    OnlyTouches(before, after, sender) &&
    (forall p :: p in before.users ==> p in after.users && Metered(before.users[p], after.users[p])) &&
    (forall p :: p in after.users && p !in before.users ==> Metered(NewUser(p), after.users[p]))
  }

  /** A step after `getOrCreateUser(sender)` that keeps to the sender and to
      metering leaves the whole handler confined; the lookup itself moves no
      usage total. */
  lemma ConfinedThroughLookup(db: Db, sender: string, after: Db)
    requires db.GetOrCreateUser(sender).result.Success?
    requires after.users.Keys == db.GetOrCreateUser(sender).db.users.Keys
    requires forall p :: p in db.GetOrCreateUser(sender).db.users && p != sender ==>
      after.users[p] == db.GetOrCreateUser(sender).db.users[p]
    requires forall p :: p in db.GetOrCreateUser(sender).db.users ==>
      Metered(db.GetOrCreateUser(sender).db.users[p], after.users[p])
    ensures Confined(db, after, sender)
    ensures forall p :: p in db.users ==>
      db.GetOrCreateUser(sender).db.users[p].totalSummariesUsed == db.users[p].totalSummariesUsed
  {
  }
}
