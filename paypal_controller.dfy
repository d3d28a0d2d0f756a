/** The PayPal callbacks of src/controllers/paypal.js: the signed billing
    webhook, the redirect after approval (`handleSuccess`) and the redirect
    after a cancelled payment (`handleCancel`). The PayPal service itself and
    the subscription bookkeeping it triggers are inputs. */
module PayPalController {
  import opened Wrappers
  import opened UserModel
  import opened UserService
  import opened Messaging

  const ActivatedEvent := "BILLING.SUBSCRIPTION.ACTIVATED"
  const CancelledEvent := "BILLING.SUBSCRIPTION.CANCELLED"
  const SuspendedEvent := "BILLING.SUBSCRIPTION.SUSPENDED"
  const ExpiredEvent := "BILLING.SUBSCRIPTION.EXPIRED"

  /** The parts of a billing event the controller reads: `event_type` and
      `resource.id` (`None` when `resource` is absent). */
  datatype Event = Event(eventType: string, resourceId: Option<string>)

  /** What `userService.handlePayPalWebhook` does with the event: it throws,
      or it leaves `phone`'s subscription record as `record`. */
  datatype BillingUpdate = UpdateFailed | Updates(phone: string, record: Option<Subscription>)

  /** The event type that announces each notice. */
  function EventTypeOf(n: BillingNotice): (t: string)
    ensures t in {ActivatedEvent, CancelledEvent, SuspendedEvent, ExpiredEvent}
  {
    match n
    case NowActive => ActivatedEvent
    case NowCancelled => CancelledEvent
    case NowSuspended => SuspendedEvent
    case NowExpired => ExpiredEvent
  }

  /** The `switch` on `event_type`: one fixed notice for each of the four
      subscription events, none for any other type. */
  function NotificationFor(eventType: string): (n: Option<BillingNotice>)
    ensures n.Some? <==> eventType in {ActivatedEvent, CancelledEvent, SuspendedEvent, ExpiredEvent}
    ensures n.Some? ==> EventTypeOf(n.value) == eventType
  {
    if eventType == ActivatedEvent then Some(NowActive)
    else if eventType == CancelledEvent then Some(NowCancelled)
    else if eventType == SuspendedEvent then Some(NowSuspended)
    else if eventType == ExpiredEvent then Some(NowExpired)
    else None
  }

  /** Each notice is sent for exactly the event type that names it. */
  lemma NotificationRoundTrip(n: BillingNotice)
    ensures NotificationFor(EventTypeOf(n)) == Some(n)
  {
  }

  /** `user.subscription?.paypalSubscriptionId`. */
  function StoredId(stored: Option<Subscription>): (id: Option<string>)
    ensures stored.None? ==> id.None?
    ensures stored.Some? ==> id == stored.value.paypalSubscriptionId
  {
    match stored
    case None => None
    case Some(s) => s.paypalSubscriptionId
  }

  /** The redirect's check as written: `===` between two possibly undefined
      values, so a user without a subscription and a request without
      `subscription_id` pass it. */
  predicate SuccessMatchesAsWritten(stored: Option<Subscription>, queryId: Option<string>)
  {
    StoredId(stored) == queryId
  }

  /** The as-written check accepts a brand-new user and a request that names
      no subscription. */
  lemma AsWrittenActivatesWithoutSubscription()
    ensures SuccessMatchesAsWritten(NewUser("15550001").subscription, None)
    ensures !SuccessMatches(NewUser("15550001").subscription, None)
  {
  }

  /** The check as intended: the user has a subscription record and the
      request names that record's id; the status is not consulted. */
  predicate SuccessMatches(stored: Option<Subscription>, queryId: Option<string>)
  {
    stored.Some? && queryId.Some? && stored.value.paypalSubscriptionId == queryId
  }

  /** The intended check is the written one restricted to requests that name
      a subscription the user already holds. */
  lemma SuccessMatchesRefinesAsWritten(stored: Option<Subscription>, queryId: Option<string>)
    ensures SuccessMatches(stored, queryId) <==>
      SuccessMatchesAsWritten(stored, queryId) && stored.Some? && queryId.Some?
  {
  }

  /** The subscription record `getOrCreateUser(phone)` hands back: the stored
      one, or none for a new user. */
  function StoredSubscription(db: Db, phone: string): Option<Subscription>
  {
    if phone in db.users then db.users[phone].subscription else None
  }

  /** `handleSuccess` with the check as written: whatever the check accepts,
      including two absent ids, is stored as an ACTIVE record with the
      request's id. */
  function SuccessOutcomeAsWritten(db: Db, phone: string, subscriptionId: Option<string>,
                                   phoneNumberId: Option<string>): (h: Handled)
    ensures db.GetOrCreateUser(phone).result.Failure? ==> h == Handled(500, [], db)
    ensures h.code == 200 || h.code == 400 || h.code == 500
    ensures h.code == 200 <==>
      db.GetOrCreateUser(phone).result.Success? && SuccessMatchesAsWritten(StoredSubscription(db, phone), subscriptionId)
    ensures h.code != 500 ==> phone in h.db.users
    ensures h.code == 200 ==>
      h.db.users[phone].subscription == Some(Subscription(subscriptionId, "ACTIVE")) &&
      h.sent == [Outgoing(phone, phoneNumberId, PremiumActive)]
    ensures h.code != 200 ==> h.sent == [] && forall p :: p in h.db.users ==> h.db.users[p].subscription == StoredSubscription(db, p)
    ensures forall p :: p in db.users && p != phone ==> p in h.db.users && h.db.users[p] == db.users[p]
  {
    var s := db.GetOrCreateUser(phone);
    match s.result
    case Failure(_) => Handled(500, [], db)
    case Success(user) =>
      if SuccessMatchesAsWritten(user.subscription, subscriptionId) then
        Handled(200, [Outgoing(phone, phoneNumberId, PremiumActive)],
                s.db.ReplaceSubscription(phone, Some(Subscription(subscriptionId, "ACTIVE"))))
      else Handled(400, [], s.db)
  }

  /** `handleSuccess`: the user is looked up or created first; the
      subscription becomes ACTIVE only when the request names the one the
      user holds; otherwise 400 and subscriptions stay as they were. */
  function SuccessOutcome(db: Db, phone: string, subscriptionId: Option<string>, phoneNumberId: Option<string>): (h: Handled)
    ensures db.GetOrCreateUser(phone).result.Failure? ==> h == Handled(500, [], db)
    ensures h.code == 200 || h.code == 400 || h.code == 500
    ensures h.code == 200 <==>
      db.GetOrCreateUser(phone).result.Success? && SuccessMatches(StoredSubscription(db, phone), subscriptionId)
    ensures h.code != 500 ==> phone in h.db.users
    ensures h.code == 200 ==>
      subscriptionId.Some? &&
      h.db.users[phone].subscription == Some(Subscription(subscriptionId, "ACTIVE")) &&
      h.sent == [Outgoing(phone, phoneNumberId, PremiumActive)]
    ensures h.code != 200 ==> h.sent == [] && forall p :: p in h.db.users ==> h.db.users[p].subscription == StoredSubscription(db, p)
    ensures forall p :: p in db.users && p != phone ==> p in h.db.users && h.db.users[p] == db.users[p]
    ensures db.Valid() ==> h.db.Valid()
  {
    var s := db.GetOrCreateUser(phone);
    match s.result
    case Failure(_) => Handled(500, [], db)
    case Success(user) =>
      if SuccessMatches(user.subscription, subscriptionId) then
        Handled(200, [Outgoing(phone, phoneNumberId, PremiumActive)],
                s.db.ReplaceSubscription(phone, Some(Subscription(subscriptionId, "ACTIVE"))))
      else Handled(400, [], s.db)
  }

  /** On the input of the finding (a new phone, no `subscription_id`) the
      handler as written answers 200, sends the premium notice and stores an
      ACTIVE record without an id; the corrected handler answers 400 and
      stores no subscription. */
  lemma AsWrittenHandlerActivatesNewUser(db: Db, phone: string, phoneNumberId: Option<string>)
    requires phone != "" && phone !in db.users
    ensures SuccessOutcomeAsWritten(db, phone, None, phoneNumberId).code == 200
    ensures SuccessOutcomeAsWritten(db, phone, None, phoneNumberId).db.users[phone].subscription ==
      Some(Subscription(None, "ACTIVE"))
    ensures SuccessOutcome(db, phone, None, phoneNumberId) == Handled(400, [], db.GetOrCreateUser(phone).db)
    ensures SuccessOutcome(db, phone, None, phoneNumberId).db.users[phone].subscription == None
  {
  }

  /** `handleCancel`: looks up or creates the user and tells them the payment
      did not go through; no subscription changes. */
  function CancelOutcome(db: Db, phone: string, phoneNumberId: Option<string>): (h: Handled)
    ensures db.GetOrCreateUser(phone).result.Failure? ==> h == Handled(500, [], db)
    ensures db.GetOrCreateUser(phone).result.Success? ==>
      h.code == 200 && h.sent == [Outgoing(phone, phoneNumberId, PaymentCancelled)] && phone in h.db.users
    ensures forall p :: p in h.db.users ==> h.db.users[p].subscription == StoredSubscription(db, p)
    ensures forall p :: p in db.users && p != phone ==> p in h.db.users && h.db.users[p] == db.users[p]
    ensures db.Valid() ==> h.db.Valid()
  {
    var s := db.GetOrCreateUser(phone);
    if s.result.Failure? then Handled(500, [], db)
    else Handled(200, [Outgoing(phone, phoneNumberId, PaymentCancelled)], s.db)
  }

  /** `handleWebhook`. The signature gate comes before anything else; the
      billing update is applied next; then the holder of `resource.id`, if
      any, gets the notice for the event type, sent without a sender number.
      `signatureValid` is the verification call's answer, which is false on
      every failure of that call. */
  method HandleWebhook(store: UserStore, signatureValid: bool, event: Event, update: BillingUpdate)
    returns (code: int, sent: seq<Outgoing>)
    requires store.Valid()
    modifies store.Repr
    ensures store.Valid() && store.Repr == old(store.Repr)
    ensures !signatureValid ==> code == 400 && sent == [] && store.Snapshot() == old(store.Snapshot())
    ensures signatureValid && update.UpdateFailed? ==>
      code == 500 && sent == [] && store.Snapshot() == old(store.Snapshot())
    ensures signatureValid && update.Updates? ==>
      store.Snapshot() == old(store.Snapshot()).ReplaceSubscription(update.phone, update.record)
    ensures signatureValid && update.Updates? && event.resourceId.None? ==> code == 500 && sent == []
    ensures signatureValid && update.Updates? && event.resourceId.Some? ==> code == 200
    ensures |sent| <= 1
    ensures sent != [] ==>
      code == 200 && event.resourceId.Some? && NotificationFor(event.eventType).Some? &&
      store.Snapshot().HasSubscriptionId(sent[0].to, event.resourceId.value) &&
      sent[0] == Outgoing(sent[0].to, None, SubscriptionNotice(NotificationFor(event.eventType).value))
    ensures code == 200 && sent == [] ==>
      NotificationFor(event.eventType).None? ||
      forall p :: !store.Snapshot().HasSubscriptionId(p, event.resourceId.value)
  {
    if !signatureValid {
      return 400, [];
    }
    if update.UpdateFailed? {
      return 500, [];
    }
    store.ReplaceSubscription(update.phone, update.record);
    if event.resourceId.None? {
      return 500, [];
    }
    var holder := store.FindBySubscriptionId(event.resourceId.value);
    sent := [];
    if holder.Some? {
      var notice := NotificationFor(event.eventType);
      if notice.Some? {
        sent := [Outgoing(holder.value, None, SubscriptionNotice(notice.value))];
      }
    }
    code := 200;
  }

  /** `handleSuccess` over the store. */
  method HandleSuccess(store: UserStore, phone: string, subscriptionId: Option<string>, phoneNumberId: Option<string>)
    returns (code: int, sent: seq<Outgoing>)
    requires store.Valid()
    modifies store.Repr
    ensures store.Valid() && fresh(store.Repr - old(store.Repr))
    ensures Handled(code, sent, store.Snapshot()) == SuccessOutcome(old(store.Snapshot()), phone, subscriptionId, phoneNumberId)
  {
    var found := store.GetOrCreateUser(phone);
    if found.Failure? {
      return 500, [];
    }
    if !SuccessMatches(found.value.subscription, subscriptionId) {
      return 400, [];
    }
    store.SetSubscription(phone, subscriptionId, "ACTIVE");
    return 200, [Outgoing(phone, phoneNumberId, PremiumActive)];
  }

  /** `handleCancel` over the store. */
  method HandleCancel(store: UserStore, phone: string, phoneNumberId: Option<string>)
    returns (code: int, sent: seq<Outgoing>)
    requires store.Valid()
    modifies store.Repr
    ensures store.Valid() && fresh(store.Repr - old(store.Repr))
    ensures Handled(code, sent, store.Snapshot()) == CancelOutcome(old(store.Snapshot()), phone, phoneNumberId)
  {
    var found := store.GetOrCreateUser(phone);
    if found.Failure? {
      return 500, [];
    }
    return 200, [Outgoing(phone, phoneNumberId, PaymentCancelled)];
  }
}
