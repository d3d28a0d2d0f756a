/** The per-user record of src/models/user.js: its schema defaults and
    validators, and the instance methods that update a record in place and
    save it. `UserState` is the record as a value; `User` is the stored
    document whose methods change it. */
module UserModel {
  import opened Wrappers
  import opened Errors

  const DefaultFreeSummaries := 10

  /** The `summaryDetailLevel` enum. */
  datatype DetailLevel = Brief | Normal | Detailed

  function LevelName(level: DetailLevel): string
  {
    match level
    case Brief => "brief"
    case Normal => "normal"
    case Detailed => "detailed"
  }

  /** Membership test of a string in the enum; the only way a level is set. */
  function ParseLevel(s: string): (r: Option<DetailLevel>)
    ensures r.Some? <==> s == "brief" || s == "normal" || s == "detailed"
    ensures r.Some? ==> LevelName(r.value) == s
  {
    if s == "brief" then Some(Brief)
    else if s == "normal" then Some(Normal)
    else if s == "detailed" then Some(Detailed)
    else None
  }

  lemma LevelNameParses(level: DetailLevel)
    ensures ParseLevel(LevelName(level)) == Some(level)
  {
  }

  /** The embedded subscription record. The code that writes it is not part of
      this model; only its id and status are read. The id is absent when the
      record was written from an undefined one. */
  datatype Subscription = Subscription(paypalSubscriptionId: Option<string>, status: string)

  /** A user document. Timestamps, `name` and `language` are left out. */
  datatype UserState = UserState(
    phoneNumber: string,
    messageCount: int,
    freeSummariesRemaining: int,
    totalSummariesUsed: int,
    summaryDetailLevel: DetailLevel,
    active: bool,
    subscription: Option<Subscription>)
  {
    /** What the schema validators and the counters' arithmetic guarantee:
        a non-empty phone (`required`), `min: 0` on the quota. */
    predicate WellFormed()
    {
      phoneNumber != "" && messageCount >= 1 &&
      freeSummariesRemaining >= 0 && totalSummariesUsed >= 0
    }

    predicate HasFreeSummaries()
    {
      freeSummariesRemaining > 0
    }

    /** `user.isSubscribed` (not defined in the modelled files): taken to mean
        an ACTIVE subscription record. */
    predicate IsSubscribed()
    {
      subscription.Some? && subscription.value.status == "ACTIVE"
    }

    function UpdateLastInteraction(): (u: UserState)
      ensures u.messageCount == messageCount + 1
      ensures u.(messageCount := messageCount) == this
      ensures WellFormed() ==> u.WellFormed()
    {
      this.(messageCount := messageCount + 1)
    }

    /** Fails, changing nothing, when the quota is exhausted; otherwise moves
        exactly one unit from the quota to the usage total. */
    function UseFreeSummary(): (r: Result<UserState, Error>)
      ensures r.Failure? <==> !HasFreeSummaries()
      ensures r.Failure? ==> r.error == NoFreeSummariesRemaining
      ensures r.Success? ==> r.value.freeSummariesRemaining == freeSummariesRemaining - 1
      ensures r.Success? ==> r.value.totalSummariesUsed == totalSummariesUsed + 1
      ensures r.Success? ==> r.value.(freeSummariesRemaining := freeSummariesRemaining,
                                      totalSummariesUsed := totalSummariesUsed) == this
      ensures r.Success? ==> r.value.freeSummariesRemaining >= 0
      ensures WellFormed() && r.Success? ==> r.value.WellFormed()
    {
      if !HasFreeSummaries() then Failure(NoFreeSummariesRemaining)
      else Success(this.(freeSummariesRemaining := freeSummariesRemaining - 1,
                         totalSummariesUsed := totalSummariesUsed + 1))
    }

    /** Adds `count` to the quota; the save is refused by the `min: 0`
        validator when the sum would be negative, and nothing is stored. */
    function AddFreeSummaries(count: int): (r: Result<UserState, Error>)
      ensures r.Success? <==> freeSummariesRemaining + count >= 0
      ensures r.Failure? ==> r.error == ValidationFailed
      ensures r.Success? ==> r.value.freeSummariesRemaining == freeSummariesRemaining + count
      ensures r.Success? ==> r.value.(freeSummariesRemaining := freeSummariesRemaining) == this
      ensures WellFormed() && r.Success? ==> r.value.WellFormed()
    {
      if freeSummariesRemaining + count < 0 then Failure(ValidationFailed)
      else Success(this.(freeSummariesRemaining := freeSummariesRemaining + count))
    }
  }

  /** The document `User.create({phoneNumber, ...})` stores: every other field
      takes its schema default. */
  function NewUser(phone: string): (u: UserState)
    ensures u.phoneNumber == phone
    ensures u.freeSummariesRemaining == DefaultFreeSummaries && u.totalSummariesUsed == 0
    ensures u.messageCount == 1 && u.summaryDetailLevel == Normal && u.active
    ensures u.subscription == None
    ensures u.WellFormed() <==> phone != ""
  {
    UserState(phone, 1, DefaultFreeSummaries, 0, Normal, true, None)
  }

  /** `n` successive `useFreeSummary` calls, stopping at the first that fails. */
  function UseMany(u: UserState, n: nat): (r: Result<UserState, Error>)
  {
    if n == 0 then Success(u)
    else match UseMany(u, n - 1)
      case Failure(e) => Failure(e)
      case Success(v) => v.UseFreeSummary()
  }

  /** Usage only moves between the quota and the total: `n` calls succeed
      exactly when the quota holds `n`, and then move exactly `n` units without
      the quota going negative. */
  lemma {:induction false} UseManyConserves(u: UserState, n: nat)
    requires u.freeSummariesRemaining >= 0
    ensures UseMany(u, n).Success? <==> n <= u.freeSummariesRemaining
    ensures UseMany(u, n).Success? ==>
      UseMany(u, n).value.freeSummariesRemaining == u.freeSummariesRemaining - n &&
      UseMany(u, n).value.totalSummariesUsed == u.totalSummariesUsed + n &&
      UseMany(u, n).value.freeSummariesRemaining >= 0
  {
    if n > 0 {
      UseManyConserves(u, n - 1);
    }
  }

  /** The stored document. Each method changes its fields as the JavaScript
      method does and saves; a save the schema refuses leaves the stored
      fields as they were. */
  class User {
    const phoneNumber: string
    var messageCount: int
    var freeSummariesRemaining: int
    var totalSummariesUsed: int
    var summaryDetailLevel: DetailLevel
    var active: bool
    var subscription: Option<Subscription>

    function State(): UserState
      reads this
    {
      UserState(phoneNumber, messageCount, freeSummariesRemaining, totalSummariesUsed,
                summaryDetailLevel, active, subscription)
    }

    ghost predicate Valid()
      reads this
    {
      State().WellFormed()
    }

    constructor (phone: string)
      requires phone != ""
      ensures Valid() && State() == NewUser(phone)
    {
      phoneNumber := phone;
      messageCount := 1;
      freeSummariesRemaining := DefaultFreeSummaries;
      totalSummariesUsed := 0;
      summaryDetailLevel := Normal;
      active := true;
      subscription := None;
    }

    method UpdateLastInteraction()
      requires Valid()
      modifies this
      ensures Valid() && State() == old(State()).UpdateLastInteraction()
    {
      messageCount := messageCount + 1;
    }

    function HasFreeSummaries(): (r: bool)
      reads this
      ensures r == State().HasFreeSummaries()
    {
      freeSummariesRemaining > 0
    }

    method UseFreeSummary() returns (r: Outcome<Error>)
      requires Valid()
      modifies this
      ensures Valid()
      ensures old(State()).UseFreeSummary().Failure? ==>
        r == Fail(old(State()).UseFreeSummary().error) && State() == old(State())
      ensures old(State()).UseFreeSummary().Success? ==>
        r == Pass && State() == old(State()).UseFreeSummary().value
    {
      if !HasFreeSummaries() {
        return Fail(NoFreeSummariesRemaining);
      }
      freeSummariesRemaining := freeSummariesRemaining - 1;
      totalSummariesUsed := totalSummariesUsed + 1;
      r := Pass;
    }

    method AddFreeSummaries(count: int) returns (r: Outcome<Error>)
      requires Valid()
      modifies this
      ensures Valid()
      ensures old(State()).AddFreeSummaries(count).Failure? ==>
        r == Fail(ValidationFailed) && State() == old(State())
      ensures old(State()).AddFreeSummaries(count).Success? ==>
        r == Pass && State() == old(State()).AddFreeSummaries(count).value
    {
      if freeSummariesRemaining + count < 0 {
        return Fail(ValidationFailed);
      }
      freeSummariesRemaining := freeSummariesRemaining + count;
      r := Pass;
    }

    /** `user.setSubscription(id, status)`: not defined in the modelled files;
        taken to replace the embedded subscription record and nothing else. */
    method SetSubscription(id: Option<string>, status: string)
      requires Valid()
      modifies this
      ensures Valid()
      ensures State() == old(State()).(subscription := Some(Subscription(id, status)))
    {
      subscription := Some(Subscription(id, status));
    }
  }
}
