/** The user service of src/services/user.js: a store of user documents keyed
    by phone number, with find-then-mutate operations. `Db` is the store as a
    value and gives each operation's meaning; `UserStore` holds the documents
    and performs the operations in place. */
module UserService {
  import opened Wrappers
  import opened Errors
  import opened UserModel

  datatype Availability = Availability(hasFreeSummaries: bool, freeSummariesRemaining: int, totalSummariesUsed: int)
  datatype Usage = Usage(remaining: int, totalUsed: int)
  datatype LevelSet = LevelSet(detailLevel: DetailLevel, message: string)
  datatype Stats = Stats(totalUsers: nat, activeUsers: nat, usersWithFreeSummaries: nat, totalSummariesUsed: int)

  /** What an operation returns or throws, and the store it leaves behind. */
  datatype Step<T> = Step(result: Result<T, Error>, db: Db)

  /** Sum of `totalSummariesUsed` over the users named in `keys`. */
  ghost function SumUsed(users: map<string, UserState>, keys: set<string>): int
    requires keys <= users.Keys
  {
    if keys == {} then 0
    else
      var p :| p in keys;
      users[p].totalSummariesUsed + SumUsed(users, keys - {p})
  }

  /** The sum does not depend on the order the users are visited in. */
  lemma {:induction false} SumUsedRemove(users: map<string, UserState>, keys: set<string>, p: string)
    requires keys <= users.Keys && p in keys
    ensures SumUsed(users, keys) == users[p].totalSummariesUsed + SumUsed(users, keys - {p})
    decreases keys
  {
    var q :| q in keys && SumUsed(users, keys) == users[q].totalSummariesUsed + SumUsed(users, keys - {q});
    if q != p {
      SumUsedRemove(users, keys - {q}, p);
      SumUsedRemove(users, keys - {p}, q);
      assert keys - {q} - {p} == keys - {p} - {q};
    }
  }

  lemma SumUsedAdd(users: map<string, UserState>, keys: set<string>, p: string)
    requires keys <= users.Keys && p in users && p !in keys
    ensures SumUsed(users, keys + {p}) == SumUsed(users, keys) + users[p].totalSummariesUsed
  {
    SumUsedRemove(users, keys + {p}, p);
    assert keys + {p} - {p} == keys;
  }

  /** Changing one user's total changes the sum by exactly the difference. */
  lemma {:induction false} SumUsedUpdate(users: map<string, UserState>, keys: set<string>, p: string, u: UserState)
    requires keys <= users.Keys && p in users
    ensures SumUsed(users[p := u], keys) ==
      SumUsed(users, keys) + (if p in keys then u.totalSummariesUsed - users[p].totalSummariesUsed else 0)
    decreases keys
  {
    if keys != {} {
      var q :| q in keys;
      SumUsedRemove(users, keys, q);
      SumUsedRemove(users[p := u], keys, q);
      SumUsedUpdate(users, keys - {q}, p, u);
    }
  }

  lemma {:induction false} SubsetCardinality(a: set<string>, b: set<string>)
    requires a <= b
    ensures |a| <= |b|
  {
    if a != {} {
      var x :| x in a;
      SubsetCardinality(a - {x}, b - {x});
    }
  }

  /** Number of active users among `keys`. */
  ghost function CountActive(users: map<string, UserState>, keys: set<string>): nat
    requires keys <= users.Keys
  {
    |set q | q in keys && users[q].active|
  }

  /** Number of users among `keys` with quota left. */
  ghost function CountWithFree(users: map<string, UserState>, keys: set<string>): nat
    requires keys <= users.Keys
  {
    |set q | q in keys && users[q].HasFreeSummaries()|
  }

  lemma CountActiveAdd(users: map<string, UserState>, keys: set<string>, p: string)
    requires keys <= users.Keys && p in users && p !in keys
    ensures CountActive(users, keys + {p}) == CountActive(users, keys) + (if users[p].active then 1 else 0)
  {
    var before := set q | q in keys && users[q].active;
    if users[p].active {
      assert (set q | q in keys + {p} && users[q].active) == before + {p};
    } else {
      assert (set q | q in keys + {p} && users[q].active) == before;
    }
  }

  lemma CountWithFreeAdd(users: map<string, UserState>, keys: set<string>, p: string)
    requires keys <= users.Keys && p in users && p !in keys
    ensures CountWithFree(users, keys + {p}) ==
      CountWithFree(users, keys) + (if users[p].HasFreeSummaries() then 1 else 0)
  {
    var before := set q | q in keys && users[q].HasFreeSummaries();
    if users[p].HasFreeSummaries() {
      assert (set q | q in keys + {p} && users[q].HasFreeSummaries()) == before + {p};
    } else {
      assert (set q | q in keys + {p} && users[q].HasFreeSummaries()) == before;
    }
  }

  datatype Db = Db(users: map<string, UserState>)
  {
    /** Every document is stored under its own phone number (so phone numbers
        are unique) and satisfies the schema. */
    predicate Valid()
    {
      forall p :: p in users ==> users[p].phoneNumber == p && users[p].WellFormed()
    }

    /** Looks the phone up; an unseen phone gets a new document with the
        defaults (refused by the `required` validator when empty), a known
        one has its interaction counted. */
    function GetOrCreateUser(phone: string): (s: Step<UserState>)
      ensures phone in users ==>
        s.result == Success(users[phone].UpdateLastInteraction()) && s.db.users == users[phone := s.result.value]
      ensures phone !in users && phone != "" ==>
        s.result == Success(NewUser(phone)) && s.db.users == users[phone := NewUser(phone)]
      ensures phone !in users && phone == "" ==> s == Step(Failure(ValidationFailed), this)
      ensures s.result.Success? ==> s.db.users.Keys == users.Keys + {phone} && s.db.users[phone] == s.result.value
      ensures s.result.Success? <==> phone in users || phone != ""
      ensures Valid() ==> s.db.Valid()
    {
      if phone in users then
        var u := users[phone].UpdateLastInteraction();
        Step(Success(u), Db(users[phone := u]))
      else if phone == "" then Step(Failure(ValidationFailed), this)
      else Step(Success(NewUser(phone)), Db(users[phone := NewUser(phone)]))
    }

    function CheckSummaryAvailability(phone: string): (r: Result<Availability, Error>)
      ensures r.Failure? <==> phone !in users
      ensures r.Failure? ==> r.error == UserNotFound
      ensures r.Success? ==> r.value.hasFreeSummaries == (users[phone].freeSummariesRemaining > 0)
      ensures r.Success? ==> r.value.freeSummariesRemaining == users[phone].freeSummariesRemaining
      ensures r.Success? ==> r.value.totalSummariesUsed == users[phone].totalSummariesUsed
    {
      if phone !in users then Failure(UserNotFound)
      else
        var u := users[phone];
        Success(Availability(u.HasFreeSummaries(), u.freeSummariesRemaining, u.totalSummariesUsed))
    }

    /** Consumes one unit of the user's quota and reports the counters after
        the decrement; an unknown user or an empty quota changes nothing. */
    function UseSummary(phone: string): (s: Step<Usage>)
      ensures phone !in users ==> s == Step(Failure(UserNotFound), this)
      ensures phone in users && users[phone].freeSummariesRemaining <= 0 ==>
        s == Step(Failure(NoFreeSummariesRemaining), this)
      ensures s.result.Success? <==> phone in users && users[phone].freeSummariesRemaining > 0
      ensures s.result.Success? ==>
        s.db.users == users[phone := users[phone].UseFreeSummary().value] &&
        s.result.value == Usage(users[phone].freeSummariesRemaining - 1, users[phone].totalSummariesUsed + 1)
      ensures Valid() ==> s.db.Valid()
    {
      if phone !in users then Step(Failure(UserNotFound), this)
      else match users[phone].UseFreeSummary()
        case Failure(e) => Step(Failure(e), this)
        case Success(u) => Step(Success(Usage(u.freeSummariesRemaining, u.totalSummariesUsed)), Db(users[phone := u]))
    }

    /** Adds `count` to the user's quota and returns the new quota: the
        previous one plus `count`. */
    function AddBonusSummaries(phone: string, count: int): (s: Step<int>)
      ensures phone !in users ==> s == Step(Failure(UserNotFound), this)
      ensures s.result.Failure? ==> s.db == this
      ensures s.result.Success? <==> phone in users && users[phone].freeSummariesRemaining + count >= 0
      ensures s.result.Success? ==>
        s.result.value == users[phone].freeSummariesRemaining + count &&
        s.db.users == users[phone := users[phone].(freeSummariesRemaining := s.result.value)]
      ensures Valid() ==> s.db.Valid()
    {
      if phone !in users then Step(Failure(UserNotFound), this)
      else match users[phone].AddFreeSummaries(count)
        case Failure(e) => Step(Failure(e), this)
        case Success(u) => Step(Success(u.freeSummariesRemaining), Db(users[phone := u]))
    }

    /** Validates the level before looking the user up; on success sets that
        one field. */
    function SetSummaryDetailLevel(phone: string, level: string): (s: Step<LevelSet>)
      ensures ParseLevel(level).None? ==> s == Step(Failure(InvalidDetailLevel), this)
      ensures ParseLevel(level).Some? && phone !in users ==> s == Step(Failure(UserNotFound), this)
      ensures s.result.Success? <==> ParseLevel(level).Some? && phone in users
      ensures s.result.Success? ==>
        LevelName(s.result.value.detailLevel) == level &&
        s.result.value.message == "Summary detail level set to: " + level &&
        s.db.users == users[phone := users[phone].(summaryDetailLevel := s.result.value.detailLevel)]
      ensures Valid() ==> s.db.Valid()
    {
      match ParseLevel(level)
      case None => Step(Failure(InvalidDetailLevel), this)
      case Some(l) =>
        if phone !in users then Step(Failure(UserNotFound), this)
        else Step(Success(LevelSet(l, "Summary detail level set to: " + level)),
                  Db(users[phone := users[phone].(summaryDetailLevel := l)]))
    }

    function GetUserPreferences(phone: string): (r: Result<DetailLevel, Error>)
      ensures r.Failure? <==> phone !in users
      ensures r.Failure? ==> r.error == UserNotFound
      ensures r.Success? ==> r.value == users[phone].summaryDetailLevel
    {
      if phone !in users then Failure(UserNotFound) else Success(users[phone].summaryDetailLevel)
    }

    /** The effect of the subscription operations this model does not define
        (`initiateSubscription`, `cancelSubscription`, `handlePayPalWebhook`,
        `user.setSubscription`): the subscription record of that one user is
        replaced, and nothing else changes. */
    function ReplaceSubscription(phone: string, record: Option<Subscription>): (d: Db)
      ensures d.users.Keys == users.Keys
      ensures forall p :: p in users ==>
        d.users[p].(subscription := users[p].subscription) == users[p]
      ensures phone in users ==> d.users[phone].subscription == record
      ensures forall p :: p in users && p != phone ==> d.users[p] == users[p]
      ensures Valid() ==> d.Valid()
    {
      if phone in users then Db(users[phone := users[phone].(subscription := record)]) else this
    }

    predicate HasSubscriptionId(phone: string, id: string)
    {
      phone in users && users[phone].subscription.Some? &&
      users[phone].subscription.value.paypalSubscriptionId == Some(id)
    }

    /** `getUserStats` without `lastDayUsers`: counts of all, active and
        still-metered users, and the usage total (0 for an empty store). */
    ghost function UserStats(): (s: Stats)
      ensures s.totalUsers == |users|
      ensures s.usersWithFreeSummaries <= s.totalUsers && s.activeUsers <= s.totalUsers
      ensures users == map[] ==> s == Stats(0, 0, 0, 0)
    {
      SubsetCardinality((set p | p in users && users[p].HasFreeSummaries()), users.Keys);
      SubsetCardinality((set p | p in users && users[p].active), users.Keys);
      assert |users.Keys| == |users|;
      Stats(|users|, CountActive(users, users.Keys), CountWithFree(users, users.Keys), SumUsed(users, users.Keys))
    }
  }

  /** Every successful `useSummary` adds exactly one to the store-wide usage
      total that `getUserStats` reports, and moves nothing else. */
  lemma UseSummaryCountsOnce(db: Db, phone: string)
    requires db.UseSummary(phone).result.Success?
    ensures db.UseSummary(phone).db.UserStats().totalSummariesUsed == db.UserStats().totalSummariesUsed + 1
    ensures db.UseSummary(phone).db.UserStats().totalUsers == db.UserStats().totalUsers
  {
    var u := db.users[phone].UseFreeSummary().value;
    SumUsedUpdate(db.users, db.users.Keys, phone, u);
    assert db.UseSummary(phone).db.users.Keys == db.users.Keys;
  }

  /** The counts and the `$sum` aggregation of `getUserStats`, one document
      at a time. */
  method Tally(db: Db) returns (s: Stats)
    ensures s == db.UserStats()
  {
    var rest := db.users.Keys;
    ghost var done: set<string> := {};
    var active, withFree, total := 0, 0, 0;
    while rest != {}
      invariant rest !! done && rest + done == db.users.Keys
      invariant active == CountActive(db.users, done)
      invariant withFree == CountWithFree(db.users, done)
      invariant total == SumUsed(db.users, done)
    {
      var p :| p in rest;
      var u := db.users[p];
      CountActiveAdd(db.users, done, p);
      CountWithFreeAdd(db.users, done, p);
      SumUsedAdd(db.users, done, p);
      if u.active {
        active := active + 1;
      }
      if u.freeSummariesRemaining > 0 {
        withFree := withFree + 1;
      }
      total := total + u.totalSummariesUsed;
      rest := rest - {p};
      done := done + {p};
    }
    assert done == db.users.Keys;
    s := Stats(|db.users|, active, withFree, total);
  }

  /** The documents, keyed by phone number. */
  class UserStore {
    var users: map<string, User>
    ghost var Repr: set<object>

    ghost predicate Valid()
      reads this, Repr
    {
      this in Repr && users.Values <= Repr &&
      forall p :: p in users ==> users[p].phoneNumber == p && users[p].Valid()
    }

    function Snapshot(): Db
      reads this, users.Values
    {
      Db(map p | p in users :: users[p].State())
    }

    constructor ()
      ensures Valid() && fresh(Repr) && Snapshot() == Db(map[])
    {
      users := map[];
      Repr := {this};
    }

    method GetOrCreateUser(phone: string) returns (r: Result<UserState, Error>)
      requires Valid()
      modifies Repr
      ensures Valid() && fresh(Repr - old(Repr))
      ensures Step(r, Snapshot()) == old(Snapshot()).GetOrCreateUser(phone)
    {
      if phone in users {
        r := Touch(phone);
      } else if phone == "" {
        r := Failure(ValidationFailed);
      } else {
        r := Create(phone);
      }
    }

    /** The known-user branch of `getOrCreateUser`. */
    method Touch(phone: string) returns (r: Result<UserState, Error>)
      requires Valid() && phone in users
      modifies Repr
      ensures Valid() && Repr == old(Repr)
      ensures Step(r, Snapshot()) == old(Snapshot()).GetOrCreateUser(phone)
    {
      var u := users[phone];
      u.UpdateLastInteraction();
      r := Success(u.State());
      assert Snapshot().users == old(Snapshot()).users[phone := u.State()];
    }

    /** The new-user branch of `getOrCreateUser`. */
    method Create(phone: string) returns (r: Result<UserState, Error>)
      requires Valid() && phone !in users && phone != ""
      modifies this
      ensures Valid() && fresh(Repr - old(Repr))
      ensures Step(r, Snapshot()) == old(Snapshot()).GetOrCreateUser(phone)
    {
      var u := new User(phone);
      users := users[phone := u];
      Repr := Repr + {u};
      r := Success(u.State());
      assert Snapshot().users == old(Snapshot()).users[phone := u.State()];
    }

    method CheckSummaryAvailability(phone: string) returns (r: Result<Availability, Error>)
      requires Valid()
      ensures r == Snapshot().CheckSummaryAvailability(phone)
    {
      if phone !in users {
        return Failure(UserNotFound);
      }
      var u := users[phone];
      r := Success(Availability(u.HasFreeSummaries(), u.freeSummariesRemaining, u.totalSummariesUsed));
    }

    method UseSummary(phone: string) returns (r: Result<Usage, Error>)
      requires Valid()
      modifies Repr
      ensures Valid() && Repr == old(Repr)
      ensures Step(r, Snapshot()) == old(Snapshot()).UseSummary(phone)
    {
      if phone !in users {
        return Failure(UserNotFound);
      }
      var u := users[phone];
      var used := u.UseFreeSummary();
      if used.Fail? {
        return Failure(used.error);
      }
      r := Success(Usage(u.freeSummariesRemaining, u.totalSummariesUsed));
      assert Snapshot().users == old(Snapshot()).users[phone := u.State()];
    }

    method AddBonusSummaries(phone: string, count: int) returns (r: Result<int, Error>)
      requires Valid()
      modifies Repr
      ensures Valid() && Repr == old(Repr)
      ensures Step(r, Snapshot()) == old(Snapshot()).AddBonusSummaries(phone, count)
    {
      if phone !in users {
        return Failure(UserNotFound);
      }
      var u := users[phone];
      var added := u.AddFreeSummaries(count);
      if added.Fail? {
        return Failure(added.error);
      }
      r := Success(u.freeSummariesRemaining);
      assert Snapshot().users == old(Snapshot()).users[phone := u.State()];
    }

    method SetSummaryDetailLevel(phone: string, level: string) returns (r: Result<LevelSet, Error>)
      requires Valid()
      modifies Repr
      ensures Valid() && Repr == old(Repr)
      ensures Step(r, Snapshot()) == old(Snapshot()).SetSummaryDetailLevel(phone, level)
    {
      var parsed := ParseLevel(level);
      if parsed.None? {
        return Failure(InvalidDetailLevel);
      }
      if phone !in users {
        return Failure(UserNotFound);
      }
      var u := users[phone];
      u.summaryDetailLevel := parsed.value;
      r := Success(LevelSet(parsed.value, "Summary detail level set to: " + level));
      assert Snapshot().users == old(Snapshot()).users[phone := u.State()];
    }

    method GetUserPreferences(phone: string) returns (r: Result<DetailLevel, Error>)
      requires Valid()
      ensures r == Snapshot().GetUserPreferences(phone)
    {
      if phone !in users {
        return Failure(UserNotFound);
      }
      r := Success(users[phone].summaryDetailLevel);
    }

    /** `user.setSubscription(id, status)` on the stored document of `phone`. */
    method SetSubscription(phone: string, id: Option<string>, status: string)
      requires Valid()
      modifies Repr
      ensures Valid() && Repr == old(Repr)
      ensures Snapshot() == old(Snapshot()).ReplaceSubscription(phone, Some(Subscription(id, status)))
    {
      if phone in users {
        var u := users[phone];
        u.SetSubscription(id, status);
        assert Snapshot().users == old(Snapshot()).users[phone := u.State()];
      }
    }

    /** The effect of an undefined subscription operation on `phone`'s record. */
    method ReplaceSubscription(phone: string, record: Option<Subscription>)
      requires Valid()
      modifies Repr
      ensures Valid() && Repr == old(Repr)
      ensures Snapshot() == old(Snapshot()).ReplaceSubscription(phone, record)
    {
      if phone in users {
        var u := users[phone];
        u.subscription := record;
        assert Snapshot().users == old(Snapshot()).users[phone := u.State()];
      }
    }

    /** `findBySubscriptionId` (not defined in the modelled files): some user
        whose subscription carries `id`, or none when no user does. */
    method FindBySubscriptionId(id: string) returns (r: Option<string>)
      requires Valid()
      ensures r.Some? ==> Snapshot().HasSubscriptionId(r.value, id)
      ensures r.None? ==> forall p :: !Snapshot().HasSubscriptionId(p, id)
    {
      if p :| p in users && users[p].subscription.Some? && users[p].subscription.value.paypalSubscriptionId == Some(id) {
        r := Some(p);
      } else {
        r := None;
      }
    }

    method GetUserStats() returns (s: Stats)
      requires Valid()
      ensures s == Snapshot().UserStats()
    {
      s := Tally(Snapshot());
    }
  }
}
