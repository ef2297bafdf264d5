/**
 The two relations every report reads, `users` and `events`, and the derived
 user sets the reports share: users having an event of a given type, the
 engaged users, and the safe percentage used wherever a rate is printed.
 */
module EventLog {

  type UserId = int

  /** A row of `users`: id, signup date as a day number, acquisition channel. */
  datatype User = User(id: UserId, signupDay: int, channel: string)

  /** A row of `events`: owning user, `date(event_time)` as a day number, type tag. */
  datatype Event = Event(userId: UserId, day: int, etype: string)

  /** A snapshot of the two relations. */
  datatype Log = Log(users: seq<User>, events: seq<Event>)

  /** The event types that make a user "engaged". */
  const EngagementEvents: set<string> := {"like", "comment", "share"}

  /** `user_id` is UNIQUE in `users`. */
  predicate UniqueIds(users: seq<User>)
  {
    forall i, j :: 0 <= i < j < |users| ==> users[i].id != users[j].id
  }

  function IdSet(users: seq<User>): set<UserId>
  {
    set u | u in users :: u.id
  }

  /** The distinct user ids of `users`. */
  function UserIds(log: Log): set<UserId>
  {
    IdSet(log.users)
  }

  /** `events.user_id REFERENCES users`. */
  predicate EventsReferenceUsers(log: Log)
  {
    forall e :: e in log.events ==> e.userId in UserIds(log)
  }

  /** The schema's two constraints together. */
  predicate WellFormed(log: Log)
  {
    UniqueIds(log.users) && EventsReferenceUsers(log)
  }

  /** Distinct users with at least one event of type `t`. */
  function TypeUsers(log: Log, t: string): set<UserId>
  {
    set e | e in log.events && e.etype == t :: e.userId
  }

  /** Distinct users with at least one like, comment or share event. */
  function EngagedUsers(log: Log): set<UserId>
  {
    set e | e in log.events && e.etype in EngagementEvents :: e.userId
  }

  /**
   The safe percentage `part / whole * 100 if whole else 0`: undefined
   division is replaced by a rate of zero.
   */
  function SafeRate(part: int, whole: int): (r: real)
    ensures whole == 0 || part == 0 ==> r == 0.0
    ensures whole != 0 ==> r * whole as real == part as real * 100.0
    ensures 0 <= part <= whole ==> 0.0 <= r <= 100.0
  {
    if whole != 0 then part as real / whole as real * 100.0 else 0.0
  }

  /** A user belongs to TypeUsers exactly when some event of theirs has that type. */
  lemma TypeUsersMembership(log: Log, t: string, u: UserId)
    ensures u in TypeUsers(log, t) <==>
            exists i :: 0 <= i < |log.events| && log.events[i].userId == u && log.events[i].etype == t
  {
    if u in TypeUsers(log, t) {
      var e :| e in log.events && e.etype == t && e.userId == u;
      var i :| 0 <= i < |log.events| && log.events[i] == e;
    }
  }

  /** A user belongs to EngagedUsers exactly when one of their events is a like, comment or share. */
  lemma EngagedMembership(log: Log, u: UserId)
    ensures u in EngagedUsers(log) <==>
            u in TypeUsers(log, "like") || u in TypeUsers(log, "comment") || u in TypeUsers(log, "share")
  {
  }

  /** Under the foreign key every derived user set lies inside the registered users. */
  lemma TypeUsersRegistered(log: Log, t: string)
    requires EventsReferenceUsers(log)
    ensures TypeUsers(log, t) <= UserIds(log)
    ensures EngagedUsers(log) <= UserIds(log)
  {
  }

  lemma SubsetCard<T>(a: set<T>, b: set<T>)
    requires a <= b
    ensures |a| <= |b|
  {
    assert b == a + (b - a);
  }

  /** Counting distinct ids never exceeds counting rows, and equals it when ids are unique. */
  lemma {:induction false} IdSetCard(users: seq<User>)
    ensures |IdSet(users)| <= |users|
    ensures UniqueIds(users) ==> |IdSet(users)| == |users|
  {
    if users != [] {
      var init, last := users[..|users| - 1], users[|users| - 1];
      IdSetCard(init);
      IdSetSnoc(users);
    }
  }

  lemma IdSetSnoc(users: seq<User>)
    requires users != []
    ensures var init, last := users[..|users| - 1], users[|users| - 1];
            && IdSet(users) == IdSet(init) + {last.id}
            && (UniqueIds(users) ==> UniqueIds(init) && last.id !in IdSet(init))
  {
    var init, last := users[..|users| - 1], users[|users| - 1];
    assert users == init + [last];
    if UniqueIds(users) {
      forall u | u in init
        ensures u.id != last.id
      {
        var k :| 0 <= k < |init| && init[k] == u;
        assert users[k] == u;
      }
    }
  }

  /** Two rows of `users` with the same id are the same row when ids are unique. */
  lemma SameIdSameUser(users: seq<User>, u: User, v: User)
    requires UniqueIds(users) && u in users && v in users && u.id == v.id
    ensures u == v
  {
    var i :| 0 <= i < |users| && users[i] == u;
    var j :| 0 <= j < |users| && users[j] == v;
    assert !(i < j) && !(j < i);
  }

  /**
   Three users signed up on day 0: user 1 views, likes and shares without
   commenting, user 2 has no events, user 3 does all four.
   */
  const ScenarioLog: Log :=
    Log([User(1, 0, "organic"), User(2, 0, "ads"), User(3, 0, "influencer")],
        [Event(1, 0, "view"), Event(1, 0, "like"), Event(1, 1, "share"),
         Event(3, 0, "view"), Event(3, 0, "like"), Event(3, 0, "comment"), Event(3, 0, "share")])
}
