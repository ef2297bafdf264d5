/**
 The retention report: total, engaged and not-engaged users, and for a day
 offset n the users who came back exactly n days after signing up, split
 by whether they are engaged. The report computes it for n = 1 and n = 7.
 */
module Retention {

  import opened EventLog

  /** The two offsets the report prints. */
  const DayOne: int := 1
  const DaySeven: int := 7

  datatype BasicCounts = BasicCounts(total: int, engaged: int, notEngaged: int)

  datatype Cohort = Cohort(returners: int, engagedReturners: int, notEngagedReturners: int)

  /** The three percentages printed for one cohort. */
  datatype CohortRates = CohortRates(returnRate: real, engagedRate: real, notEngagedRate: real)

  datatype RetentionReport = RetentionReport(basic: BasicCounts, day1: Cohort, day1Rates: CohortRates,
                                             day7: Cohort, day7Rates: CohortRates)

  /**
   `COUNT(*) FROM users`, `COUNT(DISTINCT user_id)` of the engaged events,
   and their difference.
   */
  function GetBasicCounts(log: Log): (r: BasicCounts)
    ensures r.total == |log.users| && r.engaged == |EngagedUsers(log)|
    ensures r.engaged + r.notEngaged == r.total
    ensures EventsReferenceUsers(log) ==> 0 <= r.engaged <= r.total && r.notEngaged >= 0
    ensures WellFormed(log) ==> r.notEngaged == |UserIds(log) - EngagedUsers(log)|
  {
    var total, engaged := |log.users|, |EngagedUsers(log)|;
    EngagedWithinUsers(log);
    BasicCounts(total, engaged, total - engaged)
  }

  lemma EngagedWithinUsers(log: Log)
    ensures EventsReferenceUsers(log) ==> |EngagedUsers(log)| <= |log.users|
    ensures WellFormed(log) ==> |log.users| - |EngagedUsers(log)| == |UserIds(log) - EngagedUsers(log)|
  {
    IdSetCard(log.users);
    if EventsReferenceUsers(log) {
      TypeUsersRegistered(log, "like");
      SubsetCard(EngagedUsers(log), UserIds(log));
    }
  }

  /**
   The `user_return_dayN` subquery: users joined with their events, kept when
   the event's date is the signup date plus `n` days, grouped by user.
   */
  function Returners(log: Log, n: int): (r: set<UserId>)
    ensures r <= UserIds(log)
  {
    set u, e | u in log.users && e in log.events && e.userId == u.id && e.day == u.signupDay + n :: u.id
  }

  /**
   Exact-date membership: a registered user is a day-n returner exactly when
   one of their events falls on their signup day plus n, not on any other day.
   */
  lemma ReturnerIffExactDate(log: Log, n: int, u: User)
    requires UniqueIds(log.users) && u in log.users
    ensures u.id in Returners(log, n) <==>
            exists i :: 0 <= i < |log.events| && log.events[i].userId == u.id && log.events[i].day == u.signupDay + n
  {
    if u.id in Returners(log, n) {
      var v, e :| v in log.users && e in log.events && e.userId == v.id && e.day == v.signupDay + n && v.id == u.id;
      SameIdSameUser(log.users, u, v);
      var i :| 0 <= i < |log.events| && log.events[i] == e;
    }
    if exists i :: 0 <= i < |log.events| && log.events[i].userId == u.id && log.events[i].day == u.signupDay + n {
      var i :| 0 <= i < |log.events| && log.events[i].userId == u.id && log.events[i].day == u.signupDay + n;
      var e := log.events[i];
      assert e in log.events;
    }
  }

  /** Returners are counted once: a further event of a returner, qualifying or not, changes nothing. */
  lemma ReturnerCountedOnce(log: Log, n: int, e: Event)
    requires e.userId in Returners(log, n)
    ensures Returners(Log(log.users, log.events + [e]), n) == Returners(log, n)
  {
  }

  /**
   The three cohort counts: all returners, those in the engaged set (`IN`)
   and those outside it (`NOT IN`).
   */
  function RetentionAtOffset(log: Log, n: int): (r: Cohort)
    ensures r.returners == |Returners(log, n)|
    ensures r.engagedReturners == |Returners(log, n) * EngagedUsers(log)|
    ensures r.engagedReturners + r.notEngagedReturners == r.returners
    ensures 0 <= r.engagedReturners && 0 <= r.notEngagedReturners
    ensures r.returners <= |log.users|
    ensures r.engagedReturners <= |EngagedUsers(log)|
    ensures EventsReferenceUsers(log) ==> r.notEngagedReturners <= GetBasicCounts(log).notEngaged
    ensures log.users == [] ==> r == Cohort(0, 0, 0)
  {
    var returned, engaged := Returners(log, n), EngagedUsers(log);
    CohortBounds(log, n);
    Cohort(|returned|, |returned * engaged|, |returned - engaged|)
  }

  lemma CohortBounds(log: Log, n: int)
    ensures |Returners(log, n) * EngagedUsers(log)| + |Returners(log, n) - EngagedUsers(log)| == |Returners(log, n)|
    ensures |Returners(log, n)| <= |log.users|
    ensures |Returners(log, n) * EngagedUsers(log)| <= |EngagedUsers(log)|
    ensures EventsReferenceUsers(log) ==>
              |Returners(log, n) - EngagedUsers(log)| <= |log.users| - |EngagedUsers(log)|
    ensures log.users == [] ==> Returners(log, n) == {}
  {
    var returned, engaged := Returners(log, n), EngagedUsers(log);
    assert returned == (returned * engaged) + (returned - engaged);
    IdSetCard(log.users);
    SubsetCard(returned, UserIds(log));
    SubsetCard(returned * engaged, engaged);
    if EventsReferenceUsers(log) {
      TypeUsersRegistered(log, "like");
      SubsetCard(returned - engaged, UserIds(log) - engaged);
      assert UserIds(log) == engaged + (UserIds(log) - engaged);
    }
  }

  /** The engaged and not-engaged returners split the returners into two disjoint parts. */
  lemma CohortPartition(log: Log, n: int)
    ensures var returned, engaged := Returners(log, n), EngagedUsers(log);
            (returned * engaged) !! (returned - engaged) && (returned * engaged) + (returned - engaged) == returned
  {
  }

  /** The printed percentages for one cohort, each with the safe rate. */
  function CohortRatesOf(basic: BasicCounts, c: Cohort): (r: CohortRates)
    ensures basic.total == 0 ==> r.returnRate == 0.0
    ensures basic.engaged == 0 ==> r.engagedRate == 0.0
    ensures basic.notEngaged == 0 ==> r.notEngagedRate == 0.0
    ensures 0 <= c.returners <= basic.total ==> 0.0 <= r.returnRate <= 100.0
    ensures 0 <= c.engagedReturners <= basic.engaged ==> 0.0 <= r.engagedRate <= 100.0
    ensures 0 <= c.notEngagedReturners <= basic.notEngaged ==> 0.0 <= r.notEngagedRate <= 100.0
  {
    CohortRates(SafeRate(c.returners, basic.total),
                SafeRate(c.engagedReturners, basic.engaged),
                SafeRate(c.notEngagedReturners, basic.notEngaged))
  }

  /** The whole report: basic counts, and the day-1 and day-7 cohorts with their rates. */
  function RetentionMain(log: Log): (r: RetentionReport)
    ensures r.basic.total == |log.users| && r.basic.engaged == |EngagedUsers(log)|
    ensures r.day1.returners == |Returners(log, DayOne)| && r.day7.returners == |Returners(log, DaySeven)|
    ensures r.day1.engagedReturners == |Returners(log, DayOne) * EngagedUsers(log)|
    ensures r.day7.engagedReturners == |Returners(log, DaySeven) * EngagedUsers(log)|
    ensures r.day1Rates.returnRate == SafeRate(r.day1.returners, r.basic.total)
    ensures r.day7Rates.returnRate == SafeRate(r.day7.returners, r.basic.total)
    ensures r.day1Rates.engagedRate == SafeRate(r.day1.engagedReturners, r.basic.engaged)
    ensures r.day7Rates.engagedRate == SafeRate(r.day7.engagedReturners, r.basic.engaged)
    ensures r.day1Rates.notEngagedRate == SafeRate(r.day1.notEngagedReturners, r.basic.notEngaged)
    ensures r.day7Rates.notEngagedRate == SafeRate(r.day7.notEngagedReturners, r.basic.notEngaged)
  {
    var basic := GetBasicCounts(log);
    var day1, day7 := RetentionAtOffset(log, DayOne), RetentionAtOffset(log, DaySeven);
    RetentionReport(basic, day1, CohortRatesOf(basic, day1), day7, CohortRatesOf(basic, day7))
  }

  /** Under the foreign key every printed rate is a percentage in [0, 100]. */
  lemma RatesInRange(log: Log, n: int)
    requires EventsReferenceUsers(log)
    ensures var r := CohortRatesOf(GetBasicCounts(log), RetentionAtOffset(log, n));
            && 0.0 <= r.returnRate <= 100.0
            && 0.0 <= r.engagedRate <= 100.0
            && 0.0 <= r.notEngagedRate <= 100.0
  {
  }

  /**
   Under the foreign key the whole report is consistent: each cohort splits
   into its engaged and not-engaged returners, no cohort exceeds the total
   users, and all six printed rates are percentages in [0, 100].
   */
  lemma ReportConsistent(log: Log)
    requires EventsReferenceUsers(log)
    ensures var r := RetentionMain(log);
            && r.day1.engagedReturners + r.day1.notEngagedReturners == r.day1.returners <= r.basic.total
            && r.day7.engagedReturners + r.day7.notEngagedReturners == r.day7.returners <= r.basic.total
            && 0.0 <= r.day1Rates.returnRate <= 100.0 && 0.0 <= r.day7Rates.returnRate <= 100.0
            && 0.0 <= r.day1Rates.engagedRate <= 100.0 && 0.0 <= r.day7Rates.engagedRate <= 100.0
            && 0.0 <= r.day1Rates.notEngagedRate <= 100.0 && 0.0 <= r.day7Rates.notEngagedRate <= 100.0
  {
    RatesInRange(log, DayOne);
    RatesInRange(log, DaySeven);
  }

  /** With no users every cohort is (0, 0, 0) and every rate is 0, with no division by zero. */
  lemma NoUsersNoRetention(log: Log)
    requires log.users == []
    ensures var r := RetentionMain(log);
            && r.day1 == Cohort(0, 0, 0) && r.day7 == Cohort(0, 0, 0)
            && r.day1Rates == CohortRates(0.0, 0.0, 0.0) && r.day7Rates == CohortRates(0.0, 0.0, 0.0)
  {
  }

  /** An event two days after signup makes a user a day-2 returner, not a day-1 returner. */
  lemma DayTwoIsNotDayOne()
    ensures var log := Log([User(1, 10, "organic")], [Event(1, 12, "view")]);
            1 !in Returners(log, DayOne) && 1 in Returners(log, 2)
  {
    var log := Log([User(1, 10, "organic")], [Event(1, 12, "view")]);
    ReturnerIffExactDate(log, DayOne, log.users[0]);
    ReturnerIffExactDate(log, 2, log.users[0]);
  }
}
