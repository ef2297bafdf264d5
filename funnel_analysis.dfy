/**
 The funnel report: five distinct-user counts, one per step
 (signup, view, like, comment, share), and the step-to-step conversion
 percentages printed beside them.

 Each step after View is gated on the raw event type of the step before it,
 not on that step's gated set; see the disagreement noted in TransitiveFunnel.
 */
module FunnelAnalysis {

  import opened EventLog

  datatype Option<T> = None | Some(value: T)

  /** One entry of the result dictionary, in insertion order. */
  datatype StepCount = StepCount(step: string, count: int)

  /** One printed line: the step, its count and the conversion from the previous step. */
  datatype StepConversion = StepConversion(step: string, count: int, conversion: Option<real>)

  /** The result dictionary's keys, in order. */
  const FunnelKeys: seq<string> := ["signup", "view", "like", "comment", "share"]

  /**
   `COUNT(DISTINCT e.user_id) FROM events e WHERE e.event_type = t AND
   e.user_id IN (SELECT DISTINCT user_id FROM events WHERE event_type = prev)`,
   as the set being counted. The `IN` subquery is an intersection.
   */
  function GatedUsers(log: Log, t: string, prev: string): (r: set<UserId>)
    ensures r == TypeUsers(log, t) * TypeUsers(log, prev)
  {
    set e | e in log.events && e.etype == t && e.userId in TypeUsers(log, prev) :: e.userId
  }

  /** The five queries of the funnel, collected into the ordered result. */
  function RunFunnelAnalysis(log: Log): (r: seq<StepCount>)
    ensures |r| == |FunnelKeys|
    ensures forall i :: 0 <= i < |r| ==> r[i].step == FunnelKeys[i] && r[i].count >= 0
    ensures r[0].count == |UserIds(log)|
    ensures r[1].count == |TypeUsers(log, "view")|
    ensures r[2].count == |TypeUsers(log, "like") * TypeUsers(log, "view")|
    ensures r[3].count == |TypeUsers(log, "comment") * TypeUsers(log, "like")|
    ensures r[4].count == |TypeUsers(log, "share") * TypeUsers(log, "comment")|
    ensures r[2].count <= r[1].count
    ensures r[3].count <= |TypeUsers(log, "like")|
    ensures r[4].count <= |TypeUsers(log, "comment")|
    ensures EventsReferenceUsers(log) ==> r[1].count <= r[0].count
  {
    var view, like, comment := TypeUsers(log, "view"), TypeUsers(log, "like"), TypeUsers(log, "comment");
    SubsetCard(like * view, view);
    SubsetCard(GatedUsers(log, "comment", "like"), like);
    SubsetCard(GatedUsers(log, "share", "comment"), comment);
    ViewWithinSignup(log);
    [ StepCount("signup", |UserIds(log)|),
      StepCount("view", |view|),
      StepCount("like", |GatedUsers(log, "like", "view")|),
      StepCount("comment", |GatedUsers(log, "comment", "like")|),
      StepCount("share", |GatedUsers(log, "share", "comment")|) ]
  }

  lemma ViewWithinSignup(log: Log)
    ensures EventsReferenceUsers(log) ==> |TypeUsers(log, "view")| <= |UserIds(log)|
  {
    if EventsReferenceUsers(log) {
      TypeUsersRegistered(log, "view");
      SubsetCard(TypeUsers(log, "view"), UserIds(log));
    }
  }

  /**
   The printing loop's data: every step with its count, and for every step
   after the first the percentage of the previous step's count, zero when
   that count is zero.
   */
  function ConversionRates(results: seq<StepCount>): (r: seq<StepConversion>)
    ensures |r| == |results|
    ensures forall i :: 0 <= i < |r| ==> r[i].step == results[i].step && r[i].count == results[i].count
    ensures |r| > 0 ==> r[0].conversion == None
    ensures forall i :: 0 < i < |r| ==> r[i].conversion == Some(SafeRate(results[i].count, results[i - 1].count))
  {
    seq(|results|, i requires 0 <= i < |results| =>
      StepConversion(results[i].step, results[i].count,
                     if i == 0 then None else Some(SafeRate(results[i].count, results[i - 1].count))))
  }

  /** A user counted at Share has a comment event; one with a share but no comment is never counted. */
  lemma ShareNeedsComment(log: Log, u: UserId)
    requires u in GatedUsers(log, "share", "comment")
    ensures u in TypeUsers(log, "comment") && u in TypeUsers(log, "share")
  {
  }

  /** Signup depends on `users` only: replacing the events leaves it unchanged. */
  lemma SignupIgnoresEvents(log: Log, events: seq<Event>)
    ensures RunFunnelAnalysis(log)[0].count == RunFunnelAnalysis(Log(log.users, events))[0].count
    ensures RunFunnelAnalysis(log)[0].count <= |log.users|
    ensures UniqueIds(log.users) ==> RunFunnelAnalysis(log)[0].count == |log.users|
  {
    IdSetCard(log.users);
  }

  /** A user is counted once at View however many view events they have. */
  lemma ViewCountedOnce(log: Log, e: Event)
    requires e.etype == "view" && e.userId in TypeUsers(log, "view")
    ensures RunFunnelAnalysis(Log(log.users, log.events + [e]))[1].count == RunFunnelAnalysis(log)[1].count
  {
    var log' := Log(log.users, log.events + [e]);
    assert TypeUsers(log', "view") == TypeUsers(log, "view");
  }

  /** Since Like never exceeds View, the Like conversion is a percentage in [0, 100]. */
  lemma LikeConversionInRange(log: Log)
    ensures var c := ConversionRates(RunFunnelAnalysis(log));
            c[2].conversion.Some? && 0.0 <= c[2].conversion.value <= 100.0
  {
  }

  /** With no users (and hence, by the foreign key, no events) every count and every conversion is zero. */
  lemma NoUsersAllZero(log: Log)
    requires EventsReferenceUsers(log) && log.users == []
    ensures var r := RunFunnelAnalysis(log);
            forall i :: 0 <= i < |r| ==> r[i].count == 0
    ensures var c := ConversionRates(RunFunnelAnalysis(log));
            forall i :: 0 < i < |c| ==> c[i].conversion == Some(0.0)
  {
    assert UserIds(log) == {};
    TypeUsersRegistered(log, "view");
    TypeUsersRegistered(log, "like");
    TypeUsersRegistered(log, "comment");
    TypeUsersRegistered(log, "share");
  }

  lemma ScenarioUsers()
    ensures UserIds(ScenarioLog) == {1, 2, 3}
  {
  }

  lemma ScenarioViewsAndLikes()
    ensures TypeUsers(ScenarioLog, "view") == {1, 3} && TypeUsers(ScenarioLog, "like") == {1, 3}
  {
  }

  lemma ScenarioCommentsAndShares()
    ensures TypeUsers(ScenarioLog, "comment") == {3} && TypeUsers(ScenarioLog, "share") == {1, 3}
  {
  }

  /** The counts follow from the per-type user sets alone. */
  lemma CountsFromSets(log: Log)
    requires UserIds(log) == {1, 2, 3}
    requires TypeUsers(log, "view") == {1, 3} && TypeUsers(log, "like") == {1, 3}
    requires TypeUsers(log, "comment") == {3} && TypeUsers(log, "share") == {1, 3}
    ensures var r := RunFunnelAnalysis(log);
            r[0].count == 3 && r[1].count == 2 && r[2].count == 2 && r[3].count == 1 && r[4].count == 1
  {
    assert TypeUsers(log, "like") * TypeUsers(log, "view") == {1, 3};
    assert TypeUsers(log, "comment") * TypeUsers(log, "like") == {3};
    assert TypeUsers(log, "share") * TypeUsers(log, "comment") == {3};
  }

  /**
   On the scenario: Signup 3, View 2, Like 2, Comment 1, Share 1. User 1
   stops at Comment and, lacking a comment, is not counted at Share.
   */
  lemma ThreeUserScenario()
    ensures var r := RunFunnelAnalysis(ScenarioLog);
            r[0].count == 3 && r[1].count == 2 && r[2].count == 2 && r[3].count == 1 && r[4].count == 1
  {
    ScenarioUsers();
    ScenarioViewsAndLikes();
    ScenarioCommentsAndShares();
    CountsFromSets(ScenarioLog);
  }
}
