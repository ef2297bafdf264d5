/**
 The funnel as its comments describe it ("each step requires the previous
 step"): a user reaches a step when they reached the step before and have
 an event of this step's type. Written as a fold over the ordered step
 types, so the reached sets shrink from step to step.

 The shipped queries gate Comment on a raw like event and Share on a raw
 comment event instead; under the foreign key the two definitions agree on
 Signup, View and Like (AgreesUpToLike), and they can differ from Comment
 on, as UngatedCounterexample shows.
 */
module TransitiveFunnel {

  import opened EventLog
  import FunnelAnalysis

  /** The event type that each step after Signup requires, in funnel order. */
  const StepTypes: seq<string> := ["view", "like", "comment", "share"]

  /**
   The users who reached step `i` (0 is Signup): every registered user for
   Signup, and after that the users with an event of the step's type among
   those who reached the previous step.
   */
  function Reached(log: Log, i: nat): (r: set<UserId>)
    requires i <= |StepTypes|
    ensures r <= UserIds(log)
    ensures forall u :: u in r <==>
              u in UserIds(log) && forall j :: 0 <= j < i ==> u in TypeUsers(log, StepTypes[j])
  {
    if i == 0 then UserIds(log) else TypeUsers(log, StepTypes[i - 1]) * Reached(log, i - 1)
  }

  /** The five reached counts. */
  function Counts(log: Log): (r: seq<int>)
    ensures |r| == |StepTypes| + 1
    ensures forall i :: 0 <= i < |r| ==> r[i] == |Reached(log, i)|
  {
    seq(|StepTypes| + 1, i requires 0 <= i < |StepTypes| + 1 => |Reached(log, i)|)
  }

  /** The counts as an ordered result with the same keys as the shipped report. */
  function Steps(log: Log): (r: seq<FunnelAnalysis.StepCount>)
    ensures |r| == |FunnelAnalysis.FunnelKeys|
    ensures forall i :: 0 <= i < |r| ==> r[i].step == FunnelAnalysis.FunnelKeys[i] && r[i].count == Counts(log)[i]
  {
    var counts := Counts(log);
    seq(|counts|, i requires 0 <= i < |counts| => FunnelAnalysis.StepCount(FunnelAnalysis.FunnelKeys[i], counts[i]))
  }

  /** Reaching a later step implies having reached every earlier one. */
  lemma ReachedNested(log: Log, i: nat, j: nat)
    requires i <= j <= |StepTypes|
    ensures Reached(log, j) <= Reached(log, i)
  {
    forall u | u in Reached(log, j)
      ensures u in Reached(log, i)
    {
      assert forall k :: 0 <= k < i ==> u in TypeUsers(log, StepTypes[k]);
    }
  }

  /** The corrected funnel never grows: every later count is at most every earlier one. */
  lemma CountsNonIncreasing(log: Log)
    ensures forall i, j :: 0 <= i <= j < |Counts(log)| ==> Counts(log)[j] <= Counts(log)[i]
  {
    forall i, j | 0 <= i <= j < |Counts(log)|
      ensures Counts(log)[j] <= Counts(log)[i]
    {
      ReachedNested(log, i, j);
      SubsetCard(Reached(log, j), Reached(log, i));
    }
  }

  /** Hence every conversion of the corrected funnel is a percentage in [0, 100]. */
  lemma ConversionsInRange(log: Log)
    ensures var c := FunnelAnalysis.ConversionRates(Steps(log));
            forall i :: 0 < i < |c| ==> 0.0 <= c[i].conversion.value <= 100.0
  {
    CountsNonIncreasing(log);
    var s := Steps(log);
    assert forall i :: 0 < i < |s| ==> 0 <= s[i].count <= s[i - 1].count;
  }

  /** Under the foreign key the shipped queries agree with the corrected funnel on Signup, View and Like. */
  lemma AgreesUpToLike(log: Log)
    requires EventsReferenceUsers(log)
    ensures var shipped := FunnelAnalysis.RunFunnelAnalysis(log);
            forall i :: 0 <= i <= 2 ==> shipped[i].count == Counts(log)[i]
  {
    TypeUsersRegistered(log, "view");
    assert Reached(log, 1) == TypeUsers(log, "view");
    assert Reached(log, 2) == TypeUsers(log, "like") * TypeUsers(log, "view");
  }

  /** One registered user with a like, a comment and a share event, and no view. */
  const UngatedLog: Log :=
    Log([User(1, 0, "organic")], [Event(1, 0, "like"), Event(1, 0, "comment"), Event(1, 0, "share")])

  lemma UngatedLogSets()
    ensures UserIds(UngatedLog) == {1}
    ensures TypeUsers(UngatedLog, "view") == {}
    ensures TypeUsers(UngatedLog, "like") == {1}
    ensures TypeUsers(UngatedLog, "comment") == {1}
    ensures TypeUsers(UngatedLog, "share") == {1}
  {
    assert UngatedLog.users[0].id == 1;
    assert UngatedLog.events[0].etype == "like";
    assert UngatedLog.events[1].etype == "comment";
    assert UngatedLog.events[2].etype == "share";
  }

  /** Any log with those user sets: the shipped Comment and Share count the user, the corrected ones do not. */
  lemma UngatedFromSets(log: Log)
    requires TypeUsers(log, "view") == {}
    requires TypeUsers(log, "like") == {1} && TypeUsers(log, "comment") == {1} && TypeUsers(log, "share") == {1}
    ensures var shipped := FunnelAnalysis.RunFunnelAnalysis(log);
            && shipped[2].count == 0 && shipped[3].count == 1 && shipped[4].count == 1
            && Counts(log)[3] == 0 && Counts(log)[4] == 0
  {
    assert Reached(log, 1) == {};
    assert Reached(log, 2) == {};
    assert Reached(log, 3) == {};
    assert Reached(log, 4) == {};
  }

  /**
   One user with like, comment and share events but no view: the shipped
   queries count them at Comment and Share although they are not counted at
   Like, so Comment exceeds Like; the corrected funnel stops them at View.
   */
  lemma UngatedCounterexample()
    ensures var shipped := FunnelAnalysis.RunFunnelAnalysis(UngatedLog);
            && shipped[2].count == 0 && shipped[3].count == 1 && shipped[4].count == 1
            && shipped[3].count > shipped[2].count
            && Counts(UngatedLog)[3] == 0 && Counts(UngatedLog)[4] == 0
  {
    UngatedLogSets();
    UngatedFromSets(UngatedLog);
  }
}
