/**
 The data behind the funnel chart: the same five gated queries as the funnel
 report, returned as a list of step labels and a parallel list of counts,
 and the label/count pairs the chart's text output lists.
 */
module FunnelVisualization {

  import opened EventLog
  import FunnelAnalysis

  /** The chart's step labels, in funnel order. */
  const StepLabels: seq<string> := ["Signup", "View", "Like", "Comment", "Share"]

  /**
   The two parallel lists the chart is drawn from: the labels, and the five
   gated distinct-user counts, Like never above View.
   */
  function SequentialFunnelCounts(log: Log): (r: (seq<string>, seq<int>))
    ensures r.0 == StepLabels && |r.1| == |StepLabels|
    ensures r.1[0] == |UserIds(log)|
    ensures r.1[1] == |TypeUsers(log, "view")|
    ensures r.1[2] == |TypeUsers(log, "like") * TypeUsers(log, "view")| && r.1[2] <= r.1[1]
    ensures r.1[3] == |TypeUsers(log, "comment") * TypeUsers(log, "like")|
    ensures r.1[4] == |TypeUsers(log, "share") * TypeUsers(log, "comment")|
  {
    var signup := |UserIds(log)|;
    var view := |TypeUsers(log, "view")|;
    var like := |FunnelAnalysis.GatedUsers(log, "like", "view")|;
    var comment := |FunnelAnalysis.GatedUsers(log, "comment", "like")|;
    var share := |FunnelAnalysis.GatedUsers(log, "share", "comment")|;
    SubsetCard(TypeUsers(log, "like") * TypeUsers(log, "view"), TypeUsers(log, "view"));
    (StepLabels, [signup, view, like, comment, share])
  }

  /** The chart shows exactly the funnel report's counts, step for step. */
  lemma ChartMatchesReport(log: Log)
    ensures var counts := SequentialFunnelCounts(log).1;
            var report := FunnelAnalysis.RunFunnelAnalysis(log);
            |counts| == |report| && forall i :: 0 <= i < |counts| ==> counts[i] == report[i].count
  {
    var counts := SequentialFunnelCounts(log).1;
    var report := FunnelAnalysis.RunFunnelAnalysis(log);
    assert counts[0] == report[0].count && counts[1] == report[1].count && counts[2] == report[2].count;
    assert counts[3] == report[3].count && counts[4] == report[4].count;
  }

  /** `zip(steps, counts)`: the i-th printed pair is the i-th label with the i-th count. */
  function PrintedPairs(steps: seq<string>, counts: seq<int>): (r: seq<(string, int)>)
    ensures |r| == if |steps| <= |counts| then |steps| else |counts|
    ensures forall i :: 0 <= i < |r| ==> r[i] == (steps[i], counts[i])
  {
    if steps == [] || counts == [] then [] else [(steps[0], counts[0])] + PrintedPairs(steps[1..], counts[1..])
  }

  /** The printed output pairs each label with the funnel report's count at the same step. */
  lemma PrintedPairsMatchReport(log: Log)
    ensures var (steps, counts) := SequentialFunnelCounts(log);
            var pairs := PrintedPairs(steps, counts);
            var report := FunnelAnalysis.RunFunnelAnalysis(log);
            |pairs| == |report| &&
            forall i :: 0 <= i < |pairs| ==> pairs[i].0 == StepLabels[i] && pairs[i].1 == report[i].count
  {
    ChartMatchesReport(log);
  }
}
