/**
 The data behind the two acquisition charts: the channel and count columns
 of the grouped users (no ORDER BY here), and the channel and engagement
 rate lists built row by row from the LEFT JOIN query.
 */
module AcquisitionVisualization {

  import opened EventLog
  import opened AcquisitionAnalysis

  function SumInts(xs: seq<int>): int
  {
    if xs == [] then 0 else xs[0] + SumInts(xs[1..])
  }

  function ChannelColumn(rows: seq<ChannelCount>): (r: seq<string>)
    ensures |r| == |rows| && forall i :: 0 <= i < |r| ==> r[i] == rows[i].channel
  {
    seq(|rows|, i requires 0 <= i < |rows| => rows[i].channel)
  }

  function CountColumn(rows: seq<ChannelCount>): (r: seq<int>)
    ensures |r| == |rows| && forall i :: 0 <= i < |r| ==> r[i] == rows[i].count
  {
    seq(|rows|, i requires 0 <= i < |rows| => rows[i].count)
  }

  lemma {:induction false} CountColumnSum(rows: seq<ChannelCount>)
    ensures SumInts(CountColumn(rows)) == SumCounts(rows)
  {
    if rows != [] {
      CountColumnSum(rows[1..]);
      assert CountColumn(rows)[1..] == CountColumn(rows[1..]);
    }
  }

  /**
   The bar chart's two parallel columns: one entry per grouped row, in row
   order, the counts adding up to the number of users.
   */
  function UsersByChannel(log: Log): (r: (seq<string>, seq<int>))
    ensures var rows := GroupByChannel(log.users);
            && |r.0| == |rows| && |r.1| == |rows|
            && forall i :: 0 <= i < |rows| ==> r.0[i] == rows[i].channel && r.1[i] == rows[i].count >= 1
    ensures SumInts(r.1) == |log.users|
    ensures forall c :: c in r.0 <==> c in PresentChannels(log.users)
  {
    var data := GroupByChannel(log.users);
    CountColumnSum(data);
    var channels := ChannelColumn(data);
    forall c ensures c in channels <==> c in ChannelsOf(data) {
      if c in channels {
        var i :| 0 <= i < |channels| && channels[i] == c;
        assert data[i] in data;
      }
      if c in ChannelsOf(data) {
        var row :| row in data && row.channel == c;
        var i :| 0 <= i < |data| && data[i] == row;
        assert channels[i] == c;
      }
    }
    (channels, CountColumn(data))
  }

  /**
   The loop of the engagement chart: for each row of the LEFT JOIN, append
   its channel and its safe engagement rate. Index i of both lists is row i,
   and every rate is a percentage in [0, 100].
   */
  method EngagementRateByChannel(log: Log) returns (channels: seq<string>, engagementRates: seq<real>)
    ensures var rows := AcquisitionEngagement(log);
            && |channels| == |rows| && |engagementRates| == |rows|
            && forall i :: 0 <= i < |rows| ==>
                 && channels[i] == rows[i].channel
                 && engagementRates[i] == SafeRate(rows[i].engaged, rows[i].total)
                 && 0.0 <= engagementRates[i] <= 100.0
  {
    var data := AcquisitionEngagement(log);
    channels, engagementRates := [], [];
    for i := 0 to |data|
      invariant |channels| == i && |engagementRates| == i
      invariant forall k :: 0 <= k < i ==> channels[k] == data[k].channel
      invariant forall k :: 0 <= k < i ==> engagementRates[k] == SafeRate(data[k].engaged, data[k].total)
    {
      var row := data[i];
      var rate := SafeRate(row.engaged, row.total);
      channels := channels + [row.channel];
      engagementRates := engagementRates + [rate];
    }
    EngagementRatesInRange(log);
  }
}
