/**
 The acquisition reports: users grouped by acquisition channel (rows
 ordered by count, largest first), and per channel the total and the
 engaged users of a LEFT JOIN of users with their engagement events.

 SQL leaves the order of GROUP BY groups, and of rows tied under ORDER BY,
 unspecified. The model lists groups in the order their channel first
 appears among the users, and its sort keeps tied rows in that order.
 */
module AcquisitionAnalysis {

  import opened EventLog

  /** A row `(acquisition_channel, COUNT(*))`. */
  datatype ChannelCount = ChannelCount(channel: string, count: int)

  /** A row `(acquisition_channel, total_users, engaged_users)`. */
  datatype EngagementRow = EngagementRow(channel: string, total: int, engaged: int)

  predicate NoDuplicates(cs: seq<string>)
  {
    forall i, j :: 0 <= i < j < |cs| ==> cs[i] != cs[j]
  }

  /** The channels that occur among the users. */
  function PresentChannels(users: seq<User>): set<string>
  {
    set u | u in users :: u.channel
  }

  /** The channels that occur among the rows. */
  function ChannelsOf(rows: seq<ChannelCount>): set<string>
  {
    set row | row in rows :: row.channel
  }

  /** `COUNT(*)` of the rows of `users` whose channel is `c`. */
  function CountInChannel(users: seq<User>, c: string): (n: nat)
    ensures n <= |users|
    ensures n == 0 <==> forall u :: u in users ==> u.channel != c
  {
    if users == [] then 0
    else
      var init, last := users[..|users| - 1], users[|users| - 1];
      assert users == init + [last];
      CountInChannel(init, c) + (if last.channel == c then 1 else 0)
  }

  /** The channels present among the users, each once, in order of first appearance. */
  function DistinctChannels(users: seq<User>): (cs: seq<string>)
    ensures NoDuplicates(cs)
    ensures forall c :: c in cs <==> c in PresentChannels(users)
  {
    if users == [] then []
    else
      var init, last := users[..|users| - 1], users[|users| - 1];
      assert users == init + [last];
      var rest := DistinctChannels(init);
      if last.channel in rest then rest else rest + [last.channel]
  }

  /** One row per channel of `cs`, with that channel's row count. */
  function RowsFor(cs: seq<string>, users: seq<User>): (rows: seq<ChannelCount>)
    ensures |rows| == |cs|
    ensures forall i :: 0 <= i < |rows| ==> rows[i] == ChannelCount(cs[i], CountInChannel(users, cs[i]))
  {
    if cs == [] then [] else [ChannelCount(cs[0], CountInChannel(users, cs[0]))] + RowsFor(cs[1..], users)
  }

  /** `SELECT acquisition_channel, COUNT(*) FROM users GROUP BY acquisition_channel`. */
  function GroupByChannel(users: seq<User>): (rows: seq<ChannelCount>)
    ensures ChannelsDistinct(rows)
    ensures ChannelsOf(rows) == PresentChannels(users)
    ensures forall row :: row in rows ==> row.count >= 1 && row.count == CountInChannel(users, row.channel)
    ensures SumCounts(rows) == |users|
  {
    var cs := DistinctChannels(users);
    var rows := RowsFor(cs, users);
    forall row | row in rows
      ensures row.count >= 1 && row.count == CountInChannel(users, row.channel)
    {
      var i :| 0 <= i < |rows| && rows[i] == row;
      assert cs[i] in cs;
    }
    forall c | c in PresentChannels(users)
      ensures c in ChannelsOf(rows)
    {
      var i :| 0 <= i < |cs| && cs[i] == c;
      assert rows[i] in rows;
    }
    GroupSum(users);
    rows
  }

  predicate ChannelsDistinct(rows: seq<ChannelCount>)
  {
    forall i, j :: 0 <= i < j < |rows| ==> rows[i].channel != rows[j].channel
  }

  function SumCounts(rows: seq<ChannelCount>): int
  {
    if rows == [] then 0 else rows[0].count + SumCounts(rows[1..])
  }

  lemma {:induction false} SumCountsAppend(a: seq<ChannelCount>, b: seq<ChannelCount>)
    ensures SumCounts(a + b) == SumCounts(a) + SumCounts(b)
  {
    if a == [] {
      assert a + b == b;
    } else {
      assert (a + b)[0] == a[0] && (a + b)[1..] == a[1..] + b;
      SumCountsAppend(a[1..], b);
    }
  }

  /** Adding one user adds one to the count of their channel, if it is listed, and nothing else. */
  lemma {:induction false} RowsForAppendUser(cs: seq<string>, users: seq<User>, u: User)
    requires NoDuplicates(cs)
    ensures SumCounts(RowsFor(cs, users + [u])) == SumCounts(RowsFor(cs, users)) + (if u.channel in cs then 1 else 0)
  {
    if cs != [] {
      RowsForAppendUser(cs[1..], users, u);
      var us := users + [u];
      assert us[..|us| - 1] == users;
      assert cs[0] != u.channel ==> (u.channel in cs <==> u.channel in cs[1..]);
      assert cs[0] == u.channel ==> u.channel !in cs[1..];
    }
  }

  lemma {:induction false} RowsForAppendChannel(cs: seq<string>, c: string, users: seq<User>)
    ensures RowsFor(cs + [c], users) == RowsFor(cs, users) + [ChannelCount(c, CountInChannel(users, c))]
  {
  }

  /** The grouped counts add up to the number of users. */
  lemma {:induction false} GroupSum(users: seq<User>)
    ensures SumCounts(RowsFor(DistinctChannels(users), users)) == |users|
  {
    if users != [] {
      var init, last := users[..|users| - 1], users[|users| - 1];
      assert users == init + [last];
      var rest := DistinctChannels(init);
      GroupSum(init);
      RowsForAppendUser(rest, init, last);
      if last.channel !in rest {
        RowsForAppendChannel(rest, last.channel, users);
        SumCountsAppend(RowsFor(rest, users), [ChannelCount(last.channel, CountInChannel(users, last.channel))]);
        assert CountInChannel(init, last.channel) == 0;
      }
    }
  }

  predicate NonIncreasing(rows: seq<ChannelCount>)
  {
    forall i, j :: 0 <= i < j < |rows| ==> rows[i].count >= rows[j].count
  }

  /** Insert `row` before the first row whose count is not larger than its own. */
  function InsertByCount(row: ChannelCount, sorted: seq<ChannelCount>): (r: seq<ChannelCount>)
    requires NonIncreasing(sorted)
    ensures NonIncreasing(r)
    ensures |r| == |sorted| + 1 && (r[0] == row || (sorted != [] && r[0] == sorted[0]))
    ensures multiset(r) == multiset(sorted) + multiset{row}
    ensures SumCounts(r) == row.count + SumCounts(sorted)
  {
    if sorted == [] || row.count >= sorted[0].count then
      [row] + sorted
    else
      var tail := InsertByCount(row, sorted[1..]);
      InsertStep(row, sorted, tail);
      [sorted[0]] + tail
  }

  lemma InsertStep(row: ChannelCount, sorted: seq<ChannelCount>, tail: seq<ChannelCount>)
    requires sorted != [] && row.count < sorted[0].count && NonIncreasing(sorted)
    requires NonIncreasing(tail) && tail != [] && (tail[0] == row || (|sorted| > 1 && tail[0] == sorted[1]))
    requires multiset(tail) == multiset(sorted[1..]) + multiset{row}
    ensures NonIncreasing([sorted[0]] + tail)
    ensures multiset([sorted[0]] + tail) == multiset(sorted) + multiset{row}
  {
    assert sorted == [sorted[0]] + sorted[1..];
    var r := [sorted[0]] + tail;
    forall j | 0 <= j < |tail|
      ensures sorted[0].count >= tail[j].count
    {
      assert tail[0].count <= sorted[0].count;
      assert tail[j].count <= tail[0].count || j == 0;
    }
    assert forall i, j :: 0 < i < j < |r| ==> r[i] == tail[i - 1] && r[j] == tail[j - 1];
  }

  /** `ORDER BY COUNT(*) DESC`, as a stable insertion sort. */
  function SortByCountDesc(rows: seq<ChannelCount>): (r: seq<ChannelCount>)
    ensures NonIncreasing(r)
    ensures multiset(r) == multiset(rows)
    ensures SumCounts(r) == SumCounts(rows)
  {
    if rows == [] then []
    else
      assert rows == [rows[0]] + rows[1..];
      InsertByCount(rows[0], SortByCountDesc(rows[1..]))
  }

  /** A permutation of rows with distinct channels has distinct channels. */
  lemma PermutationKeepsChannelsDistinct(a: seq<ChannelCount>, b: seq<ChannelCount>)
    requires multiset(a) == multiset(b) && ChannelsDistinct(a)
    ensures ChannelsDistinct(b)
  {
    forall i, j | 0 <= i < j < |b|
      ensures b[i].channel != b[j].channel
    {
      assert b[i] in multiset(a) && b[j] in multiset(a);
      var p :| 0 <= p < |a| && a[p] == b[i];
      var q :| 0 <= q < |a| && a[q] == b[j];
      SingleOccurrence(a, p);
      RepeatedOccurrence(b, i, j);
    }
  }

  /** In rows with distinct channels every row occurs once. */
  lemma SingleOccurrence(a: seq<ChannelCount>, p: int)
    requires ChannelsDistinct(a) && 0 <= p < |a|
    ensures multiset(a)[a[p]] == 1
  {
    assert a == a[..p] + [a[p]] + a[p + 1..];
    assert a[p] !in a[..p] by {
      forall k | 0 <= k < p ensures a[k] != a[p] { assert a[k].channel != a[p].channel; }
    }
    assert a[p] !in a[p + 1..] by {
      forall k | p < k < |a| ensures a[k] != a[p] { assert a[p].channel != a[k].channel; }
    }
  }

  /** A row found at two positions occurs at least twice. */
  lemma RepeatedOccurrence(b: seq<ChannelCount>, i: int, j: int)
    requires 0 <= i < j < |b|
    ensures b[i] == b[j] ==> multiset(b)[b[i]] >= 2
  {
    assert b == b[..i] + [b[i]] + b[i + 1..j] + [b[j]] + b[j + 1..];
  }

  /**
   The acquisition summary: one row per channel present among the users,
   each count at least 1 and equal to that channel's number of users, the
   counts adding up to the number of users, largest first.
   */
  function AcquisitionSummary(log: Log): (rows: seq<ChannelCount>)
    ensures NonIncreasing(rows)
    ensures multiset(rows) == multiset(GroupByChannel(log.users))
    ensures ChannelsDistinct(rows)
    ensures ChannelsOf(rows) == PresentChannels(log.users)
    ensures forall row :: row in rows ==> row.count >= 1 && row.count == CountInChannel(log.users, row.channel)
    ensures SumCounts(rows) == |log.users|
  {
    var grouped := GroupByChannel(log.users);
    var rows := SortByCountDesc(grouped);
    PermutationKeepsChannelsDistinct(grouped, rows);
    assert forall row :: row in rows <==> row in grouped by {
      forall row ensures row in rows <==> row in grouped {
        assert row in rows <==> row in multiset(rows);
        assert row in grouped <==> row in multiset(grouped);
      }
    }
    assert ChannelsOf(rows) == ChannelsOf(grouped);
    rows
  }

  /** The distinct users (`COUNT(DISTINCT u.user_id)`) in channel `c`. */
  function ChannelUsers(users: seq<User>, c: string): set<UserId>
  {
    set u | u in users && u.channel == c :: u.id
  }

  /**
   The engaged side of the LEFT JOIN for channel `c`: the ids of the
   engagement events joined to a user of the channel (`COUNT(DISTINCT
   e.user_id)` ignores the NULLs of unmatched users). These are exactly the
   channel's users who are engaged.
   */
  function ChannelEngaged(log: Log, c: string): (r: set<UserId>)
    ensures r == ChannelUsers(log.users, c) * EngagedUsers(log)
  {
    set u, e | u in log.users && u.channel == c && e in log.events && e.userId == u.id &&
               e.etype in EngagementEvents :: e.userId
  }

  /** With unique ids, the distinct users of a channel number as many as its rows. */
  lemma {:induction false} ChannelUsersCard(users: seq<User>, c: string)
    ensures UniqueIds(users) ==> |ChannelUsers(users, c)| == CountInChannel(users, c)
  {
    if users != [] {
      var init, last := users[..|users| - 1], users[|users| - 1];
      IdSetSnoc(users);
      ChannelUsersCard(init, c);
      ChannelUsersSnoc(users, c);
      assert ChannelUsers(init, c) <= IdSet(init);
    }
  }

  lemma ChannelUsersSnoc(users: seq<User>, c: string)
    requires users != []
    ensures var init, last := users[..|users| - 1], users[|users| - 1];
            ChannelUsers(users, c) == ChannelUsers(init, c) + (if last.channel == c then {last.id} else {})
  {
    assert users == users[..|users| - 1] + [users[|users| - 1]];
  }

  /**
   The engagement row of one channel: `total` is the channel's distinct
   users, `engaged` those of them who are engaged, so never more than
   `total`; a channel that occurs among the users has `total` at least 1.
   */
  function ChannelEngagement(log: Log, c: string): (row: EngagementRow)
    ensures row.channel == c
    ensures row.total == |ChannelUsers(log.users, c)|
    ensures row.engaged == |ChannelUsers(log.users, c) * EngagedUsers(log)|
    ensures 0 <= row.engaged <= row.total
    ensures c in PresentChannels(log.users) ==> row.total >= 1
    ensures UniqueIds(log.users) ==> row.total == CountInChannel(log.users, c)
  {
    var members := ChannelUsers(log.users, c);
    SubsetCard(ChannelEngaged(log, c), members);
    PresentChannelHasUser(log.users, c);
    ChannelUsersCard(log.users, c);
    EngagementRow(c, |members|, |ChannelEngaged(log, c)|)
  }

  lemma PresentChannelHasUser(users: seq<User>, c: string)
    ensures c in PresentChannels(users) ==> |ChannelUsers(users, c)| >= 1
  {
    if c in PresentChannels(users) {
      var u :| u in users && u.channel == c;
      assert u.id in ChannelUsers(users, c);
    }
  }

  /** The engagement rows of the channels `cs`, in that order. */
  function EngagementRows(log: Log, cs: seq<string>): (rows: seq<EngagementRow>)
    ensures |rows| == |cs|
    ensures forall i :: 0 <= i < |rows| ==> rows[i] == ChannelEngagement(log, cs[i])
  {
    seq(|cs|, i requires 0 <= i < |cs| => ChannelEngagement(log, cs[i]))
  }

  /** One engagement row per channel present among the users, in the grouped order. */
  function AcquisitionEngagement(log: Log): (rows: seq<EngagementRow>)
    ensures |rows| == |DistinctChannels(log.users)|
    ensures forall i :: 0 <= i < |rows| ==> rows[i] == ChannelEngagement(log, DistinctChannels(log.users)[i])
  {
    EngagementRows(log, DistinctChannels(log.users))
  }

  /** Every row's total is at least 1, and every printed engagement rate is a percentage in [0, 100]. */
  lemma EngagementRatesInRange(log: Log)
    ensures var rows := AcquisitionEngagement(log);
            forall i :: 0 <= i < |rows| ==>
              rows[i].total >= 1 && 0.0 <= SafeRate(rows[i].engaged, rows[i].total) <= 100.0
  {
    var cs := DistinctChannels(log.users);
    assert forall i :: 0 <= i < |cs| ==> cs[i] in cs;
  }

  /**
   The LEFT JOIN keeps a channel none of whose users has an engagement
   event: it still has its row, with engaged = 0 and rate 0.
   */
  lemma UnengagedChannelKept(log: Log, c: string)
    requires c in PresentChannels(log.users)
    requires forall u :: u in log.users && u.channel == c ==> u.id !in EngagedUsers(log)
    ensures var rows := AcquisitionEngagement(log);
            exists i :: 0 <= i < |rows| && rows[i].channel == c && rows[i].engaged == 0 &&
                        SafeRate(rows[i].engaged, rows[i].total) == 0.0
  {
    var cs := DistinctChannels(log.users);
    var i :| 0 <= i < |cs| && cs[i] == c;
    UnengagedRow(log, c);
    var row := AcquisitionEngagement(log)[i];
    assert row == ChannelEngagement(log, c);
    assert row.channel == c && row.engaged == 0 && SafeRate(row.engaged, row.total) == 0.0;
  }

  lemma UnengagedRow(log: Log, c: string)
    requires forall u :: u in log.users && u.channel == c ==> u.id !in EngagedUsers(log)
    ensures ChannelEngagement(log, c).engaged == 0
  {
    assert ChannelUsers(log.users, c) * EngagedUsers(log) == {} by {
      forall id | id in ChannelUsers(log.users, c)
        ensures id !in EngagedUsers(log)
      {
        var u :| u in log.users && u.channel == c && u.id == id;
      }
    }
  }

  /** With unique ids, a channel's total in the engagement report is its count in the summary. */
  lemma EngagementTotalsMatchSummary(log: Log, i: int)
    requires UniqueIds(log.users)
    requires 0 <= i < |AcquisitionEngagement(log)|
    ensures var row := AcquisitionEngagement(log)[i];
            exists j :: 0 <= j < |AcquisitionSummary(log)| &&
                        AcquisitionSummary(log)[j] == ChannelCount(row.channel, row.total)
  {
    var row := AcquisitionEngagement(log)[i];
    var cs := DistinctChannels(log.users);
    assert cs[i] in cs;
    var summary := AcquisitionSummary(log);
    assert row.channel in ChannelsOf(summary);
    var srow :| srow in summary && srow.channel == row.channel;
    var j :| 0 <= j < |summary| && summary[j] == srow;
  }

  lemma ScenarioChannels()
    ensures DistinctChannels(ScenarioLog.users) == ["organic", "ads", "influencer"]
  {
    var us := ScenarioLog.users;
    assert us[..1][..0] == [] && us[..2][..1] == us[..1] && us[..3][..2] == us[..2];
    assert DistinctChannels(us[..1]) == ["organic"];
    assert DistinctChannels(us[..2]) == ["organic", "ads"];
    assert us[..3] == us;
  }

  lemma ScenarioChannelSets()
    ensures ChannelUsers(ScenarioLog.users, "organic") == {1}
    ensures ChannelUsers(ScenarioLog.users, "ads") == {2}
    ensures ChannelUsers(ScenarioLog.users, "influencer") == {3}
  {
  }

  lemma ScenarioEngaged()
    ensures 1 in EngagedUsers(ScenarioLog) && 2 !in EngagedUsers(ScenarioLog) && 3 in EngagedUsers(ScenarioLog)
  {
    assert ScenarioLog.events[1].etype in EngagementEvents;
    assert ScenarioLog.events[4].etype in EngagementEvents;
  }

  /** A channel with a single user has total 1, and engaged 1 exactly when that user is engaged. */
  lemma SingleUserRow(log: Log, c: string, id: UserId)
    requires ChannelUsers(log.users, c) == {id}
    ensures ChannelEngagement(log, c) == EngagementRow(c, 1, if id in EngagedUsers(log) then 1 else 0)
  {
    var both := ChannelUsers(log.users, c) * EngagedUsers(log);
    if id in EngagedUsers(log) {
      assert both == {id};
    } else {
      assert both == {};
    }
  }

  /** The engagement rows of three channels follow from the three per-channel rows alone. */
  lemma EngagementFromRows(log: Log, a: EngagementRow, b: EngagementRow, c: EngagementRow)
    requires ChannelEngagement(log, a.channel) == a && ChannelEngagement(log, b.channel) == b
    requires ChannelEngagement(log, c.channel) == c
    ensures EngagementRows(log, [a.channel, b.channel, c.channel]) == [a, b, c]
  {
  }

  lemma ScenarioRows()
    ensures ChannelEngagement(ScenarioLog, "organic") == EngagementRow("organic", 1, 1)
    ensures ChannelEngagement(ScenarioLog, "ads") == EngagementRow("ads", 1, 0)
    ensures ChannelEngagement(ScenarioLog, "influencer") == EngagementRow("influencer", 1, 1)
  {
    ScenarioChannelSets();
    ScenarioEngaged();
    SingleUserRow(ScenarioLog, "organic", 1);
    SingleUserRow(ScenarioLog, "ads", 2);
    SingleUserRow(ScenarioLog, "influencer", 3);
  }

  /**
   On the three-user scenario the LEFT JOIN gives organic 1 of 1 engaged
   (100%), ads 0 of 1 (0%) and influencer 1 of 1 (100%).
   */
  lemma ScenarioEngagementByChannel()
    ensures AcquisitionEngagement(ScenarioLog) ==
            [EngagementRow("organic", 1, 1), EngagementRow("ads", 1, 0), EngagementRow("influencer", 1, 1)]
    ensures SafeRate(1, 1) == 100.0 && SafeRate(0, 1) == 0.0
  {
    ScenarioChannels();
    ScenarioRows();
    EngagementFromRows(ScenarioLog, EngagementRow("organic", 1, 1), EngagementRow("ads", 1, 0),
                       EngagementRow("influencer", 1, 1));
  }
}
