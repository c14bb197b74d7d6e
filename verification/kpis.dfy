/** The KPI engine: pure builders from the canonical datasets to the five KPI
    tables, and the threshold rules that flag their rows. */
module Kpis {
  import opened Wrappers
  import opened Errors
  import opened Text
  import opened Stats
  import opened Sorting
  import opened Grouping
  import Calendar
  import Transforms

  type WeeklyVolume = Transforms.WeeklyVolume
  type BerthVisit = Transforms.BerthVisit

  datatype Flag = High | Low | Normal

  /** The columns each KPI row is stamped with: the run's extraction timestamp
      (opaque here) and the reporting-range tags, present only when configured
      non-empty. */
  datatype RunTags = RunTags(extractionTs: string, fromDate: Option<string>, toDate: Option<string>)

  /** `if from_date: df["from_date"] = from_date`: an absent or empty tag adds no column. */
  function Stamp(extractionTs: string, fromDate: Option<string>, toDate: Option<string>): (t: RunTags)
    ensures t.extractionTs == extractionTs
    ensures t.fromDate.Some? <==> fromDate.Some? && |fromDate.value| > 0
    ensures t.fromDate.Some? ==> t.fromDate == fromDate
    ensures t.toDate.Some? <==> toDate.Some? && |toDate.value| > 0
    ensures t.toDate.Some? ==> t.toDate == toDate
  {
    RunTags(
      extractionTs,
      if fromDate.Some? && |fromDate.value| > 0 then fromDate else None,
      if toDate.Some? && |toDate.value| > 0 then toDate else None)
  }

  // ---------------------------------------------------------------------------
  // Weekly volume pressure

  datatype VolumePressure = VolumePressure(
    week: WeeklyVolume, rollingAvg: real, pressureIndex: Float, flag: Flag, tags: RunTags)

  /** Sort key of a week: its day number, which orders dates chronologically. */
  function WeekKey(w: WeeklyVolume): real {
    Calendar.DayNumber(w.weekStart) as real
  }

  function Inbounds(weeks: seq<WeeklyVolume>): (r: seq<real>)
    ensures |r| == |weeks|
    ensures forall i :: 0 <= i < |weeks| ==> r[i] == weeks[i].inboundFull
  {
    seq(|weeks|, i requires 0 <= i < |weeks| => weeks[i].inboundFull)
  }

  function WeeksOf(rows: seq<VolumePressure>): (r: seq<WeeklyVolume>)
    ensures |r| == |rows|
    ensures forall i :: 0 <= i < |rows| ==> r[i] == rows[i].week
  {
    seq(|rows|, i requires 0 <= i < |rows| => rows[i].week)
  }

  /** Flags are assigned in two passes over a NORMAL default: HIGH where the index
      reaches `high`, then LOW where it is at most `low`, so LOW wins when a
      row meets both. A NaN index meets neither. */
  function VolumeFlag(index: Float, high: real, low: real): (f: Flag)
    ensures f == Low <==> AtMost(index, low)
    ensures f == High <==> AtLeast(index, high) && !AtMost(index, low)
    ensures f == Normal <==> !AtLeast(index, high) && !AtMost(index, low)
  {
    var afterHigh := if AtLeast(index, high) then High else Normal;
    if AtMost(index, low) then Low else afterHigh
  }

  function PressureRow(sorted: seq<WeeklyVolume>, i: nat, high: real, low: real, tags: RunTags): VolumePressure
    requires i < |sorted|
  {
    var avg := WindowMean(Inbounds(sorted), i);
    var index := Divide(sorted[i].inboundFull, avg);
    VolumePressure(sorted[i], avg, index, VolumeFlag(index, high, low), tags)
  }

  /** The weekly table: the input weeks sorted by start date, each with the mean
      of its trailing four-week window (fewer at the start), its pressure index
      (inbound over that mean) and its flag. */
  function PressureTable(
    weekly: seq<WeeklyVolume>, extractionTs: string, fromDate: Option<string>, toDate: Option<string>,
    high: real, low: real): (r: seq<VolumePressure>)
    ensures |r| == |weekly|
    ensures multiset(WeeksOf(r)) == multiset(weekly)
    ensures forall i, j :: 0 <= i < j < |r| ==>
      Calendar.DayNumber(r[i].week.weekStart) <= Calendar.DayNumber(r[j].week.weekStart)
    ensures forall i :: 0 <= i < |r| ==>
      && r[i].rollingAvg == WindowMean(Inbounds(WeeksOf(r)), i)
      && r[i].pressureIndex == Divide(r[i].week.inboundFull, r[i].rollingAvg)
      && r[i].flag == VolumeFlag(r[i].pressureIndex, high, low)
      && r[i].tags == Stamp(extractionTs, fromDate, toDate)
  {
    var sorted := SortBy(weekly, WeekKey);
    var tags := Stamp(extractionTs, fromDate, toDate);
    var r := seq(|sorted|, i requires 0 <= i < |sorted| => PressureRow(sorted, i, high, low, tags));
    assert WeeksOf(r) == sorted;
    r
  }

  /** Midnight of `d` is a pandas nanosecond timestamp, which spans
      1677-09-21 00:12:43.145224193 to 2262-04-11 23:47:16.854775807. */
  predicate InTimestampRange(d: Calendar.Date) {
    !Calendar.Before(d, Calendar.CivilDate(1677, 9, 22)) && !Calendar.Before(Calendar.CivilDate(2262, 4, 11), d)
  }

  /** `build_weekly_volume_pressure`: `pd.to_datetime` fails on a week outside
      the timestamp range; otherwise the result is the weekly table. */
  function BuildWeeklyVolumePressure(
    weekly: seq<WeeklyVolume>, extractionTs: string, fromDate: Option<string>, toDate: Option<string>,
    high: real, low: real): (r: Result<seq<VolumePressure>, Error>)
    ensures r.Success? <==> forall i :: 0 <= i < |weekly| ==> InTimestampRange(weekly[i].weekStart)
    ensures r.Failure? ==> r.error == OutOfBoundsTimestamp
    ensures r.Success? ==> r.value == PressureTable(weekly, extractionTs, fromDate, toDate, high, low)
  {
    if exists i :: 0 <= i < |weekly| && !InTimestampRange(weekly[i].weekStart) then Failure(OutOfBoundsTimestamp)
    else Success(PressureTable(weekly, extractionTs, fromDate, toDate, high, low))
  }

  // ---------------------------------------------------------------------------
  // Terminal congestion and outgate stress

  datatype Congestion = Congestion(
    loadType: string, total: real, congested: real, congestedPct: real, flag: Flag, tags: RunTags)

  datatype OutgateStress = OutgateStress(
    status: string, total: real, slow: real, slowPct: real, flag: Flag, tags: RunTags)

  /** HIGH for a "loaded" group (any letter case) whose share reaches
      `loadedHigh`, or an "empty" group whose share reaches `emptyHigh`;
      every other group is NORMAL. */
  function TerminalFlag(loadType: string, pct: real, loadedHigh: real, emptyHigh: real): (f: Flag)
    ensures f != Low
    ensures f == High <==>
      (AsciiLower(loadType) == "loaded" && pct >= loadedHigh)
      || (AsciiLower(loadType) == "empty" && pct >= emptyHigh)
  {
    var afterLoaded := if AsciiLower(loadType) == "loaded" && pct >= loadedHigh then High else Normal;
    if AsciiLower(loadType) == "empty" && pct >= emptyHigh then High else afterLoaded
  }

  /** The load-type column of a congestion table. */
  function LoadTypes(table: seq<Congestion>): (r: seq<string>)
    ensures |r| == |table|
    ensures forall i :: 0 <= i < |table| ==> r[i] == table[i].loadType
  {
    seq(|table|, i requires 0 <= i < |table| => table[i].loadType)
  }

  function CongestionRows(groups: seq<GroupTotal>, loadedHigh: real, emptyHigh: real, tags: RunTags)
    : (r: seq<Congestion>)
    ensures |r| == |groups|
    ensures forall i :: 0 <= i < |r| ==>
      && r[i].loadType == groups[i].key
      && r[i].total == groups[i].total
      && r[i].congested == groups[i].flagged
      && r[i].congestedPct == Share(groups[i].flagged, groups[i].total)
      && r[i].flag == TerminalFlag(groups[i].key, r[i].congestedPct, loadedHigh, emptyHigh)
      && r[i].tags == tags
  {
    if |groups| == 0 then []
    else
      var g := groups[0];
      var pct := Share(g.flagged, g.total);
      [Congestion(g.key, g.total, g.flagged, pct, TerminalFlag(g.key, pct, loadedHigh, emptyHigh), tags)]
        + CongestionRows(groups[1..], loadedHigh, emptyHigh, tags)
  }

  /** A congestion row for its load type: the group's sums over `rows`, the
      congested share and the flag that share earns. */
  predicate CongestionRowOf(
    row: Congestion, rows: seq<BucketCount>, congestedBuckets: seq<string>,
    loadedHigh: real, emptyHigh: real, tags: RunTags)
  {
    && row.total == KeyTotal(rows, row.loadType)
    && row.congested == FlaggedTotal(rows, row.loadType, congestedBuckets)
    && row.congestedPct == Share(row.congested, row.total)
    && row.flag == TerminalFlag(row.loadType, row.congestedPct, loadedHigh, emptyHigh)
    && row.tags == tags
  }

  /** `build_terminal_congestion`: one row per distinct load type, ascending,
      with the group's containers, those in congested buckets, their share and
      the flag; no groups is an error. */
  function BuildTerminalCongestion(
    rows: seq<BucketCount>, extractionTs: string, fromDate: Option<string>, toDate: Option<string>,
    congestedBuckets: seq<string>, loadedHigh: real, emptyHigh: real): (r: Result<seq<Congestion>, Error>)
    ensures r.Success? <==> |rows| > 0
    ensures r.Failure? ==> r.error == NoGroups
    ensures r.Success? ==> StrictlySorted(LoadTypes(r.value))
    ensures r.Success? ==> forall k :: k in LoadTypes(r.value) <==> k in KeySet(rows)
    ensures r.Success? ==> forall i :: 0 <= i < |r.value| ==>
      CongestionRowOf(r.value[i], rows, congestedBuckets, loadedHigh, emptyHigh, Stamp(extractionTs, fromDate, toDate))
  {
    var groups := GroupBy(rows, congestedBuckets);
    var table := CongestionRows(groups, loadedHigh, emptyHigh, Stamp(extractionTs, fromDate, toDate));
    if |table| == 0 then Failure(NoGroups)
    else
      assert forall i :: 0 <= i < |table| ==> CongestionRowOf(table[i], rows, congestedBuckets, loadedHigh, emptyHigh, Stamp(extractionTs, fromDate, toDate)) by {
        forall i | 0 <= i < |table|
          ensures CongestionRowOf(table[i], rows, congestedBuckets, loadedHigh, emptyHigh, Stamp(extractionTs, fromDate, toDate))
        {
          assert table[i].loadType == groups[i].key;
        }
      }
      assert LoadTypes(table) == GroupKeys(groups);
      Success(table)
  }

  /** HIGH exactly when the slow share reaches `slowHigh`. */
  function OutgateFlag(pct: real, slowHigh: real): (f: Flag)
    ensures f != Low
    ensures f == High <==> pct >= slowHigh
  {
    if pct >= slowHigh then High else Normal
  }

  /** The status column of an outgate stress table. */
  function Statuses(table: seq<OutgateStress>): (r: seq<string>)
    ensures |r| == |table|
    ensures forall i :: 0 <= i < |table| ==> r[i] == table[i].status
  {
    seq(|table|, i requires 0 <= i < |table| => table[i].status)
  }

  function StressRows(groups: seq<GroupTotal>, slowHigh: real, tags: RunTags): (r: seq<OutgateStress>)
    ensures |r| == |groups|
    ensures forall i :: 0 <= i < |r| ==>
      && r[i].status == groups[i].key
      && r[i].total == groups[i].total
      && r[i].slow == groups[i].flagged
      && r[i].slowPct == Share(groups[i].flagged, groups[i].total)
      && r[i].flag == OutgateFlag(r[i].slowPct, slowHigh)
      && r[i].tags == tags
  {
    if |groups| == 0 then []
    else
      var g := groups[0];
      var pct := Share(g.flagged, g.total);
      [OutgateStress(g.key, g.total, g.flagged, pct, OutgateFlag(pct, slowHigh), tags)]
        + StressRows(groups[1..], slowHigh, tags)
  }

  /** A stress row for its status: the group's sums over `rows`, the slow share
      and the flag that share earns. */
  predicate StressRowOf(row: OutgateStress, rows: seq<BucketCount>, slowBuckets: seq<string>, slowHigh: real, tags: RunTags) {
    && row.total == KeyTotal(rows, row.status)
    && row.slow == FlaggedTotal(rows, row.status, slowBuckets)
    && row.slowPct == Share(row.slow, row.total)
    && row.flag == OutgateFlag(row.slowPct, slowHigh)
    && row.tags == tags
  }

  /** `build_outgate_stress_by_status`: one row per distinct status, ascending,
      with the group's containers, those in slow buckets, their share and the
      flag; no groups is an error. */
  function BuildOutgateStressByStatus(
    rows: seq<BucketCount>, extractionTs: string, fromDate: Option<string>, toDate: Option<string>,
    slowBuckets: seq<string>, slowHigh: real): (r: Result<seq<OutgateStress>, Error>)
    ensures r.Success? <==> |rows| > 0
    ensures r.Failure? ==> r.error == NoGroups
    ensures r.Success? ==> StrictlySorted(Statuses(r.value))
    ensures r.Success? ==> forall k :: k in Statuses(r.value) <==> k in KeySet(rows)
    ensures r.Success? ==> forall i :: 0 <= i < |r.value| ==>
      StressRowOf(r.value[i], rows, slowBuckets, slowHigh, Stamp(extractionTs, fromDate, toDate))
  {
    var groups := GroupBy(rows, slowBuckets);
    var table := StressRows(groups, slowHigh, Stamp(extractionTs, fromDate, toDate));
    if |table| == 0 then Failure(NoGroups)
    else
      assert forall i :: 0 <= i < |table| ==> StressRowOf(table[i], rows, slowBuckets, slowHigh, Stamp(extractionTs, fromDate, toDate)) by {
        forall i | 0 <= i < |table|
          ensures StressRowOf(table[i], rows, slowBuckets, slowHigh, Stamp(extractionTs, fromDate, toDate))
        {
          assert table[i].status == groups[i].key;
        }
      }
      assert Statuses(table) == GroupKeys(groups);
      Success(table)
  }

  // ---------------------------------------------------------------------------
  // Berth snapshot

  datatype RecordType = Summary | Vessel

  /** A berth snapshot row. The summary row has no visit: its vessel, terminal and
      hours columns are null. */
  datatype BerthRecord = BerthRecord(
    recordType: RecordType, visit: Option<BerthVisit>, avgHours: Float, flag: Flag, tags: RunTags)

  function HoursOf(visits: seq<BerthVisit>): (r: seq<real>)
    ensures |r| == |visits|
    ensures forall i :: 0 <= i < |visits| ==> r[i] == visits[i].hours
  {
    seq(|visits|, i requires 0 <= i < |visits| => visits[i].hours)
  }

  /** Rows `DataFrame.head(n)` keeps of `count`: the first n, or for a negative n
      all but the last -n. */
  function HeadCount(count: nat, n: int): (k: nat)
    ensures k <= count
    ensures n >= 0 ==> k == if n < count then n else count
    ensures n < 0 ==> k == if count + n > 0 then count + n else 0
  {
    if n >= 0 then (if n < count then n else count)
    else if count + n > 0 then count + n else 0
  }

  /** Sorting on the negated hours puts the longest stays first. */
  function LongestFirst(v: BerthVisit): real {
    -v.hours
  }

  function BerthFlag(avg: Float, highHours: real): (f: Flag)
    ensures f != Low
    ensures f == High <==> AtLeast(avg, highHours)
  {
    if AtLeast(avg, highHours) then High else Normal
  }

  /** The columns every snapshot row shares: the mean stay, its flag and the run tags. */
  predicate SharesRunColumns(rec: BerthRecord, avg: Float, flag: Flag, tags: RunTags) {
    rec.avgHours == avg && rec.flag == flag && rec.tags == tags
  }

  function VesselRecords(visits: seq<BerthVisit>, avg: Float, flag: Flag, tags: RunTags): (r: seq<BerthRecord>)
    ensures |r| == |visits|
    ensures forall i :: 0 <= i < |r| ==>
      r[i].recordType == Vessel && r[i].visit == Some(visits[i]) && SharesRunColumns(r[i], avg, flag, tags)
  {
    if |visits| == 0 then []
    else [BerthRecord(Vessel, Some(visits[0]), avg, flag, tags)] + VesselRecords(visits[1..], avg, flag, tags)
  }

  /** The visits the vessel rows of a snapshot carry. */
  function VisitsOf(records: seq<BerthRecord>): (r: seq<BerthVisit>)
    requires forall i :: 0 <= i < |records| ==> records[i].visit.Some?
    ensures |r| == |records|
    ensures forall i :: 0 <= i < |records| ==> r[i] == records[i].visit.value
  {
    seq(|records|, i requires 0 <= i < |records| => records[i].visit.value)
  }

  /** In visits sorted longest first, the first `k` are in descending order of
      stay, and every visit after them stayed no longer than any of them. */
  lemma LongestFirstPrefix(sorted: seq<BerthVisit>, k: nat)
    requires SortedBy(sorted, LongestFirst) && k <= |sorted|
    ensures forall i, j :: 0 <= i < j < k ==> sorted[..k][i].hours >= sorted[..k][j].hours
    ensures multiset(sorted[..k]) <= multiset(sorted)
    ensures forall v :: v in multiset(sorted) - multiset(sorted[..k]) ==>
      forall i :: 0 <= i < k ==> v.hours <= sorted[..k][i].hours
  {
    PrefixKeepsSmallest(sorted, LongestFirst, k);
    forall i, j | 0 <= i < j < k
      ensures sorted[..k][i].hours >= sorted[..k][j].hours
    {
      assert LongestFirst(sorted[i]) <= LongestFirst(sorted[j]);
    }
    forall v, i | v in multiset(sorted) - multiset(sorted[..k]) && 0 <= i < k
      ensures v.hours <= sorted[..k][i].hours
    {
      assert LongestFirst(sorted[i]) <= LongestFirst(v);
    }
  }

  /** `sort_values(..., ascending=False).head(topN)`: the visits kept. */
  function TopVisits(visits: seq<BerthVisit>, topN: int): (top: seq<BerthVisit>)
    ensures |top| == HeadCount(|visits|, topN)
    ensures topN >= 0 ==> |top| == if topN < |visits| then topN else |visits|
    ensures topN < 0 ==> |top| == if |visits| + topN > 0 then |visits| + topN else 0
  {
    SortBy(visits, LongestFirst)[..HeadCount(|visits|, topN)]
  }

  /** The visits kept come longest stay first, are drawn from the input, and a
      visit left out stayed no longer than any visit kept. */
  lemma TopVisitsAreLongest(visits: seq<BerthVisit>, topN: int)
    ensures var top := TopVisits(visits, topN);
      && (forall i, j :: 0 <= i < j < |top| ==> top[i].hours >= top[j].hours)
      && multiset(top) <= multiset(visits)
      && (forall v :: v in multiset(visits) - multiset(top) ==>
            forall i :: 0 <= i < |top| ==> v.hours <= top[i].hours)
  {
    LongestFirstPrefix(SortBy(visits, LongestFirst), HeadCount(|visits|, topN));
  }

  /** `build_berth_snapshot`: a summary row, then the `topN` longest stays
      longest first; every row carries the mean stay over all visits and the
      flag that mean earns. */
  function BuildBerthSnapshot(
    visits: seq<BerthVisit>, extractionTs: string, fromDate: Option<string>, toDate: Option<string>,
    highHours: real, topN: int): (r: seq<BerthRecord>)
    ensures |r| == 1 + HeadCount(|visits|, topN)
    ensures r[0].recordType == Summary && r[0].visit == None
    ensures forall i :: 1 <= i < |r| ==>
      r[i].recordType == Vessel && r[i].visit == Some(TopVisits(visits, topN)[i - 1])
    ensures var avg := Mean(HoursOf(visits));
      forall i :: 0 <= i < |r| ==>
        SharesRunColumns(r[i], avg, BerthFlag(avg, highHours), Stamp(extractionTs, fromDate, toDate))
  {
    var avg := Mean(HoursOf(visits));
    SnapshotRows(TopVisits(visits, topN), avg, BerthFlag(avg, highHours), Stamp(extractionTs, fromDate, toDate))
  }

  /** The summary row followed by one vessel row per kept visit. */
  function SnapshotRows(top: seq<BerthVisit>, avg: Float, flag: Flag, tags: RunTags): (r: seq<BerthRecord>)
    ensures |r| == 1 + |top|
    ensures r[0].recordType == Summary && r[0].visit == None
    ensures forall i :: 1 <= i < |r| ==> r[i].recordType == Vessel && r[i].visit == Some(top[i - 1])
    ensures forall i :: 0 <= i < |r| ==> SharesRunColumns(r[i], avg, flag, tags)
  {
    var vessels := VesselRecords(top, avg, flag, tags);
    var r := [BerthRecord(Summary, None, avg, flag, tags)] + vessels;
    assert forall i :: 1 <= i < |r| ==> r[i] == vessels[i - 1];
    r
  }

  // ---------------------------------------------------------------------------
  // Health summary

  /** A terminal flag as the health summary reports it: UNKNOWN when no group matches. */
  datatype LoadTypeFlag = Known(flag: Flag) | Unknown

  datatype HealthSummary = HealthSummary(
    volumePressureFlag: Flag,
    terminalCongestionLoadedFlag: LoadTypeFlag,
    terminalCongestionEmptyFlag: LoadTypeFlag,
    outgateStressHighStatuses: string,
    berthFlag: Flag,
    extractionTs: string)

  /** `_flag_for_load_type`: the flag of the first row, in table order, whose
      lower-cased load type is `loadType`, or UNKNOWN. */
  function FlagForLoadType(table: seq<Congestion>, loadType: string): (r: LoadTypeFlag)
    ensures r == Unknown <==> forall i :: 0 <= i < |table| ==> AsciiLower(table[i].loadType) != loadType
    ensures r.Known? ==>
      exists i :: 0 <= i < |table| && AsciiLower(table[i].loadType) == loadType && r.flag == table[i].flag
        && forall j :: 0 <= j < i ==> AsciiLower(table[j].loadType) != loadType
  {
    if |table| == 0 then Unknown
    else if AsciiLower(table[0].loadType) == loadType then Known(table[0].flag)
    else
      var r := FlagForLoadType(table[1..], loadType);
      assert forall j :: 1 <= j < |table| ==> table[j] == table[1..][j - 1];
      assert r.Known? ==>
        exists i :: 1 <= i < |table| && AsciiLower(table[i].loadType) == loadType
          && r.flag == table[i].flag && forall j :: 0 <= j < i ==> AsciiLower(table[j].loadType) != loadType by {
        if r.Known? {
          var i :| 0 <= i < |table[1..]| && AsciiLower(table[1..][i].loadType) == loadType
            && r.flag == table[1..][i].flag
            && forall j :: 0 <= j < i ==> AsciiLower(table[1..][j].loadType) != loadType;
          assert table[i + 1] == table[1..][i];
        }
      }
      r
  }

  /** The statuses of the HIGH rows, in table order. */
  function HighStatuses(table: seq<OutgateStress>): (r: seq<string>)
    ensures |r| <= |table|
    ensures forall s :: s in r <==> exists i :: 0 <= i < |table| && table[i].flag == High && table[i].status == s
    ensures |r| == 0 <==> forall i :: 0 <= i < |table| ==> table[i].flag != High
  {
    if |table| == 0 then []
    else
      var rest := HighStatuses(table[1..]);
      var r := if table[0].flag == High then [table[0].status] + rest else rest;
      assert forall s :: s in r <==> exists i :: 0 <= i < |table| && table[i].flag == High && table[i].status == s by {
        forall s
          ensures s in r <==> exists i :: 0 <= i < |table| && table[i].flag == High && table[i].status == s
        {
          if s in rest {
            var i :| 0 <= i < |table[1..]| && table[1..][i].flag == High && table[1..][i].status == s;
            assert table[i + 1] == table[1..][i];
          }
          if exists i :: 0 <= i < |table| && table[i].flag == High && table[i].status == s {
            var i :| 0 <= i < |table| && table[i].flag == High && table[i].status == s;
            if i > 0 {
              assert table[1..][i - 1] == table[i];
            }
          }
        }
      }
      assert |r| == 0 <==> forall i :: 0 <= i < |table| ==> table[i].flag != High by {
        if |r| > 0 {
          assert r[0] in r;
        }
      }
      r
  }

  /** A one-row table lists its status exactly when the row is HIGH. */
  lemma HighStatusesOfOneRow(row: OutgateStress)
    ensures HighStatuses([row]) == (if row.flag == High then [row.status] else [])
  {
  }

  /** `.tolist()` keeps table order and every occurrence: the list of a
      concatenation is the concatenation of the lists. With the one-row case
      this fixes the list completely. */
  lemma {:induction false} HighStatusesKeepTableOrder(a: seq<OutgateStress>, b: seq<OutgateStress>)
    ensures HighStatuses(a + b) == HighStatuses(a) + HighStatuses(b)
    decreases |a|
  {
    if |a| == 0 {
      assert a + b == b;
    } else {
      assert (a + b)[1..] == a[1..] + b;
      HighStatusesKeepTableOrder(a[1..], b);
    }
  }

  /** The statuses flagged HIGH, joined with ", ", or "NONE" when there are none. */
  function HighStatusText(table: seq<OutgateStress>): (r: string)
    ensures (forall i :: 0 <= i < |table| ==> table[i].flag != High) ==> r == "NONE"
    ensures (exists i :: 0 <= i < |table| && table[i].flag == High) ==> r == Join(HighStatuses(table), ", ")
  {
    var statuses := HighStatuses(table);
    if |statuses| == 0 then "NONE" else Join(statuses, ", ")
  }

  /** The flag of the first summary row, if there is one. */
  function SummaryFlag(berth: seq<BerthRecord>): (r: Option<Flag>)
    ensures r.Some? <==> exists i :: 0 <= i < |berth| && berth[i].recordType == Summary
    ensures r.Some? ==>
      exists i :: 0 <= i < |berth| && berth[i].recordType == Summary && berth[i].flag == r.value
        && forall j :: 0 <= j < i ==> berth[j].recordType != Summary
  {
    if |berth| == 0 then None
    else if berth[0].recordType == Summary then Some(berth[0].flag)
    else
      var r := SummaryFlag(berth[1..]);
      assert forall i :: 1 <= i < |berth| ==> berth[i] == berth[1..][i - 1];
      assert r.Some? ==>
        exists i :: 1 <= i < |berth| && berth[i].recordType == Summary && berth[i].flag == r.value
          && forall j :: 0 <= j < i ==> berth[j].recordType != Summary by {
        if r.Some? {
          var i :| 0 <= i < |berth[1..]| && berth[1..][i].recordType == Summary && berth[1..][i].flag == r.value
            && forall j :: 0 <= j < i ==> berth[1..][j].recordType != Summary;
          assert berth[i + 1] == berth[1..][i];
        }
      }
      r
  }

  function VolumeRowKey(row: VolumePressure): real {
    WeekKey(row.week)
  }

  /** `build_health_summary`: exactly one row, from the latest week's volume flag,
      the loaded and empty congestion flags, the HIGH outgate statuses and the
      berth summary flag. An empty volume table or a berth table without a
      summary row is an error. */
  function BuildHealthSummary(
    volume: seq<VolumePressure>, terminal: seq<Congestion>, outgate: seq<OutgateStress>,
    berth: seq<BerthRecord>, extractionTs: string): (r: Result<HealthSummary, Error>)
    ensures r.Success? <==> |volume| > 0 && exists i :: 0 <= i < |berth| && berth[i].recordType == Summary
    ensures r.Failure? ==> r.error == MissingRow
    ensures r.Success? ==>
      exists i :: 0 <= i < |volume| && volume[i].flag == r.value.volumePressureFlag
        && forall j :: 0 <= j < |volume| ==>
             Calendar.DayNumber(volume[j].week.weekStart) <= Calendar.DayNumber(volume[i].week.weekStart)
    ensures r.Success? ==> r.value.terminalCongestionLoadedFlag == FlagForLoadType(terminal, "loaded")
    ensures r.Success? ==> r.value.terminalCongestionEmptyFlag == FlagForLoadType(terminal, "empty")
    ensures r.Success? ==> r.value.outgateStressHighStatuses == HighStatusText(outgate)
    ensures r.Success? ==> Some(r.value.berthFlag) == SummaryFlag(berth)
    ensures r.Success? ==> r.value.extractionTs == extractionTs
  {
    if |volume| == 0 then Failure(MissingRow)
    else match SummaryFlag(berth)
      case None => Failure(MissingRow)
      case Some(berthFlag) =>
        var sorted := SortBy(volume, VolumeRowKey);
        var latest := sorted[|sorted| - 1];
        LastIsMaximal(volume, VolumeRowKey);
        assert forall j :: 0 <= j < |volume| ==> VolumeRowKey(volume[j]) <= VolumeRowKey(latest) by {
          forall j | 0 <= j < |volume|
            ensures VolumeRowKey(volume[j]) <= VolumeRowKey(latest)
          {
            assert volume[j] in volume;
          }
        }
        var i :| 0 <= i < |volume| && volume[i] == latest;
        Success(HealthSummary(
          latest.flag,
          FlagForLoadType(terminal, "loaded"),
          FlagForLoadType(terminal, "empty"),
          HighStatusText(outgate),
          berthFlag,
          extractionTs))
  }
}
