/** Properties of the KPI builders that relate several calls, whole tables or
    concrete scenarios. */
module KpiProperties {
  import opened Wrappers
  import opened Stats
  import opened Grouping
  import opened Text
  import opened Kpis
  import Calendar

  /** The first week's window holds only itself, so its average is its own
      inbound count and its index is 1 (or NaN, hence NORMAL, for a zero count). */
  lemma FirstWeekIsItsOwnAverage(
    weekly: seq<WeeklyVolume>, extractionTs: string, fromDate: Option<string>, toDate: Option<string>,
    high: real, low: real)
    requires |weekly| > 0
    ensures var r := PressureTable(weekly, extractionTs, fromDate, toDate, high, low);
      && r[0].rollingAvg == r[0].week.inboundFull
      && (r[0].week.inboundFull != 0.0 ==> r[0].pressureIndex == Finite(1.0))
      && (r[0].week.inboundFull == 0.0 ==> r[0].pressureIndex == NaN && r[0].flag == Normal)
  {
    var r := PressureTable(weekly, extractionTs, fromDate, toDate, high, low);
    var vals := Inbounds(WeeksOf(r));
    var x := r[0].week.inboundFull;
    assert vals[0] == x;
    FirstWindowIsOwnValue(vals);
    assert r[0].rollingAvg == x;
    SelfIndex(x);
  }

  /** A value over itself is 1, or NaN for zero. */
  lemma SelfIndex(x: real)
    ensures x != 0.0 ==> Divide(x, x) == Finite(1.0)
    ensures x == 0.0 ==> Divide(x, x) == NaN
  {
    if x != 0.0 {
      assert x / x == 1.0;
    }
  }

  /** Sorting two weeks with distinct start dates puts the earlier one first. */
  lemma EarlierWeekFirst(a: WeeklyVolume, b: WeeklyVolume, w: seq<WeeklyVolume>)
    requires Calendar.DayNumber(a.weekStart) < Calendar.DayNumber(b.weekStart)
    requires |w| == 2 && multiset(w) == multiset([b, a])
    requires Calendar.DayNumber(w[0].weekStart) <= Calendar.DayNumber(w[1].weekStart)
    ensures w == [a, b]
  {
    assert w == [w[0], w[1]];
    assert multiset(w) == multiset{w[0], w[1]};
    assert w[0] in multiset([b, a]) && w[1] in multiset([b, a]);
  }

  /** The second week's window holds both weeks. */
  lemma SecondWindowIsPairMean(s: seq<real>)
    requires |s| >= 2
    ensures WindowMean(s, 1) == (s[0] + s[1]) / 2.0
  {
    var pair := s[0..2];
    assert pair[..1] == [s[0]];
    assert Sum([s[0]]) == s[0] by {
      assert [s[0]][..0] == [];
    }
    assert Sum(pair) == s[0] + s[1];
  }

  /** Two weeks given latest first come out in date order; the earlier week is
      NORMAL, and with thresholds 1.15 and 0.85 the later one is NORMAL at 130
      containers against 100 (index 130/115) and HIGH at 140 (index 140/120). */
  lemma TwoWeekScenario(a: WeeklyVolume, b: WeeklyVolume, extractionTs: string)
    requires Calendar.DayNumber(a.weekStart) < Calendar.DayNumber(b.weekStart)
    requires a.inboundFull == 100.0
    requires b.inboundFull == 130.0 || b.inboundFull == 140.0
    requires InTimestampRange(a.weekStart) && InTimestampRange(b.weekStart)
    ensures BuildWeeklyVolumePressure([b, a], extractionTs, None, None, 1.15, 0.85).Success?
    ensures var r := PressureTable([b, a], extractionTs, None, None, 1.15, 0.85);
      && |r| == 2 && r[0].week == a && r[1].week == b
      && r[0].flag == Normal
      && (b.inboundFull == 130.0 ==> r[1].flag == Normal)
      && (b.inboundFull == 140.0 ==> r[1].flag == High)
  {
    var r := PressureTable([b, a], extractionTs, None, None, 1.15, 0.85);
    EarlierWeekFirst(a, b, WeeksOf(r));
    assert r[0].week == a && r[1].week == b;
    PairFlags(r, b.inboundFull);
    assert [b, a][0] == b && [b, a][1] == a;
  }

  /** The flags of a two-week table whose rows hold their trailing means,
      indexes and flags, with a first week of 100. */
  lemma PairFlags(r: seq<VolumePressure>, x: real)
    requires |r| == 2 && r[0].week.inboundFull == 100.0 && r[1].week.inboundFull == x
    requires x == 130.0 || x == 140.0
    requires forall i :: 0 <= i < 2 ==>
      && r[i].rollingAvg == WindowMean(Inbounds(WeeksOf(r)), i)
      && r[i].pressureIndex == Divide(r[i].week.inboundFull, r[i].rollingAvg)
      && r[i].flag == VolumeFlag(r[i].pressureIndex, 1.15, 0.85)
    ensures r[0].flag == Normal
    ensures x == 130.0 ==> r[1].flag == Normal
    ensures x == 140.0 ==> r[1].flag == High
  {
    var vals := Inbounds(WeeksOf(r));
    assert |vals| == 2 && vals[0] == 100.0 && vals[1] == x;
    FirstWindowIsOwnValue(vals);
    SecondWindowIsPairMean(vals);
    SelfIndex(100.0);
    SecondWeekFlag(x);
  }

  /** The later week's flag at thresholds 1.15 and 0.85 against a first week of 100. */
  lemma SecondWeekFlag(x: real)
    requires x == 130.0 || x == 140.0
    ensures x == 130.0 ==> VolumeFlag(Divide(x, (100.0 + x) / 2.0), 1.15, 0.85) == Normal
    ensures x == 140.0 ==> VolumeFlag(Divide(x, (100.0 + x) / 2.0), 1.15, 0.85) == High
  {
    if x == 130.0 {
      assert Divide(x, (100.0 + x) / 2.0) == Finite(130.0 / 115.0);
    } else {
      assert Divide(x, (100.0 + x) / 2.0) == Finite(140.0 / 120.0);
    }
  }

  /** What non-negative counts guarantee of a congestion row: its congested
      containers lie within its total, its share is a fraction (0 for an empty
      group), and it is NORMAL when empty or when neither "loaded" nor "empty". */
  predicate CongestionRowIsFraction(row: Congestion, loadedHigh: real, emptyHigh: real) {
    && 0.0 <= row.congested <= row.total
    && 0.0 <= row.congestedPct <= 1.0
    && (row.total == 0.0 ==> row.congestedPct == 0.0)
    && (row.total == 0.0 && loadedHigh > 0.0 && emptyHigh > 0.0 ==> row.flag == Normal)
    && ((AsciiLower(row.loadType) != "loaded" && AsciiLower(row.loadType) != "empty") ==> row.flag == Normal)
  }

  /** With non-negative counts, a group's congested containers lie between 0 and
      its total, so the share is a fraction; an all-zero group has share 0, and
      it and every group that is neither "loaded" nor "empty" are NORMAL. */
  lemma CongestionShareIsFraction(
    rows: seq<BucketCount>, extractionTs: string, fromDate: Option<string>, toDate: Option<string>,
    congestedBuckets: seq<string>, loadedHigh: real, emptyHigh: real)
    requires forall i :: 0 <= i < |rows| ==> rows[i].containers >= 0.0
    requires |rows| > 0
    ensures var r := BuildTerminalCongestion(rows, extractionTs, fromDate, toDate, congestedBuckets, loadedHigh, emptyHigh);
      r.Success? && forall i :: 0 <= i < |r.value| ==> CongestionRowIsFraction(r.value[i], loadedHigh, emptyHigh)
  {
    var r := BuildTerminalCongestion(rows, extractionTs, fromDate, toDate, congestedBuckets, loadedHigh, emptyHigh);
    var tags := Stamp(extractionTs, fromDate, toDate);
    forall i | 0 <= i < |r.value|
      ensures CongestionRowIsFraction(r.value[i], loadedHigh, emptyHigh)
    {
      CongestionRowShare(r.value[i], rows, congestedBuckets, loadedHigh, emptyHigh, tags);
    }
  }

  /** One congestion row over non-negative counts has a fractional share. */
  lemma CongestionRowShare(
    row: Congestion, rows: seq<BucketCount>, congestedBuckets: seq<string>,
    loadedHigh: real, emptyHigh: real, tags: RunTags)
    requires forall i :: 0 <= i < |rows| ==> rows[i].containers >= 0.0
    requires CongestionRowOf(row, rows, congestedBuckets, loadedHigh, emptyHigh, tags)
    ensures CongestionRowIsFraction(row, loadedHigh, emptyHigh)
  {
    FlaggedWithinTotal(rows, row.loadType, congestedBuckets);
    ShareIsFraction(row.congested, row.total);
  }

  /** A slow-share threshold above 1 is never reached when counts are
      non-negative, so the health summary reports no HIGH status. */
  lemma UnreachableSlowThresholdReportsNone(
    rows: seq<BucketCount>, extractionTs: string, fromDate: Option<string>, toDate: Option<string>,
    slowBuckets: seq<string>, slowHigh: real)
    requires forall i :: 0 <= i < |rows| ==> rows[i].containers >= 0.0
    requires |rows| > 0 && slowHigh > 1.0
    ensures var r := BuildOutgateStressByStatus(rows, extractionTs, fromDate, toDate, slowBuckets, slowHigh);
      r.Success? && HighStatusText(r.value) == "NONE"
  {
    var r := BuildOutgateStressByStatus(rows, extractionTs, fromDate, toDate, slowBuckets, slowHigh);
    var tags := Stamp(extractionTs, fromDate, toDate);
    forall i | 0 <= i < |r.value|
      ensures r.value[i].flag != High
    {
      StressRowNotHigh(r.value[i], rows, slowBuckets, slowHigh, tags);
    }
  }

  /** One outgate row over non-negative counts has a fractional slow share, so
      a threshold above 1 leaves it unflagged. */
  lemma StressRowNotHigh(row: OutgateStress, rows: seq<BucketCount>, slowBuckets: seq<string>, slowHigh: real, tags: RunTags)
    requires forall i :: 0 <= i < |rows| ==> rows[i].containers >= 0.0
    requires slowHigh > 1.0
    requires StressRowOf(row, rows, slowBuckets, slowHigh, tags)
    ensures row.flag != High
  {
    FlaggedWithinTotal(rows, row.status, slowBuckets);
    ShareIsFraction(row.slow, row.total);
  }

  /** Two HIGH statuses are reported in table order. */
  lemma HighStatusesInTableOrder(x: OutgateStress, y: OutgateStress)
    requires x.flag == High && y.flag == High
    ensures HighStatusText([x, y]) == x.status + ", " + y.status
  {
    HighStatusesOfOneRow(x);
    HighStatusesOfOneRow(y);
    HighStatusesKeepTableOrder([x], [y]);
    assert [x] + [y] == [x, y];
    var r := HighStatuses([x, y]);
    assert r == [x.status, y.status];
    assert r[0] in r;
    assert r[1..] == [y.status];
    assert Join(r, ", ") == x.status + ", " + Join([y.status], ", ");
  }

  /** A sub-multiset as large as the whole is the whole. */
  lemma {:induction false} FullSubMultiset<T>(a: multiset<T>, b: multiset<T>)
    requires a <= b && |a| == |b|
    ensures a == b
  {
    assert |b - a| == |b| - |a|;
    assert b - a == multiset{};
    assert b == a + (b - a);
  }

  /** A `topN` at least the number of visits keeps every visit. */
  lemma LargeTopNKeepsAllVisits(
    visits: seq<BerthVisit>, extractionTs: string, fromDate: Option<string>, toDate: Option<string>,
    highHours: real, topN: int)
    requires topN >= |visits|
    ensures var r := BuildBerthSnapshot(visits, extractionTs, fromDate, toDate, highHours, topN);
      |r| == |visits| + 1 && multiset(VisitsOf(r[1..])) == multiset(visits)
  {
    var r := BuildBerthSnapshot(visits, extractionTs, fromDate, toDate, highHours, topN);
    var top := TopVisits(visits, topN);
    TopVisitsAreLongest(visits, topN);
    assert VisitsOf(r[1..]) == top;
    FullSubMultiset(multiset(top), multiset(visits));
  }

  /** On what the builders produce from a non-empty week list, the health
      summary always succeeds, and its berth flag is the flag the mean stay
      earns. */
  lemma HealthOfBuiltTables(
    weekly: seq<WeeklyVolume>, terminal: seq<Congestion>, outgate: seq<OutgateStress>,
    visits: seq<BerthVisit>, extractionTs: string, fromDate: Option<string>, toDate: Option<string>,
    high: real, low: real, highHours: real, topN: int)
    requires |weekly| > 0
    ensures var h := BuildHealthSummary(
        PressureTable(weekly, extractionTs, fromDate, toDate, high, low),
        terminal, outgate,
        BuildBerthSnapshot(visits, extractionTs, fromDate, toDate, highHours, topN),
        extractionTs);
      h.Success? && h.value.berthFlag == BerthFlag(Mean(HoursOf(visits)), highHours)
  {
    var berth := BuildBerthSnapshot(visits, extractionTs, fromDate, toDate, highHours, topN);
    assert berth[0].recordType == Summary;
    assert SummaryFlag(berth) == Some(berth[0].flag);
  }

  /** The run columns every KPI row carries: the extraction timestamp always,
      and a reporting-range tag exactly when it is configured non-empty,
      holding the configured value. */
  predicate TaggedFor(t: RunTags, extractionTs: string, fromDate: Option<string>, toDate: Option<string>) {
    && t.extractionTs == extractionTs
    && (t.fromDate.Some? <==> fromDate.Some? && |fromDate.value| > 0)
    && (t.fromDate.Some? ==> t.fromDate == fromDate)
    && (t.toDate.Some? <==> toDate.Some? && |toDate.value| > 0)
    && (t.toDate.Some? ==> t.toDate == toDate)
  }

  /** Every weekly pressure row carries the run columns. */
  lemma WeeklyRowsAreTagged(
    weekly: seq<WeeklyVolume>, extractionTs: string, fromDate: Option<string>, toDate: Option<string>,
    high: real, low: real)
    ensures var r := PressureTable(weekly, extractionTs, fromDate, toDate, high, low);
      forall i :: 0 <= i < |r| ==> TaggedFor(r[i].tags, extractionTs, fromDate, toDate)
  {
  }

  /** Every terminal congestion row carries the run columns. */
  lemma CongestionRowsAreTagged(
    rows: seq<BucketCount>, extractionTs: string, fromDate: Option<string>, toDate: Option<string>,
    congestedBuckets: seq<string>, loadedHigh: real, emptyHigh: real)
    ensures var r := BuildTerminalCongestion(rows, extractionTs, fromDate, toDate, congestedBuckets, loadedHigh, emptyHigh);
      r.Success? ==> forall i :: 0 <= i < |r.value| ==> TaggedFor(r.value[i].tags, extractionTs, fromDate, toDate)
  {
  }

  /** Every outgate stress row carries the run columns, and is HIGH exactly
      when its slow share reaches the threshold, NORMAL otherwise. */
  lemma StressRowsAreTaggedAndFlagged(
    rows: seq<BucketCount>, extractionTs: string, fromDate: Option<string>, toDate: Option<string>,
    slowBuckets: seq<string>, slowHigh: real)
    ensures var r := BuildOutgateStressByStatus(rows, extractionTs, fromDate, toDate, slowBuckets, slowHigh);
      r.Success? ==> forall i :: 0 <= i < |r.value| ==>
        && TaggedFor(r.value[i].tags, extractionTs, fromDate, toDate)
        && r.value[i].flag != Low
        && (r.value[i].flag == High <==> r.value[i].slowPct >= slowHigh)
  {
  }

  /** Every berth snapshot row carries the run columns, and is HIGH exactly
      when the mean stay over all visits reaches the threshold (never for no
      visits, whose mean is NaN), NORMAL otherwise. */
  lemma SnapshotRowsAreTaggedAndFlagged(
    visits: seq<BerthVisit>, extractionTs: string, fromDate: Option<string>, toDate: Option<string>,
    highHours: real, topN: int)
    ensures var r := BuildBerthSnapshot(visits, extractionTs, fromDate, toDate, highHours, topN);
      forall i :: 0 <= i < |r| ==>
        && TaggedFor(r[i].tags, extractionTs, fromDate, toDate)
        && r[i].flag != Low
        && (r[i].flag == High <==> AtLeast(Mean(HoursOf(visits)), highHours))
    ensures |visits| == 0 ==>
      forall i :: 0 <= i < |BuildBerthSnapshot(visits, extractionTs, fromDate, toDate, highHours, topN)| ==>
        BuildBerthSnapshot(visits, extractionTs, fromDate, toDate, highHours, topN)[i].flag == Normal
  {
  }
}
