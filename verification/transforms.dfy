/** The payload normalizer: turns one upstream JSON payload into a canonical
    row sequence, or fails. Four datasets share one shape of procedure:
    locate the item list, read each item's required fields by ordered alias
    probing (failing at the first item that lacks one), reject an empty list,
    then coerce the numeric column and reject the whole dataset if any value
    does not coerce. */
module Transforms {
  import opened Wrappers
  import opened JsonValue
  import opened Errors
  import opened Text
  import Calendar

  /** A canonical weekly-volumes row. */
  datatype WeeklyVolume = WeeklyVolume(weekStart: Calendar.Date, inboundFull: real)

  /** A canonical row of the terminal-containers or the outgate-metrics dataset:
      the grouping key (load type or status), the dwell-time bucket and the count. */
  datatype BucketCount = BucketCount(key: string, bucket: string, containers: real)

  /** A canonical berth row; `terminal` is whatever value the item carried, possibly null. */
  datatype BerthVisit = BerthVisit(vessel: string, hours: real, terminal: Json)

  /** The two conversions the normalizer borrows from its data library: numeric
      coercion of one value (`None` where it would produce NaN) and parsing of
      date text (`None` where it would fail). */
  datatype Coercions = Coercions(toNumber: Json -> Option<real>, parseDateText: string -> Option<Calendar.Date>)

  /** Items after field lookup, before the numeric column is coerced. */
  datatype RawWeek = RawWeek(weekStart: Calendar.Date, inbound: Json)
  datatype RawCount = RawCount(key: string, bucket: string, containers: Json)
  datatype RawBerth = RawBerth(vessel: string, hours: Json, terminal: Json)

  const WeeklyListKeys: seq<string> := ["weeklyVolumesComparison", "data", "items"]
  const TerminalListKeys: seq<string> := ["ContainersAtTerminalData", "data", "items"]
  const OutgateListKeys: seq<string> := ["FetchOutgatedContainerMetricsData", "data", "items"]
  const BerthListKeys: seq<string> := ["FetchQuickviewDashboardBerthData", "vessels", "data", "items"]

  const WeekStartAliases: seq<string> := ["weekStartDate", "week_start_date", "week", "startDate", "date"]
  const InboundAliases: seq<string> :=
    ["inboundFullContainers", "inbound_full_containers", "inboundFullTeu", "inbound_full_teu", "inboundFullTEU"]
  const LoadTypeAliases: seq<string> := ["loadType", "load_type", "status"]
  const StatusAliases: seq<string> := ["status", "containerStatus", "loadType"]
  const BucketAliases: seq<string> := ["bucket", "agingBucket", "ageBucket", "aging_bucket"]
  const CountAliases: seq<string> := ["containers", "containerCount", "value", "count"]
  const VesselAliases: seq<string> := ["vessel", "vesselName", "name"]
  const HoursAliases: seq<string> := ["timeAtBerthHours", "hoursAtBerth", "time_at_berth_hours", "hours"]

  predicate IsList(v: Json) {
    v.JArr?
  }

  predicate IsPresent(v: Json) {
    !v.JNull?
  }

  /** Locates the item list: the payload itself when it is a list, otherwise the
      value of the first key of `keys` under which a top-level object holds a
      list. Only the top level is probed. */
  function ExtractList(payload: Json, keys: seq<string>): (r: Result<seq<Json>, Error>)
    ensures payload.JArr? ==> r == Success(payload.items)
    ensures payload.JObj? && r.Success? ==>
      exists i :: 0 <= i < |keys| && keys[i] in payload.fields && payload.fields[keys[i]].JArr?
        && r.value == payload.fields[keys[i]].items
        && forall j :: 0 <= j < i ==> !(keys[j] in payload.fields && payload.fields[keys[j]].JArr?)
    ensures payload.JObj? && r.Failure? ==>
      forall i :: 0 <= i < |keys| ==> !(keys[i] in payload.fields && payload.fields[keys[i]].JArr?)
    ensures !payload.JArr? && !payload.JObj? ==> r.Failure?
    ensures r.Failure? ==> r.error == NotAList(keys)
  {
    match payload
    case JArr(items) => Success(items)
    case JObj(m) =>
      (match FirstAccepted(m, keys, IsList)
       case Some(i) => Success(m[keys[i]].items)
       case None => Failure(NotAList(keys)))
    case _ => Failure(NotAList(keys))
  }

  /** The value of the first alias the item holds with a non-null value. A
      present-but-null alias is skipped. Python's `key in item` also runs on a
      string (a substring test) and on a list (an element test): when no alias
      passes it, the lookup fails as for an object; when one does, indexing the
      item by it fails. Any other item cannot be searched at all. */
  function GetRequiredKey(item: Json, keys: seq<string>): (r: Result<Json, Error>)
    ensures r.Success? ==> item.JObj? && r.value != JNull
    ensures r.Success? ==>
      exists i :: 0 <= i < |keys| && keys[i] in item.fields && item.fields[keys[i]] != JNull
        && r.value == item.fields[keys[i]]
        && forall j :: 0 <= j < i ==> !(keys[j] in item.fields && item.fields[keys[j]] != JNull)
    ensures item.JObj? && r.Failure? ==>
      r.error == MissingKeys(keys, item)
      && forall i :: 0 <= i < |keys| ==> !(keys[i] in item.fields && item.fields[keys[i]] != JNull)
    ensures !item.JObj? ==> r.Failure? && (r.error == MissingKeys(keys, item) || r.error == NotAnObject(item))
    ensures !item.JObj? && !item.JStr? && !item.JArr? ==> r == Failure(NotAnObject(item))
  {
    match item
    case JObj(m) =>
      (match FirstAccepted(m, keys, IsPresent)
       case Some(i) => Success(m[keys[i]])
       case None => Failure(MissingKeys(keys, item)))
    case JStr(s) =>
      if exists k :: k in keys && IsSubstring(k, s) then Failure(NotAnObject(item))
      else Failure(MissingKeys(keys, item))
    case JArr(a) =>
      if exists k :: k in keys && JStr(k) in a then Failure(NotAnObject(item))
      else Failure(MissingKeys(keys, item))
    case _ => Failure(NotAnObject(item))
  }

  /** Which error a string or list item gives: the missing-keys error exactly
      when no alias is a substring, or an element, of it. */
  lemma SearchedItemLookup(item: Json, keys: seq<string>)
    requires item.JStr? || item.JArr?
    ensures item.JStr? ==>
      (GetRequiredKey(item, keys) == Failure(MissingKeys(keys, item)) <==>
        (forall k :: k in keys ==> !IsSubstring(k, item.s)))
    ensures item.JArr? ==>
      (GetRequiredKey(item, keys) == Failure(MissingKeys(keys, item)) <==>
        (forall k :: k in keys ==> JStr(k) !in item.items))
  {
  }

  /** Date of an epoch-seconds value, failing outside the supported years. */
  function EpochDate(value: Json, seconds: real): (r: Result<Calendar.Date, Error>)
    ensures r.Success? ==> Calendar.DayHolds(r.value, Calendar.RoundHalfEven(seconds * 1_000_000.0))
    ensures r.Success? ==> Calendar.MinYear <= r.value.year <= Calendar.MaxYear
    ensures r.Failure? ==> r.error == DateOutOfRange(value)
    ensures r.Failure? ==>
      forall d: Calendar.Date :: Calendar.DayHolds(d, Calendar.RoundHalfEven(seconds * 1_000_000.0)) ==>
        !(Calendar.MinYear <= d.year <= Calendar.MaxYear)
  {
    match Calendar.UtcDateOfEpoch(seconds)
    case Some(d) => Success(d)
    case None => Failure(DateOutOfRange(value))
  }

  /** Normalizes a date value: a datetime gives its date; a number (a boolean
      being a number in Python) the UTC date of that many seconds after the
      epoch; text goes to the date parser; anything else fails. */
  function ParseDate(value: Json, c: Coercions): (r: Result<Calendar.Date, Error>)
    ensures value.JDateTime? ==> r == Success(value.date)
    ensures value.JNum? ==> r == EpochDate(value, value.n)
    ensures value.JBool? ==> r == EpochDate(value, if value.b then 1.0 else 0.0)
    ensures value.JStr? ==>
      (r.Success? <==> c.parseDateText(value.s).Some?)
      && (r.Success? ==> r.value == c.parseDateText(value.s).value)
    ensures value.JStr? && r.Failure? ==> r.error == UnparseableDate(value) && !IsDataShapeError(r.error)
    ensures value.JNull? || value.JArr? || value.JObj? ==>
      r == Failure(UnparseableDate(value)) && IsDataShapeError(r.error)
  {
    match value
    case JDateTime(d) => Success(d)
    case JNum(x) => EpochDate(value, x)
    case JBool(b) => EpochDate(value, if b then 1.0 else 0.0)
    case JStr(s) =>
      (match c.parseDateText(s)
       case Some(d) => Success(d)
       case None => Failure(UnparseableDate(value)))
    case _ => Failure(UnparseableDate(value))
  }

  /** A required text field, trimmed of surrounding whitespace. */
  function TextField(item: Json, keys: seq<string>): (r: Result<string, Error>)
    ensures r.Success? ==> IsTrimmed(r.value)
    ensures r.Success? <==> GetRequiredKey(item, keys).Success? && GetRequiredKey(item, keys).value.JStr?
    ensures r.Success? ==> r.value == Trim(GetRequiredKey(item, keys).value.s)
    ensures GetRequiredKey(item, keys).Failure? ==> r == Failure(GetRequiredKey(item, keys).error)
    ensures GetRequiredKey(item, keys).Success? && !GetRequiredKey(item, keys).value.JStr? ==>
      r == Failure(NotAString(GetRequiredKey(item, keys).value)) && !IsDataShapeError(r.error)
  {
    var v :- GetRequiredKey(item, keys);
    match v
    case JStr(s) => Success(Trim(s))
    case _ => Failure(NotAString(v))
  }

  /** One weekly item: the week alias, its date, then the inbound alias. */
  function WeeklyItem(item: Json, c: Coercions): Result<RawWeek, Error> {
    var when :- GetRequiredKey(item, WeekStartAliases);
    var week :- ParseDate(when, c);
    var inbound :- GetRequiredKey(item, InboundAliases);
    Success(RawWeek(week, inbound))
  }

  /** The week alias is looked up and parsed before the inbound alias is looked
      up, so the first of the three steps to fail gives the error. Once the week
      was found the item is an object, so a missing inbound value is reported
      as missing keys. */
  lemma WeeklyItemSteps(item: Json, c: Coercions)
    ensures var r := WeeklyItem(item, c);
      var when := GetRequiredKey(item, WeekStartAliases);
      && (when.Failure? ==> r == Failure(when.error))
      && (when.Success? && ParseDate(when.value, c).Failure? ==> r == Failure(ParseDate(when.value, c).error))
      && (r.Success? <==>
            when.Success? && ParseDate(when.value, c).Success? && GetRequiredKey(item, InboundAliases).Success?)
      && (r.Success? ==>
            r.value == RawWeek(ParseDate(when.value, c).value, GetRequiredKey(item, InboundAliases).value))
      && ((r.Failure? && when.Success? && ParseDate(when.value, c).Success?) ==>
            r.error == MissingKeys(InboundAliases, item))
  {
  }

  /** One terminal or outgate item: key, bucket, then count. */
  function CountItem(item: Json, keyAliases: seq<string>): Result<RawCount, Error> {
    var key :- TextField(item, keyAliases);
    var bucket :- TextField(item, BucketAliases);
    var containers :- GetRequiredKey(item, CountAliases);
    Success(RawCount(key, bucket, containers))
  }

  /** Key, then bucket, then count: the first lookup to fail gives the error.
      Once a text field was found the item is an object, so a missing count is
      reported as missing keys. */
  lemma CountItemSteps(item: Json, keyAliases: seq<string>)
    ensures var r := CountItem(item, keyAliases);
      var key := TextField(item, keyAliases);
      var bucket := TextField(item, BucketAliases);
      && (key.Failure? ==> r == Failure(key.error))
      && (key.Success? && bucket.Failure? ==> r == Failure(bucket.error))
      && (r.Success? <==> key.Success? && bucket.Success? && GetRequiredKey(item, CountAliases).Success?)
      && (r.Success? ==> r.value == RawCount(key.value, bucket.value, GetRequiredKey(item, CountAliases).value))
      && ((r.Failure? && key.Success? && bucket.Success?) ==> r.error == MissingKeys(CountAliases, item))
  {
  }

  /** `item.get("terminal") or item.get("terminalName")`: the terminal value
      when it is truthy, otherwise the terminal name or null. Only objects reach
      it, since the vessel lookup before it succeeded; any other value gives null. */
  function BerthTerminal(item: Json): (t: Json)
    ensures (item.JObj? && "terminal" in item.fields && Truthy(item.fields["terminal"])) ==>
      t == item.fields["terminal"]
    ensures (item.JObj? && !("terminal" in item.fields && Truthy(item.fields["terminal"]))) ==>
      (if "terminalName" in item.fields then t == item.fields["terminalName"] else t == JNull)
    ensures !item.JObj? ==> t == JNull
  {
    match item
    case JObj(m) => if Truthy(Get(m, "terminal")) then Get(m, "terminal") else Get(m, "terminalName")
    case _ => JNull
  }

  /** One berth item: vessel, then hours; the terminal is read without failing. */
  function BerthItem(item: Json): Result<RawBerth, Error> {
    var vessel :- TextField(item, VesselAliases);
    var hours :- GetRequiredKey(item, HoursAliases);
    Success(RawBerth(vessel, hours, BerthTerminal(item)))
  }

  /** Vessel, then hours: the first lookup to fail gives the error. Once the
      vessel was found the item is an object, so missing hours are reported as
      missing keys. */
  lemma BerthItemSteps(item: Json)
    ensures var r := BerthItem(item);
      var vessel := TextField(item, VesselAliases);
      && (vessel.Failure? ==> r == Failure(vessel.error))
      && (r.Success? <==> vessel.Success? && GetRequiredKey(item, HoursAliases).Success?)
      && (r.Success? ==>
            r.value == RawBerth(vessel.value, GetRequiredKey(item, HoursAliases).value, BerthTerminal(item)))
      && ((r.Failure? && vessel.Success?) ==> r.error == MissingKeys(HoursAliases, item))
  {
  }

  predicate FirstFailure<R>(items: seq<Json>, parse: Json -> Result<R, Error>, k: int) {
    && 0 <= k < |items|
    && parse(items[k]).Failure?
    && forall j :: 0 <= j < k ==> parse(items[j]).Success?
  }

  /** Reads the items in order, stopping at the first that fails. */
  function ParseItems<R>(items: seq<Json>, parse: Json -> Result<R, Error>): (r: Result<seq<R>, Error>)
    ensures r.Success? ==>
      |r.value| == |items| && forall i :: 0 <= i < |items| ==> parse(items[i]) == Success(r.value[i])
    ensures r.Failure? ==>
      exists k :: FirstFailure(items, parse, k) && parse(items[k]).error == r.error
  {
    if |items| == 0 then Success([])
    else match parse(items[0])
      case Failure(e) =>
        assert FirstFailure(items, parse, 0);
        Failure(e)
      case Success(x) =>
        match ParseItems(items[1..], parse)
        case Failure(e) =>
          var k :| FirstFailure(items[1..], parse, k) && parse(items[1..][k]).error == e;
          assert FirstFailure(items, parse, k + 1);
          Failure(e)
        case Success(rest) => Success([x] + rest)
  }

  /** Coerces every row's numeric column; one failure rejects them all. */
  function CoerceAll<R, S>(raws: seq<R>, conv: R -> Option<S>): (r: Option<seq<S>>)
    ensures r.Some? <==> forall i :: 0 <= i < |raws| ==> conv(raws[i]).Some?
    ensures r.Some? ==> |r.value| == |raws| && forall i :: 0 <= i < |raws| ==> conv(raws[i]) == Some(r.value[i])
  {
    if |raws| == 0 then Some([])
    else match conv(raws[0])
      case None => None
      case Some(x) =>
        match CoerceAll(raws[1..], conv)
        case None => None
        case Some(rest) => Some([x] + rest)
  }

  /** The procedure all four normalizers share. */
  function Normalize<R, S>(payload: Json, listKeys: seq<string>, parse: Json -> Result<R, Error>, conv: R -> Option<S>)
    : (r: Result<seq<S>, Error>)
    ensures r.Success? ==> |r.value| > 0
    ensures ExtractList(payload, listKeys).Failure? ==> r == Failure(NotAList(listKeys))
    ensures ExtractList(payload, listKeys).Success? ==>
      var items := ExtractList(payload, listKeys).value;
      && (|items| == 0 ==> r == Failure(NoRows))
      && (forall k :: FirstFailure(items, parse, k) ==> r == Failure(parse(items[k]).error))
      && ((|items| > 0 && forall i :: 0 <= i < |items| ==> parse(items[i]).Success?) ==>
            (r.Success? <==> forall i :: 0 <= i < |items| ==> conv(parse(items[i]).value).Some?)
            && (r.Failure? ==> r.error == NonNumeric))
      && (r.Success? ==>
            |r.value| == |items|
            && forall i :: 0 <= i < |items| ==>
                 parse(items[i]).Success? && conv(parse(items[i]).value) == Some(r.value[i]))
  {
    var items :- ExtractList(payload, listKeys);
    var raws :- ParseItems(items, parse);
    if |raws| == 0 then Failure(NoRows)
    else match CoerceAll(raws, conv)
      case None => Failure(NonNumeric)
      case Some(rows) => Success(rows)
  }

  function WeekRow(raw: RawWeek, c: Coercions): Option<WeeklyVolume> {
    match c.toNumber(raw.inbound)
    case Some(x) => Some(WeeklyVolume(raw.weekStart, x))
    case None => None
  }

  function CountRow(raw: RawCount, c: Coercions): Option<BucketCount> {
    match c.toNumber(raw.containers)
    case Some(x) => Some(BucketCount(raw.key, raw.bucket, x))
    case None => None
  }

  function BerthRow(raw: RawBerth, c: Coercions): Option<BerthVisit> {
    match c.toNumber(raw.hours)
    case Some(x) => Some(BerthVisit(raw.vessel, x, raw.terminal))
    case None => None
  }

  /** What a weekly row says about the item it came from. */
  predicate WeeklyRowOf(item: Json, c: Coercions, row: WeeklyVolume) {
    && GetRequiredKey(item, WeekStartAliases).Success?
    && ParseDate(GetRequiredKey(item, WeekStartAliases).value, c) == Success(row.weekStart)
    && GetRequiredKey(item, InboundAliases).Success?
    && c.toNumber(GetRequiredKey(item, InboundAliases).value) == Some(row.inboundFull)
  }

  /** What a terminal or outgate row says about the item it came from. */
  predicate CountRowOf(item: Json, keyAliases: seq<string>, c: Coercions, row: BucketCount) {
    && TextField(item, keyAliases) == Success(row.key)
    && TextField(item, BucketAliases) == Success(row.bucket)
    && IsTrimmed(row.key) && IsTrimmed(row.bucket)
    && GetRequiredKey(item, CountAliases).Success?
    && c.toNumber(GetRequiredKey(item, CountAliases).value) == Some(row.containers)
  }

  /** What a berth row says about the item it came from. */
  predicate BerthRowOf(item: Json, c: Coercions, row: BerthVisit) {
    && TextField(item, VesselAliases) == Success(row.vessel)
    && IsTrimmed(row.vessel)
    && GetRequiredKey(item, HoursAliases).Success?
    && c.toNumber(GetRequiredKey(item, HoursAliases).value) == Some(row.hours)
    && row.terminal == BerthTerminal(item)
  }

  lemma WeeklyItemRow(item: Json, c: Coercions, row: WeeklyVolume)
    requires WeeklyItem(item, c).Success? && WeekRow(WeeklyItem(item, c).value, c) == Some(row)
    ensures WeeklyRowOf(item, c, row)
  {
    var when := GetRequiredKey(item, WeekStartAliases);
    assert when.Success?;
    var week := ParseDate(when.value, c);
    var inbound := GetRequiredKey(item, InboundAliases);
    assert week.Success? && inbound.Success?;
    assert WeeklyItem(item, c).value == RawWeek(week.value, inbound.value);
  }

  lemma CountItemRow(item: Json, keyAliases: seq<string>, c: Coercions, row: BucketCount)
    requires CountItem(item, keyAliases).Success? && CountRow(CountItem(item, keyAliases).value, c) == Some(row)
    ensures CountRowOf(item, keyAliases, c, row)
  {
    var key := TextField(item, keyAliases);
    var bucket := TextField(item, BucketAliases);
    var containers := GetRequiredKey(item, CountAliases);
    assert key.Success? && bucket.Success? && containers.Success?;
    assert CountItem(item, keyAliases).value == RawCount(key.value, bucket.value, containers.value);
  }

  lemma BerthItemRow(item: Json, c: Coercions, row: BerthVisit)
    requires BerthItem(item).Success? && BerthRow(BerthItem(item).value, c) == Some(row)
    ensures BerthRowOf(item, c, row)
  {
    var vessel := TextField(item, VesselAliases);
    var hours := GetRequiredKey(item, HoursAliases);
    assert vessel.Success? && hours.Success?;
    assert BerthItem(item).value == RawBerth(vessel.value, hours.value, BerthTerminal(item));
  }

  /** `parse_weekly_volumes`: a non-empty dataset with one row per item, in item order. */
  function ParseWeeklyVolumes(payload: Json, c: Coercions): (r: Result<seq<WeeklyVolume>, Error>)
    ensures r.Success? ==> |r.value| > 0
    ensures r.Success? ==> (
      && ExtractList(payload, WeeklyListKeys).Success?
      && var items := ExtractList(payload, WeeklyListKeys).value;
      && |r.value| == |items|
      && forall i :: 0 <= i < |items| ==> WeeklyRowOf(items[i], c, r.value[i]))
  {
    var parse := item => WeeklyItem(item, c);
    var conv := raw => WeekRow(raw, c);
    var r := Normalize(payload, WeeklyListKeys, parse, conv);
    if r.Success? then
      var items := ExtractList(payload, WeeklyListKeys).value;
      assert forall i :: 0 <= i < |items| ==> WeeklyRowOf(items[i], c, r.value[i]) by {
        forall i | 0 <= i < |items| {
          WeeklyItemRow(items[i], c, r.value[i]);
        }
      }
      r
    else r
  }

  function ParseCounts(payload: Json, listKeys: seq<string>, keyAliases: seq<string>, c: Coercions)
    : (r: Result<seq<BucketCount>, Error>)
    ensures r.Success? ==> |r.value| > 0
    ensures r.Success? ==> (
      && ExtractList(payload, listKeys).Success?
      && var items := ExtractList(payload, listKeys).value;
      && |r.value| == |items|
      && forall i :: 0 <= i < |items| ==> CountRowOf(items[i], keyAliases, c, r.value[i]))
  {
    var parse := item => CountItem(item, keyAliases);
    var conv := raw => CountRow(raw, c);
    var r := Normalize(payload, listKeys, parse, conv);
    if r.Success? then
      var items := ExtractList(payload, listKeys).value;
      assert forall i :: 0 <= i < |items| ==> CountRowOf(items[i], keyAliases, c, r.value[i]) by {
        forall i | 0 <= i < |items| {
          CountItemRow(items[i], keyAliases, c, r.value[i]);
        }
      }
      r
    else r
  }

  /** `parse_terminal_containers`: a non-empty dataset with one row per item, in
      item order, load type and bucket trimmed. */
  function ParseTerminalContainers(payload: Json, c: Coercions): (r: Result<seq<BucketCount>, Error>)
    ensures r.Success? ==> |r.value| > 0
    ensures r.Success? ==> (
      && ExtractList(payload, TerminalListKeys).Success?
      && var items := ExtractList(payload, TerminalListKeys).value;
      && |r.value| == |items|
      && forall i :: 0 <= i < |items| ==> CountRowOf(items[i], LoadTypeAliases, c, r.value[i]))
  {
    ParseCounts(payload, TerminalListKeys, LoadTypeAliases, c)
  }

  /** `parse_outgate_metrics`: a non-empty dataset with one row per item, in
      item order, status and bucket trimmed. */
  function ParseOutgateMetrics(payload: Json, c: Coercions): (r: Result<seq<BucketCount>, Error>)
    ensures r.Success? ==> |r.value| > 0
    ensures r.Success? ==> (
      && ExtractList(payload, OutgateListKeys).Success?
      && var items := ExtractList(payload, OutgateListKeys).value;
      && |r.value| == |items|
      && forall i :: 0 <= i < |items| ==> CountRowOf(items[i], StatusAliases, c, r.value[i]))
  {
    ParseCounts(payload, OutgateListKeys, StatusAliases, c)
  }

  /** `parse_berth_data`: a non-empty dataset with one row per item, in item
      order, vessel trimmed, terminal taken as the item carries it. */
  function ParseBerthData(payload: Json, c: Coercions): (r: Result<seq<BerthVisit>, Error>)
    ensures r.Success? ==> |r.value| > 0
    ensures r.Success? ==> (
      && ExtractList(payload, BerthListKeys).Success?
      && var items := ExtractList(payload, BerthListKeys).value;
      && |r.value| == |items|
      && forall i :: 0 <= i < |items| ==> BerthRowOf(items[i], c, r.value[i]))
  {
    var conv := raw => BerthRow(raw, c);
    var r := Normalize(payload, BerthListKeys, BerthItem, conv);
    if r.Success? then
      var items := ExtractList(payload, BerthListKeys).value;
      assert forall i :: 0 <= i < |items| ==> BerthRowOf(items[i], c, r.value[i]) by {
        forall i | 0 <= i < |items| {
          BerthItemRow(items[i], c, r.value[i]);
        }
      }
      r
    else r
  }
}
