/** Properties of the payload normalizer that relate several calls or whole
    payload shapes. */
module NormalizerProperties {
  import opened Wrappers
  import opened JsonValue
  import opened Errors
  import opened Transforms
  import Calendar
  import Text

  /** An object whose only key is one of the list keys, holding a list, yields that list. */
  lemma SingleWrapperYieldsList(items: seq<Json>, keys: seq<string>, k: string)
    requires k in keys
    ensures ExtractList(JObj(map[k := JArr(items)]), keys) == Success(items)
  {
    var i :| 0 <= i < |keys| && keys[i] == k;
    assert k in map[k := JArr(items)];
  }

  /** Wrapping the item list under "data" changes nothing: each normalizer gives
      the same result for `{"data": items}` as for the bare list `items`. */
  lemma DataWrapperIsTransparentForWeeks(items: seq<Json>, c: Coercions)
    ensures ParseWeeklyVolumes(JObj(map["data" := JArr(items)]), c) == ParseWeeklyVolumes(JArr(items), c)
  {
    SingleWrapperYieldsList(items, WeeklyListKeys, "data");
    OnlyTheListMatters(JObj(map["data" := JArr(items)]), JArr(items), WeeklyListKeys,
      item => WeeklyItem(item, c), raw => WeekRow(raw, c));
  }

  /** A normalizer sees nothing of the payload but the item list it locates. */
  lemma OnlyTheListMatters<R, S>(p: Json, q: Json, keys: seq<string>, parse: Json -> Result<R, Error>, conv: R -> Option<S>)
    requires ExtractList(p, keys) == ExtractList(q, keys)
    ensures Normalize(p, keys, parse, conv) == Normalize(q, keys, parse, conv)
  {
  }

  lemma DataWrapperIsTransparentForCounts(items: seq<Json>, c: Coercions)
    ensures ParseTerminalContainers(JObj(map["data" := JArr(items)]), c) == ParseTerminalContainers(JArr(items), c)
    ensures ParseOutgateMetrics(JObj(map["data" := JArr(items)]), c) == ParseOutgateMetrics(JArr(items), c)
  {
    var p := JObj(map["data" := JArr(items)]);
    SingleWrapperYieldsList(items, TerminalListKeys, "data");
    SingleWrapperYieldsList(items, OutgateListKeys, "data");
    OnlyTheListMatters(p, JArr(items), TerminalListKeys, item => CountItem(item, LoadTypeAliases), raw => CountRow(raw, c));
    OnlyTheListMatters(p, JArr(items), OutgateListKeys, item => CountItem(item, StatusAliases), raw => CountRow(raw, c));
  }

  lemma DataWrapperIsTransparentForBerths(items: seq<Json>, c: Coercions)
    ensures ParseBerthData(JObj(map["data" := JArr(items)]), c) == ParseBerthData(JArr(items), c)
  {
    SingleWrapperYieldsList(items, BerthListKeys, "data");
    OnlyTheListMatters(JObj(map["data" := JArr(items)]), JArr(items), BerthListKeys, BerthItem, raw => BerthRow(raw, c));
  }

  /** Only the top level is probed: `{"data": {"items": [...]}}` holds no list
      at the top level and is rejected, whatever the inner object holds. */
  lemma NestedWrapperIsRejected(inner: map<string, Json>, c: Coercions)
    ensures ParseWeeklyVolumes(JObj(map["data" := JObj(inner)]), c) == Failure(NotAList(WeeklyListKeys))
    ensures ParseTerminalContainers(JObj(map["data" := JObj(inner)]), c) == Failure(NotAList(TerminalListKeys))
    ensures ParseOutgateMetrics(JObj(map["data" := JObj(inner)]), c) == Failure(NotAList(OutgateListKeys))
    ensures ParseBerthData(JObj(map["data" := JObj(inner)]), c) == Failure(NotAList(BerthListKeys))
  {
    NoListAtTopLevel(inner, WeeklyListKeys);
    NoListAtTopLevel(inner, TerminalListKeys);
    NoListAtTopLevel(inner, OutgateListKeys);
    NoListAtTopLevel(inner, BerthListKeys);
  }

  lemma NoListAtTopLevel(inner: map<string, Json>, keys: seq<string>)
    ensures ExtractList(JObj(map["data" := JObj(inner)]), keys) == Failure(NotAList(keys))
  {
  }

  /** A list item is searched by element, not rejected outright: `[[]]` holds an
      item without any week alias, so the weekly normalizer fails with the
      missing-keys error. */
  lemma ListItemIsSearchedByElement(c: Coercions)
    ensures ParseWeeklyVolumes(JArr([JArr([])]), c) == Failure(MissingKeys(WeekStartAliases, JArr([])))
  {
    var items := [JArr([])];
    assert FirstFailure(items, item => WeeklyItem(item, c), 0);
  }

  /** A text item is searched by substring: "weekly" contains the alias "week",
      so indexing it by that alias fails. */
  lemma TextItemWithAliasIsIndexed()
    ensures GetRequiredKey(JStr("weekly"), WeekStartAliases) == Failure(NotAnObject(JStr("weekly")))
  {
    assert "weekly"[..4] == "week";
    assert Text.IsSubstring("week", "weekly");
    SearchedItemLookup(JStr("weekly"), WeekStartAliases);
  }

  /** The text item "x" contains no alias, so the weekly normalizer fails with
      the missing-keys error. */
  lemma TextItemWithoutAliasIsMissingKeys(c: Coercions)
    ensures ParseWeeklyVolumes(JArr([JStr("x")]), c) == Failure(MissingKeys(WeekStartAliases, JStr("x")))
  {
    SearchedItemLookup(JStr("x"), WeekStartAliases);
    assert GetRequiredKey(JStr("x"), WeekStartAliases) == Failure(MissingKeys(WeekStartAliases, JStr("x")));
    var items := [JStr("x")];
    assert FirstFailure(items, item => WeeklyItem(item, c), 0);
  }

  /** An empty item list is an error in every normalizer, never an empty dataset. */
  lemma EmptyListIsRejected(payload: Json, c: Coercions)
    ensures ExtractList(payload, WeeklyListKeys) == Success([]) ==>
      ParseWeeklyVolumes(payload, c) == Failure(NoRows)
    ensures ExtractList(payload, TerminalListKeys) == Success([]) ==>
      ParseTerminalContainers(payload, c) == Failure(NoRows)
    ensures ExtractList(payload, OutgateListKeys) == Success([]) ==>
      ParseOutgateMetrics(payload, c) == Failure(NoRows)
    ensures ExtractList(payload, BerthListKeys) == Success([]) ==>
      ParseBerthData(payload, c) == Failure(NoRows)
    ensures IsDataShapeError(NoRows)
  {
  }

  /** A field lookup failing at item `k` decides the outcome, before any numeric
      value is looked at: not even a non-numeric count in an earlier item
      changes the error. */
  lemma FirstBadItemDecides(payload: Json, c: Coercions, k: nat)
    requires ExtractList(payload, TerminalListKeys).Success?
    requires k < |ExtractList(payload, TerminalListKeys).value|
    requires CountItem(ExtractList(payload, TerminalListKeys).value[k], LoadTypeAliases).Failure?
    requires forall j :: 0 <= j < k ==>
      CountItem(ExtractList(payload, TerminalListKeys).value[j], LoadTypeAliases).Success?
    ensures ParseTerminalContainers(payload, c)
      == Failure(CountItem(ExtractList(payload, TerminalListKeys).value[k], LoadTypeAliases).error)
  {
    var items := ExtractList(payload, TerminalListKeys).value;
    assert FirstFailure(items, item => CountItem(item, LoadTypeAliases), k);
  }

  /** The weekly counterpart: a missing week alias or an unparseable date at item
      `k` is the error, whatever the inbound values are. */
  lemma FirstBadWeekDecides(payload: Json, c: Coercions, k: nat)
    requires ExtractList(payload, WeeklyListKeys).Success?
    requires k < |ExtractList(payload, WeeklyListKeys).value|
    requires WeeklyItem(ExtractList(payload, WeeklyListKeys).value[k], c).Failure?
    requires forall j :: 0 <= j < k ==> WeeklyItem(ExtractList(payload, WeeklyListKeys).value[j], c).Success?
    ensures ParseWeeklyVolumes(payload, c)
      == Failure(WeeklyItem(ExtractList(payload, WeeklyListKeys).value[k], c).error)
  {
    var items := ExtractList(payload, WeeklyListKeys).value;
    assert FirstFailure(items, item => WeeklyItem(item, c), k);
  }

  /** Once every item has its fields, one count that does not coerce rejects the
      whole dataset: no row is dropped or repaired. */
  lemma OneNonNumericRejectsAll(payload: Json, c: Coercions, k: nat)
    requires ExtractList(payload, TerminalListKeys).Success?
    requires forall j :: 0 <= j < |ExtractList(payload, TerminalListKeys).value| ==>
      CountItem(ExtractList(payload, TerminalListKeys).value[j], LoadTypeAliases).Success?
    requires k < |ExtractList(payload, TerminalListKeys).value|
    requires c.toNumber(CountItem(ExtractList(payload, TerminalListKeys).value[k], LoadTypeAliases).value.containers).None?
    ensures ParseTerminalContainers(payload, c) == Failure(NonNumeric)
  {
    var items := ExtractList(payload, TerminalListKeys).value;
    var parse := item => CountItem(item, LoadTypeAliases);
    var conv := raw => CountRow(raw, c);
    assert conv(parse(items[k]).value).None?;
  }

  /** An item with a load type and a bucket but none of the four count aliases
      fails naming all four aliases. */
  lemma MissingCountNamesAllAliases(m: map<string, Json>, loadType: string, bucket: string)
    requires "loadType" in m && m["loadType"] == JStr(loadType)
    requires "bucket" in m && m["bucket"] == JStr(bucket)
    requires forall a :: a in CountAliases ==> a !in m || m[a] == JNull
    ensures CountItem(JObj(m), LoadTypeAliases)
      == Failure(MissingKeys(["containers", "containerCount", "value", "count"], JObj(m)))
  {
    FirstAliasPresent(m, LoadTypeAliases);
    FirstAliasPresent(m, BucketAliases);
    NoAliasPresent(m, CountAliases);
    var key := TextField(JObj(m), LoadTypeAliases);
    var bucketField := TextField(JObj(m), BucketAliases);
    assert key.Success? && bucketField.Success?;
  }

  /** An object holding its first alias with a non-null value yields that value. */
  lemma FirstAliasPresent(m: map<string, Json>, keys: seq<string>)
    requires |keys| > 0 && keys[0] in m && m[keys[0]] != JNull
    ensures GetRequiredKey(JObj(m), keys) == Success(m[keys[0]])
  {
    assert FirstAccepted(m, keys, IsPresent) == Some(0);
  }

  /** An object holding none of the aliases with a non-null value fails naming them all. */
  lemma NoAliasPresent(m: map<string, Json>, keys: seq<string>)
    requires forall a :: a in keys ==> a !in m || m[a] == JNull
    ensures GetRequiredKey(JObj(m), keys) == Failure(MissingKeys(keys, JObj(m)))
  {
    assert forall i :: 0 <= i < |keys| ==> keys[i] in keys;
  }

  /** The berth terminal never makes an item fail: an item fails only for its
      vessel or its hours. */
  lemma BerthTerminalNeverFails(item: Json)
    ensures BerthItem(item).Success?
      <==> TextField(item, VesselAliases).Success? && GetRequiredKey(item, HoursAliases).Success?
    ensures BerthItem(item).Success? ==>
      (var m := item.fields;
       && (("terminal" in m && Truthy(m["terminal"])) ==> BerthItem(item).value.terminal == m["terminal"])
       && (!("terminal" in m && Truthy(m["terminal"])) ==>
             BerthItem(item).value.terminal == (if "terminalName" in m then m["terminalName"] else JNull)))
  {
  }

  /** When a normalizer succeeds: its list is located and non-empty, and every
      item has its fields and a coercible numeric value. */
  predicate AllItemsRead<R, S>(payload: Json, keys: seq<string>, parse: Json -> Result<R, Error>, conv: R -> Option<S>) {
    && ExtractList(payload, keys).Success?
    && |ExtractList(payload, keys).value| > 0
    && forall i :: 0 <= i < |ExtractList(payload, keys).value| ==>
         && parse(ExtractList(payload, keys).value[i]).Success?
         && conv(parse(ExtractList(payload, keys).value[i]).value).Some?
  }

  /** The shared procedure succeeds exactly when every item of a non-empty
      located list is read and coerced. */
  lemma NormalizeSucceedsExactly<R, S>(payload: Json, keys: seq<string>, parse: Json -> Result<R, Error>, conv: R -> Option<S>)
    ensures Normalize(payload, keys, parse, conv).Success? <==> AllItemsRead(payload, keys, parse, conv)
  {
    if AllItemsRead(payload, keys, parse, conv) {
      var items := ExtractList(payload, keys).value;
      assert forall i :: 0 <= i < |items| ==> parse(items[i]).Success?;
    }
  }

  /** Each normalizer succeeds exactly when every item of its non-empty located
      list has its fields and a coercible numeric value. */
  lemma ParsersSucceedExactly(payload: Json, c: Coercions)
    ensures ParseWeeklyVolumes(payload, c).Success? <==>
      AllItemsRead(payload, WeeklyListKeys, item => WeeklyItem(item, c), raw => WeekRow(raw, c))
    ensures ParseTerminalContainers(payload, c).Success? <==>
      AllItemsRead(payload, TerminalListKeys, item => CountItem(item, LoadTypeAliases), raw => CountRow(raw, c))
    ensures ParseOutgateMetrics(payload, c).Success? <==>
      AllItemsRead(payload, OutgateListKeys, item => CountItem(item, StatusAliases), raw => CountRow(raw, c))
    ensures ParseBerthData(payload, c).Success? <==>
      AllItemsRead(payload, BerthListKeys, BerthItem, raw => BerthRow(raw, c))
  {
    NormalizeSucceedsExactly(payload, WeeklyListKeys, item => WeeklyItem(item, c), raw => WeekRow(raw, c));
    NormalizeSucceedsExactly(payload, TerminalListKeys, item => CountItem(item, LoadTypeAliases), raw => CountRow(raw, c));
    NormalizeSucceedsExactly(payload, OutgateListKeys, item => CountItem(item, StatusAliases), raw => CountRow(raw, c));
    NormalizeSucceedsExactly(payload, BerthListKeys, BerthItem, raw => BerthRow(raw, c));
  }

  /** A boolean is an epoch-seconds value of 0 or 1, both on the first day of 1970. */
  lemma BooleanDateIsEpochDay(b: bool, c: Coercions)
    ensures ParseDate(JBool(b), c) == Success(Calendar.CivilDate(1970, 1, 1))
  {
    Calendar.FirstDayOfEpoch(if b then 1.0 else 0.0);
  }
}
