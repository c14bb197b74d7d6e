/** `DataFrame.groupby(key)` followed by per-group sums of a container count,
    once over the whole group and once over the rows whose bucket is in a
    configured list. Groups come out in ascending key order, as `groupby`
    sorts its keys by default. */
module Grouping {
  import opened Text
  import Transforms

  type BucketCount = Transforms.BucketCount

  /** One group: its key, all of its containers and those in flagged buckets. */
  datatype GroupTotal = GroupTotal(key: string, total: real, flagged: real)

  datatype Totals = Totals(total: real, flagged: real)

  function KeySet(rows: seq<BucketCount>): set<string> {
    set i | 0 <= i < |rows| :: rows[i].key
  }

  /** Containers of the rows with key `k`. */
  function KeyTotal(rows: seq<BucketCount>, k: string): real {
    if |rows| == 0 then 0.0
    else KeyTotal(rows[..|rows| - 1], k) + (if rows[|rows| - 1].key == k then rows[|rows| - 1].containers else 0.0)
  }

  /** Containers of the rows with key `k` whose bucket is one of `buckets` (`isin`). */
  function FlaggedTotal(rows: seq<BucketCount>, k: string, buckets: seq<string>): real {
    if |rows| == 0 then 0.0
    else
      var last := rows[|rows| - 1];
      FlaggedTotal(rows[..|rows| - 1], k, buckets) + (if last.key == k && last.bucket in buckets then last.containers else 0.0)
  }

  /** Both sums for every key, accumulated in one pass over the rows. */
  function Tally(rows: seq<BucketCount>, buckets: seq<string>): (m: map<string, Totals>)
    ensures m.Keys == KeySet(rows)
    ensures forall k :: k in m ==> m[k] == Totals(KeyTotal(rows, k), FlaggedTotal(rows, k, buckets))
    ensures forall k :: k !in m ==> KeyTotal(rows, k) == 0.0 && FlaggedTotal(rows, k, buckets) == 0.0
  {
    if |rows| == 0 then map[]
    else
      var prefix := rows[..|rows| - 1];
      var last := rows[|rows| - 1];
      var m := Tally(prefix, buckets);
      var before := if last.key in m then m[last.key] else Totals(0.0, 0.0);
      var added := if last.bucket in buckets then last.containers else 0.0;
      assert KeySet(rows) == KeySet(prefix) + {last.key} by {
        assert forall i :: 0 <= i < |prefix| ==> prefix[i] == rows[i];
      }
      m[last.key := Totals(before.total + last.containers, before.flagged + added)]
  }

  /** The distinct keys in ascending order. */
  function DistinctKeys(rows: seq<BucketCount>): (r: seq<string>)
    ensures StrictlySorted(r)
    ensures forall k :: k in r <==> k in KeySet(rows)
  {
    if |rows| == 0 then []
    else
      var prefix := rows[..|rows| - 1];
      assert KeySet(rows) == KeySet(prefix) + {rows[|rows| - 1].key} by {
        assert forall i :: 0 <= i < |prefix| ==> prefix[i] == rows[i];
      }
      InsertKey(DistinctKeys(prefix), rows[|rows| - 1].key)
  }

  function GroupRows(keys: seq<string>, m: map<string, Totals>): (r: seq<GroupTotal>)
    requires forall k :: k in keys ==> k in m
    ensures |r| == |keys|
    ensures forall i :: 0 <= i < |r| ==> r[i] == GroupTotal(keys[i], m[keys[i]].total, m[keys[i]].flagged)
  {
    if |keys| == 0 then []
    else [GroupTotal(keys[0], m[keys[0]].total, m[keys[0]].flagged)] + GroupRows(keys[1..], m)
  }

  /** The keys of the groups, in table order. */
  function GroupKeys(groups: seq<GroupTotal>): (r: seq<string>)
    ensures |r| == |groups|
    ensures forall i :: 0 <= i < |groups| ==> r[i] == groups[i].key
  {
    seq(|groups|, i requires 0 <= i < |groups| => groups[i].key)
  }

  /** One row per distinct key, ascending by key, with the group's sums. */
  function GroupBy(rows: seq<BucketCount>, buckets: seq<string>): (r: seq<GroupTotal>)
    ensures |r| == 0 <==> |rows| == 0
    ensures StrictlySorted(GroupKeys(r))
    ensures forall k :: k in GroupKeys(r) <==> k in KeySet(rows)
    ensures forall i :: 0 <= i < |r| ==>
      r[i].total == KeyTotal(rows, r[i].key) && r[i].flagged == FlaggedTotal(rows, r[i].key, buckets)
  {
    var m := Tally(rows, buckets);
    var keys := DistinctKeys(rows);
    assert |rows| > 0 ==> rows[0].key in KeySet(rows);
    var r := GroupRows(keys, m);
    assert GroupKeys(r) == keys;
    assert forall i :: 0 <= i < |r| ==>
      r[i].total == KeyTotal(rows, r[i].key) && r[i].flagged == FlaggedTotal(rows, r[i].key, buckets) by {
      forall i | 0 <= i < |r|
        ensures r[i].total == KeyTotal(rows, r[i].key) && r[i].flagged == FlaggedTotal(rows, r[i].key, buckets)
      {
        assert keys[i] in m;
      }
    }
    r
  }

  lemma {:induction false} FlaggedWithinTotal(rows: seq<BucketCount>, k: string, buckets: seq<string>)
    requires forall i :: 0 <= i < |rows| ==> rows[i].containers >= 0.0
    ensures 0.0 <= FlaggedTotal(rows, k, buckets) <= KeyTotal(rows, k)
    decreases |rows|
  {
    if |rows| > 0 {
      FlaggedWithinTotal(rows[..|rows| - 1], k, buckets);
    }
  }

  /** `part / total if total else 0.0`. */
  function Share(part: real, total: real): (r: real)
    ensures total == 0.0 ==> r == 0.0
    ensures total != 0.0 ==> r * total == part
  {
    if total != 0.0 then part / total else 0.0
  }

  /** A share of a non-negative total is a fraction between 0 and 1. */
  lemma ShareIsFraction(part: real, total: real)
    requires 0.0 <= part <= total
    ensures 0.0 <= Share(part, total) <= 1.0
  {
  }
}
