/** The records `predict` builds, one per candidate route, and the choice of the
    one to recommend: `min(range(n), key=duration)` and the flag set on it. */
module Ranking {
  import opened Common

  /** One entry of `routes_analysis`. `recommended` false stands for the key
      being absent, as it is on every record but the chosen one. */
  datatype RouteRecord = RouteRecord(
    summary: string,
    googleDurationText: string,
    customDurationSec: real,
    predictedSpeed: real,
    polyline: string,
    recommended: bool)

  function Durations(records: seq<RouteRecord>): (ds: seq<real>)
    ensures |ds| == |records|
    ensures forall i :: 0 <= i < |records| ==> ds[i] == records[i].customDurationSec
  {
    seq(|records|, i requires 0 <= i < |records| => records[i].customDurationSec)
  }

  /** `k` is where the first smallest value of `ds` sits. */
  ghost predicate IsFirstMinimum(ds: seq<real>, k: int)
  {
    && 0 <= k < |ds|
    && (forall j :: 0 <= j < |ds| ==> ds[k] <= ds[j])
    && (forall j :: 0 <= j < k ==> ds[j] > ds[k])
  }

  /** Python's `min` over the indices: it scans left to right and moves to a new
      index only on a strictly smaller value, so ties go to the lowest index. */
  function FirstMinIndex(ds: seq<real>): (k: nat)
    requires |ds| > 0
    ensures IsFirstMinimum(ds, k)
  {
    if |ds| == 1 then 0
    else
      var k' := FirstMinIndex(ds[..|ds| - 1]);
      if ds[|ds| - 1] < ds[k'] then |ds| - 1 else k'
  }

  /** The first minimum is unique: any index with its two properties is the one
      `FirstMinIndex` returns. */
  lemma FirstMinimumIsUnique(ds: seq<real>, k: int)
    requires IsFirstMinimum(ds, k)
    ensures k == FirstMinIndex(ds)
  {
  }

  /** `routes_analysis[k]['recommended'] = True`. */
  function Recommend(records: seq<RouteRecord>, k: nat): (out: seq<RouteRecord>)
    requires k < |records|
    ensures |out| == |records|
    ensures out[k] == records[k].(recommended := true)
    ensures forall j :: 0 <= j < |records| && j != k ==> out[j] == records[j]
  {
    records[k := records[k].(recommended := true)]
  }

  /** Pick the first fastest record and flag it. Over no records Python's `min`
      raises, which is `None` here. */
  function Rank(records: seq<RouteRecord>): (ranked: Option<seq<RouteRecord>>)
    ensures ranked.None? <==> |records| == 0
    ensures ranked.Some? ==> |ranked.value| == |records|
  {
    if |records| == 0 then None
    else Some(Recommend(records, FirstMinIndex(Durations(records))))
  }

  /** The ranking step of `predict`: find the first fastest record with `min` and
      set its flag in the list. */
  method FlagFastest(records: seq<RouteRecord>) returns (ranked: seq<RouteRecord>)
    requires |records| > 0
    ensures Rank(records) == Some(ranked)
  {
    var best := FirstMinIndex(Durations(records));
    ranked := records[best := records[best].(recommended := true)];
  }

  /** The indices of the flagged records. */
  function RecommendedIndices(records: seq<RouteRecord>): set<int>
  {
    set j | 0 <= j < |records| && records[j].recommended
  }

  /** Over records none of which is yet recommended, ranking flags exactly one
      record, the first of least duration, and changes nothing else in any record. */
  lemma RankFlagsFirstFastest(records: seq<RouteRecord>)
    requires |records| > 0
    requires forall j :: 0 <= j < |records| ==> !records[j].recommended
    ensures Rank(records).Some?
    ensures Durations(Rank(records).value) == Durations(records)
    ensures forall j :: 0 <= j < |records| ==>
      (Rank(records).value[j].recommended <==> IsFirstMinimum(Durations(records), j))
    ensures forall j :: 0 <= j < |records| ==>
      Rank(records).value[j].(recommended := false) == records[j]
    ensures |RecommendedIndices(Rank(records).value)| == 1
  {
    var ds := Durations(records);
    var ranked := Rank(records).value;
    var k := FirstMinIndex(ds);
    assert Durations(ranked) == ds;
    forall j | 0 <= j < |records|
      ensures ranked[j].recommended <==> IsFirstMinimum(ds, j)
    {
      if IsFirstMinimum(ds, j) {
        FirstMinimumIsUnique(ds, j);
      }
    }
    assert RecommendedIndices(ranked) == {k} by {
      forall j | j in RecommendedIndices(ranked) ensures j == k {
        FirstMinimumIsUnique(ds, j);
      }
    }
  }

  /** Hence the flagged record is at least as fast as every other, and every
      record before it is strictly slower. */
  lemma RecommendedIsFastest(records: seq<RouteRecord>, k: nat)
    requires forall j :: 0 <= j < |records| ==> !records[j].recommended
    requires k < |records| && Rank(records).value[k].recommended
    ensures forall j :: 0 <= j < |records| ==> records[k].customDurationSec <= records[j].customDurationSec
    ensures forall j :: 0 <= j < k ==> records[j].customDurationSec > records[k].customDurationSec
  {
    RankFlagsFirstFastest(records);
  }
}
