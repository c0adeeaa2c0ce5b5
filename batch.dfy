/** The integer post-processing both servers wrap around the inference call
    in `predict_batch`: the batch-size guard and the loop that turns the
    predicted ids into index-tagged results and a per-cluster count. */
module Batch {
  import opened Common

  /** One element of the response's `clusters` list: `{"index": i, "cluster": c}`. */
  datatype ClusterEntry = ClusterEntry(index: nat, cluster: int)

  /** What the loop leaves behind: the `results` list and the `cluster_count` dict. */
  datatype Tallied = Tallied(results: seq<ClusterEntry>, summary: map<int, nat>)

  /** The body of a successful batch response. */
  datatype BatchResponse = BatchResponse(total: nat, clusters: seq<ClusterEntry>, summary: map<int, nat>)

  const MaxBatch: nat := 100

  /** `not data_list or len(data_list) > 100` rejects; everything else passes. */
  function BatchSizeAccepted(n: nat): (ok: bool)
    ensures ok <==> 1 <= n <= MaxBatch
  {
    !(n == 0 || n > MaxBatch)
  }

  /** The dict the loop starts from: every known id at count 0. */
  const EmptySummary: map<int, nat> := map[0 := 0, 1 := 0, 2 := 0, 3 := 0]

  /** The literal the loop starts from is the summary of an empty batch. */
  lemma EmptySummaryIsCensus()
    ensures EmptySummary == Census([])
  {
    assert ClusterIds == {0, 1, 2, 3};
  }

  predicate AllKnown(ids: seq<int>) {
    forall i :: 0 <= i < |ids| ==> IsClusterId(ids[i])
  }

  /** Position of the first id the count dict has no key for. */
  function FirstUnknown(ids: seq<int>): (j: nat)
    requires !AllKnown(ids)
    ensures j < |ids| && !IsClusterId(ids[j])
    ensures forall k :: 0 <= k < j ==> IsClusterId(ids[k])
  {
    if !IsClusterId(ids[0]) then 0 else 1 + FirstUnknown(ids[1..])
  }

  /** Reference definition of the results list: entry i tags position i. */
  function Entries(ids: seq<int>): seq<ClusterEntry> {
    seq(|ids|, i requires 0 <= i < |ids| => ClusterEntry(i, ids[i]))
  }

  /** The cluster column of a results list. */
  function Clusters(entries: seq<ClusterEntry>): seq<int> {
    seq(|entries|, i requires 0 <= i < |entries| => entries[i].cluster)
  }

  /** Reference definition of the summary: for each known id, its multiplicity. */
  function Census(ids: seq<int>): (m: map<int, nat>)
    ensures m.Keys == ClusterIds
  {
    map c | c in ClusterIds :: multiset(ids)[c]
  }

  /** The summary is zero-filled: an id absent from the batch keeps count 0,
      and only absent ids do. */
  lemma CensusZeroFilled(ids: seq<int>, c: int)
    requires c in ClusterIds
    ensures Census(ids)[c] == 0 <==> c !in ids
  {
  }

  /** `sum(summary.values())`. */
  function SummaryTotal(m: map<int, nat>): nat
    requires ClusterIds <= m.Keys
  {
    m[0] + m[1] + m[2] + m[3]
  }

  /** A response whose parts agree with each other: one entry per counted id,
      entries tagged with their positions, and the summary counting the
      entries' clusters and adding up to the total. */
  predicate Consistent(resp: BatchResponse) {
    && |resp.clusters| == resp.total
    && (forall i :: 0 <= i < |resp.clusters| ==> resp.clusters[i].index == i)
    && resp.summary.Keys == ClusterIds
    && (forall c :: c in resp.summary ==> resp.summary[c] == multiset(Clusters(resp.clusters))[c])
    && SummaryTotal(resp.summary) == resp.total
  }

  /** The loop of `predict_batch`. `cluster_count[cluster] += 1` raises KeyError
      for an id outside the dict, which aborts the loop with no partial result. */
  method Tally(ids: seq<int>) returns (r: Result<Tallied, Raised>)
    ensures r.Ok? <==> AllKnown(ids)
    ensures r.Ok? ==> r.value.results == Entries(ids) && r.value.summary == Census(ids)
    ensures r.Err? ==> !AllKnown(ids) && r.error == KeyError(ids[FirstUnknown(ids)])
  {
    var results: seq<ClusterEntry> := [];
    var count: map<int, nat> := EmptySummary;
    EmptySummaryIsCensus();
    var i := 0;
    while i < |ids|
      invariant 0 <= i <= |ids|
      invariant AllKnown(ids[..i])
      invariant results == Entries(ids[..i])
      invariant count == Census(ids[..i])
    {
      var c := ids[i];
      if c !in count {
        FirstUnknownIs(ids, i);
        return Err(KeyError(c));
      }
      count := count[c := count[c] + 1];
      results := results + [ClusterEntry(i, c)];
      StepKeepsTally(ids[..i], c);
      assert ids[..i + 1] == ids[..i] + [c];
      i := i + 1;
    }
    assert ids[..i] == ids;
    return Ok(Tallied(results, count));
  }

  /** What one iteration of the loop establishes about the processed prefix. */
  lemma StepKeepsTally(done: seq<int>, c: int)
    requires AllKnown(done) && IsClusterId(c)
    ensures AllKnown(done + [c])
    ensures Entries(done + [c]) == Entries(done) + [ClusterEntry(|done|, c)]
    ensures Census(done + [c]) == Census(done)[c := Census(done)[c] + 1]
  {
    CensusSnoc(done, c);
  }

  /** The first id outside 0..3 is the one the loop stops at. */
  lemma FirstUnknownIs(ids: seq<int>, j: nat)
    requires j < |ids| && !IsClusterId(ids[j])
    requires AllKnown(ids[..j])
    ensures !AllKnown(ids) && FirstUnknown(ids) == j
  {
    assert forall k :: 0 <= k < j ==> ids[..j][k] == ids[k];
  }

  /** One step of the loop: a known id adds one at its own key and nowhere else. */
  lemma CensusSnoc(ids: seq<int>, c: int)
    requires IsClusterId(c)
    ensures Census(ids + [c]) == Census(ids)[c := Census(ids)[c] + 1]
  {
    var before, after := Census(ids), Census(ids + [c]);
    assert multiset(ids + [c]) == multiset(ids) + multiset{c};
    forall d | d in ClusterIds ensures after[d] == before[c := before[c] + 1][d] {
    }
  }

  /** The four known ids account for every position of a sequence of known ids. */
  lemma {:induction false} KnownCountsTotal(ids: seq<int>)
    requires AllKnown(ids)
    ensures multiset(ids)[0] + multiset(ids)[1] + multiset(ids)[2] + multiset(ids)[3] == |ids|
  {
    if ids != [] {
      var rest := ids[1..];
      assert ids == [ids[0]] + rest;
      assert multiset(ids) == multiset{ids[0]} + multiset(rest);
      assert AllKnown(rest) by {
        forall k | 0 <= k < |rest| ensures IsClusterId(rest[k]) {
          assert rest[k] == ids[k + 1];
        }
      }
      KnownCountsTotal(rest);
    }
  }

  /** When every id is known, the summary counts add up to the number of ids. */
  lemma CensusTotal(ids: seq<int>)
    requires AllKnown(ids)
    ensures SummaryTotal(Census(ids)) == |ids|
  {
    KnownCountsTotal(ids);
  }

  /** The results list keeps the input order: its cluster column is the input. */
  lemma EntriesPreserveOrder(ids: seq<int>)
    ensures |Entries(ids)| == |ids|
    ensures Clusters(Entries(ids)) == ids
    ensures forall i :: 0 <= i < |ids| ==> Entries(ids)[i].index == i
  {
  }

  /** What a batch of `total` rows with predictions `ids` returns is consistent
      when the predictor gave one known id per row. */
  lemma TallyResponseConsistent(total: nat, ids: seq<int>)
    requires |ids| == total && AllKnown(ids)
    ensures Consistent(BatchResponse(total, Entries(ids), Census(ids)))
  {
    EntriesPreserveOrder(ids);
    CensusTotal(ids);
  }

  /** Without one id per row the source's `total` (the row count) and the
      summary (the id count) disagree: the row-count assumption is needed. */
  lemma TotalNeedsOneIdPerRow(total: nat, ids: seq<int>)
    requires AllKnown(ids)
    ensures SummaryTotal(Census(ids)) == total <==> |ids| == total
  {
    CensusTotal(ids);
  }
}
