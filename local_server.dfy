/** The local-disk server (K-Means loaded from files): `predict_cluster` and
    `predict_batch` around an opaque predictor. */
module LocalServer {
  import opened Common
  import opened Batch
  import opened Labels

  /** `ClusterResponse`: this variant also returns a confidence. */
  datatype ClusterResponse = ClusterResponse(cluster: int, clusterName: string, confidence: real, description: string)

  const BatchSizeDetail: string := "Proporcionar entre 1 y 100 registros"
  const SinglePrefix: string := "Error en predicci\U{F3}n: "
  const BatchPrefix: string := "Error en predicci\U{F3}n por lote: "

  /** `predict_cluster`: predict one row, look the id up in both tables, and
      turn any exception into a 400. `confidenceOf` stands for the
      distance-based confidence, which is floating-point and not modelled. */
  function PredictCluster(data: DepartmentData, infer: seq<DepartmentData> -> Inference,
                          confidenceOf: DepartmentData -> real): (r: Result<ClusterResponse, HttpError>)
    ensures r.Ok? <==> Assign(infer, data).Ok? && IsClusterId(Assign(infer, data).value)
    ensures r.Ok? ==> var c := Assign(infer, data).value;
      r.value == ClusterResponse(c, ClusterNames[c], confidenceOf(data), LocalDescriptions[c])
    ensures Assign(infer, data).Err? ==>
      r == Err(HttpError(BadRequest, SinglePrefix + Message(Assign(infer, data).error)))
    ensures Assign(infer, data).Ok? && !IsClusterId(Assign(infer, data).value) ==>
      r == Err(HttpError(BadRequest, SinglePrefix + IntToString(Assign(infer, data).value)))
  {
    match Assign(infer, data)
    case Err(e) => Err(HttpError(BadRequest, SinglePrefix + Message(e)))
    case Ok(c) =>
      TablesCoverClusterIds(c);
      var confidence := confidenceOf(data);
      match Lookup(ClusterNames, c)
      case Err(e) => Err(HttpError(BadRequest, SinglePrefix + Message(e)))
      case Ok(name) =>
        match Lookup(LocalDescriptions, c)
        case Err(e) => Err(HttpError(BadRequest, SinglePrefix + Message(e)))
        case Ok(description) => Ok(ClusterResponse(c, name, confidence, description))
  }

  /** `predict_batch`: the size guard runs before the predictor is consulted;
      inside the `try`, an inference failure or an unknown id discards
      everything and becomes a 400. */
  method PredictBatch(rows: seq<DepartmentData>, infer: seq<DepartmentData> -> Inference)
    returns (r: Result<BatchResponse, HttpError>)
    ensures !BatchSizeAccepted(|rows|) ==> r == Err(HttpError(BadRequest, BatchSizeDetail))
    ensures BatchSizeAccepted(|rows|) && infer(rows).InferenceFailed? ==>
      r == Err(HttpError(BadRequest, BatchPrefix + infer(rows).cause))
    ensures BatchSizeAccepted(|rows|) && infer(rows).Predicted? ==>
      var ids := infer(rows).ids;
      && (r.Ok? <==> AllKnown(ids))
      && (r.Ok? ==> r.value == BatchResponse(|rows|, Entries(ids), Census(ids)))
      && (r.Err? ==> r.error == HttpError(BadRequest, BatchPrefix + IntToString(ids[FirstUnknown(ids)])))
  {
    if !BatchSizeAccepted(|rows|) {
      return Err(HttpError(BadRequest, BatchSizeDetail));
    }
    match infer(rows) {
      case InferenceFailed(cause) =>
        r := Err(HttpError(BadRequest, BatchPrefix + Message(Failed(cause))));
      case Predicted(ids) =>
        var tally := Tally(ids);
        match tally {
          case Err(e) =>
            r := Err(HttpError(BadRequest, BatchPrefix + Message(e)));
          case Ok(t) =>
            r := Ok(BatchResponse(|rows|, t.results, t.summary));
        }
    }
  }

  /** Batch and single paths agree under a row-wise predictor: row i succeeds
      alone exactly when its id is known, and then gets the id the batch
      reports at index i. */
  lemma BatchAgreesWithSingle(rows: seq<DepartmentData>, ids: seq<int>,
                              infer: seq<DepartmentData> -> Inference, confidenceOf: DepartmentData -> real)
    requires RowWise(infer, rows, ids)
    ensures forall i :: 0 <= i < |rows| ==>
      (PredictCluster(rows[i], infer, confidenceOf).Ok? <==> IsClusterId(ids[i]))
    ensures AllKnown(ids) ==> forall i :: 0 <= i < |rows| ==>
      PredictCluster(rows[i], infer, confidenceOf).Ok? &&
      PredictCluster(rows[i], infer, confidenceOf).value.cluster == Entries(ids)[i].cluster
  {
    forall i | 0 <= i < |rows|
      ensures Assign(infer, rows[i]) == Ok(ids[i])
    {
      assert infer([rows[i]]) == Predicted([ids[i]]);
    }
  }

  /** A successful single prediction carries the table entries of its id,
      and the name alone tells which cluster it was. */
  lemma SingleLabelsMatchCluster(data: DepartmentData, infer: seq<DepartmentData> -> Inference,
                                 confidenceOf: DepartmentData -> real)
    requires PredictCluster(data, infer, confidenceOf).Ok?
    ensures var resp := PredictCluster(data, infer, confidenceOf).value;
      && IsClusterId(resp.cluster)
      && resp.cluster == Assign(infer, data).value
      && forall c :: c in ClusterNames && ClusterNames[c] == resp.clusterName ==> c == resp.cluster
  {
    var resp := PredictCluster(data, infer, confidenceOf).value;
    forall c | c in ClusterNames && ClusterNames[c] == resp.clusterName
      ensures c == resp.cluster
    {
      if c != resp.cluster {
        NamesDistinct(c, resp.cluster);
      }
    }
  }
}
