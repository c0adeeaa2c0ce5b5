/** The ONNX server (model and scaler parameters fetched into memory):
    `predict_cluster` and `predict_batch` around an opaque predictor. Same
    guard and tally as the local server; no confidence, shorter messages. */
module OnnxServer {
  import opened Common
  import opened Batch
  import opened Labels
  import LocalServer

  /** `ClusterResponse` of this variant: no confidence field. */
  datatype ClusterResponse = ClusterResponse(cluster: int, clusterName: string, description: string)

  const BatchSizeDetail: string := "Entre 1 y 100 registros"
  const ErrorPrefix: string := "Error: "

  /** `predict_cluster`: predict one row, look the id up in both tables, and
      turn any exception into a 400. */
  function PredictCluster(data: DepartmentData, infer: seq<DepartmentData> -> Inference): (r: Result<ClusterResponse, HttpError>)
    ensures r.Ok? <==> Assign(infer, data).Ok? && IsClusterId(Assign(infer, data).value)
    ensures r.Ok? ==> var c := Assign(infer, data).value;
      r.value == ClusterResponse(c, ClusterNames[c], OnnxDescriptions[c])
    ensures Assign(infer, data).Err? ==>
      r == Err(HttpError(BadRequest, ErrorPrefix + Message(Assign(infer, data).error)))
    ensures Assign(infer, data).Ok? && !IsClusterId(Assign(infer, data).value) ==>
      r == Err(HttpError(BadRequest, ErrorPrefix + IntToString(Assign(infer, data).value)))
  {
    match Assign(infer, data)
    case Err(e) => Err(HttpError(BadRequest, ErrorPrefix + Message(e)))
    case Ok(c) =>
      TablesCoverClusterIds(c);
      match Lookup(ClusterNames, c)
      case Err(e) => Err(HttpError(BadRequest, ErrorPrefix + Message(e)))
      case Ok(name) =>
        match Lookup(OnnxDescriptions, c)
        case Err(e) => Err(HttpError(BadRequest, ErrorPrefix + Message(e)))
        case Ok(description) => Ok(ClusterResponse(c, name, description))
  }

  /** `predict_batch`: the size guard runs before the predictor is consulted;
      inside the `try`, an inference failure or an unknown id discards
      everything and becomes a 400. `ids` is the flattened engine output. */
  method PredictBatch(rows: seq<DepartmentData>, infer: seq<DepartmentData> -> Inference)
    returns (r: Result<BatchResponse, HttpError>)
    ensures !BatchSizeAccepted(|rows|) ==> r == Err(HttpError(BadRequest, BatchSizeDetail))
    ensures BatchSizeAccepted(|rows|) && infer(rows).InferenceFailed? ==>
      r == Err(HttpError(BadRequest, ErrorPrefix + infer(rows).cause))
    ensures BatchSizeAccepted(|rows|) && infer(rows).Predicted? ==>
      var ids := infer(rows).ids;
      && (r.Ok? <==> AllKnown(ids))
      && (r.Ok? ==> r.value == BatchResponse(|rows|, Entries(ids), Census(ids)))
      && (r.Err? ==> r.error == HttpError(BadRequest, ErrorPrefix + IntToString(ids[FirstUnknown(ids)])))
  {
    if !BatchSizeAccepted(|rows|) {
      return Err(HttpError(BadRequest, BatchSizeDetail));
    }
    match infer(rows) {
      case InferenceFailed(cause) =>
        r := Err(HttpError(BadRequest, ErrorPrefix + Message(Failed(cause))));
      case Predicted(ids) =>
        var tally := Tally(ids);
        match tally {
          case Err(e) =>
            r := Err(HttpError(BadRequest, ErrorPrefix + Message(e)));
          case Ok(t) =>
            r := Ok(BatchResponse(|rows|, t.results, t.summary));
        }
    }
  }

  /** Batch and single paths agree under a row-wise predictor: row i succeeds
      alone exactly when its id is known, and then gets the id the batch
      reports at index i. */
  lemma BatchAgreesWithSingle(rows: seq<DepartmentData>, ids: seq<int>, infer: seq<DepartmentData> -> Inference)
    requires RowWise(infer, rows, ids)
    ensures forall i :: 0 <= i < |rows| ==>
      (PredictCluster(rows[i], infer).Ok? <==> IsClusterId(ids[i]))
    ensures AllKnown(ids) ==> forall i :: 0 <= i < |rows| ==>
      PredictCluster(rows[i], infer).Ok? && PredictCluster(rows[i], infer).value.cluster == Entries(ids)[i].cluster
  {
    forall i | 0 <= i < |rows|
      ensures Assign(infer, rows[i]) == Ok(ids[i])
    {
      assert infer([rows[i]]) == Predicted([ids[i]]);
    }
  }

  /** Given the same predictor, the two variants accept and reject the same
      single requests and agree on the id and the name; only the description
      wording and the confidence field differ. */
  lemma AgreesWithLocalServer(data: DepartmentData, infer: seq<DepartmentData> -> Inference,
                              confidenceOf: DepartmentData -> real)
    ensures PredictCluster(data, infer).Ok? <==> LocalServer.PredictCluster(data, infer, confidenceOf).Ok?
    ensures PredictCluster(data, infer).Ok? ==>
      var onnx := PredictCluster(data, infer).value;
      var local := LocalServer.PredictCluster(data, infer, confidenceOf).value;
      onnx.cluster == local.cluster && onnx.clusterName == local.clusterName
  {
  }
}
