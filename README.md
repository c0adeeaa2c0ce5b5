# Honduras socioeconomic clustering API — the request post-processing

The service classifies Honduran departments into four development clusters
with a pre-trained K-Means model. It comes in two variants: `main.py` loads
the model from local disk, and `main_onnx.py` runs an ONNX export fetched into
memory. The scaling, the inference and the HTTP plumbing are foreign code. This
project models the logic that both variants wrap around the inference call:

- **Batch-size guard.** `predict_batch` accepts 1 to 100 records. It rejects
  every other size with a 400 before any scaling or inference happens.
- **Batch tally.** A loop walks the predicted ids and builds the index-tagged
  `results` list in input order. It also increments a `cluster_count` dict
  that starts at `{0: 0, 1: 0, 2: 0, 3: 0}`. An id outside the dict raises
  `KeyError`. The surrounding `except` turns that into a 400 with no partial
  result.
- **Label lookup.** `predict_cluster` maps the predicted id through a fixed
  4-entry name table and a 4-entry description table. An unknown id raises,
  and the handler reports a 400.

Layout:

- `common.dfy` (`Common`) holds the shared vocabulary. It defines the request
  row, the predictor's outcome (`Inference`), the Python exceptions
  (`Raised`), their `str(e)` text, and the single-row assignment
  `int(predict(X)[0])`.
- `batch.dfy` (`Batch`) holds the guard and the imperative `Tally` method,
  which is shared by both variants. It also holds the reference definitions
  `Entries` (position-tagged ids) and `Census` (multiset counts), and the
  lemmas about them.
- `labels.dfy` (`Labels`) holds the name table, which is the same in both
  variants, and the two description tables.
- `local_server.dfy` (`LocalServer`) and `onnx_server.dfy` (`OnnxServer`)
  hold each variant's `predict_cluster` and `predict_batch`, with that
  variant's messages.

The predictor is a parameter, `infer: seq<DepartmentData> -> Inference`. It
stands for scaling plus `kmeans.predict` or `sess.run`: it either yields a
sequence of ids or fails with a message. The model fixes k = 4, as the code
does.

## Model

| member | source | states |
|---|---|---|
| `Batch.BatchSizeAccepted` | main.py:176-177 | a batch passes the guard exactly when it holds 1 to 100 records, so 1 and 100 pass while 0 and 101 are rejected |
| `Batch.Census` | main.py:195 | the summary's keys are exactly {0,1,2,3}, whatever the predictions |
| `Batch.CensusZeroFilled` | main.py:195-199 | an id absent from the batch keeps count 0, and every id present has a positive count |
| `Batch.EmptySummaryIsCensus` | main.py:195 | the literal `{0: 0, 1: 0, 2: 0, 3: 0}` the loop starts from is exactly the summary of an empty prediction sequence |
| `Batch.FirstUnknown` | main.py:197-199 | gives the position where the loop raises: the first id outside 0..3, with every earlier id known |
| `Batch.Tally` | main.py:194-200 | the loop succeeds exactly when every id is in 0..3. On success, `results` tags entry i with index i and `clusters[i]`, and the summary gives each c in 0..3 its number of occurrences. Otherwise it raises KeyError for the first unknown id |
| `Batch.FirstUnknownIs` | main_onnx.py:183-185 | the id the loop stops at is the first unknown id of the whole sequence |
| `Batch.StepKeepsTally` | main.py:197-200 | one iteration with a known id keeps the loop's invariant: every processed id is known, `results` gains the entry tagged with the next index, and only that id's count grows |
| `Batch.CensusSnoc` | main_onnx.py:181-185 | one loop step adds 1 at the key of the processed id and changes no other count |
| `Batch.KnownCountsTotal` | main_onnx.py:181-191 | when every predicted id is in 0..3, the occurrences of 0, 1, 2 and 3 add up to the number of predictions |
| `Batch.CensusTotal` | main.py:195-205 | when every id is in 0..3, the summary counts add up to the number of predictions |
| `Batch.EntriesPreserveOrder` | main.py:197-200 | the results list has one entry per prediction, its cluster column is the prediction sequence in order, and entry i has index i |
| `Batch.TallyResponseConsistent` | main.py:202-206 | with one known id per row, the response has `total` entries tagged 0..total-1, and its summary counts the entries' clusters and sums to `total` |
| `Batch.TotalNeedsOneIdPerRow` | main_onnx.py:178-189 | `total` is the row count while the summary counts predictions, so the summary sums to `total` exactly when the predictor returned one id per row |
| `Labels.Lookup` | main.py:163-165 | indexing a table gives the entry when the id is a key, and otherwise raises a KeyError carrying the id |
| `Labels.TablesCoverClusterIds` | main.py:147-159 | the name table and both description tables succeed exactly for ids 0..3. Any other id raises KeyError carrying that id |
| `Labels.NamesDistinct` | main.py:147-152 | no two clusters share a display name |
| `Common.Assign` | main.py:139 | a single prediction yields an id exactly when the predictor returns a non-empty array, and the id is its first element. A predictor failure is passed on as the exception |
| `Common.Message` | main.py:169 | the text `str(e)` placed after the 400 prefix; for a KeyError it is the id's decimal text, from which the id can be read back |
| `Common.IntToString` | main.py:208-209 | `repr` of an id as it appears in a KeyError's text: non-empty, and starting with '-' exactly when the id is negative |
| `Common.IntToStringRoundTrip` | main.py:168-169 | the KeyError text `str(e)` in an error detail is the decimal id, and it parses back to that id |
| `Common.NatToStringRoundTrip` | main.py:208-209 | the decimal digits of a non-negative id parse back to the id |
| `LocalServer.PredictCluster` | main.py:121-169 | succeeds exactly when the predictor gives an id in 0..3. It then returns that id, its name and its local description from the fixed tables, plus the confidence. Otherwise it returns a 400 "Error en predicción: " followed by the exception text, which is the id itself for an unknown id |
| `LocalServer.PredictBatch` | main.py:171-209 | an empty batch or one over 100 gets a 400 "Proporcionar entre 1 y 100 registros" whatever the predictor would do. An inference failure or an unknown id gets a 400 "Error en predicción por lote: …" with no partial result. Otherwise `total` is the number of records, `clusters` are the index-tagged ids in order, and `summary` holds the per-cluster counts |
| `LocalServer.BatchAgreesWithSingle` | main.py:191-200 | when the predictor works row by row, row i alone succeeds exactly when its batch id is known, and then gets the cluster the batch reports at index i |
| `LocalServer.SingleLabelsMatchCluster` | main.py:161-166 | a successful single response carries an id in 0..3, namely the predicted one, and its name identifies that id |
| `OnnxServer.PredictCluster` | main_onnx.py:127-161 | succeeds exactly when the predictor gives an id in 0..3. It then returns the id, its name and its ONNX description, with no confidence field. Otherwise it returns a 400 "Error: " followed by the exception text |
| `OnnxServer.PredictBatch` | main_onnx.py:163-194 | an empty batch or one over 100 gets a 400 "Entre 1 y 100 registros" whatever the predictor would do. An inference failure or an unknown id gets a 400 "Error: …" with no partial result. Otherwise `total`, the index-tagged ids and the counts are returned as in the local variant |
| `OnnxServer.BatchAgreesWithSingle` | main_onnx.py:177-186 | when the predictor works row by row, the single path and the batch path agree on every row's id and on which rows fail |
| `OnnxServer.AgreesWithLocalServer` | main_onnx.py:141-159 | given the same predictor, both variants accept the same single requests and return the same id and name |

## Left out

- `LocalServer.PredictCluster`: the confidence is an opaque input (`confidenceOf`). The model does not compute `1 / (1 + distance)`, because it is floating-point. The source also takes the distance to centroid 0 rather than to the assigned centroid, so no property is claimed about it.
- Feature scaling `(x - mean) / scale` is folded into the predictor parameter. Both the sklearn scaler and the numpy float32 arithmetic are floating-point.
- `kmeans.predict` and `sess.run` are foreign calls. The model treats them as the opaque parameter `infer`, and every exception they raise becomes `InferenceFailed(cause)`.
- The order in which the eight fields are assembled into a matrix row is hard-coded and never checked, so there is nothing to verify. The model passes the records to the predictor as they are.
- Pydantic request validation (missing or non-float fields) happens before the handlers run and is not modelled.
- Response serialisation is not modelled. `summary` is declared `Dict[str, int]`, but the handlers build it with integer keys, and whether those keys are coerced or rejected depends on the pydantic version. The model keeps the integer keys the handlers build.
- FastAPI routing, CORS, and the `/`, `/health` and `/info` endpoints are framework plumbing.
- Loading artifacts at startup from disk, environment variables or HTTP is I/O done at import time.
- `clustering_client.py` is an HTTP client wrapper, and `export_scaler_params.py` does file I/O and a floating-point comparison. Neither is part of this model.
- The numeric types numpy returns (int32 or int64 ids) are modelled as unbounded integers. Both handlers convert with `int(...)` before using an id.
- A single prediction whose predictor returns an empty array raises numpy's IndexError. The model uses numpy's message for that case. A differently shaped ONNX output that fails earlier is folded into `InferenceFailed`.
