/** Vocabulary shared by both server variants: the request schema, what the
    opaque inference adapter can produce, the Python exceptions the handlers
    catch, and the text `str(e)` gives for them. */
module Common {

  datatype Result<+T, +E> = Ok(value: T) | Err(error: E)

  /** The model is fixed at k = 4 clusters, as both servers hard-code it. */
  const ClusterCount: nat := 4

  /** The ids the model can emit, as a set and as a test. */
  const ClusterIds: set<int> := set c: int | 0 <= c < ClusterCount

  predicate IsClusterId(c: int) {
    c in ClusterIds
  }

  /** HTTP status the handlers use for every failure. */
  const BadRequest: int := 400

  /** One department's eight socioeconomic indicators (floats in the source;
      the model never computes with them, it only hands them to the predictor). */
  datatype DepartmentData = DepartmentData(
    ymophgMean: real,
    ymophgMedian: real,
    anosestMean: real,
    edadMean: real,
    totperMean: real,
    tasaOcupacion: real,
    tasaPobreza: real,
    tasaNbi: real)

  /** What scaling followed by the inference call yields for a matrix of rows:
      one cluster id per row as returned by the engine, or an exception. */
  datatype Inference = Predicted(ids: seq<int>) | InferenceFailed(cause: string)

  /** Exceptions raised inside the handlers' `try` blocks. */
  datatype Raised =
    | KeyError(key: int)          // a dict lookup with an id the table lacks
    | IndexError(text: string)    // `[0]` on an empty prediction array
    | Failed(cause: string)       // anything scaling or inference raised

  datatype HttpError = HttpError(status: int, detail: string)

  /** numpy's message for `a[0]` on an array of length 0. */
  const EmptyIndexText: string := "index 0 is out of bounds for axis 0 with size 0"

  /** `str(e)`: a KeyError prints the repr of its key, other exceptions their
      message. The id a KeyError carries can be read back from its text. */
  function Message(e: Raised): (text: string)
    ensures e.KeyError? ==> |text| >= 1 && ParseInt(text) == e.key
  {
    match e
    case KeyError(k) => IntToStringRoundTrip(k); IntToString(k)
    case IndexError(t) => t
    case Failed(cause) => cause
  }

  /** The cluster id of a single-row prediction: `int(predict(X)[0])`. */
  function Assign(infer: seq<DepartmentData> -> Inference, data: DepartmentData): (r: Result<int, Raised>)
    ensures r.Ok? <==> infer([data]).Predicted? && |infer([data]).ids| > 0
    ensures r.Ok? ==> r.value == infer([data]).ids[0]
    ensures infer([data]).InferenceFailed? ==> r == Err(Failed(infer([data]).cause))
  {
    match infer([data])
    case InferenceFailed(cause) => Err(Failed(cause))
    case Predicted(ids) => if |ids| == 0 then Err(IndexError(EmptyIndexText)) else Ok(ids[0])
  }

  /** The predictor treats rows independently on `rows`, and on them it
      returns `ids`: the K-Means assignment is row-wise. */
  predicate RowWise(infer: seq<DepartmentData> -> Inference, rows: seq<DepartmentData>, ids: seq<int>) {
    && infer(rows) == Predicted(ids)
    && |ids| == |rows|
    && forall i :: 0 <= i < |rows| ==> infer([rows[i]]) == Predicted([ids[i]])
  }

  // ---------------------------------------------------------------------
  // Python's decimal rendering of an int, and its inverse.

  function DigitChar(d: nat): (ch: char)
    requires d < 10
    ensures '0' <= ch <= '9'
  {
    "0123456789"[d]
  }

  function DigitValue(ch: char): nat {
    if '0' <= ch <= '9' then (ch - '0') as nat else 0
  }

  function NatToString(n: nat): (s: string)
    ensures |s| >= 1 && '0' <= s[0] <= '9'
    decreases n
  {
    if n < 10 then [DigitChar(n)] else NatToString(n / 10) + [DigitChar(n % 10)]
  }

  /** `repr(i)` for a Python int. */
  function IntToString(i: int): (s: string)
    ensures |s| >= 1
    ensures (s[0] == '-') <==> i < 0
  {
    if i < 0 then "-" + NatToString(-i) else NatToString(i)
  }

  function DigitsValue(s: string): nat {
    if s == [] then 0 else DigitsValue(s[..|s| - 1]) * 10 + DigitValue(s[|s| - 1])
  }

  function ParseInt(s: string): int {
    if |s| > 0 && s[0] == '-' then -(DigitsValue(s[1..]) as int) else DigitsValue(s)
  }

  lemma {:induction false} NatToStringRoundTrip(n: nat)
    ensures DigitsValue(NatToString(n)) == n
    decreases n
  {
    var s := NatToString(n);
    if n < 10 {
      assert s[..|s| - 1] == [];
    } else {
      NatToStringRoundTrip(n / 10);
      assert s[..|s| - 1] == NatToString(n / 10);
    }
  }

  lemma ParseNegative(digits: string)
    requires |digits| >= 1
    ensures ParseInt("-" + digits) == -(DigitsValue(digits) as int)
  {
    assert ("-" + digits)[1..] == digits;
  }

  lemma ParseDigits(s: string)
    requires |s| >= 1 && '0' <= s[0] <= '9'
    ensures ParseInt(s) == DigitsValue(s)
  {
  }

  /** Distinct ids give distinct KeyError messages: the message determines the id. */
  lemma {:induction false} IntToStringRoundTrip(i: int)
    ensures ParseInt(IntToString(i)) == i
  {
    if i < 0 {
      var n: nat := -i;
      var digits := NatToString(n);
      assert IntToString(i) == "-" + digits;
      NatToStringRoundTrip(n);
      ParseNegative(digits);
    } else {
      ParseDigits(NatToString(i));
      NatToStringRoundTrip(i);
    }
  }
}
