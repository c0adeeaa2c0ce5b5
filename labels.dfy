/** The fixed tables `predict_cluster` maps a cluster id through. Both servers
    carry the same name table; their description tables differ in wording. */
module Labels {
  import opened Common

  const ClusterNames: map<int, string> := map[
    0 := "Desarrollo Alto \U{1F7E2}",
    1 := "Desarrollo Medio-Alto \U{1F535}",
    2 := "Desarrollo Medio-Bajo \U{1F7E0}",
    3 := "Desarrollo Bajo \U{1F534}"]

  /** Descriptions of the local-disk server. */
  const LocalDescriptions: map<int, string> := map[
    0 := "Departamento con indicadores socioecon\U{F3}micos altos",
    1 := "Departamento con indicadores socioecon\U{F3}micos medio-altos",
    2 := "Departamento con indicadores socioecon\U{F3}micos medio-bajos",
    3 := "Departamento con indicadores socioecon\U{F3}micos bajos"]

  /** Descriptions of the ONNX server. */
  const OnnxDescriptions: map<int, string> := map[
    0 := "Indicadores socioecon\U{F3}micos altos",
    1 := "Indicadores socioecon\U{F3}micos medio-altos",
    2 := "Indicadores socioecon\U{F3}micos medio-bajos",
    3 := "Indicadores socioecon\U{F3}micos bajos"]

  /** A lookup `table[c]`: the entry, or the KeyError Python raises. */
  function Lookup(table: map<int, string>, c: int): (r: Result<string, Raised>)
    ensures r.Ok? ==> c in table && r.value == table[c]
    ensures r.Err? ==> c !in table && r.error == KeyError(c)
  {
    if c in table then Ok(table[c]) else Err(KeyError(c))
  }

  /** Every table covers exactly the ids the model can emit, so a lookup
      succeeds exactly for 0..3 and fails with KeyError otherwise. */
  lemma TablesCoverClusterIds(c: int)
    ensures Lookup(ClusterNames, c).Ok? <==> IsClusterId(c)
    ensures Lookup(LocalDescriptions, c).Ok? <==> IsClusterId(c)
    ensures Lookup(OnnxDescriptions, c).Ok? <==> IsClusterId(c)
    ensures !IsClusterId(c) ==> Lookup(ClusterNames, c) == Err(KeyError(c))
    ensures !IsClusterId(c) ==> Lookup(LocalDescriptions, c) == Err(KeyError(c))
    ensures !IsClusterId(c) ==> Lookup(OnnxDescriptions, c) == Err(KeyError(c))
  {
    assert ClusterIds == {0, 1, 2, 3};
    assert ClusterNames.Keys == ClusterIds;
    assert LocalDescriptions.Keys == ClusterIds;
    assert OnnxDescriptions.Keys == ClusterIds;
  }

  /** No two clusters share a display name, so the name identifies the cluster. */
  lemma NamesDistinct(c: int, d: int)
    requires c in ClusterNames && d in ClusterNames && c != d
    ensures ClusterNames[c] != ClusterNames[d]
  {
    assert ClusterNames[c][|ClusterNames[c]| - 1] != ClusterNames[d][|ClusterNames[d]| - 1];
  }
}
