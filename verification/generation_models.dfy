/** The request and response records of the generation API (weights, assets, ranked variants). */
module GenerationModels {

  import opened Common
  import Dicts

  /** Per-dimension weights of the composite score; every field has a default. */
  datatype Weights = Weights(aesthetic: real, sustainability: real, cost: real, accessibility: real, emotion: real)

  /** `Weights()` with every field left at its default. */
  const DefaultWeights: Weights := Weights(0.25, 0.25, 0.20, 0.15, 0.15)

  /** The field names of `Weights` in declaration order: what the composite sums over. */
  const WeightFields: seq<string> := ["aesthetic", "sustainability", "cost", "accessibility", "emotion"]

  /** `getattr(weights, name)`: a field's value, or nothing for a name that is not a field. */
  function WeightOf(w: Weights, name: string): (r: Option<real>)
    ensures r.Some? <==> name in WeightFields
  {
    if name == "aesthetic" then Some(w.aesthetic)
    else if name == "sustainability" then Some(w.sustainability)
    else if name == "cost" then Some(w.cost)
    else if name == "accessibility" then Some(w.accessibility)
    else if name == "emotion" then Some(w.emotion)
    else None
  }

  function WeightTotal(w: Weights): real
  {
    w.aesthetic + w.sustainability + w.cost + w.accessibility + w.emotion
  }

  /** The defaults are all non-negative and add up to exactly one. */
  lemma DefaultWeightsNormalised()
    ensures WeightOf(DefaultWeights, "aesthetic") == Some(0.25)
    ensures forall k :: k in WeightFields ==> WeightOf(DefaultWeights, k).value >= 0.0
    ensures WeightTotal(DefaultWeights) == 1.0
  {
  }

  /** The four literal values `VariantAsset.type` accepts. */
  datatype AssetType = RenderAsset | ModelAsset | PdfAsset | JsonAsset

  function AssetTypeName(t: AssetType): string
  {
    match t
    case RenderAsset => "render"
    case ModelAsset => "model"
    case PdfAsset => "pdf"
    case JsonAsset => "json"
  }

  /** Validation of the `type` literal: exactly the four names are accepted. */
  function ParseAssetType(s: string): (r: Option<AssetType>)
    ensures r.Some? <==> s in ["render", "model", "pdf", "json"]
  {
    if s == "render" then Some(RenderAsset)
    else if s == "model" then Some(ModelAsset)
    else if s == "pdf" then Some(PdfAsset)
    else if s == "json" then Some(JsonAsset)
    else None
  }

  /** Parsing inverts naming, so the literal set and the datatype are in one-to-one correspondence. */
  lemma AssetTypeRoundTrip(t: AssetType, s: string)
    ensures ParseAssetType(AssetTypeName(t)) == Some(t)
    ensures ParseAssetType(s).Some? ==> AssetTypeName(ParseAssetType(s).value) == s
  {
  }

  datatype VariantAsset = VariantAsset(kind: AssetType, path: string, signedUrl: Option<string>)

  /** One ranked design variant as returned to clients. */
  datatype VariantOut = VariantOut(
    id: string,
    labelText: string,
    metadata: Option<Dicts.Dict<string, string>>,
    score: Option<map<string, real>>,
    rank: int,
    assets: seq<VariantAsset>)

  /** `VariantOut(id=..., label=..., rank=...)`: the three required fields, the rest at their defaults. */
  function NewVariantOut(id: string, text: string, rank: int): (v: VariantOut)
    ensures v.id == id && v.labelText == text && v.rank == rank
    ensures v.metadata.None? && v.score.None? && v.assets == []
  {
    VariantOut(id, text, None, None, rank, [])
  }
}
