/** The records of a stage-0 site context and of the request that asks for one. */
module ContextModels {

  import opened Common

  datatype LatLon = LatLon(lat: real, lon: real)

  /** A number with an optional uncertainty and unit. */
  datatype UQNumber = UQNumber(value: real, uncertainty: Option<real>, unit: Option<string>)

  /** `UQNumber(value=v)`. */
  function NewUQNumber(value: real): (u: UQNumber)
    ensures u.value == value && u.uncertainty.None? && u.unit.None?
  {
    UQNumber(value, None, None)
  }

  /** The climate scenarios; each member is also the string it stands for. */
  datatype ClimateScen = Historical | Ssp126 | Ssp245 | Ssp585

  function ScenValue(s: ClimateScen): string
  {
    match s
    case Historical => "historical"
    case Ssp126 => "ssp1_2.6"
    case Ssp245 => "ssp2_4.5"
    case Ssp585 => "ssp5_8.5"
  }

  /** `ClimateScen(v)`: the member whose value is `v`, if any. */
  function ParseScen(v: string): (r: Option<ClimateScen>)
    ensures r.Some? <==> v in ["historical", "ssp1_2.6", "ssp2_4.5", "ssp5_8.5"]
  {
    if v == "historical" then Some(Historical)
    else if v == "ssp1_2.6" then Some(Ssp126)
    else if v == "ssp2_4.5" then Some(Ssp245)
    else if v == "ssp5_8.5" then Some(Ssp585)
    else None
  }

  /** Values and members correspond one to one: parsing a member's value gives the member back. */
  lemma ScenValueRoundTrip(s: ClimateScen, v: string)
    ensures ParseScen(ScenValue(s)) == Some(s)
    ensures ParseScen(v).Some? ==> ScenValue(ParseScen(v).value) == v
  {
  }

  datatype RiskScores = RiskScores(exposure: Option<real>, damage: Option<real>, score: Option<real>)

  datatype ZoningDrift = ZoningDrift(compliant: bool, message: Option<string>)

  datatype DataQuality = DataQuality(completeness: Option<real>, accuracy: Option<real>, source: Option<string>)

  datatype Lineage = Lineage(source: string, retrieved: Option<string>, notes: Option<string>)

  datatype PrivacyReport = PrivacyReport(containsPii: bool, comments: Option<string>)

  datatype SubsurfaceStub = SubsurfaceStub(message: string)

  /** The value of an explanation item: a float, an int or a string. */
  datatype ExplainValue = ExplainReal(r: real) | ExplainInt(i: int) | ExplainStr(s: string)

  datatype ExplainItem = ExplainItem(feature: string, value: Option<ExplainValue>, explanation: Option<string>)

  datatype AuditBlock = AuditBlock(items: seq<ExplainItem>, version: Option<string>)

  datatype Stage0Request = Stage0Request(location: LatLon, climateScenario: Option<ClimateScen>, lineage: Option<Lineage>)

  datatype SiteContext = SiteContext(
    request: Stage0Request,
    risk: Option<RiskScores>,
    zoning: Option<ZoningDrift>,
    dataQuality: Option<DataQuality>,
    privacy: Option<PrivacyReport>,
    audit: Option<AuditBlock>,
    subsurface: Option<SubsurfaceStub>)

  /** The records built with every defaulted field left out. */
  const DefaultZoning: ZoningDrift := ZoningDrift(true, None)
  const DefaultPrivacy: PrivacyReport := PrivacyReport(false, None)
  const DefaultSubsurface: SubsurfaceStub := SubsurfaceStub("No subsurface data available.")
  const DefaultAudit: AuditBlock := AuditBlock([], None)
  const EmptyRisk: RiskScores := RiskScores(None, None, None)

  /** `Stage0Request(location=...)`: the scenario defaults to historical and there is no lineage. */
  function NewStage0Request(location: LatLon): (r: Stage0Request)
    ensures r.location == location && r.climateScenario == Some(Historical) && r.lineage.None?
  {
    Stage0Request(location, Some(Historical), None)
  }

  /** `SiteContext(request=...)`: only the request is required, every part defaults to absent. */
  function NewSiteContext(request: Stage0Request): (c: SiteContext)
    ensures c.request == request
    ensures c.risk.None? && c.zoning.None? && c.dataQuality.None? && c.privacy.None?
    ensures c.audit.None? && c.subsurface.None?
  {
    SiteContext(request, None, None, None, None, None, None)
  }
}
