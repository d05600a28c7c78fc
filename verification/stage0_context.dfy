/**
 * The synthetic stage-0 site context and its memoisation.
 *
 * The random generator seeded from the rounded location is an abstract
 * supply of draws in [0, 1): `Rng` is that supply plus the number of draws
 * taken so far, and every helper returns the generator advanced past the
 * draws it consumed.  How Python's `hash` turns the location into a seed is
 * not modelled; the draw supply is an input.
 */
module Stage0Context {

  import opened Common
  import opened ContextModels

  // ---------------------------------------------------------------------
  // The draw supply
  // ---------------------------------------------------------------------

  datatype Rng = Rng(stream: nat -> real, pos: nat)

  /** A generator whose every draw lies in [0, 1), as `random()` promises. */
  ghost predicate UnitDraws(r: Rng)
  {
    forall i: nat :: 0.0 <= r.stream(i) < 1.0
  }

  /** A value drawn together with the generator that follows it. */
  datatype Drawn<T> = Drawn(value: T, rng: Rng)

  /** `rng.random()`. */
  function Random(r: Rng): (d: Drawn<real>)
    ensures d.value == r.stream(r.pos) && d.rng.stream == r.stream && d.rng.pos == r.pos + 1
  {
    Drawn(r.stream(r.pos), Rng(r.stream, r.pos + 1))
  }

  /** `rng.uniform(a, b)`. */
  function Uniform(r: Rng, a: real, b: real): (d: Drawn<real>)
    ensures d.value == a + (b - a) * r.stream(r.pos)
    ensures d.rng.stream == r.stream && d.rng.pos == r.pos + 1
  {
    var u := Random(r);
    Drawn(a + (b - a) * u.value, u.rng)
  }

  function Abs(x: real): real
  {
    if x < 0.0 then -x else x
  }

  /** The factor `1 + (u - 0.5) * rel` by which `_with_uq` scales a value. */
  function Jitter(u: real, rel: real): real
  {
    1.0 + (u - 0.5) * rel
  }

  /** A draw in [0, 1) gives a jitter in [1 - rel/2, 1 + rel/2). */
  lemma JitterBounds(u: real, rel: real)
    requires 0.0 <= u < 1.0 && rel > 0.0
    ensures 1.0 - rel / 2.0 <= Jitter(u, rel) < 1.0 + rel / 2.0
  {
    assert (u - 0.5) * rel < 0.5 * rel;
  }

  /** `_with_uq(rng, value, rel)`: the value scaled by a jitter in [1 - rel/2, 1 + rel/2), with uncertainty `|val| * rel`. */
  function WithUq(r: Rng, value: real, rel: real): (d: Drawn<UQNumber>)
    ensures d.rng.stream == r.stream && d.rng.pos == r.pos + 1
    ensures d.value.value == value * Jitter(r.stream(r.pos), rel)
    ensures d.value.uncertainty.Some? && d.value.uncertainty.value == Abs(d.value.value) * rel
    ensures d.value.unit.None?
  {
    var u := Random(r);
    var v := value * Jitter(u.value, rel);
    Drawn(UQNumber(v, Some(Abs(v) * rel), None), u.rng)
  }

  // ---------------------------------------------------------------------
  // The synthetic parts
  // ---------------------------------------------------------------------

  /** The scenario multipliers of `_synthetic_climate`. */
  function ScenMult(s: ClimateScen): real
  {
    match s
    case Historical => 1.0
    case Ssp126 => 1.1
    case Ssp245 => 1.3
    case Ssp585 => 1.8
  }

  /** Harsher scenarios scale the risk up: historical < ssp1-2.6 < ssp2-4.5 < ssp5-8.5. */
  lemma ScenMultIncreasing()
    ensures ScenMult(Historical) < ScenMult(Ssp126) < ScenMult(Ssp245) < ScenMult(Ssp585)
    ensures forall s :: ScenMult(s) >= 1.0
  {
  }

  /**
   * `_synthetic_climate(rng, scen)`: one base draw, then exposure and damage
   * each jittered by one draw; the score is their mean.  A missing scenario
   * is not a key of the multiplier table and raises `KeyError`.
   */
  function SyntheticClimate(r: Rng, scen: Option<ClimateScen>): (d: Result<Drawn<RiskScores>, string>)
    ensures d.Ok? <==> scen.Some?
    ensures d.Ok? ==> d.value.rng.stream == r.stream && d.value.rng.pos == r.pos + 3
    ensures d.Ok? ==>
      && d.value.value.exposure.Some? && d.value.value.damage.Some? && d.value.value.score.Some?
      && d.value.value.score.value == (d.value.value.exposure.value + d.value.value.damage.value) / 2.0
    ensures d.Ok? ==>
      d.value.value == ClimateScores(Uniform(r, 0.0, 1.0).value, ScenMult(scen.value), Jitter(r.stream(r.pos + 1), 0.1), Jitter(r.stream(r.pos + 2), 0.1))
  {
    var base := Uniform(r, 0.0, 1.0);
    if scen.None? then Err("KeyError")
    else
      var mult := ScenMult(scen.value);
      var exposure := WithUq(base.rng, base.value * mult, 0.1);
      var damage := WithUq(exposure.rng, base.value * mult * 0.6, 0.1);
      var e := exposure.value.value;
      var dm := damage.value.value;
      var c := ClimateScores(base.value, mult, Jitter(r.stream(r.pos + 1), 0.1), Jitter(r.stream(r.pos + 2), 0.1));
      assert c.exposure.value == e && c.damage.value == dm;
      Ok(Drawn(RiskScores(Some(e), Some(dm), Some((e + dm) / 2.0)), damage.rng))
  }

  /**
   * The scores drawn from a base value `u` and a scenario multiplier `m`:
   * exposure `u * m` scaled by the jitter `j1`, damage 60% of it scaled by
   * the jitter `j2`, and their mean.
   */
  function ClimateScores(u: real, m: real, j1: real, j2: real): RiskScores
  {
    var e := u * m * j1;
    var dm := u * m * 0.6 * j2;
    RiskScores(Some(e), Some(dm), Some((e + dm) / 2.0))
  }

  /** A base value in [0, 1), a multiplier of at least 1 and jitters in [0.95, 1.05) give non-negative scores, exposure below `1.05 * m`. */
  lemma ClimateScoresBounds(u: real, m: real, j1: real, j2: real)
    requires 0.0 <= u < 1.0 && m >= 1.0 && 0.95 <= j1 < 1.05 && 0.95 <= j2 < 1.05
    ensures var c := ClimateScores(u, m, j1, j2);
      && 0.0 <= c.exposure.value < 1.05 * m
      && 0.0 <= c.damage.value
      && 0.0 <= c.score.value
  {
    assert 0.0 <= u * m < m by {
      assert u * m < 1.0 * m;
    }
    assert 0.0 <= u * m * j1 <= u * m * 1.05;
    assert 0.0 <= u * m * 0.6 * j2;
  }

  /** With draws in [0, 1), exposure and damage are non-negative and exposure stays below 1.05 times the multiplier. */
  lemma ClimateBounds(r: Rng, s: ClimateScen)
    requires UnitDraws(r)
    ensures var d := SyntheticClimate(r, Some(s)).value.value;
      && 0.0 <= d.exposure.value < 1.05 * ScenMult(s)
      && 0.0 <= d.damage.value
      && 0.0 <= d.score.value
  {
    assert 0.0 <= r.stream(r.pos) < 1.0 && 0.0 <= r.stream(r.pos + 1) < 1.0 && 0.0 <= r.stream(r.pos + 2) < 1.0;
    JitterBounds(r.stream(r.pos + 1), 0.1);
    JitterBounds(r.stream(r.pos + 2), 0.1);
    ClimateScoresBounds(Uniform(r, 0.0, 1.0).value, ScenMult(s), Jitter(r.stream(r.pos + 1), 0.1), Jitter(r.stream(r.pos + 2), 0.1));
  }

  /** `_synthetic_zoning(rng)`: compliant when the draw exceeds 0.1; a variance message only when not compliant. */
  function SyntheticZoning(r: Rng): (d: Drawn<ZoningDrift>)
    ensures d.rng.stream == r.stream && d.rng.pos == r.pos + 1
    ensures d.value.compliant <==> r.stream(r.pos) > 0.1
    ensures d.value.message.None? <==> d.value.compliant
    ensures !d.value.compliant ==> d.value.message == Some("Potential zoning variance required")
  {
    var u := Random(r);
    var compliant := u.value > 0.1;
    Drawn(ZoningDrift(compliant, if compliant then None else Some("Potential zoning variance required")), u.rng)
  }

  /** `_synthetic_data_quality(rng)`: two jittered uniform draws in [0.7, 1.0), always sourced as synthetic. */
  function SyntheticDataQuality(r: Rng): (d: Drawn<DataQuality>)
    ensures d.rng.stream == r.stream && d.rng.pos == r.pos + 4
    ensures d.value.source == Some("synthetic")
    ensures d.value.completeness.Some? && d.value.accuracy.Some?
  {
    var c0 := Uniform(r, 0.7, 1.0);
    var c := WithUq(c0.rng, c0.value, 0.02);
    var a0 := Uniform(c.rng, 0.7, 1.0);
    var a := WithUq(a0.rng, a0.value, 0.02);
    Drawn(DataQuality(Some(c.value.value), Some(a.value.value), Some("synthetic")), a.rng)
  }

  /** `_synthetic_privacy(rng)`: PII flagged when the draw is below 0.05, with a comment exactly then. */
  function SyntheticPrivacy(r: Rng): (d: Drawn<PrivacyReport>)
    ensures d.rng.stream == r.stream && d.rng.pos == r.pos + 1
    ensures d.value.containsPii <==> r.stream(r.pos) < 0.05
    ensures d.value.comments.None? <==> !d.value.containsPii
    ensures d.value.containsPii ==> d.value.comments == Some("Synthetic PII for demonstration")
  {
    var u := Random(r);
    var pii := u.value < 0.05;
    Drawn(PrivacyReport(pii, if !pii then None else Some("Synthetic PII for demonstration")), u.rng)
  }

  /** `_synthetic_audit(req, rng)`: the request's latitude, then its longitude, at version 0.1; no draw is taken. */
  function SyntheticAudit(req: Stage0Request): (a: AuditBlock)
    ensures |a.items| == 2 && a.version == Some("0.1")
    ensures a.items[0].feature == "lat" && a.items[0].value == Some(ExplainReal(req.location.lat))
    ensures a.items[1].feature == "lon" && a.items[1].value == Some(ExplainReal(req.location.lon))
    ensures forall i :: 0 <= i < 2 ==> a.items[i].explanation == Some("Provided by request")
  {
    AuditBlock([
      ExplainItem("lat", Some(ExplainReal(req.location.lat)), Some("Provided by request")),
      ExplainItem("lon", Some(ExplainReal(req.location.lon)), Some("Provided by request"))],
      Some("0.1"))
  }

  /**
   * The context `build_site_context` generates on a cache miss: the parts
   * in field order, each drawing from the generator where the previous one
   * stopped.
   */
  function Synthesize(req: Stage0Request, r: Rng): Result<SiteContext, string>
  {
    var climate := SyntheticClimate(r, req.climateScenario);
    if climate.Err? then Err(climate.error)
    else
      var zoning := SyntheticZoning(climate.value.rng);
      var quality := SyntheticDataQuality(zoning.rng);
      var privacy := SyntheticPrivacy(quality.rng);
      Ok(SiteContext(req, Some(climate.value.value), Some(zoning.value), Some(quality.value),
        Some(privacy.value), Some(SyntheticAudit(req)), Some(DefaultSubsurface)))
  }

  /**
   * A generated context carries the request, a risk score that is the mean
   * of exposure and damage, a zoning message exactly when not compliant,
   * PII comments exactly when PII is flagged, the lat/lon audit block,
   * synthetic data quality and the default subsurface stub.  The zoning,
   * privacy and risk draws are the 4th, 9th and 1st to 3rd of the supply.
   */
  lemma SynthesizedShape(req: Stage0Request, r: Rng)
    requires req.climateScenario.Some?
    ensures var c := Synthesize(req, r);
      && c.Ok?
      && c.value.request == req
      && c.value.risk.Some? && c.value.risk.value.score.Some?
      && c.value.risk.value.score.value == (c.value.risk.value.exposure.value + c.value.risk.value.damage.value) / 2.0
      && c.value.zoning.Some? && (c.value.zoning.value.message.None? <==> c.value.zoning.value.compliant)
      && (c.value.zoning.value.compliant <==> r.stream(r.pos + 3) > 0.1)
      && c.value.privacy.Some? && (c.value.privacy.value.comments.None? <==> !c.value.privacy.value.containsPii)
      && (c.value.privacy.value.containsPii <==> r.stream(r.pos + 8) < 0.05)
      && c.value.audit == Some(SyntheticAudit(req))
      && c.value.dataQuality.Some? && c.value.dataQuality.value.source == Some("synthetic")
      && c.value.subsurface == Some(DefaultSubsurface)
  {
  }

  /** A request without a scenario fails inside `_synthetic_climate`. */
  lemma MissingScenarioFails(req: Stage0Request, r: Rng)
    ensures Synthesize(req, r).Err? <==> req.climateScenario.None?
  {
  }

  // ---------------------------------------------------------------------
  // The cache key
  // ---------------------------------------------------------------------

  /** The nearest integer to a non-negative `y`, halves going to the even neighbour. */
  function RoundHalfEven(y: real): (n: int)
    requires y >= 0.0
    ensures n >= 0
    ensures -0.5 <= n as real - y <= 0.5
  {
    var f := y.Floor;
    var frac := y - f as real;
    if frac < 0.5 then f
    else if frac > 0.5 then f + 1
    else if f % 2 == 0 then f else f + 1
  }

  /** The text `f"{x:.4f}"`: a minus sign for any negative `x` (even one shown as zero) and the rounded ten-thousandths. */
  datatype Fixed4 = Fixed4(negative: bool, units: int)

  function Format4(x: real): (f: Fixed4)
    ensures f.negative <==> x < 0.0
    ensures f.units >= 0 && -0.5 <= f.units as real - Abs(x) * 10000.0 <= 0.5
  {
    Fixed4(x < 0.0, RoundHalfEven(Abs(x) * 10000.0))
  }

  /** A coordinate with at most four decimals is formatted exactly. */
  lemma Format4Exact(k: int)
    ensures Format4(k as real / 10000.0) == Fixed4(k < 0, if k < 0 then -k else k)
  {
    var x := k as real / 10000.0;
    var m := if k < 0 then -k else k;
    assert Abs(x) * 10000.0 == m as real;
    assert (m as real).Floor == m;
  }

  /** `f"{lat:.4f},{lon:.4f}:{scenario}"`, as the tuple of its three parts. */
  datatype CacheKey = CacheKey(lat: Fixed4, lon: Fixed4, scenario: Option<ClimateScen>)

  function KeyOf(req: Stage0Request): CacheKey
  {
    CacheKey(Format4(req.location.lat), Format4(req.location.lon), req.climateScenario)
  }

  /** The key ignores the lineage and everything beyond the fourth decimal, and tells scenarios apart. */
  lemma KeyOfSeparates(a: Stage0Request, b: Stage0Request)
    ensures KeyOf(a) == KeyOf(b) <==>
      && Format4(a.location.lat) == Format4(b.location.lat)
      && Format4(a.location.lon) == Format4(b.location.lon)
      && a.climateScenario == b.climateScenario
  {
  }

  // ---------------------------------------------------------------------
  // build_site_context
  // ---------------------------------------------------------------------

  /** A context and the cache after the call that produced it. */
  datatype Built = Built(context: SiteContext, cache: map<CacheKey, SiteContext>)

  /** `build_site_context(req)` against the cache contents `cache`. */
  function CacheStep(cache: map<CacheKey, SiteContext>, req: Stage0Request, r: Rng): Result<Built, string>
  {
    var key := KeyOf(req);
    if key in cache then Ok(Built(cache[key], cache))
    else
      var made := Synthesize(req, r);
      if made.Err? then Err(made.error)
      else Ok(Built(made.value, cache[key := made.value]))
  }

  /**
   * A hit returns the stored context and leaves the cache as it was; a
   * miss stores the new context under the request's key and adds no other
   * key; a failure leaves nothing behind.
   */
  lemma CacheStepEffect(cache: map<CacheKey, SiteContext>, req: Stage0Request, r: Rng)
    ensures KeyOf(req) in cache ==> CacheStep(cache, req, r) == Ok(Built(cache[KeyOf(req)], cache))
    ensures KeyOf(req) !in cache && Synthesize(req, r).Ok? ==>
      && CacheStep(cache, req, r).Ok?
      && CacheStep(cache, req, r).value.context == Synthesize(req, r).value
      && CacheStep(cache, req, r).value.cache == cache[KeyOf(req) := Synthesize(req, r).value]
      && CacheStep(cache, req, r).value.cache.Keys == cache.Keys + {KeyOf(req)}
    ensures KeyOf(req) !in cache && Synthesize(req, r).Err? ==> CacheStep(cache, req, r).Err?
  {
  }

  /**
   * Once a request has been answered, any request with the same key (a
   * different lineage, or coordinates that agree to four decimals) gets
   * the very same context, which still records the first request.
   */
  lemma SameKeySameContext(cache: map<CacheKey, SiteContext>, first: Stage0Request, r1: Rng, second: Stage0Request, r2: Rng)
    requires CacheStep(cache, first, r1).Ok?
    requires KeyOf(second) == KeyOf(first)
    ensures var b := CacheStep(cache, first, r1).value;
      && CacheStep(b.cache, second, r2) == Ok(b)
      && (KeyOf(first) !in cache ==> b.context.request == first)
  {
  }

  /** The module-level `CTX_CACHE`. */
  class ContextCache {
    var entries: map<CacheKey, SiteContext>

    constructor ()
      ensures entries == map[]
    {
      entries := map[];
    }

    /** `build_site_context(req)`, drawing from `r` (the generator seeded from the location) on a miss. */
    method BuildSiteContext(req: Stage0Request, r: Rng) returns (result: Result<SiteContext, string>)
      modifies this
      ensures CacheStep(old(entries), req, r).Ok? ==>
        result == Ok(CacheStep(old(entries), req, r).value.context)
        && entries == CacheStep(old(entries), req, r).value.cache
      ensures CacheStep(old(entries), req, r).Err? ==> result.Err? && entries == old(entries)
    {
      var key := KeyOf(req);
      if key in entries {
        return Ok(entries[key]);
      }
      var made := Synthesize(req, r);
      if made.Err? {
        return Err(made.error);
      }
      entries := entries[key := made.value];
      result := Ok(made.value);
    }
  }
}
