/**
 * The append-only services of stages 8 to 11.  Each keeps a log of the
 * dictionaries it is given, answering every append with the new length of
 * the log, and a state dictionary that it only ever reads back.
 */
module StageServices {

  import opened Common

  /** `StageResult`: the stage number, a status line and optional data. */
  datatype StageResult = StageResult(stage: int, status: string, data: Option<Json>)

  /** The `count` an append reports, read back from a result's data. */
  function CountOf(r: StageResult): Option<int>
  {
    if r.data.Some? && r.data.value.JObj? && "count" in r.data.value.fields && r.data.value.fields["count"].JInt?
    then Some(r.data.value.fields["count"].i)
    else None
  }

  /** The result of an append: `data={"count": n}`. */
  function Counted(stage: int, status: string, n: nat): (r: StageResult)
    ensures r.stage == stage && r.status == status
    ensures CountOf(r) == Some(n)
  {
    StageResult(stage, status, Some(JObj(map["count" := JInt(n)])))
  }

  /** The result of a read: the state dictionary itself as data. */
  function StateResult(stage: int, status: string, state: map<string, Json>): (r: StageResult)
    ensures r.stage == stage && r.status == status
    ensures r.data == Some(JObj(state))
  {
    StageResult(stage, status, Some(JObj(state)))
  }

  const InitialPlan: map<string, Json> := map["tasks" := JArr([])]
  const InitialWellness: map<string, Json> := map["status" := JStr("nominal")]
  const InitialResilience: map<string, Json> := map["score" := JInt(0)]
  const InitialMatches: map<string, Json> := map["matches" := JArr([])]

  /** `Stage8Service`: telemetry log and current plan. */
  class Stage8Service {
    var telemetryLog: seq<map<string, Json>>
    var currentPlan: map<string, Json>

    constructor ()
      ensures telemetryLog == [] && currentPlan == InitialPlan
    {
      telemetryLog := [];
      currentPlan := InitialPlan;
    }

    /** `telemetry(data)`: append the entry and report the new length; the plan is untouched. */
    method Telemetry(data: map<string, Json>) returns (r: StageResult)
      modifies this`telemetryLog
      ensures telemetryLog == old(telemetryLog) + [data]
      ensures r == Counted(8, "telemetry received", |old(telemetryLog)| + 1)
    {
      telemetryLog := telemetryLog + [data];
      r := Counted(8, "telemetry received", |telemetryLog|);
    }

    /** `plan()`: the current plan, read without change. */
    method Plan() returns (r: StageResult)
      ensures r == StateResult(8, "current plan", currentPlan)
    {
      r := StateResult(8, "current plan", currentPlan);
    }
  }

  /** The module-level `service` of stage 8 with its delegates and `reset_state`. */
  class Stage8Module {
    var service: Stage8Service

    constructor ()
      ensures fresh(service) && service.telemetryLog == [] && service.currentPlan == InitialPlan
    {
      service := new Stage8Service();
    }

    /** Module-level `telemetry(data)`: delegates to the current service. */
    method Telemetry(data: map<string, Json>) returns (r: StageResult)
      modifies service`telemetryLog
      ensures service.telemetryLog == old(service.telemetryLog) + [data]
      ensures r == Counted(8, "telemetry received", |old(service.telemetryLog)| + 1)
    {
      r := service.Telemetry(data);
    }

    /** Module-level `plan()`: delegates to the current service. */
    method Plan() returns (r: StageResult)
      ensures r == StateResult(8, "current plan", service.currentPlan)
    {
      r := service.Plan();
    }

    /** `reset_state()`: a fresh service replaces the old one, so the next telemetry count is 1. */
    method ResetState()
      modifies this`service
      ensures fresh(service) && service.telemetryLog == [] && service.currentPlan == InitialPlan
    {
      service := new Stage8Service();
    }
  }

  /** `Stage9Service`: tuning events and wellness state. */
  class Stage9Service {
    var tuningEvents: seq<map<string, Json>>
    var wellnessState: map<string, Json>

    constructor ()
      ensures tuningEvents == [] && wellnessState == InitialWellness
    {
      tuningEvents := [];
      wellnessState := InitialWellness;
    }

    /** `tuning(data)`: append the event and report the new length; the wellness state is untouched. */
    method Tuning(data: map<string, Json>) returns (r: StageResult)
      modifies this`tuningEvents
      ensures tuningEvents == old(tuningEvents) + [data]
      ensures r == Counted(9, "tuning received", |old(tuningEvents)| + 1)
    {
      tuningEvents := tuningEvents + [data];
      r := Counted(9, "tuning received", |tuningEvents|);
    }

    /** `wellness()`: the wellness state, read without change. */
    method Wellness() returns (r: StageResult)
      ensures r == StateResult(9, "wellness status", wellnessState)
    {
      r := StateResult(9, "wellness status", wellnessState);
    }
  }

  /** `Stage10Service`: revenue records and resilience metrics. */
  class Stage10Service {
    var revenueRecords: seq<map<string, Json>>
    var resilienceMetrics: map<string, Json>

    constructor ()
      ensures revenueRecords == [] && resilienceMetrics == InitialResilience
    {
      revenueRecords := [];
      resilienceMetrics := InitialResilience;
    }

    /** `revenue(data)`: append the record and report the new length; the metrics are untouched. */
    method Revenue(data: map<string, Json>) returns (r: StageResult)
      modifies this`revenueRecords
      ensures revenueRecords == old(revenueRecords) + [data]
      ensures r == Counted(10, "revenue recorded", |old(revenueRecords)| + 1)
    {
      revenueRecords := revenueRecords + [data];
      r := Counted(10, "revenue recorded", |revenueRecords|);
    }

    /** `resilience()`: the resilience metrics, read without change. */
    method Resilience() returns (r: StageResult)
      ensures r == StateResult(10, "resilience metrics", resilienceMetrics)
    {
      r := StateResult(10, "resilience metrics", resilienceMetrics);
    }
  }

  /** `Stage11Service`: salvage reports and match state. */
  class Stage11Service {
    var salvageReports: seq<map<string, Json>>
    var matchState: map<string, Json>

    constructor ()
      ensures salvageReports == [] && matchState == InitialMatches
    {
      salvageReports := [];
      matchState := InitialMatches;
    }

    /** `salvage(data)`: append the report and report the new length; the match state is untouched. */
    method Salvage(data: map<string, Json>) returns (r: StageResult)
      modifies this`salvageReports
      ensures salvageReports == old(salvageReports) + [data]
      ensures r == Counted(11, "salvage recorded", |old(salvageReports)| + 1)
    {
      salvageReports := salvageReports + [data];
      r := Counted(11, "salvage recorded", |salvageReports|);
    }

    /** `match()`: the match state, read without change. */
    method Match() returns (r: StageResult)
      ensures r == StateResult(11, "match info", matchState)
    {
      r := StateResult(11, "match info", matchState);
    }
  }

  /**
   * Counts grow by one per append: two appends to a fresh stage-8 service
   * report 1 and then 2, and the plan still reads as the initial plan.
   */
  method TwoTelemetryAppends(first: map<string, Json>, second: map<string, Json>)
    returns (c1: Option<int>, c2: Option<int>, plan: StageResult)
    ensures c1 == Some(1) && c2 == Some(2)
    ensures plan == StateResult(8, "current plan", InitialPlan)
  {
    var s := new Stage8Service();
    var r1 := s.Telemetry(first);
    var r2 := s.Telemetry(second);
    c1 := CountOf(r1);
    c2 := CountOf(r2);
    plan := s.Plan();
  }

  /** After `reset_state`, the next telemetry reports a count of 1 whatever was recorded before. */
  method ResetThenTelemetry(m: Stage8Module, data: map<string, Json>) returns (c: Option<int>)
    modifies m
    ensures c == Some(1)
  {
    m.ResetState();
    var r := m.Telemetry(data);
    c := CountOf(r);
  }
}
