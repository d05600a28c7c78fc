/**
 * The Kathmandu pilot backend: run creation with required-field
 * validation, the background pipeline that records its progress in a
 * status record, building sizing, the cost estimate and the fixed glTF
 * massing box.
 *
 * Files are modelled by the values written to them: a run is an object
 * holding its request, the successive contents of `status.json` and the
 * step list of `dag.json`.  Each pipeline action's outcome (success, or
 * the message of the exception it raises) is an input.
 */
module Pilot {

  import opened Common

  // ---------------------------------------------------------------------
  // create_run
  // ---------------------------------------------------------------------

  const RequiredFields: seq<string> := ["site", "program", "constraints"]

  /** Python truthiness of a parsed body: `null`, `false`, zero and empty values are falsy. */
  predicate Truthy(j: Json)
  {
    match j
    case JNull => false
    case JBool(b) => b
    case JInt(i) => i != 0
    case JNum(r) => r != 0.0
    case JStr(t) => t != ""
    case JArr(items) => items != []
    case JObj(fields) => fields != map[]
  }

  /** `request.get_json(force=True, silent=True) or {}`: an unparsable (`None`) or falsy body becomes `{}`. */
  function PayloadOf(body: Option<Json>): (p: Json)
    ensures p == JObj(map[]) || Truthy(p)
    ensures Truthy(p) <==> body.Some? && Truthy(body.value)
    ensures Truthy(p) ==> p == body.value
  {
    if body.Some? && Truthy(body.value) then body.value else JObj(map[])
  }

  /** The values `in` accepts on its right: objects, arrays and strings; any other raises `TypeError`. */
  predicate Searchable(payload: Json)
  {
    payload.JObj? || payload.JArr? || payload.JStr?
  }

  /** `f in t` for strings: `f` occurs in `t` as a contiguous run. */
  predicate Substring(f: string, t: string)
    decreases |t|
  {
    f <= t || (t != [] && Substring(f, t[1..]))
  }

  /** `f in payload`: a key of an object, an element of an array, or a substring of a string. */
  predicate JsonIn(f: string, payload: Json)
    requires Searchable(payload)
  {
    if payload.JObj? then f in payload.fields
    else if payload.JArr? then JStr(f) in payload.items
    else Substring(f, payload.s)
  }

  /** `[f for f in fields if f not in payload]`. */
  function MissingFrom(fields: seq<string>, payload: Json): (r: seq<string>)
    requires Searchable(payload)
    decreases |fields|
  {
    if fields == [] then []
    else if !JsonIn(fields[0], payload) then [fields[0]] + MissingFrom(fields[1..], payload)
    else MissingFrom(fields[1..], payload)
  }

  /** The missing fields are exactly the absent ones. */
  lemma {:induction false} MissingFromMembers(fields: seq<string>, payload: Json)
    requires Searchable(payload)
    ensures forall f :: f in MissingFrom(fields, payload) <==> f in fields && !JsonIn(f, payload)
    decreases |fields|
  {
    if fields != [] {
      MissingFromMembers(fields[1..], payload);
      assert fields == [fields[0]] + fields[1..];
    }
  }

  /** `x` occurs in `fields` at an earlier position than `y` does. */
  ghost predicate Before(fields: seq<string>, x: string, y: string)
  {
    exists a, b :: 0 <= a < b < |fields| && fields[a] == x && fields[b] == y
  }

  /** Any two entries of `r` appear in `fields` in the same order. */
  ghost predicate OrderedIn(r: seq<string>, fields: seq<string>)
  {
    forall i, j :: 0 <= i < j < |r| ==> Before(fields, r[i], r[j])
  }

  /** Prepending a field to the list keeps an ordered selection ordered. */
  lemma OrderedInSkip(f: string, tail: seq<string>, r: seq<string>)
    requires OrderedIn(r, tail)
    ensures OrderedIn(r, [f] + tail)
  {
    forall i, j | 0 <= i < j < |r|
      ensures Before([f] + tail, r[i], r[j])
    {
      var a, b :| 0 <= a < b < |tail| && tail[a] == r[i] && tail[b] == r[j];
      assert ([f] + tail)[a + 1] == r[i] && ([f] + tail)[b + 1] == r[j];
    }
  }

  /** Selecting the prepended field as well keeps the selection ordered, when the rest comes from the tail. */
  lemma OrderedInKeep(f: string, tail: seq<string>, r: seq<string>)
    requires OrderedIn(r, tail)
    requires forall x :: x in r ==> x in tail
    ensures OrderedIn([f] + r, [f] + tail)
  {
    OrderedInSkip(f, tail, r);
    forall i, j | 0 <= i < j < |[f] + r|
      ensures Before([f] + tail, ([f] + r)[i], ([f] + r)[j])
    {
      if i == 0 {
        assert ([f] + r)[j] == r[j - 1] && r[j - 1] in tail;
        var b :| 0 <= b < |tail| && tail[b] == r[j - 1];
        assert ([f] + tail)[0] == ([f] + r)[i] && ([f] + tail)[b + 1] == ([f] + r)[j];
      } else {
        assert ([f] + r)[i] == r[i - 1] && ([f] + r)[j] == r[j - 1];
      }
    }
  }

  /** The missing fields keep the order of the field list. */
  lemma {:induction false} MissingFromOrder(fields: seq<string>, payload: Json)
    requires Searchable(payload)
    ensures OrderedIn(MissingFrom(fields, payload), fields)
    decreases |fields|
  {
    if fields == [] {
      assert MissingFrom(fields, payload) == [];
    } else {
      var tail := fields[1..];
      assert fields == [fields[0]] + tail;
      MissingFromOrder(tail, payload);
      if !JsonIn(fields[0], payload) {
        MissingFromMembers(tail, payload);
        OrderedInKeep(fields[0], tail, MissingFrom(tail, payload));
      } else {
        OrderedInSkip(fields[0], tail, MissingFrom(tail, payload));
      }
    }
  }

  /** Nothing is missing exactly when every field is present. */
  lemma {:induction false} MissingFromEmpty(fields: seq<string>, payload: Json)
    requires Searchable(payload)
    ensures MissingFrom(fields, payload) == [] <==> forall i :: 0 <= i < |fields| ==> JsonIn(fields[i], payload)
    decreases |fields|
  {
    if fields != [] {
      MissingFromEmpty(fields[1..], payload);
      if JsonIn(fields[0], payload) {
        forall i | 0 < i < |fields| ensures fields[i] == fields[1..][i - 1] { }
      }
    }
  }

  /** The three fields are all found in `payload`. */
  lemma AllRequiredIn(payload: Json)
    requires Searchable(payload)
    requires JsonIn("site", payload) && JsonIn("program", payload) && JsonIn("constraints", payload)
    ensures MissingFrom(RequiredFields, payload) == []
  {
  }

  /** An array naming the three fields is missing no field, though it is no object. */
  lemma ArrayBodyPasses()
    ensures var list := JArr([JStr("site"), JStr("program"), JStr("constraints")]);
      PayloadOf(Some(list)) == list && Searchable(list) && MissingFrom(RequiredFields, list) == []
  {
  }

  /** A string containing each name is missing no field, by substring search. */
  lemma StringBodyPasses()
    ensures var text := JStr("constraints program site");
      PayloadOf(Some(text)) == text && Searchable(text) && MissingFrom(RequiredFields, text) == []
  {
    var t := "constraints program site";
    assert "constraints" <= t;
    assert "program" <= t[12..];
    assert "site" <= t[20..];
    SubstringSuffix("program", t, 12);
    SubstringSuffix("site", t, 20);
    AllRequiredIn(JStr(t));
  }

  /** A non-zero number or `true` cannot be searched; a zero or an empty string counts as `{}`. */
  lemma ScalarBodies(i: int, r: real)
    ensures i != 0 ==> !Searchable(PayloadOf(Some(JInt(i))))
    ensures r != 0.0 ==> !Searchable(PayloadOf(Some(JNum(r))))
    ensures !Searchable(PayloadOf(Some(JBool(true))))
    ensures PayloadOf(Some(JInt(0))) == JObj(map[]) && PayloadOf(Some(JStr(""))) == JObj(map[])
    ensures PayloadOf(Some(JNull)) == JObj(map[]) && PayloadOf(None) == JObj(map[])
  {
  }

  /** A run found in a suffix is found in the whole string. */
  lemma {:induction false} SubstringSuffix(f: string, t: string, k: nat)
    requires k <= |t| && Substring(f, t[k..])
    ensures Substring(f, t)
    decreases k
  {
    if k > 0 {
      assert t[1..][k - 1..] == t[k..];
      SubstringSuffix(f, t[1..], k - 1);
    }
  }

  /** Python's `repr` of a list of plain strings: `['a', 'b']`. */
  function ListRepr(items: seq<string>): string
  {
    "[" + Join(", ", seq(|items|, i requires 0 <= i < |items| => "'" + items[i] + "'")) + "]"
  }

  /** An empty body is missing every required field. */
  lemma EmptyBodyMissesAll()
    ensures MissingFrom(RequiredFields, JObj(map[])) == RequiredFields
  {
    var empty := JObj(map[]);
    assert MissingFrom(["constraints"], empty) == ["constraints"];
    assert RequiredFields[1..] == ["program", "constraints"] && RequiredFields[1..][1..] == ["constraints"];
  }

  /** The quoted names of the required fields. */
  lemma QuotedRequiredFields()
    ensures seq(|RequiredFields|, i requires 0 <= i < |RequiredFields| => "'" + RequiredFields[i] + "'")
      == ["'site'", "'program'", "'constraints'"]
  {
    var q := seq(|RequiredFields|, i requires 0 <= i < |RequiredFields| => "'" + RequiredFields[i] + "'");
    assert q[0] == "'site'" && q[1] == "'program'" && q[2] == "'constraints'";
  }

  lemma JoinFirstTwo()
    ensures Join(", ", ["'site'", "'program'"]) == "'site', 'program'"
  {
    assert ["'site'", "'program'"][..1] == ["'site'"];
  }

  lemma JoinAllThree()
    ensures Join(", ", ["'site'", "'program'", "'constraints'"]) == "'site', 'program', 'constraints'"
  {
    JoinFirstTwo();
    assert ["'site'", "'program'", "'constraints'"][..2] == ["'site'", "'program'"];
  }

  /** An empty body is reported as `Missing fields: ['site', 'program', 'constraints']`. */
  lemma EmptyBodyMessage()
    ensures ListRepr(MissingFrom(RequiredFields, JObj(map[]))) == "['site', 'program', 'constraints']"
  {
    EmptyBodyMissesAll();
    QuotedRequiredFields();
    JoinAllThree();
  }

  /** `c.upper()` for a hex digit. */
  function UpperHex(c: char): (u: char)
    ensures IsLowerHex(c) ==> IsUpperHex(u)
  {
    if 'a' <= c <= 'f' then (c as int - 32) as char else c
  }

  predicate IsLowerHex(c: char)
  {
    '0' <= c <= '9' || 'a' <= c <= 'f'
  }

  predicate IsUpperHex(c: char)
  {
    '0' <= c <= '9' || 'A' <= c <= 'F'
  }

  /** `f"RUN-{uuid.uuid4().hex[:8].upper()}"`, given the uuid's 32 lower-case hex digits. */
  function RunId(uuidHex: string): (id: string)
    requires |uuidHex| == 32 && forall i :: 0 <= i < 32 ==> IsLowerHex(uuidHex[i])
    ensures |id| == 12 && id[..4] == "RUN-"
    ensures forall i :: 4 <= i < 12 ==> IsUpperHex(id[i])
  {
    "RUN-" + seq(8, i requires 0 <= i < 8 => UpperHex(uuidHex[i]))
  }

  /** `c.lower()` for a hex digit. */
  function LowerHex(c: char): (l: char)
    ensures 'A' <= c <= 'F' ==> l == (c as int + 32) as char
  {
    if 'A' <= c <= 'F' then (c as int + 32) as char else c
  }

  /** The run id determines the first eight digits of the uuid it was made from. */
  lemma RunIdRecoversUuid(uuidHex: string)
    requires |uuidHex| == 32 && forall i :: 0 <= i < 32 ==> IsLowerHex(uuidHex[i])
    ensures seq(8, i requires 0 <= i < 8 => LowerHex(RunId(uuidHex)[4 + i])) == uuidHex[..8]
  {
  }

  /** One write of `status.json`; the `updatedAt` clock reading is not modelled. */
  datatype Status = Status(step: string, percent: int, state: string, error: Option<string>)

  /** `write_status(step, pct, state, error)`: the `error` key is written only for a non-empty message. */
  function StatusRecord(step: string, pct: int, state: string, error: Option<string>): (s: Status)
    ensures s.step == step && s.percent == pct && s.state == state
    ensures s.error.Some? <==> error.Some? && error.value != ""
    ensures s.error.Some? ==> s.error == error
  {
    Status(step, pct, state, if error.Some? && error.value != "" then error else None)
  }

  const QueuedStatus: Status := StatusRecord("queued", 0, "QUEUED", None)

  /** A run directory: its request, every status written so far (the last is current) and `dag.json`. */
  class RunDir {
    var request: Json
    var writes: seq<Status>
    var dag: Option<seq<string>>

    constructor (request: Json)
      ensures this.request == request && writes == [] && dag.None?
    {
      this.request := request;
      writes := [];
      dag := None;
    }
  }

  /** The HTTP reply of `create_run`: a status code and a JSON body. */
  datatype Reply = Reply(code: int, body: map<string, Json>)

  /** Flask's answer to an exception escaping a route; its HTML page is not modelled. */
  const InternalServerError: Reply := Reply(500, map[])

  /** The `runs/` directory. */
  class Runs {
    var dirs: map<string, RunDir>

    constructor ()
      ensures dirs == map[]
    {
      dirs := map[];
    }

    /**
     * `create_run`: an unparsable or falsy body counts as `{}`; a payload
     * `in` cannot search (a number, `true`) raises `TypeError`, which gives
     * 500 and creates nothing; any missing required field gives 400 and
     * creates nothing; otherwise the request is stored, the run is queued
     * and its id returned with 202.  Arrays and strings are searched as
     * Python does: by element and by substring.  A run id already in use
     * reuses its directory (`mkdir(exist_ok=True)`): the request and the
     * status are rewritten, and an earlier `dag.json` stays.
     */
    method CreateRun(body: Option<Json>, uuidHex: string) returns (reply: Reply, run: RunDir?)
      requires |uuidHex| == 32 && forall i :: 0 <= i < 32 ==> IsLowerHex(uuidHex[i])
      modifies this, dirs.Values
      ensures var payload := PayloadOf(body);
        !Searchable(payload) ==>
        && reply == InternalServerError && run == null && dirs == old(dirs)
        && forall r :: r in old(dirs).Values ==> unchanged(r)
      ensures var payload := PayloadOf(body);
        Searchable(payload) && MissingFrom(RequiredFields, payload) != [] ==>
        && reply == Reply(400, map["error" := JStr("Missing fields: " + ListRepr(MissingFrom(RequiredFields, payload)))])
        && run == null && dirs == old(dirs)
        && forall r :: r in old(dirs).Values ==> unchanged(r)
      ensures var payload := PayloadOf(body);
        Searchable(payload) && MissingFrom(RequiredFields, payload) == [] ==>
        var id := RunId(uuidHex);
        && reply == Reply(202, map["runId" := JStr(id), "statusUrl" := JStr("/runs/" + id + "/status")])
        && run != null
        && dirs == old(dirs)[id := run]
        && run.request == payload
        && (id !in old(dirs) ==> fresh(run) && run.writes == [QueuedStatus] && run.dag.None?)
        && (id in old(dirs) ==>
              run == old(dirs)[id] && run.writes == old(run.writes) + [QueuedStatus] && run.dag == old(run.dag))
        && forall r :: r in old(dirs).Values && r != run ==> unchanged(r)
    {
      var payload := PayloadOf(body);
      if !Searchable(payload) {
        return InternalServerError, null;
      }
      var missing := MissingFrom(RequiredFields, payload);
      if missing != [] {
        return Reply(400, map["error" := JStr("Missing fields: " + ListRepr(missing))]), null;
      }
      var id := RunId(uuidHex);
      if id in dirs {
        run := dirs[id];
        run.request := payload;
      } else {
        run := new RunDir(payload);
        dirs := dirs[id := run];
      }
      run.writes := run.writes + [QueuedStatus];
      reply := Reply(202, map["runId" := JStr(id), "statusUrl" := JStr("/runs/" + id + "/status")]);
    }
  }

  // ---------------------------------------------------------------------
  // pipeline_worker
  // ---------------------------------------------------------------------

  const StepNames: seq<string> := ["ingest", "generate-3d", "ifc-export", "analyze-struct", "analyze-energy", "estimate", "permit"]
  const StepPercents: seq<int> := [10, 30, 40, 60, 75, 88, 96]

  /** The progress percentages rise strictly and stay below the final 100. */
  lemma StepPercentsIncrease()
    ensures |StepPercents| == |StepNames| == 7
    ensures forall i, j :: 0 <= i < j < 7 ==> StepPercents[i] < StepPercents[j]
    ensures forall i :: 0 <= i < 7 ==> 0 < StepPercents[i] < 100
  {
  }

  function Running(i: nat): Status
    requires i < 7
  {
    StatusRecord(StepNames[i], StepPercents[i], "RUNNING", None)
  }

  /** The status written before each of the first `k` steps. */
  function RunningUpTo(k: nat): (ws: seq<Status>)
    requires k <= 7
    ensures |ws| == k && forall i :: 0 <= i < k ==> ws[i] == Running(i)
  {
    seq(k, i requires 0 <= i < k => Running(i))
  }

  lemma RunningUpToSnoc(k: nat)
    requires k < 7
    ensures RunningUpTo(k + 1) == RunningUpTo(k) + [Running(k)]
  {
  }

  function Failed(message: string): Status
  {
    StatusRecord("error", 100, "FAILED", Some(message))
  }

  const Succeeded: Status := StatusRecord("complete", 100, "SUCCEEDED", None)

  /** The first step at or after `i` whose action raises, or 7 when none does. */
  function FirstFailure(action: nat -> Option<string>, i: nat): (f: nat)
    requires i <= 7
    ensures i <= f <= 7
    ensures forall j :: i <= j < f ==> action(j).None?
    ensures f < 7 ==> action(f).Some?
    decreases 7 - i
  {
    if i == 7 then 7 else if action(i).Some? then i else FirstFailure(action, i + 1)
  }

  /** The statuses the step loop writes: one before each step up to the first that raises, then that step's error. */
  function StepWrites(action: nat -> Option<string>): seq<Status>
  {
    var f := FirstFailure(action, 0);
    if f < 7 then RunningUpTo(f + 1) + [Failed(action(f).value)] else RunningUpTo(7)
  }

  /**
   * The statuses `pipeline_worker` writes: a setup failure (reading the
   * request, sizing) writes only the error; otherwise the step loop's
   * statuses, then, when every step passed, the outcome of writing `dag.json`.
   */
  function WorkerWrites(setup: Option<string>, action: nat -> Option<string>, dagWrite: Option<string>): seq<Status>
  {
    if setup.Some? then [Failed(setup.value)]
    else if FirstFailure(action, 0) < 7 then StepWrites(action)
    else if dagWrite.Some? then StepWrites(action) + [Failed(dagWrite.value)]
    else StepWrites(action) + [Succeeded]
  }

  /** The run succeeds when neither setup, any step nor the `dag.json` write raises. */
  predicate WorkerSucceeds(setup: Option<string>, action: nat -> Option<string>, dagWrite: Option<string>)
  {
    setup.None? && FirstFailure(action, 0) == 7 && dagWrite.None?
  }

  /**
   * The status sequence of a worker run: percents rise strictly, every
   * write but the last is RUNNING, the last is SUCCEEDED (complete, 100)
   * exactly when nothing raised and FAILED (error, 100) otherwise, and no
   * step after the failing one writes a status.
   */
  lemma WorkerWritesShape(setup: Option<string>, action: nat -> Option<string>, dagWrite: Option<string>)
    ensures var ws := WorkerWrites(setup, action, dagWrite);
      && 1 <= |ws| <= 8
      && (forall i, j :: 0 <= i < j < |ws| ==> ws[i].percent < ws[j].percent)
      && (forall i :: 0 <= i < |ws| - 1 ==> ws[i] == Running(i))
      && ws[|ws| - 1].percent == 100
      && (WorkerSucceeds(setup, action, dagWrite) <==> ws[|ws| - 1] == Succeeded)
      && (!WorkerSucceeds(setup, action, dagWrite) <==> ws[|ws| - 1].state == "FAILED")
      && (setup.None? && FirstFailure(action, 0) < 7 ==> |ws| == FirstFailure(action, 0) + 2)
  {
    StepPercentsIncrease();
  }

  /** A failed run records the exception's message, and no `error` key when the message is empty. */
  lemma FailureMessage(message: string)
    ensures Failed(message).step == "error" && Failed(message).state == "FAILED"
    ensures Failed(message).error.Some? <==> message != ""
    ensures message != "" ==> Failed(message).error == Some(message)
  {
  }

  /** The loop `for name, pct, fn in steps: write_status(run_dir, name, pct); fn()`, stopping at the first exception. */
  method RunSteps(run: RunDir, action: nat -> Option<string>) returns (completed: bool)
    modifies run`writes
    ensures completed <==> FirstFailure(action, 0) == 7
    ensures run.writes == old(run.writes) + StepWrites(action)
  {
    var i := 0;
    while i < |StepNames|
      invariant 0 <= i <= 7
      invariant run.writes == old(run.writes) + RunningUpTo(i)
      invariant FirstFailure(action, 0) == FirstFailure(action, i)
    {
      RunningUpToSnoc(i);
      run.writes := run.writes + [Running(i)];
      var outcome := action(i);
      if outcome.Some? {
        run.writes := run.writes + [Failed(outcome.value)];
        return false;
      }
      i := i + 1;
    }
    completed := true;
  }

  /** `pipeline_worker(run_dir)`. */
  method PipelineWorker(run: RunDir, setup: Option<string>, action: nat -> Option<string>, dagWrite: Option<string>)
    modifies run`writes, run`dag
    ensures run.writes == old(run.writes) + WorkerWrites(setup, action, dagWrite)
    ensures run.dag == if WorkerSucceeds(setup, action, dagWrite) then Some(StepNames) else old(run.dag)
  {
    if setup.Some? {
      run.writes := run.writes + [Failed(setup.value)];
      return;
    }
    var completed := RunSteps(run, action);
    if !completed {
      return;
    }
    if dagWrite.Some? {
      run.writes := run.writes + [Failed(dagWrite.value)];
      return;
    }
    run.dag := Some(StepNames);
    run.writes := run.writes + [Succeeded];
  }

  // ---------------------------------------------------------------------
  // size_from_payload
  // ---------------------------------------------------------------------

  /** The sizing of the massing box; the side `sqrt(area) * 1.10`, used for both width and depth, is not modelled. */
  datatype Sizing = Sizing(floors: int, height: real, footprintArea: real)

  /**
   * `size_from_payload`: `grossFloorArea_m2` defaults to 0 and
   * `floorsAbove` to 1; at least one floor, 3 m per floor, and the
   * footprint is the floor area per floor, or 400 m² without a positive area.
   */
  function SizeFromProgram(gfa: Option<real>, floorsAbove: Option<int>): (s: Sizing)
    ensures s.floors >= 1
    ensures s.floors == if floorsAbove.Some? && floorsAbove.value > 1 then floorsAbove.value else 1
    ensures s.height == 3.0 * s.floors as real
    ensures gfa.Some? && gfa.value > 0.0 ==> s.footprintArea * s.floors as real == gfa.value && s.footprintArea > 0.0
    ensures !(gfa.Some? && gfa.value > 0.0) ==> s.footprintArea == 400.0
  {
    var area := if gfa.Some? then gfa.value else 0.0;
    var fa := if floorsAbove.Some? then floorsAbove.value else 1;
    var floors := if 1 >= fa then 1 else fa;
    Sizing(floors, floors as real * 3.0, if area > 0.0 then area / floors as real else 400.0)
  }

  // ---------------------------------------------------------------------
  // compute_estimate
  // ---------------------------------------------------------------------

  /** One estimate row; the `round(..., 2)` applied to each amount is not modelled. */
  datatype Row = Row(item: string, qty: real, unit: string, rate: real, total: real)

  const ItemNames: seq<string> := [
    "Concrete (M30) m3", "Rebar t", "Brickwork m2", "Windows m2", "Formwork m2",
    "MEP per m2", "Finishes per m2", "Contingency 7%", "Grand Total (NPR)"]

  const ContingencyRate: real := 0.07

  /** The sum of the row totals. */
  function Subtotal(rows: seq<Row>): real
    decreases |rows|
  {
    if rows == [] then 0.0 else Subtotal(rows[..|rows| - 1]) + rows[|rows| - 1].total
  }

  /** `add(name, qty, unit, r)`: a priced row whose total is quantity times rate. */
  function Priced(name: string, qty: real, unit: string, rate: real): (row: Row)
    ensures row.total == row.qty * row.rate
  {
    Row(name, qty, unit, rate, qty * rate)
  }

  /**
   * `compute_estimate(payload)` for a gross floor area `gfa`: seven priced
   * rows in fixed order, the 7% contingency on their subtotal and the
   * grand total of both.
   */
  method ComputeEstimate(gfa: real) returns (items: seq<Row>)
    ensures |items| == 9
    ensures forall i :: 0 <= i < 9 ==> items[i].item == ItemNames[i]
    ensures forall i :: 0 <= i < 7 ==> items[i].total == items[i].qty * items[i].rate
    ensures items[0].qty == 0.12 * gfa && items[1].qty == 0.09 * items[0].qty
    ensures items[2].qty == 0.80 * gfa && items[3].qty == 0.18 * items[2].qty
    ensures items[4].qty == items[0].qty * 4.5 && items[5].qty == gfa && items[6].qty == gfa
    ensures items[7].total == Subtotal(items[..7]) * ContingencyRate
    ensures items[8].total == Subtotal(items[..7]) + items[7].total
    ensures items[8].total == 14854.81 * gfa
  {
    var concrete := 0.12 * gfa;
    var rebar := 0.09 * concrete;
    var brick := 0.80 * gfa;
    var windows := 0.18 * brick;
    var formwork := concrete * 4.5;
    items := [];
    items := items + [Priced("Concrete (M30) m3", concrete, "m3", 13500.0)];
    items := items + [Priced("Rebar t", rebar, "t", 145000.0)];
    items := items + [Priced("Brickwork m2", brick, "m2", 2200.0)];
    items := items + [Priced("Windows m2", windows, "m2", 8500.0)];
    items := items + [Priced("Formwork m2", formwork, "m2", 950.0)];
    items := items + [Priced("MEP per m2", gfa, "m2", 4200.0)];
    items := items + [Priced("Finishes per m2", gfa, "m2", 3000.0)];
    var priced := items;
    var subtotal := SumTotals(priced);
    SubtotalSeven(priced);
    EstimatePerSquareMetre(gfa);
    var contingency := subtotal * ContingencyRate;
    items := items + [Row("Contingency 7%", 1.0, "ls", contingency, contingency)];
    items := items + [Row("Grand Total (NPR)", 1.0, "ls", subtotal + contingency, subtotal + contingency)];
    assert items[..7] == priced;
  }

  /** `sum(x["total"] for x in items)`. */
  method SumTotals(items: seq<Row>) returns (subtotal: real)
    ensures subtotal == Subtotal(items)
  {
    subtotal := 0.0;
    var i := 0;
    while i < |items|
      invariant 0 <= i <= |items|
      invariant subtotal == Subtotal(items[..i])
    {
      assert items[..i + 1][..i] == items[..i];
      subtotal := subtotal + items[i].total;
      i := i + 1;
    }
    assert items[..|items|] == items;
  }

  lemma SubtotalSeven(rows: seq<Row>)
    requires |rows| == 7
    ensures Subtotal(rows) == rows[0].total + rows[1].total + rows[2].total + rows[3].total
      + rows[4].total + rows[5].total + rows[6].total
  {
    assert rows[..7] == rows;
    SubtotalPrefix(rows, 7);
    SubtotalPrefix(rows, 6);
    SubtotalPrefix(rows, 5);
    SubtotalPrefix(rows, 4);
    SubtotalPrefix(rows, 3);
    SubtotalPrefix(rows, 2);
    SubtotalPrefix(rows, 1);
  }

  lemma SubtotalPrefix(rows: seq<Row>, k: nat)
    requires 0 < k <= |rows|
    ensures Subtotal(rows[..k]) == Subtotal(rows[..k - 1]) + rows[k - 1].total
  {
    assert rows[..k][..k - 1] == rows[..k - 1];
  }

  /** The seven priced rows come to 13883 NPR per m² of gross floor area. */
  lemma EstimatePerSquareMetre(gfa: real)
    ensures 0.12 * gfa * 13500.0 + 0.09 * (0.12 * gfa) * 145000.0 + 0.80 * gfa * 2200.0
      + 0.18 * (0.80 * gfa) * 8500.0 + 0.12 * gfa * 4.5 * 950.0 + gfa * 4200.0 + gfa * 3000.0 == 13883.0 * gfa
    ensures 13883.0 * gfa + 13883.0 * gfa * ContingencyRate == 14854.81 * gfa
  {
  }

  // ---------------------------------------------------------------------
  // write_gltf_box
  // ---------------------------------------------------------------------

  /** The glTF document's buffers and accessors; the base64 text of the buffers is not modelled. */
  datatype GltfBox = GltfBox(
    positions: seq<real>,
    indices: seq<int>,
    positionBytes: int,
    indexBytes: int,
    positionCount: int,
    indexCount: int)

  /** Eight corners: the bottom face at height 0, then the top face at `height`, centred on the origin. */
  function BoxPositions(width: real, depth: real, height: real): seq<real>
  {
    var w := width / 2.0;
    var d := depth / 2.0;
    [ -w, 0.0, -d,  w, 0.0, -d,  w, 0.0, d,  -w, 0.0, d,
      -w, height, -d,  w, height, -d,  w, height, d,  -w, height, d ]
  }

  /** Twelve triangles, two per face. */
  const BoxIndices: seq<int> := [
    0, 1, 2, 0, 2, 3,
    4, 6, 5, 4, 7, 6,
    3, 2, 6, 3, 6, 7,
    0, 5, 1, 0, 4, 5,
    0, 3, 7, 0, 7, 4,
    1, 5, 6, 1, 6, 2]

  /** Each position is a little-endian float (4 bytes), each index an unsigned short (2 bytes). */
  function WriteGltfBox(width: real, depth: real, height: real): GltfBox
  {
    var ps := BoxPositions(width, depth, height);
    GltfBox(ps, BoxIndices, 4 * |ps|, 2 * |BoxIndices|, 8, |BoxIndices|)
  }

  /**
   * The box has 8 vertices (24 coordinates) and 36 indices forming 12
   * triangles, each index naming one of the vertices; the buffers are 96
   * and 72 bytes long.
   */
  lemma GltfBoxShape(width: real, depth: real, height: real)
    ensures var g := WriteGltfBox(width, depth, height);
      && |g.positions| == 24 && g.positionCount * 3 == |g.positions|
      && |g.indices| == 36 && g.indexCount == |g.indices| && g.indexCount == 3 * 12
      && g.positionBytes == 96 && g.indexBytes == 72
      && (forall i :: 0 <= i < |g.indices| ==> 0 <= g.indices[i] < g.positionCount)
  {
  }

  /** The first four corners lie on the ground and the last four at the requested height. */
  lemma GltfBoxHeights(width: real, depth: real, height: real)
    ensures var ps := BoxPositions(width, depth, height);
      forall v :: 0 <= v < 8 ==> ps[3 * v + 1] == if v < 4 then 0.0 else height
  {
  }
}
