/**
 * The `/v1` API: generation jobs, variant lookup, feedback collection and
 * the push channel that replays a job's events.  The three module-level
 * stores `JOBS`, `VARIANTS` and `FEEDBACK` are the fields of `Registry`.
 *
 * Token checking (a JWT decode) is a boolean `authorized` input; the job's
 * uuid and the generation rounds are inputs as well.
 */
module V1Router {

  import opened Common
  import opened GenerationModels
  import Orchestrator

  /** The only job state this router ever records. */
  datatype JobStatus = Completed

  datatype JobOut = JobOut(id: string, status: JobStatus, variants: Option<seq<VariantOut>>)

  /** A feedback body, stored as received. */
  datatype FeedbackIn = FeedbackIn(fields: map<string, Json>)

  const InvalidToken: HttpError := HttpError(401, "Invalid token")
  const JobNotFound: HttpError := HttpError(404, "Job not found")
  const VariantNotFound: HttpError := HttpError(404, "Variant not found")
  /** An exception escaping an endpoint: the server answers 500. */
  const ServerError: HttpError := HttpError(500, "Internal Server Error")

  /** The contents of the three stores at one instant. */
  datatype Stores = Stores(
    jobs: map<string, JobOut>,
    variants: map<string, VariantOut>,
    feedback: map<string, seq<FeedbackIn>>)

  /** The variants `run_generation(n, weights)` returns, ranked. */
  function Generated(n: int, w: Weights, rounds: nat -> Orchestrator.RoundInput): seq<VariantOut>
    requires forall i: nat :: Orchestrator.ProposalsValid(rounds(i).proposals)
  {
    Orchestrator.AssignRanks(Orchestrator.SortDesc(Orchestrator.RoundVariants(n, w, rounds)))
  }

  // ---------------------------------------------------------------------
  // Store transitions
  // ---------------------------------------------------------------------

  /** `VARIANTS[str(v.id)] = v` for each variant in turn. */
  function StoreVariants(m: map<string, VariantOut>, vs: seq<VariantOut>): map<string, VariantOut>
    decreases |vs|
  {
    if vs == [] then m
    else StoreVariants(m, vs[..|vs| - 1])[vs[|vs| - 1].id := vs[|vs| - 1]]
  }

  /** The stores once `generate` has recorded the variants `vs` and the job `id`. */
  function AfterGenerate(s: Stores, id: string, vs: seq<VariantOut>): Stores
  {
    Stores(s.jobs[id := JobOut(id, Completed, Some(vs))], StoreVariants(s.variants, vs), s.feedback)
  }

  /**
   * What `generate` answers, and the stores after it, when `run_generation`
   * is entered from a thread whose event loop is `loopRunning`: a bad token
   * is 401; an exception from `run_generation` escapes as 500 before any
   * store is written; otherwise the variants and then the job are stored.
   */
  function GenerateOutcome(s: Stores, authorized: bool, loopRunning: bool, n: int, w: Weights,
                           rounds: nat -> Orchestrator.RoundInput, jobId: string): (Result<JobOut, HttpError>, Stores)
    requires forall i: nat :: Orchestrator.ProposalsValid(rounds(i).proposals)
  {
    if !authorized then (Err(InvalidToken), s)
    else match Orchestrator.GenerationOutcome(loopRunning, n, w, rounds)
      case Err(_) => (Err(ServerError), s)
      case Ok(vs) => (Ok(JobOut(jobId, Completed, Some(vs))), AfterGenerate(s, jobId, vs))
  }

  /** `FEEDBACK.get(id, [])`. */
  function FeedbackList(f: map<string, seq<FeedbackIn>>, id: string): seq<FeedbackIn>
  {
    if id in f then f[id] else []
  }

  /** The outcome of `submit_feedback`: the error it raises, or the stores after the append. */
  function SubmitOutcome(s: Stores, authorized: bool, id: string, fb: FeedbackIn): Result<Stores, HttpError>
  {
    if !authorized then Err(InvalidToken)
    else if id !in s.variants then Err(VariantNotFound)
    else Ok(s.(feedback := s.feedback[id := FeedbackList(s.feedback, id) + [fb]]))
  }

  /** What `get_job` answers. */
  function JobLookup(s: Stores, authorized: bool, id: string): Result<JobOut, HttpError>
  {
    if !authorized then Err(InvalidToken)
    else if id in s.jobs then Ok(s.jobs[id])
    else Err(JobNotFound)
  }

  /** What `get_variant` answers. */
  function VariantLookup(s: Stores, authorized: bool, id: string): Result<VariantOut, HttpError>
  {
    if !authorized then Err(InvalidToken)
    else if id in s.variants then Ok(s.variants[id])
    else Err(VariantNotFound)
  }

  // ---------------------------------------------------------------------
  // The push channel
  // ---------------------------------------------------------------------

  /** One step the server takes on the websocket. */
  datatype WsAction = Accept | SendStatus(status: JobStatus) | SendVariant(variant: VariantOut) | Close(code: int)

  /** `job.variants or []`. */
  function VariantsOf(job: JobOut): seq<VariantOut>
  {
    if job.variants.Some? then job.variants.value else []
  }

  function VariantEvents(vs: seq<VariantOut>): (es: seq<WsAction>)
    ensures |es| == |vs|
    ensures forall i :: 0 <= i < |vs| ==> es[i] == SendVariant(vs[i])
  {
    seq(|vs|, i requires 0 <= i < |vs| => SendVariant(vs[i]))
  }

  /** The actions of `job_events` for job `id`; `websocket.close()` uses code 1000. */
  function EventsFor(s: Stores, authorized: bool, id: string): seq<WsAction>
  {
    if !authorized then [Close(1008)]
    else if id !in s.jobs then [Accept, Close(1008)]
    else [Accept, SendStatus(s.jobs[id].status)] + VariantEvents(VariantsOf(s.jobs[id])) + [Close(1000)]
  }

  /** The variants carried by the variant events of a run of actions, in order. */
  function SentVariants(es: seq<WsAction>): seq<VariantOut>
    decreases |es|
  {
    if es == [] then []
    else if es[|es| - 1].SendVariant? then SentVariants(es[..|es| - 1]) + [es[|es| - 1].variant]
    else SentVariants(es[..|es| - 1])
  }

  /** How many status events a run of actions holds. */
  function StatusCount(es: seq<WsAction>): nat
    decreases |es|
  {
    if es == [] then 0
    else StatusCount(es[..|es| - 1]) + (if es[|es| - 1].SendStatus? then 1 else 0)
  }

  // ---------------------------------------------------------------------
  // Properties of the stores
  // ---------------------------------------------------------------------

  /** Storing the variants adds exactly their ids to the store. */
  lemma {:induction false} StoreVariantsKeys(m: map<string, VariantOut>, vs: seq<VariantOut>)
    ensures StoreVariants(m, vs).Keys == m.Keys + (set i | 0 <= i < |vs| :: vs[i].id)
    decreases |vs|
  {
    if vs != [] {
      var init := vs[..|vs| - 1];
      StoreVariantsKeys(m, init);
      var ids := set i | 0 <= i < |vs| :: vs[i].id;
      var initIds := set i | 0 <= i < |init| :: init[i].id;
      assert ids == initIds + {vs[|vs| - 1].id} by {
        forall k | k in ids ensures k in initIds + {vs[|vs| - 1].id} {
          var i :| 0 <= i < |vs| && vs[i].id == k;
          if i < |init| {
            assert init[i].id == k;
          }
        }
        forall k | k in initIds ensures k in ids {
          var i :| 0 <= i < |init| && init[i].id == k;
          assert vs[i].id == k;
        }
      }
    }
  }

  /** A variant is found under its id unless a later variant of the same batch reuses that id. */
  lemma {:induction false} StoreVariantsLast(m: map<string, VariantOut>, vs: seq<VariantOut>, i: nat)
    requires i < |vs|
    requires forall j :: i < j < |vs| ==> vs[j].id != vs[i].id
    ensures vs[i].id in StoreVariants(m, vs) && StoreVariants(m, vs)[vs[i].id] == vs[i]
    decreases |vs|
  {
    if i < |vs| - 1 {
      StoreVariantsLast(m, vs[..|vs| - 1], i);
    }
  }

  /** Ids outside the batch keep what they had. */
  lemma {:induction false} StoreVariantsOthers(m: map<string, VariantOut>, vs: seq<VariantOut>, k: string)
    requires forall j :: 0 <= j < |vs| ==> vs[j].id != k
    ensures k in StoreVariants(m, vs) <==> k in m
    ensures k in m ==> StoreVariants(m, vs)[k] == m[k]
    decreases |vs|
  {
    if vs != [] {
      StoreVariantsOthers(m, vs[..|vs| - 1], k);
    }
  }

  /**
   * After `generate`, `get_job` returns the completed job with the variants
   * in their returned order, every other job answers as before, and the
   * feedback store is untouched.
   */
  lemma GenerateThenGetJob(s: Stores, id: string, vs: seq<VariantOut>, other: string)
    ensures JobLookup(AfterGenerate(s, id, vs), true, id) == Ok(JobOut(id, Completed, Some(vs)))
    ensures other != id ==> JobLookup(AfterGenerate(s, id, vs), true, other) == JobLookup(s, true, other)
    ensures AfterGenerate(s, id, vs).feedback == s.feedback
  {
  }

  /**
   * After `generate`, `get_variant` finds each returned variant under its
   * id (when the batch's ids are distinct, as fresh uuids are), and the
   * variant store holds exactly the old ids plus the batch's ids; an id
   * outside the batch answers as before.
   */
  lemma GenerateThenGetVariant(s: Stores, id: string, vs: seq<VariantOut>, other: string)
    requires forall i, j :: 0 <= i < j < |vs| ==> vs[i].id != vs[j].id
    ensures forall i :: 0 <= i < |vs| ==> VariantLookup(AfterGenerate(s, id, vs), true, vs[i].id) == Ok(vs[i])
    ensures AfterGenerate(s, id, vs).variants.Keys == s.variants.Keys + (set i | 0 <= i < |vs| :: vs[i].id)
    ensures (forall i :: 0 <= i < |vs| ==> vs[i].id != other) ==>
      VariantLookup(AfterGenerate(s, id, vs), true, other) == VariantLookup(s, true, other)
  {
    if forall i :: 0 <= i < |vs| ==> vs[i].id != other {
      StoreVariantsOthers(s.variants, vs, other);
    }
    forall i | 0 <= i < |vs| ensures VariantLookup(AfterGenerate(s, id, vs), true, vs[i].id) == Ok(vs[i]) {
      StoreVariantsLast(s.variants, vs, i);
    }
    StoreVariantsKeys(s.variants, vs);
  }

  /**
   * As written, `generate` is an `async def` endpoint, so `run_generation`
   * is entered on the server's running event loop and its `asyncio.run`
   * raises: every authorized call answers 500, no store changes, and the
   * job is not found afterwards.  Entered off the loop, the same call
   * returns the completed job and `get_job` finds it.
   */
  lemma GenerateOnEventLoopFails(s: Stores, n: int, w: Weights, rounds: nat -> Orchestrator.RoundInput, jobId: string)
    requires forall i: nat :: Orchestrator.ProposalsValid(rounds(i).proposals)
    ensures GenerateOutcome(s, true, true, n, w, rounds, jobId) == (Err(ServerError), s)
    ensures jobId !in s.jobs ==>
      JobLookup(GenerateOutcome(s, true, true, n, w, rounds, jobId).1, true, jobId) == Err(JobNotFound)
    ensures var (r, t) := GenerateOutcome(s, true, false, n, w, rounds, jobId);
      && r == Ok(JobOut(jobId, Completed, Some(Generated(n, w, rounds))))
      && JobLookup(t, true, jobId) == r
  {
  }

  /** Without a valid token every endpoint answers 401 and no store changes. */
  lemma Unauthorized(s: Stores, id: string, fb: FeedbackIn)
    ensures JobLookup(s, false, id) == Err(InvalidToken)
    ensures VariantLookup(s, false, id) == Err(InvalidToken)
    ensures SubmitOutcome(s, false, id, fb) == Err(InvalidToken)
    ensures EventsFor(s, false, id) == [Close(1008)]
  {
  }

  /**
   * `submit_feedback` on a known variant appends exactly `fb` to that
   * variant's list (creating it when absent) and changes nothing else; on
   * an unknown variant it raises 404.
   */
  lemma FeedbackAppendsOne(s: Stores, id: string, fb: FeedbackIn, other: string)
    ensures id !in s.variants ==> SubmitOutcome(s, true, id, fb) == Err(VariantNotFound)
    ensures id in s.variants ==>
      var t := SubmitOutcome(s, true, id, fb);
      && t.Ok?
      && FeedbackList(t.value.feedback, id) == FeedbackList(s.feedback, id) + [fb]
      && |FeedbackList(t.value.feedback, id)| == |FeedbackList(s.feedback, id)| + 1
      && (other != id ==> FeedbackList(t.value.feedback, other) == FeedbackList(s.feedback, other))
      && t.value.jobs == s.jobs && t.value.variants == s.variants
  {
  }

  /** Two submissions for the same variant leave two new entries, in submission order. */
  lemma FeedbackTwice(s: Stores, id: string, fb1: FeedbackIn, fb2: FeedbackIn)
    requires id in s.variants
    ensures var t1 := SubmitOutcome(s, true, id, fb1);
      && t1.Ok?
      && var t2 := SubmitOutcome(t1.value, true, id, fb2);
      && t2.Ok?
      && FeedbackList(t2.value.feedback, id) == FeedbackList(s.feedback, id) + [fb1, fb2]
  {
    var t1 := SubmitOutcome(s, true, id, fb1);
    var t2 := SubmitOutcome(t1.value, true, id, fb2);
    assert FeedbackList(t2.value.feedback, id) == FeedbackList(s.feedback, id) + [fb1] + [fb2];
  }

  // ---------------------------------------------------------------------
  // Properties of the push channel
  // ---------------------------------------------------------------------

  lemma {:induction false} SentVariantsAppend(es: seq<WsAction>, more: seq<WsAction>)
    ensures SentVariants(es + more) == SentVariants(es) + SentVariants(more)
    decreases |more|
  {
    if more == [] {
      assert es + more == es;
    } else {
      var init := more[..|more| - 1];
      SentVariantsAppend(es, init);
      assert (es + more)[..|es + more| - 1] == es + init;
    }
  }

  lemma {:induction false} StatusCountAppend(es: seq<WsAction>, more: seq<WsAction>)
    ensures StatusCount(es + more) == StatusCount(es) + StatusCount(more)
    decreases |more|
  {
    if more == [] {
      assert es + more == es;
    } else {
      var init := more[..|more| - 1];
      StatusCountAppend(es, init);
      assert (es + more)[..|es + more| - 1] == es + init;
    }
  }

  /** The variant events carry exactly the variants, in order, and no status. */
  lemma {:induction false} VariantEventsCarry(vs: seq<VariantOut>)
    ensures SentVariants(VariantEvents(vs)) == vs
    ensures StatusCount(VariantEvents(vs)) == 0
    decreases |vs|
  {
    if vs != [] {
      var init := vs[..|vs| - 1];
      VariantEventsCarry(init);
      assert VariantEvents(vs)[..|vs| - 1] == VariantEvents(init);
    }
  }

  /**
   * The order on the push channel: a bad token closes with 1008 before
   * accepting; an unknown job is accepted and then closed with 1008; a
   * known job gets one status event first, then one event per variant in
   * job order, then a normal close.
   */
  lemma EventOrder(s: Stores, authorized: bool, id: string)
    ensures var es := EventsFor(s, authorized, id);
      && (!authorized ==> es == [Close(1008)])
      && (authorized && id !in s.jobs ==> es == [Accept, Close(1008)])
      && (authorized && id in s.jobs ==>
            && |es| == |VariantsOf(s.jobs[id])| + 3
            && es[0] == Accept
            && es[1] == SendStatus(s.jobs[id].status)
            && StatusCount(es) == 1
            && SentVariants(es) == VariantsOf(s.jobs[id])
            && es[|es| - 1] == Close(1000))
  {
    if authorized && id in s.jobs {
      var vs := VariantsOf(s.jobs[id]);
      var head := [Accept, SendStatus(s.jobs[id].status)];
      VariantEventsCarry(vs);
      SentVariantsAppend(head, VariantEvents(vs));
      SentVariantsAppend(head + VariantEvents(vs), [Close(1000)]);
      StatusCountAppend(head, VariantEvents(vs));
      StatusCountAppend(head + VariantEvents(vs), [Close(1000)]);
      assert SentVariants(head) == [] by {
        assert head[..1] == [Accept];
      }
      assert StatusCount(head) == 1 by {
        assert head[..1] == [Accept];
      }
    }
  }

  /** Replaying a job that `generate` just stored sends back the batch it returned. */
  lemma GenerateThenEvents(s: Stores, id: string, vs: seq<VariantOut>)
    ensures SentVariants(EventsFor(AfterGenerate(s, id, vs), true, id)) == vs
    ensures EventsFor(AfterGenerate(s, id, vs), true, id)[1] == SendStatus(Completed)
  {
    EventOrder(AfterGenerate(s, id, vs), true, id);
  }

  // ---------------------------------------------------------------------
  // The stores and the endpoints
  // ---------------------------------------------------------------------

  class Registry {
    var jobs: map<string, JobOut>
    var variants: map<string, VariantOut>
    var feedback: map<string, seq<FeedbackIn>>

    constructor ()
      ensures jobs == map[] && variants == map[] && feedback == map[]
    {
      jobs := map[];
      variants := map[];
      feedback := map[];
    }

    function State(): Stores
      reads this
    {
      Stores(jobs, variants, feedback)
    }

    /**
     * `generate` as evidently intended, with `run_generation` entered off
     * the event loop: checks the token, runs the generation, stores each
     * variant under its id in returned order, then stores and returns the
     * completed job under the fresh `jobId`.
     */
    method Generate(authorized: bool, n: int, w: Weights, rounds: nat -> Orchestrator.RoundInput, jobId: string)
      returns (r: Result<JobOut, HttpError>)
      requires forall i: nat :: Orchestrator.ProposalsValid(rounds(i).proposals)
      modifies this
      ensures !authorized ==> r == Err(InvalidToken) && State() == old(State())
      ensures authorized ==>
        && r == Ok(JobOut(jobId, Completed, Some(Generated(n, w, rounds))))
        && State() == AfterGenerate(old(State()), jobId, Generated(n, w, rounds))
      ensures (r, State()) == GenerateOutcome(old(State()), authorized, false, n, w, rounds, jobId)
    {
      if !authorized {
        return Err(InvalidToken);
      }
      var vs, _ := Orchestrator.RunGeneration(n, w, rounds);
      StoreBatch(vs);
      var job := JobOut(jobId, Completed, Some(vs));
      jobs := jobs[jobId := job];
      r := Ok(job);
    }

    /** The loop of `generate` that stores each variant under its id. */
    method StoreBatch(vs: seq<VariantOut>)
      modifies this
      ensures variants == StoreVariants(old(variants), vs)
      ensures jobs == old(jobs) && feedback == old(feedback)
    {
      var i := 0;
      while i < |vs|
        invariant 0 <= i <= |vs|
        invariant variants == StoreVariants(old(variants), vs[..i])
        invariant jobs == old(jobs) && feedback == old(feedback)
      {
        assert vs[..i + 1][..i] == vs[..i];
        variants := variants[vs[i].id := vs[i]];
        i := i + 1;
      }
      assert vs[..|vs|] == vs;
    }

    /** `get_job`: reads the job store only. */
    method GetJob(authorized: bool, id: string) returns (r: Result<JobOut, HttpError>)
      ensures r == JobLookup(State(), authorized, id)
    {
      if !authorized {
        return Err(InvalidToken);
      }
      if id !in jobs {
        return Err(JobNotFound);
      }
      r := Ok(jobs[id]);
    }

    /** `get_variant`: reads the variant store only. */
    method GetVariant(authorized: bool, id: string) returns (r: Result<VariantOut, HttpError>)
      ensures r == VariantLookup(State(), authorized, id)
    {
      if !authorized {
        return Err(InvalidToken);
      }
      if id !in variants {
        return Err(VariantNotFound);
      }
      r := Ok(variants[id]);
    }

    /** `submit_feedback`: `FEEDBACK.setdefault(id, []).append(fb)` for a known variant. */
    method SubmitFeedback(authorized: bool, id: string, fb: FeedbackIn) returns (r: Result<map<string, string>, HttpError>)
      modifies this
      ensures SubmitOutcome(old(State()), authorized, id, fb).Err? ==>
        && r == Err(SubmitOutcome(old(State()), authorized, id, fb).error)
        && State() == old(State())
      ensures SubmitOutcome(old(State()), authorized, id, fb).Ok? ==>
        && r == Ok(map["status" := "ok"])
        && State() == SubmitOutcome(old(State()), authorized, id, fb).value
    {
      if !authorized {
        return Err(InvalidToken);
      }
      if id !in variants {
        return Err(VariantNotFound);
      }
      var list := if id in feedback then feedback[id] else [];
      feedback := feedback[id := list + [fb]];
      r := Ok(map["status" := "ok"]);
    }

    /** `job_events`: the actions taken on the websocket, in order. */
    method JobEvents(authorized: bool, id: string) returns (events: seq<WsAction>)
      ensures events == EventsFor(State(), authorized, id)
    {
      if !authorized {
        return [Close(1008)];
      }
      events := [Accept];
      if id !in jobs {
        return events + [Close(1008)];
      }
      var job := jobs[id];
      events := events + [SendStatus(job.status)];
      var vs := if job.variants.Some? then job.variants.value else [];
      var i := 0;
      while i < |vs|
        invariant 0 <= i <= |vs|
        invariant events == [Accept, SendStatus(job.status)] + VariantEvents(vs[..i])
      {
        assert VariantEvents(vs[..i + 1]) == VariantEvents(vs[..i]) + [SendVariant(vs[i])];
        events := events + [SendVariant(vs[i])];
        i := i + 1;
      }
      assert vs[..|vs|] == vs;
      events := events + [Close(1000)];
    }
  }
}
