/**
 * The stage-0 endpoints: a store of built site contexts under generated
 * identifiers, and the fixed-format responders.  The generated identifier
 * (`uuid4().hex`) is an input of `BuildContext`.
 */
module Stage0Router {

  import opened Common
  import opened ContextModels
  import opened Stage0Context

  const ContextNotFound: HttpError := HttpError(404, "Context not found")

  datatype BuildContextResponse = BuildContextResponse(contextId: string, context: SiteContext)

  datatype ValidateContextResponse = ValidateContextResponse(valid: bool, errors: seq<string>)

  // ---------------------------------------------------------------------
  // The context store
  // ---------------------------------------------------------------------

  /** `get_context(id)` against the store `store`: the stored context, or 404 for an unknown id. */
  function ContextLookup(store: map<string, SiteContext>, id: string): (r: Result<SiteContext, HttpError>)
    ensures r.Ok? <==> id in store
    ensures r.Ok? ==> r.value == store[id]
    ensures r.Err? ==> r.error == ContextNotFound
  {
    if id in store then Ok(store[id]) else Err(ContextNotFound)
  }

  /** `upload_context(id)` against the store `store`: `uploaded = True` for a known id, 404 otherwise. */
  function UploadOutcome(store: map<string, SiteContext>, id: string): (r: Result<bool, HttpError>)
    ensures r.Ok? <==> id in store
    ensures r.Ok? ==> r.value
    ensures r.Err? ==> r.error == ContextNotFound
  {
    if id in store then Ok(true) else Err(ContextNotFound)
  }

  /** An id can be uploaded exactly when it can be fetched. */
  lemma UploadIffGet(store: map<string, SiteContext>, id: string)
    ensures UploadOutcome(store, id).Ok? <==> ContextLookup(store, id).Ok?
    ensures UploadOutcome(store, id).Err? ==> UploadOutcome(store, id).error == ContextLookup(store, id).error
  {
  }

  /**
   * After a context is stored under `id`, fetching `id` gives it back and
   * uploading `id` succeeds, while every other id answers as before.
   */
  lemma StoreThenGet(store: map<string, SiteContext>, id: string, ctx: SiteContext, other: string)
    ensures ContextLookup(store[id := ctx], id) == Ok(ctx)
    ensures UploadOutcome(store[id := ctx], id) == Ok(true)
    ensures other != id ==> ContextLookup(store[id := ctx], other) == ContextLookup(store, other)
    ensures other != id ==> UploadOutcome(store[id := ctx], other) == UploadOutcome(store, other)
  {
  }

  /**
   * Two builds for requests with the same cache key, stored under two
   * distinct ids, leave both ids mapping to the same context: the one the
   * first build produced or found.
   */
  lemma TwoBuildsShareContext(
    store: map<string, SiteContext>, cache: map<CacheKey, SiteContext>,
    first: Stage0Request, r1: Rng, id1: string,
    second: Stage0Request, r2: Rng, id2: string)
    requires CacheStep(cache, first, r1).Ok?
    requires KeyOf(second) == KeyOf(first)
    requires id1 != id2
    ensures var b1 := CacheStep(cache, first, r1).value;
      var b2 := CacheStep(b1.cache, second, r2);
      && b2.Ok?
      && b2.value.cache == b1.cache
      && var s := store[id1 := b1.context][id2 := b2.value.context];
        && ContextLookup(s, id1) == Ok(b1.context)
        && ContextLookup(s, id2) == Ok(b1.context)
  {
    SameKeySameContext(cache, first, r1, second, r2);
  }

  /** The module-level `_CONTEXTS` store. */
  class ContextStore {
    var contexts: map<string, SiteContext>

    constructor ()
      ensures contexts == map[]
    {
      contexts := map[];
    }

    /**
     * `build_context(req)`: build (or find) the context through the cache,
     * then store it under the fresh id and return both.  A failing build
     * propagates its error and stores nothing.
     */
    method BuildContext(cache: ContextCache, req: Stage0Request, r: Rng, freshId: string)
      returns (result: Result<BuildContextResponse, string>)
      modifies this, cache
      ensures CacheStep(old(cache.entries), req, r).Ok? ==>
        var b := CacheStep(old(cache.entries), req, r).value;
        && result == Ok(BuildContextResponse(freshId, b.context))
        && contexts == old(contexts)[freshId := b.context]
        && cache.entries == b.cache
      ensures CacheStep(old(cache.entries), req, r).Err? ==>
        result.Err? && contexts == old(contexts) && cache.entries == old(cache.entries)
    {
      var built := cache.BuildSiteContext(req, r);
      if built.Err? {
        return Err(built.error);
      }
      contexts := contexts[freshId := built.value];
      result := Ok(BuildContextResponse(freshId, built.value));
    }

    /** `upload_context(id)`: answers from the store and changes nothing. */
    method UploadContext(id: string) returns (r: Result<bool, HttpError>)
      ensures r == UploadOutcome(contexts, id)
    {
      if id !in contexts {
        return Err(ContextNotFound);
      }
      return Ok(true);
    }

    /** `get_context(id)`: answers from the store and changes nothing. */
    method GetContext(id: string) returns (r: Result<SiteContext, HttpError>)
      ensures r == ContextLookup(contexts, id)
    {
      if id in contexts {
        r := Ok(contexts[id]);
      } else {
        r := Err(ContextNotFound);
      }
    }
  }

  // ---------------------------------------------------------------------
  // The fixed-format responders
  // ---------------------------------------------------------------------

  /** `validate_context`: every context is reported valid, with no errors. */
  function ValidateContext(ctx: SiteContext): (r: ValidateContextResponse)
    ensures r.valid && r.errors == []
  {
    ValidateContextResponse(true, [])
  }

  /** `list_sources`: the one synthetic source. */
  function ListSources(): (r: seq<string>)
    ensures |r| == 1 && r[0] == "synthetic-data"
  {
    ["synthetic-data"]
  }

  const ResolvedPrefix: string := "resolved: "
  const CounterfactualPrefix: string := "counterfactual for "
  const WatchingPrefix: string := "watching "

  /** `resolve(query)`. */
  function Resolve(query: string): string
  {
    ResolvedPrefix + query
  }

  /** `counterfactual(scenario)`. */
  function Counterfactual(scenario: string): string
  {
    CounterfactualPrefix + scenario
  }

  /** `policy_watch(policy_id)`. */
  function PolicyWatch(policyId: string): string
  {
    WatchingPrefix + policyId
  }

  /** Stripping `"resolved: "` from a result gives the query back; so different queries resolve differently. */
  lemma ResolveRoundTrip(query: string, other: string)
    ensures StripPrefix(ResolvedPrefix, Resolve(query)) == Some(query)
    ensures Resolve(query) == Resolve(other) ==> query == other
  {
    assert Resolve(query)[..|ResolvedPrefix|] == ResolvedPrefix;
    if Resolve(query) == Resolve(other) {
      assert query == Resolve(query)[|ResolvedPrefix|..];
    }
  }

  /** Stripping `"counterfactual for "` from a description gives the scenario back. */
  lemma CounterfactualRoundTrip(scenario: string, other: string)
    ensures StripPrefix(CounterfactualPrefix, Counterfactual(scenario)) == Some(scenario)
    ensures Counterfactual(scenario) == Counterfactual(other) ==> scenario == other
  {
    assert Counterfactual(scenario)[..|CounterfactualPrefix|] == CounterfactualPrefix;
    if Counterfactual(scenario) == Counterfactual(other) {
      assert scenario == Counterfactual(scenario)[|CounterfactualPrefix|..];
    }
  }

  /** Stripping `"watching "` from a status gives the policy id back. */
  lemma PolicyWatchRoundTrip(policyId: string, other: string)
    ensures StripPrefix(WatchingPrefix, PolicyWatch(policyId)) == Some(policyId)
    ensures PolicyWatch(policyId) == PolicyWatch(other) ==> policyId == other
  {
    assert PolicyWatch(policyId)[..|WatchingPrefix|] == WatchingPrefix;
    if PolicyWatch(policyId) == PolicyWatch(other) {
      assert policyId == PolicyWatch(policyId)[|WatchingPrefix|..];
    }
  }
}
