# Engineering design platform — verified model of its in-memory core

This project models, in Dafny, the in-memory and sequential logic of the
Engineering design platform. It proves properties of that model. The
parts modelled are:

- the multi-agent generation engine: the proposal merge, the candidate
  score, the round loop, the stable descending sort by composite and the
  ranking;
- the attribute negotiator, which enumerates variants as a Cartesian
  product;
- the `/v1` registry of jobs, variants and feedback, and its push channel;
- the three chain workers (`render`, `massing`, `export`);
- the Kathmandu pilot backend: run creation, the pipeline's status
  sequence, sizing, the cost estimate and the glTF box buffers;
- the stage-0 site context: its records, its synthetic parts, its
  memoisation cache and the router's context store;
- the in-memory TTL cache;
- the append-only services of stages 8 to 11.

Randomness, clocks, uuids and the agents' choices are inputs of the model:

- draw supplies and `RoundInput` values for randomness and the agents;
- an instant `now` for the clock;
- `freshId`, `jobId` and `uuidHex` for the uuids.

Files are modelled by the values written to them.

Python dictionaries keep insertion order. `Dicts.Dict` models this as a
key sequence plus a map. The label produced by `merge` depends on that order.

## Model

| member | source | states |
|---|---|---|
| Dicts.Put | backend/app/ai_agents/orchestrator.py:101 | Assigning a key keeps the dict well formed. A new key goes last; an existing key keeps its position and takes the new value. |
| Dicts.PutAllKeys | backend/app/ai_agents/orchestrator.py:99-101 | After a run of insertions, the key order is the old keys, then each new key at its first occurrence. |
| Dicts.PutAllValues | backend/app/ai_agents/orchestrator.py:99-101 | After a run of insertions, each key holds the value of its last pair, or its old value if no pair names it. |
| Dicts.AppendNewDistinct | backend/app/ai_agents/orchestrator.py:99-101 | First-appearance order never lists a key twice. |
| Orchestrator.MergeLastWriteWins | backend/app/ai_agents/orchestrator.py:99-101 | A key is in the merged metadata exactly when some proposal sets it. It then holds the value from the last such proposal. |
| Orchestrator.MergeKeysAreUnion | backend/app/ai_agents/orchestrator.py:100-101 | The merged keys are exactly the union of all proposals' keys. |
| Orchestrator.MergeKeyOrder | backend/app/ai_agents/orchestrator.py:99-102 | The merged key order is first-appearance order across the proposals. |
| Orchestrator.MergeLabel | backend/app/ai_agents/orchestrator.py:102 | The label has one `key:value` part per key, in first-appearance order. Each part carries the key's last-written value. |
| Orchestrator.MergeEmpty | backend/app/ai_agents/orchestrator.py:99-103 | Merging no proposals gives empty metadata and the empty label. |
| Orchestrator.Merge | backend/app/ai_agents/orchestrator.py:98-103 | The candidate carries the supplied fresh id and well-formed metadata. |
| Orchestrator.Review | backend/app/ai_agents/orchestrator.py:106-109 | The critic never raises an objection. |
| Orchestrator.WeightedSumFailsOnMissing | backend/app/ai_agents/orchestrator.py:121 | Summing over the weight fields fails exactly when a field has no score. The error names such a field; a missing score never counts as zero. |
| Orchestrator.CompositeIsDot | backend/app/ai_agents/orchestrator.py:114-121 | Over a full score map, the weighted sum is the dot product of scores and weights. |
| Orchestrator.ScoreShape | backend/app/ai_agents/orchestrator.py:112-122 | The score map has exactly the five dimensions plus `composite`, and `composite` is the dot product. |
| Orchestrator.RoundVariants | backend/app/ai_agents/orchestrator.py:166-178 | One variant per round in round order; a negative `n` gives none. |
| Orchestrator.RoundCandidates | backend/app/ai_agents/orchestrator.py:151-154 | One merged candidate per round, in round order. |
| Orchestrator.Insert | backend/app/ai_agents/orchestrator.py:183 | Stable insertion lengthens the list by exactly one. |
| Orchestrator.SortDescSorted | backend/app/ai_agents/orchestrator.py:183 | The sorted list has non-increasing composites. |
| Orchestrator.SortDescPermutation | backend/app/ai_agents/orchestrator.py:183 | The sorted list is a permutation of its input. |
| Orchestrator.SortDescStable | backend/app/ai_agents/orchestrator.py:183 | Variants with equal composite keep their generation order (stability). |
| Orchestrator.InsertSorted | backend/app/ai_agents/orchestrator.py:183 | Inserting into a descending list keeps it descending. |
| Orchestrator.InsertMultiset | backend/app/ai_agents/orchestrator.py:183 | Insertion adds exactly the inserted element. |
| Orchestrator.AssignRanks | backend/app/ai_agents/orchestrator.py:184-185 | Ranking keeps the number of variants. |
| Orchestrator.UnrankedAfterRanking | backend/app/ai_agents/orchestrator.py:171-185 | Ranking changes nothing but the rank of an unranked batch. |
| Orchestrator.GenerationRanked | backend/app/ai_agents/orchestrator.py:166-185 | `run_generation` yields one variant per round with ranks 1..n by position and non-increasing composites. Apart from rank, the result is a permutation of the round results, equal composites keep their order, and every round result has rank 0 and no assets. |
| Orchestrator.DesignState.constructor | backend/app/ai_agents/orchestrator.py:34-41 | A new generation state has no candidates. |
| Orchestrator.InsertLast | backend/app/ai_agents/orchestrator.py:183 | One in-place step of the array sort makes the prefix equal to the stable insertion of the next element, and leaves the rest untouched. |
| Orchestrator.SortByCompositeDesc | backend/app/ai_agents/orchestrator.py:183 | Sorting the array in place leaves the stable descending sort of its old contents. |
| Orchestrator.AssignRanksInPlace | backend/app/ai_agents/orchestrator.py:184-185 | After the loop, each array slot holds its old variant with its 1-based position as rank. |
| Orchestrator.GenerateRound | backend/app/ai_agents/orchestrator.py:148-173 | A round records exactly its merged candidate in the state and returns the unranked, scored variant. |
| Orchestrator.RunLoop | backend/app/ai_agents/orchestrator.py:175-178 | The loop produces the variants and the candidates of rounds 0..n-1, in order. |
| Orchestrator.RunGeneration | backend/app/ai_agents/orchestrator.py:125-186 | The result is the ranked stable sort of the round variants. The state holds one candidate per round. |
| Orchestrator.GenerationOutcome | backend/app/ai_agents/orchestrator.py:175-186 | `asyncio.run` raises exactly when an event loop already runs in the calling thread. Otherwise there is one variant per round, ranked 1..n by position. |
| Orchestrator.RunGenerationFrom | backend/app/ai_agents/orchestrator.py:125-186 | `run_generation`, including its `asyncio.run`, returns what `GenerationOutcome` gives for the calling thread. |
| GenerationModels.WeightOf | backend/app/models/generation.py:9-14 | A name has a weight exactly when it is one of the five `Weights` fields. |
| GenerationModels.DefaultWeightsNormalised | backend/app/models/generation.py:10-14 | The default weights are non-negative and total exactly 1. |
| GenerationModels.ParseAssetType | backend/app/models/generation.py:18 | An asset type is accepted exactly when it is `render`, `model`, `pdf` or `json`. |
| GenerationModels.AssetTypeRoundTrip | backend/app/models/generation.py:18 | Naming and parsing asset types are inverse. |
| GenerationModels.NewVariantOut | backend/app/models/generation.py:23-29 | `id`, `label` and `rank` are as given; metadata and score are absent; there are no assets. |
| Negotiator.DefaultOptions | backend/app/ai_agents/negotiator.py:14-18 | The default mapping is well formed, with attributes color, material and finish in that order. |
| Negotiator.NewNegotiator | backend/app/ai_agents/negotiator.py:13-18 | A missing or empty mapping installs the default; any other mapping is kept. |
| Negotiator.ChosenOptions | backend/app/ai_agents/negotiator.py:34 | `None` and `{}` both fall back to the base options. |
| Negotiator.ProductLength | backend/app/ai_agents/negotiator.py:38 | The product has as many combinations as the product of the list lengths. |
| Negotiator.ProductIndex | backend/app/ai_agents/negotiator.py:38 | Lexicographic order: the first attribute varies slowest. |
| Negotiator.ProductMembers | backend/app/ai_agents/negotiator.py:38 | A combination is exactly one value from each list, in list order. |
| Negotiator.ProductEmpty | backend/app/ai_agents/negotiator.py:38 | There are no combinations exactly when some list is empty. |
| Negotiator.JoinAll | backend/app/ai_agents/negotiator.py:39 | Each combination becomes its values joined with `_`, one string per combination. |
| Negotiator.GenerateVariantsShape | backend/app/ai_agents/negotiator.py:34-39 | For a non-empty mapping there are as many variants as the product of the lengths, each the `_`-join of the matching combination. |
| Negotiator.GenerateVariantsMembers | backend/app/ai_agents/negotiator.py:38-39 | Each choice of one value per attribute, in attribute order, appears among the variants. |
| Negotiator.GenerateVariantsCombos | backend/app/ai_agents/negotiator.py:38-39 | Conversely, each variant joins a combination of exactly one value per attribute, the values taken in attribute order. |
| Negotiator.GenerateVariantsFallback | backend/app/ai_agents/negotiator.py:34-36 | Passing no options or `{}` gives the base-option result. The result is empty exactly when the chosen mapping is empty or has an empty value list. |
| Negotiator.DefaultNeverEmpty | backend/app/ai_agents/negotiator.py:14-18 | A constructed negotiator never has an empty base mapping. |
| Negotiator.CustomOptionsExample | backend/tests/test_negotiator.py:19-25 | `{"size": ["S","L"], "color": ["green"]}` gives `["S_green", "L_green"]`, whatever the base options. |
| Negotiator.DefaultVariantsExample | backend/tests/test_negotiator.py:4-16 | The default negotiator gives the eight default combinations in lexicographic order. |
| V1Router.StoreVariantsKeys | backend/app/routers/v1.py:43-44 | Storing a batch adds exactly the batch's ids to the variant store. |
| V1Router.StoreVariantsLast | backend/app/routers/v1.py:43-44 | Each variant is found under its id unless a later one in the batch reuses that id. |
| V1Router.StoreVariantsOthers | backend/app/routers/v1.py:43-44 | Ids outside the batch keep their entries. |
| V1Router.GenerateThenGetJob | backend/app/routers/v1.py:45-56 | After `generate`, `get_job` returns the completed job with the variants in returned order. Other jobs and the feedback store are unchanged. |
| V1Router.GenerateThenGetVariant | backend/app/routers/v1.py:43-83 | After `generate`, every returned variant (ids distinct) is found under its id. Other ids answer as before. |
| V1Router.Unauthorized | backend/app/routers/v1.py:30-92 | When a token is presented but does not decode, every endpoint answers 401 and the channel closes with 1008 before accepting. |
| V1Router.FeedbackAppendsOne | backend/app/routers/v1.py:93-96 | An unknown variant gives 404. A known one gains exactly the submitted entry at the end of its list (created if absent); nothing else changes. |
| V1Router.FeedbackTwice | backend/app/routers/v1.py:95 | Two submissions leave two new entries in submission order. |
| V1Router.VariantEvents | backend/app/routers/v1.py:72-73 | One variant event per variant, in order. |
| V1Router.VariantEventsCarry | backend/app/routers/v1.py:72-73 | The variant events carry exactly the job's variants, in order, and no status. |
| V1Router.EventOrder | backend/app/routers/v1.py:61-74 | Push-channel order: a bad token closes with 1008 unaccepted, and an unknown job is accepted then closed with 1008. A known job gets one status event, then its variants in order, then a normal close. |
| V1Router.GenerateThenEvents | backend/app/routers/v1.py:45-73 | Replaying a just-generated job sends status `completed` and the batch `generate` returned. |
| V1Router.Registry.constructor | backend/app/routers/v1.py:25-27 | The three stores start empty. |
| V1Router.GenerateOnEventLoopFails | backend/app/routers/v1.py:38-47 | As written, with `run_generation` entered on the running event loop, an authorized call answers 500, changes no store, and its job is not found afterwards. Entered off the loop, the same call returns the completed job and `get_job` finds it. |
| V1Router.Registry.Generate | backend/app/routers/v1.py:38-47 | The corrected endpoint, with `run_generation` entered off the event loop. Without a token it answers 401 and changes nothing. Otherwise it returns the completed job, stores the variants, then the job. |
| V1Router.Registry.StoreBatch | backend/app/routers/v1.py:43-44 | The loop stores each variant under its id in order and touches no other store. |
| V1Router.Registry.GetJob | backend/app/routers/v1.py:50-56 | Answers 401, 404 or the stored job, without changing the stores. |
| V1Router.Registry.GetVariant | backend/app/routers/v1.py:77-83 | Answers 401, 404 or the stored variant, without changing the stores. |
| V1Router.Registry.SubmitFeedback | backend/app/routers/v1.py:86-96 | On error the stores are unchanged; on success it returns `{"status": "ok"}` and appends the entry. |
| V1Router.Registry.JobEvents | backend/app/routers/v1.py:59-74 | The actions on the websocket are exactly the event order above. |
| Workers.WithFlag | workers/render.py:13 | The flag is set and every other key keeps its value. |
| Workers.WithFlagIdempotent | workers/massing.py:13 | Setting a flag twice equals setting it once. |
| Workers.ChainFlags | workers/export.py:13 | `export(massing(render(p)))` sets all three flags and keeps p's other keys and values. |
| Workers.Render | workers/render.py:9-14 | A non-empty payload is updated in place and returned. A missing or empty one is replaced by a fresh `{"rendered": True}`, leaving the caller's empty dict as it was. |
| Workers.Massing | workers/massing.py:9-14 | The payload itself is returned, with `massing` set and nothing else changed. |
| Workers.Export | workers/export.py:9-14 | The payload itself is returned, with `exported` set and nothing else changed. |
| Pilot.PayloadOf | ktm-pilot-starter/backend/app.py:287 | An unparsable or falsy body becomes `{}`; a truthy body is kept as it is. |
| Pilot.MissingFromMembers | ktm-pilot-starter/backend/app.py:288 | The missing fields are exactly the required fields that `in` does not find in the payload. |
| Pilot.MissingFromOrder | ktm-pilot-starter/backend/app.py:288 | The missing fields keep the order of the required-field list. |
| Pilot.MissingFromEmpty | ktm-pilot-starter/backend/app.py:288-289 | Nothing is missing exactly when `in` finds every required field. |
| Pilot.ArrayBodyPasses | ktm-pilot-starter/backend/app.py:287-289 | An array body listing the three field names is missing no field. |
| Pilot.StringBodyPasses | ktm-pilot-starter/backend/app.py:287-289 | A string body that contains each field name is missing no field, by substring search. |
| Pilot.ScalarBodies | ktm-pilot-starter/backend/app.py:287-288 | A non-zero number or `true` cannot be searched by `in`. A zero, an empty string, `null` or an unparsable body counts as `{}`. |
| Pilot.EmptyBodyMessage | ktm-pilot-starter/backend/app.py:287-289 | An empty body reports `['site', 'program', 'constraints']`. |
| Pilot.RunId | ktm-pilot-starter/backend/app.py:290 | A run id is `RUN-` followed by eight upper-case hex digits. |
| Pilot.RunIdRecoversUuid | ktm-pilot-starter/backend/app.py:290 | The run id determines the first eight digits of its uuid. |
| Pilot.StatusRecord | ktm-pilot-starter/backend/app.py:246-249 | A status record holds the step, percent and state. The `error` key is written exactly when the message is non-empty. |
| Pilot.Runs.constructor | ktm-pilot-starter/backend/app.py:14-15 | The runs directory starts empty. |
| Pilot.RunDir.constructor | ktm-pilot-starter/backend/app.py:291-292 | A new run directory holds its request and nothing else. |
| Pilot.Runs.CreateRun | ktm-pilot-starter/backend/app.py:285-294 | A payload that `in` cannot search raises `TypeError`, which gives 500 and creates no run. A missing field gives 400 naming the missing fields, and no run is created. Otherwise 202 is returned with the status URL of run `RUN-…`. A new id gets a new directory holding the request and one QUEUED status. An id already in use keeps its directory: the request is rewritten, a QUEUED status is appended, and an earlier dag stays. Other runs are unchanged. |
| Pilot.StepPercentsIncrease | ktm-pilot-starter/backend/app.py:257-265 | Seven steps whose percents rise strictly and stay between 0 and 100. |
| Pilot.FirstFailure | ktm-pilot-starter/backend/app.py:266-267 | Finds the first step whose action raises: every earlier step succeeds. |
| Pilot.WorkerWritesShape | ktm-pilot-starter/backend/app.py:251-272 | Status percents rise strictly and every write but the last is RUNNING. The last is SUCCEEDED (complete, 100) exactly when nothing raised and FAILED otherwise. No step after a failure writes a status. |
| Pilot.FailureMessage | ktm-pilot-starter/backend/app.py:246-272 | A failure records `error`/`FAILED` and the message, with no `error` key for an empty message. |
| Pilot.RunSteps | ktm-pilot-starter/backend/app.py:266-267 | The loop writes one RUNNING status per step up to the first failure, then that failure. It reports completion exactly when no step raised. |
| Pilot.PipelineWorker | ktm-pilot-starter/backend/app.py:251-272 | The worker writes the status sequence of `WorkerWrites`. `dag.json` lists the seven steps exactly when the run succeeds. |
| Pilot.SizeFromProgram | ktm-pilot-starter/backend/app.py:237-243 | There is at least one floor, the height is 3 m per floor, and the footprint is the area per floor (400 m² without a positive area). |
| Pilot.Priced | ktm-pilot-starter/backend/app.py:80 | A priced row's total is quantity times rate. |
| Pilot.ComputeEstimate | ktm-pilot-starter/backend/app.py:59-92 | Nine rows in fixed order with the source's quantities. Contingency is 7% of the subtotal and the grand total is the subtotal plus contingency, i.e. 14854.81 NPR per m². |
| Pilot.SumTotals | ktm-pilot-starter/backend/app.py:88 | The loop computes the sum of the row totals. |
| Pilot.EstimatePerSquareMetre | ktm-pilot-starter/backend/app.py:62-89 | The seven priced rows come to 13883 NPR per m², or 14854.81 with contingency. |
| Pilot.GltfBoxShape | ktm-pilot-starter/backend/app.py:153-182 | 8 vertices (24 coordinates) and 36 indices (12 triangles), every index naming a vertex. Buffers are 96 and 72 bytes. |
| Pilot.GltfBoxHeights | ktm-pilot-starter/backend/app.py:153-156 | The first four corners lie on the ground and the last four at the building height. |
| ContextModels.NewUQNumber | backend/app/models/context.py:16-21 | Uncertainty and unit default to absent. |
| ContextModels.ParseScen | backend/app/models/context.py:24-30 | A scenario value is accepted exactly when it is one of the four enum values. |
| ContextModels.ScenValueRoundTrip | backend/app/models/context.py:24-30 | Scenario values and members correspond one to one. |
| ContextModels.NewStage0Request | backend/app/models/context.py:92-97 | The scenario defaults to historical and there is no lineage. |
| ContextModels.NewSiteContext | backend/app/models/context.py:100-109 | Only the request is required; every other part defaults to absent. |
| Stage0Context.Random | backend/app/services/stage0_context.py:66 | A draw takes the next value and advances the generator by one. |
| Stage0Context.Uniform | backend/app/services/stage0_context.py:77-98 | `uniform(a, b)` scales one draw into [a, b) and advances the generator by one. |
| Stage0Context.JitterBounds | backend/app/services/stage0_context.py:66 | A draw in [0, 1) gives a jitter factor in [1 - rel/2, 1 + rel/2). |
| Stage0Context.WithUq | backend/app/services/stage0_context.py:59-68 | The value is scaled by the jitter of one draw, and the uncertainty is `|val| * rel`. |
| Stage0Context.ScenMultIncreasing | backend/app/services/stage0_context.py:78-83 | Multipliers rise: historical < ssp1-2.6 < ssp2-4.5 < ssp5-8.5, all at least 1. |
| Stage0Context.SyntheticClimate | backend/app/services/stage0_context.py:71-87 | A missing scenario fails. Otherwise three draws give exposure, 60% damage and their mean as the score. |
| Stage0Context.ClimateBounds | backend/app/services/stage0_context.py:77-86 | With draws in [0, 1), the risk values are non-negative and exposure stays below 1.05 times the multiplier. |
| Stage0Context.SyntheticZoning | backend/app/services/stage0_context.py:90-93 | Compliant exactly when the draw exceeds 0.1. The variance message is present exactly when not compliant. |
| Stage0Context.SyntheticDataQuality | backend/app/services/stage0_context.py:96-101 | Four draws give completeness and accuracy; the source is always `synthetic`. |
| Stage0Context.SyntheticPrivacy | backend/app/services/stage0_context.py:104-107 | PII is flagged exactly when the draw is below 0.05, and a comment is present exactly then. |
| Stage0Context.SyntheticAudit | backend/app/services/stage0_context.py:110-115 | Two items, `lat` then `lon`, carry the request's values at version `0.1`. |
| Stage0Context.SynthesizedShape | backend/app/services/stage0_context.py:140-149 | The built context carries the request, the mean risk score and the zoning and privacy iff-invariants. It has the lat/lon audit, synthetic data quality and the default subsurface stub. |
| Stage0Context.MissingScenarioFails | backend/app/services/stage0_context.py:78-143 | Building fails exactly when the request has no scenario. |
| Stage0Context.RoundHalfEven | backend/app/services/stage0_context.py:135 | Gives a nearest integer, within one half. |
| Stage0Context.Format4 | backend/app/services/stage0_context.py:135 | `:.4f` keeps the sign and the ten-thousandths rounded to within a half. |
| Stage0Context.Format4Exact | backend/app/services/stage0_context.py:135 | A coordinate with at most four decimals is formatted exactly. |
| Stage0Context.KeyOfSeparates | backend/app/services/stage0_context.py:135 | Two requests share a key exactly when lat and lon agree to four decimals and the scenarios agree; lineage is ignored. |
| Stage0Context.CacheStepEffect | backend/app/services/stage0_context.py:135-152 | A hit returns the stored context with the cache unchanged. A miss stores the new context under exactly its key, and a failure stores nothing. |
| Stage0Context.SameKeySameContext | backend/app/services/stage0_context.py:135-138 | A later request with the same key gets the very same context, which records the first request. |
| Stage0Context.ContextCache.constructor | backend/app/services/stage0_context.py:38 | The cache starts empty. |
| Stage0Context.ContextCache.BuildSiteContext | backend/app/services/stage0_context.py:127-152 | The method's result and its new cache are those of the memoisation step. |
| Stage0Router.ContextLookup | backend/app/routers/stage0.py:119-122 | An id is found exactly when it is stored, and the lookup returns its context; otherwise it answers 404 `Context not found`. |
| Stage0Router.UploadOutcome | backend/app/routers/stage0.py:110-112 | Upload succeeds with `uploaded = True` exactly for a stored id, and answers 404 otherwise. |
| Stage0Router.UploadIffGet | backend/app/routers/stage0.py:110-122 | An id can be uploaded exactly when it can be fetched, and both fail with the same error. |
| Stage0Router.StoreThenGet | backend/app/routers/stage0.py:94-122 | A stored context is fetched back and uploadable; other ids answer as before. |
| Stage0Router.TwoBuildsShareContext | backend/app/routers/stage0.py:92-94 | Two builds for the same key, under distinct ids, map both ids to the same cached context. |
| Stage0Router.ContextStore.constructor | backend/app/routers/stage0.py:17 | The store starts empty. |
| Stage0Router.ContextStore.BuildContext | backend/app/routers/stage0.py:88-95 | The built context is stored under the fresh id and returned with it. A failed build stores nothing. |
| Stage0Router.ContextStore.UploadContext | backend/app/routers/stage0.py:106-112 | Answers as `UploadOutcome`, without changing the store. |
| Stage0Router.ContextStore.GetContext | backend/app/routers/stage0.py:115-122 | Answers as `ContextLookup`, without changing the store. |
| Stage0Router.ValidateContext | backend/app/routers/stage0.py:98-103 | Every context is valid, with no errors. |
| Stage0Router.ListSources | backend/app/routers/stage0.py:125-129 | The only source is `synthetic-data`. |
| Stage0Router.ResolveRoundTrip | backend/app/routers/stage0.py:132-136 | Stripping `resolved: ` gives the query back, so distinct queries resolve distinctly. |
| Stage0Router.CounterfactualRoundTrip | backend/app/routers/stage0.py:139-143 | Stripping `counterfactual for ` gives the scenario back. |
| Stage0Router.PolicyWatchRoundTrip | backend/app/routers/stage0.py:146-150 | Stripping `watching ` gives the policy id back. |
| TtlCache.EffectiveTtl | backend/shared/cache.py:48 | A missing or zero TTL is replaced by the draw; any other TTL is kept. |
| TtlCache.DefaultTtlRange | backend/shared/cache.py:47-48 | A defaulted TTL lies between 900 and 3600 seconds. |
| TtlCache.GetStep | backend/shared/cache.py:36-43 | An absent key gives nothing. An entry expired before `now` gives nothing and is removed. Otherwise the value is returned and nothing changes. |
| TtlCache.SetStep | backend/shared/cache.py:48-55 | The key holds the value and `now + ttl`; every other key is unchanged. |
| TtlCache.SetThenGet | backend/shared/cache.py:40-55 | A set value is returned up to and including its expiry instant, and not after. |
| TtlCache.OtherKeysUnaffected | backend/shared/cache.py:41-55 | `set` and `get` on one key leave every other key's answer unchanged. |
| TtlCache.GetIdempotent | backend/shared/cache.py:36-43 | A second `get` at the same instant answers the same and changes nothing more. |
| TtlCache.ExpiredStaysExpired | backend/shared/cache.py:40-42 | Once a key answers nothing, it answers nothing at every later instant. |
| TtlCache.MemoryCache.constructor | backend/shared/cache.py:26 | The in-memory cache starts empty. |
| TtlCache.MemoryCache.Get | backend/shared/cache.py:29-43 | The answer and the new cache are those of `GetStep`. |
| TtlCache.MemoryCache.Set | backend/shared/cache.py:46-55 | The new cache is that of `SetStep`. |
| StageServices.Counted | backend/app/services/stage8.py:16-20 | An append result reports the given count. |
| StageServices.StateResult | backend/app/services/stage8.py:22-24 | A read result carries the state dictionary itself. |
| StageServices.Stage8Service.constructor | backend/app/services/stage8.py:9-11 | A new service has an empty log and plan `{"tasks": []}`. |
| StageServices.Stage8Service.Telemetry | backend/app/services/stage8.py:13-20 | Appends exactly the entry at the end and reports the new length. The plan is untouched. |
| StageServices.Stage8Service.Plan | backend/app/services/stage8.py:22-24 | Returns the plan under stage 8, `current plan`, changing nothing. |
| StageServices.Stage8Module.constructor | backend/app/services/stage8.py:27 | The module service is a new, empty service. |
| StageServices.Stage8Module.Telemetry | backend/app/services/stage8.py:30-31 | Delegates to the current module service. |
| StageServices.Stage8Module.Plan | backend/app/services/stage8.py:34-35 | Delegates to the current module service. |
| StageServices.Stage8Module.ResetState | backend/app/services/stage8.py:38-41 | Replaces the module service with a new, empty one. |
| StageServices.Stage9Service.constructor | backend/app/services/stage9.py:10-12 | A new service has no tuning events and wellness `{"status": "nominal"}`. |
| StageServices.Stage9Service.Tuning | backend/app/services/stage9.py:14-29 | Appends exactly the event and reports the new length under stage 9. Wellness is untouched. |
| StageServices.Stage9Service.Wellness | backend/app/services/stage9.py:31-40 | Returns the wellness state, changing nothing. |
| StageServices.Stage10Service.constructor | backend/app/services/stage10.py:10-12 | A new service has no revenue records and resilience `{"score": 0}`. |
| StageServices.Stage10Service.Revenue | backend/app/services/stage10.py:14-29 | Appends exactly the record and reports the new length under stage 10. The metrics are untouched. |
| StageServices.Stage10Service.Resilience | backend/app/services/stage10.py:31-40 | Returns the resilience metrics, changing nothing. |
| StageServices.Stage11Service.constructor | backend/app/services/stage11.py:10-12 | A new service has no salvage reports and match state `{"matches": []}`. |
| StageServices.Stage11Service.Salvage | backend/app/services/stage11.py:14-29 | Appends exactly the report and reports the new length under stage 11. The match state is untouched. |
| StageServices.Stage11Service.Match | backend/app/services/stage11.py:31-38 | Returns the match state, changing nothing. |
| StageServices.TwoTelemetryAppends | backend/app/services/stage8.py:13-24 | Two appends to a new service report counts 1 and then 2, and the plan still reads as the initial plan. |
| StageServices.ResetThenTelemetry | backend/app/services/stage8.py:38-41 | After `reset_state` the next telemetry count is 1, whatever was recorded before. |
| Common.JoinLength | backend/app/ai_agents/orchestrator.py:102 | A join is as long as its parts plus one separator between neighbours. |
| Common.StripPrefix | backend/app/routers/stage0.py:136 | Stripping succeeds exactly when the prefix opens the string and gives back the rest. |

## Left out

- Agent behaviour (`random.choice` in the agents), `asyncio` gathering and the random dimension scores are inputs (`RoundInput`, `Draws`), because they are randomness and concurrency.
- The uuids of candidates, jobs, contexts and runs are inputs. Their freshness is not guaranteed by the model, because `uuid4` is randomness.
- Database persistence in `run_generation` (session, tables, commits) is left out, because it is I/O.
- JWT decoding is a boolean `authorized` input, because it is a foreign library. The framework checks that run before it are not modelled either. `HTTPBearer` rejects a missing or non-Bearer `Authorization` header itself, with 403 in long-standing FastAPI releases. On the HTTP routes a path id that is not a uuid is rejected with 422. On the push channel, a bad `job_id` or a missing `token` closes the socket with 1008 before it is accepted. `str(job_id)` normalises the id to lower case.
- The `/v1` router is not mounted by `backend/app/main.py`. `app.models` does not export the names it imports (`FeedbackIn`, `GenerateRequest`, `JobEvent`, `JobOut`, `JobStatus`, `VariantOut`). The model treats the router as if those definitions existed.
- V1Router.Registry.Generate: models the corrected endpoint, with `run_generation` entered off the event loop. As written, the call raises and answers 500 (see "## Findings" and `V1Router.GenerateOnEventLoopFails`).
- V1Router.EventOrder: assumes every event serialises. `JobEvent` is not part of this model, and `variant.model_dump()` keeps the variant's `id` as a `UUID`. Unless `JobEvent` converts it, the JSON encoding in `send_json` rejects the first variant event. A job with variants would then end after its status event with an error rather than a normal close.
- Orchestrator.ScoreCandidate: scores, weights and the composite are exact reals; float rounding and the left-to-right order of `sum` are not modelled. Composites that tie in the model may differ as doubles, and the reverse, so the order of `variants.sort` over such ties may differ. The ordering lemmas hold for any key.
- `DesignState` keeps only its candidate list. Its context, feedback, emotion statistics and seed are never read or written by the engine.
- The job lifecycle is not modelled beyond `completed`, the only status the router records.
- Celery task registration, broker configuration and the one-second sleeps are left out, because they are plumbing and timing.
- Pilot I/O is left out:
  - Flask routing, file writes, zip streaming and the worker thread;
  - reportlab PDFs, the IFC export, YAML/`eval` rule evaluation;
  - the base64 and `struct` packing of the glTF buffers.

  The pipeline's action outcomes are inputs.
- The `updatedAt` timestamp of a status record is left out, because it is a clock reading.
- Pilot.Runs.CreateRun: a run created from an array or string body is stored as that value. The worker's later `payload["program"]` failure is its `setup` input, not derived from the request.
- Pilot.SizeFromProgram: does not compute the side `sqrt(area) * 1.10` used for width and depth, because there is no square root over exact reals. It also takes `floorsAbove` as an already-converted integer rather than modelling `int(...)` on arbitrary JSON.
- Pilot.ComputeEstimate: amounts are exact reals and `round(..., 2)` is not applied, because that is float rounding. It takes `grossFloorArea_m2` as a number rather than modelling `float(...)` on arbitrary JSON.
- Stage0Context.WithUq: float jitter is exact real arithmetic, because IEEE rounding is not modelled.
- Python's `hash`-seeded `Random` is an abstract supply of draws in [0, 1), because the seeding and the Mersenne Twister are foreign.
- Stage0Context.Format4: `:.4f` is modelled as sign plus rounded ten-thousandths rather than text, and its input is an exact real, not a binary double. Like Python, a negative value that rounds to zero keeps its minus sign, so it keys apart from zero.
- The Redis branch of the shared cache is left out, because it is a network client; the clock is the explicit `now`.
- The routers of stages 8–11 build a new service per request. That dependency wiring is left out; the services are modelled directly.
- `scheduler_stub` in stage 8 does nothing and is not modelled.
- The frontend, the HTTP client for stage 0, the stage 1–7 routers and services and the application wiring are outside the modelled core.
- Workers: key order in the payload dict is not modelled; payloads are maps.
- The glTF box's triangles are not proved to be distinct or consistently wound; only the counts, index ranges and byte lengths are stated.

Where the code and its documentation disagree, the model follows the code:

- `generate_variants` documents that an empty options mapping yields `[]`. The code's `options or self.base_options` sends `{}` to the base options, so the model follows the code (`Negotiator.GenerateVariantsFallback`).
- `get_job` and `get_variant` test `if not job`. A stored model is always truthy, so this is read as "absent".
- A request whose scenario is `None` raises `KeyError` in the multiplier lookup; the model reports it as an error.
- `validate_context` always answers valid, although a test asserts otherwise; the model follows the code.
- The shapes of `JobOut` and `FeedbackIn` are taken from their use in the router, because their definitions are not part of this model.

## Findings

| source | as written | input that shows it | evidently intended | confidence | as-written member | corrected member |
|---|---|---|---|---|---|---|
| backend/app/routers/v1.py:38-47 | `generate` is an `async def` endpoint, so it runs on the server's event loop. It calls `run_generation`, whose `asyncio.run(run_loop())` (orchestrator.py:180) raises `RuntimeError` when the calling thread already runs an event loop. Every authorized request answers 500 and stores nothing. | any `POST /v1/generate` with a valid token | the rounds run, for example with `run_generation` in a worker thread, and the completed job is stored and returned | high; not executed | V1Router.GenerateOnEventLoopFails | V1Router.Registry.Generate |
