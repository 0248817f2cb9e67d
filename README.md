# BehaviorOpt core, modelled in Dafny

BehaviorOpt is an A/B-testing platform for behavioural interventions. This
project models its core in Dafny and proves properties of that model:

- **Deterministic variant assignment.** A user's traffic bucket and variant
  bucket come from salted MD5 hashes. The variant is chosen by a
  cumulative-weight scan.
- **The per-day results table**, which every conversion upserts.
- **The statistics engine.** It covers per-variant sums, the Wilson score
  interval, the two-proportion z-test using the normal CDF of formula 7.1.26
  of Abramowitz and Stegun, the uplift and the sample size.
- **The experiment lifecycle**: draft, running, paused and completed, plus the
  defaults applied when variants are created.
- **The in-memory TTL cache**, which stands in for Redis.
- **The browser tracker's event queue.**
- **The response envelope.** The API's `responseWrapper` and
  `errorResponseWrapper` functions wrap bodies, and the web client's `request`
  unwraps them. The model includes the client's 401 refresh-and-retry rule.
  The deployed server does not mount the wrapper, so its own bodies reach the
  client unwrapped (see "## Left out").
- **Account bookkeeping**: the organisation subdomain slug, signup and login,
  and the refresh-token protocol.
- **The Experiments page's decisions**: row actions, search and pagination.

## Modules and what they abstract

- `wrappers.dfy`: `Option` and `Result`.
- `js.dfy`: the JavaScript value semantics the code relies on.
  - JSON values, truthiness and `||`.
  - Property reads, which throw on null or undefined, and `hasOwnProperty`.
  - ASCII `toLowerCase` and `includes`, and decimal rendering of integers.
- `domain.dfy`: the shared entities. These are Status, Variant, Experiment,
  result rows and HTTP errors, plus variant weight sums.
- `tracking.dfy`: `assignVariant`, `hash`, the assignment loops of `track` and
  `getAssignments`, and `updateExperimentResults`.
  - MD5 is a parameter returning 32 hex digits.
  - The table is a `map` inside the `ResultsTable` class.
- `statistics.ts` is modelled over the reals in `statistics.dfy`.
  - `Math.sqrt` and `Math.exp` are parameters. Only the signs of their
    results are known.
  - The NaN that a zero-trial comparison produces is modelled explicitly.
- `lifecycle.dfy`: the guards of `start`, `pause`, `complete` and `update`;
  `create`'s variant defaults; and a store class running the endpoints.
- `cache.dfy`: class `InMemoryCache` over a `map`. The clock, in milliseconds,
  is a parameter.
- `accounts.dfy`, `auth.dfy`, `simpleauth.dfy`: the slug, signup and login
  decisions, and both authentication controllers.
  - bcrypt is a parameter, and so are JWT signing, verification and decoding.
- `tracker.dfy`: class `BehaviorOptTracker`.
  - A flush is split at its `await` into `BeginFlush` and `SettleFlush`.
  - The outcome of the `fetch` is a parameter.
- `envelope.dfy`: `responseWrapper` and `errorResponseWrapper`, as functions of
  the data and the status.
- `apiclient.dfy`: `ApiService.request` and the response interceptor.
  - The server is a function from the URL and the number of earlier requests
    to the response.
- `experimentspage.dfy`: `getAvailableActions`, the search filter, the results
  link and the pagination expressions of the Experiments page.

## Model

| member | source | states |
|---|---|---|
| Tracking.Hash | packages/api/src/controllers/tracking.controller.ts:185-188 | the first eight hex digits of the digest, read as a number, lie below 2^32 |
| Tracking.ParseHex | packages/api/src/controllers/tracking.controller.ts:187 | the value of k hex digits lies below 16^k |
| Tracking.TrafficPercentage | packages/api/src/controllers/tracking.controller.ts:163-164 | the traffic bucket lies in 1..100 |
| Tracking.VariantPercentage | packages/api/src/controllers/tracking.controller.ts:171-172 | the variant bucket lies in 1..100 |
| Tracking.FirstReachingFrom | packages/api/src/controllers/tracking.controller.ts:174-180 | a found index lies between the start and the end of the variants |
| Tracking.FirstReaching | packages/api/src/controllers/tracking.controller.ts:174-180 | a found index is a valid variant index |
| Tracking.AssignVariant | packages/api/src/controllers/tracking.controller.ts:161-183 | the loop with its running cumulative weight returns exactly the specified assignment (the traffic check, then the first variant whose cumulative weight reaches the bucket, else `variants[0]`) |
| Tracking.BucketsInRange | packages/api/src/controllers/tracking.controller.ts:163-172 | both buckets lie in 1..100 |
| Tracking.AllocationExtremes | packages/api/src/controllers/tracking.controller.ts:164-168 | an allocation of 0 or less excludes every user; with an allocation of 100 or more, every user gets a variant when there are variants |
| Tracking.InclusionMonotone | packages/api/src/controllers/tracking.controller.ts:166 | a user included at allocation a gets the same variant at every larger allocation |
| Tracking.AssignedIsMember | packages/api/src/controllers/tracking.controller.ts:161-183 | the result is null or one of the experiment's variants; it is null exactly when the user is outside the allocation or there are no variants |
| Tracking.FirstReachingFromIsFirst | packages/api/src/controllers/tracking.controller.ts:174-180 | the found index reaches the bucket and no earlier index does; none is found exactly when no index reaches it |
| Tracking.AssignedIsFirstReaching | packages/api/src/controllers/tracking.controller.ts:174-182 | an included user gets the first variant whose cumulative weight reaches the bucket, or `variants[0]` when none does |
| Tracking.FallbackIffShortWeights | packages/api/src/controllers/tracking.controller.ts:174-182 | with non-negative weights, the fallback is taken exactly when the total weight is below the bucket, so never when the weights total 100 |
| Tracking.AssignAll | packages/api/src/controllers/tracking.controller.ts:138-152 | the loop builds exactly the assignment and intervention maps of the specification functions |
| Tracking.AssignmentsKeys | packages/api/src/controllers/tracking.controller.ts:36-41 | an experiment id is a key of the assignments exactly when some experiment with that id is assigned a variant |
| Tracking.KeyWitness | packages/api/src/controllers/tracking.controller.ts:36-41 | every key of the assignments comes from a running experiment with that id that assigned a variant |
| Tracking.KeyPresent | packages/api/src/controllers/tracking.controller.ts:36-41 | every running experiment that assigns a variant leaves its id as a key |
| Tracking.AssignmentsValues | packages/api/src/controllers/tracking.controller.ts:36-41 | with distinct ids, each assigned experiment maps to the id of its assigned variant |
| Tracking.Upsert | packages/api/src/controllers/tracking.controller.ts:206-230 | afterwards the row exists; its conversions are one more than before (or 1 for a new row); uniqueUsers is unchanged (or 0); the rate is conversions / max(uniqueUsers, 1); every other row is unchanged |
| Tracking.UpsertAllStep | packages/api/src/controllers/tracking.controller.ts:61-69 | upserting one more key extends the set of upserted keys |
| Tracking.UpsertKeepsNoUsers | packages/api/src/controllers/tracking.controller.ts:214-230 | starting from rows without users, every row still counts no user after an upsert, and the upserted row has at least one conversion |
| Tracking.ResultsTable.constructor | packages/api/src/controllers/tracking.controller.ts:206-224 | the table starts with the given rows |
| Tracking.ResultsTable.UpdateExperimentResults | packages/api/src/controllers/tracking.controller.ts:198-231 | the table becomes the upsert of the old table at today's key |
| Tracking.ResultsTable.Track | packages/api/src/controllers/tracking.controller.ts:35-69 | returns the assignments map; the rows are upserted once per assigned experiment only when `properties.conversion` is truthy, and are unchanged otherwise |
| Domain.PrefixWeightMonotone | packages/api/src/controllers/tracking.controller.ts:174-177 | with non-negative weights, prefix sums never decrease |
| Statistics.SumsNonNeg | packages/api/src/utils/statistics.ts:27-30 | summing rows with non-negative counts gives non-negative users and conversions |
| Statistics.SumsWithoutUsers | packages/api/src/utils/statistics.ts:29 | rows that count no user sum to 0 users for every variant |
| Statistics.SumsWellFormed | packages/api/src/utils/statistics.ts:27-30 | summing rows with 0 <= conversions <= users keeps 0 <= conversions <= users |
| Statistics.SumsAppend | packages/api/src/utils/statistics.ts:27-30 | the sums over a concatenation of rows are the sums of the parts |
| Statistics.SumsIgnoreOtherVariants | packages/api/src/utils/statistics.ts:27 | rows of other variants contribute nothing |
| Statistics.ConversionRate | packages/api/src/utils/statistics.ts:31 | the rate is 0 without users; otherwise rate * users = conversions; and it lies in [0, 1] |
| Statistics.WilsonTermNonNeg | packages/api/src/utils/statistics.ts:87 | the argument of the square root is non-negative |
| Statistics.ConfidenceInterval | packages/api/src/utils/statistics.ts:73-93 | {0, 0} without trials, whatever the successes; NaN bounds when the square root's argument is negative; a numeric lower bound is >= 0 and a numeric upper bound <= 1; with successes <= trials both bounds are numbers and lower <= upper |
| Statistics.HalfWidth | packages/api/src/utils/statistics.ts:87 | the half-width z sqrt(term) / (1 + z^2/n) is non-negative |
| Statistics.CentreInUnitInterval | packages/api/src/utils/statistics.ts:84-86 | the Wilson centre lies strictly inside (0, 1) |
| Statistics.IntervalBracketsCentre | packages/api/src/utils/statistics.ts:84-92 | with 0 <= successes <= trials the square root's argument is non-negative, lower = max(0, centre - halfWidth), upper = min(1, centre + halfWidth), and lower <= centre <= upper |
| Statistics.IntervalContainsRate | packages/api/src/utils/statistics.ts:84-92 | with an exact square root and 0 <= successes <= trials, lower <= successes / trials <= upper: the Wilson interval contains the observed rate |
| Domain.Abs | packages/api/src/utils/statistics.ts:112 | the absolute value (`Math.abs`, also used for the weight tolerance in `start`) is non-negative and equals x or -x |
| Statistics.NormalCDFSymmetric | packages/api/src/utils/statistics.ts:127-138 | CDF(-z) = 1 - CDF(z) for every z other than 0, whatever `exp` is |
| Statistics.NormalCDFAtZero | packages/api/src/utils/statistics.ts:127-138 | at 0 the approximation is 0.5 * (2 - 0.999999999 * exp(0)), so symmetry fails there |
| Statistics.PooledVariance | packages/api/src/utils/statistics.ts:104-108 | with trials on both sides, the pooled variance is non-negative exactly when the successes do not exceed the trials in total, so only then is its square root a number |
| Statistics.PValueCases | packages/api/src/utils/statistics.ts:106-115 | for non-negative counts with trials on both sides and no more successes than trials in total: the p-value is 1 when the standard error is 0; otherwise it is 2 * (1 - CDF(z)) with z >= 0 |
| Statistics.EqualRatesPValue | packages/api/src/utils/statistics.ts:110-115 | equal groups give the p-value 1 or 1 - y(0) |
| Statistics.PValueOrNaN | packages/api/src/utils/statistics.ts:95-116 | for any non-negative counts, the p-value is NaN exactly when one side has no trials or the successes exceed the trials in total; otherwise it is the z-test p-value |
| Statistics.Uplift | packages/api/src/utils/statistics.ts:63-65 | 0 for a zero control rate; otherwise uplift * controlRate = (rate - controlRate) * 100, positive exactly when the rate beats the control |
| Statistics.BaseResult | packages/api/src/utils/statistics.ts:26-44 | for rows with non-negative counts, a variant's id, name and sums, with non-negative conversions and sample size and no comparison |
| Statistics.Compare | packages/api/src/utils/statistics.ts:54-65 | for non-negative figures, isSignificant holds exactly when the p-value is below 0.05; the uplift is taken against the control's rate |
| Statistics.ControlIndex | packages/api/src/utils/statistics.ts:47 | the index of the first variant flagged isControl, or none when no variant is |
| Statistics.CalculateStatistics | packages/api/src/utils/statistics.ts:19-71 | for rows with non-negative counts, one result per variant, in the variants' order, each equal to the specified result there |
| Statistics.ResultAtProperties | packages/api/src/utils/statistics.ts:26-68 | for rows with non-negative counts, each result carries its variant's sums and rate; its interval is {0, 0} without users and numeric with 0 <= lower <= upper <= 1 when conversions do not exceed users; a comparison exactly on non-control variants when a control exists, significant iff p < 0.05, and none on the control |
| Statistics.ComparisonAgainstControl | packages/api/src/utils/statistics.ts:49-66 | uplift against the control's rate; the p-value is NaN exactly when one side has no users or the two sides together have more conversions than users |
| Statistics.ReportWithoutUsers | packages/api/src/utils/statistics.ts:26-66 | over rows that count no user, every variant has sample size 0, rate 0 and the interval {0, 0}, and every comparison has a NaN p-value, is not significant and has uplift 0 |
| Statistics.Ceil | packages/api/src/utils/statistics.ts:158 | the result is the least integer at or above x |
| Statistics.SampleSize | packages/api/src/utils/statistics.ts:141-158 | the result is the least integer at or above 2 p̄ (1 - p̄) (1.96 + 0.84)^2 / (p1 - p2)^2 |
| Statistics.SampleSizeIgnoresPowerAndSignificance | packages/api/src/utils/statistics.ts:144-149 | the result does not depend on `power` or `significance` |
| Statistics.SampleSizePositive | packages/api/src/utils/statistics.ts:151-158 | with 0 < p̄ < 1 and a non-zero effect, at least one user is required |
| Lifecycle.StartGuard | packages/api/src/controllers/experiment.controller.ts:208-221 | `start` succeeds exactly from draft or paused with weights totalling 100 within 0.01; it then changes only the status (to running) and the start time; each refusal carries its own 400 message |
| Lifecycle.PauseGuard | packages/api/src/controllers/experiment.controller.ts:234-250 | `pause` succeeds exactly on a running experiment and changes only its status, to paused; otherwise the 404 "Running experiment not found" |
| Lifecycle.CompleteFromAnyStatus | packages/api/src/controllers/experiment.controller.ts:275-278 | `complete` succeeds from every status, changes only the status and the completion time, and is idempotent |
| Lifecycle.UpdateGuard | packages/api/src/controllers/experiment.controller.ts:169-183 | the 400 "Cannot update running experiment" exactly while running; otherwise the 500 "Failed to update experiment" exactly when the body names a status or intervention type outside its enumeration, or a missing project; on success every modelled attribute the body names takes its value, the others are kept, and a named project also sets the organisation to that project's |
| Lifecycle.UpdateCanMoveAcrossOrganizations | packages/api/src/controllers/experiment.controller.ts:160-178 | an update naming another organisation's project succeeds and moves the experiment out of the caller's organisation |
| Lifecycle.TransitionsKeepRunningWeightsValid | packages/api/src/controllers/experiment.controller.ts:208-278 | start, pause and complete keep every running experiment's weights totalling 100 |
| Lifecycle.UpdateCanBypassStartChecks | packages/api/src/controllers/experiment.controller.ts:174-178 | an update can set a draft whose weights do not total 100 running |
| Lifecycle.UpdateWithoutRunningKeepsWeightsValid | packages/api/src/controllers/experiment.controller.ts:174-178 | an update whose body does not set the status to running keeps the running-weights invariant |
| Lifecycle.CreateVariants | packages/api/src/controllers/experiment.controller.ts:62-77 | one variant per input |
| Lifecycle.CreatedVariantsShape | packages/api/src/controllers/experiment.controller.ts:62-76 | exactly index 0 is the control; a missing name becomes "Control" or "Variant i"; an absent or zero weight becomes 100 / n; the configuration is the defaults overridden key by key |
| Lifecycle.DefaultedPrefixWeight | packages/api/src/controllers/experiment.controller.ts:71 | k equal shares weigh k times the share |
| Lifecycle.DefaultWeightsTotal100 | packages/api/src/controllers/experiment.controller.ts:71 | with every weight defaulted the weights total exactly 100, so `start` accepts them |
| Lifecycle.TrafficAllocationOf | packages/api/src/controllers/experiment.controller.ts:31 | an absent allocation defaults to 100 and a given one is kept |
| Lifecycle.CreatedIsStartableDraft | packages/api/src/controllers/experiment.controller.ts:36-87 | success exactly for a project of the caller's organisation whose intervention type (and any given type) is a value of its enumeration; otherwise 404 "Project not found" for a foreign project, or else 500 "Failed to create experiment"; a created experiment is a draft with no start or completion time, and it can be started when its weights were defaulted |
| Lifecycle.UnknownInterventionRejected | packages/api/src/controllers/experiment.controller.ts:47-87 | a body naming the caller's project with the intervention type "foo" gets the 500 "Failed to create experiment" |
| Lifecycle.ExperimentStore.constructor | packages/api/src/controllers/experiment.controller.ts:14 | the store starts with the given experiments |
| Lifecycle.ExperimentStore.Lookup | packages/api/src/controllers/experiment.controller.ts:190-206 | an experiment is found exactly when it exists and belongs to the caller's organisation |
| Lifecycle.ExperimentStore.StartExperiment | packages/api/src/controllers/experiment.controller.ts:186-228 | 404 when not found; otherwise the `start` decision, with the store written only on success; keeps the store's invariants |
| Lifecycle.ExperimentStore.PauseExperiment | packages/api/src/controllers/experiment.controller.ts:230-256 | 404 when not found or not running; otherwise paused; keeps the invariants |
| Lifecycle.ExperimentStore.CompleteExperiment | packages/api/src/controllers/experiment.controller.ts:258-285 | 404 when not found; otherwise completed; keeps the invariants |
| Lifecycle.ExperimentStore.UpdateExperiment | packages/api/src/controllers/experiment.controller.ts:156-184 | 404 when not found; otherwise the `update` decision; after a success the experiment is still found in the caller's organisation exactly when the body names no project or one of that organisation; keeps the running-weights invariant unless the body sets the status to running |
| Lifecycle.ExperimentStore.CreateExperiment | packages/api/src/controllers/experiment.controller.ts:15-89 | stores the created experiment under its fresh id, or nothing on a 404 or a 500; keeps the invariants |
| Cache.ExpiryFor | packages/api/src/config/database.ts:76 | a truthy duration expires at now + duration * 1000; an absent or zero one never expires |
| Cache.ReadAfterWrite | packages/api/src/config/database.ts:75-90 | a written value is read back until its expiry, and null after it |
| Cache.OtherKeysUnaffected | packages/api/src/config/database.ts:75-94 | writing or deleting one key changes what no other key reads |
| Cache.ReadAfterDelete | packages/api/src/config/database.ts:92-94 | a deleted key reads as null |
| Cache.ReadIsStable | packages/api/src/config/database.ts:80-90 | a read returns null for an absent key; it returns null and evicts an entry whose expiry is strictly past, and leaves the store as it is otherwise, so reading again gives the same answer |
| Cache.ExpiryIsPermanent | packages/api/src/config/database.ts:84 | an expired entry stays expired as the clock advances |
| Cache.InMemoryCache.constructor | packages/api/src/config/database.ts:73 | the store starts empty |
| Cache.InMemoryCache.Set | packages/api/src/config/database.ts:75-78 | ignores the mode and replaces the entry for the key |
| Cache.InMemoryCache.Get | packages/api/src/config/database.ts:80-90 | returns the specified read and leaves the specified store |
| Cache.InMemoryCache.Del | packages/api/src/config/database.ts:92-94 | removes exactly the key |
| Accounts.DropSpaces | packages/api/src/controllers/auth.controller.ts:26 | the result is the suffix of the input left after its leading whitespace |
| Accounts.CollapseNoSpace | packages/api/src/controllers/auth.controller.ts:26 | the replacement leaves no whitespace |
| Accounts.CollapseIdentity | packages/api/src/controllers/auth.controller.ts:26 | text without whitespace is left as it is |
| Accounts.CollapseRun | packages/api/src/controllers/auth.controller.ts:26 | a whitespace run of any length becomes a single '-' |
| Accounts.CollapseKeepsNoUpper | packages/api/src/controllers/auth.controller.ts:26 | the replacement introduces no upper-case letter |
| Accounts.SlugProperties | packages/api/src/controllers/auth.controller.ts:26 | the slug is lower-case and free of whitespace; slugging it again changes nothing; a name that is already such a string is its own slug |
| Accounts.RegisterProperties | packages/api/src/controllers/auth.controller.ts:17-41 | a registered email gets 400 with no writes; signup succeeds exactly for a new email whose slug is free; it adds exactly one owner user and one free-tier organisation and keeps emails and subdomains unique |
| Accounts.AuthenticateProperties | packages/api/src/controllers/auth.controller.ts:102-115 | login succeeds exactly for a known email with a matching password; both failures give the same 401; success changes only that user's last login time |
| Auth.TokenKeyInjective | packages/api/src/controllers/auth.controller.ts:58 | different users have different cache keys |
| Auth.RefreshOnlyForStoredToken | packages/api/src/controllers/auth.controller.ts:188-202 | a refresh is granted exactly for a verifying token equal to the live token cached for its user; every refusal is a 401; no cookie gets "Refresh token required" |
| Auth.StoredTokenRefreshes | packages/api/src/controllers/auth.controller.ts:131-136 | after signup or login stores a token, it refreshes for 30 days and any other token for that user is refused |
| Auth.StoredTokenExpires | packages/api/src/controllers/auth.controller.ts:131-136 | the stored token is refused once its 30 days are over |
| Auth.LogoutRevokes | packages/api/src/controllers/auth.controller.ts:171-177 | after logout the token is refused, while other users' refreshes are unaffected |
| Auth.LogoutWithoutUserChangesNothing | packages/api/src/controllers/auth.controller.ts:171-177 | without a cookie, or with one naming no user, logout leaves the cache as it was |
| Auth.AuthController.constructor | packages/api/src/controllers/auth.controller.ts:9 | the controller starts with the given accounts and cache |
| Auth.AuthController.Signup | packages/api/src/controllers/auth.controller.ts:17-62 | the signup decision; on success the accounts are written and the refresh token stored for 30 days; on refusal nothing changes |
| Auth.AuthController.Login | packages/api/src/controllers/auth.controller.ts:100-136 | the login decision; on success the login time is written and the refresh token stored; on refusal nothing changes |
| Auth.AuthController.Logout | packages/api/src/controllers/auth.controller.ts:169-181 | the cache becomes the specified post-logout cache |
| Auth.AuthController.Refresh | packages/api/src/controllers/auth.controller.ts:188-202 | returns the refresh decision; the cache changes only by the read's eviction |
| SimpleAuth.SimpleAuthController.constructor | packages/api/src/controllers/simple-auth.controller.ts:7 | the controller starts with the given accounts |
| SimpleAuth.SimpleAuthController.Signup | packages/api/src/controllers/simple-auth.controller.ts:15-39 | the same signup decision as the full controller; writes only on success |
| SimpleAuth.SimpleAuthController.Login | packages/api/src/controllers/simple-auth.controller.ts:63-78 | the same login decision; writes only the login time, and only on success |
| SimpleAuth.SimpleAuthController.Logout | packages/api/src/controllers/simple-auth.controller.ts:97-100 | always 200 with "Logged out successfully" and no state read or written |
| Tracker.DeviceTypeBands | packages/tracker/src/index.ts:168-173 | below 768 is mobile, below 1024 tablet, otherwise desktop; a wider window never gives a narrower class |
| Tracker.FlattenRemove | packages/tracker/src/index.ts:111-122 | removing one batch in flight leaves the other batches' events around it |
| Tracker.SettleAccounting | packages/tracker/src/index.ts:111-122 | delivering a batch, or putting it back in front of the queue, keeps every event counted once |
| Tracker.BehaviorOptTracker.constructor | packages/tracker/src/index.ts:16-23 | empty queue, no assignments, nothing sent |
| Tracker.BehaviorOptTracker.BeginFlush | packages/tracker/src/index.ts:108-112 | nothing happens on an empty queue; otherwise the queue is snapshotted into flight and emptied; no event is lost and the order is kept |
| Tracker.BehaviorOptTracker.SettleFlush | packages/tracker/src/index.ts:114-122 | on success the batch is delivered; on failure the queue becomes the batch followed by the events queued meanwhile; no event is lost |
| Tracker.BehaviorOptTracker.Track | packages/tracker/src/index.ts:52-67 | appends exactly one event with the current user and session; at 10 queued events it flushes, so fewer than 10 remain queued; no event is lost and the order is kept |
| Tracker.BehaviorOptTracker.Identify | packages/tracker/src/index.ts:45-50 | switches the user, then appends a `$identify` event carrying the new id to the queue, flushing the queue into a new in-flight batch when it reaches 10; the tracking id, session, assignments and delivered events are unchanged; no event is lost and the order is kept |
| Tracker.BehaviorOptTracker.LoadAssignments | packages/tracker/src/index.ts:96-100 | an ok response sets the assignments to `data.assignments` or `{}`, and any other response keeps them; the tracking id, user, session, queue, in-flight batches and delivered events are unchanged |
| Tracker.BehaviorOptTracker.GetVariant | packages/tracker/src/index.ts:69-71 | the stored assignment, or null exactly when it is absent or empty |
| Envelope.WrapCases | packages/api/src/middleware/response.middleware.ts:15-44 | an envelope passes through; at status 400 or above the result is `success: false` with error = data.error, else data.message, else the default, with message the other way round, and with `details` exactly when data.details is truthy; below 400 the result is `{success: true, data}` |
| Envelope.WrapIdempotent | packages/api/src/middleware/response.middleware.ts:17-44 | everything the wrapper produces is an envelope, so wrapping it again at any status returns it unchanged |
| Envelope.ErrorResponseProperties | packages/api/src/middleware/response.middleware.ts:50-62 | the status is err.status, else err.statusCode, else 500; error and message are err.message or "Internal server error"; the wrapper passes the body through |
| ApiClient.UnwrapCases | packages/web/src/services/api.ts:168-179 | `request` returns the data when `success` is truthy; otherwise it fails with error, else message, else "API request failed" |
| ApiClient.UnwrapWrap | packages/web/src/services/api.ts:168-179 | unwrapping what the wrapper sends below 400 gives back the original data |
| ApiClient.ErrorEnvelopeMessages | packages/web/src/services/api.ts:91-98 | for the same error envelope, `request` reports error-first and the interceptor message-first, so the texts differ when both are set and differ |
| ApiClient.RefreshOf401NeverSettles | packages/web/src/services/api.ts:77-87 | as written, a refresh request answered 401 does not settle on any fuel |
| ApiClient.AsWrittenNeverSettles | packages/web/src/services/api.ts:77-87 | as written, any request answered 401 while the refresh endpoint answers 401 does not settle on any fuel |
| ApiClient.CallFixed | packages/web/src/services/api.ts:72-103 | corrected interceptor: between one and three requests are sent; one request when no refresh is due; no logout on success |
| ApiClient.FixedSettlesOn401 | packages/web/src/services/api.ts:77-87 | corrected interceptor: with the refresh endpoint answering 401, the request fails after two requests and the client logs out |
| ApiClient.FixedRetriesOnce | packages/web/src/services/api.ts:77-87 | corrected interceptor: a 401 leads to one refresh, then either exactly one retry or a failure with logout |
| ApiClient.AgreesUnlessRefreshIs401 | packages/web/src/services/api.ts:72-103 | when the refresh endpoint never answers 401, the interceptor as written behaves exactly as the corrected one |
| ApiClient.RequestConfig.constructor | packages/web/src/services/api.ts:182-198 | a fresh config has `_retry` unset |
| ApiClient.Dispatch | packages/web/src/services/api.ts:75-88 | the corrected chain, with `_retry` set on the config object in place, computes the corrected outcome; the flag ends set exactly when a 401 was answered by a refresh |
| ExperimentsPage.AvailableActionsTable | packages/web/src/pages/Experiments.tsx:94-107 | the action menu per status, and no actions for any other string |
| ExperimentsPage.OfferedActionsPassGuards | packages/web/src/pages/Experiments.tsx:94-107 | start is offered exactly where `start`'s status guard passes, leaving only the weights check; pause exactly where `pause` succeeds; complete only for running and paused; delete for draft and completed |
| ExperimentsPage.OfferedActionsKeepHasRun | packages/web/src/pages/Experiments.tsx:253-266 | actions the menu offers keep "left draft implies started", so the results link, shown exactly for running or completed, appears only for started experiments |
| ExperimentsPage.FilterAsWrittenFails | packages/web/src/pages/Experiments.tsx:109-112 | as written, the filter throws exactly when some row has a null description and a name not containing the term |
| ExperimentsPage.NullDescriptionBreaksSearch | packages/web/src/pages/Experiments.tsx:109-112 | a row "Checkout" with no description, searched for "pricing", makes the filter throw |
| ExperimentsPage.Filter | packages/web/src/pages/Experiments.tsx:109-112 | corrected filter: a row is kept exactly when its lowercased name or description contains the lowercased term |
| ExperimentsPage.FilterAppend | packages/web/src/pages/Experiments.tsx:109-112 | the filter distributes over concatenation, so kept rows stay in order |
| ExperimentsPage.EmptyTermKeepsAll | packages/web/src/pages/Experiments.tsx:109-112 | the empty term keeps every row |
| ExperimentsPage.FilterAgreesWhenDefined | packages/web/src/pages/Experiments.tsx:109-112 | wherever the filter as written does not throw, it keeps the same rows as the corrected one |
| ExperimentsPage.ShowingRange | packages/web/src/pages/Experiments.tsx:302-316 | on a page that has rows, 1 <= from <= to <= total with at most `limit` rows; Next is disabled exactly when `to` is the total; consecutive pages' ranges abut; a page past the end shows from > to |
| ExperimentsPage.FirstPage | packages/web/src/pages/Experiments.tsx:298-316 | on page 1 with the bar shown, Previous is disabled, Next enabled, and the range is 1 to limit |

## Left out

- MD5, SHA-256, `randomBytes`, `Math.random` and `Date.now` are foreign calls or randomness. MD5 is a parameter returning 32 hex digits; fresh ids and clocks are parameters.
- The numerical accuracy of `Math.sqrt`, `Math.exp` and the Abramowitz and Stegun approximation, and all floating-point rounding, are not modelled; the model works over the reals.
- Statistics.PValueOrNaN: negative counts are excluded by the precondition. No writer produces them: the tracking endpoint only creates rows with 0 users and adds conversions (Tracking.UpsertKeepsNoUsers). The NaN from a side without trials and the NaN from more successes than trials in total are both modelled.
- Statistics.ConfidenceInterval: lower <= upper is promised only with successes <= trials. With more successes than trials and a non-negative square-root argument the bounds are numbers in range, but their order is not stated.
- Statistics.IntervalContainsRate: holds for an exact square root only. The model's `Math.sqrt` is otherwise an arbitrary non-negative function, and rounding is not modelled.
- Statistics.SampleSize: p1 = p2 (a zero baseline or a zero effect) is excluded by its precondition. The source then divides by zero and returns Infinity, -Infinity or NaN, depending on the sign of the numerator 2 p̄ (1 - p̄) (1.96 + 0.84)^2. A zero baseline gives NaN, since 0 / 0.
- Lifecycle.ExperimentStore.CreateExperiment: writes the experiment and its variants at once. The source writes the experiment row before the `Variant.create` calls. A rejected variant write therefore leaves the experiment stored without some of its variants, while the answer is the 500. Variant writes are not modelled as failing: the model's typed inputs give them nothing to reject.
- Lifecycle.UpdateGuard: `update` also writes `type`, `successMetrics`, `targetingRules` and `createdBy` from the body. They are not fields of the modelled experiment. The model keeps `id` fixed, as the ORM does: it ignores a body key naming the already-set primary key, and the read-only `createdAt`/`updatedAt`. Database checks on the other attributes' values are not modelled; only an unknown status or intervention type and a missing project make the write fail.
- Statistics.CalculateStatistics: variant ids are required to be distinct. They are primary keys, and the source's `Map` keyed by id would merge duplicates.
- Sequelize persistence, the Postgres and Redis setup, connection tests and the `batch` endpoint are plumbing and are not modelled. Request validation (`express-validator`) is left out too; validated fields are plain inputs.
- The `list`, `get` and `getResults` endpoints are queries. Only the organisation-scoped lookup they share is modelled (`Lifecycle.ExperimentStore.Lookup`).
- Express routing, cookies, the rate limiter, `middleware/auth.ts`, JWT and bcrypt are left out. JWT and bcrypt are parameters.
- Tracker.BehaviorOptTracker.SettleFlush: the promise that the order is kept holds only for settling the oldest batch: delivered, or put back while it is the only batch in flight. Interleaved flushes are concurrency and are out of scope.
- The tracker's `init`, `setupBatching` (a `setInterval` and `beforeunload`), `localStorage`, `applyInterventions` and the JSON parsing of `fetch` are browser plumbing.
  - The send outcome is a parameter. "Sent" means that `fetch` resolved, which includes HTTP error statuses.
- `toLowerCase` is modelled on ASCII letters only. Unicode case mapping is left out.
- The override of `res.json` and the Express rule that calls an error handler only with a truthy error are plumbing. `errorResponseWrapper` requires a truthy error.
- ApiClient: network errors without a response, the redirect to '/login', `localStorage` and the request sent by the un-awaited `logout()` are left out. The outcome records only that the client logged out.
- ApiClient.RefreshOf401NeverSettles: the never-ending chain is stated on a fuel bound, since it has no end to reach.
- The rate limiter would stop the chain in deployment. It is not modelled.
- ExperimentsPage: React rendering, loading states, `window.confirm` and the delete action are left out. The delete action has no backend route among the modelled controllers.
- `responseWrapper` is not mounted by the server's `index.ts`. The envelope properties are properties of the functions, not of the deployed server. Against that server, `request` finds no truthy `success` on a 2xx body and throws the body's `error` or `message`. Login's body, for example, becomes the error "Login successful". The model does not state this combination.

## Findings

| source | as written | input that shows it | evidently intended | confidence | as-written member | corrected member |
|---|---|---|---|---|---|---|
| packages/web/src/services/api.ts:77-87 | the refresh in the 401 branch (`refreshAccessToken`, lines 135-138) is an ordinary `post` with a fresh config, so a 401 from `/auth/refresh` enters the same branch and starts another refresh | a request answered 401 while the refresh cookie is missing or revoked, so `/auth/refresh` answers 401 | the refresh request's own 401 fails the refresh, so the client logs out after at most one refresh per request | medium, not executed. In deployment the rate limiter of `index.ts` (100 requests per 15 minutes) would end the chain with a 429 after using up the client's budget | ApiClient.AsWrittenNeverSettles | ApiClient.CallFixed |
| packages/web/src/pages/Experiments.tsx:109-112 | `experiment.description.toLowerCase()` is read whenever the name does not match, but the description column is nullable and `create` does not require it | an experiment created without a description, and the search term "pricing" for a row named "Checkout" | a missing description counts as not matching | medium, not executed | ExperimentsPage.NullDescriptionBreaksSearch | ExperimentsPage.Filter |
