# k6 load-test logic, modelled in Dafny

This project models the deterministic logic inside three k6 load-test scripts. Every HTTP reply, measured latency and random draw is an input. In the gateway and contest tests, the k6 metrics (counters, rates, trends) are class fields, with one exception: the gateway's `login_calls` counter is not a field of `GatewayCache.Metrics` but the `loginCalls` result of `GatewayAuth.PerformLogin` and `GatewayAuth.StartIteration`. In the download test, the `errors` rate is an appended sample list, and its two trends are not modelled (see "## Left out").

- `download_poller.dfy` (module `DownloadPoller`): the resume-repository download test. One iteration submits a download job and checks the reply (202 plus a `taskId`). It then polls the task status in a bounded loop that ends on completion, on a 404 or when `MAX_POLLS` is spent. A completed task gets the advisory quality checks (saved files, failure ratio ≤ 10%). The random choice of file paths is modelled with the random draw and the shuffled copy as inputs. `DownloadIteration` is the imperative loop, with `break` and `continue` as in the script. It is proved equal to the recursive function `Iteration`, and the lemmas state what that function promises.
- `gateway_auth.dfy` (module `GatewayAuth`), the authentication half of the API-gateway refresh-token test:
  - `extractCookieValue`;
  - the Set-Cookie loop of `performLogin`, and the choice between tokens from the body and from cookies;
  - round-robin account selection;
  - username generation and account creation in `setup`;
  - the start of each virtual user's iteration.
- `gateway_cache.dfy` (module `GatewayCache`): the latency classifiers of the same test. These are `analyzePerformance`, `updateCacheMetrics` and `analyzeCacheEffect`, together with the two scenarios that call them. The metrics `auth_service_calls`, `redis_hit_rate` and `refresh_token_latency` are fields of the class `Metrics`.
- `contest_api.dfy` (module `ContestApi`), the contest-list API test:
  - the per-request success verdict and the counters it updates (class `ContestMetrics`);
  - the success-rate formula of the summary;
  - `generateRecommendations`, built by successive pushes and rendered to the returned string.
- `common.dfy` holds three shared modules. `Wrappers` has an `Option` for JavaScript's `null`/`undefined`. `Strings` has `includes` and the decimal rendering of a counter. `RealArith` compares a quotient.

Per-request latencies are integers in milliseconds. k6 reports `timings.duration` as a fractional number of milliseconds, and the model's `durationMs` is its floor, which keeps comparisons such as `< 3000` and `< 1000` against whole-millisecond thresholds exact. The ratios the scripts compute in floating point (`failed / total <= 0.1`, `second < first * 0.5`) are modelled with Dafny `real`, and lemmas restate each in integer form. The summary values that `generateRecommendations` reads (`avgResponse`, `p95Response`, `httpFailRate`, `reqPerSec`, together with `successRate` and `maxVUs`) are `real` as well.

## Model

| member | source | states |
|---|---|---|
| DownloadPoller.DownloadIteration | resum_repo_down/download_load_test.js:145-262 | The imperative iteration (submit check, poll loop with break/continue, final error samples) produces exactly the outcome of the recursive function `Iteration`: the poll count, the completed flag, the `errors` samples and the exit reason |
| DownloadPoller.PollFromCharacterised | resum_repo_down/download_load_test.js:185-255 | The poll loop issues at most its budget of requests. It ends at the first completed or 404 reply, or when the budget is spent. Its `errors` samples are one `true` per failed non-404 status check before that point |
| DownloadPoller.SubmissionRejectedIssuesNoPoll | resum_repo_down/download_load_test.js:145-161 | A submit reply that is not 202 or has no `taskId` adds exactly one error sample, and the iteration returns with no status request issued |
| DownloadPoller.PollCountWithinBudget | resum_repo_down/download_load_test.js:185-187 | The number of status requests never exceeds `maxPolls` (none when the budget is not positive) |
| DownloadPoller.PollStopsAtFirstTerminal | resum_repo_down/download_load_test.js:210-214 | If reply k is the first completed or 404 reply within the budget, the loop has issued exactly k+1 requests and stops there |
| DownloadPoller.CompletionStopsPolling | resum_repo_down/download_load_test.js:222-249 | When reply k is the first terminal reply and reports completion, exactly k+1 polls are issued, the task counts as completed, and the quality checks are those of that reply's saved and failed counts |
| DownloadPoller.NotFoundStopsPolling | resum_repo_down/download_load_test.js:210-262 | When reply k is the first terminal reply and is a 404, the loop stops after k+1 polls, whatever budget remains. The task is not completed, so the samples still end with one error and then a 0 |
| DownloadPoller.BudgetExhaustedIsTimeout | resum_repo_down/download_load_test.js:185-262 | When no reply within the budget is terminal, the whole budget is spent and the iteration ends as a timeout. Its samples are one error per failed check, then one extra error and a final 0 |
| DownloadPoller.AcceptedOutcome | resum_repo_down/download_load_test.js:198-262 | For an accepted submission, the samples are one error per failed non-404 check, then one error if not completed (a 404 included), then a single 0. The iteration is completed iff the last reply reported completion |
| DownloadPoller.ErrorRateAcceptableIff | resum_repo_down/download_load_test.js:242-246 | "error rate acceptable" holds iff 10·failed ≤ saved + failed (the ratio is 0 when both are 0) |
| DownloadPoller.QualityChecksAdvisory | resum_repo_down/download_load_test.js:239-249 | On a completed task, "completed successfully" always holds. Whatever the other two checks say, the iteration counts as completed and its last error sample is 0 |
| DownloadPoller.ScenarioCompletesOnSecondPoll | resum_repo_down/download_load_test.js:185-262 | A concrete run: one pending reply then a completed reply gives two polls, completion, and the single sample 0 |
| DownloadPoller.ScenarioTimesOutAfterThreePolls | resum_repo_down/download_load_test.js:185-262 | A concrete run: a budget of three, all pending, gives three polls, a timeout, and the samples [error, 0] |
| DownloadPoller.RandomCountInRange | resum_repo_down/download_load_test.js:103 | For a draw in [0, 1), the random file count lies in [MIN_FILES, MAX_FILES] |
| DownloadPoller.SlicePrefix | resum_repo_down/download_load_test.js:105 | `slice(0, end)`: the length of the result for non-negative and negative `end`, and every entry comes from the input |
| DownloadPoller.SelectionBounded | resum_repo_down/download_load_test.js:102-106 | `GetRandomFilePaths`: the selected list has length min(randomCount, number of paths) and every entry is one of the file paths |
| Strings.Contains | api_gateway/memory_lock_test.js:281-283 | `includes` is true iff the substring occurs at some index |
| Strings.NatToStringInjective | api_gateway/memory_lock_test.js:139-147 | Distinct counters render to distinct decimal strings |
| GatewayAuth.ExtractCookieValue | api_gateway/memory_lock_test.js:311-315 | The result is null iff no `name=` is followed by a non-`;` character. Otherwise it is non-empty, contains no `;`, and is the maximal run after the first such occurrence |
| GatewayAuth.ScanSetCookie | api_gateway/memory_lock_test.js:279-287 | The loop over Set-Cookie entries computes the left fold `CookieFold` of the per-header step |
| GatewayAuth.CookieFoldSnoc | api_gateway/memory_lock_test.js:279-287 | Folding one more header applies the per-header step to the result so far |
| GatewayAuth.LastAccessHeaderWins | api_gateway/memory_lock_test.js:281-282 | A later header containing `accessToken=` overwrites the access token with its extracted value and leaves the refresh token unchanged, even if it also contains `refreshToken=` |
| GatewayAuth.NonTextSkipped | api_gateway/memory_lock_test.js:280 | A non-string Set-Cookie entry changes nothing |
| GatewayAuth.RefreshUntouchedWithoutRefreshHeader | api_gateway/memory_lock_test.js:283-285 | Without a header that sets the refresh token (contains `refreshToken=` but not `accessToken=`), the refresh token keeps its value |
| GatewayAuth.PerformLogin | api_gateway/memory_lock_test.js:215-308 | Login is counted iff the account has a username. Tokens are returned iff the reply is 200 under 3 s and both chosen tokens are truthy, and they are exactly the chosen tokens for that account's username |
| GatewayAuth.CookieArrayChoice | api_gateway/memory_lock_test.js:276-277 | `CookieArray` reads the capitalised Set-Cookie field when it is truthy, else the lower-case one when that is truthy, else nothing. An array is read as it is, and a single value becomes a one-element array |
| GatewayAuth.BodyTokensTakePrecedence | api_gateway/memory_lock_test.js:257-270 | `ChosenTokens`: when the body carries both tokens, they are the ones chosen and the Set-Cookie headers are ignored |
| GatewayAuth.AccountIndex | api_gateway/memory_lock_test.js:193 | For VU ≥ 1 and a non-empty account list, `(VU-1) % length` is a valid index |
| GatewayAuth.RoundRobin | api_gateway/memory_lock_test.js:192-194 | Consecutive VUs take consecutive accounts, wrapping to 0, and VUs `length` apart share an account |
| GatewayAuth.UsernamesDistinct | api_gateway/memory_lock_test.js:139-147 | Under a known test type every account number gets its own non-empty username |
| GatewayAuth.CreatedFromSnoc | api_gateway/memory_lock_test.js:149-156 | The accounts created by signups lo..hi+1 are those of lo..hi followed by the account of signup hi+1, if it was created |
| GatewayAuth.SignupNamesAt | api_gateway/memory_lock_test.js:139-147 | The k-th username sent is the username of account k+1 |
| GatewayAuth.Setup | api_gateway/memory_lock_test.js:78-169 | Setup sends usernames `complex{i}`, `redis{i}` or `simple{i}` for i = 1..100 (empty for an unknown type). It returns, in order, the accounts `SignupAccount` creates (a 201 reply under 3 s with a parsed body, password `1234`), or null when none was created |
| GatewayAuth.StartIteration | api_gateway/memory_lock_test.js:183-204 | Without setup data or accounts the iteration stops. A VU holding tokens keeps them. Otherwise it logs in with account `(VU-1) % length`: the login is counted iff that account has a username. It succeeds iff the reply is accepted and both chosen tokens are truthy, and then carries exactly `ChosenTokens` and that username; any other outcome is a failed login |
| GatewayCache.PerformanceByTestType | api_gateway/memory_lock_test.js:410-442 | `AnalyzePerformance`: 'redis' under 100 ms is one hit and no auth call, and 'redis' otherwise is one auth call and one miss. 'simple' is always one auth call and no hit-rate sample. Every type other than 'current', 'redis' and 'simple' (including the default 'complex') emits nothing and returns "analysing" |
| GatewayCache.CacheUpdate | api_gateway/memory_lock_test.js:444-458 | Exactly one hit-rate sample per call. It is a hit iff the call index is not 0, the type is 'redis' and the latency is under 100 ms, and every miss is one auth call |
| GatewayCache.MissesAppend | api_gateway/memory_lock_test.js:444-458 | The miss count of concatenated sample lists is the sum of the counts |
| GatewayCache.CacheRunAuthCallsAreMisses | api_gateway/memory_lock_test.js:373-403 | Over any run of cache updates there is one sample per call and the auth calls equal the misses |
| GatewayCache.CacheRunSnoc | api_gateway/memory_lock_test.js:373-403 | A run extended by one call adds that call's emission |
| GatewayCache.NonRedisNeverHits | api_gateway/memory_lock_test.js:451-456 | Outside 'redis' every call of a run is a miss with an auth call |
| GatewayCache.CacheEffectInIntegers | api_gateway/memory_lock_test.js:460-476 | `AnalyzeCacheEffect`: non-redis types get the neutral message. For 'redis': "effective" iff both repeats are under half the first, "moderate" iff not that but both under four fifths, otherwise "negligible" |
| GatewayCache.Metrics.constructor | api_gateway/memory_lock_test.js:6-8 | The three metrics start empty |
| GatewayCache.Metrics.RecordPerformance | api_gateway/memory_lock_test.js:410-442 | Returns the verdict of `analyzePerformance` and appends exactly its counter and rate samples |
| GatewayCache.Metrics.UpdateCacheMetrics | api_gateway/memory_lock_test.js:444-458 | Appends exactly the emission of `CacheUpdate` to the counter and the hit rate |
| GatewayCache.Metrics.ExpiredTokenScenario | api_gateway/memory_lock_test.js:317-367 | Records the latency in the trend, then the samples of `analyzePerformance` for it |
| GatewayCache.Metrics.SameRefreshTokenScenario | api_gateway/memory_lock_test.js:369-408 | Three calls: the measured latencies are the results and are added to the trend, the counters grow by the cache run over them, and the cache-effect verdict is taken from them |
| GatewayCache.SameTokenScenarioSamples | api_gateway/memory_lock_test.js:444-448 | In one same-token scenario there are three hit-rate samples, the first is a miss, and the auth calls added are the misses |
| ContestApi.VerdictIgnoresResponseTime | jpa/contest-api-test.js:62-92 | `ActualSuccess`: success iff status 200, the body is a JSON array and the Content-Type includes `application/json`. Changing the response time never changes the verdict |
| ContestApi.CountAppend | jpa/contest-api-test.js:94-105 | Sample counts add over concatenation |
| ContestApi.CountsPartition | jpa/contest-api-test.js:94-105 | Every sample is counted as exactly one of success or failure |
| ContestApi.ContestMetrics.constructor | jpa/contest-api-test.js:6-9 | The counters and rates start empty, consistent with each other |
| ContestApi.ContestMetrics.TestGetContestList | jpa/contest-api-test.js:57-105 | Records the duration and returns the verdict. It adds exactly one of success/failure and the matching rate sample, keeping the counters equal to the sample counts |
| ContestApi.SuccessRateBounds | jpa/contest-api-test.js:183-186 | `SuccessRate`: the success rate is a percentage in [0, 100]. It is 100 iff there were requests and none failed, and 0 iff none succeeded |
| ContestApi.SuccessRateOfSamples | jpa/contest-api-test.js:183-186 | Over recorded samples the summary rate is the share of successes times 100 |
| ContestApi.ImprovementWarnings | jpa/contest-api-test.js:330-345 | The list is `Warnings`: each warning at most once, in the script's order, present iff its own threshold is crossed, and nothing else |
| ContestApi.TierAdvice | jpa/contest-api-test.js:322-346 | The list is `TierBlock`: exactly the top tier's pair, else exactly the second tier's pair, else exactly `Warnings`. Each message is present iff its tier or threshold condition holds |
| ContestApi.ClosingAdvice | jpa/contest-api-test.js:348-360 | The result is the tier block, then the next-stage message iff maxVUs ≤ 30 and success ≥ 95, then the five tips iff avgResponse > 100. No tier message is added or removed |
| ContestApi.GenerateRecommendations | jpa/contest-api-test.js:319-362 | The list is exactly `Recommendations`, the tier block, next-stage message and tips in push order. Tier pairs lead it. Each warning is present iff neither tier matched and its condition holds. The next-stage message is present iff its condition holds. The last five lines are the tips iff avgResponse > 100. The returned text renders the list |
| ContestApi.RecommendationsDistinct | jpa/contest-api-test.js:319-360 | No message appears twice in the list |
| ContestApi.TopTierHasNoWarnings | jpa/contest-api-test.js:323-329 | The top tier excludes both the second tier and the warnings |
| ContestApi.RenderDefaultIffEmpty | jpa/contest-api-test.js:362 | The fixed default string is returned iff no recommendation was pushed |
| ContestApi.JoinTextsStartsWithFirst | jpa/contest-api-test.js:362 | The joined text starts with the first message |

## Left out

- HTTP, k6 `check`, `sleep`, cookie jars and the `options`/stages/thresholds objects are not modelled: replies and latencies are parameters, and a reply missing from the input sequence is a network failure (status 0, no body).
- `Date.now()`/`new Date()` latency measurement is not modelled. In the gateway and contest tests the measured latencies are parameters.
- DownloadPoller: the `download_duration` trend (one sample per accepted submission, download_load_test.js:175) and the `task_completion_time` trend (one sample per completed task, download_load_test.js:232) are not modelled. Only their timing values come from the clock; whether a sample is taken follows from `Iteration`'s exit.
- `Math.random` and the random-comparator shuffle are not modelled. The draw `u` and the shuffled copy are parameters, and only the shuffle being a permutation is assumed, in `SelectionBounded`'s precondition.
- The 10% sampled logging is not modelled.
- All console output, `createSummary`'s report text, `toFixed` formatting, the improvement percentages in `analyzeCacheEffect`'s messages and `teardown` are presentation and not modelled.
- Environment parsing (`parseInt(__ENV.X) || default`) is not modelled. `TEST_TYPE`, `MAX_POLLS`, `MIN_FILES` and `MAX_FILES` are parameters.
- The module-load `throw` for an unknown download test type is not modelled.
- In the gateway test an unknown `TEST_TYPE` makes module initialisation fail on `currentConfig.thresholds`. The model still takes any string, so the 'current' branch of `analyzePerformance` is modelled but unreachable for the three configured types.
- `jpa/NotProd.java` is database seeding through repository calls and is not part of this model.
- Concurrency between virtual users is not modelled. Each VU's `userTokens` is passed in as `held`.
- The submit reply's JSON-parse `catch` (download_load_test.js:169-173) is not modelled separately: it cannot fire once the `taskId` check passed, which already parsed the body.
- The status reply's JSON-parse `catch` (download_load_test.js:251-254) is likewise not modelled: it cannot fire after the validity check parsed the body.
- A JSON body whose `taskId` is `null` counts as present in the script (`!== undefined`). The model has only present or absent.
- `completed` is modelled as its truthiness. A truthy non-boolean would make the script's `=== true` check fail, which the model does not capture.
- Floating point: NaN and rounding are not modelled. Ratios and the summary values (`avgResponse`, `p95Response`, `httpFailRate`, `reqPerSec`) are exact `real` arithmetic, and per-request latencies are integer milliseconds (the floor of k6's fractional `timings.duration`).
- Non-string token values in a login body are modelled only through their truthiness (`TokenTruthy`).
- GatewayCache.Metrics.ExpiredTokenScenario: the `isSuccess` check only chooses a log line, so it is not modelled.
- GatewayCache.Metrics.SameRefreshTokenScenario: requires exactly three measured latencies, one per call the loop makes.
- SelectionBounded: stated for 0 ≤ MIN_FILES ≤ MAX_FILES. With a negative count, `slice` would count from the end; `SlicePrefix` models that case, but the bound lemma does not cover it.
- A 404 during polling ends the loop without an in-loop error sample. After the loop the script still adds one error sample, because the task did not complete; `NotFoundStopsPolling` states this.
