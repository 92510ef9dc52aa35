# Agent ecosystem: a Dafny model

This project models the serverless back end of a multi-tenant AI agent
ecosystem. The back end has three kinds of agent:

- a sentiment analyser;
- a recommendation engine;
- a performance monitor that scores the other agents.

It also has an agent factory that creates, lists, updates and deletes
agents, an authentication layer, and a set of shared helpers.

What the model covers:

- **Health scoring.** The performance snapshot of an agent, the 0-100 score
  with its status tier, the alerts and the advice strings.
- **Tenant report.** System totals, the five best agents, and the per-hour
  trend.
- **Task lifecycle.** Each task handler follows the same steps:
  1. create a task as `processing`;
  2. run the work;
  3. on success, mark the task completed, record a metric and write a log;
  4. on failure, mark the task failed, record a 0-valued metric, write an
     error log and answer 500.

  Any store write can fail, and a failing write of the success path falls
  into the failure path.
- **Recommendation ranking.** The filter, stable sort, ranking and tiers of
  the recommendation engine, and the summary of a sentiment batch.
- **Agent factory.** The validation, defaults and config merge of agent
  creation; the pagination and statistics of the listing; the ownership
  gate of update and delete.
- **Authentication.** The role table, and the `authenticate` and
  `enforceTenantIsolation` middlewares.
- **Shared helpers.** `chunk`, `unique`, `groupBy`, `pick`, `omit`,
  `deepMerge`, `truncate`, the case helpers, `formatRelativeTime` and the
  validators.

Other modules and members:

- The four tables (`agents`, `agent_tasks`, `agent_metrics`, `agent_logs`)
  form one value, `Database.Db`.
- `Storage.Store` is a class that holds them and updates them in place.
- Each handler is a method on the store. Its contract ties the new state to
  a pure plan: `store.State() == ApplyAll(old(store.State()), plan.run.done)`,
  and the reply equals the plan's reply.
- Lemmas about the plans state what the handlers promise.
- The failures of a request's store writes are a `Storage.Fault`: at most
  one write, identified by its attempt number, fails with a message.

External inputs:

- The clock, the elapsed time, the hour of a timestamp in the server's time
  zone, the embedding service, the sentiment classifier, token verification
  and the tenant lookup are parameters.
- Numbers are exact: integers are unbounded and rates are `real`.

## Model

| member | source | states |
|---|---|---|
| Strings.ParseNatToString | api/performance-monitor.js:437-438 | reading back the decimal key of an hour bucket (`parseInt(hour)`) gives the hour |
| Strings.Capitalize | shared/utils.js:233-235 | the first character is upper-cased, the rest is unchanged, the length is kept, "" stays "" |
| Strings.CamelCase | shared/utils.js:237-239 | no hyphen followed by a lower-case letter remains; a string without one is unchanged; the result is never longer |
| Strings.CamelCaseSpec | shared/utils.js:237-239 | the left-to-right regex rewrite equals the position-by-position one: a hyphen before a lower-case letter disappears and that letter is upper-cased, every other character is kept |
| Strings.KebabCase | shared/utils.js:241-243 | no upper-case letter remains and nothing is removed |
| Strings.KebabCaseSpec | shared/utils.js:241-243 | the rewrite equals the position-by-position one: a hyphen before each upper-case letter that follows a lower-case one, and every character lower-cased |
| Strings.KebabCaseIdempotent | shared/utils.js:241-243 | applying `kebabCase` twice gives the same as once |
| Strings.Utf16Length | shared/utils.js:43 | `.length` counts UTF-16 code units: between the number of code points and twice it, and equal to it exactly when no code point lies outside the Basic Multilingual Plane |
| Strings.Utf16Prefix | shared/utils.js:247 | `substring(0, n)` keeps a prefix of at most `n` code units, and the next code point would not fit |
| Strings.Truncate | shared/utils.js:245-248 | a string whose UTF-16 length is within the limit is returned unchanged; a longer one gives a prefix of exactly `length` code units (one fewer when the cut falls inside a surrogate pair; none when `length` is negative) followed by the suffix |
| Strings.Trim | shared/utils.js:37 | the result is empty exactly when the string is all whitespace, and otherwise starts and ends with a non-whitespace character |
| Strings.FormatRelativeTime | shared/utils.js:15-28 | "Just now" exactly below a minute; otherwise days from one day, hours from one hour, minutes from one minute, each the floor of the elapsed time |
| Strings.FloorChain | shared/utils.js:19-22 | flooring by 1000, 60, 60 and 24 in turn equals flooring once by the minute, hour and day in ms |
| Strings.AgoPlural | shared/utils.js:24-26 | the text ends in "s ago" exactly when the count is above one |
| Validation.ValidateRequired | shared/utils.js:36-40 | fails with "<field> is required" exactly when the value is falsy or its string form is blank |
| Validation.ValidateLength | shared/utils.js:42-46 | passes exactly when min <= UTF-16 length <= max, and otherwise fails with the range message |
| Collections.Chunk | shared/utils.js:164-170 | for a positive size, or any size on an empty array, the chunks concatenate back to the input, all but the last have exactly `size` elements, the last has 1..size, and there are ceil(n / size) of them |
| Collections.ChunkNeverEnds | shared/utils.js:164-170 | for a non-empty array and a size <= 0 the loop index stays below the length after any number of rounds |
| Collections.Unique | shared/utils.js:172-174 | every element of the result comes from the input |
| Collections.UniqueElements | shared/utils.js:172-174 | the result has no duplicates and holds every element of the input |
| Collections.UniqueOrder | shared/utils.js:172-174 | the elements appear in the order of their first occurrences |
| Collections.GroupBy | shared/utils.js:176-185 | the keys are distinct, every item has a group, each group holds exactly the items with its key in input order, and the group sizes add up to the item count |
| Collections.Pick | shared/utils.js:153-161 | only requested keys that are own keys of the object are kept, with their values |
| Collections.Omit | shared/utils.js:147-151 | exactly the listed keys are removed and the other values are unchanged |
| Collections.PickOmitPartition | shared/utils.js:147-161 | `pick` and `omit` with the same keys split the object into two disjoint parts that make it up again |
| Collections.Merged | shared/utils.js:129-141 | the keys are those of the target and those `for...in` visits in the source (an array's or string's indices, none for null); each key holds the source's value, or a recursive merge where the source has a plain object |
| Collections.DeepMerge | shared/utils.js:129-141 | the `for...in` loop builds exactly `Merged(target, source)`, and the inputs are values that cannot change |
| Collections.MergeIntoEmptyCopies | shared/utils.js:129-141 | merging into an empty object gives `{...source}`, however deeply nested |
| Collections.MergeIdempotent | shared/utils.js:129-141 | merging the same source a second time changes nothing |
| Database.Patched | api/performance-monitor.js:90-98 | a task update changes the status and the patched columns and keeps id, tenant, agent, input and creation time |
| Database.AppendOnly | api/utils/database.js:159-212 | no write removes or changes an existing metric or log row |
| Database.GetTasks | api/utils/database.js:110-126 | a task is returned iff it is in the table and matches each supplied filter |
| Database.GetMetrics | api/utils/database.js:173-192 | a metric is returned iff it is in the table, matches each supplied filter and is no older than `from_date` when one is given |
| Database.GetLogs | api/utils/database.js:214-230 | a log is returned iff it is in the table and matches each supplied filter |
| Database.GetAgents | api/utils/database.js:36-52 | an agent is returned iff it is in the table, of the tenant, and of the status and type when those are supplied |
| Database.GetAgentById | api/utils/database.js:78-88 | `.single()` succeeds exactly when one agent has the id, and returns that agent |
| Storage.Exec | api/performance-monitor.js:83-138 | the awaited steps stop at the first exception; the attempt count and the writes done stay within the steps |
| Storage.ExecFault | api/performance-monitor.js:83-138 | a failing write leaves exactly the writes before it done and surfaces its message |
| Storage.ExecCrash | api/performance-monitor.js:83-138 | an exception thrown by the handler's code leaves exactly the writes before it done |
| Storage.LifecycleCreateFails | api/performance-monitor.js:72-78 | when the task creation fails nothing is written and its error is the outcome |
| Storage.LifecycleSucceeds | api/performance-monitor.js:83-137 | without faults a successful work writes the task and then its steps, with no error |
| Storage.LifecycleWorkFails | api/performance-monitor.js:139-168 | without faults a failed work writes the task, then the catch block's steps, and rethrows |
| Storage.LifecycleLateFault | api/performance-monitor.js:139-168 | a success-path write that fails keeps the writes before it, runs the catch block, and rethrows that write's error |
| Storage.LifecycleCrash | api/performance-monitor.js:139-168 | an exception thrown after some success-path writes is handled like a failed work |
| Storage.LifecycleErrorSurfaces | api/performance-monitor.js:167 | a failed work always ends in an error, whatever the write faults |
| Storage.Store.CreateTask | api/utils/database.js:95-108 | the task row is appended unless the write fails, in which case nothing changes |
| Storage.Store.UpdateTask | api/utils/database.js:128-140 | every row with the id is patched unless the write fails |
| Storage.Store.RecordMetrics | api/utils/database.js:159-171 | the metric is appended unless the write fails |
| Storage.Store.InsertLog | api/utils/database.js:200-212 | the log is appended unless the write fails |
| Storage.Store.CreateAgent | api/utils/database.js:21-34 | the agent is appended unless the write fails |
| Storage.Store.UpdateAgent | api/utils/database.js:54-66 | every agent with the id is updated unless the write fails |
| Storage.Store.DeleteAgent | api/utils/database.js:68-76 | every agent with the id is removed unless the write fails |
| Storage.Store.Execute | api/performance-monitor.js:83-138 | the loop over the steps performs exactly the writes `Exec` describes, in order |
| Storage.Store.Settle | api/performance-monitor.js:83-168 | the try block and, on an exception, the catch block write exactly what `Conclude` describes |
| Health.Rate | api/performance-monitor.js:216-217 | 0 without tasks; a fraction in [0, 1] otherwise |
| Health.SnapshotBounds | api/performance-monitor.js:207-234 | the rates are 0 without tasks, in [0, 1] otherwise, and sum to at most 1; the average is 0 without metrics; tasks of the last 24 h <= of the last 7 d <= all tasks |
| Health.Assess | api/performance-monitor.js:237-284 | the straight-line decrements leave 100 minus the applicable deductions, and the pushes give exactly the alerts of the snapshot |
| Health.ScoreBounds | api/performance-monitor.js:237-295 | the score is max(0, 100 - deductions), always in [0, 100] |
| Health.StatusOfClamped | api/performance-monitor.js:295-296 | healthy at >= 80, warning at >= 60, critical below, whether taken from the raw or the clamped score |
| Health.ScoreMonotone | api/performance-monitor.js:239-251 | a higher error rate, a slower average, more error logs or lost recent activity never raise the score |
| Health.WorkedExample | api/performance-monitor.js:240-284 | error rate 0.25, 12000 ms, no task in 24 h and 6 error logs give score 0, critical, three alerts |
| Health.AlertsSpec | api/performance-monitor.js:254-284 | at most three alerts in the order error rate, processing time, inactivity; each present iff its condition holds; only the error-rate alert is high |
| Health.RecommendationsSpec | api/performance-monitor.js:303-323 | at most four advice strings in fixed order, each present iff its condition holds; the restart advice iff the status is critical |
| Monitor.ComprehensiveMonitoring | api/performance-monitor.js:179-301 | the reads and scoring return exactly `Monitoring` of the store's state |
| Monitor.AlertSteps | api/performance-monitor.js:325-335 | one log write per alert, and nothing that can throw |
| Monitor.SuccessSteps | api/performance-monitor.js:90-127 | three writes and then the alert logs, none that can throw |
| Monitor.PerformMonitoring | api/performance-monitor.js:61-177 | the store ends as the plan's writes leave it, and the reply is the plan's |
| Monitor.MissingAgentId | api/performance-monitor.js:65-69 | a request without `agent_id` is answered 400 and writes nothing |
| Monitor.MonitorSucceeds | api/performance-monitor.js:90-127 | in order: task created as processing, completed, one successful metric valued at the score, one info log; the reply is 200 with the result |
| Monitor.MonitorAlertLogs | api/performance-monitor.js:325-335 | after those four writes, one log per alert in list order, with the alert's message, at level error for a high alert and warning otherwise, and metadata holding the alert's type and the alert |
| Monitor.MonitorFails | api/performance-monitor.js:139-176 | the task is marked failed with the error, then a 0-valued failure metric and an error log are written, and the reply is 500 |
| Monitor.MonitorLateFault | api/performance-monitor.js:139-176 | a failing success-path write keeps the writes before it, adds the failure writes and answers 500 with its error |
| Monitor.NeverInactiveWhenPosted | api/performance-monitor.js:72-85 | the task created for the run counts as activity of the last 24 h, so the inactivity deduction and alert never apply on this path |
| Sorting.SortDesc | api/performance-monitor.js:418 | the length is kept |
| Sorting.SortDescSpec | api/performance-monitor.js:418 | the result is sorted by non-increasing key, is a permutation of the input, and keeps the input order among equal keys |
| Fleet.SystemHealthSpec | api/performance-monitor.js:378-389 | successful + failed = total, failed = metrics without success, the rate is in [0, 1], and rate and average are 0 without metrics |
| Fleet.CollectStats | api/performance-monitor.js:391-409 | one entry per agent id, created in first-appearance order, each holding that agent's counts and total time |
| Fleet.NameOf | api/performance-monitor.js:416 | the name of the first agent with the id, or "Unknown" |
| Fleet.Rows | api/performance-monitor.js:411-417 | one row per agent that has metrics |
| Fleet.RowsBounds | api/performance-monitor.js:412-415 | every row has at least one operation and a success rate in [0, 1] |
| Fleet.TopPerformingAgents | api/performance-monitor.js:391-420 | the collection, mapping, sort and cut return exactly `TopAgents` |
| Fleet.TopAgentsSpec | api/performance-monitor.js:411-419 | at most five rows, non-increasing success rate, all from the statistics, and ties in first-appearance order |
| Fleet.BucketMetrics | api/performance-monitor.js:422-435 | one bucket for each hour that has a metric, holding that hour's total and successes |
| Fleet.PerformanceTrends | api/performance-monitor.js:422-442 | the buckets listed in ascending hour order give exactly `Trends` |
| Fleet.TrendsSpec | api/performance-monitor.js:437-441 | one entry per hour with a metric, in ascending order, each with its bucket's counts; the operations add up to the number of metrics |
| Fleet.MonitoringReport | api/performance-monitor.js:337-368 | the report is 400 without a tenant and otherwise built from the tenant's agents and last-day metrics |
| Fleet.ReportScope | api/performance-monitor.js:345-360 | active agents <= agents of the tenant; the system totals count the tenant's metrics of the last day |
| Inference.ToThreshold | api/utils/huggingface.js:130 | a number, or a one-element array of a number, compares as that number; an object, an array of two or more, or a one-element array of a boolean compares as NaN |
| Inference.RankSpec | api/utils/huggingface.js:135-137 | the recommendations are exactly the candidates with similarity >= threshold, with multiplicity, non-increasing, ties in item order |
| Inference.Score | api/utils/huggingface.js:119-133 | succeeds iff every item's similarity does, and then keeps each item with its similarity, in item order |
| Inference.FindSimilarItems | api/utils/huggingface.js:115-149 | fails iff the query embedding fails, the items are not an array or an item's embedding fails; on success the query and threshold are kept, the recommendations are the ranking of the scored items and `total` counts them |
| Inference.FindSimilarSpec | api/utils/huggingface.js:115-149 | a successful search returns exactly the scored items at or above the threshold, in non-increasing similarity, with `total` their number |
| Inference.ConfidenceTiers | api/utils/huggingface.js:175-179 | high iff >= 0.8, medium iff in [0.6, 0.8), low iff < 0.6 |
| Inference.CategoryTiers | api/utils/huggingface.js:181-186 | exact at >= 0.9, strong in [0.7, 0.9), moderate in [0.5, 0.7), weak below |
| Inference.TiersMonotone | api/utils/huggingface.js:175-186 | a higher similarity never gives a lower tier |
| Inference.EnhanceSpec | api/utils/huggingface.js:151-168 | length and order kept, rank = position + 1, each tier from the similarity, high + medium + low = total |
| Inference.DefaultThresholdTiers | api/utils/huggingface.js:115-186 | with threshold 0.7 every recommendation is at least medium confidence and at least a strong match |
| Inference.AnalyzeSentiment | api/utils/huggingface.js:18-35 | succeeds iff the classifier does, answering its label and score for the text; else the wrapped message |
| Inference.AnalyzeAll | api/utils/huggingface.js:37-41 | the batch succeeds iff every text does, with one answer per text in order; a failing batch carries the error of one of its texts |
| Inference.BatchSpec | api/utils/huggingface.js:43-50 | one result per text, `total` is their number, and positive + negative + neutral <= total |
| AgentStatus.StatisticsBounds | api/sentiment-agent.js:231-237 | the success rate is 0 without tasks and completed/total otherwise; completed + failed <= total; the average is 0 without metrics |
| AgentStatus.StatusSpec | api/sentiment-agent.js:212-247 | 400 iff no agentId; otherwise statistics over all the agent's tasks and 24-hour metrics, and their first ten and five rows |
| Tasks.FailureSteps | api/recommendation-agent.js:156-193 | the catch block makes three writes, none of which can throw |
| Tasks.FailureStepsWrite | api/recommendation-agent.js:156-193 | those writes mark the task failed with the message, record a 0-valued unsuccessful metric and write an error log |
| RecommendationAgent.SuccessSteps | api/recommendation-agent.js:107-144 | the success path makes exactly three writes, none of which can throw |
| RecommendationAgent.ProcessRecommendationTask | api/recommendation-agent.js:62-194 | the store ends as the plan's writes leave it, and the reply is the plan's |
| RecommendationAgent.RecommendationValidation | api/recommendation-agent.js:66-76 | 400 with the matching message and no write iff `agent_id` or `input_data` is missing or `query` or `items` is; otherwise a processing task is created |
| RecommendationAgent.DefaultThresholdApplies | api/recommendation-agent.js:91 | without a threshold the items are ranked against 0.7, which the result reports, and every recommendation is medium or high and a strong or exact match |
| RecommendationAgent.RecommendationSucceeds | api/recommendation-agent.js:107-154 | the task is created as processing and then completed with the result, its `started_at` kept and `recommendations_count` the number of recommendations; the reply is 200 with the result |
| RecommendationAgent.RecommendationRecords | api/recommendation-agent.js:118-144 | the successful `recommendation_generation` metric is valued at the number of recommendations, and the info log carries the same count |
| RecommendationAgent.RecommendationFails | api/recommendation-agent.js:156-193 | the task is marked failed with the error, a 0-valued failure metric and an error log follow, and the reply is 500 |
| RecommendationAgent.RecommendationLateFault | api/recommendation-agent.js:156-193 | a failing success-path write keeps the writes before it, adds the failure writes and answers 500 |
| RecommendationAgent.RecommendationStatus | api/recommendation-agent.js:234-269 | 400 without agentId; otherwise the rate is 0 without tasks, completed + failed <= total, `total_recommendations` sums the metric values, and <= 10 metrics and <= 5 tasks are listed |
| SentimentAgent.Analyze | api/sentiment-agent.js:87-93 | a batch is analysed as a batch, a single text answers for that text, and no usable text fails with "Invalid input data format" |
| SentimentAgent.ProcessSentimentTask | api/sentiment-agent.js:64-176 | the store ends as the plan's writes leave it, and the reply is the plan's |
| SentimentAgent.SentimentValidation | api/sentiment-agent.js:66-81 | 400 and no write iff `agent_id` or `input_data` is missing; otherwise a processing task whose metadata holds `batch_mode` and `started_at` |
| SentimentAgent.Dispatch | api/sentiment-agent.js:87-93 | batch runs iff `batch_mode` is truthy and `texts` is an array; otherwise single runs iff `text` is truthy |
| SentimentAgent.SentimentSucceeds | api/sentiment-agent.js:95-135 | the task is created as processing and then completed with the result, its metadata kept plus `processing_time_ms` and nothing else; the reply is 200 with the result |
| SentimentAgent.SentimentRecords | api/sentiment-agent.js:107-126 | the successful `sentiment_analysis` metric is valued at the number of texts in batch mode and 1 otherwise, followed by an info log |
| SentimentAgent.SentimentFails | api/sentiment-agent.js:138-175 | the task is marked failed, a 0-valued failure metric and an error log follow, and the reply is 500 |
| SentimentAgent.SingleUnderBatchMode | api/sentiment-agent.js:87-113 | with `batch_mode` set, `text` present and no `texts` array, the task is completed and then re-marked failed, and only the failure metric and log follow |
| SentimentAgent.SentimentLateFault | api/sentiment-agent.js:138-175 | a failing success-path write keeps the writes before it, adds the failure writes and answers 500 |
| SentimentAgent.SentimentStatus | api/sentiment-agent.js:212-247 | 400 without agentId; otherwise the rate is 0 without tasks and <= 10 metrics and <= 5 tasks are listed |
| AgentFactory.MergeConfig | api/agent-factory.js:95-98 | every supplied key overrides the default, and every default not supplied is kept |
| AgentFactory.CreateAgent | api/agent-factory.js:77-135 | the store ends as the plan's writes leave it, and the reply is the plan's |
| AgentFactory.CreateValidation | api/agent-factory.js:81-92 | 400 and no write when name or type is missing or the type is not one of the three |
| AgentFactory.CreateSucceeds | api/agent-factory.js:100-121 | one agent of the requester's tenant, inactive, version 1.0.0, endpoint `/api/<type>-agent`, default description, merged config; then one info log keyed by its id; 201 |
| AgentFactory.CreateFaults | api/agent-factory.js:112-134 | a failed insert writes nothing; a failed log leaves the agent without its log; both answer 500 |
| AgentFactory.SliceIndex | api/agent-factory.js:153 | slice indices are clipped to the list, and in-range ones are kept |
| AgentFactory.Pages | api/agent-factory.js:174 | a positive limit gives a non-negative page count |
| AgentFactory.ListScope | api/agent-factory.js:141-165 | the listing draws on exactly the tenant's agents, of the given status and type when supplied; active + inactive <= total and the three types together <= total |
| AgentFactory.PageSlice | api/agent-factory.js:151-153 | page p with limit l lists agents[(p-1)l, pl) clipped to the list |
| AgentFactory.PageCount | api/agent-factory.js:168-175 | for a limit l >= 1 the page count is the least number of pages of l that holds every listed agent |
| AgentFactory.PagesBounds | api/agent-factory.js:174 | ceil(n / l) pages of l hold all n agents, and one page fewer would not |
| AgentFactory.PageOf | api/agent-factory.js:151-153 | the i-th agent is item i mod l of page i / l + 1, and that page exists |
| AgentFactory.UpdateAgent | api/agent-factory.js:187-225 | the store ends as the plan's writes leave it, and the reply is the plan's |
| AgentFactory.DeleteAgent | api/agent-factory.js:227-263 | the store ends as the plan's writes leave it, and the reply is the plan's |
| AgentFactory.UpdateGate | api/agent-factory.js:192-211 | 400 without id and 403 for another tenant's agent, both without writes; the owner's agent is updated and one info log written |
| AgentFactory.DeleteGate | api/agent-factory.js:231-250 | 400 without id and 403 for another tenant's agent, both without writes; the owner's agent is removed and one info log written |
| Auth.AdminMayDoAnything | api/utils/auth.js:55-64 | `admin` is allowed every action on every resource |
| Auth.UserAndViewer | api/utils/auth.js:58-63 | `user` is allowed exactly read and create; `viewer` exactly read |
| Auth.UnknownRolesAndResources | api/utils/auth.js:55-64 | any other role is denied everything, and the resource never changes the answer |
| Auth.IndexOf | api/utils/auth.js:96 | the position found holds the pattern and no earlier position does; none is found only when it occurs nowhere |
| Auth.StripBearer | api/utils/auth.js:96 | the first "Bearer " is removed wherever it is; a header without one is unchanged |
| Auth.BearerToken | api/utils/auth.js:96 | "Bearer " + t gives t |
| Auth.Request.Authenticate | api/utils/auth.js:88-107 | no header: 401 and `next` not called; a verification or tenant-lookup failure: 401 with its message and `next` not called (`req.user` already set on a tenant failure); otherwise user and tenant set and `next` called once |
| Auth.Request.EnforceTenantIsolation | api/utils/auth.js:110-118 | no tenant: 403 and `next` not called; otherwise the filter is `{tenant_id}` and `next` is called once |
| Auth.Request.Admit | api/utils/auth.js:88-118 | the handler is reached iff there is a header, the token verifies and the lookup gives a non-empty tenant; otherwise the answer is 401 or 403 |

## Left out

- I/O: HTTP routing, CORS, `OPTIONS`/405 handling, response envelopes,
  `console` logging, `checkApiKey`, `healthCheck`, and the `getAgentStatus`
  of the monitor (it uses a fixed `'default'` tenant). These are request
  plumbing.
- External services: the Supabase client, JWT signing and verification, and
  the HuggingFace calls. They are parameters that succeed or fail with a
  message, and `cosineSimilarity` is a given real.
- `generateApiKey`, `verifyApiKey` and `checkPermission`: these are calls
  into JWT and the database around `hasPermission`.
- Ids: the uuids that the database generates for tasks and agents are
  counters in the store. Distinctness is what the model relies on.
- Dates: the clock is a parameter, and `started_at` is stored as a
  millisecond number rather than an ISO string. `updated_at` columns and
  `toFixed` formatting in alert messages are not modelled.
- `Fleet.Trends`: the hour of a timestamp (`getHours`, local time) is a
  given function, and daylight saving time is left out with it.
- Floating point and `NaN`: all arithmetic is exact. A threshold string
  other than a run of digits or blanks is taken as `NaN`; fractions and
  signs in such strings are left out. The same holds for a one-element
  array threshold whose element is such a string (`["0.7"]`).
- `Monitor.AlertLog`: the `alert_data` object holds the alert's type,
  severity, threshold and current value but not its `message` string,
  because number formatting (`toFixed`) is not modelled. The message is
  kept, unformatted, as the log's own message.
- Error details: a `details` object built by `formatError` is modelled as
  the error's message.
- Faults: only the writes of a request can fail, and at most one of them.
  Reads fail only through the agent lookup's `.single()`.
- `getAgents`: a failed listing query is left out.
- `Inference.Score`, `Inference.AnalyzeAll`: the model reports the first
  failure in list order; `Promise.all` reports the call that rejects first
  in time, which the model does not capture.
- `Database.GetLogs`: returns rows in table order. The source orders them
  by `created_at` descending; only counts of logs are used.
- `Database.GetMetrics`: the `to_date` filter and the `status`/`level`
  filters of the task and log queries are not used by the handlers and
  are left out.
- `Collections.Unique`: elements are compared by value. `new Set` compares
  objects and arrays by reference, so two equal but distinct objects stay
  two in the source and become one here.
- `Collections.Chunk`: a non-empty array with `size <= 0` is excluded,
  because the source's loop never ends there (`ChunkNeverEnds`).
- `Strings.CamelCase`, `Strings.KebabCase`, `Strings.Capitalize`: case
  mapping is ASCII only.
- `Collections.GroupBy`, `Fleet.CollectStats`: the key conversion to a
  property name is a given function. Prototype keys (`__proto__`) and the
  order of integer-like keys in `Object.values` are left out.
- `Collections.Pick`: only own keys of the object are copied. The
  source's `key in obj` is also true for keys inherited from
  `Object.prototype` (such as `toString`), which it would copy.
- `Strings.Truncate`: lengths are UTF-16 code units, as in JavaScript, but
  a string is a sequence of code points. When the cut falls inside a
  surrogate pair, the source keeps the lone high surrogate; the model
  keeps one unit fewer and drops it.
- `Auth.HasPermission`: role names that are keys of `Object.prototype`
  (such as `toString`) make the source throw; they are left out.
- Request bodies: `agent_id`, `name`, `type` and `id` are strings, and a
  missing or empty one is "". Non-string values are left out.
- `AgentFactory.ListAgents`: page and limit are integers as `parseInt`
  reads them. A non-numeric value (`NaN`) is left out.
- `AgentFactory.UpdateAgent`: the update body holds the known agent
  columns. Unknown columns and an `id` in the body are left out.
- Middlewares: the `next` callback is counted, not called. A `next` that
  throws inside `authenticate`, the pending promise when `next` is not
  called, and a null user from `getUser` are left out.
- Concurrency between requests is left out. Each request runs alone on the
  store.
