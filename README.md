# skycluster-apps, modelled in Dafny

This project models the sequential logic of the skycluster applications in Dafny and proves what that logic promises. Each module models one source file, apart from the shared helper modules listed below.

- **micro-pipeline.** The producer claims a fresh job id with `SET NX`, marks the job `queued` and posts an image to the processor. The processor takes a per-job lock, halves the picture and records `processing` and then `processed` in the job hash. It forwards the result to the aggregator and releases the lock in `finally`. The aggregator stores the payload and marks the job `finished`. It does not store the payload again for a job already marked `finished`, but a retry after a failed final HSET, which leaves the status `finalizing`, stores it again. Modules `Producer`, `Processor` and `Aggregator` model this.
- **redis-app.**
  - The gateway creates jobs and pushes them onto the queue.
  - The worker pops job ids from the queue tail and processes them.
  - The backend reports the queue length and serves job lookups.
  - The summarizer polls the backend's counters and histograms, and from them derives deltas, rates and bucket percentiles.
  - Modules `Gateway`, `Worker`, `Backend`, `JobLookup` and `Summarizer` model this.
- **Shared models.** The Redis store is the class `Redis.Store`. It has hashes, lists, marker keys and a log of published messages. Each command is an atomic method. `Web` holds the JSON values and the responses the services exchange.
- **image-finder.**
  - The label mappers turn generic Ubuntu labels into the image names of each provider (modules `LabelMapper` and `LabelMapperStrict`).
  - The AWS and Azure finders pick the newest matching image for each zone (modules `ImageFinderAws` and `ImageFinderAz`).
- **ca-signer.** Builds the dNSName and iPAddress subject alternative names (section 4.2.1.6 of RFC 5280) from the controller node's addresses and from `CERT_SANS` (module `CaSigner`).
- **optimizer-helper/vservices.** Collects the virtual services a cluster offers from provider-profile ConfigMaps, with currency and TOPS normalisation (module `VServices`).
- **headscale-init.** Patches the decoded Headscale config from the environment (module `HeadscaleInit`).
- **instance-finder.** The AWS, Azure and GCP instance finders. They filter instance types by family, summarise GPUs, format prices and memory, and choose the prices.
  - AWS uses the first matching price (module `InstanceFinderAws`).
  - Azure uses the cheapest accepted retail item (modules `InstanceFinderAz` and `InstanceFinderAzMain`).
  - GCP estimates a price from the per-vCPU and per-GiB catalog SKUs (module `InstanceFinderGcp`).

Helper modules: `Wrappers` (Option, Result), `Strings` (ASCII string primitives), `Numbers` (decimal rendering and reading, Python `int()`), `FixedPoint` (`Decimal.quantize` with ROUND_HALF_UP over exact rationals) and `Ordering` (stable sorting).

Python `Decimal` and the float prices and rates are modelled as exact `real` values. A quantized value is an integer that counts units of 10^-k. Clocks, random numbers, fresh UUIDs, HTTP replies, SDK listings and Redis failures are inputs: each service call takes them as parameters or as a `World` value. Python's in-place `list.sort` and `sorted` become a pure stable insertion sort, proved sorted and a permutation.

Behaviour kept as written:

- **The processor's `== 503` branch never runs** (micro-pipeline/processor/main.py:304-309). That branch sits under `>= 500`, which already catches 503. `Processor.ReplyErrorsDeadBranch` shows that a reply counts one error exactly when its status is 500 or more.
- **A rejected payload keeps the earlier status.** The job status stays `finalizing` in the aggregator (`Aggregator.RejectLeavesFinalizing`) and `processing` in the processor (`Processor.StatusTransitions`).
- **The percentile walk adds up buckets that are already cumulative** (redis-app/summarizer/main.py:118-123). `Summarizer.ReaccumulationExample` gives buckets where this makes the reported percentile lower than the true one. The model keeps the walk as written.
- **`"$(5)"` does not parse in `parseAmount`.** Parentheses are only recognised outside the dollar sign, so the text is not a number (`VServices.DollarParenIsError`).
- **Azure GPU counts.** In `parse_gpu_info_from_sku`, a negative GPU count is disabled but still names NVIDIA as the manufacturer (`InstanceFinderAz.ParseGpuInfoSpec`).
- **Redundant fallbacks.** Some disjuncts never change a result:
  - the second capability spellings `vCPUS` and `MemoryGb` in az.py, because the lookup ignores case (`InstanceFinderAzMain.SpellingsAgree`);
  - the `fam + "-"` prefix test in gcp.py (`InstanceFinderGcp.FilterByFamilyIff`);
  - the `Tau T2D` hint (`InstanceFinderGcp.MatchesT2d`).
- **GCP family hints are substring tests**, so the n2 family also matches N2D descriptions (`InstanceFinderGcp.N2MatchesN2d`).
- **GCP region checks filter nothing.** The region tests in the catalog scan (instance-finder/gcp.py:229-248) only run `pass`, and the model has no such filter.

## Model

| member | source | states |
|---|---|---|
| Redis.ReversedReversed | redis-app/worker/main.py:42 | reversing a list twice gives it back (used for the queue order) |
| Redis.HSetThenHGet | redis-app/gateway/main.py:66 | after HSET with a mapping, the given fields read back as written and every other field of every hash is unchanged |
| Redis.HSetFrame | redis-app/worker/main.py:25 | HSET changes no list, no marker key, no notification, and no other hash |
| Redis.SetNXInserts | micro-pipeline/processor/main.py:181-182 | SET NX reports success exactly when no value of any type is stored under the key, afterwards the key exists, and a refused SET NX changes nothing |
| Redis.SetNXExclusive | micro-pipeline/processor/main.py:181-200 | a second SET NX on a held key fails and changes nothing (mutual exclusion of the job lock) |
| Redis.DelThenSetNX | micro-pipeline/processor/main.py:340-344 | after DEL the next SET NX on the key succeeds |
| Redis.LPushGrows | redis-app/gateway/main.py:68 | LPUSH puts the value at the head, grows the list by one and leaves the other lists alone |
| Redis.RPopTail | redis-app/worker/main.py:42 | BRPOP returns the tail element and leaves the rest in order; on an empty list it returns nothing and changes nothing |
| Redis.PushAllList | redis-app/gateway/main.py:68 | pushing values one by one leaves them in reverse order in front of the old list |
| Redis.PopNList | redis-app/worker/main.py:42 | popping a whole list from the tail yields it tail first |
| Redis.Fifo | redis-app/worker/main.py:40-45 | ids LPUSHed onto an empty queue come back from BRPOP in the order they were pushed |
| Redis.Store.constructor | redis-app/gateway/main.py:20 | the client sees the given database |
| Redis.Store.Load | redis-app/gateway/main.py:20 | the client's database becomes the given one |
| Redis.Store.HGetAll | redis-app/gateway/main.py:79 | the hash of the key, empty when the key is absent |
| Redis.Store.HGet | micro-pipeline/aggregator/main.py:172 | one field of the hash; a value returned is the stored one |
| Redis.Store.HSet | redis-app/gateway/main.py:66 | the new database is the old one with the fields set |
| Redis.Store.Exists | redis-app/gateway/main.py:77 | true exactly when the key holds a hash, a list or a marker |
| Redis.Store.SetNX | micro-pipeline/processor/main.py:182 | the new database and the reply are those of SET NX on the old one |
| Redis.Store.Del | micro-pipeline/processor/main.py:344 | the key is removed whatever it held |
| Redis.Store.LLen | redis-app/backend/main.py:52 | the length of the list, 0 when absent |
| Redis.Store.LPush | redis-app/gateway/main.py:68 | the new database is the old one with the value pushed at the head |
| Redis.Store.RPop | redis-app/worker/main.py:42 | the new database and the value are those of popping the tail |
| Redis.Store.Publish | micro-pipeline/aggregator/main.py:253 | the notification is appended to those already sent |
| Redis.Timed | redis-app/gateway/main.py:43-52 | the error counter of the label grows by one exactly when the command raised, one latency sample is recorded either way, and every other label is untouched |
| JobLookup.HashBody | redis-app/gateway/main.py:79 | the JSON object has exactly the hash's fields, each as a string |
| JobLookup.NotFoundIff | redis-app/gateway/main.py:74-79 | 404 exactly when EXISTS answered and the job key is absent; with both commands answered and the key present, 200 with the full hash field for field |
| JobLookup.LookupMetrics | redis-app/backend/main.py:56-61 | EXISTS always records one latency sample and one error when it raised; 500 exactly when EXISTS raised or the key exists and HGETALL raised |
| Gateway.HashBeforePush | redis-app/gateway/main.py:65-68 | when HSET raises nothing is written, nothing is queued, the enqueued counter stays, and the reply is 500 |
| Gateway.CreatedHash | redis-app/gateway/main.py:57-72 | a successful create_job replies 200 with the job id, and the job hash holds that id with status pending |
| Gateway.QueueGrowsByOne | redis-app/gateway/main.py:66-68 | the queue gains the new id at its head; no other list, no marker, no notification and no other job hash changes |
| Gateway.EnqueuedAfterBoth | redis-app/gateway/main.py:66-71 | the enqueued counter grows by one, and the reply is 200, exactly when both HSET and LPUSH succeeded |
| Gateway.Service.constructor | redis-app/gateway/main.py:20-38 | a fresh gateway on the given client, with zeroed metrics |
| Gateway.Service.Record | redis-app/gateway/main.py:43-52 | the metrics after one command are Timed of the metrics before |
| Gateway.Service.CreateJob | redis-app/gateway/main.py:54-72 | the new store, metrics and reply are CreateJobStep of the old ones |
| Gateway.Service.GetJob | redis-app/gateway/main.py:74-79 | the store is unchanged; the Redis metrics and the reply are the shared lookup's; every other metric (the enqueued counter and the enqueue latency samples) stays |
| Backend.QueueLengthReported | redis-app/backend/main.py:50-54 | with LLEN answering, the reply and the gauge both hold the queue's length |
| Backend.RefreshKeepsGauge | redis-app/backend/main.py:66-70 | a failed LLEN in the scrape keeps the gauge and counts one LLEN error |
| Backend.RefreshAgreesWithEndpoint | redis-app/backend/main.py:50-68 | the scrape refresh and the endpoint leave the same metrics when LLEN answers |
| Backend.Service.constructor | redis-app/backend/main.py:22-37 | a fresh backend with the gauge at 0 |
| Backend.Service.Record | redis-app/backend/main.py:39-48 | the metrics after one command are Timed of the metrics before |
| Backend.Service.QueueLength | redis-app/backend/main.py:50-54 | the metrics and reply are QueueLengthStep of the store and the old metrics |
| Backend.Service.GetJob | redis-app/backend/main.py:56-61 | the Redis metrics and reply are the shared lookup's; the gauge is unchanged |
| Backend.Service.RefreshGauge | redis-app/backend/main.py:63-70 | the metrics are RefreshStep of the store and the old metrics |
| Worker.ProcessJobDone | redis-app/worker/main.py:22-36 | process_job returns normally exactly when both HSETs succeed; then the hash says done with the finish time, the result text and the start time, and processed grows by one; a failure of the second HSET leaves status processing |
| Worker.ProcessJobFrame | redis-app/worker/main.py:22-36 | processing a job touches only that job's hash |
| Worker.StepTakesTail | redis-app/worker/main.py:40-52 | one pass leaves the queue as it was or without its last element; a failed pop or an empty queue changes nothing; processed grows by at most one |
| Worker.FailedJobNotRequeued | redis-app/worker/main.py:42-52 | when process_job raises after the pop, the id is gone from the queue and no hash or metric changes |
| Worker.RunShrinksFromTail | redis-app/worker/main.py:38-52 | over any passes the queue only loses elements from its tail, at most one per pass, and processed grows by at most one per pass |
| Worker.Service.constructor | redis-app/worker/main.py:17-20 | a fresh worker with zeroed metrics |
| Worker.Service.ProcessJob | redis-app/worker/main.py:22-36 | the new store and metrics and the normal-return flag are ProcessJobStep of the old ones |
| Worker.Service.Loop | redis-app/worker/main.py:38-52 | the state after the passes is Run of the state before |
| Summarizer.BucketLePreorder | redis-app/summarizer/main.py:102 | ordering buckets by their bound is a total preorder, so the sort is well defined |
| Summarizer.GetCounter | redis-app/summarizer/main.py:83-87 | a counter is 0 for a name without samples and otherwise the sum over all its label variants |
| Summarizer.CounterAddsSample | redis-app/summarizer/main.py:83-87 | one more sample under a name adds its value to that counter and leaves every other counter alone |
| Summarizer.SumNonNegative | redis-app/summarizer/main.py:83-87 | a sum of non-negative samples is non-negative |
| Summarizer.LeBound | redis-app/summarizer/main.py:95-99 | the bound is float() of the le label, and +infinity when the label is missing or float() raises |
| Summarizer.RawBuckets | redis-app/summarizer/main.py:93-100 | one (bound, value) pair per bucket sample, in exposition order |
| Summarizer.GetHistogram | redis-app/summarizer/main.py:91-112 | the buckets come sorted by bound and are a permutation of the bucket samples; count and sum are the _count and _sum totals, 0 when absent |
| Summarizer.Reach | redis-app/summarizer/main.py:119-123 | the first index whose running sum reaches the target, or -1 when none does |
| Summarizer.Percentile | redis-app/summarizer/main.py:115-125 | 0 for an empty histogram; otherwise the bound of the first bucket whose running sum of values reaches q times the count; failing that, the last bucket's bound, or 0 without buckets |
| Summarizer.HistogramPercentile | redis-app/summarizer/main.py:115-125 | the loop's result is Percentile of its inputs |
| Summarizer.ReaccumulationExample | redis-app/summarizer/main.py:118-123 | the walk adds up bucket values that are already cumulative: with 3, 6 and 10 observations at or below 1, 2 and 3, the 80th percentile comes out as 2, although only 6 of 10 observations lie there |
| Summarizer.Delta | redis-app/summarizer/main.py:145-154 | the observed growth is 0 on the first observation, the difference when the counter grew, and 0 when it fell |
| Summarizer.Rate | redis-app/summarizer/main.py:169-174 | the delta over the interval when a positive interval exists, and 0 otherwise |
| Summarizer.FetchFailureKeepsState | redis-app/summarizer/main.py:130-137 | a failed fetch counts one poll error and changes nothing else |
| Summarizer.PollUpdates | redis-app/summarizer/main.py:139-207 | after a successful poll the state holds the current counters and time, the queue gauge the fetched length, the enqueued and processed totals have each grown by their clamped delta (not at all on the first poll), and the enqueue and process rates are those deltas over the interval when a positive interval exists, 0 otherwise |
| Summarizer.PollMonotone | redis-app/summarizer/main.py:162-177 | the exported totals and the error counter never decrease, and the rates stay non-negative |
| Summarizer.PollsMonotone | redis-app/summarizer/main.py:213-221 | over any run the totals only grow, the rates stay non-negative, and the error counter counts exactly the failed polls |
| Summarizer.Poller.constructor | redis-app/summarizer/main.py:34-54 | the exported metrics at zero and an empty _state |
| Summarizer.Poller.ReadQuantiles | redis-app/summarizer/main.py:183-192 | the three percentiles of a histogram, as Quantiles states them |
| Summarizer.Poller.Poll | redis-app/summarizer/main.py:128-207 | the new state is PollStep of the old one |
| Summarizer.Poller.Loop | redis-app/summarizer/main.py:213-221 | the state after the polls is Polls of the state before |
| Processor.KeysDistinct | micro-pipeline/processor/main.py:182-208 | a job's hash key and any job's lock key never coincide |
| Processor.HalfDimBounds | micro-pipeline/processor/main.py:252-253 | the thumbnail side is at least one pixel, no larger than the original, and half of it rounded down once the original is at least 2 |
| Processor.ReplyErrorsDeadBranch | micro-pipeline/processor/main.py:304-309 | the `== 503` branch adds nothing: a reply counts one error exactly when its status is 500 or more |
| Processor.RejectedBeforeLock | micro-pipeline/processor/main.py:160-178 | invalid JSON (400), a non-object body (500), a missing field (400) and a missing client (503) are answered before any lock is tried; neither the database nor the lock counters change, and the answer does not depend on anything Redis or the aggregator would do |
| Processor.LockConflict | micro-pipeline/processor/main.py:197-200 | a held lock answers 409 already_processing, counts one failed lock, and leaves the database, including the other caller's lock, as it was |
| Processor.WorkKeepsKeys | micro-pipeline/processor/main.py:205-334 | the work inside the lock changes no marker key |
| Processor.TransformKeepsKeys | micro-pipeline/processor/main.py:236-326 | the image stage and the hand-off change no marker key |
| Processor.ForwardKeepsDb | micro-pipeline/processor/main.py:283-334 | the aggregator call changes nothing in Redis |
| Processor.LockReleased | micro-pipeline/processor/main.py:180-347 | once taken, the lock is released on every path of the work exactly when the DEL succeeds, and one acquired lock is counted |
| Processor.WorkKeepsMetricsLock | micro-pipeline/processor/main.py:205-339 | the work inside the lock leaves the lock counters alone |
| Processor.PayloadBounds | micro-pipeline/processor/main.py:222-234 | an empty payload is 400 empty_image_payload, one above the 10 MiB maximum is 413 payload_too_large, and every size in between (the maximum included) reaches the 200 reply |
| Processor.DurationObserved | micro-pipeline/processor/main.py:222-268 | one processing duration, the input time, is observed exactly when the decoded payload is non-empty and within the maximum, however the image work then ends |
| Processor.StatusTransitions | micro-pipeline/processor/main.py:207-276 | after the first mark the status is processing, and it becomes processed only when the picture was decoded, within bounds, opened, converted and encoded and the second mark succeeded |
| Processor.ReleaseKeepsStatus | micro-pipeline/processor/main.py:340-344 | releasing the lock does not change the status the work left |
| Processor.AggregatorFailures | micro-pipeline/processor/main.py:311-326 | a connection error is 503 aggregator_unreachable, a timeout 504 aggregator_timeout, any other exception 502 aggregator_error, each counting one error |
| Processor.ServerErrorCountedOnce | micro-pipeline/processor/main.py:284-334 | any aggregator reply gives 200 sent_to_aggregator with the output size, counts one error exactly for a status of 500 or more, and carries aggregator_node exactly when the reply's node is truthy |
| Processor.AggregatorHealthy | micro-pipeline/processor/main.py:95-107 | the aggregator is healthy exactly when the probe got a status below 500 |
| Processor.ReadinessIff | micro-pipeline/processor/main.py:116-133 | /ready is 200 exactly when the client exists, PING answered true and, when checked, the aggregator is healthy; ready mirrors the code; the aggregator detail is present exactly when it was probed, which is only after Redis passed |
| Processor.HealthMatchesReadiness | micro-pipeline/processor/main.py:136-149 | /health gives the same code and details as /ready, with live always true |
| Processor.Service.constructor | micro-pipeline/processor/main.py:36-57 | the service on the given client (null when it could not be created), with zeroed metrics |
| Processor.Service.Error | micro-pipeline/processor/main.py:53 | processor_errors_total grows by one and nothing else changes |
| Processor.Service.Process | micro-pipeline/processor/main.py:152-347 | the new store, metrics and reply are ProcessStep of the old ones |
| Processor.Service.Locked | micro-pipeline/processor/main.py:205-339 | the new store, metrics and reply are Work of the old ones |
| Processor.Service.Convert | micro-pipeline/processor/main.py:236-280 | the new store, metrics and reply are Transform of the old ones |
| Processor.Service.Send | micro-pipeline/processor/main.py:283-334 | Redis is untouched; the metrics and reply are Forward of the old ones |
| Aggregator.PathJoin | micro-pipeline/aggregator/main.py:223 | os.path.join: an absolute name replaces the directory; otherwise the path starts with the directory and ends with the name |
| Aggregator.ValidationFirst | micro-pipeline/aggregator/main.py:148-168 | invalid JSON and a missing field (400), a non-object body (500) and a missing client (503) are answered before any store access, whatever the world does; Redis, the files and the finalized and duplicate counters stay |
| Aggregator.ValidationOrder | micro-pipeline/aggregator/main.py:148-168 | invalid JSON is checked first, then the two fields, then the client, each with its own message |
| Aggregator.ReadFailure | micro-pipeline/aggregator/main.py:171-185 | a failed status read counts one error and answers 503 redis_unavailable, 503 redis_error or 500 internal_error, with nothing written |
| Aggregator.DuplicateShortCircuit | micro-pipeline/aggregator/main.py:187-191 | a job already finished answers 200 already_finished and only the duplicate counter changes |
| Aggregator.PayloadBounds | micro-pipeline/aggregator/main.py:210-221 | an empty payload is 400, one above the 50 MiB maximum 413, and every size in between (the maximum included) is stored with a 200 reply |
| Aggregator.RejectLeavesFinalizing | micro-pipeline/aggregator/main.py:193-221 | a payload rejected after the finalizing mark leaves the status finalizing, no file and the finalized counter as it was |
| Aggregator.SuccessState | micro-pipeline/aggregator/main.py:223-267 | a successful finalize sets status finished with the result path and time, stores the payload under jobs/{id}.png, and replies with the path and size and no warning |
| Aggregator.SaveSuccess | micro-pipeline/aggregator/main.py:223-267 | the same as SuccessState for the stage after the duplicate check |
| Aggregator.FinishFailureWarns | micro-pipeline/aggregator/main.py:234-267 | a failed final HSET still answers 200 finished, with the redis_update_failed warning |
| Aggregator.PublishIndependent | micro-pipeline/aggregator/main.py:251-256 | the PUBLISH outcome changes neither the reply, nor the files, the metrics or the hashes |
| Aggregator.SavePublishIndependent | micro-pipeline/aggregator/main.py:251-256 | the same for the stage after the duplicate check |
| Aggregator.TotalCountsSuccess | micro-pipeline/aggregator/main.py:258-260 | the finalized counter grows by one, and the elapsed time is observed as one finalize duration, exactly on a 200 finished reply; otherwise both stay |
| Aggregator.SaveCountsSuccess | micro-pipeline/aggregator/main.py:258-260 | the same two facts for the stage after the duplicate check |
| Aggregator.ReadinessIff | micro-pipeline/aggregator/main.py:110-125 | /ready is 200 exactly when the client exists, PING answers true and the jobs directory is writable, and 503 otherwise; both details are always reported |
| Aggregator.HealthMatchesReadiness | micro-pipeline/aggregator/main.py:128-138 | /health gives the code and details of /ready, with live always true |
| Aggregator.Service.constructor | micro-pipeline/aggregator/main.py:29-50 | the service on the given client, with no files and zeroed metrics |
| Aggregator.Service.Error | micro-pipeline/aggregator/main.py:48 | the error counter grows by one; the files stay |
| Aggregator.Service.Finalize | micro-pipeline/aggregator/main.py:141-267 | the new store, files, metrics and reply are FinalizeStep of the old ones |
| Aggregator.Service.Save | micro-pipeline/aggregator/main.py:202-267 | the new store, files, metrics and reply are SaveResult of the old ones |
| Producer.ProducedAlways | micro-pipeline/producer/main.py:37-60 | every call counts as produced; it counts one error exactly when it does not reach the processor's decoded reply, and then it returns one of the two error objects; otherwise it returns that reply |
| Producer.ClaimConflict | micro-pipeline/producer/main.py:41-44 | a claim already taken returns "job already claimed", counts one error, and writes nothing and fetches nothing |
| Producer.QueuedBeforeFetch | micro-pipeline/producer/main.py:41-47 | after a free claim the claim key is held; with the HSET done the job is queued and the fetch time is observed, whatever the fetch and the POST do; when the HSET raised no hash changes and no fetch happens |
| Producer.ResponseCounted | micro-pipeline/producer/main.py:54-55 | a returning POST counts one response under its status code, and no other code, even when the body is not JSON; the image size is observed |
| Producer.Interval | micro-pipeline/producer/main.py:63-67 | the interval is 60 seconds for a rate at or below zero, and otherwise its product with the rate is 1 |
| Producer.SleepTime | micro-pipeline/producer/main.py:76-82 | the loop sleeps exactly when the pass ended before the interval, and then for the rest of it |
| Producer.NoCatchUp | micro-pipeline/producer/main.py:76-82 | a pass lasts the interval, or its own time when it overran: an overrun is never made up |
| Producer.RunCounts | micro-pipeline/producer/main.py:69-75 | over any passes produced grows by the number of passes, and errors by at most that |
| Producer.Service.constructor | micro-pipeline/producer/main.py:19-35 | the producer on the given client, with zeroed metrics and the rate gauge set to the configured rate |
| Producer.Service.ProduceOnce | micro-pipeline/producer/main.py:37-60 | the new store, metrics and result are ProduceStep of the old ones; the rate gauge stays |
| Producer.Service.MainLoop | micro-pipeline/producer/main.py:62-82 | the state after the passes is Run of the state before, and the sleeps are those of the pacing interval |
| LabelMapper.ParseLabelIff | image-finder/label_mapper.py:61-69 | a version is returned exactly when the stripped, lowercased label is ubuntu-YY.MM (two digits, a dot, two digits), or that followed by -gpu where the suffix is accepted |
| LabelMapper.MapLabel | image-finder/label_mapper.py:71-92 | a successful mapping names exactly the three providers aws, gcp and azure |
| LabelMapper.MapLabelOutcome | image-finder/label_mapper.py:79-92 | map_label raises the invalid-format error for a malformed label and the unknown-version error for a version missing from the codename table; otherwise aws is ubuntu-codename-YY.MM, gcp is ubuntu-YYMM and azure is YY_MM |
| LabelMapper.GcpShape | image-finder/label_mapper.py:43-47 | removing the dot from YY.MM leaves YYMM |
| LabelMapper.AzureShape | image-finder/label_mapper.py:49-51 | replacing the dot of YY.MM by an underscore gives YY_MM |
| LabelMapper.FormatsInjective | image-finder/label_mapper.py:43-51 | two versions share a gcp name, or an azure name, exactly when they are the same version |
| LabelMapper.PlainLabels | image-finder/label_mapper.py:68 | the labels ubuntu-YY.MM and ubuntu-YY.MM-gpu are left unchanged by strip and lower |
| LabelMapper.GpuSuffixSameMapping | image-finder/label_mapper.py:60-69 | ubuntu-YY.MM-gpu maps exactly as ubuntu-YY.MM |
| LabelMapper.CollectOkIff | image-finder/label_mapper.py:102-105 | filling the dict succeeds exactly when every label's mapping succeeds |
| LabelMapper.CollectFirstError | image-finder/label_mapper.py:102-105 | a failure is the error of a label whose predecessors all mapped |
| LabelMapper.MapLabelsEntries | image-finder/label_mapper.py:94-105 | map_labels succeeds exactly when every label maps; then the dict's keys are the labels as given and each holds that label's mapping |
| LabelMapper.MapLabelsFirstError | image-finder/label_mapper.py:94-105 | a failing map_labels raises the error of the first label that does not map |
| LabelMapper.ToImagePath | image-finder/label_mapper.py:173-182 | an unknown provider (after lowercasing) is rejected before the label is looked at; otherwise the label's error, or base/provider/name with the provider's mapped name |
| LabelMapperStrict.ParseLabelExact | image-finder/label-mapper.py:66-73 | a version is returned exactly when the stripped, lowercased label is ubuntu-YY.MM; a -gpu suffix is rejected |
| LabelMapperStrict.StrictAgrees | image-finder/label-mapper.py:75-95 | every label the strict mapper accepts maps to the same three names under the suffix-tolerant mapper |
| LabelMapperStrict.MapLabelsKeys | image-finder/label-mapper.py:97-108 | map_labels succeeds exactly when every label maps, with one entry per label holding its mapping |
| ImageFinderAws.NameValue | image-finder/aws.py:43 | the name filter value starts and ends with a wildcard |
| ImageFinderAws.NameValueShape | image-finder/aws.py:43 | an empty pattern gives the lone wildcard, any other pattern sits between the two wildcards unchanged |
| ImageFinderAws.OlderFirstPreorder | image-finder/aws.py:60 | ordering by CreationDate (empty when missing) is a total preorder, so the sort is well defined |
| ImageFinderAws.LatestIndex | image-finder/aws.py:59-61 | the position of an image whose CreationDate is the greatest and that no later image equals or passes |
| ImageFinderAws.LatestSpec | image-finder/aws.py:55-61 | nothing for an empty listing; otherwise the ImageId of the last image in the listing with the greatest CreationDate |
| ImageFinderAws.FindLatestAmi | image-finder/aws.py:30-61 | a failed describe_images is an error; otherwise the result is Latest of the listing fetched with the name filter |
| ImageFinderAws.NormalizeAmiSpec | image-finder/aws.py:110-113 | the output name is null exactly for a missing, blank, "none" or "null" AMI (any case); otherwise it is the stripped AMI, and normalising twice changes nothing |
| ImageFinderAws.ZoneEntry | image-finder/aws.py:89-125 | a zone whose label maps is looked up with the aws name in the top-level region and fails exactly when the lookup fails; otherwise its entry keeps nameLabel and zone and names the normalised newest AMI |
| ImageFinderAws.ZoneResults | image-finder/aws.py:89-125 | one result per requested zone |
| ImageFinderAws.ZoneResultsStep | image-finder/aws.py:89-125 | one more zone appends its own result, and a prefix of the zones gives a prefix of the results |
| ImageFinderAws.RunOutcome | image-finder/aws.py:64-138 | code 2 without output exactly for a missing variable, bad JSON, a missing region or a non-list zones; past those checks code 1 exactly when some zone fails, and otherwise code 0 with one entry per zone, in order, under the top-level region |
| ImageFinderAws.FindZone | image-finder/aws.py:90-125 | the loop body's result is ZoneResult of the zone |
| ImageFinderAws.FindImages | image-finder/aws.py:64-138 | the script's exit and document are Run of its inputs |
| ImageFinderAws.ZoneLoop | image-finder/aws.py:87-138 | the loop ends as Finish of the per-zone results |
| ImageFinderAz.PartsOf | image-finder/az.py:38-42 | one part per dot-separated piece |
| ImageFinderAz.PartsOfAt | image-finder/az.py:38-42 | each piece becomes an int when int() accepts it and stays text otherwise |
| ImageFinderAz.ParseIntParts | image-finder/az.py:36-43 | the loop's list is IntParts of the version |
| ImageFinderAz.IntPartsOfNumbers | image-finder/az.py:36-43 | a version written as dotted decimal numbers reads back as exactly those numbers |
| ImageFinderAz.PartLeTotal | image-finder/az.py:72 | any two version pieces are comparable |
| ImageFinderAz.PartLeTransitive | image-finder/az.py:72 | the order on pieces is transitive |
| ImageFinderAz.PartLeAntisymmetric | image-finder/az.py:72 | pieces ordered both ways are equal |
| ImageFinderAz.PartsLeTotal | image-finder/az.py:72 | any two versions are comparable in list order |
| ImageFinderAz.PartsLeTransitive | image-finder/az.py:72 | list order on versions is transitive |
| ImageFinderAz.NewerFirstPreorder | image-finder/az.py:72 | the descending version order is a total preorder, so the sort is well defined |
| ImageFinderAz.ArchOkSplits | image-finder/az.py:49-61 | every image passes exactly one of the arm64 and the x86 filters, the x86 aliases filter alike, and every other hint lets every image through |
| ImageFinderAz.Candidates | image-finder/az.py:63-67 | every candidate is an input image matching the pattern and the architecture |
| ImageFinderAz.CandidatesEmpty | image-finder/az.py:63-70 | there is no candidate exactly when no image matches both the pattern and the architecture |
| ImageFinderAz.BestIndex | image-finder/az.py:72-73 | the position of a candidate whose version is at least every other's and strictly above those of the candidates before it |
| ImageFinderAz.BestSpec | image-finder/az.py:45-73 | nothing exactly when no image matches; otherwise a matching image of the highest version, the first such candidate in input order |
| ImageFinderAz.ChooseBestImage | image-finder/az.py:45-73 | the result is Best of the images with the lowercased architecture hint |
| ImageFinderAz.IsUbuntuOfferIff | image-finder/az.py:102-114 | an offer is kept exactly when its name is non-empty and, lowercased, mentions ubuntu but not pro |
| ImageFinderAz.VersionImagesListed | image-finder/az.py:131-143 | every image made from a named version of a named SKU of an Ubuntu offer is Canonical's and carries its URN |
| ImageFinderAz.SkuImagesListed | image-finder/az.py:124-143 | skipping unnamed SKUs, every image of an Ubuntu offer is well formed |
| ImageFinderAz.ListImagesListed | image-finder/az.py:116-144 | every listed image is Canonical's, from an Ubuntu offer, with a named SKU and version and the URN publisher:offer:sku:version |
| ImageFinderAz.LowerX86 | image-finder/az.py:47 | the hint x86 is already lowercase |
| ImageFinderAz.ZoneEntry | image-finder/az.py:193-220 | a zone's entry keeps its stripped nameLabel and zone; it has a generation exactly when some x86 image matches the zone's azure name, V2 exactly when the chosen SKU mentions gen2, and then names the chosen URN when non-empty |
| ImageFinderAz.ZoneResults | image-finder/az.py:193-220 | one result per requested zone |
| ImageFinderAz.ZoneResultsStep | image-finder/az.py:193-220 | one more zone appends its own result, and a prefix of the zones gives a prefix of the results |
| ImageFinderAz.AnyMatchSnoc | image-finder/az.py:190-208 | any_match after one more entry holds exactly when it held before or that entry found an image |
| ImageFinderAz.AnyMatchIff | image-finder/az.py:190-208 | any_match holds exactly when some entry found an image |
| ImageFinderAz.FinishOutput | image-finder/az.py:193-235 | past the checks, code 1 and no document exactly when some label does not map; otherwise one entry per zone, in order, and code 4 exactly when no zone found an image, else 0 |
| ImageFinderAz.RunChecks | image-finder/az.py:149-188 | the checks run in order: usage (2), credentials (5), subscription (8), SDK listing (6); any other code means the zone loop ran over the listed images |
| ImageFinderAz.FindZone | image-finder/az.py:194-220 | the loop body's result is ZoneResult of the zone |
| ImageFinderAz.FindImages | image-finder/az.py:149-235 | the script's exit and document are Run of its inputs |
| ImageFinderAz.ZoneLoop | image-finder/az.py:190-235 | the loop ends as Finish of the per-zone results |
| CaSigner.SplitSANs | ca-signer/main.go:208-227 | the loop's entries are SplitSans of the variable: the entries of the comma-separated parts, in order, skipping the parts SanOf rejects |
| CaSigner.SanOfShape | ca-signer/main.go:211-224 | every kept entry has a non-empty type without a colon or a lower-case letter and a non-empty value, neither with white space at its ends |
| CaSigner.SanOfRender | ca-signer/main.go:215-224 | a writable entry written as type:value reads back as itself, its type upper-cased |
| CaSigner.SanOfIdempotent | ca-signer/main.go:211-224 | writing a parsed entry out and parsing it again gives the same entry |
| CaSigner.SanOfNoComma | ca-signer/main.go:211-224 | an entry parsed from a part without a comma has neither a comma in its type nor in its value |
| CaSigner.RenderAll | ca-signer/main.go:208-227 | one written part per entry |
| CaSigner.SplitSansJoin | ca-signer/main.go:208-227 | a non-empty list of writable entries joined with commas splits back into the same entries, their types upper-cased |
| CaSigner.SplitSansSkips | ca-signer/main.go:212-218 | a part SanOf rejects between two commas changes nothing in the result |
| CaSigner.SplitSansEmpty | ca-signer/main.go:125-145 | an empty CERT_SANS gives no entries, so main's test for it adds nothing |
| CaSigner.DispatchSpec | ca-signer/main.go:127-138 | a name is among the DNS names exactly when a DNS entry carries it; an address is added exactly when an IP entry's value parses to it; other types add nothing; both lists keep the entries' order and distribute over concatenation |
| CaSigner.NothingDispatched | ca-signer/main.go:129-137 | entries that are neither DNS nor IP add no DNS name and no address |
| CaSigner.NodeName | ca-signer/main.go:187-190 | the node name is never empty: CONTROLLER_NODE_NAME, or skycluster-control-plane when unset or empty |
| CaSigner.ControllerIpsSpec | ca-signer/main.go:186-205 | a failed node lookup is an error; otherwise success exactly when the node has an InternalIP address, and then the result holds exactly the InternalIP addresses, in the node's order |
| CaSigner.GetControllerNodeIPs | ca-signer/main.go:186-205 | the loop's result is ControllerIps of the node named by the environment |
| CaSigner.Template.constructor | ca-signer/main.go:104-114 | a template with the common name and no SANs |
| CaSigner.Template.AddControllerIps | ca-signer/main.go:117-122 | every controller address, parsed, is appended in order, the parse result kept even when it is nil; the DNS names are unchanged |
| CaSigner.Template.AddSans | ca-signer/main.go:127-138 | the DNS entries' values are appended to the DNS names and the parsable IP entries' addresses to the addresses, in order |
| CaSigner.SansSpec | ca-signer/main.go:26-145 | a missing required variable is fatal first; a built template has the common name, the controller's addresses first and then the IP SANs, and exactly the DNS SANs as its DNS names |
| CaSigner.BuildTemplate | ca-signer/main.go:26-145 | main fails exactly when Sans fails, with the same error; otherwise a new template holding what Sans computes |
| CaSigner.FillTemplate | ca-signer/main.go:104-145 | a new template with the common name, the DNS SANs, and the controller addresses followed by the IP SANs |
| VServices.ParseAmountParens | optimizer-helper/vservices/vservices.go:242-263 | an amount written in parentheses reads as the negated amount, and fails exactly as the amount does |
| VServices.StripCurrencyClean | optimizer-helper/vservices/vservices.go:249-252 | no dollar sign and no comma is left after the clean-up |
| VServices.NoNumericContentIff | optimizer-helper/vservices/vservices.go:253-255 | the no-numeric-content error is given exactly when nothing is left after removing the parentheses, dollar signs, commas and white space |
| VServices.PlainAmount | optimizer-helper/vservices/vservices.go:239-265 | text starting and ending with a digit is read after the clean-up alone |
| VServices.DollarIgnored | optimizer-helper/vservices/vservices.go:250 | a leading dollar sign does not change the amount |
| VServices.CommaIgnored | optimizer-helper/vservices/vservices.go:251 | a thousands comma does not change the amount |
| VServices.DollarWhole | optimizer-helper/vservices/vservices.go:239-265 | a dollar sign followed by a whole number reads as that number |
| VServices.WholeAmount | optimizer-helper/vservices/vservices.go:239-265 | a whole number written in decimal reads as itself |
| VServices.DollarParenIsError | optimizer-helper/vservices/vservices.go:244-259 | the parentheses are only recognised outside the dollar sign: $(5) is not a number |
| VServices.UnitKeyIdempotent | optimizer-helper/vservices/vservices.go:269 | normalising a unit twice is normalising it once, and the conversion depends only on the normalised unit |
| VServices.TopsFactors | optimizer-helper/vservices/vservices.go:268-284 | GFLOPS count 0.002 TOPS each, TFLOPS 2 TOPS, and TOPS or any other unit counts as given; the conversion is linear |
| VServices.ZoneServicesSpec | optimizer-helper/vservices/vservices.go:137-155 | a zone gives a ComputeProfile of availability 10000 in that zone, priced at the parsed amount, for exactly the offerings whose price parses, one per offering when all parse |
| VServices.AllPricedCount | optimizer-helper/vservices/vservices.go:139-155 | when every price parses, no offering is skipped |
| VServices.K8sServicesSpec | optimizer-helper/vservices/vservices.go:171-187 | the managed Kubernetes entries fail exactly when some price or overhead does not parse; otherwise one ManagedKubernetes service per entry, in order, without a zone, costing price plus overhead |
| VServices.WorkerServicesSpec | optimizer-helper/vservices/vservices.go:198-219 | a device becomes a ComputeProfile of availability 1 in its zone exactly when it has configs with a parsable price, named by its vCPUs, RAM and whole TOPS |
| VServices.ConfigMapServicesSpec | optimizer-helper/vservices/vservices.go:133-220 | an undecodable flavors.yaml or a missing one adds nothing and is not an error; undecodable managed-k8s.yaml or worker data is fatal |
| VServices.AllServicesConcat | optimizer-helper/vservices/vservices.go:126-221 | one more ConfigMap appends its services, and an earlier fatal error stays the result |
| VServices.AllServicesPrefixErr | optimizer-helper/vservices/vservices.go:126-221 | a fatal error in some prefix of the listing is the result of the whole listing |
| VServices.ZoneServicesStep | optimizer-helper/vservices/vservices.go:139-155 | one more offering adds its own service, if any, at the end |
| VServices.AppendZone | optimizer-helper/vservices/vservices.go:139-155 | the offering loop appends exactly ZoneServices of the zone |
| VServices.FlavorServicesStep | optimizer-helper/vservices/vservices.go:137-156 | one more zone adds its own services at the end |
| VServices.AppendFlavors | optimizer-helper/vservices/vservices.go:137-156 | the zone loop appends exactly FlavorServices of the zones |
| VServices.K8sResults | optimizer-helper/vservices/vservices.go:171-187 | one outcome per managed Kubernetes entry |
| VServices.K8sResultsStep | optimizer-helper/vservices/vservices.go:171-187 | one more entry adds its own outcome at the end |
| VServices.K8sServiceErr | optimizer-helper/vservices/vservices.go:172-177 | an entry fails exactly when its price or its overhead does not parse |
| VServices.K8sServiceOk | optimizer-helper/vservices/vservices.go:178-186 | a priced entry is a ManagedKubernetes service costing price plus overhead |
| VServices.K8sStepOk | optimizer-helper/vservices/vservices.go:171-187 | a good entry extends the services collected so far |
| VServices.K8sStepErr | optimizer-helper/vservices/vservices.go:174-177 | the first failing entry is the error of the whole list |
| VServices.AppendK8s | optimizer-helper/vservices/vservices.go:171-187 | the loop fails exactly when K8sServices fails, with its error, and otherwise appends exactly its services |
| VServices.WorkerServicesStep | optimizer-helper/vservices/vservices.go:198-219 | one more device adds its own service, if any, at the end |
| VServices.AppendWorkers | optimizer-helper/vservices/vservices.go:198-219 | the device loop appends exactly WorkerServices of the devices |
| VServices.AppendConfigMap | optimizer-helper/vservices/vservices.go:127-220 | one ConfigMap's processing fails exactly when ConfigMapServices fails, with its error, and otherwise appends exactly its services |
| VServices.ConfigMapServicesParts | optimizer-helper/vservices/vservices.go:133-220 | a ConfigMap's services are its flavors, then its managed Kubernetes services, then its workers |
| VServices.CollectVServices | optimizer-helper/vservices/vservices.go:79-235 | main's list, or its fatal error, is Run of its inputs |
| HeadscaleInit.UrlErrorUnchanged | headscale-init/main.go:129-137 | a missing HEADSCALE_SERVER_URL, or one the URL parser rejects, is reported and leaves the config as it was |
| HeadscaleInit.UrlWritten | headscale-init/main.go:134-144 | with an accepted URL, server_url holds it and listen_addr binds 0.0.0.0 on its port, even when the TLS paths are then rejected; an empty TLS path stops right after those two keys |
| HeadscaleInit.PatchErrorIff | headscale-init/main.go:126-160 | an error is returned exactly when the URL is missing or rejected or a TLS path is empty |
| HeadscaleInit.PatchSuccess | headscale-init/main.go:145-157 | on success the TLS paths and a file policy on the ACL path are set, log holds the level exactly when HEADSCALE_LOG_LEVEL exists and is left as it was otherwise, and the keys are the old ones plus those written |
| HeadscaleInit.OthersUntouched | headscale-init/main.go:126-160 | every key the function does not write keeps its value, and no other key appears |
| HeadscaleInit.PatchIdempotent | headscale-init/main.go:126-160 | patching a patched config again from the same environment changes nothing and reports the same error |
| HeadscaleInit.MainPathsNeverEmpty | headscale-init/main.go:95 | with the fixed paths main passes, the empty-path error cannot happen and the patch fails exactly on the URL |
| HeadscaleInit.Config.constructor | headscale-init/main.go:38-41 | the config holds the decoded entries |
| HeadscaleInit.Config.SetFromEnv | headscale-init/main.go:126-160 | the entries and the returned error are those of Patch on the old entries |
| InstanceFinderAws.DecToStrMoneySpec | instance-finder/aws.py:28-35 | the empty string exactly for None; otherwise a text with two decimals that reads back as the value rounded half-up to cents, within half a cent of it |
| InstanceFinderAws.MibToGibStrSpec | instance-finder/aws.py:37-44 | the number before Gi reads back as MiB/1024 rounded half-up to cents, within 0.005 of it; it has no point exactly when that rounded value is integral, and otherwise ends in a point and two digits |
| InstanceFinderAws.WholeGib | instance-finder/aws.py:40-43 | a whole number of GiB shows as that number followed by Gi |
| InstanceFinderAws.SplitWhole | instance-finder/aws.py:47 | a name without a dot is one piece |
| InstanceFinderAws.TitleLabelOfPair | instance-finder/aws.py:46-50 | a family.size name becomes the family upper-cased, a space, and the size capitalised |
| InstanceFinderAws.TitleLabelNoDot | instance-finder/aws.py:46-50 | a name without a dot is left as it is |
| InstanceFinderAws.TitleLabelManyDots | instance-finder/aws.py:46-50 | a name with two or more dots is left as it is |
| InstanceFinderAws.FilterByFamily | instance-finder/aws.py:72-76 | the filter only removes names |
| InstanceFinderAws.FilterByFamilyIff | instance-finder/aws.py:72-76 | given prefixes, a name stays exactly when it is offered and its lower-case form starts with some prefix's lower-case form |
| InstanceFinderAws.EmptyPrefixKeepsAll | instance-finder/aws.py:76 | an empty prefix, as left by a stray comma in FAMILY, keeps every offered name |
| InstanceFinderAws.FilterCaseInsensitive | instance-finder/aws.py:76 | the case of the prefixes does not matter |
| InstanceFinderAws.MainFamilyFilter | instance-finder/aws.py:192-193 | main splits a non-empty FAMILY on commas, so the prefix test always applies |
| InstanceFinderAws.SumCountsConcat | instance-finder/aws.py:99 | the GPU count of two lists is the sum of their counts |
| InstanceFinderAws.SumCountsNonNegative | instance-finder/aws.py:99 | non-negative counts sum to a non-negative count |
| InstanceFinderAws.GpuEnabledIff | instance-finder/aws.py:89-97 | the summary is enabled exactly when GpuInfo is present; without it, count 0 and empty strings |
| InstanceFinderAws.GpuCount | instance-finder/aws.py:98-99 | the count is the sum of the Gpus counts, else TotalGpuCount, else 0 |
| InstanceFinderAws.GpuFirstDetails | instance-finder/aws.py:103-116 | model and manufacturer come from the first GPU, and the memory is shown, as mib_to_gib_str gives it, exactly when the first GPU reports a non-zero size |
| InstanceFinderAws.NewerFirstPreorder | instance-finder/aws.py:169 | ordering by Timestamp is a total preorder |
| InstanceFinderAws.LatestSpot | instance-finder/aws.py:169 | the position of the first entry that no other entry is newer than |
| InstanceFinderAws.SpotPriceSpec | instance-finder/aws.py:154-172 | a price exactly for a non-empty history, that of an entry no other is newer than, every earlier entry being strictly older, as max keeps the first maximum |
| InstanceFinderAws.Chunks | instance-finder/aws.py:81-82 | the chunks are non-empty, at most 100 long, all full but the last, and as many as 100 divides into the types, rounded up |
| InstanceFinderAws.ChunksCover | instance-finder/aws.py:78-86 | the chunks laid end to end are the types, so every type is requested once and in order |
| InstanceFinderAws.ChunksStep | instance-finder/aws.py:81-82 | the chunk taken at i is the first chunk of what remains |
| InstanceFinderAws.RecordedSpec | instance-finder/aws.py:84-85 | a type is recorded exactly when some response describes it, and then with the last such description |
| InstanceFinderAws.RecordedSnoc | instance-finder/aws.py:84-85 | each description overwrites the entry of its type |
| InstanceFinderAws.DescribeStep | instance-finder/aws.py:81-85 | one more chunk extends the requests made and the responses gathered |
| InstanceFinderAws.DescribeTypes | instance-finder/aws.py:78-86 | the dictionary is Recorded of the responses to the chunks, in order |
| InstanceFinderAws.FallbackDropsRegion | instance-finder/aws.py:120-128 | the second attempt is the full filter without its last term, the regionCode |
| InstanceFinderAws.FirstPriceSome | instance-finder/aws.py:137-149 | the scan finds a price exactly when some dimension has unit Hrs and a USD price that parses |
| InstanceFinderAws.FirstPriceFirst | instance-finder/aws.py:137-149 | a found price is that of an hourly dimension before which no dimension offers one |
| InstanceFinderAws.SkipDim | instance-finder/aws.py:142-149 | a dimension without a usable price is skipped |
| InstanceFinderAws.FirstPriceConcat | instance-finder/aws.py:137-149 | the scan of two runs of dimensions takes the first run's price if it has one |
| InstanceFinderAws.TermDimsStep | instance-finder/aws.py:140-142 | the dimensions of the terms are those of the first term followed by the rest |
| InstanceFinderAws.ProductDimsStep | instance-finder/aws.py:137-141 | the dimensions of the products are those of the first product followed by the rest |
| InstanceFinderAws.ScanDims | instance-finder/aws.py:142-149 | the dimension loop returns FirstPrice of the dimensions |
| InstanceFinderAws.ScanTerms | instance-finder/aws.py:140-149 | the term loop returns FirstPrice of the terms' dimensions |
| InstanceFinderAws.ScanProducts | instance-finder/aws.py:137-149 | the product loop returns FirstPrice of the products' dimensions |
| InstanceFinderAws.OnDemandPriceSpec | instance-finder/aws.py:118-152 | a price exactly when the full filter's products offer one, or, when they offer none and pagination did not raise, the fallback's products do; a price from the first attempt is returned as is |
| InstanceFinderAws.OnDemandPriceUsdPerHour | instance-finder/aws.py:118-152 | the two attempts return OnDemandPrice of the inputs |
| InstanceFinderAz.ScaledFour | instance-finder/az.py:65 | scaling to four places multiplies by 10000 |
| InstanceFinderAz.UnitsFour | instance-finder/az.py:65 | reading four places divides by 10000 |
| InstanceFinderAz.FourPlacesShape | instance-finder/az.py:65 | a value quantized to 0.0001 is written with a point and four digits |
| InstanceFinderAz.DecToStrMoneySpec | instance-finder/az.py:62-65 | None exactly for None; otherwise "$" and a number with four decimals that reads back as the value rounded half-up to 0.0001, within 0.00005 of it |
| InstanceFinderAz.SpaceSeparators | instance-finder/az.py:74 | the result has the input's length; each underscore and hyphen is a space there and every other character is kept |
| InstanceFinderAz.ReplaceAllChars | instance-finder/az.py:74 | a replacement brings in only characters of the input or of the replacement |
| InstanceFinderAz.TitleLabelNoSeparators | instance-finder/az.py:72-74 | a title label holds no underscore and no hyphen |
| InstanceFinderAz.TitleKeepsOut | instance-finder/az.py:74 | title-casing brings in no non-letter that was not there |
| InstanceFinderAz.CaseKeepsNonLetter | instance-finder/az.py:74 | the only character whose upper or lower case is a given non-letter is that non-letter |
| InstanceFinderAz.TitleLabelPlain | instance-finder/az.py:72-74 | a name without separators or double spaces is only title-cased |
| InstanceFinderAz.ShortSizeNameSpec | instance-finder/az.py:160-169 | Standard_ followed by a rest becomes that rest with its underscores made spaces |
| InstanceFinderAz.ShortSizeNameNoUnderscore | instance-finder/az.py:160-169 | no short size name holds an underscore |
| InstanceFinderAz.ReadFamiliesSpec | instance-finder/az.py:76-80 | a non-empty FAMILY is read; a family is read exactly when it is a non-empty stripped comma-separated part, and it is stripped and comma-free |
| InstanceFinderAz.TrimInside | instance-finder/az.py:80 | stripping brings in no character |
| InstanceFinderAz.LowerRemoveUnderscore | instance-finder/az.py:100-103 | lower-casing and removing underscores commute |
| InstanceFinderAz.KeyOfUnderscoreFree | instance-finder/az.py:95-103 | a family without its underscores has the same key as the family |
| InstanceFinderAz.StandardKey | instance-finder/az.py:93-103 | the key of Standard_ is standard |
| InstanceFinderAz.LowerStandard | instance-finder/az.py:103 | Standard_ lower-cased is standard_ |
| InstanceFinderAz.StandardWithoutUnderscore | instance-finder/az.py:103 | standard_ without its underscore is standard |
| InstanceFinderAz.KeyOfStandard | instance-finder/az.py:93-103 | the key of Standard_ and a family is standard followed by the family's key |
| InstanceFinderAz.SizeMatchesFamilyIff | instance-finder/az.py:82-105 | a size matches exactly when its lower-case, underscore-free name starts with the key of some stripped family, or with standard and that key: the underscore-free tokens add nothing |
| InstanceFinderAz.CapabilityIndex | instance-finder/az.py:107-111 | the position of the first capability whose name equals the key case-insensitively, or -1 when none does |
| InstanceFinderAz.GetCapabilitySpec | instance-finder/az.py:107-111 | None when no capability has the name; otherwise the value of the first one that has it |
| InstanceFinderAz.ParseGpuInfoSpec | instance-finder/az.py:113-128 | enabled exactly for a positive count; manufacturer NVIDIA exactly for a non-zero count, so a negative count is disabled yet names NVIDIA; a missing or unparsable count is 0; the memory is shown in GiB exactly when non-empty |
| InstanceFinderAz.InsertUniqueSpec | instance-finder/az.py:138 | inserting keeps a list sorted and duplicate-free and adds exactly the element |
| InstanceFinderAz.SortedSetSpec | instance-finder/az.py:138 | the zones come sorted, without duplicates, and are exactly the zones given |
| InstanceFinderAz.SkuSupportedZones | instance-finder/az.py:130-138 | the loop's result is the sorted set of the zones of the locations in the region |
| InstanceFinderAz.SupportedZonesSpec | instance-finder/az.py:130-138 | the supported zones are sorted and duplicate-free, and a zone is among them exactly when a location equal to the region, case-insensitively, lists it |
| InstanceFinderAz.CollectedZonesMember | instance-finder/az.py:132-136 | a zone is collected exactly when some location in the region lists it |
| InstanceFinderAz.MinPriceNone | instance-finder/az.py:204-244 | no price exactly when no item passes every check |
| InstanceFinderAz.MinPriceLeast | instance-finder/az.py:241-242 | the price found is at most the unit price of every accepted item |
| InstanceFinderAz.MinPriceFound | instance-finder/az.py:232-242 | the price found is the unit price of some accepted item |
| InstanceFinderAz.RetailPriceForSize | instance-finder/az.py:171-244 | the item loop returns MinPrice of the items for the short size name |
| InstanceFinderAzMain.VcpuCountSpec | instance-finder/az.py:299-306 | a missing, empty or unreadable vCPU value is 0; a number is truncated toward zero |
| InstanceFinderAzMain.SpellingsAgree | instance-finder/az.py:299-300 | the lookup ignores case, so the second spelling main tries finds what the first found |
| InstanceFinderAzMain.SameKey | instance-finder/az.py:107-111 | two keys equal up to case find the same capability |
| InstanceFinderAzMain.MemoryTextSpec | instance-finder/az.py:300-301 | no memory capability gives no text; an unreadable value is fatal and carried in the error; otherwise a whole number and GB, the number nearest the value with ties to the even one |
| InstanceFinderAzMain.SizeOfferSpec | instance-finder/az.py:288-348 | a size without supported zones is skipped and never fatal; it is fatal exactly when it has zones and an unreadable memory value; an offered size has its sorted zones, its name, the label vCPUs-vCPU-memory, a price exactly when an accepted on-demand item was read, and spot enabled exactly when a spot price was found |
| InstanceFinderAzMain.Outcomes | instance-finder/az.py:287-348 | one outcome per SKU, each SizeOffer of that SKU |
| InstanceFinderAzMain.Candidates | instance-finder/az.py:274-281 | a SKU is kept exactly when it is a virtual machine whose name matches a family |
| InstanceFinderAzMain.BuildZoneFlavors | instance-finder/az.py:285-348 | the loops build ZoneFlavors of the listing, the families and the zones |
| InstanceFinderAzMain.AddToZones | instance-finder/az.py:325-348 | the zone loop for one offered size makes AddOffer of the dictionary |
| InstanceFinderAzMain.SkuOutcome | instance-finder/az.py:288-323 | the loop body up to the zone loop makes SizeOffer of the SKU |
| InstanceFinderAzMain.AssembleStep | instance-finder/az.py:287-348 | one more SKU extends the dictionary by its outcome |
| InstanceFinderAzMain.AssembleErrorStays | instance-finder/az.py:287-348 | once a size is fatal, later SKUs do not change the result |
| InstanceFinderAzMain.TouchSpec | instance-finder/az.py:326-348 | one zone step gives the zone a list if it had none and appends the entry exactly when the size supports the zone; earlier entries stay in front |
| InstanceFinderAzMain.AddOfferSpec | instance-finder/az.py:325-348 | the zone loop gives every requested zone a list and puts the entry under exactly the requested zones the size supports, keeping earlier entries in front |
| InstanceFinderAzMain.AssembleSpec | instance-finder/az.py:285-348 | with no fatal size, the keys are the requested zones if any size is offered and none otherwise; an entry is under a zone exactly when an offered size supporting that requested zone has it |
| InstanceFinderAzMain.AssembleErrorIff | instance-finder/az.py:287-348 | the run fails exactly when some outcome is fatal, with the error of the first |
| InstanceFinderAzMain.NameLePreorder | instance-finder/az.py:287 | ordering by name is a total preorder |
| InstanceFinderAzMain.VisitedSkus | instance-finder/az.py:274-287 | the SKUs visited are sorted by name and are a permutation of the matching virtual machines |
| InstanceFinderAzMain.EntryOnlyInSupportedZones | instance-finder/az.py:274-348 | an entry is listed under a zone only when that zone was requested and a matching size whose locations in the region name the zone has that entry |
| InstanceFinderAzMain.SupportedZonesOfOffer | instance-finder/az.py:292-296 | an offered size supports exactly the zones its locations in the region list |
| InstanceFinderAzMain.SupportedZoneGetsEntry | instance-finder/az.py:325-348 | every requested zone an offered matching size supports gets that size's entry |
| InstanceFinderAzMain.OfferedEntryListed | instance-finder/az.py:325-348 | an offered size's entry is under every requested zone it supports |
| InstanceFinderAzMain.ZoneFlavorsErrorIff | instance-finder/az.py:287-348 | main stops exactly when some matching size with zones in the region has an unreadable memory value |
| InstanceFinderGcp.MbToGibStrSpec | instance-finder/gcp.py:61-65 | None exactly for None; otherwise a number with two decimals and " GiB", reading back as mb/1024 rounded half-up to 0.01, within 0.005 of it |
| InstanceFinderGcp.GetFamiliesErrorIff | instance-finder/gcp.py:86-89 | an unset or empty FAMILY is the one failure |
| InstanceFinderGcp.GetFamiliesSpec | instance-finder/gcp.py:86-90 | a non-empty FAMILY is read, and a family is read exactly when it is the lower case of a non-empty stripped comma-separated part |
| InstanceFinderGcp.GetFamiliesShape | instance-finder/gcp.py:90 | every family read is non-empty, lower case and comma-free |
| InstanceFinderGcp.FamilyPartSpec | instance-finder/gcp.py:90 | a part that is kept gives a non-empty lower-case family without the characters the part lacks |
| InstanceFinderGcp.FilterByFamilyIff | instance-finder/gcp.py:92-96 | the "-" alternative is redundant: a name passes exactly when its lower case starts with some family |
| InstanceFinderGcp.DigitRun | instance-finder/gcp.py:100 | the run found is all digits and is followed by a non-digit or the end |
| InstanceFinderGcp.FirstSuffix | instance-finder/gcp.py:100-110 | the position found is the leftmost match of -<digits>g followed by the end or a hyphen, or -1 when there is none |
| InstanceFinderGcp.ExtractGpuInfoSpec | instance-finder/gcp.py:100-126 | enabled exactly for a positive count, and then NVIDIA; model and memory never known; a name that is not A2 has no GPU, nor has an A2 name without the suffix; an enabled count is the number in the leftmost suffix |
| InstanceFinderGcp.UnitPriceSpec | instance-finder/gcp.py:159-167 | None exactly without tiers; otherwise the first tier's units plus nanos exactly to the nano, only that tier counting, with the units as whole part for nanos below 10^9 |
| InstanceFinderGcp.UsageTypesDisjoint | instance-finder/gcp.py:182-188 | no SKU counts for both usage kinds; spot accepts preemptible and spot in any case |
| InstanceFinderGcp.IsCoreOrRamSpec | instance-finder/gcp.py:190-200 | core whenever a core keyword occurs, even beside a RAM keyword; ram exactly when only RAM keywords occur; None otherwise; the case of the description does not matter |
| InstanceFinderGcp.LowerUpperLower | instance-finder/gcp.py:179-180 | upper-casing a lower-case family and lowering it again gives it back |
| InstanceFinderGcp.MatchesUnknownFamily | instance-finder/gcp.py:132-180 | a family without hints matches exactly the descriptions that contain it, ignoring case |
| InstanceFinderGcp.MatchesT2d | instance-finder/gcp.py:141-180 | t2d matches exactly the descriptions containing t2d, so its Tau T2D hint adds nothing |
| InstanceFinderGcp.N2MatchesN2d | instance-finder/gcp.py:135-180 | an N2D description also matches the n2 family |
| InstanceFinderGcp.FirstUnitPriceConcat | instance-finder/gcp.py:244-255 | the first price of two runs of entries is the first run's if it has one, else the second's |
| InstanceFinderGcp.FirstMeterPriceConcat | instance-finder/gcp.py:220-262 | the first meter price over two runs of SKUs is the first run's if it has one, else the second's |
| InstanceFinderGcp.FirstUnitPriceSpec | instance-finder/gcp.py:244-251 | no price exactly when no entry has tiers; otherwise the price of the first entry with tiers |
| InstanceFinderGcp.FirstMeterPriceNone | instance-finder/gcp.py:220-262 | no price for the meter exactly when no SKU has the right usage, kind and family and a priced entry |
| InstanceFinderGcp.FirstMeterPriceFirst | instance-finder/gcp.py:220-262 | the price found is that of the first SKU that qualifies and is priced; no earlier SKU qualifies |
| InstanceFinderGcp.ScanPricing | instance-finder/gcp.py:244-257 | the entry loop fills the slot of the SKU's kind with its first price if empty and leaves the other slot alone |
| InstanceFinderGcp.PricingStep | instance-finder/gcp.py:244-255 | one more entry extends the first price by that entry's price |
| InstanceFinderGcp.PricingRest | instance-finder/gcp.py:256-257 | once a price is found, the entries after it do not change it |
| InstanceFinderGcp.ScanPage | instance-finder/gcp.py:222-260 | the SKU loop of a page keeps a slot that is filled and otherwise takes the page's first price for that meter; the region checks filter nothing |
| InstanceFinderGcp.MeterStep | instance-finder/gcp.py:222-258 | one more SKU adds its price only if it qualifies for the meter |
| InstanceFinderGcp.MeterRest | instance-finder/gcp.py:259-260 | once both prices are known, the rest of the page does not change them |
| InstanceFinderGcp.FetchFamilyCoreRamPrices | instance-finder/gcp.py:202-264 | the pages are read until both prices are known or the listing ends, giving the first core and first RAM price of the whole catalog |
| InstanceFinderGcp.PageStep | instance-finder/gcp.py:220-262 | one more page extends the prices by that page's prices |
| InstanceFinderGcp.PageRest | instance-finder/gcp.py:220 | leaving the page loop early, once both are known, loses no price |
| InstanceFinderGcp.FamilyOfSpec | instance-finder/gcp.py:279 | the family is the lower case of the part before the first hyphen, or of the whole name without one, and holds no hyphen |
| InstanceFinderGcp.EstimateMachinePrice | instance-finder/gcp.py:266-302 | the on-demand and spot estimates are the estimates over the catalog's on-demand and spot prices of the name's family |
| InstanceFinderGcp.EstimateSpec | instance-finder/gcp.py:276-300 | an estimate exists exactly when both prices do; it is not negative for non-negative inputs and does not shrink as vCPUs grow |
| InstanceFinderGcp.NoMeterNoEstimate | instance-finder/gcp.py:220-300 | when no catalog SKU qualifies for a meter there is no estimate of that kind |

## Left out

General:
- Real concurrency. Each handler call is one atomic step. The summarizer's poller thread, the worker's metrics server and interleavings between processes that share Redis are not modelled.
- TTL expiry. Lock and claim TTLs are not modelled: a marker key stays until it is deleted.
- Clocks, sleeps, `random.uniform` and `uuid4`. These are inputs: a time, a jitter value, and an id assumed fresh.
- Infinite loops. `worker_loop`, the producer's `main_loop` and the summarizer's `poller_loop` run over a finite schedule of iterations.
- IEEE floating point. Rates, intervals, prices and TOPS factors are exact rationals, so rounding error, NaN and overflow are not modelled.
- Python's `Decimal` context. Its 28-digit precision and the sign of `Decimal('-0')` are not modelled: values are exact.
- Non-ASCII text. String case, stripping and digits are modelled over ASCII only; Unicode case mapping and Unicode digits in `int()` and `\d` are out.
- `int()` forms. `int()` of a numeral with underscores is not modelled: such text counts as unreadable.
- The summarizer's `float()` (`Summarizer.FloatReading`). It reads surrounding white space, a sign, `inf` or `infinity` in any case, and a decimal numeral with an optional exponent. The only `float()` forms it leaves unreadable are `nan` and numerals with underscores. So a bucket labelled `le="nan"` or `le="1_0"` gets the bound +inf, where Python gives nan or 10.
- Other number readings. Azure's `float()` of the memory capability, the AWS `Decimal()` of prices and Go's `strconv.ParseFloat` in vservices read plain decimals only. Exponents, `inf` and `nan` count as unreadable there.
- In-place sorting. `list.sort` and `sorted` are a pure stable insertion sort over a sequence, so the in-place update is not captured.
- The web layer. Logging, prints, the Flask/FastAPI routing, uvicorn and the startup hooks are not modelled.
- Prometheus internals and the exposition format. Counters, gauges and histograms are fields, and the text the summarizer parses (`parse_metrics_text`, redis-app/summarizer/main.py:72-80) is an input map.
- File I/O. The termination log, `OUTPUT_PATH` writes and the temp-file probe are inputs or results; the aggregator's file write either succeeds or changes nothing, so a partially written file is not modelled.
- Environment settings. The model fixes each of the following at its default: `JOBS_DIR` (`jobs`) and `AGGREGATOR_MAX_RESULT_BYTES` (50 MiB) of the aggregator, `PROCESSOR_MAX_INPUT_BYTES` (10 MiB) of the processor, `QUEUE_KEY` (`jobs_queue`) of the gateway, the backend and the worker, and `COMPONENT` (`gateway`, `backend`) of the gateway and the backend. So `Processor.PayloadBounds`, `Aggregator.PayloadBounds`, `Aggregator.SuccessState`, `Aggregator.SaveSuccess` and the queue and metric-label facts of the redis-app are proved for the default configuration. The Redis address, the ports, the log level and the URLs are not modelled.
- Non-string `job_id` values (a JSON number, say) are not modelled in the processor and the aggregator: a field is a string or absent.
- Node identity. `get_node_identity` of the processor and the aggregator reads sockets, and is an input.
- Base64 and image processing. The base64 decoder and the PIL open/convert/resize/PNG encode are inputs; only the thumbnail's dimensions are computed.
- HTTP and SDK calls. Picsum, the aggregator, the backend, the Retail Prices API, EC2, the Pricing API, the Azure SDK and Cloud Billing are given as replies or listings, together with their failures and timeouts.

Redis app:
- The summarizer: `fetch_queue_length`'s `int()` of the reply and the FastAPI endpoints are not modelled.

image-finder:
- image-finder/az.py, `choose_best_image`: the regular-expression search is an abstract predicate.
- image-finder/az.py, `parse_int_parts`: the TypeError Python raises when comparing mixed int and str lists is not modelled; the comparison is a total order.
- image-finder/aws.py: JSON values of the wrong type are not modelled, because the model's payload and zone types cannot hold them. An INPUT_JSON that is not an object (`[]`, say) makes `payload.get` raise before the code-2 checks. A zone entry that is not a dictionary, or a `nameLabel` that is neither a string nor null, makes the zone loop raise. Each of these exits with code 1. A `zone` value that is not a string would be copied to the output as it is.
- image-finder/az.py: a failure to create the credential or client is not modelled.
- image-finder/az.py: JSON values of the wrong type are not modelled, because the model's payload, configuration and zone types cannot hold them. An INPUT_JSON or AZ_CONFIG_JSON that is not an object makes `.get` raise before the code-2 checks on the payload or before the credential checks. A credential field, `nameLabel` or `zone` that is truthy but not a string makes `.strip()` raise. So does a zone entry that is not a dictionary. Each of these exits with code 1.
- image-finder/gcp.py is not part of this model: its only logic is an SDK listing, a regex search and a prefix strip.

ca-signer and ca-gen:
- ca-signer/main.go: key generation, X.509 creation, PEM encoding and the Secret get, update and create are not modelled. `net.ParseIP` is a parameter.
- ca-gen/main.go is not part of this model: it only generates a key and a certificate.

vservices:
- `parseAmount` reads plain decimals only: Go ParseFloat's exponents, `Inf` and `NaN` are out.
- Go map iteration over workers follows a given sequence, not Go's random order.
- YAML decoding and JSON marshalling are not modelled: the model starts from decoded records.

headscale-init:
- `main`'s file reads and writes and its Kubernetes calls are not modelled.
- URL parsing (the port of section 3.2.3 of RFC 3986) is a parameter that returns the port or rejects the URL.

instance-finder/aws.py:
- The `SpotPrice` text is taken as already read as a number.
- The exceptions of `json.loads` on price documents are not modelled.
- `get_offered_instance_types_in_az` and the paginators are inputs.
- An empty `GpuInfo` is modelled as absent.
- `main` (instance-finder/aws.py:176 on) is not modelled beyond the family filter it applies.

instance-finder/az.py:
- `gib_to_str` is never called and is not modelled.
- The `$filter` text of the Retail Prices query is not modelled: the items of each size and kind are inputs.
- A requested family without `nameLabel` crashes the program, and this is not modelled: the families are given as strings.
- Writing main's output (instance-finder/az.py:350 on) is not modelled.

instance-finder/gcp.py:
- `int()` of a non-numeric `units` field raises ValueError, and this is not modelled: units are integers.
- `get_compute_service_name` is not modelled: the catalog's pages are given.
- The exceptions of the requests are not modelled.
- `main` (instance-finder/gcp.py:306-374) is not modelled, nor are `parse_input`, `to_title_label` and the `zones_out` list it fills.
- The `json.dumps` region test changes nothing and is not modelled.
- `InstanceFinderGcp.FirstSuffix`: Python's `$` also matches just before a final newline, and this is not modelled. Machine-type names hold no newline, and for them the model's end of the name is `$`.
