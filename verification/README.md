# A verified model of the reranking service

This project models the parts of the reranking service whose correctness depends on several functions
or on many steps working together, and proves properties of them for all inputs, runs and
interleavings. `dafny verify dfyconfig.toml` checks everything.

## What is modelled

**Micro-batcher** (`Texts`, `Batching`, `BatchingProperties`, `BatchingOutcomes`, `MicroBatcher`,
`BatcherRuns`, `BatcherRefinement`, `BatcherProgress`). `_process` packs the pairs of many concurrent jobs into predictor calls under a pair cap
and a token cap, splits large jobs over rounds, scatters the scores back and resolves one future per
job. `MicroBatcher` holds it as it is written: nested loops over mutable job objects. It is proved
equal, call for call and field for field, to the recursive function `Batching.Process`; the theorems
are about that function. A *world* answers every await: which futures were cancelled meanwhile, what
the predictor returned, and the caps of each round, which may change between rounds. `BatcherRuns`
is the whole batcher as a step system: submissions, the worker, clients giving up, settings changes
and `close`, in any order. `BatcherRefinement` shows that whatever happens between the launch of a batch
and the worker's return is one run of `Batching.Process`, and derives the call-count bound and the
absence of starvation for the step system; isolation and the budget are proved of it directly.
`BatcherProgress` shows what can still happen: from every state with a running worker all pending jobs
can be finished.

**Cache and service** (`Cache`, `Ranking`, `Service`, `EndToEnd`, `EndToEndProgress`). Lookups, one inference call for the
misses, the merge, the stable descending sort and the cut to `top_n`, under any pattern of hits,
evictions, unreadable lookups and partial writes. `EndToEnd` puts any number of requests, the batcher
and one shared cache together: each request that completes gets the ids, scores and ranks it would get
alone with an empty cache. `EndToEndProgress` adds that requests do complete: after any run every
admissible request can be answered, and a request under way can be unless it is beyond help.

**Model runtime and providers** (`Lifecycle`, `Onnx`, `OnnxThreads`). Candidate load, activation,
rollback, close and predictions in flight as a protocol; the choice of provider at load; the CUDA-to-CPU
switch of one inference, and of any number of inferences in threads that share a loaded model
without a lock.

**Ranking statistics** (`Permutations`, `Parity`). Spearman, Kendall and top-k overlap with their loops,
over exact arithmetic. `Basics` holds the values the modules share.

**Self-contained algorithms** (`Jina`, `Security`, `Timeseries`, `Csv`). The listwise index scatter, the
sliding-window rate limiter, the dashboard's time series, and the CSV reader.

## What the proofs found

- A job without pairs is never resolved by a run without predictor errors: `_process` returns when
  nothing is left to send and leaves its future pending (`ProcessCompletes`, `UndisturbedRun`). The
  service never submits one (`reranker_service/service.py:86`).
- A job that a worker holds when `close` cancels it is never resolved, and neither is one queued while
  `close` waits for that worker: `close` cancels the latter, and the clients of the former wait until
  their time runs out. These are, beside jobs cancelled or failed, exactly the jobs that cannot be
  finished any more (`CanResolveIff`, `CanBeAnsweredIff`).
- A cache key determines the normalised texts it was made of exactly when every NUL in them has a space
  beside it, given that NFKC composes nothing with NUL and leaves normalised texts alone
  (`KeyUnambiguousIff`). At a lone NUL two different requests share a key (`KeyCollision`). Requests
  with a lone NUL are therefore outside the cache theorems; all others are inside.
- Storing a score is safe exactly when the predictor's score depends on the normalised texts alone
  (`StoresSafelyIff`).
- A warm-up on CUDA can itself fall back inside the inference. The model that loads then runs on CPU
  and reports a failed inference, not a failed initialisation (`LoadingExplained`).
- On its own, an inference that may fall back, with a CPU session that works, fails only if one of its
  CUDA runs fails otherwise than by a CUDA error or returns unusable outputs (`CudaErrorsAreAbsorbed`).
  With several at once a CUDA error can reach the caller after a single run. This happens exactly
  when CPU is already the active provider at the step that looks at the error, which means that
  another inference has made the second assignment of its switch (`RaisedIffOvertaken`); and it can
  happen (`OvertakenErrorIsRaised`).
- A negative entry of `top_values` cuts documents off the end of both rankings and divides by a negative
  number: the overlap is then below 0 unless the shortened rankings share nothing
  (`OverlapIsFractionIff`, `NegativeTop`).

## Model

| member | source | states |
|---|---|---|
| Texts.WordsOfJoin | reranker_service/cache.py:12-13 | splitting single-spaced words gives the words back |
| Texts.SameNormalForm | reranker_service/cache.py:12-13 | two texts normalise alike exactly when they have the same words after NFKC |
| Texts.TidyIff | reranker_service/cache.py:12-13 | the texts that splitting and joining leave alone are those with single spaces between words and none at the ends |
| Texts.NormalizeIdempotent | reranker_service/cache.py:12-13 | normalising a normalised text that NFKC leaves alone changes nothing |
| Texts.SpacesAre | reranker_service/batching.py:98 | the characters at which texts are split are these 29, one by one |
| Texts.WordsAround | reranker_service/batching.py:98 | whatever space stands between two texts, the words are those of the one and then those of the other; of a word they are the word |
| Batching.PairTokensOfWords | reranker_service/batching.py:98 | a pair weighs the words of its query and of its document together, and 1 when neither has any |
| Batching.Scatter | reranker_service/batching.py:119-126 | each job advances by its count and nobody else moves; a live future resolves exactly when its scores complete it, a done one keeps its outcome |
| Batching.RoundJobs | reranker_service/batching.py:86-127 | after a scored round every active job's cursor has moved by its count and the live backlog is strictly smaller, so the loop ends |
| Batching.RoundSpends | reranker_service/batching.py:86-127 | by any measure, what a round sends and what its jobs have left add up to no more than what there was |
| Batching.RoundShrinks | reranker_service/batching.py:86-127 | a round that sends something makes the backlog of live jobs strictly smaller, whatever is cancelled in it |
| BatchingProperties.TakeCountFits | reranker_service/batching.py:94-105 | a job's slice leaves the batch within its caps, stops only at a cap or at a pair that does not fit, and is never empty at the head of a batch |
| BatchingProperties.PackingFits | reranker_service/batching.py:87-107 | the finished batch respects both caps, a single oversized pair excepted |
| BatchingProperties.PackingIsMaximal | reranker_service/batching.py:87-107 | a job not sent in full was stopped by a pair-full batch or by a pair that does not fit even the finished batch |
| BatchingProperties.PackingStartsWithFirst | reranker_service/batching.py:90-107 | the batch opens with the next pair of the first active job that has one |
| BatchingProperties.CallsWithinBudget | reranker_service/batching.py:84-127 | every predictor call of a run has at least one pair and respects the caps of its own round |
| BatchingProperties.ConsecutiveRounds | reranker_service/batching.py:86-127 | of two rounds in a row the first is pair-full or the two together exceed the token cap, cancellations in between included |
| BatchingProperties.ConsecutiveCalls | reranker_service/batching.py:84-127 | the same for every two consecutive calls of a run |
| BatchingProperties.SentAtMostOnce | reranker_service/batching.py:84-127 | by any measure, all calls together send no more than the live jobs had left: no pair is sent twice |
| BatchingProperties.CallCountBound | reranker_service/batching.py:84-127 | with fixed caps P and M a run that sends N pairs of T tokens makes at most 1 + N/P + 2T/(M+1) calls, whatever is cancelled |
| BatchingOutcomes.ScatterFaithful | reranker_service/batching.py:119-126 | handing out a batch's scores gives every job the scores of its own pairs |
| BatchingOutcomes.RoundFaithful | reranker_service/batching.py:110-127 | a round keeps every job's scores equal to the predictor's on the pairs already sent |
| BatchingOutcomes.ProcessFaithful | reranker_service/batching.py:84-127 | isolation: at the end of any run whose scored rounds bring a per-pair predictor's scores, each job's scores are the predictor's on its sent pairs, and each result delivered is the predictor's on all its pairs, in order |
| BatchingOutcomes.ProcessSettles | reranker_service/batching.py:84-127 | exactly once: a done future keeps its outcome to the end of the run, and no job's pairs change |
| BatchingOutcomes.ProcessCompletes | reranker_service/batching.py:84-127 | a run that ends normally or by a predictor error leaves every job done, except jobs without pairs when it stopped for want of something to send |
| BatchingOutcomes.EveryFutureDone | reranker_service/batching.py:84-127 | with non-empty jobs every return other than the worker's own cancellation leaves every future done |
| BatchingOutcomes.FailedRoundOutcomes | reranker_service/batching.py:110-118 | when the predictor raises or returns a wrong number of scores, each pending job of the round fails, those whose clients gave up meanwhile are cancelled, and nothing else changes; when the worker is cancelled the others stay pending |
| BatchingOutcomes.FirstJobAdvances | reranker_service/batching.py:90-122 | each call that is answered advances the first active job that has pairs left |
| BatchingOutcomes.NoStarvation | reranker_service/batching.py:84-127 | if the predictor answers the calls it gets, the first k jobs are done after at most as many calls as they have pairs left, however many wait behind them and whatever is cancelled |
| BatchingOutcomes.AfterIsProcess | reranker_service/batching.py:84-127 | the jobs after as many answered calls as a normal run makes are the jobs the run ends with |
| BatchingOutcomes.UndisturbedRun | reranker_service/batching.py:84-127 | if in the rounds reached the predictor answers and no client of an active job gives up, every live job resolves with its scores, except those without pairs, which stay pending |
| MicroBatcher.ScatterScores | reranker_service/batching.py:119-126 | the in-place scatter over the slices is the slice-by-slice update of the job values |
| MicroBatcher.RoundUnfolds | reranker_service/batching.py:86-127 | the program's slices, which leave out jobs that contribute nothing, describe the same round as the function's counts, for every answer |
| MicroBatcher.Pack | reranker_service/batching.py:87-107 | the nested packing loops compute the batch and the slices of the specification |
| MicroBatcher.PackJob | reranker_service/batching.py:91-105 | one job's packing loop takes exactly the specified slice and tokens |
| MicroBatcher.Round | reranker_service/batching.py:86-127 | one pass of the loop is one round: it either ends the run as specified or leaves the jobs as the specified round does |
| MicroBatcher.ProcessJobs | reranker_service/batching.py:84-127 | the program on mutable jobs makes the same calls, ends the same way and leaves the same job states as `Batching.Process` |
| MicroBatcher.BatchJob.CancelFuture | reranker_service/batching.py:56-57 | cancelling takes effect only on a future that is not done |
| MicroBatcher.DynamicBatcher.Start | reranker_service/batching.py:38-40 | a worker exists afterwards if it did before or batching is on |
| MicroBatcher.DynamicBatcher.Submit | reranker_service/batching.py:59-69 | a submission is queued last as a fresh job exactly when batching is on, the worker exists and there is room; otherwise nothing changes and the caller learns which it was |
| MicroBatcher.DynamicBatcher.RunOnce | reranker_service/batching.py:71-82 | one turn of the worker takes the oldest jobs from the queue, as many as arrived, runs `Batching.Process` on them and touches no job behind them |
| MicroBatcher.DynamicBatcher.Close | reranker_service/batching.py:48-57 | the queue is empty, the worker gone, and every drained future that was pending is cancelled |
| MicroBatcher.DynamicBatcher.Reconfigure | reranker_service/batching.py:42-46 | the worker exists exactly when batching is on; switching off empties the queue and cancels its pending futures, otherwise queue and jobs are untouched |
| BatcherRuns.ApplyKeepsInv | reranker_service/batching.py:25-127 | every step, possible or not, keeps the batcher's invariant |
| BatcherRuns.Conservation | reranker_service/batching.py:25-127 | over whole runs the queue is bounded; every accepted job is queued or has left once, in acceptance order; what the worker holds is not queued; a live job with pairs is queued, held or was held by a cancelled worker; a batch in flight is within its caps |
| BatcherRuns.SubmitAllOrNothing | reranker_service/batching.py:59-69 | an accepted submission only appends one job; a rejected one changes nothing |
| BatcherRuns.SwitchDecides | reranker_service/batching.py:38-69 | switched off the batcher accepts nothing; switched on it accepts exactly when there is a worker, which a start provides, and room |
| BatcherRuns.CloseDrains | reranker_service/batching.py:48-57 | whatever happens while `close` awaits the worker, it leaves an empty queue with every job queued before or meanwhile done; only jobs a worker held can stay undone |
| BatcherRuns.RunResults | reranker_service/batching.py:25-127 | isolation over whole runs: a future that resolves carries its own pairs' scores, in order, and done futures never change |
| BatcherRefinement.WorkerRunsProcess | reranker_service/batching.py:71-127 | from the launch of a batch until the worker no longer awaits, in any interleaving, the calls made, the jobs left and whether it was interrupted are those of one run of `Batching.Process` on the collected jobs |
| BatcherRefinement.StretchCallBound | reranker_service/batching.py:71-127 | with fixed caps P and M such a stretch, ended or not, makes at most 1 + N/P + 2T/(M+1) calls for N pairs of T tokens, and sends no more than the collected jobs had left |
| BatcherRefinement.StretchNoStarvation | reranker_service/batching.py:71-127 | in a stretch that is not closed and whose replies fit, the first k collected jobs, if they have pairs, are done after at most as many replies as they had pairs left, or when the stretch ends, whatever is submitted or given up meanwhile |
| BatcherProgress.WorkerFinishesAll | reranker_service/batching.py:71-127 | from every state with a running worker, its steps and a predictor that answers empty the queue and give every pending job with pairs its own scores, those a close took from an earlier worker excepted |
| BatcherProgress.CanResolveIff | reranker_service/batching.py:25-127 | after any run, a job with pairs can still get its scores if and only if it has them, or is pending, was not in the hands of a cancelled worker, and a worker runs |
| Ranking.Sorted | reranker_service/service.py:111-112 | the order is a stable descending ranking of all positions |
| Ranking.RankingIsBestFirst | reranker_service/service.py:111-112 | a ranking puts the higher score first and equal scores in the order of the request |
| Ranking.PositionCountsBetter | reranker_service/service.py:111-112 | the item at position k is beaten by exactly k others |
| Ranking.RankingUnique | reranker_service/service.py:111-112 | there is only one stable descending order |
| Cache.KeyExact | reranker_service/cache.py:21-33 | for texts in whose normal forms every NUL has a space beside it, two keys are equal exactly when the normalised texts are |
| Cache.KeyExactAcrossSettings | reranker_service/cache.py:21-33 | keys made under any two settings without NULs are equal exactly when model, revision, backend, precision and length limit all agree and the normalised texts do |
| Cache.KeyUnambiguousIff | reranker_service/cache.py:12-33 | only requests with the same normalised texts share a request's key, if and only if every NUL in its normalised texts has a space beside it |
| Cache.KeyCollision | reranker_service/cache.py:12-33 | two requests with different normalised texts that share a key under any settings, where NFKC leaves these texts alone |
| Cache.StoreKeepsCoherent | reranker_service/cache.py:53-56 | a true score stored under its key leaves every entry a pair can find its own score |
| Cache.EvictKeepsCoherent | reranker_service/cache.py:53-56 | losing entries keeps the cache coherent |
| Cache.StoresSafelyIff | reranker_service/cache.py:21-33 | storing scores is safe for every cache and pair if and only if the score depends on the normalised texts alone |
| Cache.StoredCoherent | reranker_service/cache.py:48-59 | any part of a pipelined write keeps the cache coherent |
| Cache.WrittenIsRead | reranker_service/cache.py:35-60 | a write that took effect is read back by every request with its key, until a later write to that key or its eviction |
| Cache.OthersAreKept | reranker_service/cache.py:48-60 | a pipeline changes no entry but those it writes |
| Cache.OtherSettingsMiss | reranker_service/cache.py:21-60 | what was stored under one model, revision, backend, precision or length limit is never found under another |
| Cache.ScoreCache.GetMany | reranker_service/cache.py:35-46 | position by position what the store holds under the pair's key; nothing when the cache is off or cannot be read |
| Cache.ScoreCache.SetMany | reranker_service/cache.py:48-59 | only the writes that took effect are stored; none when the cache is off or the lengths differ |
| Service.Validate | reranker_service/service.py:40-65 | accepts exactly the admissible requests and then returns the clipped query and documents in order; every rejection is "too large" |
| Service.AdmissibleMeans | reranker_service/service.py:40-65 | a request is admitted exactly when it has few enough documents, each text fits its limit or may be cut, and the query and the texts that remain, put together, are within the total |
| Service.TextsAreCut | reranker_service/service.py:45-62 | the query and each document are scored up to their own limit of characters |
| Service.Misses | reranker_service/service.py:85 | exactly the positions without a score, each once, in increasing order |
| Service.MergeAt | reranker_service/service.py:100-101 | each inferred score goes to its missing position and nothing else changes |
| Service.MergeIsTrue | reranker_service/service.py:100-110 | with true cached scores the merge leaves no position unscored, so the 0.0 default is never used, and every score is the predictor's |
| Service.AloneIsTopOfRanking | reranker_service/service.py:105-157 | the results are the first of the unique stable descending order, as many as asked for or as the default says, best first, each described field by field, with ranks from 1; the document at rank r is beaten by exactly r - 1 others |
| Service.RespondGives | reranker_service/service.py:105-157 | any response has as many results as asked for, or as the default says, but no more than documents; the k-th describes the document ranked k-th, best score first, field by field, and says whether it was a miss |
| Service.BareMeans | reranker_service/service.py:121-157 | comparing responses without their hits compares every other field of every result, and the counts of documents |
| Service.Transparent | reranker_service/service.py:79-157 | any true partial cache content gives the same results as scoring everything |
| Service.CacheIsTransparent | reranker_service/service.py:79-157 | a request served through a coherent cache, readable or not, that succeeds has the results it has with everything scored afresh |
| Service.CacheStaysCoherent | reranker_service/service.py:102-103 | whatever part of its writes takes effect, a request leaves the cache coherent |
| Service.ServedIsCached | reranker_service/service.py:82-104 | after a request that succeeds and whose writes take effect, the same request finds every score in the cache |
| Service.HitsAreCached | reranker_service/service.py:122-157 | hits and misses add up to the documents received, the hits counted are the cached ones, and a result is marked a hit exactly when its score came from the cache |
| Service.FillMisses | reranker_service/service.py:100-101 | the overwriting loop is the merge of the specification |
| Service.FailsOnlyForMisses | reranker_service/service.py:85-103 | a validated request fails exactly when something is missing from the cache and the predictor gives no score for each missing document; the error says how, nothing is stored, and a fully cached request does not depend on the predictor |
| Service.RerankService.StoreMisses | reranker_service/service.py:102-103 | exactly the misses' pairs are written with the inferred scores, as far as the writes take effect |
| Service.RerankService.Rerank | reranker_service/service.py:67-157 | the response or error, and the new cache content, as functions of the request, the cache before it, and the predictor's answer; a rejected request leaves the cache alone |
| EndToEnd.StartInv | reranker_service/service.py:67-157 | the empty system satisfies the invariant |
| EndToEnd.ApplyKeepsInv | reranker_service/service.py:67-157 | every event of any request, the batcher or the cache keeps the invariant of the combined system |
| EndToEnd.OutcomesExplained | reranker_service/service.py:82-104 | a client gives up exactly by a rejected submission, a cancelled or failed job, a timeout or an unusable direct answer, and is answered exactly by its last step; both are final |
| EndToEnd.FinishAnswers | reranker_service/service.py:105-157 | the last step answers the client with the response made of its cached and fresh scores, and moves nothing else |
| EndToEnd.WriteIsFound | reranker_service/cache.py:48-60 | a write is found by every later lookup with its key; other lookups are unchanged |
| EndToEnd.EvictedIsMissed | reranker_service/cache.py:54-56 | what is evicted is missed, and nothing else |
| EndToEnd.TimeoutCancels | reranker_service/service.py:93-99 | a client whose time runs out leaves its job cancelled if it was pending, and changes nothing else in the batcher |
| EndToEnd.ConcurrentEqualsAlone | reranker_service/service.py:67-157 | in every interleaving through one batcher and one cache each completed request has the ids, scores and ranks it would have alone with an empty cache |
| EndToEndProgress.EveryRequestCanBeAnswered | reranker_service/service.py:67-157 | after any run, every admissible request can still be answered, as it would be alone, without anything being switched off, closed, evicted or timed out; with batching on, what is not cached goes through the batcher as one job |
| EndToEndProgress.CachedRequestIsAnswered | reranker_service/service.py:80-157 | a request whose scores are all cached is answered without the batcher and the predictor and reports a hit for every document |
| EndToEndProgress.CanBeAnsweredIff | reranker_service/service.py:67-157 | after any run, a request under way can still be answered if and only if it has not given up and does not wait for a job that is cancelled, failed, lost with a cancelled worker or without a running worker |
| Lifecycle.RollbackTwice | reranker_service/runtime.py:270-297 | rolling back twice restores every field |
| Lifecycle.ActivateThenRollback | reranker_service/runtime.py:243-297 | rolling back an activation restores the former active model and identity, with the candidate as previous, ready to be rolled forward |
| Lifecycle.ModelRuntime.FinishCandidate | reranker_service/runtime.py:207-241 | a candidate whose test rerank gives one finite score is published with its information; any other is unloaded once and only the operation record changes |
| Lifecycle.ModelRuntime.ActivateCandidate | reranker_service/runtime.py:243-268 | succeeds exactly when a candidate with its information is there; all fields afterwards |
| Lifecycle.ModelRuntime.Rollback | reranker_service/runtime.py:270-297 | succeeds exactly when there is a previous model; all fields afterwards |
| Lifecycle.ModelRuntime.Close | reranker_service/runtime.py:356-366 | each distinct model held is unloaded exactly once and none is held afterwards |
| Lifecycle.ApplyKeepsInv | reranker_service/runtime.py:129-297 | every step of every request and prediction keeps the protocol's invariant |
| Lifecycle.LifecycleSafety | reranker_service/runtime.py:129-297 | over every interleaving the active model was loaded under exactly the identity in the settings, the candidate and previous under theirs, and no unloaded model is active, candidate, previous or in use |
| Lifecycle.FailedLoadsChangeNothing | reranker_service/runtime.py:189-241 | over any run in which no candidate passes its test and no activation or rollback finds a model to put in place, unsuccessful attempts included, everything but the operation record stays as it was |
| Lifecycle.TestedCandidateTakesOver | reranker_service/runtime.py:207-268 | a candidate that passes its test is active under exactly its target after the next activation, whatever else but a replacement happens in between, with the former model as previous |
| Lifecycle.FailedCandidateIsUnloaded | reranker_service/runtime.py:207-241 | one that fails is unloaded, used by nobody, and replaces nothing |
| Lifecycle.LoadReachesItsTest | reranker_service/runtime.py:189-207 | a valid load that fits in memory gets the free lock and is tested under its target |
| Lifecycle.LockIsForLoads | reranker_service/runtime.py:197-241 | only a waiting load gets the lock, when it is free, and one that fails gives it back |
| Lifecycle.RefusedLoads | reranker_service/runtime.py:191-198 | a load refused for its target or for want of memory queues nothing and replaces nothing |
| Lifecycle.RollbackSwaps | reranker_service/runtime.py:270-297 | a rollback puts the previous model back under its identity and the active one in its place |
| Lifecycle.PredictionUsesActive | reranker_service/runtime.py:129-142 | a prediction runs on the model that is active when it starts, until it ends |
| Lifecycle.PredictionKeepsItsModel | reranker_service/runtime.py:129-142 | a prediction's model stays loaded under one identity from start to end, whatever happens meanwhile |
| Onnx.ScoresMatchPairs | reranker_service/backends/onnx.py:260-296 | scores come out exactly when there is one output with one finite entry per pair, in any accepted shape, and score i is the entry of pair i |
| Onnx.InferenceGuarantees | reranker_service/backends/onnx.py:210-258 | an inference on its own keeps session and provider consistent, falls back only where allowed and after a CUDA error, makes at most three runs, none on CUDA after running out of memory, and returns one score per pair |
| Onnx.CudaErrorsAreAbsorbed | reranker_service/backends/onnx.py:236-258 | alone, where falling back is allowed and CPU works, an inference on CUDA fails if and only if one of its CUDA runs failed otherwise than by a CUDA error or returned unusable outputs |
| Onnx.CudaErrorsAreMarked | reranker_service/backends/onnx.py:278-281 | an error counts as CUDA's exactly when one of four texts stands anywhere in its message |
| Onnx.NothingRuns | reranker_service/backends/onnx.py:210-222 | nothing is run exactly when there are no pairs, no session or unsupported inputs; only no pairs is a success |
| Onnx.OnnxLoadedModel.RunInference | reranker_service/backends/onnx.py:210-258 | the method's result, session runs and final fields are those of the specification |
| Onnx.FallbackOrRaise | reranker_service/backends/onnx.py:196-201 | the CPU model with the reason recorded, or an error where the policy forbids it |
| Onnx.LoadSync | reranker_service/backends/onnx.py:115-194 | the loaded model's fields, or the error, are those of the specification |
| Onnx.LoadsIff | reranker_service/backends/onnx.py:115-201 | a model loads if and only if CPU is configured and available, the inputs are supported, the warm-up on CPU gives its score, and CUDA works where it is demanded, or works, is not configured or may be replaced in automatic mode |
| Onnx.LoadingExplained | reranker_service/backends/onnx.py:115-194 | a model that loads is consistent, and its provider and recorded reason hold exactly when the configuration, the session and the warm-up's runs and errors were as they say |
| Onnx.LoadingByDevice | reranker_service/backends/onnx.py:115-194 | device "cuda" loads on CUDA or not at all; in automatic mode with the fallback on a valid CPU model always loads |
| OnnxThreads.AloneIsInfer | reranker_service/backends/onnx.py:210-258 | an inference whose steps nothing interrupts is the sequential inference |
| OnnxThreads.StepKeepsInv | reranker_service/backends/onnx.py:234-258 | each single read, write or run of any thread keeps the shared invariant and moves the model only towards CPU |
| OnnxThreads.RunKeepsInv | reranker_service/backends/onnx.py:234-258 | so does every interleaving of any number of inferences |
| OnnxThreads.ProviderSafety | reranker_service/backends/onnx.py:210-258 | over all interleavings CPU is declared only with the CPU session in place, the two agree except inside the switch, CUDA to CPU is one-way and only in automatic mode with the fallback on, a reason at any moment implies CPU as active and as fallback provider, and every inference keeps its run bound and score count |
| OnnxThreads.RaisedIffOvertaken | reranker_service/backends/onnx.py:234-258 | in every interleaving of any number of inferences, one that may fall back and has met a CUDA error ends with it after that single run if and only if CPU is active when it looks at the error; from a model on CUDA that means some inference has made its second assignment |
| OnnxThreads.ActiveIffDeclared | reranker_service/backends/onnx.py:253-256 | in every interleaving from a model on CUDA, CPU is active exactly when some inference has declared it |
| OnnxThreads.OvertakenErrorIsRaised | reranker_service/backends/onnx.py:234-258 | two concurrent inferences can end with one raising its CUDA error after a single run although the fallback is on |
| Permutations.SumReindexed | reranker_service/parity.py:20-23 | a sum over all ids does not depend on their order |
| Permutations.DifferencesAndReversals | reranker_service/parity.py:20-24 | the squared rank differences to a ranking and to its reverse add up to n(n^2-1)/3 |
| Permutations.InversionsOfInverse | reranker_service/parity.py:25-32 | a permutation and its inverse have equally many discordant pairs |
| Permutations.NoInversions | reranker_service/parity.py:25-32 | no discordant pair exactly for the identity |
| Permutations.OnlyInversions | reranker_service/parity.py:25-32 | no concordant pair exactly for the reversal |
| Parity.ComparableMeans | reranker_service/parity.py:10-13 | the two checks pass exactly for duplicate-free rankings of the same ids |
| Parity.SpearmanBounds | reranker_service/parity.py:14-24 | the squared-difference sum is within [0, n(n^2-1)/3], the coefficient within [-1, 1], 1 exactly for equal and -1 exactly for reversed rankings |
| Parity.SpearmanIsCorrelation | reranker_service/parity.py:20-24 | the coefficient is the covariance of the documents' ranks in the two rankings over their variance, which is the same in both |
| Parity.PairCount | reranker_service/parity.py:25-33 | concordant and discordant pairs are n(n-1)/2 together |
| Parity.KendallBounds | reranker_service/parity.py:25-33 | tau is within [-1, 1], 1 exactly for equal and -1 exactly for reversed rankings |
| Parity.KendallCounts | reranker_service/parity.py:25-33 | the coefficient is 1 less twice the share of the pairs of documents that the rankings put in different orders |
| Parity.Symmetric | reranker_service/parity.py:4-33 | both coefficients are unchanged when baseline and candidate are swapped |
| Parity.OverlapBounds | reranker_service/parity.py:39-42 | the overlap is symmetric; for a number that is not negative it is within [0, 1], and 1 exactly when the two tops have the same ids |
| Parity.OverlapCounts | reranker_service/parity.py:39-42 | for a number that is not negative, the overlap is the documents that both tops share over how many the tops have, and 1 for empty ones |
| Parity.OverlapIsFractionIff | reranker_service/parity.py:39-42 | for any number, the overlap is within [0, 1] if and only if the number is not negative or the rankings shortened at the end share nothing |
| Parity.NegativeTop | reranker_service/parity.py:39-42 | two equal rankings of two documents overlap by -1 at -1 |
| Parity.RankMap | reranker_service/parity.py:18-19 | every id is mapped to its position |
| Parity.SumSquares | reranker_service/parity.py:20-23 | the loop's sum is that of the squared moves of the permutation between the rankings |
| Parity.CountPairs | reranker_service/parity.py:25-32 | the nested loops count the concordant and discordant pairs |
| Parity.RankingParity | reranker_service/parity.py:4-43 | succeeds exactly on comparable rankings and returns the coefficients and overlaps the lemmas are about |
| Jina.CompleteIffCovers | reranker_service/backends/jina.py:114-124 | n tags below n are all different exactly when they reach every document |
| Jina.OrderDoesNotMatter | reranker_service/backends/jina.py:114-125 | reordering what the model returned changes neither success nor any score |
| Jina.Scatter | reranker_service/backends/jina.py:114-125 | succeeds exactly when the tags are a permutation of 0..n-1 with finite scores; each score then sits where its tag says; otherwise the message names the first fault |
| Jina.Rerank | reranker_service/backends/jina.py:89-125 | the checks before the model is called, in order, and the scatter of what it returns |
| Security.RateLimiter.RateLimit | reranker_service/security.py:28-36 | the verdict and the caller's window are those of the specification and no other window changes |
| Security.WindowIsHistory | reranker_service/security.py:28-36 | with a monotone clock a client's window is always its accepted requests of the minute up to its last check |
| Security.LimitHolds | reranker_service/security.py:28-36 | no closed 60-second interval holds more accepted requests of a client than the limit |
| Security.RejectedIffUsedUp | reranker_service/security.py:28-36 | a request is rejected exactly when its client has used the whole limit in the minute that ends with it |
| Timeseries.P95IndexIsNearest | reranker_service/admin.py:76 | the index is the nearest to 95% of the way through the bucket, the even one of two, and never needs its cap |
| Timeseries.AdminState.Record | reranker_service/main.py:208 | the newest record is in front and only the oldest beyond a thousand is dropped |
| Timeseries.AdminState.Timeseries | reranker_service/admin.py:65-88 | one point, in increasing order, for each bucket with a record from the cutoff on, summarising exactly that bucket's records |
| Timeseries.Conservation | reranker_service/admin.py:65-88 | requests, documents, cache hits and errors over all points are those of all records from the cutoff on |
| Timeseries.OnePointPerRecord | reranker_service/admin.py:68-72 | each such record lies in the interval of exactly one point |
| Timeseries.BucketInterval | reranker_service/admin.py:71 | a bucket is a multiple of the width and its interval holds the record's time |
| Timeseries.PointsAtMultiples | reranker_service/admin.py:71-74 | every point stands at a multiple of the width |
| Timeseries.SeriesUnique | reranker_service/admin.py:65-88 | the records, the cutoff and the width determine the series, latencies included |
| Csv.CsvRows | web/src/main.tsx:176-190 | the index loop returns the rows of the reader specified character by character |
| Csv.RoundTrip | web/src/main.tsx:176-190 | a document printed as in section 2 of RFC 4180, in any mix of styles, reads back as its rows that have some non-empty field |
| Csv.ReadPrintRead | web/src/main.tsx:176-190 | reading, printing in any style and reading again gives the rows of the first reading, for every text |
| Csv.EmptyRowsAreDropped | web/src/main.tsx:176-190 | a row is dropped exactly when all its fields are empty |
| Csv.LoneReturnEndsRow | web/src/main.tsx:176-190 | a carriage return without a line feed ends a row as well |
| Csv.QuoteInsideField | web/src/main.tsx:176-190 | a quote inside a bare field opens a quoted stretch of it and is itself dropped |
| Csv.UnclosedQuote | web/src/main.tsx:176-190 | a quote that is never closed takes everything up to the end |

## Left out

- HTTP, authentication, metrics, tracing, logging, the React pages and the scripts.
- Models, tokenizers, ONNX sessions and Redis: what they return is a parameter. SHA-256 is taken as
  injective, NFKC as a parameter, and the JSON encoding of scores as exact.
- NaN scores and rounding: scores, clocks and statistics are real numbers. Latency means and the 95%
  index are computed exactly.
- Listwise requests in the service, cache and batcher theorems: they bypass the cache and the batcher.
- The cap on concurrent inference: the semaphore is replaced while predictions run, so it bounds
  only the work of one semaphore object.
- A change of model, `max_length` or other key settings during a request: the cache key is computed again
  after the inference. The service and end-to-end theorems hold the settings fixed.
- Cache expiry as a clock: it is an eviction that may happen at any time.
- Models that are overwritten as candidate or previous: they are dropped without being unloaded. No
  claim is made that every loaded model is eventually unloaded.
- An initial load that overlaps an activation, and predictions before the initial load or after `close`.
- Two overlapping `close` calls of the batcher, and the races of `asyncio.wait_for` in Python before 3.12.
- BatcherRuns.CloseDrains: jobs the worker held when it was cancelled are not claimed to be resolved,
  because `close` does not resolve them; the model records them as abandoned.
- BatcherRuns.Conservation and EndToEnd.ConcurrentEqualsAlone: about job values, not job objects; that the
  objects behave like the values is shown for `_process` and the batcher's methods in `MicroBatcher`.
- EndToEnd.ConcurrentEqualsAlone: for requests in whose normalised texts every NUL has a space beside it,
  and about ids, scores and ranks; hit marks and counts depend on what is cached.
- Service.Transparent: the same restriction to ids, scores, ranks and document fields; `normalized_score`,
  the model metadata fields and the latency of the response are not modelled.
- Parity.RankingParity: the overlaps are a list, one per entry of `top_values`, where the source keeps the
  last of equal entries; `score_deviation` is not modelled.
- Lifecycle.ModelRuntime.FinishCandidate: covers `load_candidate` from the returned model on. The checks
  before it are one input of the step system.
- Onnx.LoadSync: artifact checks and the creation of the CPU session, which raise before anything is loaded.
- OnnxThreads.ProviderSafety: `unload` during an inference; the runtime unloads only models that no
  prediction uses, `close` excepted.
- Jina.Rerank: the word-overlap scores of the mock model.
- Csv.CsvRows: works on characters as JavaScript does on UTF-16 units; `parseDocuments` is not modelled.
- Benchmarks, the exporter, artifact loading, revision checks, settings validation and the other
  methods of the admin state.
