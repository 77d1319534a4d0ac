# A verified model of the Common Crawl data plane

This project models the parts of GrowthSent's Common Crawl tooling on which the
correctness of its data depends, and proves what they promise. It is self-contained
Dafny 4.11; `dafny verify dfyconfig.toml` checks all of it.

The model has five connected parts.

1. **Leases and write-once publication over a conditional-put object store.**
   `LeaseProtocol` is the timed shard lease of both generations (v2 and GCP) as a state
   machine: every store request, clock reading and crash of every worker is a step of its
   own. `LeaseClient` is the worker's side, with the lease object, its refresh and finalize
   methods and the two acquire procedures. `Publication` is the store of immutable objects
   with any number of writers; `ObjectStore` is the R2 client on top of it. `RegionalTask`,
   `RawShard` and `DerivedShard` are the three publication procedures that write a
   completion marker last. `Programs` is any number of programs of store requests on one
   prefix; `TaskPrograms`, `RawPrograms` and `DerivedPrograms` are the three procedures in that
   form, and `RawCrash` is the raw procedure on its own, with the one crash that it does not
   survive. `LeasedShard` joins the lease and the uploads it guards.
2. **The link-index query plan.** `LinkIndex`: one task joins its rows with its host map,
   filters, groups into six tables and partitions by target bucket. `LinkServing`: the
   compaction queries, conservation of counts, top-N lists and per-domain documents.
   `LinkTasks`: the batch jobs around the queries.
3. **The dictionary-encoding optimizer.** `Dictionary`.
4. **Deterministic partitioning and its two verifiers.** `ShardMath`, `ShardManifests`,
   `ShardSets`, `ShardPlans`, `RunVerifier`; then the recovery lanes in `Lanes` and
   `SparseInputs`.
5. **Streaming, batching and digests.** `WatText` and `WatStream` (the WAT reader),
   `WriteOne` (batching writers and the retry loop), `SemanticDigest`, and `Promotion`
   (server-side copies that survive crashes).

`Wrappers` and `Collections` hold result types and facts about sequences and sets.

## How to read it

**Interference.** Code that talks to a store is written as methods on classes with
mutable fields. The store's client carries a *script*: before each request it says what
rival workers and the clock do, and whether the request or its answer is lost. The script
is arbitrary, so a plain postcondition holds for every interleaving and every fault.
Clauses guarded by `Alone`, `Quiet` or `Reliable` say, in addition, exactly what happens
when nobody interferes or nothing is lost. A crash is a request that fails and everything
after it that does not happen.

**Machine, methods, programs.** The publication machine's writers are guarded: a writer
takes up an upload only when it knows that what the object records or presupposes is there.
That the code has this discipline is proved twice. Every put of the store client is a run of
the machine, and `R2Store.Valid` says that the state it is in is reached by one, so the
contracts of `RunTask` and the two `RunShard` methods hold it too. And the three procedures as
programs are *disciplined*, so any number of them, interleaved, crashed and restarted, are a run
of the machine (`Programs.ProgramsAreRuns`).

**Histories.** State-machine theorems (`...Inv`, `MutualExclusion`, `MarkerLast`,
`RawCompletedIsWhole`, and so on) quantify over every run, that is, over every list of
steps. Theorems about restarted containers (`NoMixing`, `Quarantined`, `Fate`,
`AlienForever`, `AnyNumberOfCrashes`) quantify over every list of runs, each of which may
stop anywhere.

**Opaque functions.** SHA-256, canonical JSON, the public-suffix resolver, Python's `int`
in directory names and the JSON decoder are parameters. Where freedom from collisions is
needed it is a stated precondition (`Publication.CollisionFree`, `SemanticDigest.NoCollision`);
the dictionary theorems need none.

**Documents.** A JSON control document is a map of fields, a list of artifact entries and
a list of recorded upload results. Clock readings and counters inside documents come in as
parameters of an attempt.

## What the proofs found

- `run_shard` of the raw ingest writes `run-summary.json` and then the marker
  (`tools/common_crawl_wat_ingest_gcp_25k.py:368-377`). A crash between the two leaves a
  shard that no later attempt can complete, because the summary counts the sources
  processed in the attempt and a resumed attempt has none left. `RawCrash.CrashBehindSummary`
  reaches that crash with the program itself, for every non-empty shard;
  `RawShard.CrashBeforeMarkerSticks` shows that it stays. `RawShard.Completes` is the exact
  condition on the store an attempt finds, and `CompletesBeforeSummary`,
  `CompletesBehindSummary` and `CompletesWhenFinished` say what it comes to at each stage.
- A rerun on a finished raw shard changes nothing, but as a rule it fails: nothing in
  `run_shard` looks at the marker, although a comment there says that the marker has priority
  over an expired lease on resume (`tools/common_crawl_wat_ingest_gcp_25k.py:378-381`).
  See `RawShard.FinishedStays` and, for the finished shard of an undisturbed attempt,
  `RawCrash.UndisturbedFinishes`.
- The lease fences the lease object, not the shard: a worker that has been displaced without
  knowing it still uploads (`LeasedShard.DisplacedStillUploads`). What it uploads is harmless,
  since each object is new and has everything it records in place
  (`LeasedShard.DisplacedOnlyAdds`).
- The derived shard publishes a metrics file that contains elapsed seconds under an
  immutable key (`tools/common_crawl_backlink_derive_gcp_25k.py:280-300`). After a crash behind
  that upload, an attempt with the same files completes the shard exactly when its metrics file
  has the same bytes (`DerivedPrograms.CrashBehindMetrics`, `DerivedShard.StaleMetricsStick`).
- The optimizer's check `crawl <> X` does not see null crawls
  (`tools/common_crawl_optimize.py:236-245`): a row's crawl comes back exactly when it was
  not null. A host beside a null URL is not stored, and a null host may come back non-null
  when another row gave the same URL a host (`Dictionary.HostRecovered`,
  `Dictionary.LinkRecovered`).
- A promoted copy is recognised by the next run only if the source states a content type
  and its checksum, if it has one, is that of the whole object, not a composite one
  (`Promotion.CopyRecognised`). Otherwise the copy also fails the check made right after it,
  and stands in the way of every later plan (`Promotion.CompositeIsInTheWay`).
- The two lease generations differ exactly as `LeaseProtocol.GenerationGap` says: v2
  reclaims completed, failed and stopped leases without the takeover flag.
- A regional rerun's identity does not include the release digest
  (`tools/common_crawl_cloudflare_r2_standard1_regional_ramp.py:229-251`): a finished prefix is
  reused by a run of another release, while an unfinished one, whose input manifest names
  the release, is an input conflict (`RegionalTask.OtherRelease`).
- The domain builder does not check `--top-n` (`tools/build_domain_json_v1.py:586`). Below 1 no
  row survives the cut, so every total is 0 beside a positive referring count; from 1 on the
  totals agree (`LinkServing.TotalsAgreeWhen`, `LinkServing.NothingListedAtZero`).
- The second shard verifier is laxer about plans than the first: it compares `input_count` with
  Python's `==`, for which `true` equals 1, lets plan entries have fields of their own, and lets
  shard documents have them too. `RunVerifier.TrueIsTakenForOne` gives a plan only the second
  accepts, for every base manifest; `RunVerifier.PlansAgreeWhenStrict` is the exact difference.
  On shard sets the two agree (`RunVerifier.VerifiersAgree`).

## Model

| member | source | states |
|---|---|---|
| LeaseProtocol.MutualExclusion | tools/common_crawl_wat_ingest_v2.py:288-391 | In every run from any initial lease object, with any number of workers, crashes and clock steps: at most one worker holds the current ETag; a worker that would still trust its last renewal does hold it; two such workers are the same one. |
| LeaseProtocol.NoPreemption | tools/common_crawl_wat_ingest_v2.py:367-386 | In every run, a running lease whose expiry is still ahead at the moment of the next write is only ever rewritten by the worker that wrote it. |
| LeaseProtocol.StepInv | tools/common_crawl_wat_ingest_v2.py:310-391 | Every step of every worker keeps the protocol invariant behind the two rows above. |
| LeaseProtocol.OnlyActorWrites | tools/common_crawl_r2_store.py:263-296 | The lease object changes only by a successful conditional put, which appends exactly one entry by the acting worker to the history and gives the object a fresh ETag. |
| LeaseProtocol.DisplacedStep | tools/common_crawl_wat_ingest_v2.py:310-337 | A worker whose ETag is no longer current stays displaced after any step, and no step of its own (refresh, finalize, acquire attempt) changes the lease. |
| LeaseProtocol.DisplacedIsHarmless | tools/common_crawl_wat_ingest_v2.py:310-337 | However a run goes on, a displaced worker never writes the lease again under its old handle; everything written so far stays in the history. |
| LeaseProtocol.GcpCompletedIsFinal | tools/common_crawl_wat_ingest_gcp_25k.py:269-276 | In the GCP generation a completed lease that no worker owns never changes again, in any run. |
| LeaseProtocol.OwnedCompletedStays | tools/common_crawl_wat_ingest_gcp_25k.py:269-276 | In the GCP generation a completed lease stays as it is in every run in which the worker that completed it does nothing more. |
| LeaseProtocol.GenerationGap | tools/common_crawl_wat_ingest_v2.py:367-386 | GCP admits strictly less than v2; the leases only v2 reclaims are exactly the non-running ones that are completed or lack the takeover flag; neither generation admits over an unexpired lease. |
| LeaseProtocol.AdmitV2Is | tools/common_crawl_wat_ingest_v2.py:367-386 | Each answer of the v2 admission rules and exactly when it is given, in the fields of the stored document and the worker: admitted if and only if the identity is equal and the state is not running or the expiry is there, not ahead of the clock, and the takeover flag is set. |
| LeaseProtocol.AdmitGcpIs | tools/common_crawl_wat_ingest_gcp_25k.py:256-274 | The same for GCP: admitted if and only if the identity is equal, the state is not completed, the takeover flag is set, and a running lease has an expiry not ahead of the clock. |
| LeaseProtocol.TakeoverNeedsFlag | tools/common_crawl_wat_ingest_v2.py:367-386 | Over every run: where a lease entry follows one of another author, its author has the same assignment; over a running lease it has the takeover flag and the expiry had passed; in the GCP generation it always has the flag and the entry before it is not completed. |
| LeaseClient.RivalsUndisturbing | tools/common_crawl_wat_ingest_v2.py:310-326 | Whatever rivals and the clock do between two requests of a worker, the worker's own state and all it has written stay as they were. |
| LeaseClient.SendEffect | tools/common_crawl_r2_store.py:263-296 | A claim, renewal or final update replaces the lease exactly when its If-Match (or If-None-Match) condition still holds at the store, and otherwise changes nothing. |
| LeaseClient.World.Put | tools/common_crawl_r2_store.py:263-296 | A conditional put reports a stamp exactly when its condition held; a lost answer may still have written; a failed request or a failed condition writes nothing. |
| LeaseClient.ShardLease.Refresh | tools/common_crawl_wat_ingest_v2.py:310-322 | A normal return means the stored lease is this worker's running lease under its new ETag, written once and last; without an ETag nothing happens but the error; a lost precondition means nothing was written and the ETag is not current; left alone it succeeds exactly when the ETag is current. |
| LeaseClient.ShardLease.MaybeRefresh | tools/common_crawl_wat_ingest_v2.py:324-326 | Renewal margin: on every normal return, under any interleaving and loss of requests, the stored lease is this worker's own running lease and at the clock reading used at least the duration less the patience is left of it, that is two thirds for the approved durations. |
| LeaseClient.ShardLease.FinalizeV2 | tools/common_crawl_wat_ingest_v2.py:328-337 | A terminal update either replaces the worker's own lease once, by a document with this identity, owner, requested state and stamp and no expiry, or writes nothing because the worker is displaced, and that case is not an error; other states and a missing ETag change nothing; an undisturbed owner's update goes through. |
| LeaseClient.ShardLease.FinaliseGcp | tools/common_crawl_wat_ingest_gcp_25k.py:235-240 | The same update, field by field, except that a displaced worker gets the lost-ownership error and has written nothing; undisturbed it succeeds exactly when the ETag is current; and once it has completed a GCP lease, no run in which this worker does nothing more changes the lease again. |
| LeaseClient.RoundV2 | tools/common_crawl_wat_ingest_v2.py:350-391 | One acquire round: won with the running lease in place, or refused, or to be tried again after losing a race, in which cases nothing was written. |
| LeaseClient.AcquireV2 | tools/common_crawl_wat_ingest_v2.py:344-391 | At most three rounds; success means the stored lease is the caller's own running document, field by field, written once and last; a refusal or exhausted contention wrote nothing; left alone it succeeds exactly when there is no lease or one of the same identity that is not running, or running with an expiry not ahead and the takeover flag set. |
| LeaseClient.AcquireGcp | tools/common_crawl_wat_ingest_gcp_25k.py:243-278 | The same for GCP's single read and single conditional put: left alone it succeeds over a lease exactly when the identity is equal, the lease is not completed, the takeover flag is set, and a running one has an expiry not ahead. |
| Publication.StepInv | tools/common_crawl_r2_store.py:205-261 | Any step of any writer keeps the store closed (everything recorded or presupposed by an object exists with the recorded size and digest) and only adds objects. |
| Publication.RunInv | tools/common_crawl_r2_store.py:205-261 | The same over every run, for any number of concurrent and crashing writers. |
| Publication.PutIsARun | tools/common_crawl_r2_store.py:205-261 | An upload of a supported body under a free key is a run of the machine, whichever writer makes it; the store client's own put is defined by it, so every method of the client, and every procedure built on it, leaves a state that the machine reaches from the start. |
| Publication.PublishedIsComplete | tools/common_crawl_r2_store.py:205-261 | From an empty store, every reachable object has its prerequisites and every object it records, byte count and SHA-256 included. |
| ObjectStore.R2Store.Verify | tools/common_crawl_r2_store.py:190-203 | True exactly when the object is there with the given size and digest, false only when nothing is there, a conflict exactly otherwise. |
| ObjectStore.R2Store.PutOnce | tools/common_crawl_r2_store.py:205-220 | Creates the object or reports that one was there; never replaces one; reports creation exactly when this client wrote; a lost answer may have written. |
| ObjectStore.R2Store.UploadImmutable | tools/common_crawl_r2_store.py:222-261 | Success means the object is in place with exactly these bytes, and `reused` that this client wrote nothing; on a quiet reliable store it succeeds exactly when the key is free (files within the single-put limit) or already holds these bytes. |
| ObjectStore.R2Store.ReadJson | tools/common_crawl_r2_store.py:298-322 | The stored document, None only for a missing key, an error only for a body that is not JSON or an unreachable store; the digest check never fires on a closed store. |
| ObjectStore.R2Store.ListKeys | tools/common_crawl_r2_store.py:344-354 | Exactly the keys of the prefix. |
| ObjectStore.R2Store.EnsureImmutableJson | tools/common_crawl_wat_ingest_v2.py:129-147 | Success means the key holds exactly the expected document, whoever created it; a conflict means another document is there and nothing was written. |
| Programs.ProgramsAreRuns | tools/common_crawl_r2_store.py:190-261 | Any number of deterministic programs of reads, listings and uploads, each uploading only what its answers support, interleaved, crashed and started late on an empty prefix, leave a store that a run of the machine leaves. |
| Programs.PlayAllInv | tools/common_crawl_r2_store.py:190-261 | Over any such interleaving the store stays closed, only grows, and every object in it is one that some program asked for. |
| RegionalTask.VerifyExistingCompletion | tools/common_crawl_cloudflare_r2_standard1_regional_ramp.py:229-251 | None only without a marker; a marker is returned exactly when its run id, region, task index, source key and selected-inputs digest, field by field, are those of the run, and an identity conflict otherwise. |
| RegionalTask.PrepareTaskInput | tools/common_crawl_cloudflare_r2_standard1_regional_ramp.py:254-284 | Resumes exactly from an empty prefix or from a prefix holding nothing but the very same input manifest; a different manifest is an input conflict; an existing object never changes. |
| RegionalTask.PublishArtifacts | tools/common_crawl_cloudflare_r2_standard1_regional_ramp.py:363-370 | Pages, Links and Metrics in that order, each in place as recorded; the run stops only between the first and fourth object of the attempt. |
| RegionalTask.PublishControl | tools/common_crawl_cloudflare_r2_standard1_regional_ramp.py:371-443 | WAT marker, then summary, then completion marker, each after everything it records. |
| RegionalTask.ObjectsSay | tools/common_crawl_cloudflare_r2_standard1_regional_ramp.py:327-443 | The seven objects of an attempt spelled out: keys and order, the identity, release and source manifest in each document, the parser's report or summary, the artifact lists, and the recorded upload results. |
| RegionalTask.InputNamesOneAttempt | tools/common_crawl_cloudflare_r2_standard1_regional_ramp.py:327-343 | Two attempts have the same input manifest exactly when run, release and source manifest are the same. |
| RegionalTask.RunTask | tools/common_crawl_cloudflare_r2_standard1_regional_ramp.py:317-443 | With a marker present: nothing is written, and a rerun of the same identity reports reused while any other identity is a conflict. Without one and alone: the prefix ends as the first n objects of this attempt, or untouched if it cannot be resumed; it completes exactly when it can be resumed, parses and fits the upload limit. Under any interleaving, success means the recorded marker is in place. |
| RegionalTask.MarkerNamesOneRun | tools/common_crawl_cloudflare_r2_standard1_regional_ramp.py:229-251 | The marker of a parsed attempt carries an identity if and only if it is that attempt's own in all five fields. |
| RegionalTask.NextIsNew | tools/common_crawl_cloudflare_r2_standard1_regional_ramp.py:317-443 | The seven objects of an attempt have seven distinct keys, so each is new when its turn comes. |
| RegionalTask.NoMixing | tools/common_crawl_cloudflare_r2_standard1_regional_ramp.py:317-386 | Over any sequence of crashed and restarted runs, the prefix always holds the first objects of one single attempt. |
| RegionalTask.RunKeeps | tools/common_crawl_cloudflare_r2_standard1_regional_ramp.py:254-284 | One run changes nothing on a finished prefix, nor on one that holds payload, and does not complete the latter. |
| RegionalTask.Quarantined | tools/common_crawl_cloudflare_r2_standard1_regional_ramp.py:254-284 | A prefix with payload but no marker: every later run fails and changes no object, for ever. |
| RegionalTask.Finished | tools/common_crawl_cloudflare_r2_standard1_regional_ramp.py:229-251 | Once the marker is there, no later run changes the prefix. |
| RegionalTask.Fate | tools/common_crawl_cloudflare_r2_standard1_regional_ramp.py:254-284 | Where a sequential history can stand: at most seven objects, the marker exactly with the seventh; a next attempt can resume exactly from nothing or from its own input manifest alone. |
| RegionalTask.OtherRelease | tools/common_crawl_cloudflare_r2_standard1_regional_ramp.py:229-251 | A run of another release, equal otherwise, never goes on from this attempt's prefix, and finds itself named by a marker there exactly when all seven objects are there, with a marker that holds the release that made them. |
| RegionalTask.MarkerLast | tools/common_crawl_cloudflare_r2_standard1_regional_ramp.py:317-443 | Under any interleaving of guarded writers the marker implies the six other objects, and Pages, Links, Metrics and summary have the bytes and digests it records. |
| TaskPrograms.TaskIsDisciplined | tools/common_crawl_cloudflare_r2_standard1_regional_ramp.py:317-443 | run_task, as a program of store requests, uploads nothing before everything it records or presupposes is in place. |
| TaskPrograms.RunnersAreARun | tools/common_crawl_cloudflare_r2_standard1_regional_ramp.py:317-443 | Any number of run_task runners on one prefix, interleaved, crashed and restarted, are a run of the publication machine. |
| TaskPrograms.EveryObjectHasItsAttempt | tools/common_crawl_cloudflare_r2_standard1_regional_ramp.py:317-443 | Under that concurrency every object in the prefix is one of the seven of some attempt, and that attempt's earlier objects, its input manifest first, are in place. |
| TaskPrograms.MarkerMeansOneAttempt | tools/common_crawl_cloudflare_r2_standard1_regional_ramp.py:229-251 | Once the marker is there, the prefix holds all seven objects of one attempt, digest for digest, and nothing else; without a hash collision it is exactly that attempt's objects, and input manifest, WAT marker and summary carry the identity of the completion marker. |
| TaskPrograms.OneRunnerIsSequential | tools/common_crawl_cloudflare_r2_standard1_regional_ramp.py:317-443 | Alone on an empty prefix, wherever it is stopped, the program leaves what the contract of RunTask says of a run. |
| RawShard.ReadCompletedMetric | tools/common_crawl_wat_ingest_gcp_25k.py:69-92 | None only when the source has no metrics object; a returned document belongs to the source and lists exactly its Pages and Links, both in place as recorded; otherwise an error. |
| RawShard.SplitInputs | tools/common_crawl_wat_ingest_gcp_25k.py:315-323 | The recovered sources are exactly those with a metrics object, the rest is pending in input order; on the shard's own prefix only an unreachable store makes it fail. |
| RawShard.SplitExactly | tools/common_crawl_wat_ingest_gcp_25k.py:315-323 | The split loses no input, repeats none and puts none on both sides. |
| RawShard.PublishOne | tools/common_crawl_wat_ingest_gcp_25k.py:190-210 | Success means the source's triplet is in place; uploads and reuses add up to three; on a quiet store the number reused is the number of files found in place, and it succeeds exactly when each file is new or already there byte for byte. |
| RawShard.MetricsSay | tools/common_crawl_wat_ingest_gcp_25k.py:167-210 | A source's metrics object names the source and the run, keeps the rest of the parser's report, and records the two files as parsed. |
| RawShard.PublishPending | tools/common_crawl_wat_ingest_gcp_25k.py:326-351 | Publishing all pending sources touches only their triplets and succeeds exactly when each of them parses and is publishable against the store the loop started from. |
| RawShard.SummaryRefs | tools/common_crawl_wat_ingest_gcp_25k.py:352-367 | The files listed by a complete set of reports are, input by input, a Pages and a Links object, all in place as recorded. |
| RawShard.SummarySupported | tools/common_crawl_wat_ingest_gcp_25k.py:352-368 | A run summary made of recovered or published reports may be written, and records every file of every input. |
| RawShard.Finish | tools/common_crawl_wat_ingest_gcp_25k.py:368-377 | Summary, then marker; behind a summary that does not agree with the new one nothing is written. |
| RawShard.SummaryIs | tools/common_crawl_wat_ingest_gcp_25k.py:352-367 | The summary an attempt working alone builds is a function of the store it found: counts of recovered, processed, uploaded and reused, and the ordered reports. |
| RawShard.RunShard | tools/common_crawl_wat_ingest_gcp_25k.py:298-382 | Success means the marker and a summary listing every input's files in order are in place, under any interleaving, and without a hash collision the stored manifest, summary and marker say so field by field: metadata, ordered inputs, release, counts, the summary's reference; a stored manifest with another release, input list or metadata field makes it fail and, alone, leaves the store as it is; alone, the summary counts what the store it found had and lacked; it leaves nothing but its own triplets and control objects, and nothing behind a summary it cannot rebuild or behind a marker; alone and reliable it succeeds exactly under a stated condition on the store it finds. |
| RawShard.MetricsVouch | tools/common_crawl_wat_ingest_gcp_25k.py:190-210 | A source's metrics object is its own, lists exactly its Pages and its Links under their keys, and both have the recorded size and digest. |
| RawShard.RawCompletedIsWhole | tools/common_crawl_wat_ingest_gcp_25k.py:352-377 | In every reachable state each metrics object vouches for its two files, and RAW-SHARD-COMPLETED implies that for every input, a summary with the recorded digest, and for each input in order both listed files byte for byte. |
| RawPrograms.ShardIsDisciplined | tools/common_crawl_wat_ingest_gcp_25k.py:298-382 | run_shard, as a program of store requests, uploads nothing before everything it records or presupposes is in place. |
| RawPrograms.WorkersAreARun | tools/common_crawl_wat_ingest_gcp_25k.py:298-382 | Any number of run_shard workers on one shard, interleaved, crashed and restarted, are a run of the publication machine; so their metrics objects vouch and their marker means a whole shard. |
| RawShard.CompletesBeforeSummary | tools/common_crawl_wat_ingest_gcp_25k.py:315-377 | Without a stored summary, a lone reliable attempt completes exactly when the input manifest agrees and every pending source parses into files that are new or already there byte for byte. |
| RawShard.CompletesBehindSummary | tools/common_crawl_wat_ingest_gcp_25k.py:368-377 | With a summary and no marker, exactly when the manifest agrees and the attempt would write that very summary again. |
| RawShard.CompletesWhenFinished | tools/common_crawl_wat_ingest_gcp_25k.py:368-377 | On a finished shard, exactly when it would write the same summary and the same marker again. |
| RawShard.ResumedSummaryDiffers | tools/common_crawl_wat_ingest_gcp_25k.py:352-368 | After an attempt that processed a source has stored its summary, no attempt can build that summary again (its processed count is zero), so none completes. |
| RawShard.AlienForever | tools/common_crawl_wat_ingest_gcp_25k.py:368-377 | Behind a summary no attempt can rebuild, no sequence of attempts changes the store or completes. |
| RawShard.CrashBeforeMarkerSticks | tools/common_crawl_wat_ingest_gcp_25k.py:368-377 | With such a summary and no marker, no sequence of later attempts stores the marker, completes or changes anything, although every triplet is in place. |
| RawCrash.CrashBehindSummary | tools/common_crawl_wat_ingest_gcp_25k.py:298-377 | The crash is reached: from an empty prefix, for every non-empty shard and every attempt that parses it, the program killed behind the put of its summary leaves exactly that store. |
| RawCrash.CrashedShardIsStuck | tools/common_crawl_wat_ingest_gcp_25k.py:298-377 | So every such crash leaves a shard whole but for the marker which no sequence of later attempts completes. |
| RawCrash.UndisturbedFinishes | tools/common_crawl_wat_ingest_gcp_25k.py:298-382 | The finished shard is reached: undisturbed on an empty prefix, every attempt that parses its shard leaves its triplets, summary and marker, and the marker means a whole shard; no later attempt changes anything, and on a non-empty shard none reports success. |
| RawShard.FinishedStays | tools/common_crawl_wat_ingest_gcp_25k.py:368-382 | A finished shard stays as it is whatever runs on it; when its summary counts a processed source, no rerun reports success. |
| LeasedShard.DisplacedTurn | tools/common_crawl_wat_ingest_gcp_25k.py:324-351 | One turn of a worker that has lost the lease, whether a lease request or a store request, leaves the lease as it is and adds to the shard at most one object, under a free key, which its program asked for and with everything it records or presupposes in place. |
| LeasedShard.DisplacedOnlyAdds | tools/common_crawl_wat_ingest_gcp_25k.py:324-351 | The same for each of its turns in any continuation; it stays displaced, and nothing in the store is ever replaced. |
| LeasedShard.DisplacedStillUploads | tools/common_crawl_wat_ingest_gcp_25k.py:223-233 | The fence does not reach the uploads: a worker whose lease ran out and was taken over, and that has not renewed since, still puts its first object. |
| LeasedShard.LeasedWorkers | tools/common_crawl_wat_ingest_gcp_25k.py:298-382 | Lease and uploads together, in every interleaving of any number of run_shard workers: one owner at a time, workers that still trust their lease are one, and whoever owns it metrics objects vouch for their files and the marker means a whole shard. |
| DerivedShard.KeysDistinct | tools/common_crawl_backlink_derive_gcp_25k.py:125-154 | The keys published for a directory walk, metrics file included, are all different. |
| DerivedShard.CollectPublication | tools/common_crawl_backlink_derive_gcp_25k.py:125-154 | Accepts exactly the file lists whose paths all start with this shard's backlink-details or backlink-host-rollups directory, and gives the published parts in order with the metrics file last. |
| DerivedShard.PublishParts | tools/common_crawl_backlink_derive_gcp_25k.py:310-316 | Success means every part is in place; uploads and reuses count every part; alone it succeeds exactly when each part is new or already there byte for byte. |
| DerivedShard.RunShard | tools/common_crawl_backlink_derive_gcp_25k.py:213-329 | A marker already there is honoured without a write, reused exactly when it has all the shard's metadata and a conflict otherwise; a fresh success means, without a hash collision, that source plan, publication manifest and marker say what they should field by field (metadata, ordered inputs, each file under its key with size and digest, the manifest's reference); alone, a marker is only ever added on top of the attempt's own files and manifest; without one, alone and reliable, it completes exactly when the source plan agrees, the files are approved, and every file and the publication manifest are new or identical. |
| DerivedShard.DerivedCompletedIsWhole | tools/common_crawl_backlink_derive_gcp_25k.py:300-326 | In every reachable state, DERIVED-SHARD-COMPLETED implies the source plan and a publication manifest with the digest the marker records, which lists distinct objects of the shard ending in its metrics file, each there with the listed size and digest. |
| DerivedPrograms.DeriveIsDisciplined | tools/common_crawl_backlink_derive_gcp_25k.py:213-329 | run_shard, as a program of store requests, uploads nothing before everything it records or presupposes is in place. |
| DerivedPrograms.WorkersAreARun | tools/common_crawl_backlink_derive_gcp_25k.py:213-329 | Any number of run_shard workers on one derived shard, interleaved, crashed and restarted, are a run of the publication machine, and their marker means a whole shard. |
| DerivedShard.StaleMetricsStick | tools/common_crawl_backlink_derive_gcp_25k.py:280-326 | Once a metrics file is stored on an unfinished shard, then for as long as every later attempt's differs (it holds elapsed seconds), no sequence of attempts stores the marker or reports success. |
| DerivedShard.CompletesBehindFiles | tools/common_crawl_backlink_derive_gcp_25k.py:280-326 | Behind the upload of all files, an attempt with the same files and details completes exactly when its metrics file is the same too. |
| DerivedPrograms.CrashBehindMetrics | tools/common_crawl_backlink_derive_gcp_25k.py:213-326 | The crash is reached, for every attempt with approved files that fit: killed behind its metrics file the program leaves an unfinished shard on which exactly that holds. |
| LinkIndex.DomainBucket | tools/common_crawl_link_index_materialize_v1.py:223-224 | The bucket is the top ten of the twelve hash bits read, below 1,024. |
| LinkIndex.WriteHostDomainMap | tools/common_crawl_link_index_materialize_v1.py:333-361 | Exactly one entry for every distinct non-blank folded host of the rows, or an error when there is none. |
| LinkIndex.JoinIsDirect | tools/common_crawl_link_index_materialize_v1.py:367-377 | Joining a task's rows with that task's own host map and filtering is classifying each row directly. |
| LinkIndex.ClassifiedConcat | tools/common_crawl_link_index_materialize_v1.py:367-377 | Classification distributes over splitting the rows. |
| LinkIndex.ClassifiedRows | tools/common_crawl_link_index_materialize_v1.py:367-377 | A link is classified as many times as raw rows give it: both folded hosts non-blank and resolving to different non-empty domains, the trimmed URL not empty, the anchor defaulting to empty; and every classified link has these properties. |
| LinkIndex.RefusedTaskIsEmpty | tools/common_crawl_link_index_materialize_v1.py:333-361 | A task refused for want of valid hosts would have contributed no link. |
| LinkIndex.DirectConcat | tools/common_crawl_link_index_compact_v1.py:179-186 | Grouping two parts and summing the counts key by key is grouping the whole, for each of the six tables. |
| LinkIndex.DirectRows | tools/common_crawl_link_index_materialize_v1.py:378-385 | The six tables in the links' own fields: a row is in a table exactly when some link has these column values, and its count is the number of such links. |
| LinkIndex.SlicePlus | tools/common_crawl_link_index_materialize_v1.py:386-401 | Partitioning by target bucket commutes with summing. |
| LinkIndex.CompactFlat | tools/common_crawl_link_index_compact_v1.py:179-186 | Re-aggregating a bucket's part files over any list of tasks gives that bucket of the query over all their rows. |
| LinkIndex.OrderIrrelevant | tools/common_crawl_link_index_materialize_v1.py:364-401 | The grouped keys depend only on the multiset of raw rows. |
| LinkIndex.CompactedTable | tools/common_crawl_link_index_compact_v1.py:179-186 | For every table and bucket, and any dealing of the rows to tasks in any order, compaction equals the bucket's slice of one direct query. |
| LinkServing.SumPlus | tools/common_crawl_link_index_compact_v1.py:179-186 | Re-aggregation conserves the total count. |
| LinkServing.Conserved | tools/common_crawl_link_index_materialize_v1.py:378-385 | In each of the six tables the counts of a target domain's rows add up to its inbound links. |
| LinkServing.PageReferrerCount | tools/common_crawl_link_index_compact_v1.py:184 | The joined referrer rows of a page are as many as the distinct source domains that link to it. |
| LinkServing.TopPagesIsDirect | tools/common_crawl_link_index_compact_v1.py:184 | The top_pages compaction query over the regrouped tables equals one direct query with a distinct count. |
| LinkServing.ReferrerCount | tools/common_crawl_link_index_compact_v1.py:185 | The referring-domain rows of a domain are as many as its distinct source domains. |
| LinkServing.SummaryIsDirect | tools/common_crawl_link_index_compact_v1.py:185 | The domain_summary compaction query equals one direct query with a sum and a distinct count. |
| LinkServing.ServingIsDirect | tools/common_crawl_link_index_compact_v1.py:179-186 | For any split of the link rows into tasks, in any order, the six serving tables compacted for a bucket are exactly that bucket of one direct query over all rows, distinct referring-domain counts included. |
| LinkServing.ServedTables | tools/common_crawl_link_index_compact_v1.py:179-186 | The six tables compacted for a bucket, for any dealing of the rows, in the links' own fields: exactly the rows of the classified links whose target domain falls in the bucket, each with the number of links (and of distinct domains) it stands for. |
| LinkServing.BucketsPartition | tools/common_crawl_link_index_materialize_v1.py:386-401 | Every row of every table lies in exactly one bucket. |
| LinkServing.PartEmpty | tools/common_crawl_link_index_materialize_v1.py:364-401 | A task's part of a table is empty exactly when none of its links falls in the bucket, whichever the table. |
| LinkServing.AllTablesOrNone | tools/common_crawl_link_index_compact_v1.py:153-169 | After all tasks publish, a bucket has parts of all six tables or of none. |
| LinkServing.ConservedInServing | tools/common_crawl_link_index_compact_v1.py:179-186 | For every domain, the counts over anchors, referring domains, edges, broken-link candidates and top pages each equal the summary's inbound count. |
| LinkServing.RowNumberTaken | tools/build_domain_json_v1.py:142-180 | Row numbers of n rows, pairwise different and within 1..n, take every number. |
| LinkServing.ItemNumber | tools/build_domain_json_v1.py:142-180 | The item at place i of a top list is the row numbered i + 1. |
| LinkServing.TopNIsTop | tools/build_domain_json_v1.py:142-180 | A top list has min(N, total) items, none for N below 1, scores never rise along it, and no omitted row scores above an included one, however ties are broken. |
| LinkServing.ListExists | tools/build_domain_json_v1.py:142-180 | Every table has a row numbering, and every numbering, joined for any top_n, gives a listing. |
| LinkServing.DocumentInBucket | tools/build_domain_json_v1.py:452-471 | The documents that can be cut for a domain from its own bucket are those that can be cut from the whole tables. |
| LinkServing.DocumentAgrees | tools/build_domain_json_v1.py:211-255 | In every document served from a bucket the inbound count is the number of links, the referring count is the number of linking domains, and each of the four lists, for any integer top_n, is a top list of the domain's rows of one direct query; its total is the number of those rows, or 0 when nothing survives the cut. |
| LinkServing.DocumentShows | tools/build_domain_json_v1.py:211-255 | The same document in the links' own fields: its lists are the top linking domains, anchor texts, target pages, and broken-link candidates (target page, linking domain, linking page) of the links to the domain, each ranked by the number of such links. |
| LinkServing.TotalsAgreeWhen | tools/build_domain_json_v1.py:452-471 | The referring-domain total equals the summary's referring count, and each of the four LEFT JOINs finds a row, if and only if top_n is at least 1. |
| LinkServing.NothingListedAtZero | tools/build_domain_json_v1.py:177-180 | With top_n 0 every linked domain is served four empty lists with total 0 beside a positive referring count. |
| LinkTasks.PartitionedOutputFiles | tools/common_crawl_link_index_materialize_v1.py:404-432 | Accepts exactly the file lists in which each file has a proper bucket directory in range and no bucket occurs twice; the result lists them all, in bucket order. |
| LinkTasks.MissingWhole | tools/common_crawl_link_index_compact_v1.py:153-169 | All tables are missing exactly when nothing was downloaded. |
| LinkTasks.RefusedWhen | tools/common_crawl_link_index_compact_v1.py:153-169 | A bucket is refused as partial exactly when some table has a part and another has none, and reported empty exactly when none has. |
| LinkTasks.CompactBucket | tools/common_crawl_link_index_compact_v1.py:130-186 | Invalid arguments, a matching or conflicting existing summary, a partial bucket, an empty one, or the regrouped views, each exactly when stated. |
| LinkTasks.PublishedBucket | tools/common_crawl_link_index_compact_v1.py:153-186 | After all tasks publish, the answer of compact_bucket is never the partial-bucket error; it is empty exactly when no link falls in the bucket; and otherwise its own views serve, through the six queries, that bucket of one direct query, in the links' own fields. |
| Dictionary.BucketColliding | tools/common_crawl_optimize.py:120-185 | The collisions of one id bucket are exactly the global collisions whose id falls in it. |
| Dictionary.BucketConflicted | tools/common_crawl_optimize.py:120-185 | Likewise for URLs with conflicting hosts. |
| Dictionary.MaterializeDictionary | tools/common_crawl_optimize.py:120-185 | The bucket-by-bucket dictionary and counts equal the global dictionary, its number of distinct values, of colliding ids and of conflicting URLs. |
| Dictionary.ChecksMeanInjective | tools/common_crawl_optimize.py:291-296 | No collision counted means exactly that ids are globally injective on the dictionary, with nothing assumed of the hash. |
| Dictionary.NoConflictOneHost | tools/common_crawl_optimize.py:291-296 | Without a host conflict, a URL's one stored host is the non-null host of each of its rows. |
| Dictionary.HostListed | tools/common_crawl_optimize.py:254-290 | Every host a URL row refers to is in the host dictionary. |
| Dictionary.CandidatesAre | tools/common_crawl_optimize.py:254-290 | Which values the URL, host and anchor dictionaries are built from, and which hosts go with a URL, in the columns of the raw rows. |
| Dictionary.DictionariesAre | tools/common_crawl_optimize.py:254-290 | The three dictionaries in the output hold exactly the values of their raw columns, each under its own id. |
| Dictionary.Optimize | tools/common_crawl_optimize.py:236-334 | Succeeds exactly when the crawl check, all three injectivity checks and the host check hold; then the output is the encoding of the input. The crawl is refused exactly when some page or link has another crawl that is not null; collision and conflict errors carry the exact numbers. |
| Dictionary.EdgeRoundTrip | tools/common_crawl_optimize.py:302-314 | Joining one encoded edge back gives exactly one row, the raw one. |
| Dictionary.PageRoundTrip | tools/common_crawl_optimize.py:315-325 | Page URL and canonical URL come back, nulls included. |
| Dictionary.Lossless | tools/common_crawl_optimize.py:236-334 | Whenever the checks pass, joining the edges back in any order gives the raw multiset of (source_url, target_url, anchor, crawled_at). |
| Dictionary.HostDecoded | tools/common_crawl_optimize.py:254-290 | A URL's host comes back as its one non-null raw host, or null if no row gave one. |
| Dictionary.HostRecovered | tools/common_crawl_optimize.py:254-325 | A link's raw source host and its raw target host each come back if and only if they are non-null beside a URL, or null and no row gives that URL a host, or null beside a null URL. |
| Dictionary.PageHostRecovered | tools/common_crawl_optimize.py:254-325 | The same for a page's host. |
| Dictionary.LinkRecovered | tools/common_crawl_optimize.py:236-334 | All seven columns of a link come back together if and only if both its hosts do and its crawl is not null. |
| Dictionary.PageRecovered | tools/common_crawl_optimize.py:236-325 | All columns of a page come back together if and only if its host does and its crawl is not null. |
| ShardMath.SlicesAreEven | tools/common_crawl_v2_manifest.py:276-289 | Slices are non-empty, within range, and differ in size by at most one. |
| ShardMath.SlicesAreDisjoint | tools/common_crawl_v2_manifest.py:276-289 | No index is in two shards. |
| ShardMath.EveryIndexHasShard | tools/common_crawl_v2_manifest.py:276-289 | Every index is in some shard. |
| ShardMath.ShardBounds | tools/common_crawl_v2_manifest.py:276-289 | Bounds are given exactly for a count between 1 and the total and an id below the count, and a shard ends where the next one starts; each refusal exactly when stated. |
| ShardMath.CapacityMeansFit | tools/common_crawl_v2_manifest.py:292-313 | The capacity check passes exactly when every slice fits the ceiling. |
| ShardMath.SuggestedCountIsLeast | tools/common_crawl_v2_manifest.py:292-313 | The minimum shard count reported is the least one that passes, and all above it pass. |
| ShardManifests.ValidateInputPaths | tools/common_crawl_v2_manifest.py:129-172 | Accepts exactly the arrays of distinct, well-formed paths with distinct part suffixes and the expected length. |
| ShardManifests.NamesAre | tools/common_crawl_v2_manifest.py:38-172 | Which strings are taken as digests, run identifiers, crawls and WAT paths, letter by letter. |
| ShardManifests.ValidateBaseManifest | tools/common_crawl_v2_manifest.py:222-261 | Accepts exactly the valid base manifests and returns their fields. |
| ShardManifests.ValidateShard | tools/common_crawl_v2_manifest.py:421-479 | Accepts exactly the documents that are, extra fields aside, one shard of the base manifest's split into a count within capacity. |
| ShardManifests.ExpectedMatches | tools/common_crawl_v2_manifest.py:316-344 | The generated shard document is accepted. |
| ShardManifests.NoExtrasNoChoice | tools/common_crawl_v2_manifest.py:421-479 | A matching document without extra fields is the generated one. |
| ShardSets.CoverIsExact | tools/common_crawl_v2_manifest.py:701-742 | n labels that cover 0..n-1 contain each exactly once. |
| ShardSets.UnionIsBase | tools/common_crawl_v2_manifest.py:389-418 | The slices in order are the base list: nothing missing, repeated or out of order. |
| ShardSets.InputsAreUnion | tools/common_crawl_v2_manifest.py:701-742 | The inputs of matching shards in order are the union of their slices. |
| ShardSets.VerifyShardSet | tools/common_crawl_v2_manifest.py:701-742 | Accepts exactly a valid base manifest with a permutation (extra fields aside) of its split into some count within the ceiling, and returns the shards in order. |
| ShardSets.SplitIsASet | tools/common_crawl_v2_manifest.py:389-418 | split_shards yields a list that the set verifier accepts. |
| ShardPlans.OnlyOnePlan | tools/common_crawl_v2_manifest.py:568-679 | An accepted plan without extra fields is the one plan built from that base manifest and count. |
| ShardPlans.BuiltPlanIsValid | tools/common_crawl_v2_manifest.py:529-565 | build_shard_plan yields a plan the validator accepts. |
| ShardPlans.ValidateEntries | tools/common_crawl_v2_manifest.py:616-665 | Accepts exactly the summary lists that describe shard i of n at place i. |
| ShardPlans.ValidatePlan | tools/common_crawl_v2_manifest.py:568-679 | Without shard documents: accepts exactly the valid plans, for the count they state. |
| ShardPlans.ValidatePlanWith | tools/common_crawl_v2_manifest.py:568-679 | With shard documents in any order: accepts exactly when plan and shard set are valid and describe each other. |
| ShardPlans.OneOrder | tools/common_crawl_v2_manifest.py:701-742 | A list of shard documents has only one shard order. |
| RunVerifier.VerifyShardManifest | tools/verify_common_crawl_v2_run.py:179-247 | Accepts exactly the shard documents of the split whose slice is within 1,000 inputs and whose count agrees with the earlier ones. |
| RunVerifier.VerifyBaseManifest | tools/verify_common_crawl_v2_run.py:122-176 | Accepts exactly the base manifests with well-typed fields, a matching count, distinct inputs with distinct suffixes and both digests right. |
| RunVerifier.SameShardSets | tools/verify_common_crawl_v2_run.py:312-381 | At the 1,000 ceiling the two tools' notions of a complete shard set coincide. |
| RunVerifier.VerifyRunManifests | tools/verify_common_crawl_v2_run.py:312-381 | Accepts exactly an acceptable base manifest with a complete split whose slices fit 1,000 inputs and, if a plan is supplied, one that verify_shard_plan accepts for the shards in order; it returns the shards in order. |
| RunVerifier.VerifyShardPlan | tools/verify_common_crawl_v2_run.py:250-309 | Accepts exactly the plans whose header, count and digest are right and whose entry i names shard i and equals its shard document field by field, in Python's sense of equality for the count. |
| RunVerifier.EqualsOneNumber | tools/verify_common_crawl_v2_run.py:286-301 | The number that a JSON value equals in Python, if any: itself, or 1 and 0 for true and false. |
| RunVerifier.PlansAgreeWhenStrict | tools/verify_common_crawl_v2_run.py:250-309 | For shards in order and within the ceiling, the first tool accepts a plan if and only if the second does and every entry has no field of its own, a count that is a number, and a shard document whose digest is that of the document the tool would write. |
| RunVerifier.TrueIsTakenForOne | tools/verify_common_crawl_v2_run.py:286-301 | For every base manifest, the plan of one input a shard whose first entry says true for its count is accepted by the second tool with the generated shards and by the first never. |
| RunVerifier.VerifiersAgree | tools/verify_common_crawl_v2_run.py:312-381 | For a base manifest of the first tool, both accept the same shard lists at the 1,000 ceiling. |
| Lanes.LaneIndexes | deployment/common-crawl-cloudflare-r2-standard1-hundred-thousand-self-recovery/build_self_recovery_bundles.py:170-176 | A lane's index list has lane_task_count entries, entry i being start + lane + i * lane count, so the builder's length check never fires. |
| Lanes.LaneHas | deployment/common-crawl-cloudflare-r2-standard1-hundred-thousand-self-recovery/build_self_recovery_bundles.py:170-176 | An index is in a lane's list exactly when it is in the window and the lane is its residue. |
| Lanes.TaskCountStep | deployment/common-crawl-cloudflare-r2-standard1-hundred-thousand-self-recovery/build_self_recovery_bundles.py:162-163 | One more window index adds one to the count of the lane it belongs to and to no other. |
| Lanes.OwnedIsTaskCount | deployment/common-crawl-cloudflare-r2-standard1-hundred-thousand-self-recovery/build_self_recovery_bundles.py:162-163 | lane_task_count is the number of window indexes of the lane. |
| Lanes.CountsSumToWindow | deployment/common-crawl-cloudflare-r2-standard1-hundred-thousand-self-recovery/build_self_recovery_bundles.py:162-163 | Over all lanes the counts sum to the window, for every window and lane count. |
| SparseInputs.LoadInputs | tools/common_crawl_cloudflare_r2_standard1_regional_ramp.py:121-167 | Accepts exactly the manifests that meet every stated check, dense or sparse. |
| SparseInputs.BisectLeft | tools/common_crawl_cloudflare_r2_standard1_regional_ramp.py:170-191 | Binary search finds the first place not below the index. |
| SparseInputs.SelectedInput | tools/common_crawl_cloudflare_r2_standard1_regional_ramp.py:170-191 | Returns an input exactly when it is the one the manifest holds for the index, and the outside-contract error exactly when it holds none. |
| SparseInputs.LaneManifestLoads | deployment/common-crawl-cloudflare-r2-standard1-hundred-thousand-self-recovery/build_self_recovery_bundles.py:170-188 | A lane's sparse manifest loads exactly when the lane has a task. |
| SparseInputs.ExactlyOneLane | deployment/common-crawl-cloudflare-r2-standard1-hundred-thousand-self-recovery/build_self_recovery_bundles.py:170-188 | For every index in the window exactly one lane's manifest answers, with that index's source; an index outside the window is answered by none. |
| SparseInputs.ReviewedLanes | deployment/common-crawl-cloudflare-r2-standard1-hundred-thousand-self-recovery/build_self_recovery_bundles.py:148-159 | Forty-five lanes, group by group, each ordinal in its place with its start delay. |
| SparseInputs.BuildLanes | deployment/common-crawl-cloudflare-r2-standard1-hundred-thousand-self-recovery/build_self_recovery_bundles.py:373-394 | The 45 manifests all load and share out the indexes 11,000..99,999 one lane each; the builder's sum check never fires. |
| WatText.IntOfDecimal | tools/common_crawl_wat_ingest.py:156-161 | A decimal length reads back as the number printed. |
| WatText.DigitsIff | tools/common_crawl_wat_ingest.py:156-161 | The byte strings taken as numbers: digits, with single underscores between them. |
| WatText.DigitsMore | tools/common_crawl_wat_ingest.py:156-161 | One more digit, with or without an underscore before it, makes the number ten times as much and the digit. |
| WatText.SignedInt | tools/common_crawl_wat_ingest.py:156-161 | One sign in front of a number is taken, and gives it or its negative. |
| WatText.LowerIs | tools/common_crawl_wat_ingest.py:156-157 | Lower case is the ASCII one, letter by letter, and leaves every other byte as it is. |
| WatStream.EveryRecordCounted | tools/common_crawl_wat_ingest.py:134-179 | On every byte stream, records seen equal yields plus JSON failures plus non-object records. |
| WatStream.ReadHeaderBlock | tools/common_crawl_wat_ingest.py:147-161 | The header loop keeps the last usable length, counts the unusable ones, and stops behind the blank line or at the end of the stream. |
| WatStream.ReadRecord | tools/common_crawl_wat_ingest.py:147-179 | One record is framed by its length alone; a missing, negative or too large length and a bad payload are each counted as the source counts them. |
| WatStream.BlockMeans | tools/common_crawl_wat_ingest.py:147-179 | What any block of headers does to the reading: a length that is missing or negative costs one error and only that block; one past the end of the stream ends the reading; any other takes just that many bytes, whatever is in them; each unusable length line costs one error more. |
| WatStream.CutBlockMeans | tools/common_crawl_wat_ingest.py:147-161 | A stream cut inside a block of headers, or inside a header, costs one error and yields nothing more. |
| WatStream.BadBlockKeepsRecords | tools/common_crawl_wat_ingest.py:162-164 | A block without a usable length, whatever its headers, followed by printed records: every one of them is still read, with one error counted. |
| WatStream.IterWatJson | tools/common_crawl_wat_ingest.py:134-179 | The reader ends on every byte stream; its yields and its four counters are exactly the reference reading of the stream. |
| WatStream.OneRoundTrip | tools/common_crawl_wat_ingest.py:134-179 | One printed record reads back as its payload even when the payload contains the marker line. |
| WatStream.PrintedReads | tools/common_crawl_wat_ingest.py:134-179 | A list of printed records reads back as the list of their payloads, with the counters of the payloads. |
| WatStream.RoundTrip | tools/common_crawl_wat_ingest.py:134-179 | Printing JSON records (section 4 of ISO 28500 for the record frame) and reading them gives the same records in order and no framing error. |
| WriteOne.BufferedWriter.Add | tools/common_crawl_wat_ingest.py:257-265 | A row goes to the end of the contents; the buffer goes to the file exactly when the row fills the batch. |
| WriteOne.ReadRows | tools/common_crawl_wat_ingest_gcp_25k.py:129-138 | Writers hold the pass's page and link rows in order and the counters equal their numbers. |
| WriteOne.Attempt | tools/common_crawl_wat_ingest_gcp_25k.py:117-166 | A clean pass leaves exactly its rows in the two files; a failed one leaves no temporary file and no links file of its own. |
| WriteOne.WriteOne | tools/common_crawl_wat_ingest_gcp_25k.py:95-166 | It succeeds exactly when some attempt within the bound is clean and only retryable failures precede it; then the files hold exactly the rows of that one complete pass, the counters are their lengths, and the prior telemetry is what the failures before it reported, in order. |
| SemanticDigest.SortedIffSameMultiset | tools/common_crawl_semantic_contract_v2.py:64-71 | Two digest lists sort to the same list exactly when they are the same multiset. |
| SemanticDigest.DatasetDigest | tools/common_crawl_semantic_contract_v2.py:79-102 | Batch by batch, row by row, the loops gather the row count, the multiset digest and the host counts of the whole file. |
| SemanticDigest.OnlyTheMultisetMatters | tools/common_crawl_semantic_contract_v2.py:79-102 | Row order and the split into batches change nothing. |
| SemanticDigest.HostCountsAre | tools/common_crawl_semantic_contract_v2.py:94-101 | There is a count for a host and a bucket exactly when the host is not empty, the bucket is its own and some row has it as text; the count is the number of such rows. |
| SemanticDigest.NormaliseIsPlain | tools/common_crawl_semantic_contract_v2.py:44-60 | Normalising leaves no instant and no bytes at any depth, renders them as ISO text and hex, and changes nothing else. |
| SemanticDigest.DigestsEqualIffSameRows | tools/common_crawl_semantic_contract_v2.py:60-71 | When the hash does not collide on the rows at hand, two digests are equal exactly when the normalised rows are the same multiset. |
| SemanticDigest.HostCountsSum | tools/common_crawl_semantic_contract_v2.py:94-101 | The host counts sum to the number of rows with a usable target host. |
| SemanticDigest.ArtifactSemanticDigests | tools/common_crawl_semantic_contract_v2.py:120-141 | The six semantic fields: row counts and multiset digests of the two files, the record digest over links and pages digests, and the digest of the link rows' host counts. |
| SemanticDigest.SameRowsSameSemantics | tools/common_crawl_semantic_contract_v2.py:105-141 | Two artifact pairs with the same multisets of rows have the same six fields, the host-bucket digest included. |
| Promotion.CopyRecognised | tools/promote_common_crawl_v1_shard0_to_v2.py:403-425 | A finished copy is recognised by the next run if and only if the source states a content type and its checksum, if any, is the SHA-256 of the whole content; then it also passes the post-copy verification. |
| Promotion.CopyInTheWay | tools/promote_common_crawl_v1_shard0_to_v2.py:487-505 | A source without a content type, or with another checksum than its content's, yields a copy that fails the check after the copy and is not recognised by the next run. |
| Promotion.CompositeIsInTheWay | tools/promote_common_crawl_v1_shard0_to_v2.py:403-465 | A source with a composite checksum is such a one: a plan can be made before the copy and none after it. |
| Promotion.MetadataIsStamped | tools/promote_common_crawl_v1_shard0_to_v2.py:373-390 | A copy's metadata is the only map with the source's own entries, the five reserved ones (version, key, ETag, size, checksum) and no others; there is a metadata conflict exactly when no such map exists, and it is too large exactly above 2,000 bytes. |
| Promotion.MatchesWhen | tools/promote_common_crawl_v1_shard0_to_v2.py:403-425 | Any destination object, whoever wrote it, is taken for the source exactly when size and content type agree, the metadata is the stamped one or the source's own, the checksum agrees if the source has one, and without one an unstamped object has the same plain ETag. |
| Promotion.PassesWhen | tools/promote_common_crawl_v1_shard0_to_v2.py:487-505 | The check after a copy passes exactly when size, content type, the five entries, the source's own entries and a checksum are there, the checksum equal unless the source has none. |
| Promotion.Client.BuildPlan | tools/promote_common_crawl_v1_shard0_to_v2.py:445-465 | A plan exists exactly when the destination holds only expected objects, no source is missing and each existing object matches its source; it says already-verified exactly for those that exist. |
| Promotion.Client.ApplyOne | tools/promote_common_crawl_v1_shard0_to_v2.py:508-536 | An existing destination is never overwritten, whether it matches or not; a missing one becomes the copy of its source, field by field (content, headers, new ETag and checksum, stamped metadata), unless the run dies first. |
| Promotion.Client.Apply | tools/promote_common_crawl_v1_shard0_to_v2.py:508-536 | However the run ends, only missing artifacts were written and nothing was replaced; from a resumable destination it copies the missing artifacts in order, exactly as many as it lives for, succeeds exactly when it also lives through its report, and reports each artifact as already-verified or copied according to what it found. |
| Promotion.LivingRunSettlesAll | tools/promote_common_crawl_v1_shard0_to_v2.py:508-536 | A run that lives succeeds, ends with every artifact matching its source and replaces nothing. |
| Promotion.AnyNumberOfCrashes | tools/promote_common_crawl_v1_shard0_to_v2.py:445-536 | After any sequence of runs cut off anywhere, between copies or behind the last one: nothing that was there has changed, whatever is new is the copy of its source, a plan can be made, and a run that lives copies the rest, succeeds and ends with every artifact matching its source. |

## Left out

Deliberately weaker than the source in some respect:

- RawShard.RunShard: starts after the lease is held; the lease is modelled on its own, joined with the uploads in LeasedShard, and a lease failure in the middle of an attempt shows up as a crash. Lifecycle writes, which are not fenced, are left out.
- RawShard.PublishPending: one worker, in input order; the completion order of several workers is not modelled, nor the exclusion of reports that list failures.
- RawShard.RawCompletedIsWhole: the marker holds a reference with key, size and digest where the source stores the digest alone; a report in the summary is represented by its two artifact entries.
- DerivedShard.DerivedCompletedIsWhole: the marker holds a reference to the manifest with key, size and digest where the source stores the digest of the manifest without its own digest field.
- DerivedShard.RunShard: the lease and the uploads of the base manifest and the shard plan are left out; the staging of raw links and the SQL build come in as an attempt's list of files. An entry of the source plan is represented by its input, and the digests that a document holds of itself are left out.
- RegionalTask.RunTask: all control documents share one set of identity fields, a superset of some of the source's, and the `reused` flag inside recorded upload results is dropped; credentials, semantic observation and container metadata are fields given by the attempt.
- LeaseClient.World.Put: retries made inside the HTTP client are not modelled; one that resends a put which had landed would report a failed precondition although this worker wrote.
- LeaseClient.ShardLease.Refresh: for the same reason, lost ownership means that nothing was written only if the HTTP client does not resend; the same goes for FinalizeV2, FinaliseGcp and the acquire methods.
- ObjectStore.R2Store.PutOnce: asks that what the body records is already stored, which is the discipline of its callers here; the source's client would put any body.
- ObjectStore.R2Store.UploadImmutable: the same restriction.
- ObjectStore.R2Store.EnsureImmutableJson: the same restriction.
- ObjectStore.R2Store.ReadJson: a body that is not JSON and a JSON value that is not an object are one case.
- ObjectStore.R2Store.ListKeys: a store stands for one prefix, so selecting by prefix is not modelled.
- LeaseClient.AcquireV2: the stored document's copy of the lease duration (`lease_seconds`), which nothing reads, is not modelled; the same goes for AcquireGcp and Refresh.
- LeaseClient.ShardLease.MaybeRefresh: requires that the last acquire or refresh succeeded; after a failed refresh the source's run has ended with that error.
- Promotion.Client.BuildPlan: starts from an already validated list of source artifacts; the v1 manifest, the source listing and the 3,000-object count are not modelled.
- Promotion.Client.Apply: the copy response is taken to carry the stored ETag, and the final count check is not modelled.
- Promotion.AnyNumberOfCrashes: one operator at a time.
- SparseInputs.LoadInputs: the JSON field types are given by the datatype, so the type checks themselves are not modelled.
- ShardPlans.ValidatePlan: JSON numbers are integers; the float 2.0, which Python equates with 2, does not occur.
- WatStream.IterWatJson: the limit of Python's `int` on very long digit strings is not modelled.
- SemanticDigest.DatasetDigest: cells are scalars, instants, bytes and lists of them; nested mappings inside a cell do not occur.
- LeasedShard.LeasedWorkers: a worker makes store requests exactly while it takes itself for the holder; when the source looks at its lease between them is not fixed.
- WriteOne.WriteOne: a second failure inside the exception handler, while it closes the writers, is not modelled; file sizes, digests and the runtime field of the report come from outside.
- LinkTasks.CompactBucket: ends where the six results are computed; their upload to GCS and the summary document are not modelled.

Left out altogether:

- Store assumptions: every successful put is given a fresh ETag, and all workers read one shared clock.
- The interiors of boto3, Google Cloud Storage, DuckDB, PyArrow, gzip, tldextract and urllib.
- Key normalisation and the client's restriction to one prefix (`assert_allowed`), retries inside the HTTP client, and downloads of verified files.
- `rows_from_record` and the URL parsing behind it: a WAT record's rows are given.
- The catalog builder and the source-root loader of the link index.
- The backlink detail and host-rollup SQL of `tools/common_crawl_backlink_derive.py`, whose partition and group-by laws are those already proved for the link index, and the production publish step, which is not resumable.
- Upload threads, queues and the domain filter of `tools/build_domain_json_v1.py`.
- The v2 ingest's progress and lifecycle documents and the batch loop around its lease.
- Admission and lane bundle files, launch plans and Worker configuration in the recovery builder.
- The web application, its API and its workers.
