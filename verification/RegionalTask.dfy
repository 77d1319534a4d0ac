/**
One regional WAT task: its seven immutable objects, the completion marker written last,
and the quarantine of a half-written prefix.

A store here stands for one task prefix. `RunTask` follows the runner statement by
statement; the lemmas after it speak about whole histories of crashed and restarted runs.
*/
module RegionalTask {
  import opened Wrappers
  import opened Publication
  import opened ObjectStore

  const TASK_INPUT := Control("TASK-INPUT-MANIFEST.json")
  const TASK_SUMMARY := Control("TASK-SUMMARY.json")
  const TASK_COMPLETED := Control("TASK-COMPLETED.json")

  datatype Identity = Identity(
    runId: string, region: string, taskIndex: nat, sourceKey: string, selectedInputsSha256: string)

  /** What one execution of the parser hands to publication; the maps carry its timings and counters. */
  datatype Parsed = Parsed(
    pages: seq<int>, links: seq<int>, report: map<string, Scalar>, summary: map<string, Scalar>)

  /** One start of the container. `parsed` is None when the WAT cannot be read or its counts disagree. */
  datatype Attempt = Attempt(
    id: Identity, releaseSha256: string, sourceManifestSha256: string, parsed: Option<Parsed>)

  datatype TaskError =
    | Store(why: StoreError)
    | IdentityConflict
    | MalformedCompletion
    | MissingOutput
    | InputConflict
    | PartialPrefix
    | SourceFailed

  datatype Report = Report(reused: bool, completion: Body)

  function Required(id: Identity): map<string, Scalar> {
    map["run_id" := Text(id.runId), "region" := Text(id.region), "task_index" := Number(id.taskIndex),
        "source_key" := Text(id.sourceKey), "selected_inputs_sha256" := Text(id.selectedInputsSha256)]
  }

  predicate SameIdentity(id: Identity, body: Body) {
    && body.Document?
    && forall name | name in Required(id) :: name in body.fields && body.fields[name] == Required(id)[name]
  }

  /** The document names this very run: its five identity fields, one by one. */
  predicate Names(body: Body, id: Identity) {
    && body.Document?
    && "run_id" in body.fields && body.fields["run_id"] == Text(id.runId)
    && "region" in body.fields && body.fields["region"] == Text(id.region)
    && "task_index" in body.fields && body.fields["task_index"] == Number(id.taskIndex)
    && "source_key" in body.fields && body.fields["source_key"] == Text(id.sourceKey)
    && "selected_inputs_sha256" in body.fields && body.fields["selected_inputs_sha256"] == Text(id.selectedInputsSha256)
  }

  lemma IdentityFields(id: Identity, body: Body)
    ensures SameIdentity(id, body) <==> Names(body, id)
  {
    var required := Required(id);
    assert required.Keys == {"run_id", "region", "task_index", "source_key", "selected_inputs_sha256"};
    assert required["run_id"] == Text(id.runId) && required["region"] == Text(id.region);
    assert required["task_index"] == Number(id.taskIndex) && required["source_key"] == Text(id.sourceKey);
    assert required["selected_inputs_sha256"] == Text(id.selectedInputsSha256);
  }

  // ---------------------------------------------------------------- the documents

  function Fixed(a: Attempt): map<string, Scalar> {
    Required(a.id)
    + map["release_sha256" := Text(a.releaseSha256), "source_manifest_sha256" := Text(a.sourceManifestSha256)]
  }

  function InputBody(a: Attempt): Body {
    Document(Fixed(a), [], [])
  }

  function MetricsBody(a: Attempt, parsed: Parsed, files: seq<Entry>): Body {
    Document(parsed.report + Fixed(a), files, [])
  }

  function WatBody(a: Attempt, parsed: Parsed, artifacts: seq<Entry>): Body {
    Document(parsed.report + Fixed(a), artifacts, [])
  }

  function SummaryBody(a: Attempt, parsed: Parsed, artifacts: seq<Entry>, input: Ref): Body {
    Document(parsed.summary + Fixed(a), artifacts, [input])
  }

  function CompletionBody(a: Attempt, parsed: Parsed, artifacts: seq<Entry>, summary: Ref): Body {
    Document(parsed.summary + Fixed(a), artifacts, [summary])
  }

  /** A completion marker lists Pages, Links and Metrics of its source, in order, and the summary. */
  predicate MarkerShape(source: string, body: Body) {
    && body.Document?
    && |body.artifacts| == 3 && |body.results| == 1
    && body.artifacts[0].dataset == Pages && body.artifacts[0].ref.key == Artifact(Pages, source)
    && body.artifacts[1].dataset == Links && body.artifacts[1].ref.key == Artifact(Links, source)
    && body.artifacts[2].dataset == Metrics && body.artifacts[2].ref.key == Artifact(Metrics, source)
    && body.results[0].key == TASK_SUMMARY
  }

  function Needs(source: string, key: Key): set<Key> {
    var payload := {Artifact(Pages, source), Artifact(Links, source), Artifact(Metrics, source)};
    if key == TASK_COMPLETED then {TASK_INPUT, WatMarker(source), TASK_SUMMARY} + payload
    else if key == TASK_SUMMARY then {TASK_INPUT, WatMarker(source)} + payload
    else if key == WatMarker(source) then {TASK_INPUT} + payload
    else if key == Artifact(Metrics, source) then {TASK_INPUT, Artifact(Pages, source), Artifact(Links, source)}
    else if key == TASK_INPUT then {}
    else {TASK_INPUT}
  }

  predicate Allowed(source: string, key: Key, body: Body) {
    (key == TASK_COMPLETED ==> MarkerShape(source, body)) && (key.Control? ==> body.Document?)
  }

  /** The write discipline of one task prefix, whatever the hash. */
  ghost predicate ForTask(p: Protocol, source: string) {
    && (forall key :: p.needs(key) == Needs(source, key))
    && (forall key, body :: p.allowed(key, body) <==> Allowed(source, key, body))
  }

  /** Every object an uninterrupted attempt writes, in order. */
  function Objects(p: Protocol, a: Attempt): (r: seq<(Key, Body)>)
    ensures |r| == if a.parsed.Some? then 7 else 1
  {
    var source := a.id.sourceKey;
    var first := (TASK_INPUT, InputBody(a));
    if a.parsed.None? then [first]
    else
      var parsed := a.parsed.value;
      var files := [Entry(Pages, RefTo(p, Artifact(Pages, source), Blob(parsed.pages))),
                    Entry(Links, RefTo(p, Artifact(Links, source), Blob(parsed.links)))];
      var metrics := MetricsBody(a, parsed, files);
      var artifacts := files + [Entry(Metrics, RefTo(p, Artifact(Metrics, source), metrics))];
      var summary := SummaryBody(a, parsed, artifacts, RefTo(p, TASK_INPUT, InputBody(a)));
      [first,
       (Artifact(Pages, source), Blob(parsed.pages)),
       (Artifact(Links, source), Blob(parsed.links)),
       (Artifact(Metrics, source), metrics),
       (WatMarker(source), WatBody(a, parsed, artifacts)),
       (TASK_SUMMARY, summary),
       (TASK_COMPLETED, CompletionBody(a, parsed, artifacts, RefTo(p, TASK_SUMMARY, summary)))]
  }

  function ToStore(p: Protocol, objects: seq<(Key, Body)>): Store {
    if objects == [] then map[]
    else
      var last := objects[|objects| - 1];
      WithObject(p, ToStore(p, objects[..|objects| - 1]), last.0, last.1)
  }

  // ---------------------------------------------------------------- and what they say

  /** The document names the run, and the release and source manifest behind it. */
  predicate Accounts(body: Body, a: Attempt) {
    && Names(body, a.id)
    && Says(body, "release_sha256", Text(a.releaseSha256)) && Says(body, "source_manifest_sha256", Text(a.sourceManifestSha256))
  }

  /** The names an attempt's documents use for that. */
  const OWN := {"run_id", "region", "task_index", "source_key", "selected_inputs_sha256", "release_sha256", "source_manifest_sha256"}

  lemma InputSays(a: Attempt)
    ensures Accounts(InputBody(a), a) && InputBody(a).fields.Keys == OWN
    ensures InputBody(a).artifacts == [] && InputBody(a).results == []
  {
  }

  /** Two attempts write the same input manifest exactly when run, release and source manifest are all the same. */
  lemma InputNamesOneAttempt(a: Attempt, b: Attempt)
    ensures InputBody(a) == InputBody(b)
            <==> a.id == b.id && a.releaseSha256 == b.releaseSha256 && a.sourceManifestSha256 == b.sourceManifestSha256
  {
    InputSays(a);
    InputSays(b);
  }

  lemma WorkSays(a: Attempt, more: map<string, Scalar>, artifacts: seq<Entry>, results: seq<Ref>)
    ensures Accounts(Document(more + Fixed(a), artifacts, results), a)
    ensures SaysMetadata(Document(more + Fixed(a), artifacts, results), more, OWN)
  {
  }

  /**
   * The seven objects of a parsed attempt, spelled out: under which keys, in which order, what
   * each document says, and what it records of the objects before it.
   */
  lemma ObjectsSay(p: Protocol, a: Attempt)
    requires a.parsed.Some?
    ensures var o, source, parsed := Objects(p, a), a.id.sourceKey, a.parsed.value;
            var files := [Entry(Pages, RefTo(p, Artifact(Pages, source), Blob(parsed.pages))),
                          Entry(Links, RefTo(p, Artifact(Links, source), Blob(parsed.links)))];
            var artifacts := files + [Entry(Metrics, RefTo(p, Artifact(Metrics, source), o[3].1))];
            && o[0].0 == Control("TASK-INPUT-MANIFEST.json") && Accounts(o[0].1, a) && o[0].1.fields.Keys == OWN
            && o[1] == (Artifact(Pages, source), Blob(parsed.pages)) && o[2] == (Artifact(Links, source), Blob(parsed.links))
            && o[3].0 == Artifact(Metrics, source) && Accounts(o[3].1, a) && SaysMetadata(o[3].1, parsed.report, OWN)
            && o[3].1.artifacts == files
            && o[4].0 == WatMarker(source) && Accounts(o[4].1, a) && SaysMetadata(o[4].1, parsed.report, OWN)
            && o[4].1.artifacts == artifacts
            && o[5].0 == Control("TASK-SUMMARY.json") && Accounts(o[5].1, a) && SaysMetadata(o[5].1, parsed.summary, OWN)
            && o[5].1.artifacts == artifacts && o[5].1.results == [RefTo(p, TASK_INPUT, o[0].1)]
            && o[6].0 == Control("TASK-COMPLETED.json") && Accounts(o[6].1, a) && SaysMetadata(o[6].1, parsed.summary, OWN)
            && o[6].1.artifacts == artifacts && o[6].1.results == [RefTo(p, TASK_SUMMARY, o[5].1)]
  {
    InputSays(a);
    ReportSays(p, a);
    SummarySays(p, a);
  }

  lemma ReportSays(p: Protocol, a: Attempt)
    requires a.parsed.Some?
    ensures var o, report := Objects(p, a), a.parsed.value.report;
            && Accounts(o[3].1, a) && SaysMetadata(o[3].1, report, OWN)
            && Accounts(o[4].1, a) && SaysMetadata(o[4].1, report, OWN)
  {
    var o := Objects(p, a);
    WorkSays(a, a.parsed.value.report, o[3].1.artifacts, []);
    WorkSays(a, a.parsed.value.report, o[4].1.artifacts, []);
  }

  lemma SummarySays(p: Protocol, a: Attempt)
    requires a.parsed.Some?
    ensures var o, summary := Objects(p, a), a.parsed.value.summary;
            && Accounts(o[5].1, a) && SaysMetadata(o[5].1, summary, OWN)
            && Accounts(o[6].1, a) && SaysMetadata(o[6].1, summary, OWN)
  {
    var o := Objects(p, a);
    WorkSays(a, a.parsed.value.summary, o[5].1.artifacts, o[5].1.results);
    WorkSays(a, a.parsed.value.summary, o[6].1.artifacts, o[6].1.results);
  }

  // ---------------------------------------------------------------- the runner

  /** `_verify_existing_completion`. */
  method VerifyExistingCompletion(store: R2Store, id: Identity) returns (r: Result<Option<Body>, TaskError>)
    requires store.Valid() && ForTask(store.p, id.sourceKey)
    modifies store`sys, store`script
    ensures store.Valid() && Grows(old(store.sys.store), store.sys.store)
    ensures r.Success? && r.value.None? ==> TASK_COMPLETED !in store.sys.store
    ensures r.Success? && r.value.Some? ==>
              && TASK_COMPLETED in store.sys.store && r.value.value == store.sys.store[TASK_COMPLETED].body
              && Names(r.value.value, id)
    ensures r.Failure? ==> r.error in {IdentityConflict, Store(Unavailable)}
    ensures r == Failure(IdentityConflict) ==>
              TASK_COMPLETED in store.sys.store && !Names(store.sys.store[TASK_COMPLETED].body, id)
    ensures old(store.Alone()) ==> store.Alone() && store.sys == old(store.sys)
    ensures old(store.Reliable()) ==> store.Reliable() && r != Failure(Store(Unavailable))
  {
    var read := store.ReadJson(TASK_COMPLETED);
    if read.Failure? {
      assert TASK_COMPLETED in store.sys.store ==>
          Supported(store.p, store.sys.store, TASK_COMPLETED, store.sys.store[TASK_COMPLETED].body);
      return Failure(Store(read.error));
    }
    if read.value.None? {
      return Success(None);
    }
    var completion := read.value.value;
    assert Supported(store.p, store.sys.store, TASK_COMPLETED, completion);
    IdentityFields(id, completion);
    if !SameIdentity(id, completion) {
      return Failure(IdentityConflict);
    }
    if |completion.artifacts| != 3 {
      return Failure(MalformedCompletion);
    }
    for i := 0 to 3
      invariant store.Valid() && Grows(old(store.sys.store), store.sys.store)
      invariant TASK_COMPLETED in store.sys.store && store.sys.store[TASK_COMPLETED].body == completion
      invariant old(store.Alone()) ==> store.Alone() && store.sys == old(store.sys)
      invariant old(store.Reliable()) ==> store.Reliable()
    {
      var ref := completion.artifacts[i].ref;
      assert completion.artifacts[i] in completion.artifacts;
      assert ref in Refs(completion);
      assert Supported(store.p, store.sys.store, TASK_COMPLETED, completion);
      assert Present(store.p, store.sys.store, ref);
      ghost var seen := store.sys.store;
      var verified := store.Verify(ref.key, ref.bytes, ref.sha);
      assert Present(store.p, store.sys.store, ref);
      if verified.Failure? {
        return Failure(Store(verified.error));
      }
      if !verified.value {
        return Failure(MissingOutput);
      }
    }
    r := Success(Some(completion));
  }

  /** `_prepare_task_input`: create the input manifest, or resume from exactly that. */
  method PrepareTaskInput(store: R2Store, input: Body) returns (r: Result<Upload, TaskError>)
    requires store.Valid() && store.p.needs(TASK_INPUT) == {} && store.p.allowed(TASK_INPUT, input)
    requires input.Document? && Refs(input) == {}
    modifies store
    ensures store.Valid() && Grows(old(store.sys.store), store.sys.store)
    ensures r.Success? ==> r.value.ref == RefTo(store.p, TASK_INPUT, input) && Present(store.p, store.sys.store, r.value.ref)
    ensures old(store.Alone()) ==>
              var before := old(store.sys.store);
              && store.Alone()
              && (store.sys.store == before || (before == map[] && store.sys.store == WithObject(store.p, before, TASK_INPUT, input)))
              && (r.Success? ==>
                    if before == map[] then store.sys.store == WithObject(store.p, before, TASK_INPUT, input)
                    else before.Keys == {TASK_INPUT} && before[TASK_INPUT].body == input)
    ensures old(store.Alone() && store.Reliable()) ==>
              var before := old(store.sys.store);
              && store.Reliable()
              && (r.Success? <==> before == map[] || (before.Keys == {TASK_INPUT} && before[TASK_INPUT].body == input))
              && (r == Failure(InputConflict) <==>
                    TASK_INPUT in before && before[TASK_INPUT].body.Document? && before[TASK_INPUT].body != input)
  {
    var listed := store.ListKeys();
    if listed.Failure? {
      return Failure(Store(listed.error));
    }
    var existing := listed.value;
    if existing != {} {
      var read := store.ReadJson(TASK_INPUT);
      if read.Failure? {
        return Failure(Store(read.error));
      }
      if read.value.None? {
        return Failure(PartialPrefix);
      }
      if read.value.value != input {
        return Failure(InputConflict);
      }
      if existing != {TASK_INPUT} {
        return Failure(PartialPrefix);
      }
    }
    var uploaded := store.UploadImmutable(TASK_INPUT, input);
    r := if uploaded.Failure? then Failure(Store(uploaded.error)) else Success(uploaded.value);
  }

  /** May a fresh attempt go on from this prefix? */
  predicate Resumable(store: Store, a: Attempt) {
    store == map[] || (store.Keys == {TASK_INPUT} && store[TASK_INPUT].body == InputBody(a))
  }

  /** The store after the first `n` objects of the attempt. */
  function After(p: Protocol, a: Attempt, n: nat): Store
    requires n <= |Objects(p, a)|
  {
    ToStore(p, Objects(p, a)[..n])
  }

  /** What one run does to a prefix that nobody else is writing, wherever it crashes. */
  ghost predicate Sequential(p: Protocol, a: Attempt, before: Store, after: Store, completed: bool) {
    if TASK_COMPLETED in before then after == before
    else if !Resumable(before, a) then after == before && !completed
    else
      exists n: nat :: n <= |Objects(p, a)| && after == After(p, a, n) && |before| <= n && (completed ==> n == 7)
  }

  lemma AfterStep(p: Protocol, a: Attempt, n: nat)
    requires n < |Objects(p, a)|
    ensures After(p, a, n + 1) == WithObject(p, After(p, a, n), Objects(p, a)[n].0, Objects(p, a)[n].1)
  {
    var objects := Objects(p, a);
    assert objects[..n + 1][..n] == objects[..n];
  }

  lemma {:induction false} ToStoreKeys(p: Protocol, objects: seq<(Key, Body)>)
    ensures ToStore(p, objects).Keys == set o | o in objects :: o.0
  {
    if objects != [] {
      var n := |objects| - 1;
      ToStoreKeys(p, objects[..n]);
      assert objects == objects[..n] + [objects[n]];
    }
  }

  ghost predicate DistinctKeys(objects: seq<(Key, Body)>) {
    forall i: nat, j: nat | i < j < |objects| :: objects[i].0 != objects[j].0
  }

  lemma {:induction false} ToStoreSize(p: Protocol, objects: seq<(Key, Body)>)
    requires DistinctKeys(objects)
    ensures |ToStore(p, objects)| == |objects|
  {
    if objects != [] {
      var n := |objects| - 1;
      ToStoreSize(p, objects[..n]);
      ToStoreKeys(p, objects[..n]);
      assert ToStore(p, objects).Keys == ToStore(p, objects[..n]).Keys + {objects[n].0};
    }
  }

  lemma ObjectKeysDistinct(p: Protocol, a: Attempt)
    ensures DistinctKeys(Objects(p, a))
  {
  }

  /** Each object of an attempt is new when its turn comes. */
  lemma NextIsNew(p: Protocol, a: Attempt, n: nat)
    requires n <= |Objects(p, a)|
    ensures n < |Objects(p, a)| ==> Objects(p, a)[n].0 !in After(p, a, n)
    ensures |After(p, a, n)| == n
  {
    var objects := Objects(p, a);
    ObjectKeysDistinct(p, a);
    ToStoreSize(p, objects[..n]);
    ToStoreKeys(p, objects[..n]);
  }

  lemma ResumableIsPrefix(p: Protocol, a: Attempt, store: Store)
    requires Closed(p, store) && Resumable(store, a)
    ensures |store| <= 1 && store == After(p, a, |store|)
  {
    assert After(p, a, 0) == map[];
    AfterStep(p, a, 0);
    if store != map[] {
      assert store == map[TASK_INPUT := store[TASK_INPUT]];
    }
  }

  lemma DocumentSupported(p: Protocol, store: Store, source: string, key: Key, body: Body)
    requires ForTask(p, source) && body.Document? && Allowed(source, key, body) && Needs(source, key) <= store.Keys
    requires forall e | e in body.artifacts :: Present(p, store, e.ref)
    requires forall r | r in body.results :: Present(p, store, r)
    ensures Supported(p, store, key, body)
  {
  }

  /**
   * Uploads object number `n` of the list the attempt is working through. Alone on the prefix,
   * the first `done` objects of the list are in place afterwards; likewise in what follows.
   */
  method Publish(store: R2Store, key: Key, body: Body, ghost objects: seq<(Key, Body)>, ghost n: nat)
    returns (r: Result<Ref, TaskError>, ghost done: nat)
    requires store.Valid() && Supported(store.p, store.sys.store, key, body)
    requires n < |objects| && objects[n] == (key, body) && DistinctKeys(objects)
    modifies store
    ensures store.Valid() && Grows(old(store.sys.store), store.sys.store)
    ensures r.Success? ==> r.value == RefTo(store.p, key, body) && Present(store.p, store.sys.store, r.value)
    ensures n <= done <= n + 1 && (r.Success? ==> done == n + 1)
    ensures old(store.Alone() && store.sys.store == ToStore(store.p, objects[..n])) ==>
              store.Alone() && store.sys.store == ToStore(store.p, objects[..done])
    ensures old(store.Alone() && store.Reliable() && store.sys.store == ToStore(store.p, objects[..n])) ==>
              store.Reliable() && (r.Success? <==> body.Blob? ==> store.p.size(body) <= MAX_SINGLE_PUT_BYTES)
  {
    assert objects[..n + 1][..n] == objects[..n];
    ToStoreKeys(store.p, objects[..n]);
    var uploaded := store.UploadImmutable(key, body);
    r := if uploaded.Failure? then Failure(Store(uploaded.error)) else Success(uploaded.value.ref);
    done := if r.Success? || store.sys.store == ToStore(store.p, objects[..n + 1]) then n + 1 else n;
  }

  /** Would the attempt's two files pass the single-part limit? */
  predicate Fits(p: Protocol, a: Attempt) {
    && a.parsed.Some?
    && p.size(Blob(a.parsed.value.pages)) <= MAX_SINGLE_PUT_BYTES
    && p.size(Blob(a.parsed.value.links)) <= MAX_SINGLE_PUT_BYTES
  }

  /** The two Parquet files of a completed parse. */
  function Files(p: Protocol, a: Attempt): seq<Entry>
    requires a.parsed.Some?
  {
    [Entry(Pages, RefTo(p, Artifact(Pages, a.id.sourceKey), Blob(a.parsed.value.pages))),
     Entry(Links, RefTo(p, Artifact(Links, a.id.sourceKey), Blob(a.parsed.value.links)))]
  }

  /** The artifact list of a completed parse. */
  function Artifacts(p: Protocol, a: Attempt): seq<Entry>
    requires a.parsed.Some?
  {
    Files(p, a) + [Entry(Metrics, RefTo(p, Artifact(Metrics, a.id.sourceKey), MetricsBody(a, a.parsed.value, Files(p, a))))]
  }

  lemma FileSupported(p: Protocol, store: Store, source: string, dataset: Dataset, content: seq<int>)
    requires ForTask(p, source) && TASK_INPUT in store && dataset != Metrics
    ensures Supported(p, store, Artifact(dataset, source), Blob(content))
  {
    assert p.allowed(Artifact(dataset, source), Blob(content)) <==> Allowed(source, Artifact(dataset, source), Blob(content));
  }

  /** The two Parquet files. */
  method PublishFiles(store: R2Store, a: Attempt, ghost objects: seq<(Key, Body)>)
    returns (r: Result<seq<Entry>, TaskError>, ghost done: nat)
    requires store.Valid() && ForTask(store.p, a.id.sourceKey)
    requires a.parsed.Some? && TASK_INPUT in store.sys.store
    requires 3 <= |objects| && DistinctKeys(objects)
    requires objects[1] == (Artifact(Pages, a.id.sourceKey), Blob(a.parsed.value.pages))
    requires objects[2] == (Artifact(Links, a.id.sourceKey), Blob(a.parsed.value.links))
    modifies store
    ensures store.Valid() && Grows(old(store.sys.store), store.sys.store)
    ensures r.Success? ==>
              && r.value == Files(store.p, a)
              && Present(store.p, store.sys.store, r.value[0].ref) && Present(store.p, store.sys.store, r.value[1].ref)
    ensures 1 <= done <= 3 && (r.Success? ==> done == 3)
    ensures old(store.Alone() && store.sys.store == ToStore(store.p, objects[..1])) ==>
              && store.Alone() && store.sys.store == ToStore(store.p, objects[..done])
              && (old(store.Reliable()) ==> store.Reliable() && (r.Success? <==> Fits(store.p, a)))
  {
    var source, parsed := a.id.sourceKey, a.parsed.value;
    FileSupported(store.p, store.sys.store, source, Pages, parsed.pages);
    var pages, links;
    pages, done :- Publish(store, Artifact(Pages, source), Blob(parsed.pages), objects, 1);
    FileSupported(store.p, store.sys.store, source, Links, parsed.links);
    links, done :- Publish(store, Artifact(Links, source), Blob(parsed.links), objects, 2);
    r := Success([Entry(Pages, pages), Entry(Links, links)]);
  }

  lemma ArtifactsPresent(p: Protocol, store: Store, a: Attempt)
    requires a.parsed.Some?
    requires Present(p, store, Files(p, a)[0].ref) && Present(p, store, Files(p, a)[1].ref)
    requires Present(p, store, RefTo(p, Artifact(Metrics, a.id.sourceKey), MetricsBody(a, a.parsed.value, Files(p, a))))
    ensures forall e | e in Artifacts(p, a) :: Present(p, store, e.ref)
  {
  }

  lemma MetricsSupported(p: Protocol, store: Store, a: Attempt)
    requires a.parsed.Some? && ForTask(p, a.id.sourceKey) && TASK_INPUT in store
    requires Present(p, store, Files(p, a)[0].ref) && Present(p, store, Files(p, a)[1].ref)
    ensures Supported(p, store, Artifact(Metrics, a.id.sourceKey), MetricsBody(a, a.parsed.value, Files(p, a)))
  {
    DocumentSupported(p, store, a.id.sourceKey, Artifact(Metrics, a.id.sourceKey), MetricsBody(a, a.parsed.value, Files(p, a)));
  }

  /** Pages, Links and Metrics, each verified again once all three are up. */
  method PublishArtifacts(store: R2Store, a: Attempt, ghost objects: seq<(Key, Body)>)
    returns (r: Result<seq<Entry>, TaskError>, ghost done: nat)
    requires store.Valid() && ForTask(store.p, a.id.sourceKey)
    requires a.parsed.Some? && TASK_INPUT in store.sys.store
    requires 4 <= |objects| && DistinctKeys(objects)
    requires objects[1] == (Artifact(Pages, a.id.sourceKey), Blob(a.parsed.value.pages))
    requires objects[2] == (Artifact(Links, a.id.sourceKey), Blob(a.parsed.value.links))
    requires objects[3] == (Artifact(Metrics, a.id.sourceKey), MetricsBody(a, a.parsed.value, Files(store.p, a)))
    modifies store
    ensures store.Valid() && Grows(old(store.sys.store), store.sys.store)
    ensures r.Success? ==>
              && r.value == Artifacts(store.p, a)
              && forall e | e in r.value :: Present(store.p, store.sys.store, e.ref)
    ensures 1 <= done <= 4 && (r.Success? ==> done == 4)
    ensures old(store.Alone() && store.sys.store == ToStore(store.p, objects[..1])) ==>
              && store.Alone() && store.sys.store == ToStore(store.p, objects[..done])
              && (old(store.Reliable()) ==> store.Reliable() && (r.Success? <==> Fits(store.p, a)))
  {
    var source, parsed := a.id.sourceKey, a.parsed.value;
    var files, metrics;
    files, done :- PublishFiles(store, a, objects);
    MetricsSupported(store.p, store.sys.store, a);
    metrics, done :- Publish(store, Artifact(Metrics, source), MetricsBody(a, parsed, files), objects, 3);
    ArtifactsPresent(store.p, store.sys.store, a);
    r := VerifyAgain(store, files + [Entry(Metrics, metrics)]);
  }

  /** The runner's second look at what it has just uploaded. */
  method VerifyAgain(store: R2Store, artifacts: seq<Entry>) returns (r: Result<seq<Entry>, TaskError>)
    requires store.Valid()
    requires forall e | e in artifacts :: Present(store.p, store.sys.store, e.ref)
    modifies store`sys, store`script
    ensures store.Valid() && Grows(old(store.sys.store), store.sys.store)
    ensures r.Success? ==> r.value == artifacts && forall e | e in artifacts :: Present(store.p, store.sys.store, e.ref)
    ensures old(store.Alone()) ==> store.Alone() && store.sys == old(store.sys)
    ensures old(store.Reliable()) ==> store.Reliable() && r.Success?
  {
    for i := 0 to |artifacts|
      invariant store.Valid() && Grows(old(store.sys.store), store.sys.store)
      invariant forall e | e in artifacts :: Present(store.p, store.sys.store, e.ref)
      invariant old(store.Alone()) ==> store.Alone() && store.sys == old(store.sys)
      invariant old(store.Reliable()) ==> store.Reliable()
    {
      var ref := artifacts[i].ref;
      assert artifacts[i] in artifacts;
      var verified := store.Verify(ref.key, ref.bytes, ref.sha);
      if verified.Failure? {
        return Failure(Store(verified.error));
      }
      if !verified.value {
        return Failure(MissingOutput);
      }
    }
    r := Success(artifacts);
  }

  /** The three control documents may be written once what they list is in place. */
  lemma ControlSupported(p: Protocol, store: Store, a: Attempt, key: Key, body: Body)
    requires a.parsed.Some? && ForTask(p, a.id.sourceKey) && key in {WatMarker(a.id.sourceKey), TASK_SUMMARY, TASK_COMPLETED}
    requires body.Document? && body.artifacts == Artifacts(p, a) && AllInPlace(p, store, a, body.artifacts)
    requires forall r | r in body.results :: Present(p, store, r)
    requires (key != WatMarker(a.id.sourceKey) ==> WatMarker(a.id.sourceKey) in store)
    requires key == TASK_COMPLETED ==> |body.results| == 1 && body.results[0].key == TASK_SUMMARY
    ensures Supported(p, store, key, body)
  {
    var artifacts := body.artifacts;
    assert artifacts[0] in artifacts && artifacts[1] in artifacts && artifacts[2] in artifacts;
    if key == TASK_COMPLETED {
      assert body.results[0] in body.results;
    }
    DocumentSupported(p, store, a.id.sourceKey, key, body);
  }

  /** The last three places of the list hold the control documents of these artifacts. */
  ghost predicate ControlObjects(p: Protocol, a: Attempt, artifacts: seq<Entry>, objects: seq<(Key, Body)>) {
    && a.parsed.Some? && artifacts == Artifacts(p, a)
    && 7 <= |objects| && DistinctKeys(objects)
    && objects[4] == (WatMarker(a.id.sourceKey), WatBody(a, a.parsed.value, artifacts))
    && objects[5] == (TASK_SUMMARY, SummaryBody(a, a.parsed.value, artifacts, RefTo(p, TASK_INPUT, InputBody(a))))
    && objects[6] == (TASK_COMPLETED, CompletionBody(a, a.parsed.value, artifacts, RefTo(p, TASK_SUMMARY, objects[5].1)))
  }

  /** The input manifest and the three artifacts are there as recorded. */
  predicate AllInPlace(p: Protocol, store: Store, a: Attempt, artifacts: seq<Entry>) {
    Present(p, store, RefTo(p, TASK_INPUT, InputBody(a))) && forall e | e in artifacts :: Present(p, store, e.ref)
  }

  lemma InPlaceGrows(p: Protocol, store: Store, later: Store, a: Attempt, artifacts: seq<Entry>)
    requires AllInPlace(p, store, a, artifacts) && Grows(store, later)
    ensures AllInPlace(p, later, a, artifacts)
  {
  }

  /** The WAT marker, the summary, and last of all the completion marker. */
  method PublishControl(store: R2Store, a: Attempt, artifacts: seq<Entry>, ghost objects: seq<(Key, Body)>)
    returns (r: Result<Report, TaskError>, ghost done: nat)
    requires store.Valid() && ForTask(store.p, a.id.sourceKey)
    requires ControlObjects(store.p, a, artifacts, objects) && AllInPlace(store.p, store.sys.store, a, artifacts)
    modifies store
    ensures store.Valid() && Grows(old(store.sys.store), store.sys.store)
    ensures r.Success? ==>
              r.value == Report(false, objects[6].1) && Present(store.p, store.sys.store, RefTo(store.p, TASK_COMPLETED, objects[6].1))
    ensures 4 <= done <= 7 && (r.Success? ==> done == 7)
    ensures old(store.Alone() && store.sys.store == ToStore(store.p, objects[..4])) ==>
              && store.Alone() && store.sys.store == ToStore(store.p, objects[..done])
              && (old(store.Reliable()) ==> r.Success?)
  {
    var body := WatBody(a, a.parsed.value, artifacts);
    ghost var before := store.sys.store;
    ControlSupported(store.p, before, a, WatMarker(a.id.sourceKey), body);
    var marker;
    marker, done :- Publish(store, WatMarker(a.id.sourceKey), body, objects, 4);
    InPlaceGrows(store.p, before, store.sys.store, a, artifacts);
    r, done := PublishMarker(store, a, artifacts, objects);
  }

  /** The last two uploads of `run_task`. */
  method PublishMarker(store: R2Store, a: Attempt, artifacts: seq<Entry>, ghost objects: seq<(Key, Body)>)
    returns (r: Result<Report, TaskError>, ghost done: nat)
    requires store.Valid() && ForTask(store.p, a.id.sourceKey)
    requires ControlObjects(store.p, a, artifacts, objects) && AllInPlace(store.p, store.sys.store, a, artifacts)
    requires WatMarker(a.id.sourceKey) in store.sys.store
    modifies store
    ensures store.Valid() && Grows(old(store.sys.store), store.sys.store)
    ensures r.Success? ==>
              r.value == Report(false, objects[6].1) && Present(store.p, store.sys.store, RefTo(store.p, TASK_COMPLETED, objects[6].1))
    ensures 5 <= done <= 7 && (r.Success? ==> done == 7)
    ensures old(store.Alone() && store.sys.store == ToStore(store.p, objects[..5])) ==>
              && store.Alone() && store.sys.store == ToStore(store.p, objects[..done])
              && (old(store.Reliable()) ==> r.Success?)
  {
    ghost var before := store.sys.store;
    var summary;
    summary, done :- PublishSummary(store, a, artifacts, objects);
    InPlaceGrows(store.p, before, store.sys.store, a, artifacts);
    r, done := PublishCompletion(store, a, artifacts, summary, objects);
  }

  method PublishSummary(store: R2Store, a: Attempt, artifacts: seq<Entry>, ghost objects: seq<(Key, Body)>)
    returns (r: Result<Ref, TaskError>, ghost done: nat)
    requires store.Valid() && ForTask(store.p, a.id.sourceKey)
    requires ControlObjects(store.p, a, artifacts, objects) && AllInPlace(store.p, store.sys.store, a, artifacts)
    requires WatMarker(a.id.sourceKey) in store.sys.store
    modifies store
    ensures store.Valid() && Grows(old(store.sys.store), store.sys.store)
    ensures r.Success? ==> r.value == RefTo(store.p, TASK_SUMMARY, objects[5].1) && Present(store.p, store.sys.store, r.value)
    ensures 5 <= done <= 6 && (r.Success? ==> done == 6)
    ensures old(store.Alone() && store.sys.store == ToStore(store.p, objects[..5])) ==>
              && store.Alone() && store.sys.store == ToStore(store.p, objects[..done])
              && (old(store.Reliable()) ==> store.Reliable() && r.Success?)
  {
    var body := SummaryBody(a, a.parsed.value, artifacts, RefTo(store.p, TASK_INPUT, InputBody(a)));
    ControlSupported(store.p, store.sys.store, a, TASK_SUMMARY, body);
    r, done := Publish(store, TASK_SUMMARY, body, objects, 5);
  }

  method PublishCompletion(store: R2Store, a: Attempt, artifacts: seq<Entry>, summary: Ref, ghost objects: seq<(Key, Body)>)
    returns (r: Result<Report, TaskError>, ghost done: nat)
    requires store.Valid() && ForTask(store.p, a.id.sourceKey)
    requires ControlObjects(store.p, a, artifacts, objects) && AllInPlace(store.p, store.sys.store, a, artifacts)
    requires WatMarker(a.id.sourceKey) in store.sys.store
    requires summary == RefTo(store.p, TASK_SUMMARY, objects[5].1) && Present(store.p, store.sys.store, summary)
    modifies store
    ensures store.Valid() && Grows(old(store.sys.store), store.sys.store)
    ensures r.Success? ==>
              r.value == Report(false, objects[6].1) && Present(store.p, store.sys.store, RefTo(store.p, TASK_COMPLETED, objects[6].1))
    ensures 6 <= done <= 7 && (r.Success? ==> done == 7)
    ensures old(store.Alone() && store.sys.store == ToStore(store.p, objects[..6])) ==>
              && store.Alone() && store.sys.store == ToStore(store.p, objects[..done])
              && (old(store.Reliable()) ==> r.Success?)
  {
    var completion := CompletionBody(a, a.parsed.value, artifacts, summary);
    ControlSupported(store.p, store.sys.store, a, TASK_COMPLETED, completion);
    var marker;
    marker, done :- Publish(store, TASK_COMPLETED, completion, objects, 6);
    r := Success(Report(false, completion));
  }

  /** What each place of the list holds, in the terms the uploads use. */
  lemma ObjectsAre(p: Protocol, a: Attempt)
    requires a.parsed.Some?
    ensures var o, source := Objects(p, a), a.id.sourceKey;
            && o[0] == (TASK_INPUT, InputBody(a))
            && o[1] == (Artifact(Pages, source), Blob(a.parsed.value.pages))
            && o[2] == (Artifact(Links, source), Blob(a.parsed.value.links))
            && o[3] == (Artifact(Metrics, source), MetricsBody(a, a.parsed.value, Files(p, a)))
            && o[4] == (WatMarker(source), WatBody(a, a.parsed.value, Artifacts(p, a)))
            && o[5] == (TASK_SUMMARY, SummaryBody(a, a.parsed.value, Artifacts(p, a), RefTo(p, TASK_INPUT, InputBody(a))))
            && o[6] == (TASK_COMPLETED, CompletionBody(a, a.parsed.value, Artifacts(p, a), RefTo(p, TASK_SUMMARY, o[5].1)))
    ensures DistinctKeys(Objects(p, a))
  {
    ObjectKeysDistinct(p, a);
  }

  lemma FixedHasIdentity(a: Attempt, more: map<string, Scalar>, artifacts: seq<Entry>, results: seq<Ref>)
    ensures Names(Document(more + Fixed(a), artifacts, results), a.id)
  {
  }

  /** From the prepared prefix to the completion marker. */
  method Work(store: R2Store, a: Attempt) returns (r: Result<Report, TaskError>, ghost done: nat)
    requires store.Valid() && ForTask(store.p, a.id.sourceKey)
    requires Present(store.p, store.sys.store, RefTo(store.p, TASK_INPUT, InputBody(a)))
    modifies store
    ensures store.Valid() && Grows(old(store.sys.store), store.sys.store)
    ensures r.Success? ==>
              && !r.value.reused && Names(r.value.completion, a.id)
              && a.parsed.Some? && r.value.completion == Objects(store.p, a)[6].1
              && Present(store.p, store.sys.store, RefTo(store.p, TASK_COMPLETED, r.value.completion))
    ensures 1 <= done <= |Objects(store.p, a)| && (r.Success? ==> done == 7)
    ensures old(store.Alone() && store.sys.store == After(store.p, a, 1)) ==>
              && store.Alone() && store.sys.store == After(store.p, a, done)
              && (old(store.Reliable()) ==> (r.Success? <==> Fits(store.p, a)))
  {
    ghost var objects := Objects(store.p, a);
    done := 1;
    if a.parsed.None? {
      return Failure(SourceFailed), done;
    }
    ObjectsAre(store.p, a);
    var artifacts;
    artifacts, done :- PublishArtifacts(store, a, objects);
    r, done := PublishControl(store, a, artifacts, objects);
    FixedHasIdentity(a, a.parsed.value.summary, artifacts, [RefTo(store.p, TASK_SUMMARY, objects[5].1)]);
  }

  /** The part of `run_task` that is reached when no completion marker was found. */
  method RunFresh(store: R2Store, a: Attempt) returns (r: Result<Report, TaskError>)
    requires store.Valid() && ForTask(store.p, a.id.sourceKey)
    modifies store
    ensures store.Valid() && Grows(old(store.sys.store), store.sys.store)
    ensures r.Success? ==>
              && !r.value.reused && Names(r.value.completion, a.id)
              && a.parsed.Some? && r.value.completion == Objects(store.p, a)[6].1
              && Present(store.p, store.sys.store, RefTo(store.p, TASK_COMPLETED, r.value.completion))
    ensures old(store.Alone() && TASK_COMPLETED !in store.sys.store) ==>
              Sequential(store.p, a, old(store.sys.store), store.sys.store, r.Success?)
    ensures old(store.Alone() && store.Reliable() && TASK_COMPLETED !in store.sys.store) ==>
              (r.Success? <==> Resumable(old(store.sys.store), a) && Fits(store.p, a))
  {
    ghost var before, alone := store.sys.store, store.Alone();
    ResumeFacts(store.p, a, before);
    var input := PrepareTaskInput(store, InputBody(a));
    if input.Failure? {
      if alone && Resumable(before, a) {
        PrefixIsSequential(store.p, a, before, store.sys.store, false, if store.sys.store == before then |before| else 1);
      }
      return Failure(input.error);
    }
    ghost var done;
    r, done := Work(store, a);
    if alone && Resumable(before, a) {
      PrefixIsSequential(store.p, a, before, store.sys.store, r.Success?, done);
    }
  }

  lemma PrefixIsSequential(p: Protocol, a: Attempt, before: Store, after: Store, completed: bool, n: nat)
    requires Resumable(before, a) && |before| <= n <= |Objects(p, a)| && after == After(p, a, n) && (completed ==> n == 7)
    ensures Sequential(p, a, before, after, completed)
  {
    assert TASK_COMPLETED !in before;
  }

  /** `run_task`, from the completion check to the completion marker. */
  method RunTask(store: R2Store, a: Attempt) returns (r: Result<Report, TaskError>)
    requires store.Valid() && ForTask(store.p, a.id.sourceKey)
    modifies store
    ensures store.Valid() && Grows(old(store.sys.store), store.sys.store)
    ensures r.Success? ==>
              && Names(r.value.completion, a.id)
              && (!r.value.reused ==> a.parsed.Some? && r.value.completion == Objects(store.p, a)[6].1)
              && Present(store.p, store.sys.store, RefTo(store.p, TASK_COMPLETED, r.value.completion))
    ensures old(TASK_COMPLETED in store.sys.store) ==>
              var marker := old(store.sys.store)[TASK_COMPLETED].body;
              && store.wrote == old(store.wrote)
              && (r.Success? ==> r.value.reused)
              && (old(store.Reliable()) ==>
                    r == if Names(marker, a.id) then Success(Report(true, marker)) else Failure(IdentityConflict))
    ensures old(store.Alone()) ==> Sequential(store.p, a, old(store.sys.store), store.sys.store, r.Success?)
    ensures old(store.Alone() && store.Reliable() && TASK_COMPLETED !in store.sys.store) ==>
              (r.Success? <==> Resumable(old(store.sys.store), a) && Fits(store.p, a))
  {
    ghost var before, alone := store.sys.store, store.Alone();
    var existing := VerifyExistingCompletion(store, a.id);
    if existing.Failure? {
      if alone && TASK_COMPLETED !in before && Resumable(before, a) {
        ResumeFacts(store.p, a, before);
        PrefixIsSequential(store.p, a, before, before, false, |before|);
      }
      return Failure(existing.error);
    }
    if existing.value.Some? {
      return Success(Report(true, existing.value.value));
    }
    r := RunFresh(store, a);
  }

  lemma ResumeFacts(p: Protocol, a: Attempt, store: Store)
    requires Closed(p, store)
    ensures Resumable(store, a) ==>
              && |store| <= 1 && store == After(p, a, |store|)
              && After(p, a, 1) == WithObject(p, map[], TASK_INPUT, InputBody(a))
  {
    assert After(p, a, 0) == map[];
    AfterStep(p, a, 0);
    if Resumable(store, a) {
      ResumableIsPrefix(p, a, store);
    }
  }

  // ---------------------------------------------------------------- histories of crashed and restarted runs

  /** One run of the container on the prefix: how it found it, how it left it. */
  datatype Ran = Ran(attempt: Attempt, after: Store, completed: bool)

  function Last(start: Store, runs: seq<Ran>): Store {
    if runs == [] then start else runs[|runs| - 1].after
  }

  /** The run at this place found what the one before it left, or the start. */
  ghost predicate RanAt(p: Protocol, start: Store, runs: seq<Ran>, i: nat)
    requires i < |runs|
  {
    Sequential(p, runs[i].attempt, if i == 0 then start else runs[i - 1].after, runs[i].after, runs[i].completed)
  }

  /** Runs one after the other, each killed or failing anywhere, none overlapping. */
  ghost predicate History(p: Protocol, start: Store, runs: seq<Ran>) {
    forall i: nat | i < |runs| :: RanAt(p, start, runs, i)
  }

  /** The runs before the last are a history, and the last one found what they left. */
  lemma LastRun(p: Protocol, start: Store, runs: seq<Ran>)
    requires History(p, start, runs) && runs != []
    ensures History(p, start, runs[..|runs| - 1]) && RanAt(p, start, runs, |runs| - 1)
    ensures Last(start, runs[..|runs| - 1]) == if |runs| == 1 then start else runs[|runs| - 2].after
  {
    var front := runs[..|runs| - 1];
    forall i: nat | i < |front|
      ensures RanAt(p, start, front, i)
    {
      assert RanAt(p, start, runs, i);
    }
  }

  /** No run mixes objects of two attempts: the prefix always holds the first objects of one of them. */
  lemma {:induction false} NoMixing(p: Protocol, runs: seq<Ran>)
    requires History(p, map[], runs) && Last(map[], runs) != map[]
    ensures exists k: nat :: k < |runs| && |Last(map[], runs)| <= |Objects(p, runs[k].attempt)|
                             && Last(map[], runs) == After(p, runs[k].attempt, |Last(map[], runs)|)
  {
    var n := |runs| - 1;
    LastRun(p, map[], runs);
    var before, after, a := Last(map[], runs[..n]), runs[n].after, runs[n].attempt;
    if after == before {
      NoMixing(p, runs[..n]);
      var k: nat :| k < n && |after| <= |Objects(p, runs[..n][k].attempt)| && after == After(p, runs[..n][k].attempt, |after|);
      assert runs[..n][k] == runs[k];
    } else {
      var m: nat :| m <= |Objects(p, a)| && after == After(p, a, m);
      NextIsNew(p, a, m);
    }
  }

  /** One run changes nothing on a finished prefix, nor on one that holds payload. */
  lemma RunKeeps(p: Protocol, a: Attempt, before: Store, after: Store, completed: bool)
    requires Sequential(p, a, before, after, completed)
    requires TASK_COMPLETED in before || |before| >= 2
    ensures after == before
    ensures TASK_COMPLETED !in before ==> !completed
  {
    if TASK_COMPLETED !in before {
      NotResumable(before, a);
    }
  }

  /** A prefix with payload but no marker: every later run fails and touches nothing. */
  lemma {:induction false} Quarantined(p: Protocol, start: Store, runs: seq<Ran>)
    requires History(p, start, runs)
    requires |start| >= 2 && TASK_COMPLETED !in start
    ensures forall run | run in runs :: run.after == start && !run.completed
    ensures Last(start, runs) == start
  {
    if runs != [] {
      var n := |runs| - 1;
      LastRun(p, start, runs);
      Quarantined(p, start, runs[..n]);
      RunKeeps(p, runs[n].attempt, start, runs[n].after, runs[n].completed);
      assert runs == runs[..n] + [runs[n]];
    }
  }

  lemma NotResumable(store: Store, a: Attempt)
    requires |store| >= 2
    ensures !Resumable(store, a)
  {
    assert |{TASK_INPUT}| == 1 && |store.Keys| >= 2;
  }

  /** Once the marker is there, no run changes the prefix. */
  lemma {:induction false} Finished(p: Protocol, start: Store, runs: seq<Ran>)
    requires History(p, start, runs) && TASK_COMPLETED in start
    ensures forall run | run in runs :: run.after == start
    ensures Last(start, runs) == start
  {
    if runs != [] {
      var n := |runs| - 1;
      LastRun(p, start, runs);
      Finished(p, start, runs[..n]);
      RunKeeps(p, runs[n].attempt, start, runs[n].after, runs[n].completed);
      assert runs == runs[..n] + [runs[n]];
    }
  }

  lemma MarkerIsSeventh(p: Protocol, a: Attempt, n: nat)
    requires n <= |Objects(p, a)|
    ensures TASK_COMPLETED in After(p, a, n) <==> n == 7
    ensures n >= 1 ==> TASK_INPUT in After(p, a, n) && After(p, a, n)[TASK_INPUT].body == InputBody(a)
    decreases n
  {
    if n > 0 {
      AfterStep(p, a, n - 1);
      MarkerIsSeventh(p, a, n - 1);
    }
  }

  /**
   * Whose marker it is: the marker of a parsed attempt names that attempt's run and no other, so
   * a rerun reports it as its own exactly when all five fields of its identity are the same.
   */
  lemma MarkerNamesOneRun(p: Protocol, a: Attempt, id: Identity)
    requires a.parsed.Some?
    ensures Objects(p, a)[6].0 == TASK_COMPLETED && (Names(Objects(p, a)[6].1, id) <==> id == a.id)
  {
    ObjectsAre(p, a);
    FixedHasIdentity(a, a.parsed.value.summary, Artifacts(p, a), [RefTo(p, TASK_SUMMARY, Objects(p, a)[5].1)]);
  }

  lemma ReleaseInInput(a: Attempt, b: Attempt)
    requires a.releaseSha256 != b.releaseSha256
    ensures InputBody(a) != InputBody(b)
  {
    assert InputBody(a).fields["release_sha256"] == Text(a.releaseSha256);
    assert InputBody(b).fields["release_sha256"] == Text(b.releaseSha256);
  }

  /**
   * The release digest is no part of the identity. A run of another release, equal in everything
   * else, that finds a prefix of this attempt can never go on from it; it finds itself named by a
   * marker there exactly when all seven objects are there, and that marker holds the release that
   * made them.
   */
  lemma OtherRelease(p: Protocol, a: Attempt, other: Attempt, n: nat)
    requires other == a.(releaseSha256 := other.releaseSha256) && other != a && 1 <= n <= |Objects(p, a)|
    ensures var store := After(p, a, n);
            && !Resumable(store, other)
            && (TASK_COMPLETED in store && Names(store[TASK_COMPLETED].body, other.id) <==> n == 7)
            && (n == 7 ==>
                  && store[TASK_COMPLETED].body == Objects(p, a)[6].1
                  && Objects(p, a)[6].1.fields["release_sha256"] == Text(a.releaseSha256) != Text(other.releaseSha256))
  {
    ReleaseInInput(a, other);
    MarkerIsSeventh(p, a, n);
    if n == 7 {
      AfterStep(p, a, 6);
      ObjectsAre(p, a);
      MarkerNamesOneRun(p, a, other.id);
    }
  }

  /**
   * Where a history that started from nothing can stand: empty; the input manifest alone,
   * from which a run with that very input still resumes; quarantined for ever; or complete
   * with all seven objects of one attempt.
   */
  lemma Fate(p: Protocol, runs: seq<Ran>, next: Attempt)
    requires History(p, map[], runs)
    ensures var now := Last(map[], runs);
            && |now| <= 7
            && (TASK_COMPLETED in now <==> |now| == 7)
            && (|now| >= 1 ==> TASK_INPUT in now)
            && (Resumable(now, next) <==> now == map[] || (|now| == 1 && now[TASK_INPUT].body == InputBody(next)))
  {
    var now := Last(map[], runs);
    if now != map[] {
      NoMixing(p, runs);
      var k: nat :| k < |runs| && |now| <= |Objects(p, runs[k].attempt)| && now == After(p, runs[k].attempt, |now|);
      MarkerIsSeventh(p, runs[k].attempt, |now|);
      if |now| == 1 {
        OnlyKey(now, TASK_INPUT);
      } else {
        NotResumable(now, next);
      }
    }
  }

  lemma OnlyKey(store: Store, key: Key)
    requires |store| == 1 && key in store
    ensures store.Keys == {key}
  {
    assert |store.Keys - {key}| == 0;
  }

  // ---------------------------------------------------------------- the completion marker under concurrency

  /**
   * Any number of guarded writers on one prefix, interleaved and crashing as they like: once the
   * marker exists, so do the six other objects, and the Pages, Links and Metrics objects and
   * the summary have the bytes and digest the marker records.
   */
  lemma MarkerLast(p: Protocol, source: string, writers: nat, steps: seq<Step>)
    requires ForTask(p, source) && TASK_COMPLETED in Run(p, Start(writers), steps).store
    ensures var store := Run(p, Start(writers), steps).store;
            var marker := store[TASK_COMPLETED].body;
            && {TASK_INPUT, WatMarker(source), TASK_SUMMARY, Artifact(Pages, source), Artifact(Links, source),
                Artifact(Metrics, source)} <= store.Keys
            && marker.Document? && |marker.artifacts| == 3 && |marker.results| == 1 && marker.results[0].key == TASK_SUMMARY
            && marker.artifacts[0].dataset == Pages && marker.artifacts[0].ref.key == Artifact(Pages, source)
            && marker.artifacts[1].dataset == Links && marker.artifacts[1].ref.key == Artifact(Links, source)
            && marker.artifacts[2].dataset == Metrics && marker.artifacts[2].ref.key == Artifact(Metrics, source)
            && (forall e | e in marker.artifacts ::
                  && Present(p, store, e.ref)
                  && p.size(store[e.ref.key].body) == e.ref.bytes && p.sha(store[e.ref.key].body) == e.ref.sha)
            && Present(p, store, marker.results[0])
            && p.sha(store[TASK_SUMMARY].body) == marker.results[0].sha
  {
    var s := Start(writers);
    PublishedIsComplete(p, writers, steps, TASK_COMPLETED);
    assert Inv(p, s);
    RunInv(p, s, steps);
    var marker := Run(p, s, steps).store[TASK_COMPLETED].body;
    assert marker.results[0] in Refs(marker);
    assert forall e | e in marker.artifacts :: e.ref in Refs(marker);
  }
}
