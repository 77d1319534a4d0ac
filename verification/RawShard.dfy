/**
One raw shard of the 25,000-input run: recover what earlier attempts published, process
the rest, publish each Pages/Links/Metrics triplet, and write the completion marker last.

Rivals and lost requests come from the store's script, so the plain contracts hold for
every interleaving; the contracts under `Alone` say exactly what one worker's attempt does.
*/
module RawShard {
  import opened Wrappers
  import opened Collections
  import opened Publication
  import opened ObjectStore

  const RUN_ID := "cc-main-2026-30-offset-10000-count-25000"
  const INPUT_MANIFEST := Control("input-manifest.json")
  const RUN_SUMMARY := Control("run-summary.json")
  const RAW_COMPLETED := Control("RAW-SHARD-COMPLETED.json")

  /** The verified assignment: `static_metadata` and the ordered, duplicate-free sources. */
  datatype Contract = Contract(metadata: map<string, Scalar>, inputs: seq<string>)

  datatype Parsed = Parsed(pages: seq<int>, links: seq<int>, report: map<string, Scalar>)

  /**
   * One attempt: what the parser produces for each source (a source without an entry makes
   * it raise), the clock readings that go into the summary, and those that go into the marker.
   */
  datatype Attempt = Attempt(
    release: string, parsed: map<string, Parsed>, timing: map<string, Scalar>, completedAt: string)

  datatype ShardError = Store(why: StoreError) | Foreign | Malformed | MissingArtifact | SourceFailed

  // ---------------------------------------------------------------- documents

  /** One Pages and one Links entry of `source`, in either order, under the deterministic keys. */
  predicate PairFor(source: string, x: Entry, y: Entry) {
    && x.dataset != Metrics && y.dataset != Metrics && x.dataset != y.dataset
    && x.ref.key == Artifact(x.dataset, source) && y.ref.key == Artifact(y.dataset, source)
  }

  predicate MetricsFor(source: string, body: Body) {
    && Says(body, "input", Text(source)) && Says(body, "run_id", Text(RUN_ID))
    && |body.artifacts| == 2 && PairFor(source, body.artifacts[0], body.artifacts[1])
  }

  function MetricsBody(p: Protocol, source: string, parsed: Parsed): Body {
    Document(
      parsed.report + map["input" := Text(source), "run_id" := Text(RUN_ID)],
      [Entry(Pages, RefTo(p, Artifact(Pages, source), Blob(parsed.pages))),
       Entry(Links, RefTo(p, Artifact(Links, source), Blob(parsed.links)))],
      [])
  }

  function Listed(body: Body): seq<Entry> {
    if body.Document? then body.artifacts else []
  }

  function Flatten(reports: seq<Body>): seq<Entry> {
    if reports == [] then [] else Flatten(reports[..|reports| - 1]) + Listed(reports[|reports| - 1])
  }

  datatype Uploads = Uploads(uploaded: nat, reused: nat)

  function SummaryBody(c: Contract, a: Attempt, recovered: nat, processed: nat, uploads: Uploads, reports: seq<Body>): Body {
    Document(
      a.timing + c.metadata
      + map["release_sha256" := Text(a.release), "files_remote_recovered" := Number(recovered),
            "files_processed_this_attempt" := Number(processed),
            "uploaded" := Number(uploads.uploaded), "reused" := Number(uploads.reused)],
      Flatten(reports), [])
  }

  function CompletionBody(c: Contract, a: Attempt, summary: Ref): Body {
    Document(c.metadata + map["completed_at" := Text(a.completedAt)], [], [summary])
  }

  function ManifestBody(c: Contract, a: Attempt): Body {
    Document(c.metadata + map["inputs" := Texts(c.inputs), "release_sha256" := Text(a.release)], [], [])
  }

  // ---------------------------------------------------------------- and what they say

  /** An input manifest of this assignment: its metadata, its ordered inputs, and the release at work. */
  predicate Assigns(body: Body, c: Contract, release: string) {
    && SaysMetadata(body, c.metadata, {"inputs", "release_sha256"})
    && Says(body, "inputs", Texts(c.inputs)) && Says(body, "release_sha256", Text(release))
  }

  /** A run summary with these counts: every processed source has three files, some of them reused. */
  predicate Summarises(body: Body, c: Contract, release: string, recovered: nat, processed: nat, reused: nat) {
    && SaysMetadata(body, c.metadata, {"release_sha256", "files_remote_recovered", "files_processed_this_attempt", "uploaded", "reused"})
    && Says(body, "release_sha256", Text(release))
    && Says(body, "files_remote_recovered", Number(recovered)) && Says(body, "files_processed_this_attempt", Number(processed))
    && Says(body, "uploaded", Number(3 * processed - reused)) && Says(body, "reused", Number(reused))
  }

  /** With some counts that add up to the inputs. */
  ghost predicate SummarisesAll(body: Body, c: Contract, release: string) {
    exists recovered: nat, processed: nat, reused: nat ::
      recovered + processed == |c.inputs| && Summarises(body, c, release, recovered, processed, reused)
  }

  /** A completion marker of this assignment, over this very summary. */
  predicate Completed(body: Body, c: Contract, completedAt: string, summary: Ref) {
    && SaysMetadata(body, c.metadata, {"completed_at"}) && Says(body, "completed_at", Text(completedAt))
    && body.Document? && body.results == [summary]
  }

  lemma ManifestSays(c: Contract, a: Attempt)
    ensures Assigns(ManifestBody(c, a), c, a.release)
  {
  }

  lemma SummarySays(c: Contract, a: Attempt, recovered: nat, processed: nat, uploads: Uploads, reports: seq<Body>)
    requires uploads.uploaded + uploads.reused == 3 * processed
    ensures Summarises(SummaryBody(c, a, recovered, processed, uploads, reports), c, a.release, recovered, processed, uploads.reused)
  {
  }

  lemma SummaryCounts(c: Contract, a: Attempt, recovered: nat, processed: nat, uploads: Uploads, reports: seq<Body>)
    requires uploads.uploaded + uploads.reused == 3 * processed && recovered + processed == |c.inputs|
    ensures SummarisesAll(SummaryBody(c, a, recovered, processed, uploads, reports), c, a.release)
  {
    SummarySays(c, a, recovered, processed, uploads, reports);
  }

  lemma MarkerSays(c: Contract, a: Attempt, summary: Ref)
    ensures Completed(CompletionBody(c, a, summary), c, a.completedAt, summary)
  {
  }

  /** A metrics object: the parser's report, the source and the run, and the two files as parsed. */
  lemma MetricsSay(p: Protocol, source: string, parsed: Parsed)
    ensures var body := MetricsBody(p, source, parsed);
            && Says(body, "input", Text(source)) && Says(body, "run_id", Text(RUN_ID))
            && (forall name | name in parsed.report && name !in {"input", "run_id"} :: Says(body, name, parsed.report[name]))
            && body.artifacts == [Entry(Pages, RefTo(p, Artifact(Pages, source), Blob(parsed.pages))),
                                  Entry(Links, RefTo(p, Artifact(Links, source), Blob(parsed.links)))]
            && MetricsFor(source, body)
  {
  }

  // ---------------------------------------------------------------- shapes

  predicate SummaryShape(inputs: seq<string>, body: Body) {
    && body.Document? && |body.artifacts| == 2 * |inputs|
    && forall i: nat | i < |inputs| :: PairFor(inputs[i], body.artifacts[2 * i], body.artifacts[2 * i + 1])
  }

  function Triplets(inputs: seq<string>): set<Key> {
    (set s | s in inputs :: Artifact(Pages, s)) + (set s | s in inputs :: Artifact(Links, s))
    + (set s | s in inputs :: Artifact(Metrics, s))
  }

  lemma TripletsHave(inputs: seq<string>, key: Key)
    ensures key in Triplets(inputs) <==> key.Artifact? && key.source in inputs
  {
    if key.Artifact? && key.source in inputs {
      match key.dataset
      case Pages => assert key == Artifact(Pages, key.source);
      case Links => assert key == Artifact(Links, key.source);
      case Metrics => assert key == Artifact(Metrics, key.source);
    }
  }

  function Needs(inputs: seq<string>, key: Key): set<Key> {
    if key == RAW_COMPLETED then {INPUT_MANIFEST, RUN_SUMMARY} + Triplets(inputs)
    else if key == RUN_SUMMARY then {INPUT_MANIFEST} + Triplets(inputs)
    else if key.Artifact? && key.dataset == Metrics then
      {INPUT_MANIFEST, Artifact(Pages, key.source), Artifact(Links, key.source)}
    else if key == INPUT_MANIFEST then {}
    else {INPUT_MANIFEST}
  }

  predicate Allowed(inputs: seq<string>, key: Key, body: Body) {
    && (key.Control? ==> body.Document?)
    && (key.Artifact? ==> (key.dataset == Metrics <==> body.Document?))
    && (key.Artifact? && key.dataset == Metrics ==> MetricsFor(key.source, body))
    && (key == RUN_SUMMARY ==> SummaryShape(inputs, body))
    && (key == RAW_COMPLETED ==> |body.results| == 1 && body.results[0].key == RUN_SUMMARY)
  }

  ghost predicate ForShard(p: Protocol, inputs: seq<string>) {
    && (forall key :: p.needs(key) == Needs(inputs, key))
    && (forall key, body :: p.allowed(key, body) <==> Allowed(inputs, key, body))
  }

  predicate Distinct(inputs: seq<string>) {
    inputs != [] ==>
      var n := |inputs| - 1;
      inputs[n] !in inputs[..n] && Distinct(inputs[..n])
  }

  lemma {:induction false} DistinctAt(inputs: seq<string>, i: nat)
    requires Distinct(inputs) && i < |inputs|
    ensures inputs[i] !in inputs[..i]
  {
    var n := |inputs| - 1;
    if i < n {
      DistinctAt(inputs[..n], i);
      assert inputs[..n][..i] == inputs[..i];
    }
  }

  // ---------------------------------------------------------------- recovery

  /** The source's metrics are in the store and vouch for a Pages and a Links object that are there. */
  ghost predicate Recovered(p: Protocol, store: Store, source: string, body: Body) {
    && Artifact(Metrics, source) in store
    && MetricsFor(source, body)
    && forall e | e in body.artifacts :: Present(p, store, e.ref)
  }

  predicate HasText(body: Body, name: string, value: string) {
    body.Document? && name in body.fields && body.fields[name] == Text(value)
  }

  /** One entry of a metrics object: Pages or Links, not seen before, under its own key, and in place as recorded. */
  method CheckEntry(store: R2Store, source: string, entry: Entry, seen: set<Dataset>) returns (r: Outcome<ShardError>)
    requires store.Valid() && Present(store.p, store.sys.store, entry.ref)
    modifies store`sys, store`script
    ensures store.Valid() && Grows(old(store.sys.store), store.sys.store)
    ensures r.Pass? ==> InOrder(source, entry) && entry.dataset !in seen
    ensures r.Fail? ==> r.error == Store(Unavailable) || !InOrder(source, entry) || entry.dataset in seen
    ensures old(store.Alone()) ==> store.Alone() && store.sys == old(store.sys)
    ensures old(store.Reliable()) ==> store.Reliable() && r != Fail(Store(Unavailable))
  {
    if entry.dataset == Metrics || entry.dataset in seen {
      return Fail(Malformed);
    }
    if entry.ref.key != Artifact(entry.dataset, source) {
      return Fail(Malformed);
    }
    var verified := store.Verify(entry.ref.key, entry.ref.bytes, entry.ref.sha);
    if verified.Failure? {
      return Fail(Store(verified.error));
    }
    if !verified.value {
      return Fail(MissingArtifact);
    }
    r := Pass;
  }

  /**
   * `_read_completed_metric`. A metrics object that belongs elsewhere or lists anything but
   * its own Pages and Links is an error; one that is in order has both objects behind it.
   */
  method ReadCompletedMetric(store: R2Store, source: string) returns (r: Result<Option<Body>, ShardError>)
    requires store.Valid()
    modifies store`sys, store`script
    ensures store.Valid() && Grows(old(store.sys.store), store.sys.store)
    ensures r.Success? && r.value.None? ==> Artifact(Metrics, source) !in store.sys.store
    ensures r.Success? && r.value.Some? ==>
              && Recovered(store.p, store.sys.store, source, r.value.value)
              && r.value.value == store.sys.store[Artifact(Metrics, source)].body
    ensures r.Failure? ==>
              r.error == Store(Unavailable)
              || (Artifact(Metrics, source) in store.sys.store
                  && !MetricsFor(source, store.sys.store[Artifact(Metrics, source)].body))
    ensures old(store.Alone()) ==> store.Alone() && store.sys == old(store.sys)
    ensures old(store.Reliable()) ==> store.Reliable() && r != Failure(Store(Unavailable))
  {
    var key := Artifact(Metrics, source);
    var read := store.ReadJson(key);
    if read.Failure? {
      return Failure(Store(read.error));
    }
    if read.value.None? {
      return Success(None);
    }
    var report := read.value.value;
    if !HasText(report, "input", source) || !HasText(report, "run_id", RUN_ID) {
      return Failure(Foreign);
    }
    if |report.artifacts| != 2 {
      return Failure(Malformed);
    }
    var seen: set<Dataset> := {};
    for i := 0 to 2
      invariant store.Valid() && Grows(old(store.sys.store), store.sys.store)
      invariant key in store.sys.store && store.sys.store[key].body == report
      invariant i == 0 ==> seen == {}
      invariant i == 1 ==> seen == {report.artifacts[0].dataset} && InOrder(source, report.artifacts[0])
      invariant i == 2 ==> PairFor(source, report.artifacts[0], report.artifacts[1])
      invariant old(store.Alone()) ==> store.Alone() && store.sys == old(store.sys)
      invariant old(store.Reliable()) ==> store.Reliable()
    {
      StoredRefs(store.p, store.sys.store, key);
      assert report.artifacts[i] in report.artifacts;
      :- CheckEntry(store, source, report.artifacts[i], seen);
      seen := seen + {report.artifacts[i].dataset};
    }
    StoredRefs(store.p, store.sys.store, key);
    r := Success(Some(report));
  }

  predicate InOrder(source: string, entry: Entry) {
    entry.dataset != Metrics && entry.ref.key == Artifact(entry.dataset, source)
  }

  lemma StoredRefs(p: Protocol, store: Store, key: Key)
    requires Closed(p, store) && key in store && store[key].body.Document?
    ensures forall e | e in store[key].body.artifacts :: Present(p, store, e.ref)
  {
    var body := store[key].body;
    assert Supported(p, store, key, body);
    assert forall e | e in body.artifacts :: e.ref in Refs(body);
  }

  function ToSet(sources: seq<string>): set<string> {
    set s | s in sources
  }

  /** The sources outside `taken`, in order. */
  function Without(sources: seq<string>, taken: set<string>): (r: seq<string>)
    ensures |r| <= |sources|
  {
    if sources == [] then []
    else
      var last := sources[|sources| - 1];
      Without(sources[..|sources| - 1], taken) + if last in taken then [] else [last]
  }

  /** The inputs that have a metrics object. */
  function Published(store: Store, inputs: seq<string>): set<string> {
    set s | s in inputs && Artifact(Metrics, s) in store
  }

  /** The inputs without one, in order. */
  function Pending(store: Store, inputs: seq<string>): seq<string> {
    Without(inputs, Published(store, inputs))
  }

  lemma {:induction false} WithoutHas(sources: seq<string>, taken: set<string>, source: string)
    ensures source in Without(sources, taken) <==> source in sources && source !in taken
  {
    if sources != [] {
      WithoutHas(sources[..|sources| - 1], taken, source);
    }
  }

  lemma {:induction false} WithoutAll(sources: seq<string>, taken: set<string>)
    requires ToSet(sources) <= taken
    ensures Without(sources, taken) == []
  {
    if sources != [] {
      WithoutAll(sources[..|sources| - 1], taken);
    }
  }

  lemma {:induction false} WithoutStep(sources: seq<string>, taken: set<string>, source: string)
    requires source !in sources
    ensures Without(sources, taken + {source}) == Without(sources, taken)
    ensures Without(sources + [source], taken + {source}) == Without(sources, taken)
    ensures source !in taken ==> Without(sources + [source], taken) == Without(sources, taken) + [source]
  {
    if sources != [] {
      WithoutStep(sources[..|sources| - 1], taken, source);
    }
    assert (sources + [source])[..|sources|] == sources;
  }

  lemma {:induction false} WithoutDistinct(sources: seq<string>, taken: set<string>)
    requires Distinct(sources)
    ensures Distinct(Without(sources, taken))
  {
    if sources != [] {
      var n := |sources| - 1;
      WithoutDistinct(sources[..n], taken);
      WithoutHas(sources[..n], taken, sources[n]);
      var rest := Without(sources[..n], taken);
      if sources[n] in taken {
        assert Without(sources, taken) == rest;
      } else {
        assert Without(sources, taken) == rest + [sources[n]];
        assert (rest + [sources[n]])[..|rest|] == rest;
      }
    }
  }

  lemma {:induction false} WithoutCount(sources: seq<string>, taken: set<string>)
    requires Distinct(sources) && taken <= ToSet(sources)
    ensures |taken| + |Without(sources, taken)| == |sources|
  {
    if sources != [] {
      var n := |sources| - 1;
      var last := sources[n];
      var less := taken - {last};
      WithoutCount(sources[..n], less);
      WithoutStep(sources[..n], less, last);
      assert sources == sources[..n] + [last];
      assert taken == if last in taken then less + {last} else less;
    }
  }

  /** A split is exact: nothing lost, nothing twice, nothing on both sides. */
  lemma SplitExactly(sources: seq<string>, taken: set<string>)
    requires Distinct(sources) && taken <= ToSet(sources)
    ensures Distinct(Without(sources, taken))
    ensures |taken| + |Without(sources, taken)| == |sources|
    ensures taken !! ToSet(Without(sources, taken)) && taken + ToSet(Without(sources, taken)) == ToSet(sources)
  {
    WithoutDistinct(sources, taken);
    WithoutCount(sources, taken);
    forall s
      ensures s in Without(sources, taken) <==> s in sources && s !in taken
    {
      WithoutHas(sources, taken, s);
    }
  }

  /** Reports read from the store, each with its two files behind it. */
  ghost predicate AllRecovered(p: Protocol, store: Store, recovered: map<string, Body>) {
    forall s | s in recovered :: Recovered(p, store, s, recovered[s])
  }

  ghost predicate FromStore(store: Store, recovered: map<string, Body>) {
    forall s | s in recovered :: Artifact(Metrics, s) in store && recovered[s] == store[Artifact(Metrics, s)].body
  }

  lemma AllRecoveredGrows(p: Protocol, store: Store, later: Store, recovered: map<string, Body>)
    requires AllRecovered(p, store, recovered) && Grows(store, later)
    ensures AllRecovered(p, later, recovered)
    ensures FromStore(store, recovered) ==> FromStore(later, recovered)
  {
    forall s | s in recovered
      ensures Recovered(p, later, s, recovered[s])
    {
      assert Recovered(p, store, s, recovered[s]);
    }
  }

  /** On a shard's own prefix every metrics object is in order, so the recovery loop's refusals never fire. */
  lemma StoredMetrics(p: Protocol, store: Store, inputs: seq<string>, source: string)
    requires Closed(p, store) && ForShard(p, inputs) && Artifact(Metrics, source) in store
    ensures Recovered(p, store, source, store[Artifact(Metrics, source)].body)
  {
    var key := Artifact(Metrics, source);
    assert Supported(p, store, key, store[key].body);
    assert p.allowed(key, store[key].body) <==> Allowed(inputs, key, store[key].body);
    StoredRefs(p, store, key);
  }

  /** The state of the recovery loop; `before` is the store it started from if nobody else was writing. */
  ghost predicate Recovering(
    p: Protocol, before: Option<Store>, store: Store, done: seq<string>, recovered: map<string, Body>, pending: seq<string>)
  {
    && recovered.Keys <= ToSet(done) && pending == Without(done, recovered.Keys)
    && AllRecovered(p, store, recovered) && FromStore(store, recovered)
    && (before.Some? ==> store == before.value && recovered.Keys == Published(before.value, done))
  }

  lemma SplitStep(store: Store, done: seq<string>, source: string, found: bool)
    requires source !in done && (found <==> Artifact(Metrics, source) in store)
    ensures Published(store, done + [source]) == if found then Published(store, done) + {source} else Published(store, done)
    ensures ToSet(done + [source]) == ToSet(done) + {source}
  {
  }

  lemma RecoveredMore(p: Protocol, store: Store, recovered: map<string, Body>, source: string, found: Body)
    requires AllRecovered(p, store, recovered) && FromStore(store, recovered)
    requires Recovered(p, store, source, found) && found == store[Artifact(Metrics, source)].body
    ensures AllRecovered(p, store, recovered[source := found]) && FromStore(store, recovered[source := found])
  {
  }

  lemma PendingStep(
    p: Protocol, before: Option<Store>, store: Store, later: Store, done: seq<string>, recovered: map<string, Body>,
    pending: seq<string>, source: string)
    requires Recovering(p, before, store, done, recovered, pending) && source !in done
    requires Grows(store, later) && (before.Some? ==> later == store)
    requires Artifact(Metrics, source) !in later
    ensures Recovering(p, before, later, done + [source], recovered, pending + [source])
  {
    AllRecoveredGrows(p, store, later, recovered);
    SplitStep(later, done, source, false);
    WithoutStep(done, recovered.Keys, source);
  }

  lemma RecoveredStep(
    p: Protocol, before: Option<Store>, store: Store, later: Store, done: seq<string>, recovered: map<string, Body>,
    pending: seq<string>, source: string, found: Body)
    requires Recovering(p, before, store, done, recovered, pending) && source !in done
    requires Grows(store, later) && (before.Some? ==> later == store)
    requires Recovered(p, later, source, found) && found == later[Artifact(Metrics, source)].body
    ensures Recovering(p, before, later, done + [source], recovered[source := found], pending)
  {
    var more := recovered[source := found];
    AllRecoveredGrows(p, store, later, recovered);
    SplitStep(later, done, source, true);
    WithoutStep(done, recovered.Keys, source);
    assert more.Keys == recovered.Keys + {source};
    RecoveredMore(p, later, recovered, source, found);
  }

  /** One turn of the recovery loop. */
  method RecoverOne(store: R2Store, inputs: seq<string>, recovered: map<string, Body>, pending: seq<string>, source: string,
                    ghost before: Option<Store>, ghost done: seq<string>)
    returns (r: Result<(map<string, Body>, seq<string>), ShardError>)
    requires store.Valid() && ForShard(store.p, inputs) && source !in done && (before.Some? ==> store.Alone())
    requires Recovering(store.p, before, store.sys.store, done, recovered, pending)
    modifies store`sys, store`script
    ensures store.Valid() && Grows(old(store.sys.store), store.sys.store)
    ensures r.Success? ==> Recovering(store.p, before, store.sys.store, done + [source], r.value.0, r.value.1)
    ensures before.Some? ==> store.Alone() && store.sys == old(store.sys)
    ensures r.Failure? ==> r.error == Store(Unavailable)
    ensures old(store.Reliable()) ==> store.Reliable() && r.Success?
  {
    ghost var seen := store.sys.store;
    var read := ReadCompletedMetric(store, source);
    if read.Failure? {
      if Artifact(Metrics, source) in store.sys.store {
        StoredMetrics(store.p, store.sys.store, inputs, source);
      }
      return Failure(read.error);
    }
    var result := read.value;
    if result.None? {
      PendingStep(store.p, before, seen, store.sys.store, done, recovered, pending, source);
      return Success((recovered, pending + [source]));
    }
    RecoveredStep(store.p, before, seen, store.sys.store, done, recovered, pending, source, result.value);
    r := Success((recovered[source := result.value], pending));
  }

  /** The recovery loop of `run_shard`; `before` is the store if nobody else is writing. */
  method SplitInputs(store: R2Store, inputs: seq<string>, ghost before: Option<Store>)
    returns (r: Result<(map<string, Body>, seq<string>), ShardError>)
    requires store.Valid() && ForShard(store.p, inputs) && Distinct(inputs)
    requires before.Some? ==> store.Alone() && before.value == store.sys.store
    modifies store`sys, store`script
    ensures store.Valid() && Grows(old(store.sys.store), store.sys.store)
    ensures r.Success? ==> Recovering(store.p, before, store.sys.store, inputs, r.value.0, r.value.1)
    ensures before.Some? ==> store.Alone() && store.sys == old(store.sys)
    ensures r.Failure? ==> r.error == Store(Unavailable)
    ensures old(store.Reliable()) ==> store.Reliable() && r.Success?
  {
    var recovered: map<string, Body>, pending: seq<string> := map[], [];
    for i := 0 to |inputs|
      invariant store.Valid() && Grows(old(store.sys.store), store.sys.store)
      invariant Recovering(store.p, before, store.sys.store, inputs[..i], recovered, pending)
      invariant before.Some? ==> store.Alone() && store.sys == old(store.sys)
      invariant old(store.Reliable()) ==> store.Reliable()
    {
      assert inputs[..i + 1] == inputs[..i] + [inputs[i]];
      DistinctAt(inputs, i);
      var step :- RecoverOne(store, inputs, recovered, pending, inputs[i], before, inputs[..i]);
      recovered, pending := step.0, step.1;
    }
    assert inputs[..|inputs|] == inputs;
    r := Success((recovered, pending));
  }

  // ---------------------------------------------------------------- one triplet

  /** Will this upload go through on a quiet store? */
  predicate Uploadable(p: Protocol, store: Store, key: Key, body: Body) {
    if key in store then Present(p, store, RefTo(p, key, body))
    else body.Blob? ==> p.size(body) <= MAX_SINGLE_PUT_BYTES
  }

  predicate Publishable(p: Protocol, store: Store, source: string, parsed: Parsed) {
    && Uploadable(p, store, Artifact(Pages, source), Blob(parsed.pages))
    && Uploadable(p, store, Artifact(Links, source), Blob(parsed.links))
  }

  /** The files of a pending source that an earlier attempt already put in place. */
  function ReusedFor(store: Store, source: string): nat {
    (if Artifact(Pages, source) in store then 1 else 0) + (if Artifact(Links, source) in store then 1 else 0)
  }

  function TripletOf(source: string): set<Key> {
    {Artifact(Pages, source), Artifact(Links, source), Artifact(Metrics, source)}
  }

  method UploadPart(store: R2Store, inputs: seq<string>, key: Key, body: Body) returns (r: Result<Upload, ShardError>)
    requires store.Valid() && ForShard(store.p, inputs) && Supported(store.p, store.sys.store, key, body)
    modifies store
    ensures store.Valid() && Grows(old(store.sys.store), store.sys.store)
    ensures r.Success? ==> r.value.ref == RefTo(store.p, key, body) && Present(store.p, store.sys.store, r.value.ref)
    ensures old(store.Alone()) ==>
              && store.Alone()
              && store.sys.store.Keys <= old(store.sys.store).Keys + {key}
              && (r.Success? ==> (r.value.reused <==> old(key in store.sys.store)))
              && (r.Success? && old(key !in store.sys.store) ==> store.sys.store[key].body == body)
    ensures old(store.Alone() && store.Reliable()) ==>
              store.Reliable() && (r.Success? <==> old(Uploadable(store.p, store.sys.store, key, body)))
  {
    var uploaded := store.UploadImmutable(key, body);
    r := if uploaded.Failure? then Failure(Store(uploaded.error)) else Success(uploaded.value);
  }

  lemma PartSupported(p: Protocol, store: Store, inputs: seq<string>, dataset: Dataset, source: string, content: seq<int>)
    requires ForShard(p, inputs) && INPUT_MANIFEST in store && dataset != Metrics
    ensures Supported(p, store, Artifact(dataset, source), Blob(content))
  {
  }

  lemma MetricsSupported(p: Protocol, store: Store, inputs: seq<string>, source: string, parsed: Parsed)
    requires ForShard(p, inputs) && INPUT_MANIFEST in store
    requires Present(p, store, RefTo(p, Artifact(Pages, source), Blob(parsed.pages)))
    requires Present(p, store, RefTo(p, Artifact(Links, source), Blob(parsed.links)))
    ensures Supported(p, store, Artifact(Metrics, source), MetricsBody(p, source, parsed))
  {
  }

  /** The upload loop of `_publish_one`; returns how many files were already in place. */
  method PublishFiles(store: R2Store, inputs: seq<string>, source: string, parsed: Parsed) returns (r: Result<nat, ShardError>)
    requires store.Valid() && ForShard(store.p, inputs) && INPUT_MANIFEST in store.sys.store
    modifies store
    ensures store.Valid() && Grows(old(store.sys.store), store.sys.store)
    ensures r.Success? ==>
              && r.value <= 2
              && Present(store.p, store.sys.store, RefTo(store.p, Artifact(Pages, source), Blob(parsed.pages)))
              && Present(store.p, store.sys.store, RefTo(store.p, Artifact(Links, source), Blob(parsed.links)))
    ensures old(store.Alone()) ==>
              && store.Alone()
              && store.sys.store.Keys <= old(store.sys.store).Keys + {Artifact(Pages, source), Artifact(Links, source)}
              && (r.Success? ==> r.value == ReusedFor(old(store.sys.store), source))
    ensures old(store.Alone() && store.Reliable()) ==>
              store.Reliable() && (r.Success? <==> Publishable(store.p, old(store.sys.store), source, parsed))
  {
    PartSupported(store.p, store.sys.store, inputs, Pages, source, parsed.pages);
    var pages :- UploadPart(store, inputs, Artifact(Pages, source), Blob(parsed.pages));
    PartSupported(store.p, store.sys.store, inputs, Links, source, parsed.links);
    var links :- UploadPart(store, inputs, Artifact(Links, source), Blob(parsed.links));
    r := Success((if pages.reused then 1 else 0) + (if links.reused then 1 else 0));
  }

  /** The triplet this attempt made of a source is in place. */
  predicate Vouched(p: Protocol, store: Store, source: string, parsed: Parsed) {
    && Present(p, store, RefTo(p, Artifact(Metrics, source), MetricsBody(p, source, parsed)))
    && Present(p, store, RefTo(p, Artifact(Pages, source), Blob(parsed.pages)))
    && Present(p, store, RefTo(p, Artifact(Links, source), Blob(parsed.links)))
  }

  /** The metrics object that vouches for the two files, read back once it is there. */
  method PublishMetrics(store: R2Store, inputs: seq<string>, source: string, parsed: Parsed) returns (r: Result<bool, ShardError>)
    requires store.Valid() && ForShard(store.p, inputs) && INPUT_MANIFEST in store.sys.store
    requires Present(store.p, store.sys.store, RefTo(store.p, Artifact(Pages, source), Blob(parsed.pages)))
    requires Present(store.p, store.sys.store, RefTo(store.p, Artifact(Links, source), Blob(parsed.links)))
    modifies store
    ensures store.Valid() && Grows(old(store.sys.store), store.sys.store)
    ensures r.Success? ==> Vouched(store.p, store.sys.store, source, parsed)
    ensures old(store.Alone()) ==>
              store.Alone() && store.sys.store.Keys <= old(store.sys.store).Keys + {Artifact(Metrics, source)}
    ensures old(store.Alone() && Artifact(Metrics, source) !in store.sys.store) && r.Success? ==> !r.value
    ensures old(store.Alone() && store.Reliable() && Artifact(Metrics, source) !in store.sys.store) ==>
              store.Reliable() && r.Success?
  {
    MetricsSupported(store.p, store.sys.store, inputs, source, parsed);
    var metrics :- UploadPart(store, inputs, Artifact(Metrics, source), MetricsBody(store.p, source, parsed));
    var verified :- ReadCompletedMetric(store, source);
    if verified.None? {
      return Failure(MissingArtifact);
    }
    r := Success(metrics.reused);
  }

  /** `_publish_one`. */
  method PublishOne(store: R2Store, inputs: seq<string>, source: string, parsed: Parsed) returns (r: Result<Uploads, ShardError>)
    requires store.Valid() && ForShard(store.p, inputs) && INPUT_MANIFEST in store.sys.store
    modifies store
    ensures store.Valid() && Grows(old(store.sys.store), store.sys.store)
    ensures r.Success? ==>
              && Vouched(store.p, store.sys.store, source, parsed)
              && r.value.uploaded + r.value.reused == 3
    ensures old(store.Alone()) ==>
              store.Alone() && store.sys.store.Keys <= old(store.sys.store).Keys + TripletOf(source)
    ensures old(store.Alone() && Artifact(Metrics, source) !in store.sys.store) && r.Success? ==>
              r.value.reused == ReusedFor(old(store.sys.store), source)
    ensures old(store.Alone() && store.Reliable() && Artifact(Metrics, source) !in store.sys.store) ==>
              store.Reliable() && (r.Success? <==> Publishable(store.p, old(store.sys.store), source, parsed))
  {
    ghost var before := store.sys.store;
    var files :- PublishFiles(store, inputs, source, parsed);
    assert old(store.Alone()) && Artifact(Metrics, source) !in before ==> Artifact(Metrics, source) !in store.sys.store;
    var metrics :- PublishMetrics(store, inputs, source, parsed);
    var reused := files + if metrics then 1 else 0;
    r := Success(Uploads(3 - reused, reused));
  }

  // ---------------------------------------------------------------- all pending sources

  /** Every pending source parses, and its files are new or already there byte for byte. */
  predicate AllPublishable(p: Protocol, store: Store, a: Attempt, pending: seq<string>) {
    forall s | s in pending :: s in a.parsed && Publishable(p, store, s, a.parsed[s])
  }

  function ReusedAll(store: Store, sources: seq<string>): (r: nat)
    ensures r <= 3 * |sources|
  {
    if sources == [] then 0
    else ReusedAll(store, sources[..|sources| - 1]) + ReusedFor(store, sources[|sources| - 1])
  }

  lemma ReusedStep(store: Store, sources: seq<string>, source: string)
    ensures ReusedAll(store, sources + [source]) == ReusedAll(store, sources) + ReusedFor(store, source)
  {
    assert (sources + [source])[..|sources|] == sources;
  }

  lemma OwnMetrics(p: Protocol, store: Store, source: string, parsed: Parsed)
    requires Vouched(p, store, source, parsed)
    ensures Recovered(p, store, source, MetricsBody(p, source, parsed))
  {
  }

  ghost predicate Written(p: Protocol, store: Store, a: Attempt, done: seq<string>, written: map<string, Body>) {
    && written.Keys == ToSet(done)
    && forall s | s in written ::
         s in a.parsed && written[s] == MetricsBody(p, s, a.parsed[s]) && Vouched(p, store, s, a.parsed[s])
  }

  lemma WrittenIsRecovered(p: Protocol, store: Store, a: Attempt, done: seq<string>, written: map<string, Body>)
    requires Written(p, store, a, done, written)
    ensures AllRecovered(p, store, written)
  {
    forall s | s in written
      ensures Recovered(p, store, s, written[s])
    {
      OwnMetrics(p, store, s, a.parsed[s]);
    }
  }

  ghost predicate Added(before: Store, store: Store, done: seq<string>, reused: nat) {
    Grows(before, store) && store.Keys <= before.Keys + Triplets(done) && reused == ReusedAll(before, done)
  }

  /** What the publishing loop has done; `before` is the store it started from if it works alone. */
  ghost predicate Publishing(
    p: Protocol, before: Option<Store>, store: Store, a: Attempt, done: seq<string>, written: map<string, Body>, uploads: Uploads)
  {
    && Written(p, store, a, done, written)
    && uploads.uploaded + uploads.reused == 3 * |done|
    && (before.Some? ==> Added(before.value, store, done, uploads.reused))
  }

  lemma WrittenStep(
    p: Protocol, store: Store, later: Store, a: Attempt, done: seq<string>, written: map<string, Body>, source: string)
    requires Written(p, store, a, done, written) && source in a.parsed
    requires Grows(store, later) && Vouched(p, later, source, a.parsed[source])
    ensures Written(p, later, a, done + [source], written[source := MetricsBody(p, source, a.parsed[source])])
  {
    assert written[source := MetricsBody(p, source, a.parsed[source])].Keys == written.Keys + {source};
    forall s | s in written
      ensures Vouched(p, later, s, a.parsed[s])
    {
      assert Vouched(p, store, s, a.parsed[s]);
    }
  }

  lemma AddedStep(before: Store, store: Store, later: Store, done: seq<string>, reused: nat, source: string, more: nat)
    requires Added(before, store, done, reused) && source !in done
    requires Grows(store, later) && later.Keys <= store.Keys + TripletOf(source) && more == ReusedFor(store, source)
    ensures Added(before, later, done + [source], reused + more)
  {
    ReusedStep(before, done, source);
    Unaffected(before, store, done, source);
    TripletsStep(done, source);
  }

  lemma PublishingStep(
    p: Protocol, before: Option<Store>, store: Store, later: Store, a: Attempt, done: seq<string>,
    written: map<string, Body>, uploads: Uploads, source: string, more: Uploads)
    requires Publishing(p, before, store, a, done, written, uploads) && source !in done && source in a.parsed
    requires Grows(store, later) && Vouched(p, later, source, a.parsed[source])
    requires more.uploaded + more.reused == 3
    requires before.Some? ==>
               later.Keys <= store.Keys + TripletOf(source) && more.reused == ReusedFor(store, source)
    ensures Publishing(
              p, before, later, a, done + [source], written[source := MetricsBody(p, source, a.parsed[source])],
              Uploads(uploads.uploaded + more.uploaded, uploads.reused + more.reused))
  {
    WrittenStep(p, store, later, a, done, written, source);
    if before.Some? {
      AddedStep(before.value, store, later, done, uploads.reused, source, more.reused);
    }
  }

  lemma TripletsStep(done: seq<string>, source: string)
    ensures Triplets(done + [source]) == Triplets(done) + TripletOf(source)
  {
  }

  /** Publishing some sources says nothing about the keys of another. */
  lemma Unaffected(before: Store, store: Store, done: seq<string>, source: string)
    requires Grows(before, store) && store.Keys <= before.Keys + Triplets(done) && source !in done
    ensures forall key | key in TripletOf(source) :: key in store <==> key in before
    ensures ReusedFor(store, source) == ReusedFor(before, source)
    ensures forall p, parsed :: Publishable(p, store, source, parsed) <==> Publishable(p, before, source, parsed)
  {
    assert forall key | key in TripletOf(source) :: key !in Triplets(done);
  }

  /** One turn of the publishing loop: parse, then publish. */
  method PublishTurn(store: R2Store, inputs: seq<string>, a: Attempt, source: string, written: map<string, Body>, uploads: Uploads,
                     ghost before: Option<Store>, ghost done: seq<string>)
    returns (r: Result<(map<string, Body>, Uploads), ShardError>)
    requires store.Valid() && ForShard(store.p, inputs) && INPUT_MANIFEST in store.sys.store
    requires Publishing(store.p, before, store.sys.store, a, done, written, uploads) && source !in done
    requires before.Some? ==> store.Alone() && Artifact(Metrics, source) !in before.value
    modifies store
    ensures store.Valid() && Grows(old(store.sys.store), store.sys.store)
    ensures before.Some? ==> store.Alone()
    ensures r.Success? ==>
              Publishing(store.p, before, store.sys.store, a, done + [source], r.value.0, r.value.1)
    ensures before.Some? ==> store.sys.store.Keys <= before.value.Keys + Triplets(done + [source])
    ensures before.Some? && old(store.Reliable()) ==>
              && store.Reliable()
              && (r.Success? <==> source in a.parsed && Publishable(store.p, before.value, source, a.parsed[source]))
  {
    ghost var seen := store.sys.store;
    TripletsStep(done, source);
    if before.Some? {
      Unaffected(before.value, seen, done, source);
    }
    if source !in a.parsed {
      return Failure(SourceFailed);
    }
    var more :- PublishOne(store, inputs, source, a.parsed[source]);
    PublishingStep(store.p, before, seen, store.sys.store, a, done, written, uploads, source, more);
    r := Success((written[source := MetricsBody(store.p, source, a.parsed[source])],
                  Uploads(uploads.uploaded + more.uploaded, uploads.reused + more.reused)));
  }

  /** The publishing loop of `run_shard` with one worker; `before` is the store if it works alone. */
  method PublishPending(store: R2Store, inputs: seq<string>, a: Attempt, pending: seq<string>, ghost before: Option<Store>)
    returns (r: Result<(map<string, Body>, Uploads), ShardError>)
    requires store.Valid() && ForShard(store.p, inputs) && INPUT_MANIFEST in store.sys.store && Distinct(pending)
    requires before.Some? ==>
               && store.Alone() && before.value == store.sys.store
               && forall s | s in pending :: Artifact(Metrics, s) !in before.value
    modifies store
    ensures store.Valid() && Grows(old(store.sys.store), store.sys.store)
    ensures before.Some? ==> store.Alone() && store.sys.store.Keys <= before.value.Keys + Triplets(pending)
    ensures r.Success? ==> Publishing(store.p, before, store.sys.store, a, pending, r.value.0, r.value.1)
    ensures before.Some? && old(store.Reliable()) ==>
              store.Reliable() && (r.Success? <==> AllPublishable(store.p, before.value, a, pending))
  {
    var written: map<string, Body>, uploads := map[], Uploads(0, 0);
    TakeAll(pending);
    for i := 0 to |pending|
      invariant store.Valid() && Grows(old(store.sys.store), store.sys.store)
      invariant Publishing(store.p, before, store.sys.store, a, pending[..i], written, uploads)
      invariant before.Some? ==> store.Alone()
      invariant before.Some? && old(store.Reliable()) ==>
                  store.Reliable() && AllPublishable(store.p, before.value, a, pending[..i])
    {
      TakeOne(pending, i);
      DistinctAt(pending, i);
      TripletsOfPrefix(pending, i + 1);
      var step :- PublishTurn(store, inputs, a, pending[i], written, uploads, before, pending[..i]);
      written, uploads := step.0, step.1;
    }
    r := Success((written, uploads));
  }

  lemma TripletsOfPrefix(pending: seq<string>, n: nat)
    requires n <= |pending|
    ensures Triplets(pending[..n]) <= Triplets(pending)
  {
  }

  // ---------------------------------------------------------------- summary and marker

  ghost predicate Complete(p: Protocol, store: Store, inputs: seq<string>, reports: map<string, Body>) {
    AllRecovered(p, store, reports) && reports.Keys == ToSet(inputs)
  }

  function Ordered(inputs: seq<string>, reports: map<string, Body>): (r: seq<Body>)
    requires ToSet(inputs) <= reports.Keys
    ensures |r| == |inputs| && forall i: nat | i < |inputs| :: r[i] == reports[inputs[i]]
  {
    seq(|inputs|, i requires 0 <= i < |inputs| => reports[inputs[i]])
  }

  ghost predicate AllPairs(reports: seq<Body>) {
    forall i: nat | i < |reports| :: |Listed(reports[i])| == 2
  }

  lemma FlattenStep(reports: seq<Body>, report: Body)
    ensures Flatten(reports + [report]) == Flatten(reports) + Listed(report)
  {
    assert (reports + [report])[..|reports|] == reports;
  }

  /** Two entries a report: the list of all of them by place. */
  lemma {:induction false} FlattenAt(reports: seq<Body>)
    requires AllPairs(reports)
    ensures |Flatten(reports)| == 2 * |reports|
    ensures forall i: nat | i < |reports| ::
              Flatten(reports)[2 * i] == Listed(reports[i])[0] && Flatten(reports)[2 * i + 1] == Listed(reports[i])[1]
  {
    if reports != [] {
      var front, last := reports[..|reports| - 1], reports[|reports| - 1];
      FlattenAt(front);
      FlattenStep(front, last);
      SplitLast(reports);
      forall i: nat | i < |reports|
        ensures Flatten(reports)[2 * i] == Listed(reports[i])[0] && Flatten(reports)[2 * i + 1] == Listed(reports[i])[1]
      {
        if i < |front| {
          assert front[i] == reports[i];
        }
      }
    }
  }

  ghost predicate PairThere(p: Protocol, store: Store, source: string, entries: seq<Entry>) {
    && |entries| == 2 && PairFor(source, entries[0], entries[1])
    && Present(p, store, entries[0].ref) && Present(p, store, entries[1].ref)
  }

  lemma RecoveredPair(p: Protocol, store: Store, source: string, body: Body)
    requires Recovered(p, store, source, body)
    ensures PairThere(p, store, source, Listed(body))
  {
    assert body.artifacts[0] in body.artifacts && body.artifacts[1] in body.artifacts;
  }

  lemma PairsListed(p: Protocol, store: Store, inputs: seq<string>, reports: seq<Body>)
    requires |reports| == |inputs| && forall i: nat | i < |inputs| :: PairThere(p, store, inputs[i], Listed(reports[i]))
    ensures SummaryShape(inputs, Document(map[], Flatten(reports), []))
    ensures forall e | e in Flatten(reports) :: Present(p, store, e.ref)
  {
    forall i: nat | i < |reports|
      ensures |Listed(reports[i])| == 2
    {
      assert PairThere(p, store, inputs[i], Listed(reports[i]));
    }
    FlattenAt(reports);
    var listed := Flatten(reports);
    forall i: nat | i < |inputs|
      ensures PairFor(inputs[i], listed[2 * i], listed[2 * i + 1])
      ensures Present(p, store, listed[2 * i].ref) && Present(p, store, listed[2 * i + 1].ref)
    {
      assert PairThere(p, store, inputs[i], Listed(reports[i]));
    }
    forall e | e in listed
      ensures Present(p, store, e.ref)
    {
      var k: nat :| k < |listed| && listed[k] == e;
      assert k == 2 * (k / 2) || k == 2 * (k / 2) + 1;
    }
  }

  /** The listed files of a complete set of reports are all there, in the order of the inputs. */
  lemma SummaryRefs(p: Protocol, store: Store, inputs: seq<string>, reports: map<string, Body>)
    requires Complete(p, store, inputs, reports)
    ensures var listed := Flatten(Ordered(inputs, reports));
            SummaryShape(inputs, Document(map[], listed, [])) && forall e | e in listed :: Present(p, store, e.ref)
  {
    var ordered := Ordered(inputs, reports);
    forall i: nat | i < |inputs|
      ensures PairThere(p, store, inputs[i], Listed(ordered[i]))
    {
      RecoveredPair(p, store, inputs[i], reports[inputs[i]]);
    }
    PairsListed(p, store, inputs, ordered);
  }

  lemma TripletsPresent(p: Protocol, store: Store, inputs: seq<string>, reports: map<string, Body>)
    requires Complete(p, store, inputs, reports)
    ensures Triplets(inputs) <= store.Keys
  {
    forall key | key in Triplets(inputs)
      ensures key in store
    {
      assert Recovered(p, store, key.source, reports[key.source]);
      var pages, links := reports[key.source].artifacts[0], reports[key.source].artifacts[1];
      assert pages in reports[key.source].artifacts && links in reports[key.source].artifacts;
    }
  }

  /** A summary of recovered sources may be written, and records every one of their files. */
  lemma SummarySupported(p: Protocol, store: Store, c: Contract, reports: map<string, Body>, summary: Body)
    requires ForShard(p, c.inputs) && INPUT_MANIFEST in store && Complete(p, store, c.inputs, reports)
    requires summary.Document? && summary.artifacts == Flatten(Ordered(c.inputs, reports)) && summary.results == []
    ensures Supported(p, store, RUN_SUMMARY, summary)
  {
    SummaryRefs(p, store, c.inputs, reports);
    TripletsPresent(p, store, c.inputs, reports);
    SummaryRules(p, c.inputs, summary, Document(map[], summary.artifacts, []));
    assert p.needs(RUN_SUMMARY) <= store.Keys;
    forall r | r in Refs(summary)
      ensures Present(p, store, r)
    {
      var e :| e in summary.artifacts && e.ref == r;
    }
  }

  lemma SummaryRules(p: Protocol, inputs: seq<string>, summary: Body, plain: Body)
    requires ForShard(p, inputs) && summary.Document? && plain == Document(map[], summary.artifacts, [])
    ensures p.needs(RUN_SUMMARY) == {INPUT_MANIFEST} + Triplets(inputs)
    ensures SummaryShape(inputs, plain) ==> p.allowed(RUN_SUMMARY, summary)
  {
    assert RUN_SUMMARY != RAW_COMPLETED;
    assert p.allowed(RUN_SUMMARY, summary) <==> Allowed(inputs, RUN_SUMMARY, summary);
  }

  predicate Agrees(p: Protocol, store: Store, key: Key, body: Body) {
    key in store ==> Present(p, store, RefTo(p, key, body))
  }

  /** The last two writes of a successful shard. */
  method Finish(store: R2Store, c: Contract, a: Attempt, summary: Body) returns (r: Result<Body, ShardError>)
    requires store.Valid() && ForShard(store.p, c.inputs)
    requires summary.Document? && Supported(store.p, store.sys.store, RUN_SUMMARY, summary)
    modifies store
    ensures store.Valid() && Grows(old(store.sys.store), store.sys.store)
    ensures r.Success? ==>
              && r.value == summary
              && Present(store.p, store.sys.store, RefTo(store.p, RUN_SUMMARY, summary))
              && Present(store.p, store.sys.store,
                         RefTo(store.p, RAW_COMPLETED, CompletionBody(c, a, RefTo(store.p, RUN_SUMMARY, summary))))
    ensures old(store.Alone()) ==>
              && store.Alone() && store.sys.store.Keys <= old(store.sys.store).Keys + {RUN_SUMMARY, RAW_COMPLETED}
              && (!old(Agrees(store.p, store.sys.store, RUN_SUMMARY, summary)) ==> r.Failure? && store.sys.store == old(store.sys.store))
    ensures old(store.Alone() && store.Reliable()) ==>
              (r.Success? <==>
                 && old(Agrees(store.p, store.sys.store, RUN_SUMMARY, summary))
                 && old(Agrees(store.p, store.sys.store, RAW_COMPLETED, CompletionBody(c, a, RefTo(store.p, RUN_SUMMARY, summary)))))
  {
    var uploaded :- UploadControl(store, c.inputs, RUN_SUMMARY, summary);
    var completion := CompletionBody(c, a, uploaded);
    MarkerSupported(store.p, store.sys.store, c.inputs, summary, completion);
    var marker :- UploadControl(store, c.inputs, RAW_COMPLETED, completion);
    r := Success(summary);
  }

  lemma MarkerSupported(p: Protocol, store: Store, inputs: seq<string>, summary: Body, completion: Body)
    requires ForShard(p, inputs) && Supported(p, store, RUN_SUMMARY, summary)
    requires completion.Document? && completion.artifacts == [] && completion.results == [RefTo(p, RUN_SUMMARY, summary)]
    requires Present(p, store, RefTo(p, RUN_SUMMARY, summary))
    ensures Supported(p, store, RAW_COMPLETED, completion)
  {
  }

  method UploadControl(store: R2Store, inputs: seq<string>, key: Key, body: Body) returns (r: Result<Ref, ShardError>)
    requires store.Valid() && ForShard(store.p, inputs) && body.Document? && Supported(store.p, store.sys.store, key, body)
    modifies store
    ensures store.Valid() && Grows(old(store.sys.store), store.sys.store)
    ensures r.Success? ==> r.value == RefTo(store.p, key, body) && Present(store.p, store.sys.store, r.value)
    ensures old(store.Alone()) ==>
              && store.Alone()
              && (store.sys.store == old(store.sys.store) || (old(key !in store.sys.store) && store.sys.store == WithObject(store.p, old(store.sys.store), key, body)))
              && (r.Success? ==> store.sys.store == Put(store.p, old(store.sys.store), key, body))
              && (!old(Agrees(store.p, store.sys.store, key, body)) ==> r.Failure? && store.sys.store == old(store.sys.store))
    ensures old(store.Alone() && store.Reliable()) ==>
              store.Reliable() && (r.Success? <==> old(Agrees(store.p, store.sys.store, key, body)))
  {
    var uploaded := store.UploadImmutable(key, body);
    r := if uploaded.Failure? then Failure(Store(uploaded.error)) else Success(uploaded.value.ref);
  }

  /** The store once the key is taken, by this body if it was free. */
  function Put(p: Protocol, store: Store, key: Key, body: Body): Store {
    if key in store then store else WithObject(p, store, key, body)
  }

  // ---------------------------------------------------------------- the whole attempt

  /** The report an attempt working alone ends up with for a source. */
  function ReportOf(p: Protocol, store: Store, a: Attempt, source: string): Body {
    if Artifact(Metrics, source) in store then store[Artifact(Metrics, source)].body
    else if source in a.parsed then MetricsBody(p, source, a.parsed[source])
    else Blob([])
  }

  function ReportsOf(p: Protocol, store: Store, a: Attempt, inputs: seq<string>): (r: seq<Body>)
    ensures |r| == |inputs| && forall i: nat | i < |inputs| :: r[i] == ReportOf(p, store, a, inputs[i])
  {
    seq(|inputs|, i requires 0 <= i < |inputs| => ReportOf(p, store, a, inputs[i]))
  }

  /** The summary an attempt working alone builds from the store it finds. */
  function SummaryOf(p: Protocol, store: Store, c: Contract, a: Attempt): Body {
    var pending := Pending(store, c.inputs);
    var reused := ReusedAll(store, pending);
    SummaryBody(c, a, |c.inputs| - |pending|, |pending|, Uploads(3 * |pending| - reused, reused),
                ReportsOf(p, store, a, c.inputs))
  }

  /** Exactly when an attempt that is left alone completes the shard it finds. */
  predicate Completes(p: Protocol, store: Store, c: Contract, a: Attempt) {
    var summary := SummaryOf(p, store, c, a);
    && Agrees(p, store, INPUT_MANIFEST, ManifestBody(c, a))
    && AllPublishable(p, store, a, Pending(store, c.inputs))
    && Agrees(p, store, RUN_SUMMARY, summary)
    && Agrees(p, store, RAW_COMPLETED, CompletionBody(c, a, RefTo(p, RUN_SUMMARY, summary)))
  }

  lemma MergeRecovered(p: Protocol, store: Store, recovered: map<string, Body>, written: map<string, Body>)
    requires AllRecovered(p, store, recovered) && AllRecovered(p, store, written)
    ensures AllRecovered(p, store, recovered + written)
  {
  }

  lemma MergeKeys(inputs: seq<string>, recovered: map<string, Body>, written: map<string, Body>)
    requires Distinct(inputs) && recovered.Keys <= ToSet(inputs)
    requires written.Keys == ToSet(Without(inputs, recovered.Keys))
    ensures (recovered + written).Keys == ToSet(inputs)
  {
    SplitExactly(inputs, recovered.Keys);
  }

  lemma ReportsComplete(p: Protocol, store: Store, later: Store, a: Attempt, inputs: seq<string>,
                        recovered: map<string, Body>, pending: seq<string>, written: map<string, Body>)
    requires Distinct(inputs) && recovered.Keys <= ToSet(inputs) && pending == Without(inputs, recovered.Keys)
    requires AllRecovered(p, store, recovered) && Grows(store, later)
    requires Written(p, later, a, pending, written)
    ensures Complete(p, later, inputs, recovered + written)
  {
    MergeKeys(inputs, recovered, written);
    AllRecoveredGrows(p, store, later, recovered);
    WrittenIsRecovered(p, later, a, pending, written);
    MergeRecovered(p, later, recovered, written);
  }

  lemma ReportIs(p: Protocol, store: Store, a: Attempt, inputs: seq<string>, recovered: map<string, Body>,
                 written: map<string, Body>, source: string)
    requires FromStore(store, recovered) && source in recovered + written
    requires source in written ==> source in a.parsed && written[source] == MetricsBody(p, source, a.parsed[source])
    requires source in written <==> Artifact(Metrics, source) !in store
    ensures (recovered + written)[source] == ReportOf(p, store, a, source)
  {
  }

  /** Left alone, the attempt's reports are those of `SummaryOf`. */
  lemma ReportsAre(p: Protocol, store: Store, later: Store, a: Attempt, inputs: seq<string>,
                   recovered: map<string, Body>, written: map<string, Body>)
    requires FromStore(store, recovered) && Written(p, later, a, Pending(store, inputs), written)
    requires (recovered + written).Keys == ToSet(inputs)
    ensures Ordered(inputs, recovered + written)
            == ReportsOf(p, store, a, inputs)
  {
    forall i: nat | i < |inputs|
      ensures Ordered(inputs, recovered + written)[i] == ReportOf(p, store, a, inputs[i])
    {
      WithoutHas(inputs, Published(store, inputs), inputs[i]);
      ReportIs(p, store, a, inputs, recovered, written, inputs[i]);
    }
  }

  /** Left alone, the attempt's summary is `SummaryOf` the store it found. */
  lemma SummaryIs(p: Protocol, store: Store, c: Contract, a: Attempt, recovered: nat, processed: nat, uploads: Uploads, reports: seq<Body>)
    requires processed == |Pending(store, c.inputs)| && recovered + processed == |c.inputs|
    requires uploads.uploaded + uploads.reused == 3 * processed && uploads.reused == ReusedAll(store, Pending(store, c.inputs))
    requires reports == ReportsOf(p, store, a, c.inputs)
    ensures SummaryBody(c, a, recovered, processed, uploads, reports) == SummaryOf(p, store, c, a)
  {
  }

  /**
   * What an attempt working alone may leave behind, wherever it stops: nothing but its own
   * triplets and control objects; nothing new behind a summary it cannot rebuild, and nothing
   * new at all behind the marker.
   */
  ghost predicate Outcome(p: Protocol, c: Contract, a: Attempt, before: Store, after: Store, completed: bool) {
    && Grows(before, after)
    && after.Keys <= before.Keys + {INPUT_MANIFEST, RUN_SUMMARY, RAW_COMPLETED} + Triplets(Pending(before, c.inputs))
    && (completed ==> RAW_COMPLETED in after)
    && (RUN_SUMMARY in before && !Agrees(p, before, RUN_SUMMARY, SummaryOf(p, before, c, a)) ==> after == before && !completed)
    && (RAW_COMPLETED in before ==> after == before)
  }

  /** The reports of a split and its published rest, and the summary made of them. */
  method Summarise(store: R2Store, c: Contract, a: Attempt, recovered: map<string, Body>, pending: seq<string>,
                   ghost before: Option<Store>)
    returns (r: Result<Body, ShardError>)
    requires store.Valid() && ForShard(store.p, c.inputs) && INPUT_MANIFEST in store.sys.store && Distinct(c.inputs)
    requires Recovering(store.p, before, store.sys.store, c.inputs, recovered, pending)
    requires before.Some? ==> store.Alone()
    modifies store
    ensures store.Valid() && Grows(old(store.sys.store), store.sys.store)
    ensures r.Success? ==>
              && r.value.Document? && Supported(store.p, store.sys.store, RUN_SUMMARY, r.value)
              && SummaryShape(c.inputs, r.value)
              && SummarisesAll(r.value, c, a.release)
    ensures before.Some? ==> store.Alone() && store.sys.store.Keys <= before.value.Keys + Triplets(pending)
    ensures before.Some? && r.Success? ==> r.value == SummaryOf(store.p, before.value, c, a)
    ensures before.Some? && old(store.Reliable()) ==>
              store.Reliable() && (r.Success? <==> AllPublishable(store.p, before.value, a, pending))
  {
    ghost var start := store.sys.store;
    SplitExactly(c.inputs, recovered.Keys);
    if before.Some? {
      AllPendingAbsent(before.value, c.inputs);
    }
    var written :- PublishPending(store, c.inputs, a, pending, before);
    ReportsComplete(store.p, start, store.sys.store, a, c.inputs, recovered, pending, written.0);
    var reports := recovered + written.0;
    var summary := SummaryBody(c, a, |recovered|, |pending|, written.1, Ordered(c.inputs, reports));
    if before.Some? {
      ReportsAre(store.p, before.value, store.sys.store, a, c.inputs, recovered, written.0);
      SummaryIs(store.p, before.value, c, a, |recovered|, |pending|, written.1, Ordered(c.inputs, reports));
    }
    SummarySupported(store.p, store.sys.store, c, reports, summary);
    SummaryCounts(c, a, |recovered|, |pending|, written.1, Ordered(c.inputs, reports));
    r := Success(summary);
  }

  /** Everything after the input manifest. */
  method RunBody(store: R2Store, c: Contract, a: Attempt) returns (r: Result<Body, ShardError>)
    requires store.Valid() && ForShard(store.p, c.inputs) && Distinct(c.inputs)
    requires Present(store.p, store.sys.store, RefTo(store.p, INPUT_MANIFEST, ManifestBody(c, a)))
    modifies store
    ensures store.Valid() && Grows(old(store.sys.store), store.sys.store)
    ensures r.Success? ==>
              && SummaryShape(c.inputs, r.value) && SummarisesAll(r.value, c, a.release)
              && Present(store.p, store.sys.store, RefTo(store.p, RUN_SUMMARY, r.value))
              && Present(store.p, store.sys.store,
                         RefTo(store.p, RAW_COMPLETED, CompletionBody(c, a, RefTo(store.p, RUN_SUMMARY, r.value))))
    ensures old(store.Alone()) && r.Success? ==> r.value == SummaryOf(store.p, old(store.sys.store), c, a)
    ensures old(store.Alone()) ==> Outcome(store.p, c, a, old(store.sys.store), store.sys.store, r.Success?)
    ensures old(store.Alone() && store.Reliable()) ==>
              (r.Success? <==> Completes(store.p, old(store.sys.store), c, a))
  {
    ghost var before := if store.Alone() then Some(store.sys.store) else None;
    ghost var start := store.sys.store;
    if RUN_SUMMARY in start {
      NothingPending(store.p, start, c.inputs);
    }
    MarkerNeedsSummary(store.p, start, c.inputs);
    var split :- SplitInputs(store, c.inputs, before);
    var summary := Summarise(store, c, a, split.0, split.1, before);
    ghost var mid := store.sys.store;
    if before.Some? {
      ControlUntouched(store.p, start, mid, split.1, RUN_SUMMARY);
      ControlUntouched(store.p, start, mid, split.1, RAW_COMPLETED);
    }
    if summary.Failure? {
      return Failure(summary.error);
    }
    r := Finish(store, c, a, summary.value);
    if before.Some? {
      FinishOutcome(store.p, c, a, start, mid, store.sys.store, r.Success?);
    }
  }

  lemma FinishOutcome(p: Protocol, c: Contract, a: Attempt, before: Store, mid: Store, after: Store, completed: bool)
    requires Grows(before, mid) && Grows(mid, after)
    requires mid.Keys <= before.Keys + Triplets(Pending(before, c.inputs))
    requires after.Keys <= mid.Keys + {RUN_SUMMARY, RAW_COMPLETED}
    requires RUN_SUMMARY in before ==> mid == before
    requires RAW_COMPLETED in before ==> RUN_SUMMARY in before
    requires completed ==> RAW_COMPLETED in after
    requires !Agrees(p, mid, RUN_SUMMARY, SummaryOf(p, before, c, a)) ==> !completed && after == mid
    ensures Outcome(p, c, a, before, after, completed)
  {
  }

  lemma MarkerNeedsSummary(p: Protocol, store: Store, inputs: seq<string>)
    requires Closed(p, store) && ForShard(p, inputs)
    ensures RAW_COMPLETED in store ==> RUN_SUMMARY in store
  {
    if RAW_COMPLETED in store {
      assert Supported(p, store, RAW_COMPLETED, store[RAW_COMPLETED].body);
      assert p.needs(RAW_COMPLETED) == {INPUT_MANIFEST, RUN_SUMMARY} + Triplets(inputs);
    }
  }

  /** Publishing triplets changes nothing for a control object. */
  lemma ControlUntouched(p: Protocol, before: Store, later: Store, pending: seq<string>, key: Key)
    requires Grows(before, later) && later.Keys <= before.Keys + Triplets(pending) && key.Control?
    ensures forall body :: Agrees(p, later, key, body) <==> Agrees(p, before, key, body)
    ensures pending == [] ==> later == before
  {
  }

  lemma AllPendingAbsent(store: Store, inputs: seq<string>)
    ensures forall s | s in Pending(store, inputs) :: Artifact(Metrics, s) !in store
  {
    forall s | s in Pending(store, inputs)
      ensures Artifact(Metrics, s) !in store
    {
      WithoutHas(inputs, Published(store, inputs), s);
    }
  }

  /** Behind a summary nothing is pending. */
  lemma NothingPending(p: Protocol, store: Store, inputs: seq<string>)
    requires Closed(p, store) && ForShard(p, inputs) && RUN_SUMMARY in store
    ensures Pending(store, inputs) == []
  {
    SummaryNeedsAll(p, store, inputs);
    assert forall s | s in inputs :: Artifact(Metrics, s) in Triplets(inputs);
    WithoutAll(inputs, Published(store, inputs));
  }

  lemma SummaryNeedsAll(p: Protocol, store: Store, inputs: seq<string>)
    requires Closed(p, store) && ForShard(p, inputs) && RUN_SUMMARY in store
    ensures Triplets(inputs) <= store.Keys
  {
    assert Supported(p, store, RUN_SUMMARY, store[RUN_SUMMARY].body);
    assert p.needs(RUN_SUMMARY) == {INPUT_MANIFEST} + Triplets(inputs);
  }

  /** The two stores differ in control objects only. */
  ghost predicate SameArtifacts(store: Store, later: Store) {
    forall key: Key | key.Artifact? :: (key in store <==> key in later) && (key in store ==> store[key] == later[key])
  }

  lemma PublishedSame(store: Store, later: Store, inputs: seq<string>)
    requires SameArtifacts(store, later)
    ensures Published(later, inputs) == Published(store, inputs)
  {
  }

  lemma ReportsSame(p: Protocol, store: Store, later: Store, a: Attempt, inputs: seq<string>)
    requires SameArtifacts(store, later)
    ensures ReportsOf(p, later, a, inputs) == ReportsOf(p, store, a, inputs)
  {
    forall i: nat | i < |inputs|
      ensures ReportOf(p, later, a, inputs[i]) == ReportOf(p, store, a, inputs[i])
    {
    }
  }

  lemma SummarySame(p: Protocol, store: Store, later: Store, c: Contract, a: Attempt)
    requires SameArtifacts(store, later)
    ensures Pending(later, c.inputs) == Pending(store, c.inputs)
    ensures SummaryOf(p, later, c, a) == SummaryOf(p, store, c, a)
  {
    PublishedSame(store, later, c.inputs);
    ReusedSame(store, later, Pending(store, c.inputs));
    ReportsSame(p, store, later, a, c.inputs);
  }

  lemma PublishableSame(p: Protocol, store: Store, later: Store, a: Attempt, pending: seq<string>)
    requires SameArtifacts(store, later)
    ensures AllPublishable(p, later, a, pending) <==> AllPublishable(p, store, a, pending)
  {
    assert forall s, parsed :: Publishable(p, later, s, parsed) <==> Publishable(p, store, s, parsed);
  }

  /** The manifest is nothing to the recovery, the triplets, the summary or the marker. */
  lemma ManifestAside(p: Protocol, store: Store, c: Contract, a: Attempt)
    ensures var later := Put(p, store, INPUT_MANIFEST, ManifestBody(c, a));
            && Pending(later, c.inputs) == Pending(store, c.inputs)
            && SummaryOf(p, later, c, a) == SummaryOf(p, store, c, a)
            && (Agrees(p, store, INPUT_MANIFEST, ManifestBody(c, a)) ==> (Completes(p, later, c, a) <==> Completes(p, store, c, a)))
  {
    var later := Put(p, store, INPUT_MANIFEST, ManifestBody(c, a));
    SummarySame(p, store, later, c, a);
    PublishableSame(p, store, later, a, Pending(store, c.inputs));
    assert RUN_SUMMARY != INPUT_MANIFEST && RAW_COMPLETED != INPUT_MANIFEST;
  }

  lemma {:induction false} ReusedSame(store: Store, later: Store, sources: seq<string>)
    requires forall key: Key | key.Artifact? :: key in store <==> key in later
    ensures ReusedAll(store, sources) == ReusedAll(later, sources)
  {
    if sources != [] {
      ReusedSame(store, later, sources[..|sources| - 1]);
    }
  }

  lemma BodyOutcome(p: Protocol, c: Contract, a: Attempt, before: Store, mid: Store, after: Store, completed: bool)
    requires Outcome(p, c, a, mid, after, completed) && mid == Put(p, before, INPUT_MANIFEST, ManifestBody(c, a))
    requires RUN_SUMMARY in before || RAW_COMPLETED in before ==> INPUT_MANIFEST in before
    ensures Outcome(p, c, a, before, after, completed)
  {
    ManifestAside(p, before, c, a);
  }

  /** The files of sources without a metrics object that were there before. */
  function AlreadyThere(store: Store, inputs: seq<string>): set<Key> {
    set key | key in store.Keys && key.Artifact? && key.source in inputs && Artifact(Metrics, key.source) !in store
  }

  /** The counts of a summary, for an attempt that found this store: recovered, processed and reused. */
  ghost predicate SummarisesFrom(body: Body, store: Store, c: Contract, release: string) {
    var recovered := |Published(store, c.inputs)|;
    recovered <= |c.inputs| && Summarises(body, c, release, recovered, |c.inputs| - recovered, |AlreadyThere(store, c.inputs)|)
  }

  /** Manifest and marker are those of this assignment, release and summary. */
  predicate ControlsSay(p: Protocol, store: Store, c: Contract, a: Attempt, summary: Body) {
    && INPUT_MANIFEST in store && RAW_COMPLETED in store
    && Assigns(store[INPUT_MANIFEST].body, c, a.release)
    && Completed(store[RAW_COMPLETED].body, c, a.completedAt, RefTo(p, RUN_SUMMARY, summary))
  }

  lemma OtherManifest(p: Protocol, store: Store, c: Contract, a: Attempt)
    requires Closed(p, store)
    ensures CollisionFree(p) && INPUT_MANIFEST in store && !Assigns(store[INPUT_MANIFEST].body, c, a.release) ==>
              !Agrees(p, store, INPUT_MANIFEST, ManifestBody(c, a))
  {
    ManifestSays(c, a);
    if INPUT_MANIFEST in store {
      assert store[INPUT_MANIFEST].sha == p.sha(store[INPUT_MANIFEST].body);
    }
  }

  lemma {:induction false} ReusedIsCount(store: Store, sources: seq<string>)
    requires Distinct(sources) && forall s | s in sources :: Artifact(Metrics, s) !in store
    ensures ReusedAll(store, sources) == |AlreadyThere(store, sources)|
  {
    if sources != [] {
      var n := |sources| - 1;
      ReusedIsCount(store, sources[..n]);
      SplitLast(sources);
      var before, mine := AlreadyThere(store, sources[..n]), AlreadyThere(store, [sources[n]]);
      OneReused(store, sources[n]);
      assert AlreadyThere(store, sources) == before + mine;
      assert before !! mine;
    }
  }

  lemma OneReused(store: Store, source: string)
    requires Artifact(Metrics, source) !in store
    ensures |AlreadyThere(store, [source])| == ReusedFor(store, source)
  {
    var pages := if Artifact(Pages, source) in store then {Artifact(Pages, source)} else {};
    var links := if Artifact(Links, source) in store then {Artifact(Links, source)} else {};
    forall key
      ensures key in AlreadyThere(store, [source]) <==> key in pages + links
    {
      if key.Artifact? && key.source == source {
        match key.dataset
        case Pages => assert key == Artifact(Pages, source);
        case Links => assert key == Artifact(Links, source);
        case Metrics => assert key == Artifact(Metrics, source);
      }
    }
    assert AlreadyThere(store, [source]) == pages + links;
  }

  lemma PendingCount(store: Store, inputs: seq<string>)
    requires Distinct(inputs)
    ensures |Published(store, inputs)| + |Pending(store, inputs)| == |inputs|
    ensures ReusedAll(store, Pending(store, inputs)) == |AlreadyThere(store, inputs)|
  {
    SplitExactly(inputs, Published(store, inputs));
    AllPendingAbsent(store, inputs);
    ReusedIsCount(store, Pending(store, inputs));
    SamePending(store, inputs);
  }

  /** The counts of the summary, in terms of the store the attempt found. */
  lemma SummaryOfSays(p: Protocol, store: Store, c: Contract, a: Attempt)
    requires Distinct(c.inputs)
    ensures SummarisesFrom(SummaryOf(p, store, c, a), store, c, a.release)
  {
    var processed, reused := |Pending(store, c.inputs)|, ReusedAll(store, Pending(store, c.inputs));
    var recovered, uploads, reports := |c.inputs| - processed, Uploads(3 * processed - reused, reused), ReportsOf(p, store, a, c.inputs);
    PendingCount(store, c.inputs);
    SummaryIs(p, store, c, a, recovered, processed, uploads, reports);
    var body := SummaryBody(c, a, recovered, processed, uploads, reports);
    SummarySays(c, a, recovered, processed, uploads, reports);
    CountsFrom(body, store, c, a.release, recovered, processed, reused);
  }

  lemma CountsFrom(body: Body, store: Store, c: Contract, release: string, recovered: nat, processed: nat, reused: nat)
    requires Summarises(body, c, release, recovered, processed, reused)
    requires recovered == |Published(store, c.inputs)| && processed == |c.inputs| - recovered && reused == |AlreadyThere(store, c.inputs)|
    ensures SummarisesFrom(body, store, c, release)
  {
  }

  lemma SamePending(store: Store, inputs: seq<string>)
    ensures AlreadyThere(store, Pending(store, inputs)) == AlreadyThere(store, inputs)
  {
    forall key | key in store.Keys && key.Artifact? && Artifact(Metrics, key.source) !in store
      ensures key.source in Pending(store, inputs) <==> key.source in inputs
    {
      WithoutHas(inputs, Published(store, inputs), key.source);
    }
  }

  lemma SaysWhatItShould(p: Protocol, store: Store, c: Contract, a: Attempt, summary: Body)
    requires CollisionFree(p) && Closed(p, store)
    requires Present(p, store, RefTo(p, INPUT_MANIFEST, ManifestBody(c, a)))
    requires Present(p, store, RefTo(p, RAW_COMPLETED, CompletionBody(c, a, RefTo(p, RUN_SUMMARY, summary))))
    ensures ControlsSay(p, store, c, a, summary)
  {
    StoredIs(p, store, INPUT_MANIFEST, ManifestBody(c, a));
    StoredIs(p, store, RAW_COMPLETED, CompletionBody(c, a, RefTo(p, RUN_SUMMARY, summary)));
    ManifestSays(c, a);
    MarkerSays(c, a, RefTo(p, RUN_SUMMARY, summary));
  }

  /** `run_shard` after the lease is held. */
  method RunShard(store: R2Store, c: Contract, a: Attempt) returns (r: Result<Body, ShardError>)
    requires store.Valid() && ForShard(store.p, c.inputs) && Distinct(c.inputs)
    modifies store
    ensures store.Valid() && Grows(old(store.sys.store), store.sys.store)
    ensures r.Success? ==>
              && RAW_COMPLETED in store.sys.store && INPUT_MANIFEST in store.sys.store
              && SummaryShape(c.inputs, r.value) && SummarisesAll(r.value, c, a.release)
              && Present(store.p, store.sys.store, RefTo(store.p, RUN_SUMMARY, r.value))
    ensures r.Success? && CollisionFree(store.p) ==> ControlsSay(store.p, store.sys.store, c, a, r.value)
    ensures CollisionFree(store.p) && old(INPUT_MANIFEST in store.sys.store && !Assigns(store.sys.store[INPUT_MANIFEST].body, c, a.release)) ==>
              r.Failure? && (old(store.Alone()) ==> store.sys.store == old(store.sys.store))
    ensures old(store.Alone()) && r.Success? ==> SummarisesFrom(r.value, old(store.sys.store), c, a.release)
    ensures old(store.Alone()) ==> Outcome(store.p, c, a, old(store.sys.store), store.sys.store, r.Success?)
    ensures old(store.Alone() && store.Reliable()) ==>
              (r.Success? <==> Completes(store.p, old(store.sys.store), c, a))
  {
    ghost var before := store.sys.store;
    ManifestSupported(store.p, before, c, a);
    MarkerNeedsSummary(store.p, before, c.inputs);
    OtherManifest(store.p, before, c, a);
    var manifest :- UploadControl(store, c.inputs, INPUT_MANIFEST, ManifestBody(c, a));
    ghost var mid := store.sys.store;
    ManifestAside(store.p, before, c, a);
    r := RunBody(store, c, a);
    SummaryOfSays(store.p, before, c, a);
    if r.Success? && CollisionFree(store.p) {
      SaysWhatItShould(store.p, store.sys.store, c, a, r.value);
    }
    if old(store.Alone()) {
      BodyOutcome(store.p, c, a, before, mid, store.sys.store, r.Success?);
    }
  }

  lemma ManifestSupported(p: Protocol, store: Store, c: Contract, a: Attempt)
    requires ForShard(p, c.inputs) && Closed(p, store)
    ensures Supported(p, store, INPUT_MANIFEST, ManifestBody(c, a))
    ensures RUN_SUMMARY in store ==> INPUT_MANIFEST in store
  {
    if RUN_SUMMARY in store {
      assert Supported(p, store, RUN_SUMMARY, store[RUN_SUMMARY].body);
      assert p.needs(RUN_SUMMARY) == {INPUT_MANIFEST} + Triplets(c.inputs);
    }
  }

  // ---------------------------------------------------------------- what readers may rely on

  /** The source's metrics object is its own, and its Pages and Links objects are as it records them. */
  ghost predicate VouchedFor(p: Protocol, store: Store, source: string) {
    && Artifact(Metrics, source) in store
    && var metrics := store[Artifact(Metrics, source)].body;
       && MetricsFor(source, metrics)
       && forall e | e in metrics.artifacts ::
            Present(p, store, e.ref) && p.size(store[e.ref.key].body) == e.ref.bytes && p.sha(store[e.ref.key].body) == e.ref.sha
  }

  /** The marker's summary is the stored one, and lists the two files of each input as they are. */
  ghost predicate Whole(p: Protocol, store: Store, inputs: seq<string>) {
    && (forall s | s in inputs :: VouchedFor(p, store, s))
    && RAW_COMPLETED in store && RUN_SUMMARY in store
    && store[RAW_COMPLETED].body.Document? && store[RAW_COMPLETED].body.results == [RefTo(p, RUN_SUMMARY, store[RUN_SUMMARY].body)]
    && SummaryShape(inputs, store[RUN_SUMMARY].body)
    && forall e | e in store[RUN_SUMMARY].body.artifacts ::
         e.ref.key in store && p.size(store[e.ref.key].body) == e.ref.bytes && p.sha(store[e.ref.key].body) == e.ref.sha
  }

  lemma StoredRefsExactly(p: Protocol, store: Store, key: Key)
    requires Closed(p, store) && key in store && store[key].body.Document?
    ensures forall e | e in store[key].body.artifacts ::
              Present(p, store, e.ref) && p.sha(store[e.ref.key].body) == e.ref.sha
  {
    StoredRefs(p, store, key);
    forall e | e in store[key].body.artifacts
      ensures p.sha(store[e.ref.key].body) == e.ref.sha
    {
      assert Present(p, store, e.ref);
      assert store[e.ref.key].sha == p.sha(store[e.ref.key].body);
    }
  }

  lemma MetricsVouch(p: Protocol, inputs: seq<string>, store: Store, source: string)
    requires Closed(p, store) && ForShard(p, inputs) && Artifact(Metrics, source) in store
    ensures VouchedFor(p, store, source)
  {
    StoredMetrics(p, store, inputs, source);
    StoredRefsExactly(p, store, Artifact(Metrics, source));
  }

  lemma MarkerMeansWhole(p: Protocol, inputs: seq<string>, store: Store)
    requires Closed(p, store) && ForShard(p, inputs) && RAW_COMPLETED in store
    ensures Whole(p, store, inputs)
  {
    var marker := store[RAW_COMPLETED].body;
    assert Supported(p, store, RAW_COMPLETED, marker);
    MarkerRules(p, inputs, marker);
    MarkerNeedsSummary(p, store, inputs);
    assert Present(p, store, marker.results[0]);
    assert store[RUN_SUMMARY].sha == p.sha(store[RUN_SUMMARY].body);
    SummaryNeedsAll(p, store, inputs);
    var summary := store[RUN_SUMMARY].body;
    assert Supported(p, store, RUN_SUMMARY, summary);
    assert p.allowed(RUN_SUMMARY, summary) <==> Allowed(inputs, RUN_SUMMARY, summary);
    StoredRefsExactly(p, store, RUN_SUMMARY);
    forall s | s in inputs
      ensures VouchedFor(p, store, s)
    {
      assert Artifact(Metrics, s) in Triplets(inputs);
      MetricsVouch(p, inputs, store, s);
    }
  }

  lemma MarkerRules(p: Protocol, inputs: seq<string>, marker: Body)
    requires ForShard(p, inputs) && p.allowed(RAW_COMPLETED, marker)
    ensures p.needs(RAW_COMPLETED) == {INPUT_MANIFEST, RUN_SUMMARY} + Triplets(inputs)
    ensures marker.Document? && |marker.results| == 1 && marker.results[0].key == RUN_SUMMARY
    ensures marker.results[0] in Refs(marker)
  {
    assert p.allowed(RAW_COMPLETED, marker) <==> Allowed(inputs, RAW_COMPLETED, marker);
  }

  /**
   * Any number of guarded writers on the shard, interleaved and crashing as they like. A
   * metrics object is its source's own, and its Pages and Links objects have the bytes and
   * digests it records. RAW-SHARD-COMPLETED means that this holds for every input, that the
   * summary has the digest the marker records, and that it lists for each input, in order, a
   * Pages and a Links object that are there byte for byte.
   */
  lemma RawCompletedIsWhole(p: Protocol, inputs: seq<string>, writers: nat, steps: seq<Step>)
    requires ForShard(p, inputs)
    ensures var store := Run(p, Start(writers), steps).store;
            && (forall s | Artifact(Metrics, s) in store :: VouchedFor(p, store, s))
            && (RAW_COMPLETED in store ==> Whole(p, store, inputs))
  {
    assert Inv(p, Start(writers));
    RunInv(p, Start(writers), steps);
    var store := Run(p, Start(writers), steps).store;
    forall s | Artifact(Metrics, s) in store
      ensures VouchedFor(p, store, s)
    {
      MetricsVouch(p, inputs, store, s);
    }
    if RAW_COMPLETED in store {
      MarkerMeansWhole(p, inputs, store);
    }
  }

  // ---------------------------------------------------------------- when the next attempt completes

  /** Before a summary: a lone reliable attempt completes exactly when the pending sources parse and fit what is there. */
  lemma CompletesBeforeSummary(p: Protocol, store: Store, c: Contract, a: Attempt)
    requires Closed(p, store) && ForShard(p, c.inputs) && RUN_SUMMARY !in store
    ensures Completes(p, store, c, a) <==>
              Agrees(p, store, INPUT_MANIFEST, ManifestBody(c, a)) && AllPublishable(p, store, a, Pending(store, c.inputs))
  {
    MarkerNeedsSummary(p, store, c.inputs);
  }

  /** Behind a summary without a marker: exactly when it would write that very summary again. */
  lemma CompletesBehindSummary(p: Protocol, store: Store, c: Contract, a: Attempt)
    requires CollisionFree(p) && Closed(p, store) && ForShard(p, c.inputs)
    requires RUN_SUMMARY in store && RAW_COMPLETED !in store
    ensures Completes(p, store, c, a) <==>
              Agrees(p, store, INPUT_MANIFEST, ManifestBody(c, a)) && store[RUN_SUMMARY].body == SummaryOf(p, store, c, a)
  {
    NothingPending(p, store, c.inputs);
    assert store[RUN_SUMMARY].sha == p.sha(store[RUN_SUMMARY].body);
  }

  /** On a finished shard: exactly when it would write the same summary and the same marker again. */
  lemma CompletesWhenFinished(p: Protocol, store: Store, c: Contract, a: Attempt)
    requires CollisionFree(p) && Closed(p, store) && ForShard(p, c.inputs) && RAW_COMPLETED in store
    ensures RUN_SUMMARY in store
    ensures Completes(p, store, c, a) <==>
              && Agrees(p, store, INPUT_MANIFEST, ManifestBody(c, a))
              && store[RUN_SUMMARY].body == SummaryOf(p, store, c, a)
              && store[RAW_COMPLETED].body == CompletionBody(c, a, RefTo(p, RUN_SUMMARY, store[RUN_SUMMARY].body))
  {
    MarkerNeedsSummary(p, store, c.inputs);
    NothingPending(p, store, c.inputs);
    assert store[RUN_SUMMARY].sha == p.sha(store[RUN_SUMMARY].body);
    assert store[RAW_COMPLETED].sha == p.sha(store[RAW_COMPLETED].body);
  }

  // ---------------------------------------------------------------- a crash between summary and marker

  datatype Try = Try(attempt: Attempt, after: Store, completed: bool)

  function Last(start: Store, tries: seq<Try>): Store {
    if tries == [] then start else tries[|tries| - 1].after
  }

  /** The run at this place found what the one before it left, or the start. */
  ghost predicate RanAt(p: Protocol, c: Contract, start: Store, tries: seq<Try>, i: nat)
    requires i < |tries|
  {
    Outcome(p, c, tries[i].attempt, if i == 0 then start else tries[i - 1].after, tries[i].after, tries[i].completed)
  }

  /** Attempts one after the other, none overlapping, each killed or failing anywhere. */
  ghost predicate History(p: Protocol, c: Contract, start: Store, tries: seq<Try>) {
    forall i: nat | i < |tries| :: RanAt(p, c, start, tries, i)
  }

  /** The runs before the last are a history, and the last one found what they left. */
  lemma LastRun(p: Protocol, c: Contract, start: Store, tries: seq<Try>)
    requires History(p, c, start, tries) && tries != []
    ensures History(p, c, start, tries[..|tries| - 1]) && RanAt(p, c, start, tries, |tries| - 1)
    ensures Last(start, tries[..|tries| - 1]) == if |tries| == 1 then start else tries[|tries| - 2].after
  {
    var front := tries[..|tries| - 1];
    forall i: nat | i < |front|
      ensures RanAt(p, c, start, front, i)
    {
      assert RanAt(p, c, start, tries, i);
    }
  }

  /** The summary in the store is one that an attempt with something to process made. */
  ghost predicate SummaryOfWork(c: Contract, store: Store) {
    RUN_SUMMARY in store
    && exists first, recovered, processed, uploads, reports ::
         processed > 0 && store[RUN_SUMMARY].body == SummaryBody(c, first, recovered, processed, uploads, reports)
  }

  /** A resumed attempt has nothing left to process, so its summary cannot be the one already stored. */
  lemma ResumedSummaryDiffers(p: Protocol, c: Contract, store: Store, a: Attempt)
    requires CollisionFree(p) && Closed(p, store) && ForShard(p, c.inputs) && SummaryOfWork(c, store)
    ensures !Agrees(p, store, RUN_SUMMARY, SummaryOf(p, store, c, a)) && !Completes(p, store, c, a)
  {
    NothingPending(p, store, c.inputs);
    var again := SummaryOf(p, store, c, a);
    var first, recovered, processed, uploads, reports :|
      processed > 0 && store[RUN_SUMMARY].body == SummaryBody(c, first, recovered, processed, uploads, reports);
    assert again.fields["files_processed_this_attempt"] == Number(0);
    assert store[RUN_SUMMARY].body.fields["files_processed_this_attempt"] == Number(processed);
    assert store[RUN_SUMMARY].sha == p.sha(store[RUN_SUMMARY].body);
  }

  /** No later attempt can build the summary that is already there. */
  ghost predicate Alien(p: Protocol, c: Contract, store: Store) {
    RUN_SUMMARY in store && forall a :: !Agrees(p, store, RUN_SUMMARY, SummaryOf(p, store, c, a))
  }

  lemma {:induction false} AlienForever(p: Protocol, c: Contract, start: Store, tries: seq<Try>)
    requires Alien(p, c, start) && History(p, c, start, tries)
    ensures Last(start, tries) == start && forall t | t in tries :: t.after == start && !t.completed
  {
    if tries != [] {
      var front, last := tries[..|tries| - 1], tries[|tries| - 1];
      LastRun(p, c, start, tries);
      AlienForever(p, c, start, front);
      assert Outcome(p, c, last.attempt, start, last.after, last.completed);
      SplitLast(tries);
    }
  }

  lemma WorkIsAlien(p: Protocol, c: Contract, store: Store)
    requires CollisionFree(p) && Closed(p, store) && ForShard(p, c.inputs) && SummaryOfWork(c, store)
    ensures Alien(p, c, store)
  {
    forall a
      ensures !Agrees(p, store, RUN_SUMMARY, SummaryOf(p, store, c, a))
    {
      ResumedSummaryDiffers(p, c, store, a);
    }
  }

  /**
   * The gap in `run_shard`: once an attempt that had something to process has stored its
   * run-summary.json but not the marker, no later attempt stores the marker or completes,
   * although every triplet is in place.
   */
  lemma CrashBeforeMarkerSticks(p: Protocol, c: Contract, start: Store, tries: seq<Try>)
    requires CollisionFree(p) && Closed(p, start) && ForShard(p, c.inputs)
    requires SummaryOfWork(c, start) && RAW_COMPLETED !in start && History(p, c, start, tries)
    ensures forall s | s in c.inputs :: VouchedFor(p, start, s)
    ensures forall t | t in tries :: t.after == start && RAW_COMPLETED !in t.after && !t.completed
  {
    SummaryNeedsAll(p, start, c.inputs);
    forall s | s in c.inputs
      ensures VouchedFor(p, start, s)
    {
      assert Artifact(Metrics, s) in Triplets(c.inputs);
      MetricsVouch(p, c.inputs, start, s);
    }
    WorkIsAlien(p, c, start);
    AlienForever(p, c, start, tries);
  }

  /**
   * A finished shard stays exactly as it is, whatever runs on it; and when its summary counts a
   * processed source, no rerun reports success, since `run_shard` never looks at the marker.
   */
  lemma {:induction false} FinishedStays(p: Protocol, c: Contract, start: Store, tries: seq<Try>)
    requires Closed(p, start) && ForShard(p, c.inputs) && RAW_COMPLETED in start && History(p, c, start, tries)
    ensures Last(start, tries) == start && forall t | t in tries :: t.after == start
    ensures CollisionFree(p) && SummaryOfWork(c, start) ==> forall t | t in tries :: !t.completed
  {
    if tries != [] {
      var front, last := tries[..|tries| - 1], tries[|tries| - 1];
      LastRun(p, c, start, tries);
      FinishedStays(p, c, start, front);
      assert Outcome(p, c, last.attempt, start, last.after, last.completed);
      SplitLast(tries);
      if CollisionFree(p) && SummaryOfWork(c, start) {
        ResumedSummaryDiffers(p, c, start, last.attempt);
      }
    }
  }
}
