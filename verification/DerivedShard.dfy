/**
One derived backlink shard: collect the files a build left behind, publish them, then the
publication manifest, then the completion marker. A marker already in place is honoured
before anything else is touched.
*/
module DerivedShard {
  import opened Wrappers
  import opened Collections
  import opened Publication
  import opened ObjectStore

  const CRAWL := "CC-MAIN-2026-30"
  const SOURCE_PLAN := Control("source-plan.json")
  const PUBLICATION := Control("DERIVED-PUBLICATION-MANIFEST.json")
  const DERIVED_COMPLETED := Control("DERIVED-SHARD-COMPLETED.json")

  datatype Contract = Contract(metadata: map<string, Scalar>, shard: string, inputs: seq<string>)

  /** A regular file below the crawl directory of the build output. */
  datatype File = File(relative: string, content: seq<int>)

  /**
   * One attempt: the build's files in sorted order (None when the build raises), the metrics
   * file with its timings, the other manifest fields, and the marker's clock reading.
   */
  datatype Attempt = Attempt(
    files: Option<seq<File>>, metrics: seq<int>, detail: map<string, Scalar>, completedAt: string)

  datatype DeriveError = Store(why: StoreError) | MarkerConflict | BuildFailed | OutsideShard | DuplicateKeys

  datatype Outcome = Reused | Published(uploaded: nat, reused: nat)

  // ---------------------------------------------------------------- collecting

  predicate StartsWith(text: string, prefix: string) {
    prefix <= text
  }

  predicate Approved(shard: string, relative: string) {
    || StartsWith(relative, "dataset=backlink-details/input_shard=" + shard + "/")
    || StartsWith(relative, "dataset=backlink-host-rollups/input_shard=" + shard + "/")
  }

  function FileKey(file: File): Key {
    Output(CRAWL_PREFIX + file.relative)
  }

  function MetricsKey(shard: string): Key {
    Output("metrics/derive-" + shard + ".json")
  }

  /** The keys and bodies an approved set of files is published under, metrics last. */
  function Parts(shard: string, files: seq<File>, metrics: seq<int>): (r: seq<(Key, Body)>)
    ensures |r| == |files| + 1
  {
    seq(|files|, i requires 0 <= i < |files| => (FileKey(files[i]), Blob(files[i].content)))
    + [(MetricsKey(shard), Blob(metrics))]
  }

  predicate DistinctPaths(files: seq<File>) {
    forall i: nat, j: nat | i < j < |files| :: files[i].relative != files[j].relative
  }

  ghost predicate DistinctKeys(parts: seq<(Key, Body)>) {
    forall i: nat, j: nat | i < j < |parts| :: parts[i].0 != parts[j].0
  }

  /** A directory walk names each path once, so no two published keys can clash. */
  lemma KeysDistinct(shard: string, files: seq<File>, metrics: seq<int>)
    requires DistinctPaths(files)
    ensures DistinctKeys(Parts(shard, files, metrics))
  {
    var parts := Parts(shard, files, metrics);
    forall i: nat, j: nat | i < j < |parts|
      ensures parts[i].0 != parts[j].0
    {
      if j == |files| {
        assert parts[i].0.path[0] == 'c' && parts[j].0.path[0] == 'm';
      } else {
        var head := CRAWL_PREFIX;
        assert parts[i].0.path[|head|..] == files[i].relative && parts[j].0.path[|head|..] == files[j].relative;
      }
    }
  }

  lemma {:induction false} KeysCounted(parts: seq<(Key, Body)>)
    requires DistinctKeys(parts)
    ensures |KeysOf(parts)| == |parts|
  {
    if parts != [] {
      var n := |parts| - 1;
      KeysCounted(parts[..n]);
      KeysStep(parts, n);
      assert parts[..n + 1] == parts;
    }
  }

  /** `_collect_publication`: refuse any file outside this shard's two datasets. Its duplicate check never fires. */
  method CollectPublication(shard: string, files: seq<File>, metrics: seq<int>) returns (r: Result<seq<(Key, Body)>, DeriveError>)
    requires DistinctPaths(files)
    ensures r.Success? <==>
              forall i: nat | i < |files| ::
                || "dataset=backlink-details/input_shard=" + shard + "/" <= files[i].relative
                || "dataset=backlink-host-rollups/input_shard=" + shard + "/" <= files[i].relative
    ensures r.Success? <==> forall i: nat | i < |files| :: Approved(shard, files[i].relative)
    ensures r.Success? ==> r.value == Parts(shard, files, metrics) && DistinctKeys(r.value)
    ensures r.Failure? ==> r.error == OutsideShard
  {
    var parts: seq<(Key, Body)> := [];
    for i := 0 to |files|
      invariant parts == Parts(shard, files, metrics)[..i]
      invariant forall j: nat | j < i :: Approved(shard, files[j].relative)
    {
      if !Approved(shard, files[i].relative) {
        return Failure(OutsideShard);
      }
      parts := parts + [(FileKey(files[i]), Blob(files[i].content))];
    }
    parts := parts + [(MetricsKey(shard), Blob(metrics))];
    KeysDistinct(shard, files, metrics);
    KeysCounted(parts);
    if parts == [] || |KeysOf(parts)| != |parts| {
      return Failure(DuplicateKeys);
    }
    r := Success(parts);
  }

  // ---------------------------------------------------------------- the write discipline

  function Needs(key: Key): set<Key> {
    if key == DERIVED_COMPLETED then {SOURCE_PLAN, PUBLICATION}
    else if key == PUBLICATION || key.Output? then {SOURCE_PLAN}
    else {}
  }

  const CRAWL_PREFIX := "crawl=" + CRAWL + "/"

  /** A key under one of the shard's two datasets. */
  predicate ApprovedKey(shard: string, key: Key) {
    key.Output? && StartsWith(key.path, CRAWL_PREFIX) && Approved(shard, key.path[|CRAWL_PREFIX|..])
  }

  /** A publication manifest lists distinct objects of the shard, the metrics file last. */
  predicate PublicationShape(shard: string, body: Body) {
    && body.Document? && body.results != []
    && (forall i: nat | i < |body.results| - 1 :: ApprovedKey(shard, body.results[i].key))
    && body.results[|body.results| - 1].key == MetricsKey(shard)
    && forall i: nat, j: nat | i < j < |body.results| :: body.results[i].key != body.results[j].key
  }

  /** A completion marker records the manifest and nothing else. */
  predicate MarkerShape(body: Body) {
    body.Document? && |body.results| == 1 && body.results[0].key == PUBLICATION
  }

  predicate Allowed(shard: string, key: Key, body: Body) {
    && (key.Control? <==> body.Document?)
    && (key == PUBLICATION ==> PublicationShape(shard, body))
    && (key == DERIVED_COMPLETED ==> MarkerShape(body))
  }

  ghost predicate ForShard(p: Protocol, shard: string) {
    && (forall key :: p.needs(key) == Needs(key))
    && (forall key, body :: p.allowed(key, body) <==> Allowed(shard, key, body))
  }

  function RefsOf(p: Protocol, parts: seq<(Key, Body)>): (r: seq<Ref>)
    ensures |r| == |parts| && forall i: nat | i < |parts| :: r[i] == RefTo(p, parts[i].0, parts[i].1)
  {
    seq(|parts|, i requires 0 <= i < |parts| => RefTo(p, parts[i].0, parts[i].1))
  }

  function PlanBody(c: Contract): Body {
    Document(c.metadata + map["kind" := Text("growthsent-gcp-r2-derived-source-plan"), "entries" := Texts(c.inputs)], [], [])
  }

  function ManifestBody(p: Protocol, c: Contract, a: Attempt, parts: seq<(Key, Body)>): Body {
    Document(c.metadata + a.detail + map["kind" := Text("growthsent-gcp-r2-derived-publication")], [], RefsOf(p, parts))
  }

  /** The marker records the publication manifest it stands for. */
  function CompletionBody(c: Contract, a: Attempt, manifest: Ref): Body {
    Document(
      c.metadata
      + map["kind" := Text("growthsent-gcp-r2-derived-shard-completed"), "completed_at" := Text(a.completedAt)],
      [], [manifest])
  }

  /** A source plan of this shard: its metadata and its ordered inputs. */
  predicate Plans(body: Body, c: Contract) {
    && SaysMetadata(body, c.metadata, {"kind", "entries"})
    && Says(body, "kind", Text("growthsent-gcp-r2-derived-source-plan")) && Says(body, "entries", Texts(c.inputs))
  }

  /** A publication manifest of this build: its metadata and details, and each file under its own key, metrics last. */
  predicate Publishes(p: Protocol, body: Body, c: Contract, a: Attempt) {
    && SaysMetadata(body, c.metadata, {"kind"} + a.detail.Keys) && SaysMetadata(body, a.detail, {"kind"})
    && Says(body, "kind", Text("growthsent-gcp-r2-derived-publication"))
    && a.files.Some? && body.Document? && |body.results| == |a.files.value| + 1
    && (forall i: nat | i < |a.files.value| ::
          body.results[i] == RefTo(p, Output("crawl=CC-MAIN-2026-30/" + a.files.value[i].relative), Blob(a.files.value[i].content)))
    && body.results[|a.files.value|] == RefTo(p, Output("metrics/derive-" + c.shard + ".json"), Blob(a.metrics))
  }

  /** A completion marker of this shard, over this very manifest. */
  predicate Completed(body: Body, c: Contract, completedAt: string, manifest: Ref) {
    && SaysMetadata(body, c.metadata, {"kind", "completed_at"})
    && Says(body, "kind", Text("growthsent-gcp-r2-derived-shard-completed")) && Says(body, "completed_at", Text(completedAt))
    && body.Document? && body.results == [manifest]
  }

  lemma PlanSays(c: Contract)
    ensures Plans(PlanBody(c), c)
  {
  }

  lemma ManifestSays(p: Protocol, c: Contract, a: Attempt)
    requires a.files.Some?
    ensures Publishes(p, ManifestBody(p, c, a, PartsOf(c, a)), c, a)
  {
    assert CRAWL_PREFIX == "crawl=CC-MAIN-2026-30/";
  }

  lemma MarkerSays(c: Contract, a: Attempt, manifest: Ref)
    ensures Completed(CompletionBody(c, a, manifest), c, a.completedAt, manifest)
  {
  }

  predicate SameShard(c: Contract, body: Body) {
    body.Document? && forall name | name in c.metadata :: name in body.fields && body.fields[name] == c.metadata[name]
  }

  predicate Uploadable(p: Protocol, store: Store, key: Key, body: Body) {
    if key in store then Present(p, store, RefTo(p, key, body))
    else body.Blob? ==> p.size(body) <= MAX_SINGLE_PUT_BYTES
  }

  function Put(p: Protocol, store: Store, key: Key, body: Body): Store {
    if key in store then store else WithObject(p, store, key, body)
  }

  method Upload(store: R2Store, key: Key, body: Body) returns (r: Result<bool, DeriveError>)
    requires store.Valid() && Supported(store.p, store.sys.store, key, body)
    modifies store
    ensures store.Valid() && Grows(old(store.sys.store), store.sys.store)
    ensures r.Success? ==> Present(store.p, store.sys.store, RefTo(store.p, key, body))
    ensures old(store.Alone()) ==>
              && store.Alone()
              && (store.sys.store == old(store.sys.store) || store.sys.store == Put(store.p, old(store.sys.store), key, body))
              && store.sys.store.Keys <= old(store.sys.store).Keys + {key}
              && (r.Success? ==> store.sys.store == Put(store.p, old(store.sys.store), key, body))
              && (r.Success? ==> (r.value <==> old(key in store.sys.store)))
    ensures old(store.Alone() && store.Reliable()) ==>
              store.Reliable() && (r.Success? <==> Uploadable(store.p, old(store.sys.store), key, body))
  {
    var uploaded := store.UploadImmutable(key, body);
    r := if uploaded.Failure? then Failure(Store(uploaded.error)) else Success(uploaded.value.reused);
  }

  // ---------------------------------------------------------------- publishing

  ghost predicate AllPresent(p: Protocol, store: Store, parts: seq<(Key, Body)>) {
    forall i: nat | i < |parts| :: Present(p, store, RefTo(p, parts[i].0, parts[i].1))
  }

  lemma AllPresentGrows(p: Protocol, store: Store, later: Store, parts: seq<(Key, Body)>)
    requires AllPresent(p, store, parts) && Grows(store, later)
    ensures AllPresent(p, later, parts)
  {
    forall i: nat | i < |parts|
      ensures Present(p, later, RefTo(p, parts[i].0, parts[i].1))
    {
      assert Present(p, store, RefTo(p, parts[i].0, parts[i].1));
    }
  }

  /** The first `n` parts would each go through on a quiet store. */
  ghost predicate AllUploadable(p: Protocol, store: Store, parts: seq<(Key, Body)>, n: nat)
    requires n <= |parts|
  {
    forall i: nat | i < n :: Uploadable(p, store, parts[i].0, parts[i].1)
  }

  function KeysOf(parts: seq<(Key, Body)>): set<Key> {
    set part | part in parts :: part.0
  }

  ghost predicate OnlyParts(before: Store, store: Store, parts: seq<(Key, Body)>) {
    Grows(before, store) && store.Keys <= before.Keys + KeysOf(parts)
  }

  lemma NextUntouched(p: Protocol, before: Store, store: Store, parts: seq<(Key, Body)>, i: nat)
    requires i < |parts| && DistinctKeys(parts) && OnlyParts(before, store, parts[..i])
    ensures Uploadable(p, store, parts[i].0, parts[i].1) <==> Uploadable(p, before, parts[i].0, parts[i].1)
    ensures parts[i].0 in store <==> parts[i].0 in before
  {
    assert parts[i].0 !in KeysOf(parts[..i]);
  }

  lemma KeysStep(parts: seq<(Key, Body)>, i: nat)
    requires i < |parts|
    ensures KeysOf(parts[..i + 1]) == KeysOf(parts[..i]) + {parts[i].0}
    ensures KeysOf(parts[..i + 1]) <= KeysOf(parts)
  {
    assert parts[..i + 1] == parts[..i] + [parts[i]];
  }

  /** The state of the upload loop; `before` is the store it started from if nobody else is writing. */
  ghost predicate Publishing(p: Protocol, before: Option<Store>, store: Store, done: seq<(Key, Body)>, uploaded: nat, reused: nat) {
    && AllPresent(p, store, done) && uploaded + reused == |done|
    && (before.Some? ==> OnlyParts(before.value, store, done) && reused == AlreadyThere(before.value, done))
  }

  /** How many of the parts the store had under their keys. */
  ghost function AlreadyThere(before: Store, parts: seq<(Key, Body)>): nat {
    Count(parts, (part: (Key, Body)) => part.0 in before)
  }

  lemma OnlyOneMore(before: Store, store: Store, later: Store, parts: seq<(Key, Body)>, i: nat)
    requires i < |parts| && OnlyParts(before, store, parts[..i]) && Grows(store, later) && later.Keys <= store.Keys + {parts[i].0}
    ensures OnlyParts(before, later, parts[..i + 1]) && OnlyParts(before, later, parts)
  {
    KeysStep(parts, i);
  }

  lemma PublishingStep(p: Protocol, before: Option<Store>, store: Store, later: Store, parts: seq<(Key, Body)>, i: nat,
                       uploaded: nat, reused: nat, again: bool)
    requires i < |parts| && Publishing(p, before, store, parts[..i], uploaded, reused) && Grows(store, later)
    requires before.Some? ==> later.Keys <= store.Keys + {parts[i].0} && (again <==> parts[i].0 in before.value)
    ensures before.Some? ==> OnlyParts(before.value, later, parts)
    ensures Present(p, later, RefTo(p, parts[i].0, parts[i].1)) ==>
              Publishing(p, before, later, parts[..i + 1], if again then uploaded else uploaded + 1, if again then reused + 1 else reused)
  {
    AllPresentGrows(p, store, later, parts[..i]);
    KeysStep(parts, i);
    assert parts[..i + 1] == parts[..i] + [parts[i]];
  }

  lemma FileSupported(p: Protocol, shard: string, store: Store, key: Key, body: Body)
    requires ForShard(p, shard) && SOURCE_PLAN in store && key.Output? && body.Blob?
    ensures Supported(p, store, key, body)
  {
    assert p.needs(key) == Needs(key);
    assert p.allowed(key, body) <==> Allowed(shard, key, body);
  }

  /** One upload of the loop. */
  method PublishPart(store: R2Store, shard: string, parts: seq<(Key, Body)>, i: nat, uploaded: nat, reused: nat, ghost before: Option<Store>)
    returns (r: Result<bool, DeriveError>)
    requires store.Valid() && ForShard(store.p, shard) && SOURCE_PLAN in store.sys.store && DistinctKeys(parts)
    requires i < |parts| && parts[i].0.Output? && parts[i].1.Blob?
    requires before.Some? ==> store.Alone()
    requires Publishing(store.p, before, store.sys.store, parts[..i], uploaded, reused)
    modifies store
    ensures store.Valid() && Grows(old(store.sys.store), store.sys.store)
    ensures before.Some? ==> store.Alone() && OnlyParts(before.value, store.sys.store, parts)
    ensures r.Success? ==>
              Publishing(store.p, before, store.sys.store, parts[..i + 1],
                         if r.value then uploaded else uploaded + 1, if r.value then reused + 1 else reused)
    ensures before.Some? && old(store.Reliable()) ==>
              store.Reliable() && (r.Success? <==> Uploadable(store.p, before.value, parts[i].0, parts[i].1))
  {
    ghost var seen := store.sys.store;
    if before.Some? {
      NextUntouched(store.p, before.value, seen, parts, i);
    }
    FileSupported(store.p, shard, seen, parts[i].0, parts[i].1);
    r := Upload(store, parts[i].0, parts[i].1);
    if r.Success? {
      PublishingStep(store.p, before, seen, store.sys.store, parts, i, uploaded, reused, r.value);
    } else if before.Some? {
      OnlyOneMore(before.value, seen, store.sys.store, parts, i);
    }
  }

  /** The upload loop of `run_shard`. */
  method PublishParts(store: R2Store, shard: string, parts: seq<(Key, Body)>, ghost before: Option<Store>) returns (r: Result<Outcome, DeriveError>)
    requires store.Valid() && ForShard(store.p, shard) && SOURCE_PLAN in store.sys.store && DistinctKeys(parts)
    requires forall part | part in parts :: part.0.Output? && part.1.Blob?
    requires before.Some? ==> store.Alone() && before.value == store.sys.store
    modifies store
    ensures store.Valid() && Grows(old(store.sys.store), store.sys.store)
    ensures r.Success? ==>
              && AllPresent(store.p, store.sys.store, parts)
              && r.value.Published? && r.value.uploaded + r.value.reused == |parts|
    ensures before.Some? ==> store.Alone() && OnlyParts(before.value, store.sys.store, parts)
    ensures before.Some? && r.Success? ==> r.value.reused == AlreadyThere(before.value, parts)
    ensures before.Some? && old(store.Reliable()) ==>
              store.Reliable() && (r.Success? <==> AllUploadable(store.p, before.value, parts, |parts|))
  {
    var uploaded, reused := 0, 0;
    TakeAll(parts);
    for i := 0 to |parts|
      invariant store.Valid() && Grows(old(store.sys.store), store.sys.store)
      invariant Publishing(store.p, before, store.sys.store, parts[..i], uploaded, reused)
      invariant before.Some? ==> store.Alone()
      invariant before.Some? && old(store.Reliable()) ==>
                  store.Reliable() && AllUploadable(store.p, before.value, parts, i)
    {
      assert parts[i] in parts;
      var again :- PublishPart(store, shard, parts, i, uploaded, reused, before);
      if again {
        reused := reused + 1;
      } else {
        uploaded := uploaded + 1;
      }
    }
    r := Success(Published(uploaded, reused));
  }

  lemma PartsAreFiles(shard: string, files: seq<File>, metrics: seq<int>)
    ensures forall part | part in Parts(shard, files, metrics) :: part.0.Output? && part.1.Blob?
  {
  }

  lemma ControlUntouched(p: Protocol, before: Store, later: Store, parts: seq<(Key, Body)>, key: Key, body: Body)
    requires OnlyParts(before, later, parts) && key.Control? && forall part | part in parts :: part.0.Output?
    ensures Uploadable(p, later, key, body) <==> Uploadable(p, before, key, body)
    ensures key in later <==> key in before
  {
  }

  /** The manifest of an approved set of files has the shape of one. */
  lemma ManifestHasShape(p: Protocol, c: Contract, a: Attempt)
    requires Collectable(c, a) && DistinctPaths(a.files.value)
    ensures PublicationShape(c.shard, ManifestBody(p, c, a, PartsOf(c, a)))
  {
    var parts := PartsOf(c, a);
    KeysDistinct(c.shard, a.files.value, a.metrics);
    forall i: nat | i < |a.files.value|
      ensures ApprovedKey(c.shard, parts[i].0)
    {
      assert (CRAWL_PREFIX + a.files.value[i].relative)[|CRAWL_PREFIX|..] == a.files.value[i].relative;
    }
  }

  lemma PartsSupport(p: Protocol, store: Store, c: Contract, a: Attempt)
    requires ForShard(p, c.shard) && SOURCE_PLAN in store && Collectable(c, a) && DistinctPaths(a.files.value)
    requires AllPresent(p, store, PartsOf(c, a))
    ensures Supported(p, store, PUBLICATION, ManifestBody(p, c, a, PartsOf(c, a)))
  {
    var parts := PartsOf(c, a);
    var body := ManifestBody(p, c, a, parts);
    ManifestHasShape(p, c, a);
    assert p.needs(PUBLICATION) == Needs(PUBLICATION);
    assert p.allowed(PUBLICATION, body) <==> Allowed(c.shard, PUBLICATION, body);
    forall r | r in Refs(body)
      ensures Present(p, store, r)
    {
      var i: nat :| i < |parts| && RefsOf(p, parts)[i] == r;
    }
  }

  lemma MarkerSupported(p: Protocol, store: Store, c: Contract, a: Attempt, manifest: Body)
    requires ForShard(p, c.shard) && SOURCE_PLAN in store && Present(p, store, RefTo(p, PUBLICATION, manifest))
    ensures Supported(p, store, DERIVED_COMPLETED, CompletionBody(c, a, RefTo(p, PUBLICATION, manifest)))
  {
    var body := CompletionBody(c, a, RefTo(p, PUBLICATION, manifest));
    assert p.needs(DERIVED_COMPLETED) == Needs(DERIVED_COMPLETED);
    assert p.allowed(DERIVED_COMPLETED, body) <==> Allowed(c.shard, DERIVED_COMPLETED, body);
  }

  lemma PlanSupported(p: Protocol, shard: string, store: Store, c: Contract)
    requires ForShard(p, shard)
    ensures Supported(p, store, SOURCE_PLAN, PlanBody(c))
  {
    assert p.needs(SOURCE_PLAN) == Needs(SOURCE_PLAN);
    assert p.allowed(SOURCE_PLAN, PlanBody(c)) <==> Allowed(shard, SOURCE_PLAN, PlanBody(c));
  }

  /** The build went through and wrote nothing outside the shard's two datasets. */
  predicate Collectable(c: Contract, a: Attempt) {
    a.files.Some? && forall i: nat | i < |a.files.value| :: Approved(c.shard, a.files.value[i].relative)
  }

  function PartsOf(c: Contract, a: Attempt): seq<(Key, Body)>
    requires a.files.Some?
  {
    Parts(c.shard, a.files.value, a.metrics)
  }

  /** The last two uploads. */
  method Mark(store: R2Store, c: Contract, a: Attempt) returns (r: Result<bool, DeriveError>)
    requires store.Valid() && ForShard(store.p, c.shard) && SOURCE_PLAN in store.sys.store
    requires Collectable(c, a) && DistinctPaths(a.files.value) && AllPresent(store.p, store.sys.store, PartsOf(c, a))
    modifies store
    ensures store.Valid() && Grows(old(store.sys.store), store.sys.store)
    ensures r.Success? ==> Marked(store.p, store.sys.store, c, a)
    ensures old(store.Alone()) ==> store.sys.store.Keys <= old(store.sys.store).Keys + {PUBLICATION, DERIVED_COMPLETED}
    ensures old(store.Alone() && DERIVED_COMPLETED !in store.sys.store) && DERIVED_COMPLETED in store.sys.store ==>
              Marked(store.p, store.sys.store, c, a)
    ensures old(store.Alone() && store.Reliable() && DERIVED_COMPLETED !in store.sys.store) ==>
              (r.Success? <==> Uploadable(store.p, old(store.sys.store), PUBLICATION, ManifestBody(store.p, c, a, PartsOf(c, a))))
  {
    PartsSupport(store.p, store.sys.store, c, a);
    var manifest := ManifestBody(store.p, c, a, PartsOf(c, a));
    var _ :- Upload(store, PUBLICATION, manifest);
    MarkerSupported(store.p, store.sys.store, c, a, manifest);
    r := Upload(store, DERIVED_COMPLETED, CompletionBody(c, a, RefTo(store.p, PUBLICATION, manifest)));
  }

  /** The attempt's own marker is there, and behind it its own manifest and all its files. */
  ghost predicate Marked(p: Protocol, store: Store, c: Contract, a: Attempt) {
    && Collectable(c, a) && DERIVED_COMPLETED in store
    && var manifest := RefTo(p, PUBLICATION, ManifestBody(p, c, a, PartsOf(c, a)));
       Present(p, store, manifest) && Present(p, store, RefTo(p, DERIVED_COMPLETED, CompletionBody(c, a, manifest)))
  }

  /** The three control documents say whose they are, and the last two record what they stand for. */
  ghost predicate Documented(p: Protocol, store: Store, c: Contract, a: Attempt) {
    && SOURCE_PLAN in store && Plans(store[SOURCE_PLAN].body, c)
    && PUBLICATION in store && Publishes(p, store[PUBLICATION].body, c, a)
    && DERIVED_COMPLETED in store
    && Completed(store[DERIVED_COMPLETED].body, c, a.completedAt, RefTo(p, PUBLICATION, store[PUBLICATION].body))
  }

  lemma MarkedIsDocumented(p: Protocol, store: Store, c: Contract, a: Attempt)
    requires CollisionFree(p) && Closed(p, store) && Marked(p, store, c, a) && Present(p, store, RefTo(p, SOURCE_PLAN, PlanBody(c)))
    ensures Documented(p, store, c, a)
  {
    var manifest := ManifestBody(p, c, a, PartsOf(c, a));
    var marker := CompletionBody(c, a, RefTo(p, PUBLICATION, manifest));
    StoredIs(p, store, SOURCE_PLAN, PlanBody(c));
    StoredIs(p, store, PUBLICATION, manifest);
    StoredIs(p, store, DERIVED_COMPLETED, marker);
    PlanSays(c);
    ManifestSays(p, c, a);
    MarkerSays(c, a, RefTo(p, PUBLICATION, manifest));
  }

  /** Exactly when an attempt left alone on an unfinished shard completes it. */
  ghost predicate Completes(p: Protocol, store: Store, c: Contract, a: Attempt) {
    && Uploadable(p, store, SOURCE_PLAN, PlanBody(c))
    && Collectable(c, a)
    && AllUploadable(p, store, PartsOf(c, a), |PartsOf(c, a)|)
    && Uploadable(p, store, PUBLICATION, ManifestBody(p, c, a, PartsOf(c, a)))
  }

  /**
   * What an attempt working alone may leave behind, wherever it stops: nothing on a finished
   * shard, and a marker only on top of all its own files and its own manifest.
   */
  ghost predicate Attempted(p: Protocol, c: Contract, a: Attempt, before: Store, after: Store, published: bool) {
    && Grows(before, after)
    && (DERIVED_COMPLETED in before ==> after == before && !published)
    && (published ==> DERIVED_COMPLETED in after)
    && (DERIVED_COMPLETED !in before && DERIVED_COMPLETED in after ==>
          Marked(p, after, c, a) && AllPresent(p, after, PartsOf(c, a)))
  }

  /** From the built files to the marker. */
  method Publish(store: R2Store, c: Contract, a: Attempt) returns (r: Result<Outcome, DeriveError>)
    requires store.Valid() && ForShard(store.p, c.shard) && SOURCE_PLAN in store.sys.store
    requires a.files.Some? ==> DistinctPaths(a.files.value)
    modifies store
    ensures store.Valid() && Grows(old(store.sys.store), store.sys.store)
    ensures r.Success? ==>
              && r.value.Published? && a.files.Some? && Marked(store.p, store.sys.store, c, a)
              && AllPresent(store.p, store.sys.store, PartsOf(c, a))
              && r.value.uploaded + r.value.reused == |a.files.value| + 1
    ensures old(store.Alone()) && r.Success? ==> r.value.reused == AlreadyThere(old(store.sys.store), PartsOf(c, a))
    ensures old(store.Alone() && DERIVED_COMPLETED !in store.sys.store) && DERIVED_COMPLETED in store.sys.store ==>
              Marked(store.p, store.sys.store, c, a) && AllPresent(store.p, store.sys.store, PartsOf(c, a))
    ensures old(store.Alone() && store.Reliable() && DERIVED_COMPLETED !in store.sys.store) ==>
              (r.Success? <==>
                 && Collectable(c, a)
                 && AllUploadable(store.p, old(store.sys.store), PartsOf(c, a), |PartsOf(c, a)|)
                 && Uploadable(store.p, old(store.sys.store), PUBLICATION, ManifestBody(store.p, c, a, PartsOf(c, a))))
  {
    ghost var start := store.sys.store;
    ghost var before := if store.Alone() then Some(start) else None;
    if a.files.None? {
      return Failure(BuildFailed);
    }
    var parts :- CollectPublication(c.shard, a.files.value, a.metrics);
    PartsAreFiles(c.shard, a.files.value, a.metrics);
    var counts := PublishParts(store, c.shard, parts, before);
    ghost var mid := store.sys.store;
    if before.Some? {
      ControlUntouched(store.p, start, mid, parts, PUBLICATION, ManifestBody(store.p, c, a, parts));
      ControlUntouched(store.p, start, mid, parts, DERIVED_COMPLETED, PlanBody(c));
    }
    if counts.Failure? {
      return Failure(counts.error);
    }
    var marked := Mark(store, c, a);
    AllPresentGrows(store.p, mid, store.sys.store, parts);
    r := if marked.Failure? then Failure(marked.error) else counts;
  }

  lemma PlanAside(p: Protocol, store: Store, c: Contract, parts: seq<(Key, Body)>, body: Body)
    requires forall part | part in parts :: part.0.Output?
    ensures var later := Put(p, store, SOURCE_PLAN, PlanBody(c));
            && (AllUploadable(p, later, parts, |parts|) <==> AllUploadable(p, store, parts, |parts|))
            && AlreadyThere(later, parts) == AlreadyThere(store, parts)
            && (Uploadable(p, later, PUBLICATION, body) <==> Uploadable(p, store, PUBLICATION, body))
            && (DERIVED_COMPLETED in later <==> DERIVED_COMPLETED in store)
  {
    var later := Put(p, store, SOURCE_PLAN, PlanBody(c));
    CountSame(parts, (part: (Key, Body)) => part.0 in later, (part: (Key, Body)) => part.0 in store);
    forall i: nat | i < |parts|
      ensures Uploadable(p, later, parts[i].0, parts[i].1) <==> Uploadable(p, store, parts[i].0, parts[i].1)
    {
      assert parts[i] in parts;
    }
  }

  /** `run_shard` after the lease: honour the marker, or build, publish and mark. */
  method RunShard(store: R2Store, c: Contract, a: Attempt) returns (r: Result<Outcome, DeriveError>)
    requires store.Valid() && ForShard(store.p, c.shard)
    requires a.files.Some? ==> DistinctPaths(a.files.value)
    modifies store
    ensures store.Valid() && Grows(old(store.sys.store), store.sys.store)
    ensures r.Success? ==> DERIVED_COMPLETED in store.sys.store
    ensures r.Success? && r.value.Published? ==>
              && Marked(store.p, store.sys.store, c, a) && AllPresent(store.p, store.sys.store, PartsOf(c, a))
              && (CollisionFree(store.p) ==> Documented(store.p, store.sys.store, c, a))
    ensures old(DERIVED_COMPLETED in store.sys.store) ==>
              && store.wrote == old(store.wrote)
              && (r.Success? ==> r.value == Reused)
              && (old(store.Reliable()) ==>
                    r == if SaysMetadata(old(store.sys.store)[DERIVED_COMPLETED].body, c.metadata, {}) then Success(Reused)
                         else Failure(MarkerConflict))
    ensures old(store.Alone()) && r.Success? && r.value.Published? ==>
              && r.value.reused == AlreadyThere(old(store.sys.store), PartsOf(c, a))
              && r.value.uploaded + r.value.reused == |PartsOf(c, a)|
    ensures old(store.Alone()) ==>
              Attempted(store.p, c, a, old(store.sys.store), store.sys.store, r.Success? && r.value.Published?)
    ensures old(store.Alone() && store.Reliable() && DERIVED_COMPLETED !in store.sys.store) ==>
              (r.Success? <==> Completes(store.p, old(store.sys.store), c, a))
  {
    var prior := store.ReadJson(DERIVED_COMPLETED);
    if prior.Failure? {
      MarkerIsDocument(store.p, c.shard, store.sys.store);
      return Failure(Store(prior.error));
    }
    if prior.value.Some? {
      return if SameShard(c, prior.value.value) then Success(Reused) else Failure(MarkerConflict);
    }
    r := Derive(store, c, a);
  }

  /** The part of `run_shard` that is reached when no completion marker was found. */
  method Derive(store: R2Store, c: Contract, a: Attempt) returns (r: Result<Outcome, DeriveError>)
    requires store.Valid() && ForShard(store.p, c.shard)
    requires a.files.Some? ==> DistinctPaths(a.files.value)
    modifies store
    ensures store.Valid() && Grows(old(store.sys.store), store.sys.store)
    ensures r.Success? ==>
              && r.value.Published? && DERIVED_COMPLETED in store.sys.store
              && Marked(store.p, store.sys.store, c, a) && AllPresent(store.p, store.sys.store, PartsOf(c, a))
              && (CollisionFree(store.p) ==> Documented(store.p, store.sys.store, c, a))
    ensures old(store.Alone()) && r.Success? ==>
              && r.value.reused == AlreadyThere(old(store.sys.store), PartsOf(c, a))
              && r.value.uploaded + r.value.reused == |PartsOf(c, a)|
    ensures old(store.Alone() && DERIVED_COMPLETED !in store.sys.store) ==>
              Attempted(store.p, c, a, old(store.sys.store), store.sys.store, r.Success?)
    ensures old(store.Alone() && store.Reliable() && DERIVED_COMPLETED !in store.sys.store) ==>
              (r.Success? <==> Completes(store.p, old(store.sys.store), c, a))
  {
    ghost var start := store.sys.store;
    PlanSupported(store.p, c.shard, start, c);
    var plan :- Upload(store, SOURCE_PLAN, PlanBody(c));
    if a.files.Some? {
      PartsAreFiles(c.shard, a.files.value, a.metrics);
      PlanAside(store.p, start, c, PartsOf(c, a), ManifestBody(store.p, c, a, PartsOf(c, a)));
    }
    r := Publish(store, c, a);
    if r.Success? && CollisionFree(store.p) {
      MarkedIsDocumented(store.p, store.sys.store, c, a);
    }
  }

  lemma MarkerIsDocument(p: Protocol, shard: string, store: Store)
    requires Closed(p, store) && ForShard(p, shard)
    ensures DERIVED_COMPLETED in store ==> store[DERIVED_COMPLETED].body.Document?
  {
    if DERIVED_COMPLETED in store {
      assert Supported(p, store, DERIVED_COMPLETED, store[DERIVED_COMPLETED].body);
      assert p.allowed(DERIVED_COMPLETED, store[DERIVED_COMPLETED].body) <==>
             Allowed(shard, DERIVED_COMPLETED, store[DERIVED_COMPLETED].body);
    }
  }

  // ---------------------------------------------------------------- what readers may rely on

  /** The marker records the stored manifest, which lists the shard's objects, each as it is. */
  ghost predicate Whole(p: Protocol, store: Store, shard: string) {
    && {SOURCE_PLAN, PUBLICATION, DERIVED_COMPLETED} <= store.Keys
    && store[DERIVED_COMPLETED].body.Document?
    && store[DERIVED_COMPLETED].body.results == [RefTo(p, PUBLICATION, store[PUBLICATION].body)]
    && store[PUBLICATION].body.Document?
    && var listed := store[PUBLICATION].body.results;
       && listed != [] && listed[|listed| - 1].key == Output("metrics/derive-" + shard + ".json")
       && (forall i: nat | i < |listed| - 1 :: InDataset(shard, listed[i].key))
       && (forall i: nat, j: nat | i < j < |listed| :: listed[i].key != listed[j].key)
       && forall r | r in listed ::
            r.key in store && p.size(store[r.key].body) == r.bytes && p.sha(store[r.key].body) == r.sha
  }

  /** An object of the shard's backlink details or host rollups. */
  ghost predicate InDataset(shard: string, key: Key) {
    && key.Output?
    && ("crawl=CC-MAIN-2026-30/" + ("dataset=backlink-details/input_shard=" + shard + "/") <= key.path
        || "crawl=CC-MAIN-2026-30/" + ("dataset=backlink-host-rollups/input_shard=" + shard + "/") <= key.path)
  }

  lemma ApprovedIsInDataset(shard: string, key: Key)
    ensures ApprovedKey(shard, key) <==> InDataset(shard, key)
  {
    assert CRAWL_PREFIX == "crawl=CC-MAIN-2026-30/";
    if key.Output? {
      InOneDataset("dataset=backlink-details/input_shard=" + shard + "/", key.path);
      InOneDataset("dataset=backlink-host-rollups/input_shard=" + shard + "/", key.path);
    }
  }

  lemma InOneDataset(tail: string, text: string)
    ensures CRAWL_PREFIX + tail <= text <==> CRAWL_PREFIX <= text && tail <= text[|CRAWL_PREFIX|..]
  {
    if CRAWL_PREFIX + tail <= text {
      assert text[..|CRAWL_PREFIX|] == (CRAWL_PREFIX + tail)[..|CRAWL_PREFIX|];
    }
    if CRAWL_PREFIX <= text {
      BehindPrefix(CRAWL_PREFIX, tail, text);
    }
  }

  lemma BehindPrefix(head: string, tail: string, text: string)
    requires head <= text
    ensures tail <= text[|head|..] <==> head + tail <= text
  {
    if head + tail <= text {
      assert text[|head|..][..|tail|] == (head + tail)[|head|..];
    }
    if tail <= text[|head|..] {
      assert text[..|head| + |tail|] == head + text[|head|..][..|tail|];
    }
  }

  lemma MarkerMeansWhole(p: Protocol, store: Store, shard: string)
    requires Closed(p, store) && ForShard(p, shard) && DERIVED_COMPLETED in store
    ensures Whole(p, store, shard)
  {
    var marker := store[DERIVED_COMPLETED].body;
    assert Supported(p, store, DERIVED_COMPLETED, marker);
    assert p.allowed(DERIVED_COMPLETED, marker) <==> Allowed(shard, DERIVED_COMPLETED, marker);
    assert p.needs(DERIVED_COMPLETED) == Needs(DERIVED_COMPLETED);
    assert marker.results[0] in Refs(marker);
    assert Present(p, store, marker.results[0]);
    var manifest := store[PUBLICATION].body;
    assert Supported(p, store, PUBLICATION, manifest) && store[PUBLICATION].sha == p.sha(manifest);
    assert p.allowed(PUBLICATION, manifest) <==> Allowed(shard, PUBLICATION, manifest);
    forall i: nat | i < |manifest.results| - 1
      ensures InDataset(shard, manifest.results[i].key)
    {
      ApprovedIsInDataset(shard, manifest.results[i].key);
    }
    forall r | r in manifest.results
      ensures r.key in store && p.size(store[r.key].body) == r.bytes && p.sha(store[r.key].body) == r.sha
    {
      assert r in Refs(manifest);
      assert Present(p, store, r);
    }
  }

  /**
   * Any number of guarded writers, interleaved and crashing as they like:
   * DERIVED-SHARD-COMPLETED means that the publication manifest has the digest the marker
   * records, that it lists distinct objects of this shard ending in its metrics file, and that
   * every one of them is there with the listed bytes and digest.
   */
  lemma DerivedCompletedIsWhole(p: Protocol, shard: string, writers: nat, steps: seq<Step>)
    requires ForShard(p, shard) && DERIVED_COMPLETED in Run(p, Start(writers), steps).store
    ensures Whole(p, Run(p, Start(writers), steps).store, shard)
  {
    assert Inv(p, Start(writers));
    RunInv(p, Start(writers), steps);
    MarkerMeansWhole(p, Run(p, Start(writers), steps).store, shard);
  }

  // ---------------------------------------------------------------- a crash behind the metrics file

  datatype Try = Try(attempt: Attempt, after: Store, published: bool)

  function Last(start: Store, tries: seq<Try>): Store {
    if tries == [] then start else tries[|tries| - 1].after
  }

  /** The run at this place found what the one before it left, or the start. */
  ghost predicate RanAt(p: Protocol, c: Contract, start: Store, tries: seq<Try>, i: nat)
    requires i < |tries|
  {
    Attempted(p, c, tries[i].attempt, if i == 0 then start else tries[i - 1].after, tries[i].after, tries[i].published)
  }

  /** Attempts one after the other, none overlapping, each killed or failing anywhere. */
  ghost predicate History(p: Protocol, c: Contract, start: Store, tries: seq<Try>) {
    forall i: nat | i < |tries| :: RanAt(p, c, start, tries, i)
  }

  /** The runs before the last are a history, and the last one found what they left. */
  lemma LastRun(p: Protocol, c: Contract, start: Store, tries: seq<Try>)
    requires History(p, c, start, tries) && tries != []
    ensures History(p, c, start, tries[..|tries| - 1]) && RanAt(p, c, start, tries, |tries| - 1)
    ensures Last(start, tries[..|tries| - 1]) == if |tries| == 1 then start else tries[|tries| - 2].after
  {
    var front := tries[..|tries| - 1];
    forall i: nat | i < |front|
      ensures RanAt(p, c, start, front, i)
    {
      assert RanAt(p, c, start, tries, i);
    }
  }

  /** The stored metrics file is not the one this attempt would upload. */
  predicate Stale(p: Protocol, c: Contract, store: Store, a: Attempt) {
    MetricsKey(c.shard) in store && !Present(p, store, RefTo(p, MetricsKey(c.shard), Blob(a.metrics)))
  }

  lemma StaleGrows(p: Protocol, c: Contract, store: Store, later: Store, a: Attempt)
    requires Stale(p, c, store, a) && Grows(store, later)
    ensures Stale(p, c, later, a)
    ensures a.files.Some? ==> !AllPresent(p, later, PartsOf(c, a)) && !Completes(p, later, c, a)
  {
    if a.files.Some? {
      var parts := PartsOf(c, a);
      assert parts[|a.files.value|] == (MetricsKey(c.shard), Blob(a.metrics));
      assert !Uploadable(p, later, parts[|a.files.value|].0, parts[|a.files.value|].1);
    }
  }

  /**
   * The metrics file carries elapsed seconds, so a retry rarely rebuilds it byte for byte. Once
   * one is stored on an unfinished shard, then for as long as every later attempt's differs, no
   * attempt stores the marker, reports success or changes the metrics file.
   */
  lemma {:induction false} StaleMetricsStick(p: Protocol, c: Contract, start: Store, tries: seq<Try>)
    requires DERIVED_COMPLETED !in start && MetricsKey(c.shard) in start && History(p, c, start, tries)
    requires forall t | t in tries :: Stale(p, c, start, t.attempt)
    ensures Grows(start, Last(start, tries)) && DERIVED_COMPLETED !in Last(start, tries)
    ensures forall t | t in tries ::
              DERIVED_COMPLETED !in t.after && !t.published
              && MetricsKey(c.shard) in t.after && t.after[MetricsKey(c.shard)] == start[MetricsKey(c.shard)]
  {
    if tries != [] {
      var front, last := tries[..|tries| - 1], tries[|tries| - 1];
      LastRun(p, c, start, tries);
      StaleMetricsStick(p, c, start, front);
      StaleGrows(p, c, start, last.after, last.attempt);
      SplitLast(tries);
    }
  }

  /**
   * Behind the upload of all of an attempt's files: a lone reliable attempt with the same files
   * and details completes the shard exactly when its metrics file is the same too.
   */
  lemma CompletesBehindFiles(p: Protocol, c: Contract, store: Store, first: Attempt, a: Attempt)
    requires CollisionFree(p) && Closed(p, store) && DERIVED_COMPLETED !in store && PUBLICATION !in store
    requires Present(p, store, RefTo(p, SOURCE_PLAN, PlanBody(c)))
    requires Collectable(c, first) && AllPresent(p, store, PartsOf(c, first))
    requires a.files == first.files && a.detail == first.detail
    ensures Completes(p, store, c, a) <==> a.metrics == first.metrics
  {
    var n := |a.files.value|;
    var parts, again := PartsOf(c, first), PartsOf(c, a);
    assert Present(p, store, RefTo(p, parts[n].0, parts[n].1));
    forall i: nat | i < n
      ensures again[i] == parts[i] && Uploadable(p, store, again[i].0, again[i].1)
    {
      assert Present(p, store, RefTo(p, parts[i].0, parts[i].1));
    }
    if a.metrics != first.metrics {
      assert store[MetricsKey(c.shard)].sha == p.sha(Blob(first.metrics));
      assert !Uploadable(p, store, again[n].0, again[n].1);
    }
  }
}
