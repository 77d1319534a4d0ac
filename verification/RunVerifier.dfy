/**
The second, independently written verifier of base manifests, shard sets and plans, and the
theorem that at the 1,000-input ceiling it accepts the very shard sets the first one accepts.
*/
module RunVerifier {
  import opened Wrappers
  import opened Collections
  import opened ShardMath
  import opened ShardManifests
  import opened ShardSets
  import opened ShardPlans

  // ---------------------------------------------------------------- the base manifest

  predicate NonEmptyStrings(paths: seq<string>) {
    paths != [] && forall path | path in paths :: path != ""
  }

  /** `_verify_base_manifest` as a statement about the document. */
  predicate AcceptsBase(env: Env, doc: Doc, expected: Option<int>) {
    && "format_version" in doc && doc["format_version"] == FORMAT_VERSION
    && "kind" in doc && doc["kind"] == BASE_KIND
    && HasText(doc, "run_id") && HasText(doc, "crawl")
    && HasInt(doc, "input_count", 1) && (expected.Some? ==> doc["input_count"].number == expected.value)
    && "inputs" in doc && PathsOf(doc["inputs"]).Some?
    && var paths := PathsOf(doc["inputs"]).value;
       && NonEmptyStrings(paths) && |paths| == doc["input_count"].number
       && DistinctPaths(paths) && DistinctBy(paths, env.suffix)
       && HasText(doc, "inputs_sha256") && doc["inputs_sha256"].text == env.listSha(paths)
       && HasText(doc, "manifest_sha256") && doc["manifest_sha256"].text == ManifestSha(env, doc)
  }

  /** What the checks on shards may rely on. */
  predicate Usable(b: Base) {
    && b.runId != "" && b.crawl != "" && NonEmptyStrings(b.inputs) && DistinctPaths(b.inputs)
    && IsSha(b.inputsSha) && IsSha(b.manifestSha)
  }

  function AcceptedBase(env: Env, doc: Doc, expected: Option<int>): (b: Base)
    requires AcceptsBase(env, doc, expected)
    ensures Usable(b)
  {
    Base(doc["run_id"].text, doc["crawl"].text, PathsOf(doc["inputs"]).value, doc["inputs_sha256"].text, doc["manifest_sha256"].text)
  }

  predicate AllDistinct(values: seq<string>) {
    forall i: nat, j: nat | i < j < |values| :: values[i] != values[j]
  }

  /** `len(set(values)) == len(values)`. */
  lemma {:induction false} SizeMeansDistinct(values: seq<string>)
    ensures |set v | v in values| <= |values|
    ensures |set v | v in values| == |values| <==> AllDistinct(values)
  {
    if values != [] {
      var n := |values| - 1;
      var front, last := values[..n], values[n];
      SizeMeansDistinct(front);
      SplitLast(values);
      assert (set v | v in values) == (set v | v in front) + {last};
      if last in front {
        assert (set v | v in values) == set v | v in front;
        var i: nat :| i < n && front[i] == last;
        assert values[i] == values[n];
      }
    }
  }

  function Suffixes(env: Env, paths: seq<string>): (r: seq<string>)
    ensures |r| == |paths| && forall i: nat | i < |r| :: r[i] == env.suffix(paths[i])
    ensures AllDistinct(r) <==> DistinctBy(paths, env.suffix)
  {
    seq(|paths|, i requires 0 <= i < |paths| => env.suffix(paths[i]))
  }

  /** `_verify_base_manifest`. */
  method VerifyBaseManifest(env: Env, doc: Doc, expected: Option<int>) returns (r: Result<Base, ManifestError>)
    ensures r.Success? <==> AcceptsBase(env, doc, expected)
    ensures r.Success? ==> r.value == AcceptedBase(env, doc, expected)
  {
    if "format_version" !in doc || doc["format_version"] != FORMAT_VERSION {
      return Failure(Wrong("format_version"));
    }
    if "kind" !in doc || doc["kind"] != BASE_KIND {
      return Failure(Wrong("kind"));
    }
    if !HasText(doc, "run_id") || !HasText(doc, "crawl") {
      return Failure(Wrong("run_id"));
    }
    if "input_count" !in doc || !doc["input_count"].Num? || doc["input_count"].number < 1 {
      return Failure(Wrong("input_count"));
    }
    if expected.Some? && doc["input_count"].number != expected.value {
      return Failure(Wrong("input_count"));
    }
    if "inputs" !in doc || PathsOf(doc["inputs"]).None? || !NonEmptyStrings(PathsOf(doc["inputs"]).value) {
      return Failure(Wrong("inputs"));
    }
    var inputs := PathsOf(doc["inputs"]).value;
    if |inputs| != doc["input_count"].number {
      return Failure(WrongCount);
    }
    SizeMeansDistinct(inputs);
    if |set path | path in inputs| != |inputs| {
      return Failure(Duplicate);
    }
    if !HasSha(doc, "inputs_sha256") || doc["inputs_sha256"].text != env.listSha(inputs) {
      return Failure(Wrong("inputs_sha256"));
    }
    if !HasSha(doc, "manifest_sha256") || doc["manifest_sha256"].text != ManifestSha(env, doc) {
      return Failure(Wrong("manifest_sha256"));
    }
    var suffixes := Suffixes(env, inputs);
    SizeMeansDistinct(suffixes);
    if |set suffix | suffix in suffixes| != |suffixes| {
      return Failure(SuffixCollision);
    }
    r := Success(Base(doc["run_id"].text, doc["crawl"].text, inputs, doc["inputs_sha256"].text, doc["manifest_sha256"].text));
  }

  /** Whatever the first tool calls a base manifest, the second one does too, and reads it alike. */
  lemma ValidBaseIsAccepted(env: Env, doc: Doc, expected: int)
    requires ValidBase(env, doc, expected)
    ensures AcceptsBase(env, doc, None) && AcceptsBase(env, doc, Some(expected))
    ensures AcceptedBase(env, doc, None) == BaseOf(env, doc, expected)
  {
  }

  // ---------------------------------------------------------------- one shard

  /** Identity and range; `count` is the shard count the earlier documents agreed on. */
  method VerifyHeader(b: Base, doc: Doc, count: Option<nat>) returns (r: Result<(nat, nat), ManifestError>)
    requires Usable(b)
    ensures r.Success? ==>
              r.value.0 < r.value.1 <= |b.inputs| && HeaderOk(b, doc) && Identifies(doc, r.value.0, r.value.1)
              && (count.Some? ==> r.value.1 == count.value)
    ensures r.Failure? ==> forall id: nat, n: nat | id < n <= |b.inputs| && (count.Some? ==> n == count.value) ::
              !(HeaderOk(b, doc) && Identifies(doc, id, n))
  {
    if "format_version" !in doc || doc["format_version"] != FORMAT_VERSION || "kind" !in doc || doc["kind"] != SHARD_KIND {
      return Failure(Wrong("kind"));
    }
    if !HasText(doc, "run_id") || !HasText(doc, "crawl") || doc["run_id"].text != b.runId || doc["crawl"].text != b.crawl {
      return Failure(Wrong("run_id"));
    }
    if "shard_id" !in doc || !doc["shard_id"].Num? || "shard_count" !in doc || !doc["shard_count"].Num? {
      return Failure(Wrong("shard_id"));
    }
    if count.Some? && doc["shard_count"].number != count.value {
      return Failure(WrongCount);
    }
    if ShardBounds(|b.inputs|, doc["shard_count"].number, doc["shard_id"].number).Failure? {
      return Failure(Wrong("shard_id"));
    }
    if !HasSha(doc, "base_inputs_sha256") || doc["base_inputs_sha256"].text != b.inputsSha
       || !HasSha(doc, "base_manifest_sha256") || doc["base_manifest_sha256"].text != b.manifestSha
    {
      return Failure(Wrong("base_manifest_sha256"));
    }
    r := Success((doc["shard_id"].number, doc["shard_count"].number));
  }

  /** The shard's own input list against its slice of the base. */
  method VerifyContent(env: Env, slice: seq<string>, doc: Doc) returns (r: Outcome<ManifestError>)
    requires NonEmptyStrings(slice)
    ensures r.Pass? <==> ContentOk(env, slice, doc) && |slice| <= MAX_SAFE_INPUTS_PER_SHARD
  {
    assert slice[0] in slice && slice[|slice| - 1] in slice;
    PathsOfJson(slice, if "inputs" in doc then doc["inputs"] else Null);
    if "inputs" !in doc || PathsOf(doc["inputs"]).None? || !NonEmptyStrings(PathsOf(doc["inputs"]).value) {
      return Fail(Wrong("inputs"));
    }
    var inputs := PathsOf(doc["inputs"]).value;
    if "input_count" !in doc || doc["input_count"] != Num(|inputs|) {
      return Fail(Wrong("input_count"));
    }
    if |inputs| > MAX_SAFE_INPUTS_PER_SHARD {
      return Fail(OverCapacity);
    }
    if inputs != slice {
      return Fail(Wrong("inputs"));
    }
    if !HasSha(doc, "inputs_sha256") || doc["inputs_sha256"].text != env.listSha(inputs) {
      return Fail(Wrong("inputs_sha256"));
    }
    if !HasSha(doc, "manifest_sha256") || doc["manifest_sha256"].text != ManifestSha(env, doc) {
      return Fail(Wrong("manifest_sha256"));
    }
    if !HasText(doc, "first_input") || !HasText(doc, "last_input")
       || doc["first_input"].text != inputs[0] || doc["last_input"].text != inputs[|inputs| - 1]
    {
      return Fail(Wrong("first_input"));
    }
    r := Pass;
  }

  /** `_verify_shard_manifest`. */
  method VerifyShardManifest(env: Env, b: Base, doc: Doc, count: Option<nat>) returns (r: Result<(nat, nat), ManifestError>)
    requires Usable(b)
    ensures r.Success? ==>
              && r.value.0 < r.value.1 <= |b.inputs| && ShardMatches(env, b, r.value.0, r.value.1, doc)
              && Size(|b.inputs|, r.value.1, r.value.0) <= MAX_SAFE_INPUTS_PER_SHARD
              && (count.Some? ==> r.value.1 == count.value)
    ensures r.Failure? ==> forall id: nat, n: nat | id < n <= |b.inputs| && (count.Some? ==> n == count.value) ::
              ShardMatches(env, b, id, n, doc) ==> Size(|b.inputs|, n, id) > MAX_SAFE_INPUTS_PER_SHARD
  {
    r := VerifyHeader(b, doc, count);
    if r.Failure? {
      return;
    }
    SliceNonEmpty(b, r.value.0, r.value.1);
    var content := VerifyContent(env, SliceOf(b, r.value.0, r.value.1), doc);
    if content.Fail? {
      return Failure(content.error);
    }
  }

  lemma SliceNonEmpty(b: Base, id: nat, n: nat)
    requires Usable(b) && id < n <= |b.inputs|
    ensures NonEmptyStrings(SliceOf(b, id, n))
  {
    SlicesAreEven(|b.inputs|, n, id, id);
    var slice := SliceOf(b, id, n);
    forall path | path in slice
      ensures path != ""
    {
      var i: nat :| i < |slice| && slice[i] == path;
      assert b.inputs[Start(|b.inputs|, n, id) + i] in b.inputs;
    }
  }

  // ---------------------------------------------------------------- the whole run

  /** The shard documents are the whole split into `n`, and every slice is within 1,000 inputs. */
  ghost predicate AcceptsShards(env: Env, b: Base, n: nat, shards: seq<Doc>) {
    && 0 < n <= |b.inputs| && |shards| == n && Covers(Labels(env, b, n, shards), n)
    && forall id: nat | id < n :: Size(|b.inputs|, n, id) <= MAX_SAFE_INPUTS_PER_SHARD
  }

  /** At the 1,000 ceiling both tools accept the same shard sets. */
  lemma SameShardSets(env: Env, b: Base, n: nat, shards: seq<Doc>)
    ensures AcceptsShards(env, b, n, shards) <==> IsShardSet(env, b, MAX_SAFE_INPUTS_PER_SHARD, n, shards)
  {
    if 0 < n <= |b.inputs| {
      CapacityMeansFit(|b.inputs|, n, MAX_SAFE_INPUTS_PER_SHARD);
    }
  }

  lemma AcceptedMember(env: Env, b: Base, n: nat, shards: seq<Doc>, j: nat)
    requires AcceptsShards(env, b, n, shards) && j < n
    ensures Which(env, b, n, shards[j]).Some?
  {
    CoverIsExact(Labels(env, b, n, shards), n, j);
  }

  lemma RepeatIsNotAccepted(env: Env, b: Base, n: nat, shards: seq<Doc>, j: nat, id: nat)
    requires n <= |b.inputs| && j < |shards|
    requires id in Used(Labels(env, b, n, shards[..j])) && Which(env, b, n, shards[j]) == Some(id)
    ensures !AcceptsShards(env, b, n, shards)
  {
    var labels := Labels(env, b, n, shards);
    assert Labels(env, b, n, shards[..j]) == labels[..j];
    if AcceptsShards(env, b, n, shards) {
      CoverIsExact(labels, n, j);
    }
  }

  /** Each label names a shard of at most 1,000 inputs. */
  ghost predicate Fitting(total: nat, n: nat, labels: seq<Option<nat>>) {
    forall l | l in labels :: l.Some? && 0 < n && Size(total, n, l.value) <= MAX_SAFE_INPUTS_PER_SHARD
  }

  /** The state of the loop over shard documents. */
  ghost predicate Looked(env: Env, b: Base, n: nat, seen: seq<Doc>, byId: map<nat, Doc>) {
    n <= |b.inputs| && Checked(env, b, n, seen, byId) && Fitting(|b.inputs|, n, Labels(env, b, n, seen))
  }

  /** One turn of the loop over shard documents, once the count is known. */
  method VerifyOne(env: Env, b: Base, n: nat, shards: seq<Doc>, j: nat, byId: map<nat, Doc>) returns (r: Result<map<nat, Doc>, ManifestError>)
    requires Usable(b) && 0 < n <= |b.inputs| && j < |shards| && Looked(env, b, n, shards[..j], byId)
    ensures r.Success? ==> Looked(env, b, n, shards[..j + 1], r.value)
    ensures r.Failure? ==> !AcceptsShards(env, b, n, shards)
  {
    if AcceptsShards(env, b, n, shards) && j < n {
      AcceptedMember(env, b, n, shards, j);
    }
    var checked := VerifyShardManifest(env, b, shards[j], Some(n));
    if checked.Failure? {
      return Failure(checked.error);
    }
    var id := checked.value.0;
    WhichIs(env, b, n, shards[j], id);
    if id in byId {
      RepeatIsNotAccepted(env, b, n, shards, j, id);
      return Failure(Duplicate);
    }
    LookedStep(env, b, n, shards[..j], shards[j], byId, id);
    TakeOne(shards, j);
    r := Success(byId[id := shards[j]]);
  }

  lemma LookedStep(env: Env, b: Base, n: nat, seen: seq<Doc>, doc: Doc, byId: map<nat, Doc>, id: nat)
    requires Looked(env, b, n, seen, byId) && id < n && id !in byId && Which(env, b, n, doc) == Some(id)
    requires Size(|b.inputs|, n, id) <= MAX_SAFE_INPUTS_PER_SHARD
    ensures Looked(env, b, n, seen + [doc], byId[id := doc])
  {
    CheckedStep(env, b, n, seen, byId, id, doc);
    LabelsStep(env, b, n, seen, doc);
    FittingStep(|b.inputs|, n, Labels(env, b, n, seen), id);
  }

  lemma FittingStep(total: nat, n: nat, labels: seq<Option<nat>>, id: nat)
    requires Fitting(total, n, labels) && id < n && Size(total, n, id) <= MAX_SAFE_INPUTS_PER_SHARD
    ensures Fitting(total, n, labels + [Some(id)])
  {
  }

  /** The checks after the loop: every id once, and the ordered inputs are the base list. */
  method Finish(env: Env, b: Base, n: nat, shards: seq<Doc>, byId: map<nat, Doc>) returns (r: Result<seq<Doc>, ManifestError>)
    requires Usable(b) && 0 < n <= |b.inputs| && Checked(env, b, n, shards, byId)
    ensures r.Success? <==> |shards| == n
    ensures r.Success? ==>
              InOrder(env, b, n, r.value) && multiset(r.value) == multiset(shards) && Covers(Labels(env, b, n, shards), n)
  {
    if |shards| != n {
      return Failure(WrongCount);
    }
    FullRange(byId.Keys, n);
    UsedCovers(Labels(env, b, n, shards), n);
    if byId.Keys != Below(n) {
      return Failure(NotCovered);
    }
    var ordered := ListOf(byId, n);
    ListValues(byId, n);
    InOrderOf(env, b, n, byId);
    InputsAreUnion(env, b, n, ordered, n);
    UnionIsBase(b, n);
    var combined := Inputs(ordered);
    if !DistinctPaths(combined) || combined != b.inputs {
      return Failure(NotCovered);
    }
    r := Success(ordered);
  }

  /** The shard part of `verify_run_manifests`, once the first document has named the count. */
  method VerifyCounted(env: Env, b: Base, n: nat, shards: seq<Doc>) returns (r: Result<seq<Doc>, ManifestError>)
    requires Usable(b) && 0 < n <= |b.inputs|
    ensures r.Success? <==> AcceptsShards(env, b, n, shards)
    ensures r.Success? ==> InOrder(env, b, n, r.value) && multiset(r.value) == multiset(shards)
  {
    var byId: map<nat, Doc> := map[];
    EmptyChecked(env, b, n);
    TakeAll(shards);
    for j := 0 to |shards|
      invariant Looked(env, b, n, shards[..j], byId)
    {
      byId :- VerifyOne(env, b, n, shards, j, byId);
    }
    r := Finish(env, b, n, shards, byId);
    if r.Success? {
      AllFit(env, b, n, shards);
    }
  }

  /** The shard part of `verify_run_manifests`. */
  method VerifyShards(env: Env, b: Base, shards: seq<Doc>) returns (r: Result<seq<Doc>, ManifestError>)
    requires Usable(b)
    ensures r.Success? <==> exists n: nat :: AcceptsShards(env, b, n, shards)
    ensures r.Success? ==>
              && AcceptsShards(env, b, |shards|, shards)
              && InOrder(env, b, |shards|, r.value) && multiset(r.value) == multiset(shards)
  {
    if shards == [] {
      return Failure(Missing);
    }
    var first := VerifyShardManifest(env, b, shards[0], None);
    NeedsFirst(env, b, shards, first);
    if first.Failure? {
      return Failure(first.error);
    }
    r := VerifyCounted(env, b, first.value.1, shards);
  }

  lemma AllFit(env: Env, b: Base, n: nat, shards: seq<Doc>)
    requires 0 < n <= |b.inputs| && |shards| == n && Covers(Labels(env, b, n, shards), n) && Fitting(|b.inputs|, n, Labels(env, b, n, shards))
    ensures AcceptsShards(env, b, n, shards)
  {
    forall id: nat | id < n
      ensures Size(|b.inputs|, n, id) <= MAX_SAFE_INPUTS_PER_SHARD
    {
      assert Some(id) in Labels(env, b, n, shards);
    }
  }

  /** A list whose first document fails on its own is no accepted list, and its count is the only one possible. */
  lemma NeedsFirst(env: Env, b: Base, shards: seq<Doc>, first: Result<(nat, nat), ManifestError>)
    requires shards != []
    requires first.Success? ==> first.value.0 < first.value.1 <= |b.inputs| && ShardMatches(env, b, first.value.0, first.value.1, shards[0])
    requires first.Failure? ==> forall id: nat, n: nat | id < n <= |b.inputs| ::
               ShardMatches(env, b, id, n, shards[0]) ==> Size(|b.inputs|, n, id) > MAX_SAFE_INPUTS_PER_SHARD
    ensures forall n: nat | AcceptsShards(env, b, n, shards) :: first.Success? && n == first.value.1 && n == |shards|
  {
    forall n: nat | AcceptsShards(env, b, n, shards)
      ensures first.Success? && n == first.value.1
    {
      AcceptedMember(env, b, n, shards, 0);
      var id := Which(env, b, n, shards[0]).value;
      assert ShardMatches(env, b, id, n, shards[0]);
    }
  }

  // ---------------------------------------------------------------- the plan

  /** Python's `==` between a JSON value and an integer: `true` is 1 and `false` is 0. */
  predicate EqualsNumber(found: Json, n: int) {
    found == Num(n) || (found == Bool(true) && n == 1) || (found == Bool(false) && n == 0)
  }

  /** The number that a JSON value equals, if it equals one at all. */
  lemma EqualsOneNumber(found: Json, n: int)
    ensures EqualsNumber(found, n) <==>
              match found
              case Num(m) => m == n
              case Bool(b) => n == if b then 1 else 0
              case _ => false
  {
  }

  predicate EntryMatches(entry: Json, doc: Doc) {
    && entry.Obj? && "input_count" in entry.fields && "first_input" in entry.fields && "last_input" in entry.fields
    && "inputs_sha256" in entry.fields && "shard_manifest_sha256" in entry.fields
    && {"shard_id", "input_count", "first_input", "last_input", "inputs_sha256", "manifest_sha256"} <= doc.Keys
    && doc["input_count"].Num? && EqualsNumber(entry.fields["input_count"], doc["input_count"].number)
    && entry.fields["first_input"] == doc["first_input"] && entry.fields["last_input"] == doc["last_input"]
    && entry.fields["inputs_sha256"] == doc["inputs_sha256"]
    && entry.fields["shard_manifest_sha256"] == doc["manifest_sha256"]
  }

  /** `verify_shard_plan` against the ordered, verified shards, as a statement about the document. */
  ghost predicate AcceptsPlan(env: Env, b: Base, plan: Doc, ordered: seq<Doc>) {
    && PlanHeaderOk(b, |ordered|, plan)
    && "shards" in plan && plan["shards"].Arr? && plan["shards"].items != [] && |plan["shards"].items| == |ordered|
    && "plan_sha256" in plan && plan["plan_sha256"] == Str(PlanSha(env, plan))
    && EntriesDescribe(plan["shards"].items, ordered)
  }

  predicate EntryNames(entry: Json, id: int) {
    entry.Obj? && "shard_id" in entry.fields && entry.fields["shard_id"] == Num(id)
  }

  /** The dictionary of the verified shards by the id they state. */
  function ById(ordered: seq<Doc>): map<int, Doc> {
    map id | 0 <= id < |ordered| :: ordered[id]
  }

  /** Identity, digests and count of a plan document. */
  method VerifyPlanHeader(env: Env, b: Base, plan: Doc) returns (r: Result<seq<Json>, ManifestError>)
    requires Usable(b)
    ensures r.Success? <==>
              && "shards" in plan && plan["shards"].Arr? && plan["shards"].items != []
              && PlanHeaderOk(b, |plan["shards"].items|, plan)
              && "plan_sha256" in plan && plan["plan_sha256"] == Str(PlanSha(env, plan))
    ensures r.Success? ==> r.value == plan["shards"].items
  {
    if "format_version" !in plan || plan["format_version"] != FORMAT_VERSION {
      return Failure(Wrong("format_version"));
    }
    if "kind" !in plan || plan["kind"] != PLAN_KIND {
      return Failure(Wrong("kind"));
    }
    if !HasText(plan, "run_id") || plan["run_id"].text != b.runId {
      return Failure(Wrong("run_id"));
    }
    if !HasText(plan, "crawl") || plan["crawl"].text != b.crawl {
      return Failure(Wrong("crawl"));
    }
    if !HasSha(plan, "base_manifest_sha256") || plan["base_manifest_sha256"].text != b.manifestSha {
      return Failure(Wrong("base_manifest_sha256"));
    }
    if !HasSha(plan, "base_inputs_sha256") || plan["base_inputs_sha256"].text != b.inputsSha {
      return Failure(Wrong("base_inputs_sha256"));
    }
    if "shard_count" !in plan || !plan["shard_count"].Num? {
      return Failure(Wrong("shard_count"));
    }
    if "shards" !in plan || !plan["shards"].Arr? || plan["shards"].items == [] {
      return Failure(Wrong("shards"));
    }
    if |plan["shards"].items| != plan["shard_count"].number {
      return Failure(WrongCount);
    }
    if !HasSha(plan, "plan_sha256") || plan["plan_sha256"].text != PlanSha(env, plan) {
      return Failure(Wrong("plan_sha256"));
    }
    r := Success(plan["shards"].items);
  }

  predicate EntriesDescribe(entries: seq<Json>, ordered: seq<Doc>) {
    |entries| == |ordered| && forall i: nat | i < |ordered| :: EntryNames(entries[i], i) && EntryMatches(entries[i], ordered[i])
  }

  /** The loop over the plan's entries, and the check of the ids it collected. */
  method VerifyEntries(entries: seq<Json>, ordered: seq<Doc>) returns (r: Outcome<ManifestError>)
    requires |entries| == |ordered|
    ensures r.Pass? <==> EntriesDescribe(entries, ordered)
  {
    var byId := ById(ordered);
    var ids: seq<int> := [];
    for i := 0 to |entries|
      invariant |ids| == i
      invariant forall j: nat | j < i :: EntryNames(entries[j], ids[j]) && ids[j] in byId && EntryMatches(entries[j], byId[ids[j]])
    {
      var entry := entries[i];
      assert EntriesDescribe(entries, ordered) ==> EntryNames(entry, i) && EntryMatches(entry, ordered[i]);
      if !entry.Obj? || "shard_id" !in entry.fields || !entry.fields["shard_id"].Num? {
        return Fail(Wrong("shard_id"));
      }
      var id := entry.fields["shard_id"].number;
      if id !in byId || !EntryMatches(entry, byId[id]) {
        return Fail(NotCovered);
      }
      ids := ids + [id];
    }
    if exists j: nat :: j < |ids| && ids[j] != j {
      return Fail(NotCovered);
    }
    r := Pass;
  }

  /** `verify_shard_plan`. */
  method VerifyShardPlan(env: Env, b: Base, plan: Doc, ordered: seq<Doc>) returns (r: Outcome<ManifestError>)
    requires Usable(b) && InOrder(env, b, |ordered|, ordered)
    ensures r.Pass? <==> AcceptsPlan(env, b, plan, ordered)
  {
    var header := VerifyPlanHeader(env, b, plan);
    if header.Failure? {
      return Fail(header.error);
    }
    SizeOfById(ordered);
    if |ById(ordered)| != |header.value| {
      return Fail(WrongCount);
    }
    r := VerifyEntries(header.value, ordered);
  }

  lemma {:induction false} SizeOfById(ordered: seq<Doc>)
    ensures |ById(ordered)| == |ordered|
  {
    if ordered == [] {
      assert ById(ordered) == map[];
    } else {
      var n := |ordered| - 1;
      SizeOfById(ordered[..n]);
      assert ById(ordered) == ById(ordered[..n])[n := ordered[n]];
    }
  }

  // ---------------------------------------------------------------- where the two plan checks differ

  const SUMMARY_FIELDS := {"shard_id", "input_count", "first_input", "last_input", "inputs_sha256", "shard_manifest_sha256"}

  /**
   * What only the first tool asks of a plan that the second accepts: entries without fields of
   * their own, counts that are numbers rather than booleans, and shard documents whose digest is
   * that of the document the tool itself would have written.
   */
  predicate Strict(env: Env, b: Base, n: nat, entries: seq<Json>, ordered: seq<Doc>)
    requires n <= |b.inputs| && |entries| == |ordered| == n
  {
    forall i: nat | i < n ::
      && entries[i].Obj? && entries[i].fields.Keys == SUMMARY_FIELDS
      && entries[i].fields["input_count"].Num?
      && "manifest_sha256" in ordered[i] && ordered[i]["manifest_sha256"] == Str(ManifestSha(env, ShardFields(env, b, i, n)))
  }

  lemma StrictEntry(env: Env, b: Base, i: nat, n: nat, entry: Json, doc: Doc)
    requires i < n <= |b.inputs| && ShardMatches(env, b, i, n, doc)
    ensures {"shard_id", "input_count", "first_input", "last_input", "inputs_sha256", "manifest_sha256"} <= doc.Keys
    ensures (entry.Obj? && SummaryMatches(env, b, i, n, entry.fields) && entry == Obj(SummaryOf(doc)))
            <==> && EntryNames(entry, i) && EntryMatches(entry, doc)
                 && entry.fields.Keys == SUMMARY_FIELDS && entry.fields["input_count"].Num?
                 && doc["manifest_sha256"] == Str(ManifestSha(env, ShardFields(env, b, i, n)))
  {
    if EntryNames(entry, i) && EntryMatches(entry, doc) && entry.fields.Keys == SUMMARY_FIELDS && entry.fields["input_count"].Num? {
      assert entry.fields == SummaryOf(doc);
    }
  }

  /**
   * Plans, exactly: of a list of shards in order and within the ceiling, the first tool accepts
   * a plan if and only if the second does and the plan and the shards meet the stricter rules.
   */
  lemma PlansAgreeWhenStrict(env: Env, b: Base, ceiling: nat, n: nat, plan: Doc, ordered: seq<Doc>)
    requires CapacityOk(|b.inputs|, n, ceiling) && InOrder(env, b, n, ordered)
    ensures ValidPlanWith(env, b, ceiling, n, plan, ordered)
            <==> AcceptsPlan(env, b, plan, ordered) && Strict(env, b, n, plan["shards"].items, ordered)
  {
    if "shards" in plan && plan["shards"].Arr? && |plan["shards"].items| == n {
      var entries := plan["shards"].items;
      forall i: nat | i < n
        ensures {"shard_id", "input_count", "first_input", "last_input", "inputs_sha256", "manifest_sha256"} <= ordered[i].Keys
        ensures (entries[i].Obj? && SummaryMatches(env, b, i, n, entries[i].fields) && entries[i] == Obj(SummaryOf(ordered[i])))
                <==> && EntryNames(entries[i], i) && EntryMatches(entries[i], ordered[i])
                     && entries[i].fields.Keys == SUMMARY_FIELDS && entries[i].fields["input_count"].Num?
                     && ordered[i]["manifest_sha256"] == Str(ManifestSha(env, ShardFields(env, b, i, n)))
      {
        StrictEntry(env, b, i, n, entries[i], ordered[i]);
      }
    }
  }

  /** A summary that says `true` where its shard has one input. */
  function TrueSummary(env: Env, b: Base): Doc
    requires b.inputs != []
  {
    SummaryFields(env, b, 0, |b.inputs|)["input_count" := Bool(true)]
  }

  /** The plan for one input a shard, its first entry changed in that way, and signed again. */
  function TruePlan(env: Env, b: Base): Doc
    requires b.inputs != []
  {
    var n := |b.inputs|;
    var fields := PlanHeader(b, n)["shards" := Arr(Summaries(env, b, n)[0 := Obj(TrueSummary(env, b))])];
    fields["plan_sha256" := Str(PlanSha(env, fields))]
  }

  lemma OneInputEach(b: Base, i: nat)
    requires i < |b.inputs|
    ensures Size(|b.inputs|, |b.inputs|, i) == 1
  {
    Quotient(|b.inputs|, |b.inputs|);
    assert |b.inputs| / |b.inputs| == 1 && |b.inputs| % |b.inputs| == 0;
  }

  /** What a generated shard document says, in the terms of a plan entry. */
  lemma GeneratedSays(env: Env, b: Base, i: nat, n: nat)
    requires i < n <= |b.inputs|
    ensures var doc, slice := ExpectedShard(env, b, i, n), SliceOf(b, i, n);
            && {"shard_id", "input_count", "first_input", "last_input", "inputs_sha256", "manifest_sha256"} <= doc.Keys
            && doc["input_count"] == Num(|slice|) && doc["first_input"] == Str(slice[0]) && doc["last_input"] == Str(slice[|slice| - 1])
            && doc["inputs_sha256"] == Str(env.listSha(slice))
            && doc["manifest_sha256"] == Str(ManifestSha(env, ShardFields(env, b, i, n)))
  {
    ExpectedMatches(env, b, i, n);
  }

  /** An entry that describes a generated shard, whether its count is a number or, for one input, `true`. */
  lemma GeneratedEntry(env: Env, b: Base, i: nat, n: nat, entry: Doc)
    requires i < n <= |b.inputs|
    requires entry == SummaryFields(env, b, i, n)
             || (Size(|b.inputs|, n, i) == 1 && entry == SummaryFields(env, b, i, n)["input_count" := Bool(true)])
    ensures EntryNames(Obj(entry), i) && EntryMatches(Obj(entry), ExpectedShard(env, b, i, n))
  {
    GeneratedSays(env, b, i, n);
  }

  lemma TruePlanHeader(env: Env, b: Base)
    requires b.inputs != []
    ensures var plan := TruePlan(env, b);
            && PlanHeaderOk(b, |b.inputs|, plan)
            && "shards" in plan && plan["shards"] == Arr(Summaries(env, b, |b.inputs|)[0 := Obj(TrueSummary(env, b))])
            && "plan_sha256" in plan && plan["plan_sha256"] == Str(PlanSha(env, plan))
  {
    var n, plan := |b.inputs|, TruePlan(env, b);
    PlanKeys(b, n);
    assert plan - {"plan_sha256"} == PlanHeader(b, n)["shards" := plan["shards"]];
    assert PlanHeader(b, n)["shards" := plan["shards"]] - {"plan_sha256"} == PlanHeader(b, n)["shards" := plan["shards"]];
  }

  lemma TrueIsRefused(env: Env, b: Base, ceiling: nat, m: nat, ordered: seq<Doc>)
    requires b.inputs != []
    ensures !ValidPlanWith(env, b, ceiling, m, TruePlan(env, b), ordered)
  {
    TruePlanHeader(env, b);
    var entry := TruePlan(env, b)["shards"].items[0];
    assert entry == Obj(TrueSummary(env, b)) && entry.fields["input_count"] == Bool(true);
  }

  lemma TrueEntry(env: Env, b: Base, i: nat)
    requires i < |b.inputs|
    ensures var entry := Obj(if i == 0 then TrueSummary(env, b) else SummaryFields(env, b, i, |b.inputs|));
            EntryNames(entry, i) && EntryMatches(entry, ExpectedShard(env, b, i, |b.inputs|))
  {
    OneInputEach(b, i);
    GeneratedEntry(env, b, i, |b.inputs|, if i == 0 then TrueSummary(env, b) else SummaryFields(env, b, i, |b.inputs|));
  }

  lemma TruePlanAccepted(env: Env, b: Base)
    requires b.inputs != []
    ensures InOrder(env, b, |b.inputs|, Split(env, b, |b.inputs|))
    ensures AcceptsPlan(env, b, TruePlan(env, b), Split(env, b, |b.inputs|))
  {
    var n, plan := |b.inputs|, TruePlan(env, b);
    var ordered, entries := Split(env, b, n), Summaries(env, b, n)[0 := Obj(TrueSummary(env, b))];
    TruePlanHeader(env, b);
    forall i: nat | i < n
      ensures ShardMatches(env, b, i, n, ordered[i]) && EntryNames(entries[i], i) && EntryMatches(entries[i], ordered[i])
    {
      ExpectedMatches(env, b, i, n);
      TrueEntry(env, b, i);
      assert entries[i] == Obj(if i == 0 then TrueSummary(env, b) else SummaryFields(env, b, i, n));
    }
    assert EntriesDescribe(entries, ordered);
  }

  /** The second tool takes that plan, with the generated shards, for any base manifest; the first never does. */
  lemma TrueIsTakenForOne(env: Env, b: Base, ceiling: nat)
    requires b.inputs != []
    ensures InOrder(env, b, |b.inputs|, Split(env, b, |b.inputs|))
    ensures AcceptsPlan(env, b, TruePlan(env, b), Split(env, b, |b.inputs|))
    ensures forall m: nat, ordered :: !ValidPlanWith(env, b, ceiling, m, TruePlan(env, b), ordered)
  {
    TruePlanAccepted(env, b);
    forall m: nat, other
      ensures !ValidPlanWith(env, b, ceiling, m, TruePlan(env, b), other)
    {
      TrueIsRefused(env, b, ceiling, m, other);
    }
  }

  // ---------------------------------------------------------------- the whole run, with its plan

  /** The shards of the run and, if one is supplied, its plan. */
  ghost predicate AcceptsRun(env: Env, b: Base, shards: seq<Doc>, plan: Option<Doc>) {
    && (exists n: nat :: AcceptsShards(env, b, n, shards))
    && (plan.Some? ==>
          exists ordered :: multiset(ordered) == multiset(shards) && InOrder(env, b, |shards|, ordered) && AcceptsPlan(env, b, plan.value, ordered))
  }

  /** `verify_run_manifests`. */
  method VerifyRunManifests(env: Env, base: Doc, shards: seq<Doc>, expected: Option<int>, plan: Option<Doc>)
    returns (r: Result<seq<Doc>, ManifestError>)
    ensures r.Success? <==> AcceptsBase(env, base, expected) && AcceptsRun(env, AcceptedBase(env, base, expected), shards, plan)
    ensures r.Success? ==>
              InOrder(env, AcceptedBase(env, base, expected), |shards|, r.value) && multiset(r.value) == multiset(shards)
  {
    var b :- VerifyBaseManifest(env, base, expected);
    var ordered :- VerifyShards(env, b, shards);
    if plan.Some? {
      assert |ordered| == |multiset(ordered)| == |multiset(shards)| == |shards|;
      var checked := VerifyShardPlan(env, b, plan.value, ordered);
      forall other | multiset(other) == multiset(shards) && InOrder(env, b, |shards|, other)
        ensures other == ordered
      {
        OneOrder(env, b, |shards|, other, ordered);
      }
      if checked.Fail? {
        return Failure(checked.error);
      }
    }
    r := Success(ordered);
  }

  /**
   * The two verifiers agree: for a base manifest the first tool accepts, it accepts a list of
   * shards at the 1,000 ceiling exactly when the second one does.
   */
  lemma VerifiersAgree(env: Env, base: Doc, count: int, shards: seq<Doc>)
    requires ValidBase(env, base, count)
    ensures AcceptsBase(env, base, None)
    ensures (exists n: nat :: IsShardSet(env, BaseOf(env, base, count), MAX_SAFE_INPUTS_PER_SHARD, n, shards))
            <==> exists n: nat :: AcceptsShards(env, AcceptedBase(env, base, None), n, shards)
  {
    ValidBaseIsAccepted(env, base, count);
    var b := BaseOf(env, base, count);
    forall n: nat
      ensures AcceptsShards(env, b, n, shards) <==> IsShardSet(env, b, MAX_SAFE_INPUTS_PER_SHARD, n, shards)
    {
      SameShardSets(env, b, n, shards);
    }
  }
}
