/** The global shard plan: its validator, and that a base manifest and a count leave no choice. */
module ShardPlans {
  import opened Wrappers
  import opened ShardMath
  import opened ShardManifests
  import opened ShardSets

  const PLAN_KIND := Str("common-crawl-v2-shard-plan")

  function PlanSha(env: Env, doc: Doc): Digest {
    env.docSha(doc - {"plan_sha256"})
  }

  // ---------------------------------------------------------------- documents

  /** The summary of shard `(id, n)`, from the one document it can have. */
  function SummaryFields(env: Env, b: Base, id: nat, n: nat): Doc
    requires id < n <= |b.inputs|
  {
    map["shard_id" := Num(id)] + Description(env, SliceOf(b, id, n), ManifestSha(env, ShardFields(env, b, id, n)))
  }

  function Description(env: Env, paths: seq<string>, sha: string): Doc
    requires paths != []
  {
    map["input_count" := Num(|paths|), "first_input" := Str(paths[0]), "last_input" := Str(paths[|paths| - 1]),
        "inputs_sha256" := Str(env.listSha(paths)), "shard_manifest_sha256" := Str(sha)]
  }

  /** A plan entry names the shard and describes it correctly, apart from fields of its own. */
  predicate SummaryMatches(env: Env, b: Base, id: nat, n: nat, summary: Doc)
    requires id < n <= |b.inputs|
  {
    && "shard_id" in summary && summary["shard_id"] == Num(id)
    && DescribesShard(env, SliceOf(b, id, n), ManifestSha(env, ShardFields(env, b, id, n)), summary)
  }

  predicate DescribesShard(env: Env, paths: seq<string>, sha: string, summary: Doc)
    requires paths != []
  {
    && "input_count" in summary && summary["input_count"] == Num(|paths|)
    && "first_input" in summary && summary["first_input"] == Str(paths[0])
    && "last_input" in summary && summary["last_input"] == Str(paths[|paths| - 1])
    && "inputs_sha256" in summary && summary["inputs_sha256"] == Str(env.listSha(paths))
    && "shard_manifest_sha256" in summary && summary["shard_manifest_sha256"] == Str(sha)
  }

  function PlanHeader(b: Base, n: nat): Doc {
    map["format_version" := FORMAT_VERSION, "kind" := PLAN_KIND, "run_id" := Str(b.runId), "crawl" := Str(b.crawl),
        "shard_count" := Num(n), "base_manifest_sha256" := Str(b.manifestSha), "base_inputs_sha256" := Str(b.inputsSha)]
  }

  predicate PlanHeaderOk(b: Base, n: nat, doc: Doc) {
    && "format_version" in doc && doc["format_version"] == FORMAT_VERSION
    && "kind" in doc && doc["kind"] == PLAN_KIND
    && "run_id" in doc && doc["run_id"] == Str(b.runId)
    && "crawl" in doc && doc["crawl"] == Str(b.crawl)
    && "shard_count" in doc && doc["shard_count"] == Num(n)
    && "base_manifest_sha256" in doc && doc["base_manifest_sha256"] == Str(b.manifestSha)
    && "base_inputs_sha256" in doc && doc["base_inputs_sha256"] == Str(b.inputsSha)
  }

  function Summaries(env: Env, b: Base, n: nat): (r: seq<Json>)
    requires n <= |b.inputs|
    ensures |r| == n && forall i: nat | i < n :: r[i] == Obj(SummaryFields(env, b, i, n))
  {
    seq(n, i requires 0 <= i < n => Obj(SummaryFields(env, b, i, n)))
  }

  function PlanFields(env: Env, b: Base, n: nat): Doc
    requires n <= |b.inputs|
  {
    PlanHeader(b, n)["shards" := Arr(Summaries(env, b, n))]
  }

  /** `build_shard_plan`. */
  function BuildPlan(env: Env, b: Base, n: nat): Doc
    requires n <= |b.inputs|
  {
    PlanFields(env, b, n)["plan_sha256" := Str(PlanSha(env, PlanFields(env, b, n)))]
  }

  ghost predicate EntriesMatch(env: Env, b: Base, n: nat, entries: seq<Json>) {
    && 0 < n <= |b.inputs| && |entries| == n
    && forall i: nat | i < n :: entries[i].Obj? && SummaryMatches(env, b, i, n, entries[i].fields)
  }

  /** `validate_shard_plan` without shard documents, as a statement about the document. */
  ghost predicate ValidPlan(env: Env, b: Base, ceiling: nat, n: nat, doc: Doc) {
    && CapacityOk(|b.inputs|, n, ceiling) && PlanHeaderOk(b, n, doc)
    && "shards" in doc && doc["shards"].Arr? && EntriesMatch(env, b, n, doc["shards"].items)
    && "plan_sha256" in doc && doc["plan_sha256"] == Str(PlanSha(env, doc))
  }

  // ---------------------------------------------------------------- uniqueness

  lemma SummaryAgrees(env: Env, b: Base, id: nat, n: nat, summary: Doc)
    requires id < n <= |b.inputs|
    ensures SummaryMatches(env, b, id, n, summary) <==> Agrees(SummaryFields(env, b, id, n), summary)
  {
    var paths, sha := SliceOf(b, id, n), ManifestSha(env, ShardFields(env, b, id, n));
    DescriptionAgrees(env, paths, sha, summary);
    AgreesSum(map["shard_id" := Num(id)], Description(env, paths, sha), summary);
    OneField("shard_id", Num(id), summary);
  }

  lemma DescriptionAgrees(env: Env, paths: seq<string>, sha: string, summary: Doc)
    requires paths != []
    ensures DescribesShard(env, paths, sha, summary) <==> Agrees(Description(env, paths, sha), summary)
    ensures "shard_id" !in Description(env, paths, sha)
  {
  }

  lemma OneField(name: string, value: Json, doc: Doc)
    ensures Agrees(map[name := value], doc) <==> name in doc && doc[name] == value
  {
  }

  lemma SameKeysSame(fields: Doc, doc: Doc)
    requires Agrees(fields, doc) && doc.Keys == fields.Keys
    ensures doc == fields
  {
  }

  lemma HeaderAgrees(b: Base, n: nat, doc: Doc)
    ensures PlanHeaderOk(b, n, doc) <==> Agrees(PlanHeader(b, n), doc)
  {
  }

  /** No entry and no plan field beyond those the tool writes. */
  ghost predicate NoExtras(env: Env, b: Base, n: nat, doc: Doc)
    requires n <= |b.inputs|
  {
    && doc.Keys == BuildPlan(env, b, n).Keys
    && "shards" in doc && doc["shards"].Arr? && |doc["shards"].items| == n
    && forall i: nat | i < n :: doc["shards"].items[i].Obj? && doc["shards"].items[i].fields.Keys == SummaryFields(env, b, i, n).Keys
  }

  lemma EntriesAre(env: Env, b: Base, n: nat, entries: seq<Json>)
    requires EntriesMatch(env, b, n, entries)
    requires forall i: nat | i < n :: entries[i].fields.Keys == SummaryFields(env, b, i, n).Keys
    ensures entries == Summaries(env, b, n)
  {
    forall i: nat | i < n
      ensures entries[i] == Summaries(env, b, n)[i]
    {
      SummaryAgrees(env, b, i, n, entries[i].fields);
      SameKeysSame(SummaryFields(env, b, i, n), entries[i].fields);
    }
  }

  lemma PlanKeys(b: Base, n: nat)
    ensures "shards" !in PlanHeader(b, n) && "plan_sha256" !in PlanHeader(b, n)
  {
  }

  lemma AddField(fields: Doc, doc: Doc, name: string)
    requires Agrees(fields, doc) && name in doc && name !in fields
    ensures Agrees(fields[name := doc[name]], doc)
    ensures fields[name := doc[name]].Keys == fields.Keys + {name}
  {
  }

  /** The validator accepts exactly one plan for a base manifest and a count, extra fields aside. */
  lemma OnlyOnePlan(env: Env, b: Base, ceiling: nat, n: nat, doc: Doc)
    requires ValidPlan(env, b, ceiling, n, doc) && NoExtras(env, b, n, doc)
    ensures doc == BuildPlan(env, b, n)
  {
    var header, fields := PlanHeader(b, n), PlanFields(env, b, n);
    PlanKeys(b, n);
    HeaderAgrees(b, n, doc);
    EntriesAre(env, b, n, doc["shards"].items);
    assert doc["shards"] == Arr(Summaries(env, b, n));
    AddField(header, doc, "shards");
    assert fields == header["shards" := doc["shards"]];
    OneLess(fields, "plan_sha256", doc["plan_sha256"]);
    assert BuildPlan(env, b, n).Keys == fields.Keys + {"plan_sha256"};
    OneMore(fields, doc, "plan_sha256");
  }

  /** And it does accept that one. */
  lemma BuiltPlanIsValid(env: Env, b: Base, ceiling: nat, n: nat)
    requires CapacityOk(|b.inputs|, n, ceiling)
    ensures ValidPlan(env, b, ceiling, n, BuildPlan(env, b, n))
  {
    var fields, doc := PlanFields(env, b, n), BuildPlan(env, b, n);
    PlanKeys(b, n);
    OneLess(fields, "plan_sha256", doc["plan_sha256"]);
    HeaderAgrees(b, n, doc);
    forall i: nat | i < n
      ensures SummaryMatches(env, b, i, n, Summaries(env, b, n)[i].fields)
    {
      SummaryAgrees(env, b, i, n, SummaryFields(env, b, i, n));
    }
    assert doc["shards"] == Arr(Summaries(env, b, n));
  }

  // ---------------------------------------------------------------- the plan validator

  /** One turn of the loop over summaries: the shard the entry names and describes. */
  method ValidateSummary(env: Env, b: Base, n: nat, entry: Json) returns (r: Result<nat, ManifestError>)
    requires BaseOk(env, b) && 0 < n <= |b.inputs|
    ensures r.Success? ==> entry.Obj? && r.value < n && SummaryMatches(env, b, r.value, n, entry.fields)
    ensures r.Failure? && entry.Obj? ==> forall id: nat | id < n :: !SummaryMatches(env, b, id, n, entry.fields)
    ensures !entry.Obj? ==> r.Failure?
  {
    if !entry.Obj? {
      return Failure(Wrong("shards"));
    }
    var summary := entry.fields;
    if !HasInt(summary, "shard_id", 0) || ShardBounds(|b.inputs|, n, summary["shard_id"].number).Failure? {
      return Failure(Wrong("shard_id"));
    }
    var id: nat := summary["shard_id"].number;
    var paths := SliceOf(b, id, n);
    SlicesAreEven(|b.inputs|, n, id, id);
    assert paths[0] in b.inputs && paths[|paths| - 1] in b.inputs;
    if !DescribesShard(env, paths, ManifestSha(env, ShardFields(env, b, id, n)), summary) {
      return Failure(Wrong("summary"));
    }
    r := Success(id);
  }

  /** The loop over summaries, and the two checks on the ids it collected. */
  method ValidateEntries(env: Env, b: Base, n: nat, entries: seq<Json>) returns (r: Outcome<ManifestError>)
    requires BaseOk(env, b) && 0 < n <= |b.inputs| && |entries| == n
    ensures r.Pass? <==> EntriesMatch(env, b, n, entries)
  {
    var ids: seq<nat>, seen: set<nat> := [], {};
    for i := 0 to n
      invariant |ids| == i && seen == set id | id in ids
      invariant forall j: nat | j < i :: entries[j].Obj? && ids[j] < n && SummaryMatches(env, b, ids[j], n, entries[j].fields)
    {
      var checked := ValidateSummary(env, b, n, entries[i]);
      if checked.Failure? {
        return Fail(checked.error);
      }
      if checked.value in seen {
        var j: nat :| j < i && ids[j] == checked.value;
        return Fail(Duplicate);
      }
      ids, seen := ids + [checked.value], seen + {checked.value};
    }
    if exists j: nat :: j < n && ids[j] != j {
      return Fail(NotCovered);
    }
    r := Pass;
  }

  /** `validate_shard_plan` without shard documents. */
  method ValidatePlan(env: Env, b: Base, ceiling: nat, doc: Doc) returns (r: Result<nat, ManifestError>)
    requires BaseOk(env, b)
    ensures r.Success? ==> ValidPlan(env, b, ceiling, r.value, doc)
    ensures r.Failure? ==> forall n: nat :: !ValidPlan(env, b, ceiling, n, doc)
  {
    if !HasInt(doc, "shard_count", 1) || doc["shard_count"].number > |b.inputs| {
      return Failure(Wrong("shard_count"));
    }
    var n: nat := doc["shard_count"].number;
    if !PlanHeaderOk(b, n, doc) {
      return Failure(Wrong("kind"));
    }
    if !CapacityOk(|b.inputs|, n, ceiling) {
      return Failure(OverCapacity);
    }
    if "shards" !in doc || !doc["shards"].Arr? || |doc["shards"].items| != n {
      return Failure(WrongCount);
    }
    var entries := ValidateEntries(env, b, n, doc["shards"].items);
    if entries.Fail? {
      return Failure(entries.error);
    }
    if "plan_sha256" !in doc || doc["plan_sha256"] != Str(PlanSha(env, doc)) {
      return Failure(Wrong("plan_sha256"));
    }
    r := Success(n);
  }

  /** `_shard_summary` of a shard document. */
  function SummaryOf(doc: Doc): Doc
    requires {"shard_id", "input_count", "first_input", "last_input", "inputs_sha256", "manifest_sha256"} <= doc.Keys
  {
    map["shard_id" := doc["shard_id"], "input_count" := doc["input_count"], "first_input" := doc["first_input"],
        "last_input" := doc["last_input"], "inputs_sha256" := doc["inputs_sha256"], "shard_manifest_sha256" := doc["manifest_sha256"]]
  }

  /** The entries are the summaries of these shard documents, and nothing more. */
  predicate BoundTo(entries: seq<Json>, ordered: seq<Doc>) {
    && |entries| == |ordered|
    && forall i: nat | i < |entries| ::
         && {"shard_id", "input_count", "first_input", "last_input", "inputs_sha256", "manifest_sha256"} <= ordered[i].Keys
         && entries[i] == Obj(SummaryOf(ordered[i]))
  }

  /** `validate_shard_plan` with shard documents: the plan, the set, and that one describes the other. */
  ghost predicate ValidPlanWith(env: Env, b: Base, ceiling: nat, n: nat, doc: Doc, ordered: seq<Doc>) {
    ValidPlan(env, b, ceiling, n, doc) && InOrder(env, b, n, ordered) && BoundTo(doc["shards"].items, ordered)
  }

  /** The shard order of a list of shard documents is unique. */
  lemma OneOrder(env: Env, b: Base, n: nat, x: seq<Doc>, y: seq<Doc>)
    requires InOrder(env, b, n, x) && InOrder(env, b, n, y) && multiset(x) == multiset(y)
    ensures x == y
  {
    forall i: nat | i < n
      ensures x[i] == y[i]
    {
      assert x[i] in multiset(y);
      var k: nat :| k < n && y[k] == x[i];
      assert Identifies(x[i], i, n) && Identifies(x[i], k, n);
    }
  }

  lemma OrderedIsASet(env: Env, b: Base, ceiling: nat, n: nat, ordered: seq<Doc>, shards: seq<Doc>)
    requires CapacityOk(|b.inputs|, n, ceiling) && InOrder(env, b, n, ordered) && multiset(ordered) == multiset(shards)
    ensures IsShardSet(env, b, ceiling, n, shards)
  {
    assert |shards| == |multiset(shards)| == n;
    forall i: nat | i < n
      ensures Some(i) in Labels(env, b, n, shards)
    {
      assert ordered[i] in multiset(shards);
      var k: nat :| k < n && shards[k] == ordered[i];
      WhichIs(env, b, n, shards[k], i);
      assert Labels(env, b, n, shards)[k] == Some(i);
    }
  }

  /** `validate_shard_plan` with shard documents, whatever order they come in. */
  method ValidatePlanWith(env: Env, b: Base, ceiling: nat, doc: Doc, shards: seq<Doc>) returns (r: Result<seq<Doc>, ManifestError>)
    requires BaseOk(env, b)
    ensures r.Success? ==> multiset(r.value) == multiset(shards) && ValidPlanWith(env, b, ceiling, |shards|, doc, r.value)
    ensures r.Failure? ==>
              forall n: nat, ordered | multiset(ordered) == multiset(shards) :: !ValidPlanWith(env, b, ceiling, n, doc, ordered)
  {
    var n := ValidatePlan(env, b, ceiling, doc);
    if n.Failure? {
      return Failure(n.error);
    }
    var ordered := VerifyAgainst(env, b, ceiling, shards);
    forall m: nat, other | multiset(other) == multiset(shards) && ValidPlanWith(env, b, ceiling, m, doc, other)
      ensures m == n.value && IsShardSet(env, b, ceiling, m, shards)
      ensures ordered.Success? ==> |shards| == m && other == ordered.value
    {
      OrderedIsASet(env, b, ceiling, m, other, shards);
      if ordered.Success? {
        OneOrder(env, b, m, other, ordered.value);
      }
    }
    if ordered.Failure? {
      return Failure(ordered.error);
    }
    if |shards| != n.value || !BoundTo(doc["shards"].items, ordered.value) {
      return Failure(NotCovered);
    }
    r := Success(ordered.value);
  }
}
