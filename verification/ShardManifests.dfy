/**
Base manifests and single shard manifests: the documents, their validators, and that a
valid shard document is, extra fields aside, the one the tool itself would write.
*/
module ShardManifests {
  import opened Wrappers
  import opened ShardMath

  /** Parsed JSON; numbers are integers. */
  datatype Json =
    | Null
    | Bool(flag: bool)
    | Num(number: int)
    | Str(text: string)
    | Arr(items: seq<Json>)
    | Obj(fields: map<string, Json>)

  type Doc = map<string, Json>

  const FORMAT_VERSION := Num(2)
  const BASE_KIND := Str("common-crawl-v2-base-manifest")
  const SHARD_KIND := Str("common-crawl-v2-shard-manifest")
  const MAX_SAFE_INPUTS := 100_000
  const MAX_SAFE_INPUTS_PER_SHARD := 1_000

  predicate IsSha(s: string) {
    |s| == 64 && forall c | c in s :: '0' <= c <= '9' || 'a' <= c <= 'f'
  }

  type Digest = s: string | IsSha(s) witness seq(64, _ => '0')

  /** The opaque SHA-256 of an input list and of a canonical document, the part suffix, `str.strip`. */
  datatype Env = Env(listSha: seq<string> -> Digest, docSha: Doc -> Digest, suffix: string -> string, strip: string -> string)

  function ManifestSha(env: Env, doc: Doc): Digest {
    env.docSha(doc - {"manifest_sha256"})
  }

  datatype ManifestError = Missing | Wrong(field: string) | Duplicate | SuffixCollision | OverCapacity | WrongCount | NotCovered

  // ---------------------------------------------------------------- input lists

  predicate LowerAlnum(c: char) {
    'a' <= c <= 'z' || '0' <= c <= '9'
  }

  predicate RunIdOk(s: string) {
    1 <= |s| <= 128 && LowerAlnum(s[0]) && forall c | c in s :: LowerAlnum(c) || c in "._-"
  }

  predicate CrawlOk(s: string) {
    s != "" && forall c | c in s :: c !in "\r\n/\\"
  }

  predicate EndsWith(s: string, suffix: string) {
    |suffix| <= |s| && s[|s| - |suffix|..] == suffix
  }

  predicate PathOk(env: Env, crawl: string, path: string) {
    && path != "" && path == env.strip(path) && '\r' !in path && '\n' !in path
    && "crawl-data/" + crawl + "/" <= path && EndsWith(path, ".wat.gz")
  }

  const DIGITS := "0123456789"
  const LETTERS := "abcdefghijklmnopqrstuvwxyz"

  lemma OneOf(c: char)
    ensures '0' <= c <= '9' <==> c in DIGITS
    ensures 'a' <= c <= 'z' <==> c in LETTERS
    ensures 'a' <= c <= 'f' <==> c in "abcdef"
  {
    if '0' <= c <= '9' {
      assert DIGITS[c as int - '0' as int] == c;
    }
    if 'a' <= c <= 'z' {
      assert LETTERS[c as int - 'a' as int] == c;
    }
    if 'a' <= c <= 'f' {
      assert "abcdef"[c as int - 'a' as int] == c;
    }
  }

  /** The names the tool takes, letter by letter: digests, run identifiers, crawls and WAT paths. */
  lemma NamesAre(env: Env, crawl: string, s: string)
    ensures IsSha(s) <==> |s| == 64 && forall c | c in s :: c in DIGITS || c in "abcdef"
    ensures RunIdOk(s) <==>
              && 1 <= |s| <= 128 && (s[0] in LETTERS || s[0] in DIGITS)
              && forall c | c in s :: c in LETTERS || c in DIGITS || c in "._-"
    ensures CrawlOk(s) <==> |s| >= 1 && '/' !in s && '\\' !in s && '\n' !in s && '\r' !in s
    ensures PathOk(env, crawl, s) <==>
              && |s| >= 7 && s[|s| - 7..] == ".wat.gz" && "crawl-data/" + crawl + "/" <= s
              && env.strip(s) == s && '\n' !in s && '\r' !in s
  {
    forall c: char
      ensures '0' <= c <= '9' <==> c in DIGITS
      ensures 'a' <= c <= 'z' <==> c in LETTERS
      ensures 'a' <= c <= 'f' <==> c in "abcdef"
    {
      OneOf(c);
    }
  }

  predicate DistinctBy(paths: seq<string>, f: string -> string) {
    forall i: nat, j: nat | i < j < |paths| :: f(paths[i]) != f(paths[j])
  }

  predicate DistinctPaths(paths: seq<string>) {
    forall i: nat, j: nat | i < j < |paths| :: paths[i] != paths[j]
  }

  predicate PathsOk(env: Env, crawl: string, paths: seq<string>) {
    && 1 <= |paths| <= MAX_SAFE_INPUTS
    && (forall path | path in paths :: PathOk(env, crawl, path))
    && DistinctPaths(paths) && DistinctBy(paths, env.suffix)
  }

  function PathsJson(paths: seq<string>): Json {
    Arr(seq(|paths|, i requires 0 <= i < |paths| => Str(paths[i])))
  }

  /** The strings of a JSON array of strings. */
  function PathsOf(j: Json): Option<seq<string>> {
    if j.Arr? && forall i: nat | i < |j.items| :: j.items[i].Str? then
      Some(seq(|j.items|, i requires 0 <= i < |j.items| => j.items[i].text))
    else None
  }

  lemma PathsOfJson(paths: seq<string>, j: Json)
    ensures PathsOf(PathsJson(paths)) == Some(paths)
    ensures PathsOf(j) == Some(paths) ==> j == PathsJson(paths)
  {
    assert PathsOf(PathsJson(paths)).value == paths;
  }

  /** `_validate_input_paths`. */
  method ValidateInputPaths(env: Env, inputs: Json, crawl: string, expected: Option<int>)
    returns (r: Result<seq<string>, ManifestError>)
    ensures r.Success? <==>
              && PathsOf(inputs).Some? && PathsOk(env, crawl, PathsOf(inputs).value)
              && (expected.Some? ==> |PathsOf(inputs).value| == expected.value)
    ensures r.Success? ==> Some(r.value) == PathsOf(inputs)
  {
    if !inputs.Arr? {
      return Failure(Wrong("inputs"));
    }
    if inputs.items == [] || |inputs.items| > MAX_SAFE_INPUTS {
      return Failure(WrongCount);
    }
    if expected.Some? && |inputs.items| != expected.value {
      return Failure(WrongCount);
    }
    var seenPaths: set<string>, seenKeys: map<string, string>, normalized: seq<string> := {}, map[], [];
    for i := 0 to |inputs.items|
      invariant |normalized| == i
      invariant forall j: nat | j < i :: inputs.items[j] == Str(normalized[j])
      invariant forall path | path in normalized :: PathOk(env, crawl, path)
      invariant seenPaths == set path | path in normalized
      invariant seenKeys.Keys == set path | path in normalized :: env.suffix(path)
      invariant DistinctPaths(normalized) && DistinctBy(normalized, env.suffix)
    {
      ghost var all := PathsOf(inputs);
      if !inputs.items[i].Str? {
        return Failure(Wrong("inputs"));
      }
      var path := inputs.items[i].text;
      assert all.Some? ==> all.value[i] == path && path in all.value;
      assert all.Some? ==> forall j: nat | j < i :: all.value[j] == normalized[j];
      if !PathOk(env, crawl, path) {
        return Failure(Wrong("inputs"));
      }
      if path in seenPaths {
        var j: nat :| j < i && normalized[j] == path;
        return Failure(Duplicate);
      }
      var key := env.suffix(path);
      if key in seenKeys {
        var other :| other in normalized && env.suffix(other) == key;
        var j: nat :| j < i && normalized[j] == other;
        return Failure(SuffixCollision);
      }
      seenPaths := seenPaths + {path};
      seenKeys := seenKeys[key := path];
      normalized := normalized + [path];
    }
    assert PathsOf(inputs).value == normalized;
    r := Success(normalized);
  }

  /** A contiguous piece of a valid list is valid. */
  lemma SliceOk(env: Env, crawl: string, paths: seq<string>, from: nat, to: nat)
    requires PathsOk(env, crawl, paths) && from < to <= |paths|
    ensures PathsOk(env, crawl, paths[from..to])
  {
    var slice := paths[from..to];
    forall i: nat, j: nat | i < j < |slice|
      ensures slice[i] != slice[j] && env.suffix(slice[i]) != env.suffix(slice[j])
    {
      assert slice[i] == paths[from + i] && slice[j] == paths[from + j];
    }
  }

  // ---------------------------------------------------------------- the base manifest

  predicate HasText(doc: Doc, field: string) {
    field in doc && doc[field].Str? && doc[field].text != ""
  }

  predicate HasSha(doc: Doc, field: string) {
    HasText(doc, field) && IsSha(doc[field].text)
  }

  predicate HasInt(doc: Doc, field: string, least: int) {
    field in doc && doc[field].Num? && doc[field].number >= least
  }

  /** `validate_base_manifest` as a statement about the document. */
  predicate ValidBase(env: Env, doc: Doc, expected: int) {
    && "format_version" in doc && doc["format_version"] == FORMAT_VERSION
    && "kind" in doc && doc["kind"] == BASE_KIND
    && HasText(doc, "run_id") && RunIdOk(doc["run_id"].text)
    && HasText(doc, "crawl") && CrawlOk(doc["crawl"].text)
    && HasInt(doc, "input_count", 1) && doc["input_count"].number == expected
    && "inputs" in doc && PathsOf(doc["inputs"]).Some?
    && PathsOk(env, doc["crawl"].text, PathsOf(doc["inputs"]).value) && |PathsOf(doc["inputs"]).value| == expected
    && HasText(doc, "inputs_sha256") && doc["inputs_sha256"].text == env.listSha(PathsOf(doc["inputs"]).value)
    && HasText(doc, "manifest_sha256") && doc["manifest_sha256"].text == ManifestSha(env, doc)
  }

  datatype Base = Base(runId: string, crawl: string, inputs: seq<string>, inputsSha: string, manifestSha: string)

  function BaseOf(env: Env, doc: Doc, expected: int): (b: Base)
    requires ValidBase(env, doc, expected)
    ensures BaseOk(env, b)
  {
    Base(doc["run_id"].text, doc["crawl"].text, PathsOf(doc["inputs"]).value, doc["inputs_sha256"].text, doc["manifest_sha256"].text)
  }

  /** What the rest of the tool relies on once a base manifest is validated. */
  predicate BaseOk(env: Env, b: Base) {
    && RunIdOk(b.runId) && CrawlOk(b.crawl) && PathsOk(env, b.crawl, b.inputs)
    && b.inputsSha == env.listSha(b.inputs) && IsSha(b.manifestSha)
  }

  /** `validate_base_manifest`. */
  method ValidateBaseManifest(env: Env, doc: Doc, expected: int) returns (r: Result<Base, ManifestError>)
    ensures r.Success? <==> ValidBase(env, doc, expected)
    ensures r.Success? ==> r.value == BaseOf(env, doc, expected)
  {
    if !({"format_version", "kind", "run_id", "crawl", "input_count", "inputs_sha256", "manifest_sha256", "inputs"} <= doc.Keys) {
      return Failure(Missing);
    }
    if doc["format_version"] != FORMAT_VERSION {
      return Failure(Wrong("format_version"));
    }
    if doc["kind"] != BASE_KIND {
      return Failure(Wrong("kind"));
    }
    if !HasText(doc, "run_id") || !RunIdOk(doc["run_id"].text) {
      return Failure(Wrong("run_id"));
    }
    if !HasText(doc, "crawl") || !CrawlOk(doc["crawl"].text) {
      return Failure(Wrong("crawl"));
    }
    if !HasInt(doc, "input_count", 1) || doc["input_count"].number != expected {
      return Failure(Wrong("input_count"));
    }
    var paths :- ValidateInputPaths(env, doc["inputs"], doc["crawl"].text, Some(expected));
    if !HasSha(doc, "inputs_sha256") || doc["inputs_sha256"].text != env.listSha(paths) {
      return Failure(Wrong("inputs_sha256"));
    }
    if !HasSha(doc, "manifest_sha256") || doc["manifest_sha256"].text != ManifestSha(env, doc) {
      return Failure(Wrong("manifest_sha256"));
    }
    r := Success(BaseOf(env, doc, expected));
  }

  // ---------------------------------------------------------------- one shard

  function SliceOf(b: Base, id: nat, count: nat): (r: seq<string>)
    requires id < count <= |b.inputs|
    ensures |r| == Size(|b.inputs|, count, id) >= 1
  {
    SlicesAreEven(|b.inputs|, count, id, id);
    b.inputs[Start(|b.inputs|, count, id)..Start(|b.inputs|, count, id) + Size(|b.inputs|, count, id)]
  }

  function HeaderFields(b: Base): Doc {
    map["format_version" := FORMAT_VERSION, "kind" := SHARD_KIND, "run_id" := Str(b.runId), "crawl" := Str(b.crawl),
        "base_manifest_sha256" := Str(b.manifestSha), "base_inputs_sha256" := Str(b.inputsSha)]
  }

  function IdentityFields(id: nat, count: nat): Doc {
    map["shard_id" := Num(id), "shard_count" := Num(count)]
  }

  function ContentFields(env: Env, paths: seq<string>): Doc
    requires paths != []
  {
    map["input_count" := Num(|paths|), "inputs_sha256" := Str(env.listSha(paths)), "first_input" := Str(paths[0]),
        "last_input" := Str(paths[|paths| - 1]), "inputs" := PathsJson(paths)]
  }

  /** Every field of the one shard document for `(id, count)`, its own hash excepted. */
  function ShardFields(env: Env, b: Base, id: nat, count: nat): Doc
    requires id < count <= |b.inputs|
  {
    HeaderFields(b) + IdentityFields(id, count) + ContentFields(env, SliceOf(b, id, count))
  }

  /** `_expected_shard_document_from_validated_base`. */
  function ExpectedShard(env: Env, b: Base, id: nat, count: nat): Doc
    requires id < count <= |b.inputs|
  {
    var fields := ShardFields(env, b, id, count);
    fields["manifest_sha256" := Str(ManifestSha(env, fields))]
  }

  predicate Identifies(doc: Doc, id: nat, count: nat) {
    && "shard_id" in doc && doc["shard_id"] == Num(id)
    && "shard_count" in doc && doc["shard_count"] == Num(count)
  }

  /** The identity fields of a shard document. */
  predicate HeaderOk(b: Base, doc: Doc) {
    && "format_version" in doc && doc["format_version"] == FORMAT_VERSION
    && "kind" in doc && doc["kind"] == SHARD_KIND
    && "run_id" in doc && doc["run_id"] == Str(b.runId)
    && "crawl" in doc && doc["crawl"] == Str(b.crawl)
    && "base_manifest_sha256" in doc && doc["base_manifest_sha256"] == Str(b.manifestSha)
    && "base_inputs_sha256" in doc && doc["base_inputs_sha256"] == Str(b.inputsSha)
  }

  /** The fields that describe the shard's own inputs. */
  predicate ContentOk(env: Env, paths: seq<string>, doc: Doc)
    requires paths != []
  {
    && "input_count" in doc && doc["input_count"] == Num(|paths|)
    && "inputs" in doc && doc["inputs"] == PathsJson(paths)
    && "first_input" in doc && doc["first_input"] == Str(paths[0])
    && "last_input" in doc && doc["last_input"] == Str(paths[|paths| - 1])
    && "inputs_sha256" in doc && doc["inputs_sha256"] == Str(env.listSha(paths))
    && "manifest_sha256" in doc && doc["manifest_sha256"] == Str(ManifestSha(env, doc))
  }

  /** The document is shard `(id, count)` of the base, apart from fields of its own. */
  predicate ShardMatches(env: Env, b: Base, id: nat, count: nat, doc: Doc)
    requires id < count <= |b.inputs|
  {
    HeaderOk(b, doc) && Identifies(doc, id, count) && ContentOk(env, SliceOf(b, id, count), doc)
  }

  /** The document agrees with the expected one on every field of the latter but the hash. */
  ghost predicate Agrees(fields: Doc, doc: Doc) {
    forall field | field in fields :: field in doc && doc[field] == fields[field]
  }

  lemma MatchesAreAgreement(env: Env, b: Base, id: nat, count: nat, doc: Doc)
    requires id < count <= |b.inputs|
    ensures ShardMatches(env, b, id, count, doc) <==>
              && Agrees(ShardFields(env, b, id, count), doc)
              && "manifest_sha256" in doc && doc["manifest_sha256"] == Str(ManifestSha(env, doc))
  {
    KeysApart(env, b, id, count);
    HeaderAgrees(b, doc);
    IdentityAgrees(id, count, doc);
    ContentAgrees(env, SliceOf(b, id, count), doc);
    AgreesSum(HeaderFields(b), IdentityFields(id, count), doc);
    AgreesSum(HeaderFields(b) + IdentityFields(id, count), ContentFields(env, SliceOf(b, id, count)), doc);
  }

  lemma KeysApart(env: Env, b: Base, id: nat, count: nat)
    requires id < count <= |b.inputs|
    ensures HeaderFields(b).Keys !! IdentityFields(id, count).Keys
    ensures (HeaderFields(b) + IdentityFields(id, count)).Keys !! ContentFields(env, SliceOf(b, id, count)).Keys
    ensures "manifest_sha256" !in ShardFields(env, b, id, count)
  {
  }

  lemma HeaderAgrees(b: Base, doc: Doc)
    ensures HeaderOk(b, doc) <==> Agrees(HeaderFields(b), doc)
  {
  }

  lemma IdentityAgrees(id: nat, count: nat, doc: Doc)
    ensures Identifies(doc, id, count) <==> Agrees(IdentityFields(id, count), doc)
  {
  }

  lemma ContentAgrees(env: Env, paths: seq<string>, doc: Doc)
    requires paths != []
    ensures ContentOk(env, paths, doc) <==>
              && Agrees(ContentFields(env, paths), doc)
              && "manifest_sha256" in doc && doc["manifest_sha256"] == Str(ManifestSha(env, doc))
  {
  }

  lemma AgreesSum(x: Doc, y: Doc, doc: Doc)
    requires x.Keys !! y.Keys
    ensures Agrees(x + y, doc) <==> Agrees(x, doc) && Agrees(y, doc)
  {
    assert forall field | field in x :: field in x + y && (x + y)[field] == x[field];
    assert forall field | field in y :: field in x + y && (x + y)[field] == y[field];
  }

  /** A document that agrees with `fields` and has only one more field is `fields` with that one added. */
  lemma OneMore(fields: Doc, doc: Doc, extra: string)
    requires extra !in fields && Agrees(fields, doc) && doc.Keys == fields.Keys + {extra}
    ensures doc - {extra} == fields && doc == fields[extra := doc[extra]]
  {
  }

  lemma OneLess(fields: Doc, extra: string, value: Json)
    requires extra !in fields
    ensures fields - {extra} == fields && fields[extra := value] - {extra} == fields && Agrees(fields, fields[extra := value])
    ensures fields[extra := value].Keys == fields.Keys + {extra}
  {
  }

  lemma ExpectedMatches(env: Env, b: Base, id: nat, count: nat)
    requires id < count <= |b.inputs|
    ensures ShardMatches(env, b, id, count, ExpectedShard(env, b, id, count))
  {
    var fields, expected := ShardFields(env, b, id, count), ExpectedShard(env, b, id, count);
    KeysApart(env, b, id, count);
    OneLess(fields, "manifest_sha256", expected["manifest_sha256"]);
    MatchesAreAgreement(env, b, id, count, expected);
  }

  /** Without extra fields there is only one such document. */
  lemma NoExtrasNoChoice(env: Env, b: Base, id: nat, count: nat, doc: Doc)
    requires id < count <= |b.inputs|
    requires ShardMatches(env, b, id, count, doc) && doc.Keys == ExpectedShard(env, b, id, count).Keys
    ensures doc == ExpectedShard(env, b, id, count)
  {
    var fields, expected := ShardFields(env, b, id, count), ExpectedShard(env, b, id, count);
    KeysApart(env, b, id, count);
    OneLess(fields, "manifest_sha256", expected["manifest_sha256"]);
    MatchesAreAgreement(env, b, id, count, doc);
    OneMore(fields, doc, "manifest_sha256");
  }

  /** `_validate_shard_manifest_against_validated_base` as a statement about the document. */
  ghost predicate ValidShard(env: Env, b: Base, ceiling: nat, doc: Doc) {
    exists id: nat, count: nat {:trigger Identifies(doc, id, count)} ::
      id < count && CapacityOk(|b.inputs|, count, ceiling) && Identifies(doc, id, count) && ShardMatches(env, b, id, count, doc)
  }

  lemma ValidShardIs(env: Env, b: Base, ceiling: nat, doc: Doc, id: nat, count: nat)
    requires Identifies(doc, id, count)
    ensures ValidShard(env, b, ceiling, doc) <==>
              id < count && CapacityOk(|b.inputs|, count, ceiling) && ShardMatches(env, b, id, count, doc)
  {
  }

  /** The first half of the shard validator: identity, range and capacity. */
  method ValidateHeader(env: Env, b: Base, ceiling: nat, doc: Doc) returns (r: Result<(nat, nat), ManifestError>)
    requires BaseOk(env, b)
    ensures r.Success? ==>
              r.value.0 < r.value.1 && CapacityOk(|b.inputs|, r.value.1, ceiling) && Identifies(doc, r.value.0, r.value.1)
    ensures r.Success? <==>
              && HeaderOk(b, doc) && HasInt(doc, "shard_id", 0) && HasInt(doc, "shard_count", 1)
              && doc["shard_id"].number < doc["shard_count"].number
              && CapacityOk(|b.inputs|, doc["shard_count"].number, ceiling)
  {
    if !({"format_version", "kind", "run_id", "crawl", "shard_id", "shard_count", "base_manifest_sha256", "base_inputs_sha256"} <= doc.Keys) {
      return Failure(Missing);
    }
    if doc["format_version"] != FORMAT_VERSION || doc["kind"] != SHARD_KIND {
      return Failure(Wrong("kind"));
    }
    if !HasText(doc, "run_id") || !RunIdOk(doc["run_id"].text) || doc["run_id"].text != b.runId {
      return Failure(Wrong("run_id"));
    }
    if !HasText(doc, "crawl") || !CrawlOk(doc["crawl"].text) || doc["crawl"].text != b.crawl {
      return Failure(Wrong("crawl"));
    }
    if !HasInt(doc, "shard_count", 1) || !HasInt(doc, "shard_id", 0) {
      return Failure(Wrong("shard_id"));
    }
    var id, count := doc["shard_id"].number, doc["shard_count"].number;
    if !CapacityOk(|b.inputs|, count, ceiling) {
      return Failure(OverCapacity);
    }
    if ShardBounds(|b.inputs|, count, id).Failure? {
      return Failure(Wrong("shard_id"));
    }
    if !HasSha(doc, "base_manifest_sha256") || doc["base_manifest_sha256"].text != b.manifestSha {
      return Failure(Wrong("base_manifest_sha256"));
    }
    if !HasSha(doc, "base_inputs_sha256") || doc["base_inputs_sha256"].text != b.inputsSha {
      return Failure(Wrong("base_inputs_sha256"));
    }
    r := Success((id, count));
  }

  /** The second half: the shard's own input list. */
  method ValidateContent(env: Env, b: Base, paths: seq<string>, doc: Doc) returns (r: Outcome<ManifestError>)
    requires paths != [] && PathsOk(env, b.crawl, paths)
    ensures r.Pass? <==> ContentOk(env, paths, doc)
  {
    PathsOfJson(paths, if "inputs" in doc then doc["inputs"] else Null);
    if !({"input_count", "inputs_sha256", "manifest_sha256", "first_input", "last_input", "inputs"} <= doc.Keys) {
      return Fail(Missing);
    }
    if !HasInt(doc, "input_count", 1) || doc["input_count"].number != |paths| {
      return Fail(Wrong("input_count"));
    }
    var found := ValidateInputPaths(env, doc["inputs"], b.crawl, Some(|paths|));
    if found.Failure? {
      return Fail(found.error);
    }
    if found.value != paths {
      return Fail(Wrong("inputs"));
    }
    assert forall path | path in paths :: PathOk(env, b.crawl, path);
    assert paths[0] in paths && paths[|paths| - 1] in paths;
    if !HasText(doc, "first_input") || doc["first_input"].text != paths[0] {
      return Fail(Wrong("first_input"));
    }
    if !HasText(doc, "last_input") || doc["last_input"].text != paths[|paths| - 1] {
      return Fail(Wrong("last_input"));
    }
    if !HasSha(doc, "inputs_sha256") || doc["inputs_sha256"].text != env.listSha(paths) {
      return Fail(Wrong("inputs_sha256"));
    }
    if !HasSha(doc, "manifest_sha256") || doc["manifest_sha256"].text != ManifestSha(env, doc) {
      return Fail(Wrong("manifest_sha256"));
    }
    r := Pass;
  }

  /** `_validate_shard_manifest_against_validated_base`: it accepts the shards of the one split, and nothing else. */
  method ValidateShard(env: Env, b: Base, ceiling: nat, doc: Doc) returns (r: Result<(nat, nat), ManifestError>)
    requires BaseOk(env, b)
    ensures r.Success? <==> ValidShard(env, b, ceiling, doc)
    ensures r.Success? ==>
              && r.value.0 < r.value.1 && CapacityOk(|b.inputs|, r.value.1, ceiling)
              && Identifies(doc, r.value.0, r.value.1) && ShardMatches(env, b, r.value.0, r.value.1, doc)
  {
    r := ValidateHeader(env, b, ceiling, doc);
    if r.Failure? {
      if ValidShard(env, b, ceiling, doc) {
        InvalidHeader(env, b, ceiling, doc);
      }
      return;
    }
    var (id, count) := r.value;
    ValidShardIs(env, b, ceiling, doc, id, count);
    SlicesAreEven(|b.inputs|, count, id, id);
    SliceOk(env, b.crawl, b.inputs, Start(|b.inputs|, count, id), Start(|b.inputs|, count, id) + Size(|b.inputs|, count, id));
    var content := ValidateContent(env, b, SliceOf(b, id, count), doc);
    if content.Fail? {
      return Failure(content.error);
    }
  }

  lemma InvalidHeader(env: Env, b: Base, ceiling: nat, doc: Doc)
    requires ValidShard(env, b, ceiling, doc)
    ensures HeaderOk(b, doc) && HasInt(doc, "shard_id", 0) && HasInt(doc, "shard_count", 1)
            && doc["shard_id"].number < doc["shard_count"].number
            && CapacityOk(|b.inputs|, doc["shard_count"].number, ceiling)
  {
    var id: nat, count: nat :| id < count && CapacityOk(|b.inputs|, count, ceiling) && Identifies(doc, id, count) && ShardMatches(env, b, id, count, doc);
  }
}
