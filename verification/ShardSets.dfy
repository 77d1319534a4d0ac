/**
Sets of shards: the set verifier accepts exactly the permutations of the deterministic
split of a base manifest into some number of shards within the ceiling.
*/
module ShardSets {
  import opened Wrappers
  import opened Collections
  import opened ShardMath
  import opened ShardManifests

  // ---------------------------------------------------------------- n labels that cover 0..n

  ghost predicate Covers(labels: seq<Option<nat>>, n: nat) {
    forall i: nat | i < n :: Some(i) in labels
  }

  function Below(n: nat): (r: set<nat>)
    ensures |r| == n && forall i: nat :: i in r <==> i < n
  {
    if n == 0 then {} else Below(n - 1) + {n - 1}
  }

  function Used(labels: seq<Option<nat>>): set<nat> {
    set l | l in labels && l.Some? :: l.value
  }

  lemma {:induction false} UsedSize(labels: seq<Option<nat>>)
    ensures |Used(labels)| <= |labels|
  {
    if labels != [] {
      var k := |labels| - 1;
      UsedSize(labels[..k]);
      assert labels == labels[..k] + [labels[k]];
      assert Used(labels) <= Used(labels[..k]) + if labels[k].Some? then {labels[k].value} else {};
      SubsetSize(Used(labels), Used(labels[..k]) + if labels[k].Some? then {labels[k].value} else {});
    }
  }

  /** When `n` labels cover `0..n`, each of them is one of those numbers, and no two are equal. */
  lemma CoverIsExact(labels: seq<Option<nat>>, n: nat, j: nat)
    requires Covers(labels, n) && |labels| == n && j < n
    ensures labels[j].Some? && labels[j].value < n
    ensures labels[j] !in labels[..j]
  {
    var rest := labels[..j] + labels[j + 1..];
    if labels[j].None? || labels[j].value >= n || labels[j] in labels[..j] {
      forall i | i in Below(n)
        ensures i in Used(rest)
      {
        assert Some(i) in labels;
        var k: nat :| k < n && labels[k] == Some(i);
        if k < j {
          assert rest[k] == Some(i);
        } else if k > j {
          assert rest[k - 1] == Some(i);
        } else {
          var m: nat :| m < j && labels[m] == labels[j];
          assert rest[m] == Some(i);
        }
      }
      SubsetSize(Below(n), Used(rest));
      UsedSize(rest);
    }
  }

  lemma FullRange(ids: set<nat>, n: nat)
    requires ids <= Below(n) && |ids| == n
    ensures ids == Below(n)
  {
    forall i | i in Below(n)
      ensures i in ids
    {
      if i !in ids {
        SubsetSize(ids, Below(n) - {i});
      }
    }
  }

  // ---------------------------------------------------------------- a dictionary by id

  /** The values of a map over `0..n`, in id order, as a multiset. */
  function Values<T>(byId: map<nat, T>, n: nat): multiset<T> {
    if n == 0 then multiset{} else Values(byId, n - 1) + if n - 1 in byId then multiset{byId[n - 1]} else multiset{}
  }

  lemma {:induction false} ValuesAdd<T>(byId: map<nat, T>, n: nat, id: nat, value: T)
    requires id !in byId
    ensures Values(byId[id := value], n) == Values(byId, n) + if id < n then multiset{value} else multiset{}
  {
    if n > 0 {
      ValuesAdd(byId, n - 1, id, value);
    }
  }

  lemma {:induction false} ValuesOfList<T>(byId: map<nat, T>, ordered: seq<T>, n: nat)
    requires n <= |ordered| && forall id: nat | id < n :: id in byId && byId[id] == ordered[id]
    ensures Values(byId, n) == multiset(ordered[..n])
  {
    if n > 0 {
      ValuesOfList(byId, ordered, n - 1);
      assert ordered[..n] == ordered[..n - 1] + [ordered[n - 1]];
    }
  }

  lemma {:induction false} NoValues<T>(n: nat)
    ensures Values<T>(map[], n) == multiset{}
  {
    if n > 0 {
      NoValues<T>(n - 1);
    }
  }

  /** The values of a map over `0..n` as a list, in id order. */
  function ListOf<T>(byId: map<nat, T>, n: nat): (r: seq<T>)
    requires byId.Keys == Below(n)
    ensures |r| == n && forall id: nat | id < n :: r[id] == byId[id]
  {
    seq(n, id requires 0 <= id < n => byId[id])
  }

  lemma ListValues<T>(byId: map<nat, T>, n: nat)
    requires byId.Keys == Below(n)
    ensures multiset(ListOf(byId, n)) == Values(byId, n)
  {
    ValuesOfList(byId, ListOf(byId, n), n);
    assert ListOf(byId, n)[..n] == ListOf(byId, n);
  }

  // ---------------------------------------------------------------- what a shard set is

  /** Which of the `n` shards of the base a document is, if any. */
  function Which(env: Env, b: Base, n: nat, doc: Doc): (r: Option<nat>)
    requires n <= |b.inputs|
    ensures r.Some? ==> r.value < n && ShardMatches(env, b, r.value, n, doc)
    ensures r.None? ==> forall id: nat | id < n :: !ShardMatches(env, b, id, n, doc)
  {
    if "shard_id" in doc && doc["shard_id"].Num? && 0 <= doc["shard_id"].number < n && ShardMatches(env, b, doc["shard_id"].number, n, doc)
    then Some(doc["shard_id"].number)
    else None
  }

  lemma WhichIs(env: Env, b: Base, n: nat, doc: Doc, id: nat)
    requires id < n <= |b.inputs|
    ensures Which(env, b, n, doc) == Some(id) <==> ShardMatches(env, b, id, n, doc)
  {
  }

  function Labels(env: Env, b: Base, n: nat, shards: seq<Doc>): (r: seq<Option<nat>>)
    requires n <= |b.inputs|
    ensures |r| == |shards| && forall j: nat | j < |shards| :: r[j] == Which(env, b, n, shards[j])
  {
    seq(|shards|, j requires 0 <= j < |shards| => Which(env, b, n, shards[j]))
  }

  /** Place `i` of a list holds shard `i` of `n`. */
  ghost predicate InOrder(env: Env, b: Base, n: nat, shards: seq<Doc>) {
    0 < n <= |b.inputs| && |shards| == n && forall i: nat | i < n :: ShardMatches(env, b, i, n, shards[i])
  }

  /** The list is, up to extra fields, a permutation of the split into `n` shards. */
  ghost predicate IsShardSet(env: Env, b: Base, ceiling: nat, n: nat, shards: seq<Doc>) {
    CapacityOk(|b.inputs|, n, ceiling) && |shards| == n && Covers(Labels(env, b, n, shards), n)
  }

  /** The inputs of the first `k` shards, in order. */
  function Union(b: Base, n: nat, k: nat): seq<string>
    requires k <= n <= |b.inputs|
  {
    if k == 0 then [] else Union(b, n, k - 1) + SliceOf(b, k - 1, n)
  }

  lemma {:induction false} UnionIsPrefix(b: Base, n: nat, k: nat)
    requires 0 < n <= |b.inputs| && k <= n
    ensures Start(|b.inputs|, n, k) <= |b.inputs|
    ensures Union(b, n, k) == b.inputs[..Start(|b.inputs|, n, k)]
  {
    Cover(|b.inputs|, n);
    StartMonotone(|b.inputs|, n, k, n);
    if k > 0 {
      UnionIsPrefix(b, n, k - 1);
      Contiguous(|b.inputs|, n, k - 1);
      StartMonotone(|b.inputs|, n, k - 1, k);
      Extend(b.inputs, Start(|b.inputs|, n, k - 1), Start(|b.inputs|, n, k));
    } else {
      TakeAll(b.inputs);
    }
  }

  /** The shards together are the base list: nothing missing, nothing twice, nothing out of order. */
  lemma UnionIsBase(b: Base, n: nat)
    requires 0 < n <= |b.inputs|
    ensures Union(b, n, n) == b.inputs
  {
    UnionIsPrefix(b, n, n);
    Cover(|b.inputs|, n);
  }

  // ---------------------------------------------------------------- the set verifier

  /** `[path for shard in ordered for path in shard["inputs"]]`. */
  function Inputs(ordered: seq<Doc>): seq<string>
    requires forall doc | doc in ordered :: "inputs" in doc && PathsOf(doc["inputs"]).Some?
  {
    if ordered == [] then []
    else Inputs(ordered[..|ordered| - 1]) + PathsOf(ordered[|ordered| - 1]["inputs"]).value
  }

  lemma MatchedInputs(env: Env, b: Base, n: nat, i: nat, doc: Doc)
    requires i < n <= |b.inputs| && ShardMatches(env, b, i, n, doc)
    ensures "inputs" in doc && PathsOf(doc["inputs"]) == Some(SliceOf(b, i, n))
  {
    PathsOfJson(SliceOf(b, i, n), doc["inputs"]);
  }

  /** The first `k` of a list in shard order list the inputs of the first `k` slices. */
  lemma {:induction false} InputsAreUnion(env: Env, b: Base, n: nat, ordered: seq<Doc>, k: nat)
    requires k <= n <= |b.inputs| && |ordered| == k
    requires forall i: nat | i < k :: ShardMatches(env, b, i, n, ordered[i])
    ensures forall doc | doc in ordered :: "inputs" in doc && PathsOf(doc["inputs"]).Some?
    ensures Inputs(ordered) == Union(b, n, k)
  {
    if k > 0 {
      var front, last := ordered[..k - 1], ordered[k - 1];
      SplitLast(ordered);
      FrontAt(ordered);
      InputsAreUnion(env, b, n, front, k - 1);
      MatchedInputs(env, b, n, k - 1, last);
      InputsStep(front, last);
    }
  }

  lemma InputsStep(front: seq<Doc>, last: Doc)
    requires forall doc | doc in front :: "inputs" in doc && PathsOf(doc["inputs"]).Some?
    requires "inputs" in last && PathsOf(last["inputs"]).Some?
    ensures forall doc | doc in front + [last] :: "inputs" in doc && PathsOf(doc["inputs"]).Some?
    ensures Inputs(front + [last]) == Inputs(front) + PathsOf(last["inputs"]).value
  {
    TakeFront(front, last);
  }

  /** The state of the checking loop: distinct valid shards of one count, by id. */
  ghost predicate Checked(env: Env, b: Base, n: nat, seen: seq<Doc>, byId: map<nat, Doc>) {
    && n <= |b.inputs|
    && Indexed(Labels(env, b, n, seen), seen, n, byId)
    && forall id | id in byId :: Which(env, b, n, byId[id]) == Some(id)
  }

  ghost predicate Indexed(labels: seq<Option<nat>>, seen: seq<Doc>, n: nat, byId: map<nat, Doc>) {
    && |byId| == |seen| && byId.Keys == Used(labels) && byId.Keys <= Below(n) && multiset(seen) == Values(byId, n)
  }

  lemma IndexedStep(labels: seq<Option<nat>>, seen: seq<Doc>, n: nat, byId: map<nat, Doc>, id: nat, doc: Doc)
    requires Indexed(labels, seen, n, byId) && id < n && id !in byId
    ensures Indexed(labels + [Some(id)], seen + [doc], n, byId[id := doc])
  {
    ValuesAdd(byId, n, id, doc);
    UsedStep(labels, id);
    assert byId[id := doc].Keys == byId.Keys + {id};
    assert multiset(seen + [doc]) == multiset(seen) + multiset{doc};
  }

  lemma LabelsStep(env: Env, b: Base, n: nat, seen: seq<Doc>, doc: Doc)
    requires n <= |b.inputs|
    ensures Labels(env, b, n, seen + [doc]) == Labels(env, b, n, seen) + [Which(env, b, n, doc)]
  {
  }

  lemma UsedStep(labels: seq<Option<nat>>, id: nat)
    ensures Used(labels + [Some(id)]) == Used(labels) + {id}
  {
  }

  lemma CheckedStep(env: Env, b: Base, n: nat, seen: seq<Doc>, byId: map<nat, Doc>, id: nat, doc: Doc)
    requires Checked(env, b, n, seen, byId) && id < n && id !in byId && Which(env, b, n, doc) == Some(id)
    ensures Checked(env, b, n, seen + [doc], byId[id := doc])
  {
    LabelsStep(env, b, n, seen, doc);
    IndexedStep(Labels(env, b, n, seen), seen, n, byId, id, doc);
  }

  lemma EmptyChecked(env: Env, b: Base, n: nat)
    requires n <= |b.inputs|
    ensures Checked(env, b, n, [], map[])
  {
    NoValues<Doc>(n);
    assert Labels(env, b, n, []) == [];
  }

  /** A repeated id means the list is not a shard set. */
  lemma RepeatIsNotASet(env: Env, b: Base, ceiling: nat, n: nat, shards: seq<Doc>, j: nat, id: nat)
    requires n <= |b.inputs| && j < |shards| && |shards| == n
    requires id in Used(Labels(env, b, n, shards[..j])) && Which(env, b, n, shards[j]) == Some(id)
    ensures !IsShardSet(env, b, ceiling, n, shards)
  {
    var labels := Labels(env, b, n, shards);
    assert Labels(env, b, n, shards[..j]) == labels[..j];
    if Covers(labels, n) {
      CoverIsExact(labels, n, j);
    }
  }

  /** Every member of a shard set is one of its shards. */
  lemma SetMember(env: Env, b: Base, ceiling: nat, n: nat, shards: seq<Doc>, j: nat)
    requires IsShardSet(env, b, ceiling, n, shards) && j < n
    ensures Which(env, b, n, shards[j]).Some? && ValidShard(env, b, ceiling, shards[j])
    ensures HasInt(shards[j], "shard_count", 1) && shards[j]["shard_count"].number == n
  {
    CoverIsExact(Labels(env, b, n, shards), n, j);
    ValidShardIs(env, b, ceiling, shards[j], Which(env, b, n, shards[j]).value, n);
  }

  /** What the first document already says about any count the list could be a set for. */
  lemma SetCount(env: Env, b: Base, ceiling: nat, shards: seq<Doc>)
    requires shards != []
    ensures forall n: nat | IsShardSet(env, b, ceiling, n, shards) ::
              HasInt(shards[0], "shard_count", 1) && n == shards[0]["shard_count"].number == |shards|
  {
    forall n: nat | IsShardSet(env, b, ceiling, n, shards)
      ensures HasInt(shards[0], "shard_count", 1) && n == shards[0]["shard_count"].number == |shards|
    {
      SetMember(env, b, ceiling, n, shards, 0);
    }
  }

  lemma CheckedIsASet(env: Env, b: Base, ceiling: nat, n: nat, shards: seq<Doc>, byId: map<nat, Doc>)
    requires CapacityOk(|b.inputs|, n, ceiling) && |shards| == n && Checked(env, b, n, shards, byId)
    ensures byId.Keys == Below(n) && IsShardSet(env, b, ceiling, n, shards)
  {
    FullRange(byId.Keys, n);
    UsedCovers(Labels(env, b, n, shards), n);
  }

  lemma UsedCovers(labels: seq<Option<nat>>, n: nat)
    requires Used(labels) == Below(n)
    ensures Covers(labels, n)
  {
    forall i: nat | i < n
      ensures Some(i) in labels
    {
      assert i in Used(labels);
    }
  }

  /** One turn of the checking loop. */
  method CheckOne(env: Env, b: Base, ceiling: nat, n: nat, shards: seq<Doc>, j: nat, byId: map<nat, Doc>)
    returns (r: Result<map<nat, Doc>, ManifestError>)
    requires BaseOk(env, b) && j < |shards| == n
    requires n <= |b.inputs| ==> Checked(env, b, n, shards[..j], byId)
    ensures r.Success? ==> CapacityOk(|b.inputs|, n, ceiling) && Checked(env, b, n, shards[..j] + [shards[j]], r.value)
    ensures r.Failure? ==> !IsShardSet(env, b, ceiling, n, shards)
  {
    if IsShardSet(env, b, ceiling, n, shards) {
      SetMember(env, b, ceiling, n, shards, j);
    }
    var checked :- ValidateShard(env, b, ceiling, shards[j]);
    if checked.1 != n {
      return Failure(WrongCount);
    }
    WhichIs(env, b, n, shards[j], checked.0);
    if checked.0 in byId {
      RepeatIsNotASet(env, b, ceiling, n, shards, j, checked.0);
      return Failure(Duplicate);
    }
    CheckedStep(env, b, n, shards[..j], byId, checked.0, shards[j]);
    r := Success(byId[checked.0 := shards[j]]);
  }

  lemma InOrderOf(env: Env, b: Base, n: nat, byId: map<nat, Doc>)
    requires 0 < n <= |b.inputs| && byId.Keys == Below(n)
    requires forall id | id in byId :: Which(env, b, n, byId[id]) == Some(id)
    ensures InOrder(env, b, n, ListOf(byId, n))
  {
    forall i: nat | i < n
      ensures ShardMatches(env, b, i, n, ListOf(byId, n)[i])
    {
      assert Which(env, b, n, byId[i]) == Some(i);
    }
  }

  /** The shards in id order, once every id has been seen; the union checks after it cannot fail. */
  method OrderShards(env: Env, b: Base, ceiling: nat, n: nat, shards: seq<Doc>, byId: map<nat, Doc>)
    returns (r: Result<seq<Doc>, ManifestError>)
    requires BaseOk(env, b) && CapacityOk(|b.inputs|, n, ceiling) && |shards| == n && Checked(env, b, n, shards, byId)
    ensures r.Success? && InOrder(env, b, n, r.value) && multiset(r.value) == multiset(shards)
  {
    CheckedIsASet(env, b, ceiling, n, shards, byId);
    if byId.Keys != Below(n) {
      return Failure(NotCovered);
    }
    var ordered := ListOf(byId, n);
    ListValues(byId, n);
    InOrderOf(env, b, n, byId);
    InputsAreUnion(env, b, n, ordered, n);
    UnionIsBase(b, n);
    var union := Inputs(ordered);
    if !DistinctPaths(union) {
      return Failure(Duplicate);
    }
    if union != b.inputs || env.listSha(union) != b.inputsSha {
      return Failure(NotCovered);
    }
    r := Success(ordered);
  }

  /** The part of `verify_shard_set` after the base manifest has been validated. */
  method VerifyAgainst(env: Env, b: Base, ceiling: nat, shards: seq<Doc>) returns (r: Result<seq<Doc>, ManifestError>)
    requires BaseOk(env, b)
    ensures r.Success? <==> exists n: nat :: IsShardSet(env, b, ceiling, n, shards)
    ensures r.Success? ==>
              && IsShardSet(env, b, ceiling, |shards|, shards)
              && InOrder(env, b, |shards|, r.value) && multiset(r.value) == multiset(shards)
  {
    if shards == [] {
      return Failure(Missing);
    }
    SetCount(env, b, ceiling, shards);
    if !HasInt(shards[0], "shard_count", 1) {
      return Failure(Wrong("shard_count"));
    }
    var n := shards[0]["shard_count"].number;
    if |shards| != n {
      return Failure(WrongCount);
    }
    var byId: map<nat, Doc> := map[];
    TakeAll(shards);
    if n <= |b.inputs| {
      EmptyChecked(env, b, n);
    }
    for j := 0 to n
      invariant n <= |b.inputs| ==> Checked(env, b, n, shards[..j], byId)
      invariant j > 0 ==> CapacityOk(|b.inputs|, n, ceiling)
    {
      TakeOne(shards, j);
      byId :- CheckOne(env, b, ceiling, n, shards, j, byId);
    }
    CheckedIsASet(env, b, ceiling, n, shards, byId);
    assert IsShardSet(env, b, ceiling, n, shards);
    r := OrderShards(env, b, ceiling, n, shards, byId);
  }

  /**
   * `verify_shard_set`: it accepts a list exactly when the base manifest is valid and the list
   * is a permutation of the split into some number of shards within the ceiling; it returns
   * the shards in order.
   */
  method VerifyShardSet(env: Env, base: Doc, expected: int, ceiling: nat, shards: seq<Doc>)
    returns (r: Result<seq<Doc>, ManifestError>)
    ensures r.Success? <==>
              ValidBase(env, base, expected) && exists n: nat :: IsShardSet(env, BaseOf(env, base, expected), ceiling, n, shards)
    ensures r.Success? ==>
              InOrder(env, BaseOf(env, base, expected), |shards|, r.value) && multiset(r.value) == multiset(shards)
  {
    var b :- ValidateBaseManifest(env, base, expected);
    r := VerifyAgainst(env, b, ceiling, shards);
  }

  /** `split_shards`, and that its own verifier accepts the result. */
  function Split(env: Env, b: Base, n: nat): (r: seq<Doc>)
    requires 0 < n <= |b.inputs|
    ensures |r| == n && forall i: nat | i < n :: r[i] == ExpectedShard(env, b, i, n)
  {
    seq(n, i requires 0 <= i < n => ExpectedShard(env, b, i, n))
  }

  lemma SplitIsASet(env: Env, b: Base, ceiling: nat, n: nat)
    requires CapacityOk(|b.inputs|, n, ceiling)
    ensures IsShardSet(env, b, ceiling, n, Split(env, b, n)) && InOrder(env, b, n, Split(env, b, n))
  {
    forall i: nat | i < n
      ensures ShardMatches(env, b, i, n, Split(env, b, n)[i]) && Labels(env, b, n, Split(env, b, n))[i] == Some(i)
    {
      ExpectedMatches(env, b, i, n);
    }
  }
}
