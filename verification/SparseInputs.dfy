/**
Selected-input manifests, dense or sparse: how they are checked when loaded, how a task
finds its input, and that the lanes' manifests and the lookup agree on every index.
*/
module SparseInputs {
  import opened Wrappers
  import opened Lanes

  const CRAWL := "CC-MAIN-2026-30"

  datatype Input = Input(sourceKey: string, suffix: string)

  /** A selected-input manifest whose fields have their JSON types. */
  datatype Document = Document(
    kind: string, crawl: string, inputCount: nat, sourceIndexes: Option<seq<int>>, inputs: seq<Input>,
    sourceManifestSha256: string, selectedInputsSha256: string)

  /** The part suffix, the key validator, the digest format and the digest of an input list. */
  datatype Env = Env(
    suffix: string -> string, validKey: string -> bool, isSha: string -> bool, digest: seq<Input> -> string)

  datatype InputError =
    | WrongKind | WrongCrawl | WrongCount | WrongIndexes | OutOfRange | NotSorted | WrongDigest | WrongKey | WrongSuffix | Duplicate
    | OutsideContract

  // ---------------------------------------------------------------- loading

  predicate StrictlyAscending(indexes: seq<int>) {
    forall i: nat, j: nat | i < j < |indexes| :: indexes[i] < indexes[j]
  }

  predicate IndexesOk(doc: Document) {
    match doc.sourceIndexes
    case None => |doc.inputs| == doc.inputCount
    case Some(indexes) =>
      && |indexes| == |doc.inputs| && indexes != []
      && (forall index | index in indexes :: 0 <= index < doc.inputCount)
      && StrictlyAscending(indexes)
  }

  predicate InputOk(env: Env, input: Input) {
    input.sourceKey != "" && env.validKey(input.sourceKey) && input.suffix != "" && input.suffix == env.suffix(input.sourceKey)
  }

  predicate DistinctKeys(inputs: seq<Input>) {
    forall i: nat, j: nat | i < j < |inputs| :: inputs[i].sourceKey != inputs[j].sourceKey
  }

  /** `load_inputs`, after the file digest and the JSON types. */
  predicate Loadable(env: Env, doc: Document) {
    && doc.kind == INPUT_KIND && doc.crawl == CRAWL && doc.inputCount > 0 && IndexesOk(doc)
    && env.isSha(doc.sourceManifestSha256) && env.isSha(doc.selectedInputsSha256)
    && env.digest(doc.inputs) == doc.selectedInputsSha256
    && (forall input | input in doc.inputs :: InputOk(env, input)) && DistinctKeys(doc.inputs)
  }

  lemma DistinctStep(inputs: seq<Input>, i: nat)
    requires i < |inputs| && DistinctKeys(inputs[..i])
    requires forall j: nat | j < i :: inputs[j].sourceKey != inputs[i].sourceKey
    ensures DistinctKeys(inputs[..i + 1])
  {
    assert inputs[..i + 1] == inputs[..i] + [inputs[i]];
  }

  /** The loop over the inputs, with its set of keys seen. */
  method CheckInputs(env: Env, inputs: seq<Input>) returns (r: Outcome<InputError>)
    ensures r.Pass? <==> (forall input | input in inputs :: InputOk(env, input)) && DistinctKeys(inputs)
  {
    var seen: set<string> := {};
    for i := 0 to |inputs|
      invariant forall j: nat | j < i :: InputOk(env, inputs[j])
      invariant seen == set j: nat | j < i :: inputs[j].sourceKey
      invariant DistinctKeys(inputs[..i])
    {
      var input := inputs[i];
      assert input in inputs;
      if input.sourceKey == "" || !env.validKey(input.sourceKey) {
        return Fail(WrongKey);
      }
      if input.suffix == "" || input.suffix != env.suffix(input.sourceKey) {
        return Fail(WrongSuffix);
      }
      if input.sourceKey in seen {
        return Fail(Duplicate);
      }
      assert forall j: nat | j < i :: inputs[j].sourceKey in seen;
      DistinctStep(inputs, i);
      seen := seen + {input.sourceKey};
    }
    assert inputs[..|inputs|] == inputs;
    r := Pass;
  }

  /** `load_inputs`. */
  method LoadInputs(env: Env, doc: Document) returns (r: Outcome<InputError>)
    ensures r.Pass? <==> Loadable(env, doc)
  {
    if doc.kind != INPUT_KIND {
      return Fail(WrongKind);
    }
    if doc.crawl != CRAWL {
      return Fail(WrongCrawl);
    }
    if doc.inputCount == 0 {
      return Fail(WrongCount);
    }
    if doc.sourceIndexes.Some? {
      var indexes := doc.sourceIndexes.value;
      if |indexes| != |doc.inputs| || indexes == [] {
        return Fail(WrongIndexes);
      }
      if exists index :: index in indexes && (index < 0 || index >= doc.inputCount) {
        return Fail(OutOfRange);
      }
      if !StrictlyAscending(indexes) {
        return Fail(NotSorted);
      }
    } else if |doc.inputs| != doc.inputCount {
      return Fail(WrongCount);
    }
    if !env.isSha(doc.sourceManifestSha256) || !env.isSha(doc.selectedInputsSha256) {
      return Fail(WrongDigest);
    }
    if env.digest(doc.inputs) != doc.selectedInputsSha256 {
      return Fail(WrongDigest);
    }
    r := CheckInputs(env, doc.inputs);
  }

  // ---------------------------------------------------------------- looking up

  /** Python's `bisect_left` on a sorted list: the first place whose element is not below `x`. */
  method BisectLeft(indexes: seq<int>, x: int) returns (position: nat)
    requires StrictlyAscending(indexes)
    ensures position <= |indexes|
    ensures forall i: nat | i < position :: indexes[i] < x
    ensures forall i: nat | position <= i < |indexes| :: indexes[i] >= x
  {
    var lo: nat, hi: nat := 0, |indexes|;
    while lo < hi
      invariant lo <= hi <= |indexes|
      invariant forall i: nat | i < lo :: indexes[i] < x
      invariant forall i: nat | hi <= i < |indexes| :: indexes[i] >= x
    {
      var mid := (lo + hi) / 2;
      if indexes[mid] < x {
        lo := mid + 1;
      } else {
        hi := mid;
      }
    }
    position := lo;
  }

  /** The input a task index stands for, if the manifest covers it. */
  ghost predicate Covers(doc: Document, task: int, input: Input) {
    && 0 <= task < doc.inputCount
    && match doc.sourceIndexes
       case None => task < |doc.inputs| && doc.inputs[task] == input
       case Some(indexes) => exists i: nat :: i < |indexes| && i < |doc.inputs| && indexes[i] == task && doc.inputs[i] == input
  }

  /** `selected_input`, on a document that passed `load_inputs`. */
  method SelectedInput(env: Env, doc: Document, task: int) returns (r: Result<Input, InputError>)
    requires Loadable(env, doc)
    ensures forall input :: Covers(doc, task, input) <==> r == Success(input)
    ensures r.Failure? ==> r.error == OutsideContract
  {
    if task < 0 || task >= doc.inputCount {
      return Failure(OutsideContract);
    }
    var value: Input;
    if doc.sourceIndexes.None? {
      value := doc.inputs[task];
    } else {
      var position := BisectLeft(doc.sourceIndexes.value, task);
      if position >= |doc.sourceIndexes.value| || doc.sourceIndexes.value[position] != task {
        return Failure(OutsideContract);
      }
      value := doc.inputs[position];
    }
    assert value in doc.inputs;
    if value.sourceKey == "" || !env.validKey(value.sourceKey) || value.suffix == "" {
      return Failure(WrongKey);
    }
    forall input | Covers(doc, task, input)
      ensures input == value
    {
      CoversOnce(env, doc, task, input, value);
    }
    r := Success(value);
  }

  /** A loadable manifest gives each index at most one input. */
  lemma CoversOnce(env: Env, doc: Document, task: int, x: Input, y: Input)
    requires Loadable(env, doc) && Covers(doc, task, x) && Covers(doc, task, y)
    ensures x == y
  {
    if doc.sourceIndexes.Some? {
      var indexes := doc.sourceIndexes.value;
      var i: nat :| i < |indexes| && i < |doc.inputs| && indexes[i] == task && doc.inputs[i] == x;
      var j: nat :| j < |indexes| && j < |doc.inputs| && indexes[j] == task && doc.inputs[j] == y;
    }
  }

  // ---------------------------------------------------------------- the lanes' manifests

  /** The locked source list: 100,000 distinct valid keys. */
  predicate SourceOk(env: Env, source: seq<string>) {
    && |source| == SOURCE_TASK_COUNT
    && (forall key | key in source :: key != "" && env.validKey(key) && env.suffix(key) != "")
    && forall i: nat, j: nat | i < j < |source| :: source[i] != source[j]
  }

  function Selected(env: Env, key: string): Input {
    Input(key, env.suffix(key))
  }

  /** `sparse_lane_manifest`. */
  function LaneManifest(env: Env, source: seq<string>, sourceSha: string, start: nat, total: nat, lane: nat, count: nat): Document
    requires count > 0 && start + total <= |source|
  {
    var indexes := LaneIndexes(start, total, lane, count);
    var inputs := seq(|indexes|, i requires 0 <= i < |indexes| => Selected(env, LaneKey(source, start, total, lane, count, i)));
    Document(INPUT_KIND, CRAWL, SOURCE_TASK_COUNT,
             Some(seq(|indexes|, i requires 0 <= i < |indexes| => indexes[i] as int)),
             inputs, sourceSha, env.digest(inputs))
  }

  function LaneKey(source: seq<string>, start: nat, total: nat, lane: nat, count: nat, i: nat): string
    requires count > 0 && start + total <= |source| && i < |LaneIndexes(start, total, lane, count)|
  {
    InWindow(start, total, lane, count, i);
    source[LaneIndexes(start, total, lane, count)[i]]
  }

  /** A lane's manifest loads exactly when the lane has at least one task. */
  lemma LaneManifestLoads(env: Env, source: seq<string>, sourceSha: string, start: nat, total: nat, lane: nat, count: nat)
    requires count > 0 && SourceOk(env, source) && start + total <= |source| && env.isSha(sourceSha)
    requires forall inputs :: env.isSha(env.digest(inputs))
    ensures Loadable(env, LaneManifest(env, source, sourceSha, start, total, lane, count)) <==> lane < total
  {
    var doc := LaneManifest(env, source, sourceSha, start, total, lane, count);
    var indexes := LaneIndexes(start, total, lane, count);
    forall i: nat | i < |indexes|
      ensures 0 <= doc.sourceIndexes.value[i] < doc.inputCount && InputOk(env, doc.inputs[i])
    {
      InWindow(start, total, lane, count, i);
      assert source[indexes[i]] in source;
    }
    forall i: nat, j: nat | i < j < |indexes|
      ensures doc.sourceIndexes.value[i] < doc.sourceIndexes.value[j]
      ensures doc.inputs[i].sourceKey != doc.inputs[j].sourceKey
    {
      Ascending(start, total, lane, count, i, j);
      InWindow(start, total, lane, count, j);
    }
  }

  /**
   * The lanes and the lookup agree: an index of the window is answered by its own lane, with
   * that index's source, and by no other lane; an index outside the window by none.
   */
  lemma ExactlyOneLane(env: Env, source: seq<string>, sourceSha: string, start: nat, total: nat, count: nat, lane: nat, task: int, input: Input)
    requires lane < count && SourceOk(env, source) && start + total <= |source|
    ensures Covers(LaneManifest(env, source, sourceSha, start, total, lane, count), task, input)
            <==> start <= task < start + total && lane == LaneOf(start, count, task) && input == Selected(env, source[task])
  {
    var doc := LaneManifest(env, source, sourceSha, start, total, lane, count);
    var indexes := LaneIndexes(start, total, lane, count);
    if 0 <= task {
      LaneHas(start, total, lane, count, task);
    }
    if Covers(doc, task, input) {
      var i: nat :| i < |indexes| && doc.sourceIndexes.value[i] == task && doc.inputs[i] == input;
      assert indexes[i] in indexes;
    }
    if start <= task < start + total && lane == LaneOf(start, count, task) && input == Selected(env, source[task]) {
      var i: nat :| i < |indexes| && indexes[i] == task;
      assert doc.sourceIndexes.value[i] == task && doc.inputs[i] == input;
    }
  }

  // ---------------------------------------------------------------- the bundle builder

  datatype Lane = Lane(name: string, group: string, startDelay: nat)

  const GROUPS := [("APAC", 8), ("ENAM", 8), ("WNAM", 8), ("EEUR", 7), ("WEUR", 7), ("SAM", 7)]

  /** Where each placement group's lanes start; the last entry is the number of lanes. */
  const FIRST_LANE := [0, 8, 16, 24, 31, 38, 45]

  /** Lane `ordinal` of group `g` stands at its place, and starts its ordinal's share of the spacing late. */
  predicate Placed(name: (string, nat) -> string, lanes: seq<Lane>, g: nat, ordinal: nat) {
    && g < |GROUPS| && 1 <= ordinal && FIRST_LANE[g] + ordinal <= |lanes|
    && lanes[FIRST_LANE[g] + ordinal - 1]
       == Lane(name(GROUPS[g].0, ordinal), GROUPS[g].0, (ordinal - 1) * START_SPACING_SECONDS)
  }

  /** `reviewed_lanes`; `name` renders a group and an ordinal. */
  method ReviewedLanes(name: (string, nat) -> string) returns (lanes: seq<Lane>)
    ensures |lanes| == 45
    ensures forall g: nat, ordinal: nat | g < |GROUPS| && 1 <= ordinal <= GROUPS[g].1 :: Placed(name, lanes, g, ordinal)
  {
    lanes := [];
    for g := 0 to |GROUPS|
      invariant |lanes| == FIRST_LANE[g]
      invariant forall h: nat, ordinal: nat | h < g && 1 <= ordinal <= GROUPS[h].1 :: Placed(name, lanes, h, ordinal)
    {
      var (group, count) := GROUPS[g];
      for ordinal := 1 to count + 1
        invariant |lanes| == FIRST_LANE[g] + ordinal - 1
        invariant forall h: nat, k: nat | h < g && 1 <= k <= GROUPS[h].1 :: Placed(name, lanes, h, k)
        invariant forall k: nat | 1 <= k < ordinal :: Placed(name, lanes, g, k)
      {
        ghost var before := lanes;
        lanes := lanes + [Lane(name(group, ordinal), group, (ordinal - 1) * START_SPACING_SECONDS)];
        forall h: nat, k: nat | Placed(name, before, h, k)
          ensures Placed(name, lanes, h, k)
        {
        }
        assert Placed(name, lanes, g, ordinal);
      }
    }
  }

  /** The lane loop of `build`: 45 manifests that share out the 89,000 remaining tasks; its sum check never fires. */
  method BuildLanes(env: Env, source: seq<string>, sourceSha: string, name: (string, nat) -> string)
    returns (r: Result<seq<Document>, InputError>)
    requires SourceOk(env, source) && env.isSha(sourceSha) && forall inputs :: env.isSha(env.digest(inputs))
    ensures r.Success? && |r.value| == 45
    ensures forall doc | doc in r.value :: Loadable(env, doc)
    ensures forall lane: nat, task: int, input | lane < 45 ::
              Covers(r.value[lane], task, input) <==>
                && REUSED_SOURCE_PREFIX_COUNT <= task < SOURCE_TASK_COUNT
                && lane == LaneOf(REUSED_SOURCE_PREFIX_COUNT, 45, task) && input == Selected(env, source[task])
  {
    var lanes := ReviewedLanes(name);
    var documents: seq<Document>, allotted := [], 0;
    for lane := 0 to |lanes|
      invariant |documents| == lane && allotted == SumCounts(PROCESSING_TASK_COUNT, lane, 45)
      invariant forall k: nat | k < lane ::
                  documents[k] == LaneManifest(env, source, sourceSha, REUSED_SOURCE_PREFIX_COUNT, PROCESSING_TASK_COUNT, k, 45)
      invariant forall doc | doc in documents :: Loadable(env, doc)
    {
      LaneManifestLoads(env, source, sourceSha, REUSED_SOURCE_PREFIX_COUNT, PROCESSING_TASK_COUNT, lane, 45);
      var owned := LaneTaskCount(PROCESSING_TASK_COUNT, lane, |lanes|);
      if owned == 0 {
        return Failure(WrongCount);
      }
      documents := documents + [LaneManifest(env, source, sourceSha, REUSED_SOURCE_PREFIX_COUNT, PROCESSING_TASK_COUNT, lane, |lanes|)];
      allotted := allotted + owned;
    }
    CountsSumToWindow(PROCESSING_TASK_COUNT, 45);
    if allotted != PROCESSING_TASK_COUNT {
      return Failure(WrongCount);
    }
    forall lane: nat, task: int, input | lane < 45
      ensures Covers(documents[lane], task, input) <==>
                && REUSED_SOURCE_PREFIX_COUNT <= task < SOURCE_TASK_COUNT
                && lane == LaneOf(REUSED_SOURCE_PREFIX_COUNT, 45, task) && input == Selected(env, source[task])
    {
      ExactlyOneLane(env, source, sourceSha, REUSED_SOURCE_PREFIX_COUNT, PROCESSING_TASK_COUNT, 45, lane, task, input);
    }
    r := Success(documents);
  }
}
