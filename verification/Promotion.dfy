/**
Promotion of verified objects from one prefix to another by server-side copies: plan, apply,
crash, plan and apply again.
*/
module Promotion {
  import opened Collections
  import opened Wrappers

  const METADATA_VERSION := "v1-to-v2-shard0-1"
  const DEFAULT_CONTENT_TYPE := "binary/octet-stream"

  /** What HEAD tells about an object, and its content. */
  datatype Object = Object(
    content: seq<int>, etag: Option<string>, checksum: Option<string>, metadata: map<string, string>,
    contentType: Option<string>, otherHeaders: map<string, string>)

  datatype Artifact = Artifact(sourceKey: string, destinationKey: string)

  /**
   * The object store's own part: the SHA-256 checksum and the ETag it gives a stored content;
   * then `str.strip` of double quotes, `str` of a size, and the encoded length of metadata.
   */
  datatype Env = Env(
    sha256: seq<int> -> string, newEtag: seq<int> -> string, unquote: string -> string, size: nat -> string,
    encodedSize: map<string, string> -> nat)

  function StrippedEtag(env: Env, etag: Option<string>): Option<string> {
    if etag.Some? then Some(env.unquote(etag.value)) else None
  }

  /** Not a multipart ETag. */
  predicate IsPlainEtag(env: Env, etag: Option<string>) {
    etag.Some? && '-' !in env.unquote(etag.value)
  }

  function MetadataValue(value: Option<string>): string {
    if value.Some? then value.value else ""
  }

  datatype PromotionError =
    | MissingSource | MetadataConflict | MetadataTooLarge | UnexpectedData | ConflictingObject | NoEtag
    | SizeMismatch | ContentTypeMismatch | ProvenanceMismatch | MissingChecksum | ChecksumMismatch | Crashed

  // ---------------------------------------------------------------- provenance metadata

  function Additions(env: Env, key: string, source: Object): map<string, string> {
    map["growthsent-promotion-version" := METADATA_VERSION,
        "growthsent-promotion-source-key" := key,
        "growthsent-promotion-source-etag" := MetadataValue(StrippedEtag(env, source.etag)),
        "growthsent-promotion-source-size" := env.size(|source.content|),
        "growthsent-promotion-source-checksum-sha256" := MetadataValue(source.checksum)]
  }

  predicate NoConflict(env: Env, key: string, source: Object) {
    forall name | name in Additions(env, key, source) && name in source.metadata ::
      source.metadata[name] == Additions(env, key, source)[name]
  }

  /** `source_metadata_for_copy`. */
  function MetadataForCopy(env: Env, key: string, source: Object): Result<map<string, string>, PromotionError> {
    if !NoConflict(env, key, source) then Failure(MetadataConflict)
    else
      var metadata := source.metadata + Additions(env, key, source);
      if env.encodedSize(metadata) > 2_000 then Failure(MetadataTooLarge) else Success(metadata)
  }

  predicate Contains(metadata: map<string, string>, expected: map<string, string>) {
    forall name | name in expected :: name in metadata && metadata[name] == expected[name]
  }

  /** `destination_matches_source`. */
  function DestinationMatches(env: Env, key: string, source: Object, destination: Object): Result<bool, PromotionError> {
    if |source.content| != |destination.content| || source.contentType != destination.contentType then Success(false)
    else
      var expected :- MetadataForCopy(env, key, source);
      var byThisTool := Contains(destination.metadata, expected);
      if destination.metadata != (if byThisTool then expected else source.metadata) then Success(false)
      else if source.checksum.Some? then Success(source.checksum == destination.checksum)
      else if byThisTool then Success(true)
      else
        Success(IsPlainEtag(env, source.etag) && IsPlainEtag(env, destination.etag)
                && StrippedEtag(env, source.etag) == StrippedEtag(env, destination.etag))
  }

  /** What the store holds after `copy_object` with the tool's headers. */
  function Copied(env: Env, source: Object, metadata: map<string, string>): Object {
    Object(source.content, Some(env.newEtag(source.content)), Some(env.sha256(source.content)), metadata,
           Some(if source.contentType.Some? then source.contentType.value else DEFAULT_CONTENT_TYPE), source.otherHeaders)
  }

  /** `verify_copied_destination`; the copy response carries the stored ETag. */
  function VerifyCopied(env: Env, key: string, source: Object, destination: Object): Outcome<PromotionError> {
    if |source.content| != |destination.content| then Fail(SizeMismatch)
    else if source.contentType != destination.contentType then Fail(ContentTypeMismatch)
    else
      match MetadataForCopy(env, key, source)
      case Failure(error) => Fail(error)
      case Success(expected) =>
        if !Contains(destination.metadata, expected) then Fail(ProvenanceMismatch)
        else if destination.checksum.None? then Fail(MissingChecksum)
        else if source.checksum.Some? && source.checksum.value != "" && source.checksum != destination.checksum then
          Fail(ChecksumMismatch)
        else Pass
  }

  // ---------------------------------------------------------------- and what it says

  /** The five entries of a copy: this tool's version, and the source's key, ETag, size and checksum. */
  ghost predicate Stamped(env: Env, key: string, source: Object, metadata: map<string, string>) {
    && "growthsent-promotion-version" in metadata && metadata["growthsent-promotion-version"] == "v1-to-v2-shard0-1"
    && "growthsent-promotion-source-key" in metadata && metadata["growthsent-promotion-source-key"] == key
    && "growthsent-promotion-source-etag" in metadata
    && metadata["growthsent-promotion-source-etag"] == (if source.etag.Some? then env.unquote(source.etag.value) else "")
    && "growthsent-promotion-source-size" in metadata
    && metadata["growthsent-promotion-source-size"] == env.size(|source.content|)
    && "growthsent-promotion-source-checksum-sha256" in metadata
    && metadata["growthsent-promotion-source-checksum-sha256"] == (if source.checksum.Some? then source.checksum.value else "")
  }

  /** The source's own metadata is all there, as it is. */
  ghost predicate Keeps(source: Object, metadata: map<string, string>) {
    forall name | name in source.metadata :: name in metadata && metadata[name] == source.metadata[name]
  }

  /** The five entries, the source's own, and nothing else. */
  ghost predicate StampedOver(env: Env, key: string, source: Object, metadata: map<string, string>) {
    && Stamped(env, key, source, metadata) && Keeps(source, metadata)
    && forall name | name in metadata ::
         name in source.metadata
         || name in {"growthsent-promotion-version", "growthsent-promotion-source-key", "growthsent-promotion-source-etag",
                     "growthsent-promotion-source-size", "growthsent-promotion-source-checksum-sha256"}
  }

  lemma OneStamp(env: Env, key: string, source: Object, x: map<string, string>, y: map<string, string>)
    requires StampedOver(env, key, source, x) && StampedOver(env, key, source, y)
    ensures x == y
  {
    assert x.Keys == y.Keys;
  }

  lemma AdditionsAre(env: Env, key: string, source: Object, metadata: map<string, string>)
    ensures Contains(metadata, Additions(env, key, source)) <==> Stamped(env, key, source, metadata)
  {
    if Contains(metadata, Additions(env, key, source)) {
      assert forall name | name in {"growthsent-promotion-version", "growthsent-promotion-source-key", "growthsent-promotion-source-etag",
                                    "growthsent-promotion-source-size", "growthsent-promotion-source-checksum-sha256"} ::
          name in Additions(env, key, source);
    }
  }

  /**
   * The metadata of a copy is the only one with the five entries and the source's own; it cannot
   * be made exactly when there is none, because the source has another value under one of the
   * five names, or when it is over 2,000 bytes long.
   */
  lemma MetadataIsStamped(env: Env, key: string, source: Object)
    ensures var r := MetadataForCopy(env, key, source);
            && (r.Success? ==> StampedOver(env, key, source, r.value) && env.encodedSize(r.value) <= 2_000)
            && (r == Failure(MetadataConflict) <==> forall m :: !StampedOver(env, key, source, m))
            && (r == Failure(MetadataTooLarge) <==> exists m :: StampedOver(env, key, source, m) && env.encodedSize(m) > 2_000)
            && (r.Failure? ==> r.error in {MetadataConflict, MetadataTooLarge})
  {
    var additions := Additions(env, key, source);
    var metadata := source.metadata + additions;
    AdditionsAre(env, key, source, metadata);
    AdditionsAre(env, key, source, additions);
    if NoConflict(env, key, source) {
      assert StampedOver(env, key, source, metadata);
      forall m | StampedOver(env, key, source, m)
        ensures m == metadata
      {
        OneStamp(env, key, source, m, metadata);
      }
    } else {
      forall m
        ensures !StampedOver(env, key, source, m)
      {
        if StampedOver(env, key, source, m) {
          AdditionsAre(env, key, source, m);
        }
      }
    }
  }

  lemma ContainsIs(env: Env, key: string, source: Object, metadata: map<string, string>)
    requires MetadataForCopy(env, key, source).Success?
    ensures Contains(metadata, MetadataForCopy(env, key, source).value) <==> Stamped(env, key, source, metadata) && Keeps(source, metadata)
  {
    var expected := MetadataForCopy(env, key, source).value;
    MetadataIsStamped(env, key, source);
    AdditionsAre(env, key, source, metadata);
    assert expected == source.metadata + Additions(env, key, source);
    if Contains(metadata, expected) {
      assert forall name | name in source.metadata :: name in expected;
      assert Contains(metadata, Additions(env, key, source));
    }
  }

  /**
   * A destination object, whoever wrote it, that is safe to keep for this source: sizes and content
   * types agree; its metadata is the stamped one or the source's own; and the checksums agree if
   * the source has one. Without one, an object without the stamp needs the source's plain ETag.
   */
  ghost predicate Agrees(env: Env, key: string, source: Object, destination: Object) {
    && |destination.content| == |source.content| && destination.contentType == source.contentType
    && (exists m :: StampedOver(env, key, source, m) && env.encodedSize(m) <= 2_000)
    && (source.checksum.Some? ==> destination.checksum == source.checksum)
    && (StampedOver(env, key, source, destination.metadata)
        || (destination.metadata == source.metadata
            && (source.checksum.None? ==>
                  && source.etag.Some? && '-' !in env.unquote(source.etag.value)
                  && destination.etag.Some? && env.unquote(destination.etag.value) == env.unquote(source.etag.value))))
  }

  /** Which objects `destination_matches_source` accepts. */
  lemma MatchesWhen(env: Env, key: string, source: Object, destination: Object)
    ensures DestinationMatches(env, key, source, destination) == Success(true) <==> Agrees(env, key, source, destination)
  {
    MetadataIsStamped(env, key, source);
    var r := MetadataForCopy(env, key, source);
    if r.Success? {
      ContainsIs(env, key, source, destination.metadata);
      if StampedOver(env, key, source, destination.metadata) {
        OneStamp(env, key, source, destination.metadata, r.value);
      }
    } else {
      forall m | StampedOver(env, key, source, m)
        ensures env.encodedSize(m) > 2_000
      {
        var other :| StampedOver(env, key, source, other) && env.encodedSize(other) > 2_000;
        OneStamp(env, key, source, m, other);
      }
    }
  }

  /** When the check behind a copy lets it pass. */
  lemma PassesWhen(env: Env, key: string, source: Object, destination: Object)
    requires MetadataForCopy(env, key, source).Success?
    ensures VerifyCopied(env, key, source, destination).Pass? <==>
              && |destination.content| == |source.content| && destination.contentType == source.contentType
              && Stamped(env, key, source, destination.metadata) && Keeps(source, destination.metadata)
              && destination.checksum.Some?
              && (source.checksum.None? || source.checksum == Some("") || source.checksum == destination.checksum)
  {
    ContainsIs(env, key, source, destination.metadata);
  }

  /** A copy, field by field: the source's content and headers, its own ETag and checksum, and the stamp. */
  ghost predicate IsCopy(env: Env, key: string, source: Object, copy: Object) {
    && copy.content == source.content && copy.otherHeaders == source.otherHeaders
    && copy.etag == Some(env.newEtag(source.content)) && copy.checksum == Some(env.sha256(source.content))
    && copy.contentType.Some?
    && (if source.contentType.Some? then copy.contentType == source.contentType else copy.contentType.value == "binary/octet-stream")
    && StampedOver(env, key, source, copy.metadata)
  }

  lemma CopyIs(env: Env, key: string, source: Object)
    requires MetadataForCopy(env, key, source).Success?
    ensures IsCopy(env, key, source, Copied(env, source, MetadataForCopy(env, key, source).value))
  {
    MetadataIsStamped(env, key, source);
  }

  // ---------------------------------------------------------------- which copies are recognised

  /** A source whose copy can be made and will be recognised. */
  predicate Promotable(env: Env, key: string, source: Object) {
    && source.etag.Some? && source.contentType.Some? && MetadataForCopy(env, key, source).Success?
    && (source.checksum.Some? ==> source.checksum.value == env.sha256(source.content))
  }

  /**
   * Exactly when a finished copy is recognised by the next run: the source states a content
   * type, and its checksum, if it has one, is the SHA-256 of the whole content.
   */
  lemma CopyRecognised(env: Env, key: string, source: Object)
    requires MetadataForCopy(env, key, source).Success?
    ensures var copy := Copied(env, source, MetadataForCopy(env, key, source).value);
            && (DestinationMatches(env, key, source, copy) == Success(true)
                <==> source.contentType.Some? && (source.checksum.Some? ==> source.checksum.value == env.sha256(source.content)))
            && (DestinationMatches(env, key, source, copy) == Success(true) ==> VerifyCopied(env, key, source, copy) == Pass)
  {
  }

  /**
   * A source that cannot be promoted: its copy neither passes the check after the copy nor is
   * recognised by the next run, so the copy stands in the way of every later plan.
   */
  lemma CopyInTheWay(env: Env, key: string, source: Object)
    requires MetadataForCopy(env, key, source).Success?
    requires source.contentType.None? || (source.checksum.Some? && source.checksum.value != "" && source.checksum.value != env.sha256(source.content))
    ensures var copy := Copied(env, source, MetadataForCopy(env, key, source).value);
            && DestinationMatches(env, key, source, copy) == Success(false)
            && VerifyCopied(env, key, source, copy)
               == Fail(if source.contentType.None? then ContentTypeMismatch else ChecksumMismatch)
  {
  }

  /** A multipart source with a composite checksum. */
  const COMPOSITE := Object([1, 2], Some("\"abc-2\""), Some("composite-2"), map[], Some("application/json"), map[])

  /** It is such a source, under any store whose checksums are those of whole contents. */
  lemma CompositeIsInTheWay(env: Env)
    requires env.sha256([1, 2]) != "composite-2" && MetadataForCopy(env, "a", COMPOSITE).Success?
    ensures var copy := Copied(env, COMPOSITE, MetadataForCopy(env, "a", COMPOSITE).value);
            && VerifyCopied(env, "a", COMPOSITE, copy) == Fail(ChecksumMismatch)
            && Plannable(env, map["a" := COMPOSITE], [Artifact("a", "b")], map[])
            && !Plannable(env, map["a" := COMPOSITE], [Artifact("a", "b")], map["b" := copy])
  {
    CopyInTheWay(env, "a", COMPOSITE);
    MatchesWhen(env, "a", COMPOSITE, CopyOf(env, COMPOSITE, "a"));
    assert Artifact("a", "b") in [Artifact("a", "b")];
  }

  // ---------------------------------------------------------------- plan and apply

  type Bucket = map<string, Object>

  datatype Action = Copy | AlreadyVerified | CopiedNow

  predicate DistinctDestinations(artifacts: seq<Artifact>) {
    forall i: nat, j: nat | i < j < |artifacts| :: artifacts[i].destinationKey != artifacts[j].destinationKey
  }

  function DestinationKeys(artifacts: seq<Artifact>): set<string> {
    set a | a in artifacts :: a.destinationKey
  }

  predicate OnlyExpected(artifacts: seq<Artifact>, destination: Bucket) {
    forall key | key in destination :: exists a :: a in artifacts && a.destinationKey == key
  }

  /** The artifact is at its destination, and safe to keep there. */
  ghost predicate Settled(env: Env, sources: Bucket, destination: Bucket, a: Artifact)
    requires a.sourceKey in sources
  {
    a.destinationKey in destination && Agrees(env, a.sourceKey, sources[a.sourceKey], destination[a.destinationKey])
  }

  /** When a plan can be made: nothing unexpected there, no source missing, no destination in conflict. */
  ghost predicate Plannable(env: Env, sources: Bucket, artifacts: seq<Artifact>, destination: Bucket) {
    destination.Keys <= DestinationKeys(artifacts) && forall a | a in artifacts :: InOrder(env, sources, destination, a)
  }

  /** The artifact's source is there, and a destination object, if there is one, matches it. */
  ghost predicate InOrder(env: Env, sources: Bucket, destination: Bucket, a: Artifact) {
    a.sourceKey in sources && (a.destinationKey in destination ==> Settled(env, sources, destination, a))
  }

  /** The plan: an existing destination is verified, a missing one is to be copied. */
  function PlanOf(artifacts: seq<Artifact>, destination: Bucket): (r: seq<Action>)
    ensures |r| == |artifacts|
    ensures forall i: nat | i < |r| :: r[i] == if artifacts[i].destinationKey in destination then AlreadyVerified else Copy
  {
    seq(|artifacts|, i requires 0 <= i < |artifacts| => if artifacts[i].destinationKey in destination then AlreadyVerified else Copy)
  }

  /** What a run that gets to its end reports. */
  function ReportOf(artifacts: seq<Artifact>, destination: Bucket): (r: seq<Action>)
    ensures |r| == |artifacts|
    ensures forall i: nat | i < |r| :: r[i] == if artifacts[i].destinationKey in destination then AlreadyVerified else CopiedNow
  {
    seq(|artifacts|, i requires 0 <= i < |artifacts| => if artifacts[i].destinationKey in destination then AlreadyVerified else CopiedNow)
  }

  /** The artifacts without a destination object, in order. */
  function Missing(artifacts: seq<Artifact>, destination: Bucket): (r: seq<Artifact>)
    ensures |r| <= |artifacts|
  {
    if artifacts == [] then []
    else
      var last := artifacts[|artifacts| - 1];
      Missing(artifacts[..|artifacts| - 1], destination) + if last.destinationKey in destination then [] else [last]
  }

  function CopyOf(env: Env, source: Object, key: string): Object
    requires MetadataForCopy(env, key, source).Success?
  {
    Copied(env, source, MetadataForCopy(env, key, source).value)
  }

  predicate AllPromotable(env: Env, sources: Bucket, artifacts: seq<Artifact>) {
    forall a | a in artifacts :: a.sourceKey in sources && Promotable(env, a.sourceKey, sources[a.sourceKey])
  }

  /** A plan can be made, every source can be promoted, and no two artifacts go to the same place. */
  ghost predicate Resumable(env: Env, sources: Bucket, artifacts: seq<Artifact>, destination: Bucket) {
    DistinctDestinations(artifacts) && AllPromotable(env, sources, artifacts) && Plannable(env, sources, artifacts, destination)
  }

  /** The bucket with these artifacts copied to their places. */
  function WithCopies(env: Env, sources: Bucket, destination: Bucket, copied: seq<Artifact>): Bucket
    requires AllPromotable(env, sources, copied)
  {
    if copied == [] then destination
    else
      var last := copied[|copied| - 1];
      WithCopies(env, sources, destination, copied[..|copied| - 1])[last.destinationKey := CopyOf(env, sources[last.sourceKey], last.sourceKey)]
  }

  lemma {:induction false} MissingHas(artifacts: seq<Artifact>, destination: Bucket, a: Artifact)
    ensures a in Missing(artifacts, destination) <==> a in artifacts && a.destinationKey !in destination
  {
    if artifacts != [] {
      MissingHas(artifacts[..|artifacts| - 1], destination, a);
    }
  }

  lemma MissingPromotable(env: Env, sources: Bucket, artifacts: seq<Artifact>, destination: Bucket, n: nat)
    requires AllPromotable(env, sources, artifacts) && n <= |Missing(artifacts, destination)|
    ensures AllPromotable(env, sources, Missing(artifacts, destination)[..n])
  {
    forall a | a in Missing(artifacts, destination)[..n]
      ensures a in artifacts
    {
      assert a in Missing(artifacts, destination);
      MissingHas(artifacts, destination, a);
    }
  }

  /** What is missing of the first artifacts is missing first. */
  lemma {:induction false} MissingPrefix(artifacts: seq<Artifact>, destination: Bucket, i: nat)
    requires i <= |artifacts|
    ensures Missing(artifacts[..i], destination) <= Missing(artifacts, destination)
    decreases |artifacts|
  {
    if i < |artifacts| {
      var n := |artifacts| - 1;
      MissingPrefix(artifacts[..n], destination, i);
      assert artifacts[..n][..i] == artifacts[..i];
    } else {
      assert artifacts[..i] == artifacts;
    }
  }

  ghost predicate AllSettled(env: Env, sources: Bucket, artifacts: seq<Artifact>, destination: Bucket) {
    forall a | a in artifacts :: a.sourceKey in sources && Settled(env, sources, destination, a)
  }

  ghost predicate Grows(before: Bucket, after: Bucket) {
    before.Keys <= after.Keys && forall key | key in before :: after[key] == before[key]
  }

  lemma CopyAgrees(env: Env, key: string, source: Object)
    requires Promotable(env, key, source)
    ensures Agrees(env, key, source, CopyOf(env, source, key))
    ensures VerifyCopied(env, key, source, CopyOf(env, source, key)) == Pass
  {
    CopyRecognised(env, key, source);
    MatchesWhen(env, key, source, CopyOf(env, source, key));
  }

  /** A new object that agrees with its source leaves everything else as it was. */
  lemma OneMoreSettled(env: Env, sources: Bucket, artifacts: seq<Artifact>, destination: Bucket, a: Artifact, copy: Object)
    requires DistinctDestinations(artifacts) && Plannable(env, sources, artifacts, destination) && a in artifacts
    requires Agrees(env, a.sourceKey, sources[a.sourceKey], copy)
    ensures Plannable(env, sources, artifacts, destination[a.destinationKey := copy])
  {
    var after := destination[a.destinationKey := copy];
    SameDestination(artifacts, a);
    forall o | o in artifacts
      ensures InOrder(env, sources, after, o)
    {
      assert InOrder(env, sources, destination, o);
      assert o != a ==> o.destinationKey != a.destinationKey;
    }
    assert a.destinationKey in DestinationKeys(artifacts);
  }

  lemma ExpectedKeys(artifacts: seq<Artifact>, destination: Bucket)
    ensures OnlyExpected(artifacts, destination) <==> destination.Keys <= DestinationKeys(artifacts)
  {
  }

  /** Copying one missing artifact keeps the bucket resumable. */
  lemma CopyKeepsResumable(env: Env, sources: Bucket, artifacts: seq<Artifact>, destination: Bucket, a: Artifact)
    requires Resumable(env, sources, artifacts, destination) && a in artifacts
    ensures var source := sources[a.sourceKey];
            var after := destination[a.destinationKey := CopyOf(env, source, a.sourceKey)];
            && VerifyCopied(env, a.sourceKey, source, CopyOf(env, source, a.sourceKey)) == Pass
            && Resumable(env, sources, artifacts, after) && Settled(env, sources, after, a)
  {
    CopyAgrees(env, a.sourceKey, sources[a.sourceKey]);
    OneMoreSettled(env, sources, artifacts, destination, a, CopyOf(env, sources[a.sourceKey], a.sourceKey));
  }

  /** The operator's client: it reads both prefixes and writes only destination objects. */
  class Client {
    const env: Env
    const sources: Bucket
    var destination: Bucket
    /** How many more copies, and then its report, this process lives for; None for one that lives on. */
    var fuel: Option<nat>

    constructor (env: Env, sources: Bucket, destination: Bucket, fuel: Option<nat>)
      ensures this.env == env && this.sources == sources && this.destination == destination && this.fuel == fuel
    {
      this.env, this.sources, this.destination, this.fuel := env, sources, destination, fuel;
    }

    /** One artifact of the plan. */
    method PlanOne(a: Artifact) returns (r: Result<Action, PromotionError>)
      ensures r.Success? <==> InOrder(env, sources, destination, a)
      ensures r.Success? ==> r.value == if a.destinationKey in destination then AlreadyVerified else Copy
    {
      if a.sourceKey !in sources {
        return Failure(MissingSource);
      }
      if a.destinationKey !in destination {
        return Success(Copy);
      }
      MatchesWhen(env, a.sourceKey, sources[a.sourceKey], destination[a.destinationKey]);
      var matches :- DestinationMatches(env, a.sourceKey, sources[a.sourceKey], destination[a.destinationKey]);
      r := if matches then Success(AlreadyVerified) else Failure(ConflictingObject);
    }

    /** `build_promotion_plan`, after the source side has been validated. */
    method BuildPlan(artifacts: seq<Artifact>) returns (r: Result<seq<Action>, PromotionError>)
      ensures r.Success? <==> Plannable(env, sources, artifacts, destination)
      ensures r.Success? ==> r.value == PlanOf(artifacts, destination)
    {
      ExpectedKeys(artifacts, destination);
      if !OnlyExpected(artifacts, destination) {
        return Failure(UnexpectedData);
      }
      var actions: seq<Action> := [];
      for i := 0 to |artifacts|
        invariant actions == PlanOf(artifacts, destination)[..i]
        invariant forall j: nat | j < i :: InOrder(env, sources, destination, artifacts[j])
      {
        TakeOne(PlanOf(artifacts, destination), i);
        assert artifacts[i] in artifacts;
        var action :- PlanOne(artifacts[i]);
        actions := actions + [action];
      }
      r := Success(actions);
    }

    /** One artifact of `apply_promotion`. */
    method ApplyOne(a: Artifact) returns (r: Result<Action, PromotionError>)
      requires a.sourceKey in sources
      modifies this
      ensures Grows(old(destination), destination) && destination.Keys <= old(destination).Keys + {a.destinationKey}
      ensures r.Success? ==>
                a.destinationKey in destination && r.value == if a.destinationKey in old(destination) then AlreadyVerified else CopiedNow
      ensures old(a.destinationKey in destination) ==>
                destination == old(destination) && (r.Success? <==> Settled(env, sources, old(destination), a))
      ensures old(a.destinationKey !in destination) && Promotable(env, a.sourceKey, sources[a.sourceKey]) ==>
                && (r.Success? <==> old(fuel) != Some(0)) && (r.Failure? ==> r.error == Crashed && destination == old(destination))
                && (r.Success? ==> destination == old(destination)[a.destinationKey :=
                      Copied(env, sources[a.sourceKey], MetadataForCopy(env, a.sourceKey, sources[a.sourceKey]).value)])
      ensures old(a.destinationKey !in destination) && r.Success? ==>
                IsCopy(env, a.sourceKey, sources[a.sourceKey], destination[a.destinationKey])
      ensures old(a.destinationKey !in destination) && sources[a.sourceKey].etag.None? ==>
                r == Failure(NoEtag) && destination == old(destination)
      ensures fuel == if destination == old(destination) || old(fuel) == Some(0) then old(fuel) else Less(old(fuel))
    {
      var source := sources[a.sourceKey];
      if a.destinationKey in destination {
        MatchesWhen(env, a.sourceKey, source, destination[a.destinationKey]);
        var matches :- DestinationMatches(env, a.sourceKey, source, destination[a.destinationKey]);
        return if matches then Success(AlreadyVerified) else Failure(ConflictingObject);
      }
      if source.etag.None? {
        return Failure(NoEtag);
      }
      var metadata :- MetadataForCopy(env, a.sourceKey, source);
      if fuel == Some(0) {
        return Failure(Crashed);
      }
      fuel := Less(fuel);
      destination := destination[a.destinationKey := Copied(env, source, metadata)];
      CopyRecognised(env, a.sourceKey, source);
      CopyIs(env, a.sourceKey, source);
      var verified := VerifyCopied(env, a.sourceKey, source, destination[a.destinationKey]);
      r := if verified.Fail? then Failure(verified.error) else Success(CopiedNow);
    }

    /** One turn of the loop; `start` is the bucket the run found and its fuel, if that was resumable. */
    method ApplyTurn(artifacts: seq<Artifact>, completed: seq<Action>, ghost start: Option<(Bucket, Option<nat>)>)
      returns (r: Result<seq<Action>, PromotionError>)
      requires |completed| < |artifacts| && artifacts[|completed|].sourceKey in sources
      requires start.Some? ==> Advanced(env, sources, artifacts, start.value.0, start.value.1, destination, fuel, completed)
      modifies this
      ensures Grows(old(destination), destination)
      ensures destination.Keys <= old(destination).Keys + DestinationKeys(artifacts)
      ensures r.Success? ==> |r.value| == |completed| + 1
      ensures start.Some? && r.Success? ==> Advanced(env, sources, artifacts, start.value.0, start.value.1, destination, fuel, r.value)
      ensures start.Some? && r.Failure? ==> Ended(env, sources, artifacts, start.value.0, start.value.1, destination, Failure(r.error))
    {
      ghost var before, budget := destination, fuel;
      var a := artifacts[|completed|];
      assert a in artifacts;
      var step := ApplyOne(a);
      if start.Some? {
        TurnAdvances(env, sources, artifacts, start.value.0, start.value.1, before, budget, destination, fuel, completed, step);
      }
      if step.Failure? {
        return Failure(step.error);
      }
      r := Success(completed + [step.value]);
    }

    /**
     * `apply_promotion`: no existing destination is overwritten and nothing but missing
     * artifacts is written, however the run ends. From a resumable bucket a run copies the
     * missing artifacts in order, as many as it lives for, and reports success exactly when it
     * also lived through its report.
     */
    method Apply(artifacts: seq<Artifact>) returns (r: Result<seq<Action>, PromotionError>)
      requires forall a | a in artifacts :: a.sourceKey in sources
      modifies this
      ensures Grows(old(destination), destination)
      ensures destination.Keys <= old(destination).Keys + DestinationKeys(artifacts)
      ensures old(Resumable(env, sources, artifacts, destination)) ==>
                Ended(env, sources, artifacts, old(destination), old(fuel), destination, r)
    {
      ghost var start := if Resumable(env, sources, artifacts, destination) then Some((destination, fuel)) else None;
      ExpectedKeys(artifacts, destination);
      if !OnlyExpected(artifacts, destination) {
        return Failure(UnexpectedData);
      }
      var completed: seq<Action> := [];
      assert artifacts[..0] == [];
      for i := 0 to |artifacts|
        invariant Grows(old(destination), destination) && |completed| == i
        invariant destination.Keys <= old(destination).Keys + DestinationKeys(artifacts)
        invariant start.Some? ==> Advanced(env, sources, artifacts, start.value.0, start.value.1, destination, fuel, completed)
      {
        assert artifacts[i] in artifacts;
        completed :- ApplyTurn(artifacts, completed, start);
      }
      if start.Some? {
        AdvancedToTheEnd(env, sources, artifacts, start.value.0, start.value.1, destination, fuel, completed);
      }
      if fuel == Some(0) {
        return Failure(Crashed);
      }
      ExpectedKeys(artifacts, destination);
      if !OnlyExpected(artifacts, destination) {
        return Failure(UnexpectedData);
      }
      r := Success(completed);
    }
  }

  // ---------------------------------------------------------------- what one run does

  /** The state of the apply loop on a bucket that was resumable: everything missing so far is copied. */
  ghost predicate Advanced(
    env: Env, sources: Bucket, artifacts: seq<Artifact>, start: Bucket, budget: Option<nat>, destination: Bucket,
    fuel: Option<nat>, completed: seq<Action>)
  {
    && Resumable(env, sources, artifacts, destination) && Resumable(env, sources, artifacts, start)
    && Tallied(env, sources, artifacts, start, budget, destination, fuel, completed)
  }

  /** The books of the loop: what was copied, what was reported, what fuel is left. */
  ghost predicate Tallied(
    env: Env, sources: Bucket, artifacts: seq<Artifact>, start: Bucket, budget: Option<nat>, destination: Bucket,
    fuel: Option<nat>, completed: seq<Action>)
  {
    && |completed| <= |artifacts| && completed == ReportOf(artifacts, start)[..|completed|]
    && var copied := Missing(artifacts[..|completed|], start);
       && AllPromotable(env, sources, copied) && destination == WithCopies(env, sources, start, copied)
       && FuelLeft(budget, fuel, |copied|)
  }

  predicate FuelLeft(budget: Option<nat>, fuel: Option<nat>, used: nat) {
    match budget
    case None => fuel.None?
    case Some(n) => used <= n && fuel == Some(n - used)
  }

  function Less(fuel: Option<nat>): Option<nat>
    requires fuel != Some(0)
  {
    if fuel.None? then None else Some(fuel.value - 1)
  }

  /** Does a run live through all its copies and the report behind them? */
  predicate Finishes(artifacts: seq<Artifact>, before: Bucket, fuel: Option<nat>) {
    fuel.None? || |Missing(artifacts, before)| < fuel.value
  }

  /** How many of the missing artifacts a run lives to copy. */
  function Lived(artifacts: seq<Artifact>, before: Bucket, fuel: Option<nat>): (n: nat)
    ensures n <= |Missing(artifacts, before)|
  {
    if fuel.None? || |Missing(artifacts, before)| <= fuel.value then |Missing(artifacts, before)| else fuel.value
  }

  /**
   * How a run from a resumable bucket ends: the missing artifacts it lived to copy are in place,
   * in order, and it succeeds exactly when it lived through the report as well.
   */
  ghost predicate Ended(
    env: Env, sources: Bucket, artifacts: seq<Artifact>, before: Bucket, fuel: Option<nat>, after: Bucket,
    r: Result<seq<Action>, PromotionError>)
  {
    var missing, n := Missing(artifacts, before), Lived(artifacts, before, fuel);
    && AllPromotable(env, sources, missing[..n]) && after == WithCopies(env, sources, before, missing[..n])
    && r == if Finishes(artifacts, before, fuel) then Success(ReportOf(artifacts, before)) else Failure(Crashed)
  }

  lemma {:induction false} CopiesKeys(env: Env, sources: Bucket, before: Bucket, copied: seq<Artifact>)
    requires AllPromotable(env, sources, copied)
    ensures WithCopies(env, sources, before, copied).Keys == before.Keys + DestinationKeys(copied)
  {
    if copied != [] {
      CopiesKeys(env, sources, before, copied[..|copied| - 1]);
      SplitLast(copied);
    }
  }

  lemma {:induction false} CopiesGrow(env: Env, sources: Bucket, before: Bucket, copied: seq<Artifact>)
    requires AllPromotable(env, sources, copied) && forall a | a in copied :: a.destinationKey !in before
    ensures Grows(before, WithCopies(env, sources, before, copied))
  {
    if copied != [] {
      CopiesGrow(env, sources, before, copied[..|copied| - 1]);
    }
  }

  /** What of the first artifacts was missing has another destination than the next one. */
  lemma NextIsFree(env: Env, sources: Bucket, artifacts: seq<Artifact>, start: Bucket, i: nat)
    requires DistinctDestinations(artifacts) && i < |artifacts|
    ensures artifacts[i].destinationKey !in DestinationKeys(Missing(artifacts[..i], start))
  {
    forall a | a in Missing(artifacts[..i], start)
      ensures a.destinationKey != artifacts[i].destinationKey
    {
      MissingHas(artifacts[..i], start, a);
      var j: nat :| j < i && artifacts[..i][j] == a;
      assert artifacts[j] == a;
    }
  }

  lemma MissingStep(artifacts: seq<Artifact>, start: Bucket, i: nat)
    requires i < |artifacts|
    ensures Missing(artifacts[..i + 1], start)
            == Missing(artifacts[..i], start) + if artifacts[i].destinationKey in start then [] else [artifacts[i]]
  {
    assert artifacts[..i + 1][..i] == artifacts[..i];
  }

  lemma TurnAdvances(
    env: Env, sources: Bucket, artifacts: seq<Artifact>, start: Bucket, budget: Option<nat>, before: Bucket, fuel: Option<nat>,
    after: Bucket, left: Option<nat>, completed: seq<Action>, step: Result<Action, PromotionError>)
    requires Advanced(env, sources, artifacts, start, budget, before, fuel, completed) && |completed| < |artifacts|
    requires var a := artifacts[|completed|];
             if a.destinationKey in before then
               && after == before && left == fuel && (step.Success? <==> Settled(env, sources, before, a))
               && (step.Success? ==> step.value == AlreadyVerified)
             else
               && (step.Success? <==> fuel != Some(0))
               && (step.Failure? ==> step.error == Crashed && after == before)
               && (step.Success? ==>
                     && step.value == CopiedNow
                     && left == Less(fuel)
                     && after == before[a.destinationKey := CopyOf(env, sources[a.sourceKey], a.sourceKey)])
    ensures step.Success? ==> Advanced(env, sources, artifacts, start, budget, after, left, completed + [step.value])
    ensures step.Failure? ==> Ended(env, sources, artifacts, start, budget, after, Failure(step.error))
  {
    var i := |completed|;
    NextInBoth(env, sources, artifacts, start, i);
    if step.Failure? {
      DiesHere(env, sources, artifacts, start, budget.value, i);
    } else if artifacts[i].destinationKey in before {
      PassedOver(env, sources, artifacts, start, budget, before, fuel, completed);
    } else {
      CopyKeepsResumable(env, sources, artifacts, before, artifacts[i]);
      CopiedOver(env, sources, artifacts, start, budget, before, fuel, completed);
    }
  }

  /** The next artifact is in place now exactly if it was at the start. */
  lemma NextInBoth(env: Env, sources: Bucket, artifacts: seq<Artifact>, start: Bucket, i: nat)
    requires DistinctDestinations(artifacts) && i < |artifacts| && AllPromotable(env, sources, Missing(artifacts[..i], start))
    ensures artifacts[i].destinationKey in WithCopies(env, sources, start, Missing(artifacts[..i], start))
            <==> artifacts[i].destinationKey in start
    ensures artifacts[i] in artifacts
  {
    CopiesKeys(env, sources, start, Missing(artifacts[..i], start));
    NextIsFree(env, sources, artifacts, start, i);
  }

  lemma PassedOver(
    env: Env, sources: Bucket, artifacts: seq<Artifact>, start: Bucket, budget: Option<nat>, before: Bucket, fuel: Option<nat>,
    completed: seq<Action>)
    requires Tallied(env, sources, artifacts, start, budget, before, fuel, completed) && |completed| < |artifacts|
    requires artifacts[|completed|].destinationKey in start
    ensures Tallied(env, sources, artifacts, start, budget, before, fuel, completed + [AlreadyVerified])
  {
    MissingStep(artifacts, start, |completed|);
    PlusNothing(Missing(artifacts[..|completed|], start));
    TakeOne(ReportOf(artifacts, start), |completed|);
  }

  lemma CopiedOver(
    env: Env, sources: Bucket, artifacts: seq<Artifact>, start: Bucket, budget: Option<nat>, before: Bucket, fuel: Option<nat>,
    completed: seq<Action>)
    requires Tallied(env, sources, artifacts, start, budget, before, fuel, completed) && |completed| < |artifacts|
    requires var a := artifacts[|completed|];
             a.destinationKey !in start && a.sourceKey in sources && Promotable(env, a.sourceKey, sources[a.sourceKey])
    requires fuel != Some(0)
    ensures var a := artifacts[|completed|];
            Tallied(env, sources, artifacts, start, budget,
                    before[a.destinationKey := CopyOf(env, sources[a.sourceKey], a.sourceKey)], Less(fuel), completed + [CopiedNow])
  {
    var i := |completed|;
    var a, copied := artifacts[i], Missing(artifacts[..i], start);
    MissingStep(artifacts, start, i);
    OneMoreCopy(env, sources, start, copied, a);
    TakeOne(ReportOf(artifacts, start), i);
    assert Missing(artifacts[..i + 1], start) == copied + [a] && |completed + [CopiedNow]| == i + 1;
    var later := before[a.destinationKey := CopyOf(env, sources[a.sourceKey], a.sourceKey)];
    assert later == WithCopies(env, sources, start, copied + [a]);
  }

  lemma OneMoreCopy(env: Env, sources: Bucket, start: Bucket, copied: seq<Artifact>, a: Artifact)
    requires AllPromotable(env, sources, copied) && a.sourceKey in sources && Promotable(env, a.sourceKey, sources[a.sourceKey])
    ensures AllPromotable(env, sources, copied + [a])
    ensures WithCopies(env, sources, start, copied + [a])
            == WithCopies(env, sources, start, copied)[a.destinationKey := CopyOf(env, sources[a.sourceKey], a.sourceKey)]
  {
    assert (copied + [a])[..|copied|] == copied;
  }

  /** Out of fuel at a missing artifact: the ones before it are exactly what the run lived to copy. */
  lemma DiesHere(env: Env, sources: Bucket, artifacts: seq<Artifact>, start: Bucket, budget: nat, i: nat)
    requires i < |artifacts| && artifacts[i].destinationKey !in start && |Missing(artifacts[..i], start)| == budget
    ensures budget < |Missing(artifacts, start)| && Missing(artifacts, start)[..budget] == Missing(artifacts[..i], start)
  {
    MissingStep(artifacts, start, i);
    MissingPrefix(artifacts, start, i + 1);
    MissingPrefix(artifacts, start, i);
  }

  lemma LivedThrough(artifacts: seq<Artifact>, start: Bucket, budget: Option<nat>, fuel: Option<nat>)
    requires FuelLeft(budget, fuel, |Missing(artifacts, start)|)
    ensures Lived(artifacts, start, budget) == |Missing(artifacts, start)|
    ensures Finishes(artifacts, start, budget) <==> fuel != Some(0)
  {
  }

  lemma AdvancedToTheEnd(
    env: Env, sources: Bucket, artifacts: seq<Artifact>, start: Bucket, budget: Option<nat>, destination: Bucket,
    fuel: Option<nat>, completed: seq<Action>)
    requires Advanced(env, sources, artifacts, start, budget, destination, fuel, completed) && |completed| == |artifacts|
    ensures Ended(env, sources, artifacts, start, budget, destination, if fuel == Some(0) then Failure(Crashed) else Success(completed))
  {
    TakeAll(artifacts);
    TakeAll(ReportOf(artifacts, start));
    TakeAll(Missing(artifacts, start));
    LivedThrough(artifacts, start, budget, fuel);
  }

  // ---------------------------------------------------------------- crashes and reruns

  /** One operator run: for how many copies, and then its report, it lived, how it left the destination, what it reported. */
  datatype Ran = Ran(fuel: Option<nat>, after: Bucket, result: Result<seq<Action>, PromotionError>)

  function Last(start: Bucket, runs: seq<Ran>): Bucket {
    if runs == [] then start else runs[|runs| - 1].after
  }

  /** The run at this place found what the one before it left, or the start. */
  ghost predicate RanAt(env: Env, sources: Bucket, artifacts: seq<Artifact>, start: Bucket, runs: seq<Ran>, i: nat)
    requires i < |runs|
  {
    Ended(env, sources, artifacts, if i == 0 then start else runs[i - 1].after, runs[i].fuel, runs[i].after, runs[i].result)
  }

  /** Runs one after the other, each from where the one before it stopped. */
  ghost predicate History(env: Env, sources: Bucket, artifacts: seq<Artifact>, start: Bucket, runs: seq<Ran>) {
    forall i: nat | i < |runs| :: RanAt(env, sources, artifacts, start, runs, i)
  }

  /** The runs before the last are a history, and the last one found what they left. */
  lemma LastRun(env: Env, sources: Bucket, artifacts: seq<Artifact>, start: Bucket, runs: seq<Ran>)
    requires History(env, sources, artifacts, start, runs) && runs != []
    ensures History(env, sources, artifacts, start, runs[..|runs| - 1]) && RanAt(env, sources, artifacts, start, runs, |runs| - 1)
    ensures Last(start, runs[..|runs| - 1]) == if |runs| == 1 then start else runs[|runs| - 2].after
  {
    var front := runs[..|runs| - 1];
    forall i: nat | i < |front|
      ensures RanAt(env, sources, artifacts, start, front, i)
    {
      assert RanAt(env, sources, artifacts, start, runs, i);
    }
  }

  /** Copying missing artifacts of a resumable bucket, any number of them, leaves a resumable bucket. */
  lemma CopiesKeepResumable(env: Env, sources: Bucket, artifacts: seq<Artifact>, before: Bucket, n: nat)
    requires Resumable(env, sources, artifacts, before) && n <= |Missing(artifacts, before)|
    ensures AllPromotable(env, sources, Missing(artifacts, before)[..n])
    ensures var after := WithCopies(env, sources, before, Missing(artifacts, before)[..n]);
            Resumable(env, sources, artifacts, after) && Grows(before, after)
  {
    MissingPromotable(env, sources, artifacts, before, n);
    CopiesStayResumable(env, sources, artifacts, before, n);
    forall a | a in Missing(artifacts, before)[..n]
      ensures a.destinationKey !in before
    {
      MissingHas(artifacts, before, a);
    }
    CopiesGrow(env, sources, before, Missing(artifacts, before)[..n]);
  }

  lemma {:induction false} CopiesStayResumable(env: Env, sources: Bucket, artifacts: seq<Artifact>, before: Bucket, n: nat)
    requires Resumable(env, sources, artifacts, before) && n <= |Missing(artifacts, before)|
    requires AllPromotable(env, sources, Missing(artifacts, before)[..n])
    ensures Resumable(env, sources, artifacts, WithCopies(env, sources, before, Missing(artifacts, before)[..n]))
  {
    var missing := Missing(artifacts, before);
    if n > 0 {
      MissingPromotable(env, sources, artifacts, before, n - 1);
      CopiesStayResumable(env, sources, artifacts, before, n - 1);
      MissingStillFree(env, sources, artifacts, before, n - 1);
      TakeOne(missing, n - 1);
      OneMoreCopy(env, sources, before, missing[..n - 1], missing[n - 1]);
      CopyKeepsResumable(env, sources, artifacts, WithCopies(env, sources, before, missing[..n - 1]), missing[n - 1]);
    }
  }

  lemma MissingStillFree(env: Env, sources: Bucket, artifacts: seq<Artifact>, before: Bucket, i: nat)
    requires DistinctDestinations(artifacts) && i < |Missing(artifacts, before)|
    requires AllPromotable(env, sources, Missing(artifacts, before)[..i])
    ensures var a := Missing(artifacts, before)[i];
            a in artifacts && a.destinationKey !in WithCopies(env, sources, before, Missing(artifacts, before)[..i])
  {
    var missing := Missing(artifacts, before);
    var a := missing[i];
    MissingHas(artifacts, before, a);
    MissingIsDistinct(artifacts, before);
    CopiesKeys(env, sources, before, missing[..i]);
    forall b | b in missing[..i]
      ensures b.destinationKey != a.destinationKey
    {
      var j: nat :| j < i && missing[j] == b;
    }
  }

  lemma {:induction false} MissingIsDistinct(artifacts: seq<Artifact>, destination: Bucket)
    requires DistinctDestinations(artifacts)
    ensures DistinctDestinations(Missing(artifacts, destination))
  {
    if artifacts != [] {
      var n := |artifacts| - 1;
      MissingIsDistinct(artifacts[..n], destination);
      var rest := Missing(artifacts[..n], destination);
      forall i: nat | i < |rest|
        ensures rest[i].destinationKey != artifacts[n].destinationKey
      {
        assert rest[i] in rest;
        MissingHas(artifacts[..n], destination, rest[i]);
        var j: nat :| j < n && artifacts[..n][j] == rest[i];
        assert artifacts[j] == rest[i];
      }
    }
  }

  /** Whatever has come to a destination since the start is the copy of its source. */
  ghost predicate NewAreCopies(env: Env, sources: Bucket, artifacts: seq<Artifact>, start: Bucket, bucket: Bucket) {
    forall a | a in artifacts && a.destinationKey in bucket && a.destinationKey !in start ::
      a.sourceKey in sources && IsCopy(env, a.sourceKey, sources[a.sourceKey], bucket[a.destinationKey])
  }

  lemma {:induction false} CopiesAreCopies(env: Env, sources: Bucket, artifacts: seq<Artifact>, before: Bucket, n: nat)
    requires DistinctDestinations(artifacts) && AllPromotable(env, sources, artifacts) && n <= |Missing(artifacts, before)|
    requires AllPromotable(env, sources, Missing(artifacts, before)[..n])
    ensures NewAreCopies(env, sources, artifacts, before, WithCopies(env, sources, before, Missing(artifacts, before)[..n]))
  {
    var missing := Missing(artifacts, before);
    if n > 0 {
      MissingPromotable(env, sources, artifacts, before, n - 1);
      CopiesAreCopies(env, sources, artifacts, before, n - 1);
      TakeOne(missing, n - 1);
      OneMoreCopy(env, sources, before, missing[..n - 1], missing[n - 1]);
      MissingHas(artifacts, before, missing[n - 1]);
      OneNewCopy(env, sources, artifacts, before, WithCopies(env, sources, before, missing[..n - 1]), missing[n - 1]);
    }
  }

  lemma OneNewCopy(env: Env, sources: Bucket, artifacts: seq<Artifact>, start: Bucket, bucket: Bucket, a: Artifact)
    requires DistinctDestinations(artifacts) && a in artifacts && NewAreCopies(env, sources, artifacts, start, bucket)
    requires a.sourceKey in sources && MetadataForCopy(env, a.sourceKey, sources[a.sourceKey]).Success?
    ensures NewAreCopies(env, sources, artifacts, start, bucket[a.destinationKey := CopyOf(env, sources[a.sourceKey], a.sourceKey)])
  {
    SameDestination(artifacts, a);
    CopyIs(env, a.sourceKey, sources[a.sourceKey]);
  }

  lemma SameDestination(artifacts: seq<Artifact>, a: Artifact)
    requires DistinctDestinations(artifacts) && a in artifacts
    ensures forall b | b in artifacts && b.destinationKey == a.destinationKey :: b == a
  {
    var i: nat :| i < |artifacts| && artifacts[i] == a;
    forall b | b in artifacts && b.destinationKey == a.destinationKey
      ensures b == a
    {
      var j: nat :| j < |artifacts| && artifacts[j] == b;
    }
  }

  /** A run that lives leaves every artifact at its destination, matching its source, and replaces nothing. */
  lemma LivingRunSettlesAll(
    env: Env, sources: Bucket, artifacts: seq<Artifact>, before: Bucket, after: Bucket, result: Result<seq<Action>, PromotionError>)
    requires Resumable(env, sources, artifacts, before) && Ended(env, sources, artifacts, before, None, after, result)
    ensures result == Success(ReportOf(artifacts, before))
    ensures AllSettled(env, sources, artifacts, after) && Grows(before, after)
  {
    var missing := Missing(artifacts, before);
    assert missing[..|missing|] == missing;
    CopiesKeepResumable(env, sources, artifacts, before, |missing|);
    CopiesKeys(env, sources, before, missing);
    forall a | a in artifacts
      ensures a.sourceKey in sources && Settled(env, sources, after, a)
    {
      MissingHas(artifacts, before, a);
      assert a.destinationKey in after;
    }
  }

  /**
   * However many runs died, and wherever: the destination is resumable and nothing that was
   * there has changed; `build_promotion_plan` succeeds on it and marks as verified exactly what
   * is there; and a run that lives copies the rest, succeeds, ends with every artifact matching
   * its source and replaces nothing.
   */
  lemma {:induction false} AnyNumberOfCrashes(
    env: Env, sources: Bucket, artifacts: seq<Artifact>, start: Bucket, runs: seq<Ran>, final: Bucket,
    result: Result<seq<Action>, PromotionError>)
    requires Resumable(env, sources, artifacts, start) && History(env, sources, artifacts, start, runs)
    requires Ended(env, sources, artifacts, Last(start, runs), None, final, result)
    ensures var last := Last(start, runs);
            && Grows(start, last) && NewAreCopies(env, sources, artifacts, start, last) && Plannable(env, sources, artifacts, last)
            && result == Success(ReportOf(artifacts, last)) && AllSettled(env, sources, artifacts, final) && Grows(last, final)
  {
    HistoryKeepsResumable(env, sources, artifacts, start, runs);
    LivingRunSettlesAll(env, sources, artifacts, Last(start, runs), final, result);
  }

  lemma {:induction false} HistoryKeepsResumable(env: Env, sources: Bucket, artifacts: seq<Artifact>, start: Bucket, runs: seq<Ran>)
    requires Resumable(env, sources, artifacts, start) && History(env, sources, artifacts, start, runs)
    ensures Resumable(env, sources, artifacts, Last(start, runs)) && Grows(start, Last(start, runs))
    ensures NewAreCopies(env, sources, artifacts, start, Last(start, runs))
  {
    if runs != [] {
      var n := |runs| - 1;
      LastRun(env, sources, artifacts, start, runs);
      HistoryKeepsResumable(env, sources, artifacts, start, runs[..n]);
      var before := Last(start, runs[..n]);
      var lived := Lived(artifacts, before, runs[n].fuel);
      CopiesKeepResumable(env, sources, artifacts, before, lived);
      CopiesAreCopies(env, sources, artifacts, before, lived);
    }
  }
}
