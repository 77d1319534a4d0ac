/**
The two batch jobs around the link-index queries: one task's materialization up to its
list of part files, and the compaction of one bucket.
*/
module LinkTasks {
  import opened Wrappers
  import opened Collections
  import opened LinkIndex
  import opened LinkServing

  // ---------------------------------------------------------------- part files of one table

  /** A Parquet file the partitioned write left on scratch: its directory name and its path. */
  datatype PartFile = PartFile(directory: string, path: string)

  const PARTITION_PREFIX := "target_bucket="

  /** Why the file at place `i` is refused, given those before it; `parse` is Python's `int`. */
  function FileFault(parse: string -> Option<int>, files: seq<PartFile>, i: nat): Option<PlanError>
    requires i < |files|
  {
    if !(PARTITION_PREFIX <= files[i].directory) then Some(NotAPartition)
    else
      match BucketOf(parse, files[i])
      case None => Some(NotANumber)
      case Some(b) =>
        if b < 0 || b >= BUCKET_COUNT then Some(OutOfRange)
        else if exists j: nat :: j < i && BucketOf(parse, files[j]) == Some(b) then Some(TwoFiles)
        else None
  }

  function BucketOf(parse: string -> Option<int>, file: PartFile): Option<int> {
    if PARTITION_PREFIX <= file.directory then parse(file.directory[|PARTITION_PREFIX|..]) else None
  }

  /** `sorted(files_by_bucket.items())` for the buckets from `from` on. */
  function SortedItems(files: map<int, PartFile>, from: nat): (r: seq<(int, PartFile)>)
    requires from <= BUCKET_COUNT
    ensures forall i: nat, j: nat | i < j < |r| :: r[i].0 < r[j].0
    ensures forall i: nat | i < |r| :: from <= r[i].0 < BUCKET_COUNT
    ensures forall b, f :: (b, f) in r <==> b in files && from <= b < BUCKET_COUNT && files[b] == f
    decreases BUCKET_COUNT - from
  {
    if from == BUCKET_COUNT then []
    else (if from in files then [(from as int, files[from])] else []) + SortedItems(files, from + 1)
  }

  /** The dictionary the loop fills. */
  function ByBucket(parse: string -> Option<int>, files: seq<PartFile>): map<int, PartFile> {
    if files == [] then map[]
    else
      var n := |files| - 1;
      var b := BucketOf(parse, files[n]);
      if b.None? then ByBucket(parse, files[..n]) else ByBucket(parse, files[..n])[b.value := files[n]]
  }

  lemma {:induction false} ByBucketHas(parse: string -> Option<int>, files: seq<PartFile>, b: int)
    ensures b in ByBucket(parse, files) <==> exists j: nat :: j < |files| && BucketOf(parse, files[j]) == Some(b)
    ensures b in ByBucket(parse, files) ==>
              ByBucket(parse, files)[b] in files && BucketOf(parse, ByBucket(parse, files)[b]) == Some(b)
  {
    if files != [] {
      var n := |files| - 1;
      ByBucketHas(parse, files[..n], b);
      assert files[n] in files;
      forall j: nat | j < n && BucketOf(parse, files[j]) == Some(b)
        ensures BucketOf(parse, files[..n][j]) == Some(b)
      {
      }
    }
  }

  ghost predicate NoFaults(parse: string -> Option<int>, files: seq<PartFile>) {
    forall i: nat | i < |files| :: FileFault(parse, files, i) == None
  }

  /** Without a fault the dictionary loses nothing and stays within range. */
  lemma ByBucketExact(parse: string -> Option<int>, files: seq<PartFile>, b: int, f: PartFile)
    requires NoFaults(parse, files)
    ensures b in ByBucket(parse, files) && ByBucket(parse, files)[b] == f <==> f in files && BucketOf(parse, f) == Some(b)
    ensures b in ByBucket(parse, files) ==> 0 <= b < BUCKET_COUNT
  {
    ByBucketHas(parse, files, b);
    if f in files && BucketOf(parse, f) == Some(b) {
      var j: nat :| j < |files| && files[j] == f;
      var k: nat :| k < |files| && files[k] == ByBucket(parse, files)[b];
      assert FileFault(parse, files, j) == None && FileFault(parse, files, k) == None;
    }
    if b in ByBucket(parse, files) {
      var j: nat :| j < |files| && BucketOf(parse, files[j]) == Some(b);
      assert FileFault(parse, files, j) == None;
    }
  }

  lemma SortedExact(parse: string -> Option<int>, files: seq<PartFile>)
    requires NoFaults(parse, files)
    ensures forall b, f :: (b, f) in SortedItems(ByBucket(parse, files), 0) <==> f in files && BucketOf(parse, f) == Some(b)
  {
    forall b, f
      ensures (b, f) in SortedItems(ByBucket(parse, files), 0) <==> f in files && BucketOf(parse, f) == Some(b)
    {
      ByBucketExact(parse, files, b, f);
    }
  }

  /**
   * `_partitioned_output_files`: at most one part per bucket, in bucket order; any stray
   * directory, bad number, bucket outside 0..1023 or second file of a bucket is an error.
   */
  method PartitionedOutputFiles(files: seq<PartFile>, parse: string -> Option<int>)
    returns (r: Result<seq<(int, PartFile)>, PlanError>)
    ensures r.Success? <==> NoFaults(parse, files)
    ensures r.Failure? ==> exists i: nat :: i < |files| && FileFault(parse, files, i) == Some(r.error)
    ensures r.Success? ==>
              && (forall i: nat, j: nat | i < j < |r.value| :: r.value[i].0 < r.value[j].0)
              && (forall b, f :: (b, f) in r.value <==> f in files && BucketOf(parse, f) == Some(b))
  {
    var byBucket: map<int, PartFile> := map[];
    for i := 0 to |files|
      invariant forall j: nat | j < i :: FileFault(parse, files, j) == None
      invariant byBucket == ByBucket(parse, files[..i])
    {
      var file, fault := files[i], None;
      if !(PARTITION_PREFIX <= file.directory) {
        fault := Some(NotAPartition);
      } else {
        var bucket := parse(file.directory[|PARTITION_PREFIX|..]);
        if bucket.None? {
          fault := Some(NotANumber);
        } else if bucket.value < 0 || bucket.value >= BUCKET_COUNT {
          fault := Some(OutOfRange);
        } else {
          ByBucketHas(parse, files[..i], bucket.value);
          if bucket.value in byBucket {
            fault := Some(TwoFiles);
          } else {
            byBucket := byBucket[bucket.value := file];
          }
        }
      }
      assert fault == FileFault(parse, files, i);
      if fault.Some? {
        return Failure(fault.value);
      }
      assert files[..i + 1] == files[..i] + [file];
      assert files[..i + 1][..i] == files[..i];
    }
    assert files[..|files|] == files;
    SortedExact(parse, files);
    r := Success(SortedItems(byBucket, 0));
  }

  // ---------------------------------------------------------------- compaction of one bucket

  /** An existing compaction summary, as far as it is read. */
  datatype Existing = Malformed | OtherKind | Existing(runId: string, bucket: int)

  datatype CompactionError = InvalidArguments | SummaryConflict | Partial(missing: seq<TableName>)

  datatype Compaction = Reused | Empty | Compacted(views: map<TableName, Table>)

  /** The tables without a part, in the order they are listed. */
  function Missing(stored: TableName -> seq<Table>, tables: seq<TableName>): seq<TableName> {
    if tables == [] then []
    else
      var last := tables[|tables| - 1];
      Missing(stored, tables[..|tables| - 1]) + if stored(last) == [] then [last] else []
  }

  lemma {:induction false} MissingHas(stored: TableName -> seq<Table>, tables: seq<TableName>, t: TableName)
    ensures t in Missing(stored, tables) <==> t in tables && stored(t) == []
  {
    if tables != [] {
      MissingHas(stored, tables[..|tables| - 1], t);
    }
  }

  /** `compact_bucket`, up to the publication of its six results. */
  method CompactBucket(runId: string, bucket: int, existing: Option<Existing>, stored: TableName -> seq<Table>)
    returns (r: Result<Compaction, CompactionError>)
    ensures r == Failure(InvalidArguments) <==> runId == "" || bucket < 0 || bucket >= BUCKET_COUNT
    ensures runId != "" && 0 <= bucket < BUCKET_COUNT && existing.Some? ==>
              r == if existing.value == Existing(runId, bucket) then Success(Reused) else Failure(SummaryConflict)
    ensures runId != "" && 0 <= bucket < BUCKET_COUNT && existing.None? ==>
              r == Decision(Missing(stored, TABLES), Fetched(stored, TABLES))
  {
    if runId == "" || bucket < 0 || bucket >= BUCKET_COUNT {
      return Failure(InvalidArguments);
    }
    if existing.Some? {
      return if existing.value == Existing(runId, bucket) then Success(Reused) else Failure(SummaryConflict);
    }
    var downloaded, missing := Download(stored);
    MissingWhole(stored, TABLES);
    if forall t | t in downloaded :: downloaded[t] == [] {
      return Success(Empty);
    }
    if missing != [] {
      return Failure(Partial(missing));
    }
    r := Success(Compacted(map t | t in downloaded :: SumParts(downloaded[t])));
  }

  /** All six tables empty, some of them missing, or the views the six queries run on. */
  function Decision(missing: seq<TableName>, fetched: map<TableName, seq<Table>>): Result<Compaction, CompactionError> {
    if missing == TABLES then Success(Empty)
    else if missing != [] then Failure(Partial(missing))
    else Success(Compacted(map t | t in fetched :: SumParts(fetched[t])))
  }

  lemma {:induction false} MissingWhole(stored: TableName -> seq<Table>, tables: seq<TableName>)
    ensures |Missing(stored, tables)| <= |tables|
    ensures Missing(stored, tables) == tables <==> forall t | t in Fetched(stored, tables) :: Fetched(stored, tables)[t] == []
  {
    if tables != [] {
      var front, last := tables[..|tables| - 1], tables[|tables| - 1];
      MissingWhole(stored, front);
      SplitLast(tables);
      MissingStep(stored, front, last);
      FetchedStep(stored, front, last);
      if stored(last) == [] {
        var some, all := Missing(stored, front), Missing(stored, tables);
        assert all[..|some|] == some;
        if all == tables {
          assert |some| == |front|;
        }
      } else {
        assert last in Fetched(stored, tables);
      }
      assert forall t | t in Fetched(stored, front) :: t in Fetched(stored, tables) && Fetched(stored, tables)[t] == Fetched(stored, front)[t];
    }
  }

  /** A bucket is refused exactly when some table has a part and some other has none. */
  lemma RefusedWhen(stored: TableName -> seq<Table>)
    ensures Decision(Missing(stored, TABLES), Fetched(stored, TABLES)).Failure?
            <==> (exists t :: stored(t) == []) && (exists t :: stored(t) != [])
    ensures Decision(Missing(stored, TABLES), Fetched(stored, TABLES)) == Success(Empty) <==> forall t :: stored(t) == []
  {
    MissingWhole(stored, TABLES);
    MissingAll(stored);
    AllTables();
    var missing := Missing(stored, TABLES);
    if missing != [] {
      assert missing[0] in missing;
    }
    assert forall t :: t in Fetched(stored, TABLES) && Fetched(stored, TABLES)[t] == stored(t);
  }

  /** What the download loop has fetched. */
  function Fetched(stored: TableName -> seq<Table>, tables: seq<TableName>): map<TableName, seq<Table>> {
    map t | t in tables :: stored(t)
  }

  lemma FetchedStep(stored: TableName -> seq<Table>, tables: seq<TableName>, t: TableName)
    ensures Fetched(stored, tables + [t]) == Fetched(stored, tables)[t := stored(t)]
  {
  }

  /** The download loop, and the list of tables without a part. */
  method Download(stored: TableName -> seq<Table>) returns (downloaded: map<TableName, seq<Table>>, missing: seq<TableName>)
    ensures downloaded == Fetched(stored, TABLES) && missing == Missing(stored, TABLES)
  {
    downloaded, missing := map[], [];
    TakeAll(TABLES);
    for i := 0 to |TABLES|
      invariant downloaded == Fetched(stored, TABLES[..i]) && missing == Missing(stored, TABLES[..i])
    {
      TakeOne(TABLES, i);
      FetchedStep(stored, TABLES[..i], TABLES[i]);
      MissingStep(stored, TABLES[..i], TABLES[i]);
      downloaded := downloaded[TABLES[i] := stored(TABLES[i])];
      if downloaded[TABLES[i]] == [] {
        missing := missing + [TABLES[i]];
      }
    }
  }

  lemma MissingStep(stored: TableName -> seq<Table>, tables: seq<TableName>, t: TableName)
    ensures Missing(stored, tables + [t]) == Missing(stored, tables) + if stored(t) == [] then [t] else []
  {
    assert (tables + [t])[..|tables|] == tables;
  }

  lemma MissingAll(stored: TableName -> seq<Table>)
    ensures forall t :: t in Missing(stored, TABLES) <==> stored(t) == []
  {
    AllTables();
    forall t
      ensures t in Missing(stored, TABLES) <==> stored(t) == []
    {
      MissingHas(stored, TABLES, t);
    }
  }

  lemma AllTables()
    ensures forall t: TableName :: t in TABLES
  {
    forall t: TableName
      ensures t in TABLES
    {
      match t
      case DomainEdges => assert TABLES[0] == t;
      case ReferringDomains => assert TABLES[1] == t;
      case Anchors => assert TABLES[2] == t;
      case TopPages => assert TABLES[3] == t;
      case PageReferrers => assert TABLES[4] == t;
      case BrokenBacklinks => assert TABLES[5] == t;
    }
  }

  function ViewsOf(views: map<TableName, Table>): TableName -> Table {
    t => if t in views then views[t] else map[]
  }

  lemma AllOrNoneStored(env: Env, tasks: seq<seq<Raw>>, b: nat, stored: TableName -> seq<Table>)
    requires forall t :: stored(t) == Parts(env, t, tasks, b)
    ensures forall t :: stored(t) == [] <==> stored(DomainEdges) == []
  {
    forall t: TableName
      ensures stored(t) == [] <==> stored(DomainEdges) == []
    {
      AllTablesOrNone(env, t, DomainEdges, tasks, b);
    }
  }

  lemma ViewsAreSums(stored: TableName -> seq<Table>, views: map<TableName, Table>)
    requires Decision(Missing(stored, TABLES), Fetched(stored, TABLES)) == Success(Compacted(views))
    ensures forall t :: ViewsOf(views)(t) == SumParts(stored(t))
  {
    AllTables();
    forall t: TableName
      ensures ViewsOf(views)(t) == SumParts(stored(t))
    {
      assert t in Fetched(stored, TABLES) && Fetched(stored, TABLES)[t] == stored(t);
    }
  }

  /**
   * What compaction answers once every task has published: never a partial bucket; an empty one
   * exactly when no link lands in it; and otherwise views from which the six queries serve
   * exactly the bucket's part of one direct query over all rows.
   */
  lemma PublishedBucket(env: Env, all: seq<Raw>, tasks: seq<seq<Raw>>, b: nat, stored: TableName -> seq<Table>,
                        r: Result<Compaction, CompactionError>)
    requires multiset(all) == multiset(Flatten(tasks))
    requires forall t :: stored(t) == Parts(env, t, tasks, b)
    requires r == Decision(Missing(stored, TABLES), Fetched(stored, TABLES))
    ensures r.Success? && !r.value.Reused?
    ensures r.value.Empty? <==> forall l | l in Classified(env, Flatten(tasks)) :: DomainBucket(env, l.targetDomain) != b
    ensures r.value.Compacted? ==>
              && ServingOf(ViewsOf(r.value.views)) == Restrict(env, DirectServing(Classified(env, all)), b)
              && Serves(ServingOf(ViewsOf(r.value.views)), Into(env, Classified(env, all), b))
  {
    AllOrNoneStored(env, tasks, b, stored);
    RefusedWhen(stored);
    NoParts(env, DomainEdges, tasks, b);
    if r.value.Compacted? {
      ViewsAreSums(stored, r.value.views);
      ServingIsDirect(env, all, tasks, b, ViewsOf(r.value.views));
      ServedTables(env, all, tasks, b, ViewsOf(r.value.views));
    }
  }

  lemma {:induction false} NoParts(env: Env, t: TableName, tasks: seq<seq<Raw>>, b: nat)
    ensures Parts(env, t, tasks, b) == []
            <==> forall l | l in Classified(env, Flatten(tasks)) :: DomainBucket(env, l.targetDomain) != b
  {
    if tasks != [] {
      var n := |tasks| - 1;
      NoParts(env, t, tasks[..n], b);
      PartEmpty(env, t, tasks[n], b);
      ClassifiedConcat(env, Flatten(tasks[..n]), tasks[n]);
    }
  }
}
