/**
`run_shard` of the derived backlinks as a program of store requests: any number of its workers
on one shard are a run of the publication machine, and the program killed behind its metrics
file leaves a shard that only an attempt with the very same metrics file completes.
*/
module DerivedPrograms {
  import opened Wrappers
  import opened Collections
  import opened Publication
  import opened Programs
  import opened DerivedShard

  /** Every object an uninterrupted attempt uploads, in order. */
  function Objects(p: Protocol, c: Contract, a: Attempt): seq<(Key, Body)> {
    [(SOURCE_PLAN, PlanBody(c))]
    + if !Collectable(c, a) then []
      else
        var manifest := ManifestBody(p, c, a, PartsOf(c, a));
        PartsOf(c, a) + [(PUBLICATION, manifest), (DERIVED_COMPLETED, CompletionBody(c, a, RefTo(p, PUBLICATION, manifest)))]
  }

  /** `run_shard`, request by request: the marker first, then one upload after the other. */
  function DeriveAction(p: Protocol, c: Contract, a: Attempt, log: Log): Action {
    if log == [] then Read(DERIVED_COMPLETED)
    else if !log[0].Saw? || log[0].found.Some? || |log| > |Objects(p, c, a)| then Stop
    else
      var (key, body) := Objects(p, c, a)[|log| - 1];
      Upload(key, body)
  }

  function DeriveProgram(p: Protocol, c: Contract, a: Attempt): Program {
    log => DeriveAction(p, c, a, log)
  }

  lemma UploadedAt(p: Protocol, c: Contract, a: Attempt, store: Store, log: Log, i: nat)
    requires Follows(DeriveProgram(p, c, a), log) && Witnessed(p, store, log)
    requires i + 1 < |log|
    ensures i < |Objects(p, c, a)| && Present(p, store, RefTo(p, Objects(p, c, a)[i].0, Objects(p, c, a)[i].1))
  {
    var prefix := log[..i + 1];
    assert Answers(DeriveAction(p, c, a, prefix), log[i + 1]);
    assert log[i + 1] in log;
  }

  lemma ObjectSupported(p: Protocol, c: Contract, a: Attempt, store: Store, i: nat)
    requires ForShard(p, c.shard) && (a.files.Some? ==> DistinctPaths(a.files.value)) && i < |Objects(p, c, a)|
    requires forall j: nat | j < i :: Present(p, store, RefTo(p, Objects(p, c, a)[j].0, Objects(p, c, a)[j].1))
    ensures Supported(p, store, Objects(p, c, a)[i].0, Objects(p, c, a)[i].1)
  {
    var o := Objects(p, c, a);
    if i == 0 {
      PlanSupported(p, c.shard, store, c);
    } else {
      assert Present(p, store, RefTo(p, o[0].0, o[0].1));
      var parts := PartsOf(c, a);
      var n := |parts|;
      if i <= n {
        assert o[i] == parts[i - 1];
        assert parts[i - 1] in parts;
        PartsAreFiles(c.shard, a.files.value, a.metrics);
        FileSupported(p, c.shard, store, o[i].0, o[i].1);
      } else if i == n + 1 {
        forall j: nat | j < n
          ensures Present(p, store, RefTo(p, parts[j].0, parts[j].1))
        {
          assert o[j + 1] == parts[j];
        }
        PartsSupport(p, store, c, a);
      } else {
        assert Present(p, store, RefTo(p, o[n + 1].0, o[n + 1].1));
        MarkerSupported(p, store, c, a, ManifestBody(p, c, a, parts));
      }
    }
  }

  /** `run_shard` uploads nothing before everything it records or presupposes is in place. */
  lemma DeriveIsDisciplined(p: Protocol, c: Contract, a: Attempt)
    requires ForShard(p, c.shard) && (a.files.Some? ==> DistinctPaths(a.files.value))
    ensures Disciplined(p, DeriveProgram(p, c, a))
  {
    forall store, log, key, body |
      Closed(p, store) && Follows(DeriveProgram(p, c, a), log) && Witnessed(p, store, log) && DeriveProgram(p, c, a)(log) == Upload(key, body)
      ensures Supported(p, store, key, body)
    {
      var i := |log| - 1;
      forall j: nat | j < i
        ensures Present(p, store, RefTo(p, Objects(p, c, a)[j].0, Objects(p, c, a)[j].1))
      {
        UploadedAt(p, c, a, store, log, j);
      }
      ObjectSupported(p, c, a, store, i);
    }
  }

  function DerivePrograms(p: Protocol, c: Contract, attempts: seq<Attempt>): (r: seq<Program>)
    ensures |r| == |attempts| && forall w: nat | w < |r| :: r[w] == DeriveProgram(p, c, attempts[w])
  {
    seq(|attempts|, w requires 0 <= w < |attempts| => DeriveProgram(p, c, attempts[w]))
  }

  /**
   * Any number of workers of `run_shard` on one derived shard, interleaved, crashed and
   * restarted as they like, are a run of the publication machine, and their marker means a
   * whole shard.
   */
  lemma WorkersAreARun(p: Protocol, c: Contract, attempts: seq<Attempt>, moves: seq<Move>)
    requires ForShard(p, c.shard)
    requires forall a | a in attempts :: a.files.Some? ==> DistinctPaths(a.files.value)
    ensures var store := PlayAll(p, DerivePrograms(p, c, attempts), Fresh(|attempts|), moves).store;
            && IsARun(p, |attempts|, store)
            && (DERIVED_COMPLETED in store ==> Whole(p, store, c.shard))
  {
    var programs := DerivePrograms(p, c, attempts);
    forall program | program in programs
      ensures Disciplined(p, program)
    {
      var w: nat :| w < |programs| && programs[w] == program;
      DeriveIsDisciplined(p, c, attempts[w]);
    }
    ProgramsAreRuns(p, programs, moves);
    var net := PlayAll(p, programs, Fresh(|attempts|), moves);
    if DERIVED_COMPLETED in net.store {
      MarkerMeansWhole(p, net.store, c.shard);
    }
  }

  // ---------------------------------------------------------------- killed behind the metrics file

  /** The store and the log after the first `n` uploads of an attempt on an empty prefix. */
  function Filled(p: Protocol, c: Contract, a: Attempt, n: nat): Store
    requires n <= |Objects(p, c, a)|
  {
    if n == 0 then map[]
    else
      var (key, body) := Objects(p, c, a)[n - 1];
      WithObject(p, Filled(p, c, a, n - 1), key, body)
  }

  function LogOf(p: Protocol, c: Contract, a: Attempt, n: nat): (r: Log)
    requires n <= |Objects(p, c, a)|
    ensures |r| == n + 1 && r[0] == Saw(DERIVED_COMPLETED, None)
  {
    if n == 0 then [Saw(DERIVED_COMPLETED, None)]
    else
      var (key, body) := Objects(p, c, a)[n - 1];
      LogOf(p, c, a, n - 1) + [Uploaded(key, body, false)]
  }

  lemma {:induction false} FilledHas(p: Protocol, c: Contract, a: Attempt, n: nat, key: Key)
    requires n <= |Objects(p, c, a)|
    ensures key in Filled(p, c, a, n) <==> exists i: nat :: i < n && Objects(p, c, a)[i].0 == key
  {
    if n > 0 {
      FilledHas(p, c, a, n - 1, key);
      assert key in Filled(p, c, a, n) <==> key == Objects(p, c, a)[n - 1].0 || key in Filled(p, c, a, n - 1);
    }
  }

  lemma ObjectKeysDistinct(p: Protocol, c: Contract, a: Attempt)
    requires Collectable(c, a) && DistinctPaths(a.files.value)
    ensures DistinctKeys(Objects(p, c, a))
  {
    var o, parts := Objects(p, c, a), PartsOf(c, a);
    KeysDistinct(c.shard, a.files.value, a.metrics);
    PartsAreFiles(c.shard, a.files.value, a.metrics);
    forall i: nat | i < |parts|
      ensures o[i + 1] == parts[i] && o[i + 1].0.Output?
    {
      assert parts[i] in parts;
    }
    forall i: nat, j: nat | i < j < |o|
      ensures o[i].0 != o[j].0
    {
      if 0 < i && j <= |parts| {
        assert o[i] == parts[i - 1] && o[j] == parts[j - 1];
      } else if 0 < i <= |parts| {
        assert o[i] == parts[i - 1];
      } else if i == 0 && j <= |parts| {
        assert o[j] == parts[j - 1];
      }
    }
  }

  lemma {:induction false} FilledAt(p: Protocol, c: Contract, a: Attempt, n: nat, i: nat)
    requires Collectable(c, a) && DistinctPaths(a.files.value) && i < n <= |Objects(p, c, a)|
    ensures Present(p, Filled(p, c, a, n), RefTo(p, Objects(p, c, a)[i].0, Objects(p, c, a)[i].1))
  {
    if i < n - 1 {
      FilledAt(p, c, a, n - 1, i);
      ObjectKeysDistinct(p, c, a);
    }
  }

  /** Every file of the attempt fits a single put. */
  predicate Fits(p: Protocol, c: Contract, a: Attempt)
    requires a.files.Some?
  {
    forall part | part in PartsOf(c, a) :: !TooLarge(p, part.1)
  }

  lemma NextFits(p: Protocol, c: Contract, a: Attempt, n: nat)
    requires Collectable(c, a) && DistinctPaths(a.files.value) && Fits(p, c, a) && n < |Objects(p, c, a)|
    ensures Objects(p, c, a)[n].0 !in Filled(p, c, a, n) && !TooLarge(p, Objects(p, c, a)[n].1)
  {
    FilledHas(p, c, a, n, Objects(p, c, a)[n].0);
    ObjectKeysDistinct(p, c, a);
    if 0 < n <= |PartsOf(c, a)| {
      assert Objects(p, c, a)[n] == PartsOf(c, a)[n - 1];
    }
  }

  lemma UploadsNext(p: Protocol, c: Contract, a: Attempt, n: nat)
    requires Collectable(c, a) && DistinctPaths(a.files.value) && Fits(p, c, a) && n < |Objects(p, c, a)|
    ensures Gets(p, DeriveProgram(p, c, a), Solo(Filled(p, c, a, n), LogOf(p, c, a, n)),
                 Solo(Filled(p, c, a, n + 1), LogOf(p, c, a, n + 1)))
  {
    var store, log := Filled(p, c, a, n), LogOf(p, c, a, n);
    var (key, body) := Objects(p, c, a)[n];
    NextFits(p, c, a, n);
    assert DeriveProgram(p, c, a)(log) == Upload(key, body);
    GetsUpload(p, DeriveProgram(p, c, a), store, log);
  }

  lemma LooksFirst(p: Protocol, c: Contract, a: Attempt)
    ensures Gets(p, DeriveProgram(p, c, a), Solo(map[], []), Solo(Filled(p, c, a, 0), LogOf(p, c, a, 0)))
  {
    GetsAnswer(p, DeriveProgram(p, c, a), map[], []);
    assert [] + [Saw(DERIVED_COMPLETED, None)] == [Saw(DERIVED_COMPLETED, None)];
  }

  lemma {:induction false} Arrives(p: Protocol, c: Contract, a: Attempt, n: nat)
    requires Collectable(c, a) && DistinctPaths(a.files.value) && Fits(p, c, a) && n <= |Objects(p, c, a)|
    ensures Gets(p, DeriveProgram(p, c, a), Solo(map[], []), Solo(Filled(p, c, a, n), LogOf(p, c, a, n)))
  {
    var program := DeriveProgram(p, c, a);
    if n == 0 {
      LooksFirst(p, c, a);
    } else {
      Arrives(p, c, a, n - 1);
      UploadsNext(p, c, a, n - 1);
      GetsOn(p, program, Solo(map[], []), Solo(Filled(p, c, a, n - 1), LogOf(p, c, a, n - 1)),
             Solo(Filled(p, c, a, n), LogOf(p, c, a, n)));
    }
  }

  /**
   * The gap is reached, and it is exactly this wide: from an empty prefix, `run_shard` killed
   * behind its metrics file leaves an unfinished shard with that file and all the others. A later
   * attempt with the same files and details completes it exactly when its metrics file is the
   * same; as long as none is, no attempt ever stores the marker.
   */
  lemma CrashBehindMetrics(p: Protocol, c: Contract, first: Attempt) returns (moves: seq<Move>)
    requires CollisionFree(p) && ForShard(p, c.shard)
    requires Collectable(c, first) && DistinctPaths(first.files.value) && Fits(p, c, first)
    ensures var store := PlayAll(p, [DeriveProgram(p, c, first)], Fresh(1), moves).store;
            && DERIVED_COMPLETED !in store && AllPresent(p, store, PartsOf(c, first))
            && (forall a: Attempt | a.files == first.files && a.detail == first.detail ::
                  Completes(p, store, c, a) <==> a.metrics == first.metrics)
            && forall tries: seq<Try>, t: Try |
                 History(p, c, store, tries) && t in tries && (forall u | u in tries :: u.attempt.metrics != first.metrics) ::
                 DERIVED_COMPLETED !in t.after && !t.published
  {
    moves := Killed(p, c, first);
    var n := |PartsOf(c, first)|;
    var store := Filled(p, c, first, n + 1);
    FilledWithFiles(p, c, first);
    var programs := [DeriveProgram(p, c, first)];
    DeriveIsDisciplined(p, c, first);
    ProgramsAreRuns(p, programs, moves);
    forall a: Attempt | a.files == first.files && a.detail == first.detail
      ensures Completes(p, store, c, a) <==> a.metrics == first.metrics
    {
      CompletesBehindFiles(p, c, store, first, a);
    }
    forall tries: seq<Try>, t: Try |
      History(p, c, store, tries) && t in tries && (forall u | u in tries :: u.attempt.metrics != first.metrics)
      ensures DERIVED_COMPLETED !in t.after && !t.published
    {
      forall u | u in tries
        ensures Stale(p, c, store, u.attempt)
      {
        OtherMetricsAreStale(p, c, store, first, u.attempt);
      }
      StaleMetricsStick(p, c, store, tries);
    }
  }

  lemma OtherMetricsAreStale(p: Protocol, c: Contract, store: Store, first: Attempt, a: Attempt)
    requires CollisionFree(p) && first.files.Some? && AllPresent(p, store, PartsOf(c, first)) && a.metrics != first.metrics
    ensures Stale(p, c, store, a)
  {
    var n := |first.files.value|;
    assert PartsOf(c, first)[n] == (MetricsKey(c.shard), Blob(first.metrics));
    assert Present(p, store, RefTo(p, PartsOf(c, first)[n].0, PartsOf(c, first)[n].1));
  }

  /** The plan and every file are there, and neither the manifest nor the marker. */
  lemma FilledWithFiles(p: Protocol, c: Contract, first: Attempt)
    requires Collectable(c, first) && DistinctPaths(first.files.value)
    ensures var n := |PartsOf(c, first)|;
            var store := Filled(p, c, first, n + 1);
            && Present(p, store, RefTo(p, SOURCE_PLAN, PlanBody(c))) && AllPresent(p, store, PartsOf(c, first))
            && PUBLICATION !in store && DERIVED_COMPLETED !in store
  {
    var o, parts := Objects(p, c, first), PartsOf(c, first);
    var n := |parts|;
    FilledAt(p, c, first, n + 1, 0);
    forall i: nat | i < n
      ensures Present(p, Filled(p, c, first, n + 1), RefTo(p, parts[i].0, parts[i].1))
    {
      FilledAt(p, c, first, n + 1, i + 1);
      assert o[i + 1] == parts[i];
    }
    ObjectKeysDistinct(p, c, first);
    FilledHas(p, c, first, n + 1, PUBLICATION);
    FilledHas(p, c, first, n + 1, DERIVED_COMPLETED);
    assert o[n + 1].0 == PUBLICATION && o[n + 2].0 == DERIVED_COMPLETED;
  }

  lemma Killed(p: Protocol, c: Contract, first: Attempt) returns (moves: seq<Move>)
    requires Collectable(c, first) && DistinctPaths(first.files.value) && Fits(p, c, first)
    ensures PlayAll(p, [DeriveProgram(p, c, first)], Fresh(1), moves).store == Filled(p, c, first, |PartsOf(c, first)| + 1)
  {
    var program := DeriveProgram(p, c, first);
    var n := |PartsOf(c, first)|;
    Arrives(p, c, first, n);
    NextFits(p, c, first, n);
    var store, log := Filled(p, c, first, n), LogOf(p, c, first, n);
    assert program(log) == Upload(Objects(p, c, first)[n].0, Objects(p, c, first)[n].1);
    GetsLost(p, program, store, log);
    var crashed := Net(Filled(p, c, first, n + 1), [Runner(log, true, false)]);
    GetsOn(p, program, Solo(map[], []), Solo(store, log), crashed);
    assert Fresh(1) == Solo(map[], []);
    moves :| PlayAll(p, [program], Solo(map[], []), moves) == crashed;
  }
}
