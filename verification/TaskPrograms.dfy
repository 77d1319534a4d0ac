/**
`run_task` as a program of store requests, and any number of runners of it on one task
prefix: their interleavings are runs of the publication machine, the completion marker comes
last, and everything beside it belongs to the run that the marker names.
*/
module TaskPrograms {
  import opened Wrappers
  import opened Collections
  import opened Publication
  import opened Programs
  import opened RegionalTask

  /** Where in the log the uploads begin, once the prefix has been found free or resumable. */
  function Base(a: Attempt, log: Log): Option<nat> {
    if |log| < 2 || !log[0].Saw? || log[0].found.Some? || !log[1].Listed? then None
    else if log[1].keys == {} then Some(2)
    else if |log| >= 3 && log[1].keys == {TASK_INPUT} && log[2].Saw? && log[2].found.Some? && log[2].found.value.body == InputBody(a) then
      Some(3)
    else None
  }

  /** Did the second look find an artifact as recorded? */
  predicate LooksRight(p: Protocol, event: Event, recorded: Ref) {
    && event.Saw? && event.found.Some?
    && p.size(event.found.value.body) == recorded.bytes && event.found.value.sha == recorded.sha
  }

  predicate AllRight(p: Protocol, events: Log, artifacts: seq<Entry>) {
    forall k: nat | k < |events| && k < |artifacts| :: LooksRight(p, events[k], artifacts[k].ref)
  }

  /** The four payload uploads, the second look at three artifacts, the three control documents. */
  function Publishing(p: Protocol, a: Attempt, log: Log, base: nat): Action
    requires base <= |log|
  {
    var n := |log| - base;
    var objects := Objects(p, a);
    if n == 0 then Upload(objects[0].0, objects[0].1)
    else if a.parsed.None? || n >= 10 then Stop
    else if n < 4 then Upload(objects[n].0, objects[n].1)
    else if !AllRight(p, log[base + 4..], Artifacts(p, a)) then Stop
    else if n < 7 then Read(Artifacts(p, a)[n - 4].ref.key)
    else Upload(objects[n - 3].0, objects[n - 3].1)
  }

  /** `run_task`, request by request. */
  function TaskAction(p: Protocol, a: Attempt, log: Log): Action {
    if log == [] then Read(TASK_COMPLETED)
    else if !log[0].Saw? || log[0].found.Some? then Stop
    else if |log| == 1 then List
    else if |log| == 2 && log[1].Listed? && log[1].keys != {} then Read(TASK_INPUT)
    else if Base(a, log).Some? then Publishing(p, a, log, Base(a, log).value)
    else Stop
  }

  function TaskProgram(p: Protocol, a: Attempt): Program {
    log => TaskAction(p, a, log)
  }

  /** The place in the log at which object `i` is uploaded, counted from the base. */
  function Place(i: nat): nat {
    if i < 4 then i else i + 3
  }

  /** A log that has got past place `Place(i)` has uploaded object `i`. */
  lemma UploadedAt(p: Protocol, a: Attempt, log: Log, i: nat)
    requires Follows(TaskProgram(p, a), log) && Base(a, log).Some?
    requires i < |Objects(p, a)| && Base(a, log).value + Place(i) < |log|
    ensures var event := log[Base(a, log).value + Place(i)];
            event.Uploaded? && (event.key, event.body) == Objects(p, a)[i]
  {
    var at := Base(a, log).value + Place(i);
    var prefix := log[..at];
    assert Base(a, prefix) == Base(a, log);
    assert Answers(TaskAction(p, a, prefix), log[at]);
    assert TaskAction(p, a, prefix) == Publishing(p, a, prefix, Base(a, log).value);
  }

  lemma PresentSoFar(p: Protocol, a: Attempt, store: Store, log: Log, i: nat)
    requires Follows(TaskProgram(p, a), log) && Witnessed(p, store, log) && Base(a, log).Some?
    requires i < |Objects(p, a)| && Base(a, log).value + Place(i) < |log|
    ensures Present(p, store, RefTo(p, Objects(p, a)[i].0, Objects(p, a)[i].1))
  {
    UploadedAt(p, a, log, i);
    assert log[Base(a, log).value + Place(i)] in log;
  }

  /** Which object an upload of the program is. */
  lemma WhichObject(p: Protocol, a: Attempt, log: Log, key: Key, body: Body) returns (i: nat)
    requires TaskAction(p, a, log) == Upload(key, body)
    ensures Base(a, log).Some? && i < |Objects(p, a)| && Objects(p, a)[i] == (key, body)
    ensures |log| == Base(a, log).value + Place(i)
  {
    var n := |log| - Base(a, log).value;
    i := if n < 4 then n else n - 3;
  }

  /** Each object of an attempt may be uploaded once those before it are in place. */
  lemma ObjectSupported(p: Protocol, a: Attempt, store: Store, i: nat)
    requires ForTask(p, a.id.sourceKey) && i < |Objects(p, a)|
    requires forall j: nat | j < i :: Present(p, store, RefTo(p, Objects(p, a)[j].0, Objects(p, a)[j].1))
    ensures Supported(p, store, Objects(p, a)[i].0, Objects(p, a)[i].1)
  {
    var o, source := Objects(p, a), a.id.sourceKey;
    if i > 0 {
      ObjectsAre(p, a);
      assert Present(p, store, RefTo(p, o[0].0, o[0].1));
      if i == 3 {
        assert Present(p, store, RefTo(p, o[1].0, o[1].1)) && Present(p, store, RefTo(p, o[2].0, o[2].1));
        MetricsSupported(p, store, a);
      } else if i > 3 {
        assert Present(p, store, RefTo(p, o[1].0, o[1].1)) && Present(p, store, RefTo(p, o[2].0, o[2].1));
        assert Present(p, store, RefTo(p, o[3].0, o[3].1));
        ArtifactsPresent(p, store, a);
        assert i > 4 ==> Present(p, store, RefTo(p, o[4].0, o[4].1));
        assert i > 5 ==> Present(p, store, RefTo(p, o[5].0, o[5].1));
        ControlSupported(p, store, a, o[i].0, o[i].1);
      }
    }
  }

  /** `run_task` uploads nothing before everything it records or presupposes is in place. */
  lemma TaskIsDisciplined(p: Protocol, a: Attempt)
    requires ForTask(p, a.id.sourceKey)
    ensures Disciplined(p, TaskProgram(p, a))
  {
    forall store, log, key, body |
      Closed(p, store) && Follows(TaskProgram(p, a), log) && Witnessed(p, store, log) && TaskProgram(p, a)(log) == Upload(key, body)
      ensures Supported(p, store, key, body)
    {
      var i := WhichObject(p, a, log, key, body);
      forall j: nat | j < i
        ensures Present(p, store, RefTo(p, Objects(p, a)[j].0, Objects(p, a)[j].1))
      {
        PresentSoFar(p, a, store, log, j);
      }
      ObjectSupported(p, a, store, i);
    }
  }

  function TaskPrograms(p: Protocol, attempts: seq<Attempt>): (r: seq<Program>)
    ensures |r| == |attempts| && forall w: nat | w < |r| :: r[w] == TaskProgram(p, attempts[w])
  {
    seq(|attempts|, w requires 0 <= w < |attempts| => TaskProgram(p, attempts[w]))
  }

  /** The store that the runners have made of an empty prefix. */
  function Outcome(p: Protocol, attempts: seq<Attempt>, moves: seq<Move>): Store {
    PlayAll(p, TaskPrograms(p, attempts), Fresh(|attempts|), moves).store
  }

  /** Interleaved, crashed and restarted runners of `run_task` are a run of the publication machine. */
  lemma RunnersAreARun(p: Protocol, source: string, attempts: seq<Attempt>, moves: seq<Move>)
    requires ForTask(p, source) && forall a | a in attempts :: a.id.sourceKey == source
    ensures IsARun(p, |attempts|, Outcome(p, attempts, moves))
    ensures NetInv(p, TaskPrograms(p, attempts), PlayAll(p, TaskPrograms(p, attempts), Fresh(|attempts|), moves))
  {
    var programs := TaskPrograms(p, attempts);
    forall program | program in programs
      ensures Disciplined(p, program)
    {
      var w: nat :| w < |programs| && programs[w] == program;
      TaskIsDisciplined(p, attempts[w]);
    }
    ProgramsAreRuns(p, programs, moves);
  }

  /** Whose request an object of the prefix answers, and that runner's log when it made it. */
  lemma AskerOf(p: Protocol, source: string, attempts: seq<Attempt>, moves: seq<Move>, key: Key) returns (a: Attempt, log: Log)
    requires ForTask(p, source) && forall a | a in attempts :: a.id.sourceKey == source
    requires key in Outcome(p, attempts, moves)
    ensures var store := Outcome(p, attempts, moves);
            && a in attempts && Follows(TaskProgram(p, a), log) && Witnessed(p, store, log)
            && TaskAction(p, a, log) == Upload(key, store[key].body)
  {
    var programs := TaskPrograms(p, attempts);
    var net := PlayAll(p, programs, Fresh(|attempts|), moves);
    RunnersAreARun(p, source, attempts, moves);
    var body := net.store[key].body;
    assert Authored(programs, net, key, body);
    var w: nat :| w < |programs| && AskedFor(programs[w], net.runners[w].log, key, body);
    var n: nat :| n <= |net.runners[w].log| && programs[w](net.runners[w].log[..n]) == Upload(key, body);
    a, log := attempts[w], net.runners[w].log[..n];
    assert RunnerOk(p, programs[w], net.store, net.runners[w]);
    PrefixFollows(p, programs[w], net.store, net.runners[w].log, n);
  }

  /**
   * Every object in the prefix is one of the seven of some attempt, and that attempt has all
   * its earlier objects in place, its own input manifest first.
   */
  lemma EveryObjectHasItsAttempt(p: Protocol, source: string, attempts: seq<Attempt>, moves: seq<Move>, key: Key) returns (a: Attempt, i: nat)
    requires ForTask(p, source) && forall a | a in attempts :: a.id.sourceKey == source
    requires key in Outcome(p, attempts, moves)
    ensures var store := Outcome(p, attempts, moves);
            && a in attempts && i < |Objects(p, a)| && Objects(p, a)[i] == (key, store[key].body)
            && forall j: nat | j < i :: Present(p, store, RefTo(p, Objects(p, a)[j].0, Objects(p, a)[j].1))
  {
    var store := Outcome(p, attempts, moves);
    var log;
    a, log := AskerOf(p, source, attempts, moves, key);
    i := WhichObject(p, a, log, key, store[key].body);
    forall j: nat | j < i
      ensures Present(p, store, RefTo(p, Objects(p, a)[j].0, Objects(p, a)[j].1))
    {
      PresentSoFar(p, a, store, log, j);
    }
  }

  lemma MarkerIsLastObject(p: Protocol, a: Attempt, i: nat)
    requires i < |Objects(p, a)| && Objects(p, a)[i].0 == TASK_COMPLETED
    ensures a.parsed.Some? && i == 6
  {
    if a.parsed.Some? {
      ObjectsAre(p, a);
    }
  }

  /** The attempt whose marker it is has all seven of its objects in place, digest for digest. */
  lemma MarkerNamesItsAttempt(p: Protocol, source: string, attempts: seq<Attempt>, moves: seq<Move>) returns (a: Attempt)
    requires ForTask(p, source) && forall a | a in attempts :: a.id.sourceKey == source
    requires TASK_COMPLETED in Outcome(p, attempts, moves)
    ensures var store := Outcome(p, attempts, moves);
            && a in attempts && a.parsed.Some? && store[TASK_COMPLETED].body == Objects(p, a)[6].1
            && forall i: nat | i < 7 :: Present(p, store, RefTo(p, Objects(p, a)[i].0, Objects(p, a)[i].1))
  {
    var i;
    a, i := EveryObjectHasItsAttempt(p, source, attempts, moves, TASK_COMPLETED);
    MarkerIsLastObject(p, a, i);
    RunnersAreARun(p, source, attempts, moves);
  }

  lemma OneOfThem(p: Protocol, objects: seq<(Key, Body)>, store: Store, key: Key)
    requires CollisionFree(p) && Closed(p, store) && DistinctKeys(objects) && key in set o | o in objects :: o.0
    requires forall i: nat | i < |objects| :: Present(p, store, RefTo(p, objects[i].0, objects[i].1))
    ensures key in store && key in ToStore(p, objects) && store[key] == ToStore(p, objects)[key]
  {
    var i: nat :| i < |objects| && objects[i].0 == key;
    assert Present(p, store, RefTo(p, objects[i].0, objects[i].1));
    ToStoreAt(p, objects, i);
  }

  /** These objects are all there is, once each of them is there and nothing else can be. */
  lemma AllAreThere(p: Protocol, objects: seq<(Key, Body)>, store: Store)
    requires CollisionFree(p) && Closed(p, store) && DistinctKeys(objects)
    requires store.Keys <= set o | o in objects :: o.0
    requires forall i: nat | i < |objects| :: Present(p, store, RefTo(p, objects[i].0, objects[i].1))
    ensures store == ToStore(p, objects)
  {
    ToStoreKeys(p, objects);
    forall key | key in set o | o in objects :: o.0
      ensures key in store && key in ToStore(p, objects) && store[key] == ToStore(p, objects)[key]
    {
      OneOfThem(p, objects, store, key);
    }
  }

  lemma AllSevenIsAfter(p: Protocol, a: Attempt, store: Store)
    requires CollisionFree(p) && Closed(p, store) && a.parsed.Some?
    requires store.Keys <= set o | o in Objects(p, a) :: o.0
    requires forall i: nat | i < 7 :: Present(p, store, RefTo(p, Objects(p, a)[i].0, Objects(p, a)[i].1))
    ensures store == After(p, a, 7)
  {
    assert Objects(p, a)[..7] == Objects(p, a);
    ObjectKeysDistinct(p, a);
    AllAreThere(p, Objects(p, a), store);
  }

  lemma {:induction false} ToStoreAt(p: Protocol, objects: seq<(Key, Body)>, i: nat)
    requires DistinctKeys(objects) && i < |objects|
    ensures objects[i].0 in ToStore(p, objects)
    ensures ToStore(p, objects)[objects[i].0] == Object(objects[i].1, p.sha(objects[i].1))
  {
    var n := |objects| - 1;
    if i < n {
      ToStoreAt(p, objects[..n], i);
      assert objects[..n][i] == objects[i];
    }
  }

  /** Whose objects a prefix may hold: seven keys, whatever the attempt. */
  lemma SameKeys(p: Protocol, a: Attempt, b: Attempt, i: nat)
    requires a.id.sourceKey == b.id.sourceKey && b.parsed.Some? && i < |Objects(p, a)|
    ensures Objects(p, a)[i].0 == Objects(p, b)[i].0 && i < 7
  {
    ObjectsAre(p, b);
    if a.parsed.Some? {
      ObjectsAre(p, a);
    }
  }

  /**
   * Completion-marker-last for the program itself, with any number of runners, interleaved,
   * crashed and restarted as they like: once the marker is there, all seven objects of one
   * attempt are, with the bytes and digests that attempt recorded, and there are no others.
   * Without a hash collision the prefix is that attempt's seven objects exactly, so the input
   * manifest, the WAT marker and the summary carry the identity that the completion marker has.
   */
  lemma MarkerMeansOneAttempt(p: Protocol, source: string, attempts: seq<Attempt>, moves: seq<Move>) returns (a: Attempt)
    requires ForTask(p, source) && forall a | a in attempts :: a.id.sourceKey == source
    requires TASK_COMPLETED in Outcome(p, attempts, moves)
    ensures var store := Outcome(p, attempts, moves);
            && a in attempts && a.parsed.Some?
            && store[TASK_COMPLETED].body == Objects(p, a)[6].1 && Names(store[TASK_COMPLETED].body, a.id)
            && store.Keys == (set o | o in Objects(p, a) :: o.0)
            && (forall i: nat | i < 7 :: Present(p, store, RefTo(p, Objects(p, a)[i].0, Objects(p, a)[i].1)))
    ensures CollisionFree(p) ==>
              var store := Outcome(p, attempts, moves);
              && store == After(p, a, 7)
              && forall key | key in {TASK_INPUT, WatMarker(source), TASK_SUMMARY} ::
                   key in store && Names(store[key].body, a.id)
  {
    a := MarkerNamesItsAttempt(p, source, attempts, moves);
    RunnersAreARun(p, source, attempts, moves);
    NothingElse(p, source, attempts, moves, a);
    MarkerIdentity(p, a);
    if CollisionFree(p) {
      AllSevenIsAfter(p, a, Outcome(p, attempts, moves));
      IdentityAfter(p, a);
    }
  }

  lemma MarkerIdentity(p: Protocol, a: Attempt)
    requires a.parsed.Some?
    ensures Names(Objects(p, a)[6].1, a.id)
  {
    ObjectsAre(p, a);
    FixedHasIdentity(a, a.parsed.value.summary, Artifacts(p, a), [RefTo(p, TASK_SUMMARY, Objects(p, a)[5].1)]);
  }

  lemma NothingElse(p: Protocol, source: string, attempts: seq<Attempt>, moves: seq<Move>, a: Attempt)
    requires ForTask(p, source) && forall a | a in attempts :: a.id.sourceKey == source
    requires a in attempts && a.parsed.Some?
    requires var store := Outcome(p, attempts, moves);
             forall i: nat | i < 7 :: Present(p, store, RefTo(p, Objects(p, a)[i].0, Objects(p, a)[i].1))
    ensures Outcome(p, attempts, moves).Keys == set o | o in Objects(p, a) :: o.0
  {
    var store, objects := Outcome(p, attempts, moves), Objects(p, a);
    forall key | key in store
      ensures key in set o | o in objects :: o.0
    {
      var b, i := EveryObjectHasItsAttempt(p, source, attempts, moves, key);
      SameKeys(p, b, a, i);
      assert objects[i] in objects;
    }
    forall key | key in set o | o in objects :: o.0
      ensures key in store
    {
      var i: nat :| i < 7 && objects[i].0 == key;
      assert Present(p, store, RefTo(p, objects[i].0, objects[i].1));
    }
  }

  lemma IdentityAfter(p: Protocol, a: Attempt)
    requires a.parsed.Some?
    ensures forall key | key in {TASK_INPUT, WatMarker(a.id.sourceKey), TASK_SUMMARY} ::
              key in After(p, a, 7) && Names(After(p, a, 7)[key].body, a.id)
  {
    var objects := Objects(p, a);
    ObjectsAre(p, a);
    assert objects[..7] == objects;
    ToStoreAt(p, objects, 0);
    ToStoreAt(p, objects, 4);
    ToStoreAt(p, objects, 5);
    FixedHasIdentity(a, map[], [], []);
    assert map[] + Fixed(a) == Fixed(a);
    FixedHasIdentity(a, a.parsed.value.report, Artifacts(p, a), []);
    FixedHasIdentity(a, a.parsed.value.summary, Artifacts(p, a), [RefTo(p, TASK_INPUT, InputBody(a))]);
  }

  // ---------------------------------------------------------------- one runner alone

  /** How many of the objects are in a store that holds each only behind those before it. */
  function InPlace(objects: seq<(Key, Body)>, store: Store): (n: nat)
    ensures n <= |objects| && (n > 0 ==> objects[n - 1].0 in store)
    ensures forall i: nat | n <= i < |objects| :: objects[i].0 !in store
  {
    if objects == [] then 0
    else
      var n := |objects| - 1;
      if objects[n].0 in store then n + 1 else InPlace(objects[..n], store)
  }

  lemma OnlyTheseObjects(p: Protocol, objects: seq<(Key, Body)>, store: Store, n: nat)
    requires n <= |objects| && Closed(p, store) && DistinctKeys(objects)
    requires forall i: nat | i < |objects| :: objects[i].0 in store <==> i < n
    requires forall key | key in store :: exists i: nat :: i < |objects| && objects[i] == (key, store[key].body)
    ensures store == ToStore(p, objects[..n])
  {
    ToStoreKeys(p, objects[..n]);
    forall key | key in store
      ensures key in ToStore(p, objects[..n]) && store[key] == ToStore(p, objects[..n])[key]
    {
      var i: nat :| i < |objects| && objects[i] == (key, store[key].body);
      assert objects[..n][i] == objects[i];
      ToStoreAt(p, objects[..n], i);
      assert store[key].sha == p.sha(store[key].body);
    }
    forall key | key in ToStore(p, objects[..n])
      ensures key in store
    {
      var o :| o in objects[..n] && o.0 == key;
      var i: nat :| i < n && objects[..n][i] == o;
      assert objects[i].0 in store;
    }
  }

  /**
   * The program and the method do the same to a prefix: alone on an empty one, wherever it is
   * stopped, the program leaves what the contract of `RunTask` says of a run.
   */
  lemma OneRunnerIsSequential(p: Protocol, a: Attempt, moves: seq<Move>)
    requires ForTask(p, a.id.sourceKey)
    ensures Sequential(p, a, map[], Outcome(p, [a], moves), false)
  {
    var n := OneRunnerStops(p, a, moves);
    assert Outcome(p, [a], moves) == After(p, a, n);
  }

  lemma OneRunnerStops(p: Protocol, a: Attempt, moves: seq<Move>) returns (n: nat)
    requires ForTask(p, a.id.sourceKey)
    ensures n <= |Objects(p, a)| && Outcome(p, [a], moves) == After(p, a, n)
  {
    var store, objects := Outcome(p, [a], moves), Objects(p, a);
    RunnersAreARun(p, a.id.sourceKey, [a], moves);
    ObjectKeysDistinct(p, a);
    n := InPlace(objects, store);
    NoGaps(p, a, moves, n);
    AllItsOwn(p, a, moves);
    OnlyTheseObjects(p, objects, store, n);
  }

  lemma NoGaps(p: Protocol, a: Attempt, moves: seq<Move>, n: nat)
    requires ForTask(p, a.id.sourceKey) && n == InPlace(Objects(p, a), Outcome(p, [a], moves))
    ensures forall i: nat | i < |Objects(p, a)| :: Objects(p, a)[i].0 in Outcome(p, [a], moves) <==> i < n
  {
    forall i: nat | i < n
      ensures Objects(p, a)[i].0 in Outcome(p, [a], moves)
    {
      BehindIt(p, a, moves, n - 1, i);
    }
  }

  lemma AllItsOwn(p: Protocol, a: Attempt, moves: seq<Move>)
    requires ForTask(p, a.id.sourceKey)
    ensures var store := Outcome(p, [a], moves);
            forall key | key in store :: exists i: nat :: i < |Objects(p, a)| && Objects(p, a)[i] == (key, store[key].body)
  {
    forall key | key in Outcome(p, [a], moves)
      ensures exists i: nat :: i < |Objects(p, a)| && Objects(p, a)[i] == (key, Outcome(p, [a], moves)[key].body)
    {
      var b, i := EveryObjectHasItsAttempt(p, a.id.sourceKey, [a], moves, key);
    }
  }

  lemma BehindIt(p: Protocol, a: Attempt, moves: seq<Move>, i: nat, j: nat)
    requires ForTask(p, a.id.sourceKey) && i < |Objects(p, a)|
    requires Objects(p, a)[i].0 in Outcome(p, [a], moves)
    ensures j <= i ==> Objects(p, a)[j].0 in Outcome(p, [a], moves)
  {
    var b, k := EveryObjectHasItsAttempt(p, a.id.sourceKey, [a], moves, Objects(p, a)[i].0);
    ObjectKeysDistinct(p, a);
    assert k == i;
    if j < i {
      assert Present(p, Outcome(p, [a], moves), RefTo(p, Objects(p, a)[j].0, Objects(p, a)[j].1));
    }
  }
}
