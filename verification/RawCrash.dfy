/**
`run_shard` on its own, as an execution of its program, for every attempt that parses its shard.
Undisturbed it finishes the shard; killed right after its summary is stored it leaves, if the
shard is not empty, one that no later attempt completes.
*/
module RawCrash {
  import opened Wrappers
  import opened Collections
  import opened Publication
  import opened Programs
  import opened RawShard
  import opened RawPrograms

  /** Alone on the empty prefix, the program can come to this store with this log, which puts it in this state. */
  ghost predicate Stands(p: Protocol, c: Contract, a: Attempt, log: Log, store: Store, st: State) {
    StateAfter(p, c, a, log) == st && Gets(p, ShardProgram(p, c, a), Solo(map[], []), Solo(store, log))
  }

  lemma StandsOn(p: Protocol, c: Contract, a: Attempt, log: Log, store: Store, st: State, later: Store, event: Event)
    requires Stands(p, c, a, log, store, st)
    requires Gets(p, ShardProgram(p, c, a), Solo(store, log), Solo(later, log + [event]))
    ensures Stands(p, c, a, log + [event], later, Advance(p, c, a, st, event))
  {
    GetsOn(p, ShardProgram(p, c, a), Solo(map[], []), Solo(store, log), Solo(later, log + [event]));
    assert (log + [event])[..|log|] == log;
  }

  lemma Reads(p: Protocol, c: Contract, a: Attempt, log: Log, store: Store, st: State, key: Key) returns (more: Log)
    requires Stands(p, c, a, log, store, st) && ActionIn(p, c, a, st) == Read(key)
    ensures Stands(p, c, a, more, store, Advance(p, c, a, st, Saw(key, if key in store then Some(store[key]) else None)))
  {
    var event := Saw(key, if key in store then Some(store[key]) else None);
    GetsAnswer(p, ShardProgram(p, c, a), store, log);
    StandsOn(p, c, a, log, store, st, store, event);
    more := log + [event];
  }

  lemma Puts(p: Protocol, c: Contract, a: Attempt, log: Log, store: Store, st: State, key: Key, body: Body) returns (more: Log)
    requires Stands(p, c, a, log, store, st) && ActionIn(p, c, a, st) == Upload(key, body)
    requires key !in store && !TooLarge(p, body)
    ensures Stands(p, c, a, more, WithObject(p, store, key, body), Advance(p, c, a, st, Uploaded(key, body, false)))
  {
    var event := Uploaded(key, body, false);
    GetsUpload(p, ShardProgram(p, c, a), store, log);
    StandsOn(p, c, a, log, store, st, WithObject(p, store, key, body), event);
    more := log + [event];
  }

  // ---------------------------------------------------------------- nothing to recover

  function Manifested(p: Protocol, c: Contract, a: Attempt): Store {
    WithObject(p, map[], INPUT_MANIFEST, ManifestBody(c, a))
  }

  lemma Opened(p: Protocol, c: Contract, a: Attempt) returns (more: Log)
    ensures Stands(p, c, a, more, Manifested(p, c, a), RecoverOn(c, a, map[], [], 0))
  {
    GetsThere(p, ShardProgram(p, c, a), Solo(map[], []));
    more := Puts(p, c, a, [], map[], Opening, INPUT_MANIFEST, ManifestBody(c, a));
  }

  lemma NotThere(p: Protocol, c: Contract, a: Attempt, log: Log, store: Store, pending: seq<string>, i: nat) returns (more: Log)
    requires i < |c.inputs| && Artifact(Metrics, c.inputs[i]) !in store
    requires Stands(p, c, a, log, store, RecoverOn(c, a, map[], pending, i))
    ensures Stands(p, c, a, more, store, RecoverOn(c, a, map[], pending + [c.inputs[i]], i + 1))
  {
    more := Reads(p, c, a, log, store, Recovering(map[], pending, i), Artifact(Metrics, c.inputs[i]));
  }

  lemma {:induction false} NothingRecovered(p: Protocol, c: Contract, a: Attempt, i: nat) returns (more: Log)
    requires i <= |c.inputs|
    ensures Stands(p, c, a, more, Manifested(p, c, a), RecoverOn(c, a, map[], c.inputs[..i], i))
  {
    if i == 0 {
      more := Opened(p, c, a);
      assert c.inputs[..0] == [];
    } else {
      more := NothingRecovered(p, c, a, i - 1);
      more := NotThere(p, c, a, more, Manifested(p, c, a), c.inputs[..i - 1], i - 1);
      TakeOne(c.inputs, i - 1);
    }
  }

  // ---------------------------------------------------------------- every source in turn

  function WithFiles(p: Protocol, store: Store, source: string, parsed: Parsed): Store {
    WithObject(p, WithObject(p, store, Artifact(Pages, source), Blob(parsed.pages)), Artifact(Links, source), Blob(parsed.links))
  }

  function WithTriplet(p: Protocol, store: Store, source: string, parsed: Parsed): Store {
    WithObject(p, WithFiles(p, store, source, parsed), Artifact(Metrics, source), MetricsBody(p, source, parsed))
  }

  predicate Fits(p: Protocol, parsed: Parsed) {
    !TooLarge(p, Blob(parsed.pages)) && !TooLarge(p, Blob(parsed.links))
  }

  lemma PartGoesUp(p: Protocol, c: Contract, a: Attempt, reports: map<string, Body>, next: nat, part: nat, n: nat, key: Key, body: Body)
    requires next < |c.inputs| && c.inputs[next] in a.parsed && Fits(p, a.parsed[c.inputs[next]]) && part < 3
    requires PartOf(p, c.inputs[next], a.parsed[c.inputs[next]], part) == (key, body)
    ensures var st := Working(0, reports, c.inputs, next, part, Uploads(n, 0));
            && ActionIn(p, c, a, st) == Upload(key, body) && !TooLarge(p, body)
            && Advance(p, c, a, st, Uploaded(key, body, false)) == Working(0, reports, c.inputs, next, part + 1, Uploads(n + 1, 0))
  {
  }

  lemma UploadOne(p: Protocol, c: Contract, a: Attempt, log: Log, store: Store, reports: map<string, Body>, next: nat, part: nat, n: nat,
                  key: Key, body: Body)
    returns (more: Log)
    requires next < |c.inputs| && c.inputs[next] in a.parsed && Fits(p, a.parsed[c.inputs[next]]) && part < 3
    requires PartOf(p, c.inputs[next], a.parsed[c.inputs[next]], part) == (key, body) && key !in store
    requires Stands(p, c, a, log, store, Working(0, reports, c.inputs, next, part, Uploads(n, 0)))
    ensures Stands(p, c, a, more, WithObject(p, store, key, body), Working(0, reports, c.inputs, next, part + 1, Uploads(n + 1, 0)))
  {
    PartGoesUp(p, c, a, reports, next, part, n, key, body);
    more := Puts(p, c, a, log, store, Working(0, reports, c.inputs, next, part, Uploads(n, 0)), key, body);
  }

  lemma TripletFree(store: Store, source: string)
    requires TripletOf(source) !! store.Keys
    ensures Artifact(Pages, source) !in store && Artifact(Links, source) !in store && Artifact(Metrics, source) !in store
  {
    assert forall key | key in TripletOf(source) :: key !in store;
  }

  lemma UploadTwo(p: Protocol, c: Contract, a: Attempt, log: Log, store: Store, reports: map<string, Body>, next: nat, n: nat,
                  source: string, parsed: Parsed)
    returns (more: Log)
    requires next < |c.inputs| && c.inputs[next] == source && source in a.parsed && a.parsed[source] == parsed && Fits(p, parsed)
    requires Artifact(Pages, source) !in store && Artifact(Links, source) !in store
    requires Stands(p, c, a, log, store, Working(0, reports, c.inputs, next, 0, Uploads(n, 0)))
    ensures Stands(p, c, a, more, WithFiles(p, store, source, parsed), Working(0, reports, c.inputs, next, 2, Uploads(n + 2, 0)))
  {
    var one := WithObject(p, store, Artifact(Pages, source), Blob(parsed.pages));
    more := UploadOne(p, c, a, log, store, reports, next, 0, n, Artifact(Pages, source), Blob(parsed.pages));
    more := UploadOne(p, c, a, more, one, reports, next, 1, n + 1, Artifact(Links, source), Blob(parsed.links));
  }

  lemma UploadThree(p: Protocol, c: Contract, a: Attempt, log: Log, store: Store, reports: map<string, Body>, next: nat, n: nat,
                    source: string, parsed: Parsed)
    returns (more: Log)
    requires next < |c.inputs| && c.inputs[next] == source && source in a.parsed && a.parsed[source] == parsed && Fits(p, parsed)
    requires Artifact(Pages, source) !in store && Artifact(Links, source) !in store && Artifact(Metrics, source) !in store
    requires Stands(p, c, a, log, store, Working(0, reports, c.inputs, next, 0, Uploads(n, 0)))
    ensures Stands(p, c, a, more, WithTriplet(p, store, source, parsed), Working(0, reports, c.inputs, next, 3, Uploads(n + 3, 0)))
  {
    var two := WithFiles(p, store, source, parsed);
    assert Artifact(Metrics, source) !in two;
    more := UploadTwo(p, c, a, log, store, reports, next, n, source, parsed);
    more := UploadOne(p, c, a, more, two, reports, next, 2, n + 2, Artifact(Metrics, source), MetricsBody(p, source, parsed));
  }

  lemma MetricsComeBack(p: Protocol, c: Contract, a: Attempt, log: Log, store: Store, reports: map<string, Body>, next: nat, uploads: Uploads)
    returns (more: Log)
    requires next < |c.inputs| && c.inputs[next] in a.parsed
    requires Present(p, store, RefTo(p, Artifact(Metrics, c.inputs[next]), MetricsBody(p, c.inputs[next], a.parsed[c.inputs[next]])))
    requires Stands(p, c, a, log, store, Working(0, reports, c.inputs, next, 3, uploads))
    ensures Stands(p, c, a, more, store, Working(0, reports, c.inputs, next, 4, uploads))
  {
    more := Reads(p, c, a, log, store, Working(0, reports, c.inputs, next, 3, uploads), Artifact(Metrics, c.inputs[next]));
  }

  lemma PagesComeBack(p: Protocol, c: Contract, a: Attempt, log: Log, store: Store, reports: map<string, Body>, next: nat, uploads: Uploads)
    returns (more: Log)
    requires next < |c.inputs| && c.inputs[next] in a.parsed
    requires Present(p, store, RefTo(p, Artifact(Pages, c.inputs[next]), Blob(a.parsed[c.inputs[next]].pages)))
    requires Stands(p, c, a, log, store, Working(0, reports, c.inputs, next, 4, uploads))
    ensures Stands(p, c, a, more, store, Working(0, reports, c.inputs, next, 5, uploads))
  {
    more := Reads(p, c, a, log, store, Working(0, reports, c.inputs, next, 4, uploads), Artifact(Pages, c.inputs[next]));
  }

  /** The last look at a source's triplet, when another source comes after it. */
  lemma LinksComeBack(p: Protocol, c: Contract, a: Attempt, log: Log, store: Store, reports: map<string, Body>, next: nat, uploads: Uploads)
    returns (more: Log)
    requires next + 1 < |c.inputs| && c.inputs[next] in a.parsed
    requires Present(p, store, RefTo(p, Artifact(Links, c.inputs[next]), Blob(a.parsed[c.inputs[next]].links)))
    requires Stands(p, c, a, log, store, Working(0, reports, c.inputs, next, 5, uploads))
    ensures var source := c.inputs[next];
            Stands(p, c, a, more, store,
                   Working(0, reports[source := MetricsBody(p, source, a.parsed[source])], c.inputs, next + 1, 0, uploads))
  {
    more := Reads(p, c, a, log, store, Working(0, reports, c.inputs, next, 5, uploads), Artifact(Links, c.inputs[next]));
  }

  /** And when it was the last one. */
  lemma LastLinksComeBack(p: Protocol, c: Contract, a: Attempt, log: Log, store: Store, reports: map<string, Body>, all: map<string, Body>,
                          next: nat, uploads: Uploads, summary: Body)
    returns (more: Log)
    requires next + 1 == |c.inputs| && c.inputs[next] in a.parsed
    requires Present(p, store, RefTo(p, Artifact(Links, c.inputs[next]), Blob(a.parsed[c.inputs[next]].links)))
    requires all == reports[c.inputs[next] := MetricsBody(p, c.inputs[next], a.parsed[c.inputs[next]])] && ToSet(c.inputs) <= all.Keys
    requires summary == SummaryBody(c, a, 0, |c.inputs|, uploads, Ordered(c.inputs, all))
    requires Stands(p, c, a, log, store, Working(0, reports, c.inputs, next, 5, uploads))
    ensures Stands(p, c, a, more, store, Closing(summary))
  {
    more := Reads(p, c, a, log, store, Working(0, reports, c.inputs, next, 5, uploads), Artifact(Links, c.inputs[next]));
  }

  /** The attempt parses every input, and every file fits a single put. */
  predicate ParsesAll(p: Protocol, c: Contract, a: Attempt) {
    forall s | s in c.inputs :: s in a.parsed && Fits(p, a.parsed[s])
  }

  /** The store once the first `n` sources are processed. */
  function Filled(p: Protocol, c: Contract, a: Attempt, n: nat): Store
    requires ParsesAll(p, c, a) && n <= |c.inputs|
  {
    if n == 0 then Manifested(p, c, a)
    else WithTriplet(p, Filled(p, c, a, n - 1), c.inputs[n - 1], a.parsed[c.inputs[n - 1]])
  }

  /** And the reports. */
  function Reported(p: Protocol, c: Contract, a: Attempt, n: nat): map<string, Body>
    requires ParsesAll(p, c, a) && n <= |c.inputs|
  {
    if n == 0 then map[]
    else Reported(p, c, a, n - 1)[c.inputs[n - 1] := MetricsBody(p, c.inputs[n - 1], a.parsed[c.inputs[n - 1]])]
  }

  lemma {:induction false} FilledKeys(p: Protocol, c: Contract, a: Attempt, n: nat)
    requires ParsesAll(p, c, a) && n <= |c.inputs|
    ensures Filled(p, c, a, n).Keys == {INPUT_MANIFEST} + Triplets(c.inputs[..n])
  {
    if n > 0 {
      FilledKeys(p, c, a, n - 1);
      TakeOne(c.inputs, n - 1);
      TripletsStep(c.inputs[..n - 1], c.inputs[n - 1]);
    }
  }

  lemma {:induction false} ReportedKeys(p: Protocol, c: Contract, a: Attempt, n: nat)
    requires ParsesAll(p, c, a) && n <= |c.inputs|
    ensures Reported(p, c, a, n).Keys == ToSet(c.inputs[..n])
  {
    if n > 0 {
      ReportedKeys(p, c, a, n - 1);
      TakeOne(c.inputs, n - 1);
    }
  }

  lemma AllReported(p: Protocol, c: Contract, a: Attempt)
    requires ParsesAll(p, c, a)
    ensures Reported(p, c, a, |c.inputs|).Keys == ToSet(c.inputs)
  {
    ReportedKeys(p, c, a, |c.inputs|);
    TakeAll(c.inputs);
  }

  lemma TripletThere(p: Protocol, store: Store, source: string, parsed: Parsed)
    ensures var later := WithTriplet(p, store, source, parsed);
            && Present(p, later, RefTo(p, Artifact(Pages, source), Blob(parsed.pages)))
            && Present(p, later, RefTo(p, Artifact(Links, source), Blob(parsed.links)))
            && Present(p, later, RefTo(p, Artifact(Metrics, source), MetricsBody(p, source, parsed)))
  {
  }

  lemma StillFree(p: Protocol, c: Contract, a: Attempt, next: nat)
    requires Distinct(c.inputs) && ParsesAll(p, c, a) && next < |c.inputs|
    ensures TripletOf(c.inputs[next]) !! Filled(p, c, a, next).Keys
  {
    FilledKeys(p, c, a, next);
    DistinctAt(c.inputs, next);
    forall key | key in TripletOf(c.inputs[next])
      ensures key !in Triplets(c.inputs[..next])
    {
      TripletsHave(c.inputs[..next], key);
    }
  }

  /** From a source's first upload to the last look at what it uploaded. */
  lemma WorksAt(p: Protocol, c: Contract, a: Attempt, log: Log, store: Store, reports: map<string, Body>, next: nat,
                source: string, parsed: Parsed)
    returns (more: Log)
    requires next < |c.inputs| && c.inputs[next] == source && source in a.parsed && a.parsed[source] == parsed && Fits(p, parsed)
    requires TripletOf(source) !! store.Keys
    requires Stands(p, c, a, log, store, Working(0, reports, c.inputs, next, 0, Uploads(3 * next, 0)))
    ensures Stands(p, c, a, more, WithTriplet(p, store, source, parsed),
                   Working(0, reports, c.inputs, next, 5, Uploads(3 * next + 3, 0)))
  {
    TripletFree(store, source);
    more := UploadThree(p, c, a, log, store, reports, next, 3 * next, source, parsed);
    var later := WithTriplet(p, store, source, parsed);
    TripletThere(p, store, source, parsed);
    more := MetricsComeBack(p, c, a, more, later, reports, next, Uploads(3 * next + 3, 0));
    more := PagesComeBack(p, c, a, more, later, reports, next, Uploads(3 * next + 3, 0));
  }

  lemma StartsWork(p: Protocol, c: Contract, a: Attempt) returns (more: Log)
    requires c.inputs != [] && ParsesAll(p, c, a)
    ensures Stands(p, c, a, more, Filled(p, c, a, 0), Working(0, Reported(p, c, a, 0), c.inputs, 0, 0, Uploads(0, 0)))
  {
    more := NothingRecovered(p, c, a, |c.inputs|);
    TakeAll(c.inputs);
  }

  /** To the last look at source `n`. */
  lemma WorksOn(p: Protocol, c: Contract, a: Attempt, log: Log, n: nat) returns (more: Log)
    requires Distinct(c.inputs) && ParsesAll(p, c, a) && n < |c.inputs|
    requires Stands(p, c, a, log, Filled(p, c, a, n), Working(0, Reported(p, c, a, n), c.inputs, n, 0, Uploads(3 * n, 0)))
    ensures Stands(p, c, a, more, Filled(p, c, a, n + 1), Working(0, Reported(p, c, a, n), c.inputs, n, 5, Uploads(3 * n + 3, 0)))
  {
    StillFree(p, c, a, n);
    more := WorksAt(p, c, a, log, Filled(p, c, a, n), Reported(p, c, a, n), n, c.inputs[n], a.parsed[c.inputs[n]]);
  }

  lemma LinksThere(p: Protocol, c: Contract, a: Attempt, n: nat)
    requires ParsesAll(p, c, a) && n < |c.inputs|
    ensures Present(p, Filled(p, c, a, n + 1), RefTo(p, Artifact(Links, c.inputs[n]), Blob(a.parsed[c.inputs[n]].links)))
  {
    TripletThere(p, Filled(p, c, a, n), c.inputs[n], a.parsed[c.inputs[n]]);
  }

  lemma ToTheNext(p: Protocol, c: Contract, a: Attempt, log: Log, n: nat) returns (more: Log)
    requires Distinct(c.inputs) && ParsesAll(p, c, a) && n + 1 < |c.inputs|
    requires Stands(p, c, a, log, Filled(p, c, a, n), Working(0, Reported(p, c, a, n), c.inputs, n, 0, Uploads(3 * n, 0)))
    ensures Stands(p, c, a, more, Filled(p, c, a, n + 1),
                   Working(0, Reported(p, c, a, n + 1), c.inputs, n + 1, 0, Uploads(3 * (n + 1), 0)))
  {
    more := WorksOn(p, c, a, log, n);
    LinksThere(p, c, a, n);
    more := LinksComeBack(p, c, a, more, Filled(p, c, a, n + 1), Reported(p, c, a, n), n, Uploads(3 * n + 3, 0));
    assert Reported(p, c, a, n + 1) == Reported(p, c, a, n)[c.inputs[n] := MetricsBody(p, c.inputs[n], a.parsed[c.inputs[n]])];
  }

  lemma {:induction false} WorksThrough(p: Protocol, c: Contract, a: Attempt, n: nat) returns (more: Log)
    requires Distinct(c.inputs) && ParsesAll(p, c, a) && n < |c.inputs|
    ensures Stands(p, c, a, more, Filled(p, c, a, n), Working(0, Reported(p, c, a, n), c.inputs, n, 0, Uploads(3 * n, 0)))
  {
    if n == 0 {
      more := StartsWork(p, c, a);
    } else {
      more := WorksThrough(p, c, a, n - 1);
      more := ToTheNext(p, c, a, more, n - 1);
    }
  }

  // ---------------------------------------------------------------- and the crash

  /** The summary that an undisturbed first attempt comes to. */
  function FirstSummary(p: Protocol, c: Contract, a: Attempt): Body
    requires ParsesAll(p, c, a)
  {
    AllReported(p, c, a);
    SummaryBody(c, a, 0, |c.inputs|, Uploads(3 * |c.inputs|, 0), Ordered(c.inputs, Reported(p, c, a, |c.inputs|)))
  }

  lemma NothingToDo(p: Protocol, c: Contract, a: Attempt) returns (more: Log)
    requires c.inputs == []
    ensures Stands(p, c, a, more, Filled(p, c, a, 0), Closing(FirstSummary(p, c, a)))
  {
    more := NothingRecovered(p, c, a, 0);
    assert c.inputs[..0] == c.inputs;
  }

  lemma FinishesWork(p: Protocol, c: Contract, a: Attempt, log: Log, n: nat) returns (more: Log)
    requires Distinct(c.inputs) && ParsesAll(p, c, a) && n + 1 == |c.inputs|
    requires Stands(p, c, a, log, Filled(p, c, a, n), Working(0, Reported(p, c, a, n), c.inputs, n, 0, Uploads(3 * n, 0)))
    ensures Stands(p, c, a, more, Filled(p, c, a, |c.inputs|), Closing(FirstSummary(p, c, a)))
  {
    more := WorksOn(p, c, a, log, n);
    LinksThere(p, c, a, n);
    AllReported(p, c, a);
    more := LastLinksComeBack(p, c, a, more, Filled(p, c, a, |c.inputs|), Reported(p, c, a, n), Reported(p, c, a, |c.inputs|), n,
                              Uploads(3 * |c.inputs|, 0), FirstSummary(p, c, a));
  }

  lemma ReachesSummary(p: Protocol, c: Contract, a: Attempt) returns (more: Log)
    requires Distinct(c.inputs) && ParsesAll(p, c, a)
    ensures Stands(p, c, a, more, Filled(p, c, a, |c.inputs|), Closing(FirstSummary(p, c, a)))
  {
    if c.inputs == [] {
      more := NothingToDo(p, c, a);
    } else {
      more := WorksThrough(p, c, a, |c.inputs| - 1);
      more := FinishesWork(p, c, a, more, |c.inputs| - 1);
    }
  }

  lemma SummaryCounts(p: Protocol, c: Contract, a: Attempt, store: Store)
    requires c.inputs != [] && ParsesAll(p, c, a)
    ensures SummaryOfWork(c, WithObject(p, store, RUN_SUMMARY, FirstSummary(p, c, a)))
  {
    AllReported(p, c, a);
    var later := WithObject(p, store, RUN_SUMMARY, FirstSummary(p, c, a));
    var uploads, reports := Uploads(3 * |c.inputs|, 0), Ordered(c.inputs, Reported(p, c, a, |c.inputs|));
    assert later[RUN_SUMMARY].body == SummaryBody(c, a, 0, |c.inputs|, uploads, reports);
  }

  lemma NothingClosed(p: Protocol, c: Contract, a: Attempt)
    requires ParsesAll(p, c, a)
    ensures RUN_SUMMARY !in Filled(p, c, a, |c.inputs|) && RAW_COMPLETED !in Filled(p, c, a, |c.inputs|)
  {
    FilledKeys(p, c, a, |c.inputs|);
    TakeAll(c.inputs);
    TripletsHave(c.inputs, RUN_SUMMARY);
    TripletsHave(c.inputs, RAW_COMPLETED);
  }

  lemma KilledBehind(p: Protocol, program: Program, store: Store, log: Log, key: Key, body: Body) returns (moves: seq<Move>)
    requires Gets(p, program, Solo(map[], []), Solo(store, log))
    requires program(log) == Upload(key, body) && key !in store && !TooLarge(p, body)
    ensures PlayAll(p, [program], Fresh(1), moves).store == WithObject(p, store, key, body)
  {
    GetsLost(p, program, store, log);
    var crashed := Net(WithObject(p, store, key, body), [Runner(log, true, false)]);
    GetsOn(p, program, Solo(map[], []), Solo(store, log), crashed);
    moves :| PlayAll(p, [program], Solo(map[], []), moves) == crashed;
    FreshIsSolo();
  }

  /** The store of a first attempt that has put its summary, undisturbed. */
  function Summarised(p: Protocol, c: Contract, a: Attempt): Store
    requires ParsesAll(p, c, a)
  {
    WithObject(p, Filled(p, c, a, |c.inputs|), RUN_SUMMARY, FirstSummary(p, c, a))
  }

  /**
   * The gap is reached: from an empty prefix, for every non-empty shard and every attempt that
   * parses it, `run_shard` killed behind the put of its summary leaves a store with a summary
   * that counts processed sources and no marker.
   */
  lemma CrashBehindSummary(p: Protocol, c: Contract, a: Attempt) returns (moves: seq<Move>)
    requires Distinct(c.inputs) && c.inputs != [] && ParsesAll(p, c, a)
    ensures var store := PlayAll(p, [ShardProgram(p, c, a)], Fresh(1), moves).store;
            store == Summarised(p, c, a) && SummaryOfWork(c, store) && RAW_COMPLETED !in store
  {
    var log := ReachesSummary(p, c, a);
    NothingClosed(p, c, a);
    assert ShardProgram(p, c, a)(log) == Upload(RUN_SUMMARY, FirstSummary(p, c, a));
    moves := KilledBehind(p, ShardProgram(p, c, a), Filled(p, c, a, |c.inputs|), log, RUN_SUMMARY, FirstSummary(p, c, a));
    SummaryCounts(p, c, a, Filled(p, c, a, |c.inputs|));
  }

  /** And then it sticks: whatever attempts follow, none changes anything and none completes. */
  lemma CrashedShardIsStuck(p: Protocol, c: Contract, a: Attempt) returns (moves: seq<Move>)
    requires CollisionFree(p) && ForShard(p, c.inputs) && Distinct(c.inputs) && c.inputs != [] && ParsesAll(p, c, a)
    ensures var store := PlayAll(p, [ShardProgram(p, c, a)], Fresh(1), moves).store;
            && RAW_COMPLETED !in store && (forall s | s in c.inputs :: VouchedFor(p, store, s))
            && forall tries: seq<Try>, t: Try | History(p, c, store, tries) && t in tries ::
                 t.after == store && RAW_COMPLETED !in t.after && !t.completed
  {
    moves := CrashBehindSummary(p, c, a);
    var programs := [ShardProgram(p, c, a)];
    var store := PlayAll(p, programs, Fresh(1), moves).store;
    ShardIsDisciplined(p, c, a);
    ProgramsAreRuns(p, programs, moves);
    CrashBeforeMarkerSticks(p, c, store, []);
    forall tries: seq<Try>, t: Try | History(p, c, store, tries) && t in tries
      ensures t.after == store && RAW_COMPLETED !in t.after && !t.completed
    {
      CrashBeforeMarkerSticks(p, c, store, tries);
    }
  }

  // ---------------------------------------------------------------- and the finished shard

  /** The store that an undisturbed first attempt leaves. */
  function FinishedShard(p: Protocol, c: Contract, a: Attempt): Store
    requires ParsesAll(p, c, a)
  {
    WithObject(p, Summarised(p, c, a), RAW_COMPLETED, CompletionBody(c, a, RefTo(p, RUN_SUMMARY, FirstSummary(p, c, a))))
  }

  lemma PutsSummary(p: Protocol, c: Contract, a: Attempt, log: Log, store: Store, summary: Body) returns (more: Log)
    requires Stands(p, c, a, log, store, Closing(summary)) && RUN_SUMMARY !in store && summary.Document?
    ensures Stands(p, c, a, more, WithObject(p, store, RUN_SUMMARY, summary), Marking(summary))
  {
    more := Puts(p, c, a, log, store, Closing(summary), RUN_SUMMARY, summary);
  }

  lemma PutsMarker(p: Protocol, c: Contract, a: Attempt, log: Log, store: Store, summary: Body, marker: Body) returns (more: Log)
    requires Stands(p, c, a, log, store, Marking(summary)) && RAW_COMPLETED !in store
    requires marker == CompletionBody(c, a, RefTo(p, RUN_SUMMARY, summary))
    ensures Stands(p, c, a, more, WithObject(p, store, RAW_COMPLETED, marker), Finished)
  {
    more := Puts(p, c, a, log, store, Marking(summary), RAW_COMPLETED, marker);
  }

  lemma Finishes(p: Protocol, c: Contract, a: Attempt) returns (more: Log)
    requires Distinct(c.inputs) && ParsesAll(p, c, a)
    ensures Stands(p, c, a, more, FinishedShard(p, c, a), Finished)
  {
    var summary := FirstSummary(p, c, a);
    NothingClosed(p, c, a);
    more := ReachesSummary(p, c, a);
    more := PutsSummary(p, c, a, more, Filled(p, c, a, |c.inputs|), summary);
    more := PutsMarker(p, c, a, more, Summarised(p, c, a), summary, CompletionBody(c, a, RefTo(p, RUN_SUMMARY, summary)));
  }

  lemma PlayedOut(p: Protocol, program: Program, store: Store, log: Log) returns (moves: seq<Move>)
    requires Gets(p, program, Solo(map[], []), Solo(store, log))
    ensures PlayAll(p, [program], Fresh(1), moves) == Solo(store, log)
  {
    moves :| PlayAll(p, [program], Solo(map[], []), moves) == Solo(store, log);
    FreshIsSolo();
  }

  /**
   * Undisturbed, every attempt that parses its shard finishes it: the marker means a whole
   * shard. Whatever runs on it later changes nothing, and on a non-empty shard every later
   * attempt reports a failure, since none can build the stored summary again.
   */
  lemma UndisturbedFinishes(p: Protocol, c: Contract, a: Attempt) returns (moves: seq<Move>)
    requires ForShard(p, c.inputs) && Distinct(c.inputs) && ParsesAll(p, c, a)
    ensures var store := PlayAll(p, [ShardProgram(p, c, a)], Fresh(1), moves).store;
            && store == FinishedShard(p, c, a) && RAW_COMPLETED in store && Whole(p, store, c.inputs)
            && forall tries: seq<Try>, t: Try | History(p, c, store, tries) && t in tries ::
                 t.after == store && (CollisionFree(p) && c.inputs != [] ==> !t.completed)
  {
    var log := Finishes(p, c, a);
    moves := PlayedOut(p, ShardProgram(p, c, a), FinishedShard(p, c, a), log);
    var programs := [ShardProgram(p, c, a)];
    var store := PlayAll(p, programs, Fresh(1), moves).store;
    ShardIsDisciplined(p, c, a);
    ProgramsAreRuns(p, programs, moves);
    MarkerMeansWhole(p, c.inputs, store);
    forall tries: seq<Try>, t: Try | History(p, c, store, tries) && t in tries
      ensures t.after == store && (CollisionFree(p) && c.inputs != [] ==> !t.completed)
    {
      if c.inputs != [] {
        FinishedCounts(p, c, a);
      }
      FinishedStays(p, c, store, tries);
    }
  }

  lemma FinishedCounts(p: Protocol, c: Contract, a: Attempt)
    requires c.inputs != [] && ParsesAll(p, c, a)
    ensures SummaryOfWork(c, FinishedShard(p, c, a))
  {
    SummaryCounts(p, c, a, Filled(p, c, a, |c.inputs|));
    var first, recovered, processed, uploads, reports :|
      processed > 0 && Summarised(p, c, a)[RUN_SUMMARY].body == SummaryBody(c, first, recovered, processed, uploads, reports);
    assert FinishedShard(p, c, a)[RUN_SUMMARY] == Summarised(p, c, a)[RUN_SUMMARY];
  }
}
