/**
Write-once publication over a put-if-absent object store, as a state machine.

Every client of the store uploads an object only after it has itself verified the
objects that the new one records or presupposes. `Closed` is what that discipline buys
in every reachable state, for any number of concurrent and crashing writers; markers
written last are the special case the callers rely on.
*/
module Publication {
  import opened Wrappers

  datatype Dataset = Pages | Links | Metrics

  datatype Key =
    | Control(name: string)
    | Artifact(dataset: Dataset, source: string)
    | WatMarker(source: string)
    | Output(path: string)

  datatype Scalar = Text(text: string) | Number(value: int) | Texts(items: seq<string>)

  /** What an upload returns and a document records: key, length and SHA-256. */
  datatype Ref = Ref(key: Key, bytes: nat, sha: string)

  datatype Entry = Entry(dataset: Dataset, ref: Ref)

  /** A Parquet file, or a JSON document: its fields, its artifact list, its recorded upload results. */
  datatype Body =
    | Blob(content: seq<int>)
    | Document(fields: map<string, Scalar>, artifacts: seq<Entry>, results: seq<Ref>)

  datatype Object = Object(body: Body, sha: string)

  type Store = map<Key, Object>

  /**
   * The opaque SHA-256 and length of a body, the keys that must exist before a key is
   * written, and the bodies a key may be given.
   */
  datatype Protocol = Protocol(
    sha: Body -> string, size: Body -> nat, needs: Key -> set<Key>, allowed: (Key, Body) -> bool)

  /** The field is there with this value. */
  predicate Says(body: Body, name: string, value: Scalar) {
    body.Document? && name in body.fields && body.fields[name] == value
  }

  /** All this metadata is in the document, but for the names that the document uses itself. */
  predicate SaysMetadata(body: Body, metadata: map<string, Scalar>, own: set<string>) {
    forall name | name in metadata && name !in own :: Says(body, name, metadata[name])
  }

  ghost predicate CollisionFree(p: Protocol) {
    forall x, y :: p.sha(x) == p.sha(y) ==> x == y
  }

  function RefTo(p: Protocol, key: Key, body: Body): Ref {
    Ref(key, p.size(body), p.sha(body))
  }

  function Refs(body: Body): set<Ref> {
    match body
    case Blob(_) => {}
    case Document(_, artifacts, results) => (set e | e in artifacts :: e.ref) + (set r | r in results)
  }

  predicate Present(p: Protocol, store: Store, r: Ref) {
    r.key in store && p.size(store[r.key].body) == r.bytes && store[r.key].sha == r.sha
  }

  /** Everything the body records and the key presupposes is in the store. */
  ghost predicate Supported(p: Protocol, store: Store, key: Key, body: Body) {
    && p.allowed(key, body)
    && (forall r | r in Refs(body) :: Present(p, store, r))
    && p.needs(key) <= store.Keys
  }

  ghost predicate Closed(p: Protocol, store: Store) {
    forall key | key in store ::
      store[key].sha == p.sha(store[key].body) && Supported(p, store, key, store[key].body)
  }

  ghost predicate Grows(a: Store, b: Store) {
    a.Keys <= b.Keys && forall key | key in a :: b[key] == a[key]
  }

  /** Without a hash collision an object that is there as recorded is the very body. */
  lemma StoredIs(p: Protocol, store: Store, key: Key, body: Body)
    requires CollisionFree(p) && Closed(p, store) && Present(p, store, RefTo(p, key, body))
    ensures store[key].body == body
  {
    assert store[key].sha == p.sha(store[key].body);
  }

  function WithObject(p: Protocol, store: Store, key: Key, body: Body): Store {
    store[key := Object(body, p.sha(body))]
  }

  lemma PutKeepsClosed(p: Protocol, store: Store, key: Key, body: Body)
    requires Closed(p, store) && Supported(p, store, key, body) && key !in store
    ensures Closed(p, WithObject(p, store, key, body))
    ensures Grows(store, WithObject(p, store, key, body))
  {
    var t := WithObject(p, store, key, body);
    forall k | k in t
      ensures t[k].sha == p.sha(t[k].body) && Supported(p, t, k, t[k].body)
    {
      var from := if k == key then body else store[k].body;
      assert Supported(p, store, k, from);
      forall r | r in Refs(from)
        ensures Present(p, t, r)
      {
        assert Present(p, store, r);
      }
    }
  }

  // ---------------------------------------------------------------- concurrent writers

  datatype Writer = Writer(known: set<Ref>, intent: Option<(Key, Body)>, absent: bool)

  datatype System = System(store: Store, writers: seq<Writer>)

  /**
   * `Learn` stands for reads or HEADs of existing objects; `Head` and `Put` are the two store
   * requests of one immutable upload, the HEAD being made before and again after the put.
   */
  datatype Step =
    | Learn(w: nat, keys: set<Key>)
    | Choose(w: nat, key: Key, body: Body)
    | Head(w: nat)
    | Put(w: nat)
    | Crash(w: nat)

  predicate Justified(p: Protocol, writer: Writer, key: Key, body: Body) {
    && p.allowed(key, body)
    && Refs(body) <= writer.known
    && p.needs(key) <= (set r | r in writer.known :: r.key)
  }

  function WithWriter(s: System, w: nat, writer: Writer): System
    requires w < |s.writers|
  {
    s.(writers := s.writers[w := writer])
  }

  function Next(p: Protocol, s: System, a: Step): System {
    if a.w >= |s.writers| then s
    else
      var me := s.writers[a.w];
      match a
      case Learn(w, keys) =>
        var found := set key | key in keys && key in s.store :: Ref(key, p.size(s.store[key].body), s.store[key].sha);
        WithWriter(s, w, me.(known := me.known + found))
      case Choose(w, key, body) =>
        if Justified(p, me, key, body) then WithWriter(s, w, Writer(me.known, Some((key, body)), false)) else s
      case Head(w) =>
        if me.intent.None? then s
        else
          var r := RefTo(p, me.intent.value.0, me.intent.value.1);
          if r.key !in s.store then WithWriter(s, w, me.(absent := true))
          else if Present(p, s.store, r) then WithWriter(s, w, Writer(me.known + {r}, None, false))
          else WithWriter(s, w, Writer(me.known, None, false))
      case Put(w) =>
        if me.intent.None? || !me.absent || me.intent.value.0 in s.store then s
        else s.(store := WithObject(p, s.store, me.intent.value.0, me.intent.value.1))
      case Crash(w) => WithWriter(s, w, Writer({}, None, false))
  }

  function Run(p: Protocol, s: System, steps: seq<Step>): System
    decreases |steps|
  {
    if steps == [] then s else Run(p, Next(p, s, steps[0]), steps[1..])
  }

  ghost predicate WriterOk(p: Protocol, store: Store, writer: Writer) {
    && (forall r | r in writer.known :: Present(p, store, r))
    && (writer.intent.Some? ==> Justified(p, writer, writer.intent.value.0, writer.intent.value.1))
  }

  ghost predicate Inv(p: Protocol, s: System) {
    Closed(p, s.store) && forall w: nat | w < |s.writers| :: WriterOk(p, s.store, s.writers[w])
  }

  lemma JustifiedIsSupported(p: Protocol, store: Store, writer: Writer, key: Key, body: Body)
    requires WriterOk(p, store, writer) && Justified(p, writer, key, body)
    ensures Supported(p, store, key, body)
  {
    forall k | k in p.needs(key)
      ensures k in store
    {
      var r :| r in writer.known && r.key == k;
      assert Present(p, store, r);
    }
  }

  lemma StepInv(p: Protocol, s: System, a: Step)
    requires Inv(p, s)
    ensures Inv(p, Next(p, s, a))
    ensures Grows(s.store, Next(p, s, a).store) && |Next(p, s, a).writers| == |s.writers|
  {
    var t := Next(p, s, a);
    if a.w < |s.writers| {
      var me := s.writers[a.w];
      assert WriterOk(p, s.store, me);
      if t.store != s.store {
        JustifiedIsSupported(p, s.store, me, me.intent.value.0, me.intent.value.1);
        PutKeepsClosed(p, s.store, me.intent.value.0, me.intent.value.1);
      }
      forall w: nat | w < |t.writers|
        ensures WriterOk(p, t.store, t.writers[w])
      {
        assert WriterOk(p, s.store, s.writers[w]);
      }
    }
  }

  /** Closed survives every run, and nothing once written ever changes or disappears. */
  lemma {:induction false} RunInv(p: Protocol, s: System, steps: seq<Step>)
    requires Inv(p, s)
    ensures Inv(p, Run(p, s, steps))
    ensures Grows(s.store, Run(p, s, steps).store) && |Run(p, s, steps).writers| == |s.writers|
    decreases |steps|
  {
    if steps != [] {
      StepInv(p, s, steps[0]);
      RunInv(p, Next(p, s, steps[0]), steps[1..]);
    }
  }

  /** An empty store, and writers that have seen nothing yet. */
  function Start(writers: nat): System {
    System(map[], seq(writers, _ => Writer({}, None, false)))
  }

  // ---------------------------------------------------------------- what a client's upload is to the machine

  lemma {:induction false} RunConcat(p: Protocol, s: System, a: seq<Step>, b: seq<Step>)
    ensures Run(p, s, a + b) == Run(p, Run(p, s, a), b)
    decreases |a|
  {
    if a == [] {
      assert a + b == b;
    } else {
      assert (a + b)[0] == a[0] && (a + b)[1..] == a[1..] + b;
      RunConcat(p, Next(p, s, a[0]), a[1..], b);
    }
  }

  /** Looking at what a body records and its key presupposes, then the HEAD and the put. */
  function PutSteps(p: Protocol, w: nat, key: Key, body: Body): seq<Step> {
    [Learn(w, p.needs(key) + set r | r in Refs(body) :: r.key), Choose(w, key, body), Head(w), Put(w)]
  }

  /** A put of a supported body under a free key is a run of the machine, whichever writer makes it. */
  lemma PutIsARun(p: Protocol, s: System, w: nat, key: Key, body: Body)
    requires w < |s.writers| && Supported(p, s.store, key, body) && key !in s.store
    ensures Run(p, s, PutSteps(p, w, key, body)).store == WithObject(p, s.store, key, body)
  {
    var steps := PutSteps(p, w, key, body);
    var learned := Next(p, s, steps[0]);
    var known := learned.writers[w].known;
    forall r | r in Refs(body)
      ensures r in known
    {
      assert Present(p, s.store, r);
    }
    forall k | k in p.needs(key)
      ensures k in set r | r in known :: r.key
    {
      assert Ref(k, p.size(s.store[k].body), s.store[k].sha) in known;
    }
    var chosen := Next(p, learned, steps[1]);
    var probed := Next(p, chosen, steps[2]);
    assert steps[1..][1..] == [Head(w), Put(w)] && steps[1..][1..][1..] == [Put(w)];
    assert Run(p, s, steps) == Run(p, learned, steps[1..]) == Run(p, chosen, [Head(w), Put(w)]);
    assert Run(p, chosen, [Head(w), Put(w)]) == Run(p, probed, [Put(w)]) == Next(p, probed, Put(w));
  }

  /** The machine gets from one state to the other. */
  ghost predicate Reaches(p: Protocol, s: System, t: System) {
    exists steps :: t == Run(p, s, steps)
  }

  lemma ReachesMore(p: Protocol, s: System, t: System, steps: seq<Step>)
    requires Reaches(p, s, t)
    ensures Reaches(p, s, Run(p, t, steps))
  {
    var before :| t == Run(p, s, before);
    RunConcat(p, s, before, steps);
  }

  /**
   * From an empty store, any number of writers, any interleaving, any crashes: whatever
   * exists has everything it needs and everything it records, byte for byte.
   */
  lemma PublishedIsComplete(p: Protocol, writers: nat, steps: seq<Step>, key: Key)
    requires key in Run(p, Start(writers), steps).store
    ensures var store := Run(p, Start(writers), steps).store;
            && p.allowed(key, store[key].body)
            && p.needs(key) <= store.Keys
            && forall r | r in Refs(store[key].body) ::
                 && r.key in store
                 && p.size(store[r.key].body) == r.bytes
                 && p.sha(store[r.key].body) == r.sha
  {
    var s := Start(writers);
    assert Inv(p, s);
    RunInv(p, s, steps);
    var store := Run(p, s, steps).store;
    assert Supported(p, store, key, store[key].body);
  }
}
