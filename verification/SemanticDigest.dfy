/**
Semantic digests of a Parquet artifact: a hash over the sorted row hashes, and counts per
target host. Both depend on the multiset of rows only.
*/
module SemanticDigest {
  import opened Wrappers
  import opened Collections

  /** A cell as the Parquet reader returns it. */
  datatype Value =
    | Null
    | Bool(flag: bool)
    | Number(number: int)
    | Text(text: string)
    | Moment(instant: int)
    | Raw(bytes: seq<int>)
    | List(items: seq<Value>)

  type Row = map<string, Value>

  /** `isoformat`, `hex`, SHA-256 of a canonical row, of a list of lines and of sorted host counts, the host bucket label. */
  datatype Env = Env(
    iso: int -> string, hex: seq<int> -> string, rowHash: Row -> string, linesHash: seq<string> -> string,
    hostsHash: map<HostKey, nat> -> string, bucket: string -> string)

  // ---------------------------------------------------------------- normalisation

  /** `_normalise` on a cell. */
  function Normalise(env: Env, value: Value): Value {
    match value
    case Moment(instant) => Text(env.iso(instant))
    case Raw(bytes) => Text(env.hex(bytes))
    case List(items) => List(seq(|items|, i requires 0 <= i < |items| => Normalise(env, items[i])))
    case _ => value
  }

  function NormaliseRow(env: Env, row: Row): Row {
    map name | name in row :: Normalise(env, row[name])
  }

  /** Normalising twice changes nothing more. */
  lemma {:induction false} NormaliseIdempotent(env: Env, value: Value)
    ensures Normalise(env, Normalise(env, value)) == Normalise(env, value)
  {
    match value
    case List(items) =>
      forall i: nat | i < |items|
        ensures Normalise(env, Normalise(env, items[i])) == Normalise(env, items[i])
      {
        NormaliseIdempotent(env, items[i]);
      }
      assert Normalise(env, Normalise(env, value)).items == Normalise(env, value).items;
    case _ =>
  }

  /** No instants and no bytes, at any depth. */
  predicate Plain(value: Value) {
    match value
    case Moment(_) => false
    case Raw(_) => false
    case List(items) => forall i: nat | i < |items| :: Plain(items[i])
    case _ => true
  }

  /** Normalising leaves neither instants nor bytes, and touches nothing else. */
  lemma {:induction false} NormaliseIsPlain(env: Env, value: Value)
    ensures Plain(Normalise(env, value)) && (Plain(value) <==> Normalise(env, value) == value)
    ensures value.Moment? ==> Normalise(env, value) == Text(env.iso(value.instant))
    ensures value.Raw? ==> Normalise(env, value) == Text(env.hex(value.bytes))
  {
    match value
    case List(items) =>
      forall i: nat | i < |items|
        ensures Plain(Normalise(env, items[i])) && (Plain(items[i]) <==> Normalise(env, items[i]) == items[i])
      {
        NormaliseIsPlain(env, items[i]);
      }
      assert Normalise(env, value) == value <==> forall i: nat | i < |items| :: Normalise(env, items[i]) == items[i];
    case _ =>
  }

  function RowDigest(env: Env, row: Row): string {
    env.rowHash(NormaliseRow(env, row))
  }

  // ---------------------------------------------------------------- sorting

  /** Python's order on strings. */
  predicate AtMost(a: string, b: string) {
    a == [] || (b != [] && (a[0] < b[0] || (a[0] == b[0] && AtMost(a[1..], b[1..]))))
  }

  lemma {:induction false} AtMostTotal(a: string, b: string)
    ensures AtMost(a, b) || AtMost(b, a)
    ensures AtMost(a, b) && AtMost(b, a) ==> a == b
  {
    if a != [] && b != [] {
      AtMostTotal(a[1..], b[1..]);
      assert a == [a[0]] + a[1..] && b == [b[0]] + b[1..];
    }
  }

  lemma {:induction false} AtMostTransitive(a: string, b: string, c: string)
    requires AtMost(a, b) && AtMost(b, c)
    ensures AtMost(a, c)
  {
    if a != [] && a[0] == b[0] == c[0] {
      AtMostTransitive(a[1..], b[1..], c[1..]);
    }
  }

  function Insert(x: string, sorted: seq<string>): (r: seq<string>)
    ensures multiset(r) == multiset(sorted) + multiset{x}
  {
    if sorted == [] then [x]
    else if AtMost(x, sorted[0]) then [x] + sorted
    else
      assert sorted == [sorted[0]] + sorted[1..];
      [sorted[0]] + Insert(x, sorted[1..])
  }

  function Sorted(lines: seq<string>): (r: seq<string>)
    ensures multiset(r) == multiset(lines)
  {
    if lines == [] then []
    else
      assert lines == lines[..|lines| - 1] + [lines[|lines| - 1]];
      Insert(lines[|lines| - 1], Sorted(lines[..|lines| - 1]))
  }

  /** The first line is least, and so on down. */
  predicate Ordered(lines: seq<string>) {
    lines != [] ==> (forall x | x in lines :: AtMost(lines[0], x)) && Ordered(lines[1..])
  }

  lemma {:induction false} InsertOrdered(x: string, sorted: seq<string>)
    requires Ordered(sorted)
    ensures Ordered(Insert(x, sorted))
  {
    AtMostTotal(x, x);
    if sorted != [] {
      AtMostTotal(x, sorted[0]);
      if AtMost(x, sorted[0]) {
        forall y | y in sorted
          ensures AtMost(x, y)
        {
          AtMostTransitive(x, sorted[0], y);
        }
        assert ([x] + sorted)[1..] == sorted;
      } else {
        var rest := Insert(x, sorted[1..]);
        InsertOrdered(x, sorted[1..]);
        assert ([sorted[0]] + rest)[1..] == rest;
        forall y | y in rest
          ensures AtMost(sorted[0], y)
        {
          assert y in multiset(rest);
          if y != x {
            assert y in multiset(sorted[1..]);
            assert y in sorted[1..];
          }
        }
        AtMostTotal(sorted[0], sorted[0]);
      }
    }
  }

  lemma {:induction false} SortedIsOrdered(lines: seq<string>)
    ensures Ordered(Sorted(lines))
  {
    if lines != [] {
      SortedIsOrdered(lines[..|lines| - 1]);
      InsertOrdered(lines[|lines| - 1], Sorted(lines[..|lines| - 1]));
    }
  }

  lemma SameHead(a: seq<string>, b: seq<string>)
    requires a != [] && b != [] && Ordered(a) && Ordered(b) && multiset(a) == multiset(b)
    ensures a[0] == b[0]
  {
    assert a[0] in multiset(b) && b[0] in multiset(a);
    AtMostTotal(a[0], b[0]);
  }

  lemma TailOf(a: seq<string>)
    requires a != []
    ensures multiset(a[1..]) == multiset(a) - multiset{a[0]}
    ensures a == [a[0]] + a[1..]
  {
    assert a == [a[0]] + a[1..];
  }

  lemma {:induction false} OneOrdering(a: seq<string>, b: seq<string>)
    requires Ordered(a) && Ordered(b) && multiset(a) == multiset(b)
    ensures a == b
  {
    assert |a| == |multiset(a)| == |multiset(b)| == |b|;
    if a != [] {
      SameHead(a, b);
      TailOf(a);
      TailOf(b);
      OneOrdering(a[1..], b[1..]);
    }
  }

  /** Sorting forgets the order and nothing else. */
  lemma SortedIffSameMultiset(a: seq<string>, b: seq<string>)
    ensures Sorted(a) == Sorted(b) <==> multiset(a) == multiset(b)
  {
    SortedIsOrdered(a);
    SortedIsOrdered(b);
    if multiset(a) == multiset(b) {
      OneOrdering(Sorted(a), Sorted(b));
    } else {
      assert multiset(Sorted(a)) != multiset(Sorted(b));
    }
  }

  /** `_multiset_digest`. */
  function MultisetDigest(env: Env, digests: seq<string>): string {
    env.linesHash(Sorted(digests))
  }

  // ---------------------------------------------------------------- one dataset

  type HostKey = (string, string)

  /** A link row counts towards its host when it has a non-empty text one. */
  predicate HasHost(row: Row) {
    "target_host" in row && row["target_host"].Text? && row["target_host"].text != ""
  }

  function HostKeys(env: Env, rows: seq<Row>): seq<HostKey> {
    if rows == [] then []
    else
      var last := rows[|rows| - 1];
      HostKeys(env, rows[..|rows| - 1])
      + if HasHost(last) then [(last["target_host"].text, env.bucket(last["target_host"].text))] else []
  }

  function CountsOf(keys: multiset<HostKey>): map<HostKey, nat> {
    map k | k in keys :: keys[k]
  }

  function Digests(env: Env, rows: seq<Row>): (r: seq<string>)
    ensures |r| == |rows| && forall i: nat | i < |rows| :: r[i] == RowDigest(env, rows[i])
  {
    seq(|rows|, i requires 0 <= i < |rows| => RowDigest(env, rows[i]))
  }

  datatype Dataset = Dataset(count: nat, digest: string, hosts: map<HostKey, nat>)

  /** What `_dataset_digest` computes of the rows of a file. */
  function DatasetOf(env: Env, rows: seq<Row>, collectHosts: bool): Dataset {
    Dataset(|rows|, MultisetDigest(env, Digests(env, rows)),
            if collectHosts then CountsOf(multiset(HostKeys(env, rows))) else map[])
  }

  function Flatten(batches: seq<seq<Row>>): seq<Row> {
    if batches == [] then [] else Flatten(batches[..|batches| - 1]) + batches[|batches| - 1]
  }

  lemma CountOne(keys: multiset<HostKey>, k: HostKey)
    ensures CountsOf(keys + multiset{k})
            == CountsOf(keys)[k := (if k in CountsOf(keys) then CountsOf(keys)[k] else 0) + 1]
  {
  }

  lemma CountKey(keys: seq<HostKey>, k: HostKey)
    ensures CountsOf(multiset(keys + [k]))
            == CountsOf(multiset(keys))[k := (if k in CountsOf(multiset(keys)) then CountsOf(multiset(keys))[k] else 0) + 1]
  {
    CountOne(multiset(keys), k);
    assert multiset(keys + [k]) == multiset(keys) + multiset{k};
  }

  /** One row of the loop. */
  lemma RowStep(env: Env, rows: seq<Row>, row: Row)
    ensures Digests(env, rows + [row]) == Digests(env, rows) + [RowDigest(env, row)]
    ensures HostKeys(env, rows + [row])
            == HostKeys(env, rows) + if HasHost(row) then [(row["target_host"].text, env.bucket(row["target_host"].text))] else []
  {
    assert (rows + [row])[..|rows|] == rows;
  }

  /** What the loops of `_dataset_digest` have gathered from the rows so far. */
  datatype Progress = Progress(count: nat, digests: seq<string>, hosts: map<HostKey, nat>)

  function Gathered(env: Env, rows: seq<Row>, collectHosts: bool): Progress {
    Progress(|rows|, Digests(env, rows), if collectHosts then CountsOf(multiset(HostKeys(env, rows))) else map[])
  }

  /** One row. */
  method Gather(env: Env, ghost rows: seq<Row>, row: Row, collectHosts: bool, p: Progress) returns (r: Progress)
    requires p == Gathered(env, rows, collectHosts)
    ensures r == Gathered(env, rows + [row], collectHosts)
  {
    RowStep(env, rows, row);
    var hosts := p.hosts;
    if collectHosts && HasHost(row) {
      var key := (row["target_host"].text, env.bucket(row["target_host"].text));
      CountKey(HostKeys(env, rows), key);
      hosts := hosts[key := (if key in hosts then hosts[key] else 0) + 1];
    } else {
      PlusNothing(HostKeys(env, rows));
    }
    r := Progress(p.count + 1, p.digests + [RowDigest(env, row)], hosts);
  }

  /** One batch. */
  method GatherBatch(env: Env, ghost rows: seq<Row>, batch: seq<Row>, collectHosts: bool, p: Progress) returns (r: Progress)
    requires p == Gathered(env, rows, collectHosts)
    ensures r == Gathered(env, rows + batch, collectHosts)
  {
    r := p;
    TakeAll(batch);
    PlusNothing(rows);
    for i := 0 to |batch|
      invariant r == Gathered(env, rows + batch[..i], collectHosts)
    {
      TakeOne(batch, i);
      Associate(rows, batch[..i], [batch[i]]);
      r := Gather(env, rows + batch[..i], batch[i], collectHosts, r);
    }
  }

  /** `_dataset_digest`: batch by batch, row by row. */
  method DatasetDigest(env: Env, batches: seq<seq<Row>>, collectHosts: bool) returns (r: Dataset)
    ensures r == DatasetOf(env, Flatten(batches), collectHosts)
  {
    var p := Progress(0, [], map[]);
    TakeAll(batches);
    assert HostKeys(env, []) == [];
    for b := 0 to |batches|
      invariant p == Gathered(env, Flatten(batches[..b]), collectHosts)
    {
      FlattenStep(batches, b);
      p := GatherBatch(env, Flatten(batches[..b]), batches[b], collectHosts, p);
    }
    r := Dataset(p.count, MultisetDigest(env, p.digests), p.hosts);
  }

  lemma FlattenStep(batches: seq<seq<Row>>, b: nat)
    requires b < |batches|
    ensures Flatten(batches[..b + 1]) == Flatten(batches[..b]) + batches[b]
  {
    assert batches[..b + 1][..b] == batches[..b];
  }

  // ---------------------------------------------------------------- only the multiset matters

  function NormalRows(env: Env, rows: seq<Row>): (r: seq<Row>)
    ensures |r| == |rows| && forall i: nat | i < |rows| :: r[i] == NormaliseRow(env, rows[i])
  {
    seq(|rows|, i requires 0 <= i < |rows| => NormaliseRow(env, rows[i]))
  }

  function Mapped<T, U>(f: T -> U, xs: seq<T>): (r: seq<U>)
    ensures |r| == |xs| && forall i: nat | i < |xs| :: r[i] == f(xs[i])
  {
    seq(|xs|, i requires 0 <= i < |xs| => f(xs[i]))
  }

  lemma MappedWithout<T, U>(f: T -> U, xs: seq<T>, i: nat)
    requires i < |xs|
    ensures multiset(Mapped(f, xs)) == multiset(Mapped(f, xs[..i] + xs[i + 1..])) + multiset{f(xs[i])}
  {
    RemoveAt(Mapped(f, xs), i);
    assert Mapped(f, xs)[..i] + Mapped(f, xs)[i + 1..] == Mapped(f, xs[..i] + xs[i + 1..]);
  }

  /** A function sends equal multisets to equal multisets. */
  lemma {:induction false} MappedOrder<T, U>(f: T -> U, a: seq<T>, b: seq<T>)
    requires multiset(a) == multiset(b)
    ensures multiset(Mapped(f, a)) == multiset(Mapped(f, b))
  {
    if a == [] {
      assert |b| == |multiset(b)| == 0;
    } else {
      var n := |a| - 1;
      var i := Elsewhere(a, b);
      MappedOrder(f, a[..n], b[..i] + b[i + 1..]);
      MappedWithout(f, a, n);
      MappedWithout(f, b, i);
      assert a[..n] + a[n + 1..] == a[..n];
    }
  }

  /** A function that is injective on the elements sends different multisets to different ones. */
  lemma {:induction false} MappedInjective<T, U>(f: T -> U, a: seq<T>, b: seq<T>)
    requires multiset(Mapped(f, a)) == multiset(Mapped(f, b))
    requires forall x, y | (x in a || x in b) && (y in a || y in b) && f(x) == f(y) :: x == y
    ensures multiset(a) == multiset(b)
  {
    if a == [] {
      assert |b| == |multiset(Mapped(f, b))| == |multiset(Mapped(f, a))| == 0;
    } else {
      var n := |a| - 1;
      var i := Elsewhere(Mapped(f, a), Mapped(f, b));
      assert a[n] in a && b[i] in b;
      var rest := b[..i] + b[i + 1..];
      assert Mapped(f, b)[..i] + Mapped(f, b)[i + 1..] == Mapped(f, rest);
      assert Mapped(f, a)[..n] == Mapped(f, a[..n]);
      assert forall x | x in rest :: x in b;
      MappedInjective(f, a[..n], rest);
      RemoveAt(a, n);
      RemoveAt(b, i);
      assert a[..n] + a[n + 1..] == a[..n];
    }
  }

  lemma {:induction false} HostKeysConcat(env: Env, a: seq<Row>, b: seq<Row>)
    ensures HostKeys(env, a + b) == HostKeys(env, a) + HostKeys(env, b)
  {
    if b == [] {
      assert a + b == a;
    } else {
      var n := |b| - 1;
      HostKeysConcat(env, a, b[..n]);
      RowStep(env, a + b[..n], b[n]);
      RowStep(env, b[..n], b[n]);
      TakeOne(b, n);
      TakeAll(b);
      Associate(a, b[..n], [b[n]]);
    }
  }

  lemma HostKeysWithout(env: Env, rows: seq<Row>, i: nat)
    requires i < |rows|
    ensures multiset(HostKeys(env, rows))
            == multiset(HostKeys(env, rows[..i] + rows[i + 1..])) + multiset(HostKeys(env, [rows[i]]))
  {
    var a, x, c := rows[..i], [rows[i]], rows[i + 1..];
    assert rows == a + x + c;
    HostKeysConcat(env, a + x, c);
    HostKeysConcat(env, a, x);
    HostKeysConcat(env, a, c);
  }

  lemma {:induction false} HostKeysOrder(env: Env, a: seq<Row>, b: seq<Row>)
    requires multiset(a) == multiset(b)
    ensures multiset(HostKeys(env, a)) == multiset(HostKeys(env, b))
  {
    if a == [] {
      assert |b| == |multiset(b)| == 0;
    } else {
      var n := |a| - 1;
      var i := Elsewhere(a, b);
      HostKeysOrder(env, a[..n], b[..i] + b[i + 1..]);
      HostKeysWithout(env, a, n);
      HostKeysWithout(env, b, i);
      assert a[..n] + a[n + 1..] == a[..n];
    }
  }

  /** Row order and the split into batches change nothing: equal multisets of rows, equal results. */
  lemma OnlyTheMultisetMatters(env: Env, a: seq<seq<Row>>, b: seq<seq<Row>>, collectHosts: bool)
    requires multiset(Flatten(a)) == multiset(Flatten(b))
    ensures DatasetOf(env, Flatten(a), collectHosts) == DatasetOf(env, Flatten(b), collectHosts)
  {
    var x, y := Flatten(a), Flatten(b);
    assert |x| == |multiset(x)| == |multiset(y)| == |y|;
    var f := (row: Row) => RowDigest(env, row);
    MappedOrder(f, x, y);
    assert Mapped(f, x) == Digests(env, x) && Mapped(f, y) == Digests(env, y);
    SortedIffSameMultiset(Digests(env, x), Digests(env, y));
    HostKeysOrder(env, x, y);
  }

  /** No two of the rows at hand collide, and neither do the two lists of lines. */
  ghost predicate NoCollision(env: Env, a: seq<Row>, b: seq<Row>) {
    && (forall x, y | (x in NormalRows(env, a) || x in NormalRows(env, b)) && (y in NormalRows(env, a) || y in NormalRows(env, b))
                      && env.rowHash(x) == env.rowHash(y) :: x == y)
    && (MultisetDigest(env, Digests(env, a)) == MultisetDigest(env, Digests(env, b)) ==>
          Sorted(Digests(env, a)) == Sorted(Digests(env, b)))
  }

  /** Without a collision two digests are equal exactly when the normalised rows are the same multiset. */
  lemma DigestsEqualIffSameRows(env: Env, a: seq<Row>, b: seq<Row>, collectHosts: bool)
    requires NoCollision(env, a, b)
    ensures DatasetOf(env, a, collectHosts).digest == DatasetOf(env, b, collectHosts).digest
            <==> multiset(NormalRows(env, a)) == multiset(NormalRows(env, b))
  {
    var x, y := NormalRows(env, a), NormalRows(env, b);
    assert Mapped(env.rowHash, x) == Digests(env, a) && Mapped(env.rowHash, y) == Digests(env, b);
    SortedIffSameMultiset(Digests(env, a), Digests(env, b));
    if multiset(x) == multiset(y) {
      MappedOrder(env.rowHash, x, y);
    }
    if multiset(Digests(env, a)) == multiset(Digests(env, b)) {
      MappedInjective(env.rowHash, x, y);
    }
  }

  // ---------------------------------------------------------------- host counts

  ghost function Total(counts: map<HostKey, nat>): nat
    decreases |counts|
  {
    if counts == map[] then 0
    else
      var k :| k in counts;
      counts[k] + Total(counts - {k})
  }

  lemma {:induction false} TotalIsSize(keys: multiset<HostKey>)
    ensures Total(CountsOf(keys)) == |keys|
    decreases |CountsOf(keys)|
  {
    var counts := CountsOf(keys);
    if counts == map[] {
      assert forall k :: k in keys <==> k in counts;
      assert keys == multiset{};
    } else {
      var k :| k in counts && Total(counts) == counts[k] + Total(counts - {k});
      assert CountsOf(keys[k := 0]) == counts - {k};
      TotalIsSize(keys[k := 0]);
    }
  }

  /** The row's target host is this text. */
  predicate Targets(row: Row, host: string) {
    "target_host" in row && row["target_host"] == Text(host)
  }

  lemma {:induction false} KeysAreUsable(env: Env, rows: seq<Row>)
    ensures |HostKeys(env, rows)| == Count(rows, (row: Row) => exists host :: host != "" && Targets(row, host))
  {
    if rows != [] {
      var last := rows[|rows| - 1];
      KeysAreUsable(env, rows[..|rows| - 1]);
      assert HasHost(last) <==> exists host :: host != "" && Targets(last, host) by {
        assert HasHost(last) ==> Targets(last, last["target_host"].text);
      }
    }
  }

  lemma {:induction false} KeyCount(env: Env, rows: seq<Row>, host: string, bucket: string)
    ensures multiset(HostKeys(env, rows))[(host, bucket)]
            == if host != "" && bucket == env.bucket(host) then Count(rows, (row: Row) => Targets(row, host)) else 0
  {
    if rows != [] {
      KeyCount(env, rows[..|rows| - 1], host, bucket);
    }
  }

  /** One count for each target host, under its bucket: how many rows have that very text; empty ones are left out. */
  lemma HostCountsAre(env: Env, rows: seq<Row>, host: string, bucket: string)
    ensures var hosts, n := DatasetOf(env, rows, true).hosts, Count(rows, (row: Row) => Targets(row, host));
            && ((host, bucket) in hosts <==> host != "" && bucket == env.bucket(host) && n > 0)
            && ((host, bucket) in hosts ==> hosts[(host, bucket)] == n)
  {
    KeyCount(env, rows, host, bucket);
    assert (host, bucket) in multiset(HostKeys(env, rows)) <==> multiset(HostKeys(env, rows))[(host, bucket)] > 0;
  }

  /** The host counts sum to the number of rows with a target host that is text and not empty. */
  lemma HostCountsSum(env: Env, rows: seq<Row>)
    ensures Total(DatasetOf(env, rows, true).hosts) == Count(rows, (row: Row) => exists host :: host != "" && Targets(row, host))
  {
    TotalIsSize(multiset(HostKeys(env, rows)));
    KeysAreUsable(env, rows);
  }

  // ---------------------------------------------------------------- the artifact pair

  datatype Semantic = Semantic(
    pagesCount: nat, linksCount: nat, pages: string, links: string, record: string, hosts: string)

  /** `artifact_semantic_digests`; `pair` hashes the two dataset digests together. */
  method ArtifactSemanticDigests(env: Env, pair: (string, string) -> string, pages: seq<seq<Row>>, links: seq<seq<Row>>)
    returns (r: Semantic)
    ensures r == SemanticOf(env, pair, Flatten(pages), Flatten(links))
    ensures r.pagesCount == |Flatten(pages)| && r.pages == MultisetDigest(env, Digests(env, Flatten(pages)))
    ensures r.linksCount == |Flatten(links)| && r.links == MultisetDigest(env, Digests(env, Flatten(links)))
    ensures r.record == pair(r.links, r.pages) && r.hosts == env.hostsHash(DatasetOf(env, Flatten(links), true).hosts)
  {
    var p := DatasetDigest(env, pages, false);
    var l := DatasetDigest(env, links, true);
    r := Semantic(p.count, l.count, p.digest, l.digest, pair(l.digest, p.digest), env.hostsHash(l.hosts));
  }

  function SemanticOf(env: Env, pair: (string, string) -> string, pages: seq<Row>, links: seq<Row>): Semantic {
    var p, l := DatasetOf(env, pages, false), DatasetOf(env, links, true);
    Semantic(p.count, l.count, p.digest, l.digest, pair(l.digest, p.digest), env.hostsHash(l.hosts))
  }

  /** Two artifact pairs with the same multisets of pages and links have the same six semantic fields. */
  lemma SameRowsSameSemantics(
    env: Env, pair: (string, string) -> string, pages: seq<seq<Row>>, otherPages: seq<seq<Row>>,
    links: seq<seq<Row>>, otherLinks: seq<seq<Row>>)
    requires multiset(Flatten(pages)) == multiset(Flatten(otherPages))
    requires multiset(Flatten(links)) == multiset(Flatten(otherLinks))
    ensures SemanticOf(env, pair, Flatten(pages), Flatten(links)) == SemanticOf(env, pair, Flatten(otherPages), Flatten(otherLinks))
  {
    OnlyTheMultisetMatters(env, pages, otherPages, false);
    OnlyTheMultisetMatters(env, links, otherLinks, true);
  }
}
