/**
The sharded link-index query plan: every task joins its rows with a host map, filters,
groups into six tables and partitions them by target-domain bucket; compaction regroups one
bucket over all tasks. The theorems say that this plan means one direct query over all rows,
however the rows are split into tasks and in whatever order they come.
*/
module LinkIndex {
  import opened Wrappers
  import opened Collections

  const BUCKET_COUNT: nat := 1024

  /** A row of a raw Links file; None is SQL NULL. */
  datatype Raw = Raw(
    sourceHost: Option<string>, targetHost: Option<string>, sourceUrl: Option<string>, targetUrl: Option<string>,
    anchor: Option<string>)

  /** A row of the `classified` table. */
  datatype Link = Link(
    sourceDomain: string, targetDomain: string, sourceUrl: Option<string>, targetUrl: string, anchor: string)

  /** The first three hexadecimal digits of a SHA-256. */
  type Prefix = n: nat | n < 4096

  /** `lower(trim(·))`, `trim`, the registrable-domain resolver and the hash prefix, all opaque. */
  datatype Env = Env(
    fold: string -> string, trim: string -> string, resolve: string -> string, prefix: string -> Prefix)

  /** `_domain_bucket`: the top ten of the twelve prefix bits. */
  function DomainBucket(env: Env, domain: string): (b: nat)
    ensures b < BUCKET_COUNT && 4 * b <= env.prefix(domain) < 4 * b + 4
  {
    env.prefix(domain) / 4
  }

  // ---------------------------------------------------------------- join and filter

  function Hosts(env: Env, rows: seq<Raw>): set<string> {
    (set r | r in rows && r.sourceHost.Some? && env.fold(r.sourceHost.value) != "" :: env.fold(r.sourceHost.value))
    + (set r | r in rows && r.targetHost.Some? && env.fold(r.targetHost.value) != "" :: env.fold(r.targetHost.value))
  }

  function HostMap(env: Env, rows: seq<Raw>): map<string, string> {
    map host | host in Hosts(env, rows) :: env.resolve(host)
  }

  datatype PlanError = NoValidHosts | NotAPartition | NotANumber | OutOfRange | TwoFiles

  function WithHost(env: Env, hosts: map<string, string>, host: Option<string>): map<string, string> {
    if host.Some? && env.fold(host.value) != "" then hosts[env.fold(host.value) := env.resolve(env.fold(host.value))] else hosts
  }

  /** `_write_host_domain_map`: one entry for every distinct non-blank host, or an error. */
  method WriteHostDomainMap(env: Env, rows: seq<Raw>) returns (r: Result<map<string, string>, PlanError>)
    ensures r == if Hosts(env, rows) == {} then Failure(NoValidHosts) else Success(HostMap(env, rows))
  {
    var hosts: map<string, string> := map[];
    for i := 0 to |rows|
      invariant hosts == HostMap(env, rows[..i])
    {
      assert rows[..i + 1] == rows[..i] + [rows[i]];
      hosts := WithHost(env, WithHost(env, hosts, rows[i].sourceHost), rows[i].targetHost);
    }
    assert rows[..|rows|] == rows;
    assert hosts.Keys == Hosts(env, rows);
    r := if hosts == map[] then Failure(NoValidHosts) else Success(hosts);
  }

  /** The join and the WHERE clause, on one row, through a host map. */
  function JoinRow(env: Env, hosts: map<string, string>, raw: Raw): seq<Link> {
    if raw.sourceHost.None? || raw.targetHost.None? then []
    else
      var source, target := env.fold(raw.sourceHost.value), env.fold(raw.targetHost.value);
      if source !in hosts || target !in hosts || hosts[source] == "" || hosts[target] == "" then []
      else if hosts[source] == hosts[target] || raw.targetUrl.None? || env.trim(raw.targetUrl.value) == "" then []
      else
        [Link(hosts[source], hosts[target], raw.sourceUrl, raw.targetUrl.value,
              if raw.anchor.Some? then raw.anchor.value else "")]
  }

  function Join(env: Env, hosts: map<string, string>, rows: seq<Raw>): seq<Link> {
    if rows == [] then []
    else Join(env, hosts, rows[..|rows| - 1]) + JoinRow(env, hosts, rows[|rows| - 1])
  }

  /** A host the resolver may be asked about: present and not blank once folded. */
  predicate Usable(env: Env, host: Option<string>) {
    host.Some? && env.fold(host.value) != "" && env.resolve(env.fold(host.value)) != ""
  }

  /** What a row means, with no host map in between: the links of one direct query. */
  function ClassifyRow(env: Env, raw: Raw): seq<Link> {
    if !Usable(env, raw.sourceHost) || !Usable(env, raw.targetHost) then []
    else
      var source, target := env.resolve(env.fold(raw.sourceHost.value)), env.resolve(env.fold(raw.targetHost.value));
      if source == target || raw.targetUrl.None? || env.trim(raw.targetUrl.value) == "" then []
      else
        [Link(source, target, raw.sourceUrl, raw.targetUrl.value, if raw.anchor.Some? then raw.anchor.value else "")]
  }

  function Classified(env: Env, rows: seq<Raw>): seq<Link> {
    if rows == [] then []
    else Classified(env, rows[..|rows| - 1]) + ClassifyRow(env, rows[|rows| - 1])
  }

  lemma {:induction false} JoinPrefix(env: Env, all: seq<Raw>, n: nat)
    requires n <= |all|
    ensures Join(env, HostMap(env, all), all[..n]) == Classified(env, all[..n])
  {
    if n > 0 {
      JoinPrefix(env, all, n - 1);
      assert all[..n][..n - 1] == all[..n - 1];
      assert all[n - 1] in all;
      var raw := all[n - 1];
      assert raw.sourceHost.Some? && env.fold(raw.sourceHost.value) != "" ==> env.fold(raw.sourceHost.value) in Hosts(env, all);
      assert raw.targetHost.Some? && env.fold(raw.targetHost.value) != "" ==> env.fold(raw.targetHost.value) in Hosts(env, all);
      assert JoinRow(env, HostMap(env, all), raw) == ClassifyRow(env, raw) by {
        assert "" !in Hosts(env, all);
      }
    }
  }

  /** Joining a task's rows with the task's own host map is classifying them directly. */
  lemma JoinIsDirect(env: Env, rows: seq<Raw>)
    ensures Join(env, HostMap(env, rows), rows) == Classified(env, rows)
  {
    JoinPrefix(env, rows, |rows|);
    assert rows[..|rows|] == rows;
  }

  lemma ClassifiedStep(env: Env, rows: seq<Raw>, row: Raw)
    ensures Classified(env, rows + [row]) == Classified(env, rows) + ClassifyRow(env, row)
  {
    assert (rows + [row])[..|rows|] == rows;
  }

  lemma {:induction false} ClassifiedConcat(env: Env, a: seq<Raw>, b: seq<Raw>)
    ensures Classified(env, a + b) == Classified(env, a) + Classified(env, b)
  {
    if b == [] {
      assert a + b == a;
    } else {
      var front, last := b[..|b| - 1], b[|b| - 1];
      ClassifiedConcat(env, a, front);
      SplitLast(b);
      Associate(a, front, [last]);
      ClassifiedStep(env, a + front, last);
      ClassifiedStep(env, front, last);
      Associate(Classified(env, a), Classified(env, front), ClassifyRow(env, last));
    }
  }

  /** A task refused for want of hosts would have contributed nothing. */
  lemma {:induction false} RefusedTaskIsEmpty(env: Env, rows: seq<Raw>)
    requires Hosts(env, rows) == {}
    ensures Classified(env, rows) == []
  {
    if rows != [] {
      var n := |rows| - 1;
      assert rows == rows[..n] + [rows[n]];
      assert Hosts(env, rows[..n]) <= Hosts(env, rows);
      RefusedTaskIsEmpty(env, rows[..n]);
      if Usable(env, rows[n].sourceHost) {
        HostListed(env, rows, n);
      }
    }
  }

  lemma HostListed(env: Env, rows: seq<Raw>, i: nat)
    requires i < |rows| && Usable(env, rows[i].sourceHost)
    ensures env.fold(rows[i].sourceHost.value) in Hosts(env, rows)
  {
  }

  /** The row gives the link: both hosts resolve, to different domains, and the URL is not blank. */
  ghost predicate Gives(env: Env, raw: Raw, l: Link) {
    && raw.sourceHost.Some? && raw.targetHost.Some? && raw.targetUrl.Some?
    && env.fold(raw.sourceHost.value) != "" && env.fold(raw.targetHost.value) != ""
    && env.trim(raw.targetUrl.value) != ""
    && l.sourceDomain == env.resolve(env.fold(raw.sourceHost.value)) && l.sourceDomain != ""
    && l.targetDomain == env.resolve(env.fold(raw.targetHost.value)) && l.targetDomain != ""
    && l.sourceDomain != l.targetDomain
    && l.sourceUrl == raw.sourceUrl && l.targetUrl == raw.targetUrl.value
    && (raw.anchor.Some? ==> l.anchor == raw.anchor.value) && (raw.anchor.None? ==> l.anchor == "")
  }

  lemma ClassifyRowIs(env: Env, raw: Raw, l: Link)
    ensures Gives(env, raw, l) <==> ClassifyRow(env, raw) == [l]
    ensures |ClassifyRow(env, raw)| <= 1
  {
  }

  /** A link is classified as many times as rows give it, and no classified link is a domain's own or has a blank part. */
  lemma {:induction false} ClassifiedRows(env: Env, rows: seq<Raw>, l: Link)
    ensures Count(Classified(env, rows), (x: Link) => x == l) == Count(rows, (raw: Raw) => Gives(env, raw, l))
    ensures l in Classified(env, rows) ==>
              l.sourceDomain != l.targetDomain && l.sourceDomain != "" && l.targetDomain != "" && env.trim(l.targetUrl) != ""
  {
    if rows != [] {
      var n := |rows| - 1;
      ClassifiedRows(env, rows[..n], l);
      ClassifyRowIs(env, rows[n], l);
      var links := ClassifyRow(env, rows[n]);
      CountConcat(Classified(env, rows[..n]), links, (x: Link) => x == l);
      if links != [] {
        assert links == [links[0]] && links[..0] == [];
      }
    }
  }

  // ---------------------------------------------------------------- grouping

  datatype TableName = DomainEdges | ReferringDomains | Anchors | TopPages | PageReferrers | BrokenBacklinks

  const TABLES := [DomainEdges, ReferringDomains, Anchors, TopPages, PageReferrers, BrokenBacklinks]

  type GroupKey = seq<Option<string>>

  /** A grouped relation: one row per key with its count. */
  type Table = map<GroupKey, nat>

  /** The GROUP BY columns of each table, in the order of its query. */
  function KeyOf(t: TableName, l: Link): (k: GroupKey)
    ensures TargetOf(t, k) == Some(l.targetDomain)
  {
    var source, target, page := Some(l.sourceDomain), Some(l.targetDomain), Some(l.targetUrl);
    match t
    case DomainEdges => [source, target]
    case ReferringDomains => [target, source]
    case Anchors => [target, Some(l.anchor)]
    case TopPages => [target, page]
    case PageReferrers => [target, page, source]
    case BrokenBacklinks => [target, page, source, l.sourceUrl]
  }

  /** The `target_domain` column of a key. */
  function TargetOf(t: TableName, k: GroupKey): Option<string> {
    if |k| < 2 then None else if t == DomainEdges then k[1] else k[0]
  }

  function KeysOf(t: TableName, links: seq<Link>): (r: seq<GroupKey>)
    ensures |r| == |links| && forall i: nat | i < |links| :: r[i] == KeyOf(t, links[i])
  {
    seq(|links|, i requires 0 <= i < |links| => KeyOf(t, links[i]))
  }

  /** `SELECT key, count(*) ... GROUP BY key`. */
  function Grouped(keys: multiset<GroupKey>): Table {
    map k | k in keys :: keys[k]
  }

  /** One direct query over a set of links. */
  function Direct(t: TableName, links: seq<Link>): Table {
    Grouped(multiset(KeysOf(t, links)))
  }

  /** The table has a row for each value that `row` takes on the links, with the number of links that have it. */
  ghost predicate RowsAre(table: Table, links: seq<Link>, row: Link -> GroupKey) {
    && (forall k :: k in table <==> exists l :: l in links && row(l) == k)
    && forall k | k in table :: table[k] == Count(links, (l: Link) => row(l) == k)
  }

  lemma {:induction false} KeyCount(t: TableName, links: seq<Link>, row: Link -> GroupKey, k: GroupKey)
    requires forall l :: row(l) == KeyOf(t, l)
    ensures multiset(KeysOf(t, links))[k] == Count(links, (l: Link) => row(l) == k)
  {
    if links != [] {
      var front, last := links[..|links| - 1], links[|links| - 1];
      KeyCount(t, front, row, k);
      SplitLast(links);
      KeysConcat(t, front, [last]);
      assert KeysOf(t, [last]) == [KeyOf(t, last)];
    }
  }

  lemma GroupedRows(t: TableName, links: seq<Link>, row: Link -> GroupKey)
    requires forall l :: row(l) == KeyOf(t, l)
    ensures RowsAre(Direct(t, links), links, row)
  {
    forall k
      ensures k in Direct(t, links) <==> exists l :: l in links && row(l) == k
      ensures k in Direct(t, links) ==> Direct(t, links)[k] == Count(links, (l: Link) => row(l) == k)
    {
      KeyCount(t, links, row, k);
      CountNone(links, (l: Link) => row(l) == k);
    }
  }

  /** The columns of the six tables, and what their counts count. */
  lemma DirectRows(links: seq<Link>)
    ensures RowsAre(Direct(DomainEdges, links), links, (l: Link) => [Some(l.sourceDomain), Some(l.targetDomain)])
    ensures RowsAre(Direct(ReferringDomains, links), links, (l: Link) => [Some(l.targetDomain), Some(l.sourceDomain)])
    ensures RowsAre(Direct(Anchors, links), links, (l: Link) => [Some(l.targetDomain), Some(l.anchor)])
    ensures RowsAre(Direct(TopPages, links), links, (l: Link) => [Some(l.targetDomain), Some(l.targetUrl)])
    ensures RowsAre(Direct(PageReferrers, links), links, (l: Link) => [Some(l.targetDomain), Some(l.targetUrl), Some(l.sourceDomain)])
    ensures RowsAre(Direct(BrokenBacklinks, links), links,
                    (l: Link) => [Some(l.targetDomain), Some(l.targetUrl), Some(l.sourceDomain), l.sourceUrl])
  {
    GroupedRows(DomainEdges, links, (l: Link) => [Some(l.sourceDomain), Some(l.targetDomain)]);
    GroupedRows(ReferringDomains, links, (l: Link) => [Some(l.targetDomain), Some(l.sourceDomain)]);
    GroupedRows(Anchors, links, (l: Link) => [Some(l.targetDomain), Some(l.anchor)]);
    GroupedRows(TopPages, links, (l: Link) => [Some(l.targetDomain), Some(l.targetUrl)]);
    GroupedRows(PageReferrers, links, (l: Link) => [Some(l.targetDomain), Some(l.targetUrl), Some(l.sourceDomain)]);
    GroupedRows(BrokenBacklinks, links, (l: Link) => [Some(l.targetDomain), Some(l.targetUrl), Some(l.sourceDomain), l.sourceUrl]);
  }

  /** The partition of a table that belongs to one target bucket. */
  function Slice(env: Env, t: TableName, table: Table, b: nat): Table {
    map k | k in table && TargetOf(t, k).Some? && DomainBucket(env, TargetOf(t, k).value) == b :: table[k]
  }

  /** What one task stores for a table and a bucket; an empty partition is not written. */
  function TaskPart(env: Env, t: TableName, rows: seq<Raw>, b: nat): Table {
    Slice(env, t, Direct(t, Join(env, HostMap(env, rows), rows)), b)
  }

  /** The links whose target domain falls in the bucket, in order. */
  function Into(env: Env, links: seq<Link>, b: nat): (r: seq<Link>)
    ensures forall l :: l in r <==> l in links && DomainBucket(env, l.targetDomain) == b
  {
    if links == [] then []
    else
      var last := links[|links| - 1];
      SplitLast(links);
      Into(env, links[..|links| - 1], b) + if DomainBucket(env, last.targetDomain) == b then [last] else []
  }

  lemma {:induction false} IntoCount(env: Env, links: seq<Link>, b: nat, p: Link -> bool)
    requires forall l | p(l) :: DomainBucket(env, l.targetDomain) == b
    ensures Count(Into(env, links, b), p) == Count(links, p)
  {
    if links != [] {
      var n := |links| - 1;
      IntoCount(env, links[..n], b, p);
      if DomainBucket(env, links[n].targetDomain) == b {
        CountConcat(Into(env, links[..n], b), [links[n]], p);
        assert [links[n]][..0] == [];
      } else {
        PlusNothing(Into(env, links[..n], b));
      }
    }
  }

  lemma KeyIn(t: TableName, links: seq<Link>, k: GroupKey)
    ensures Direct(t, links).Keys == set l | l in links :: KeyOf(t, l)
    ensures k in Direct(t, links) ==> Direct(t, links)[k] == Count(links, (l: Link) => KeyOf(t, l) == k)
  {
    var row := (l: Link) => KeyOf(t, l);
    GroupedRows(t, links, row);
    CountSame(links, (l: Link) => row(l) == k, (l: Link) => KeyOf(t, l) == k);
  }

  /** A bucket of the direct query is the direct query over the links of that bucket. */
  lemma SliceIsDirect(env: Env, t: TableName, links: seq<Link>, b: nat)
    ensures Slice(env, t, Direct(t, links), b) == Direct(t, Into(env, links, b))
  {
    var into := Into(env, links, b);
    var slice := Slice(env, t, Direct(t, links), b);
    forall k
      ensures k in slice <==> k in Direct(t, into)
      ensures k in slice ==> slice[k] == Direct(t, into)[k]
    {
      KeyIn(t, links, k);
      KeyIn(t, into, k);
      if k in slice {
        IntoCount(env, links, b, (l: Link) => KeyOf(t, l) == k);
      }
    }
  }

  // ---------------------------------------------------------------- regrouping

  function At(table: Table, k: GroupKey): nat {
    if k in table then table[k] else 0
  }

  /** `sum(link_count) ... GROUP BY key` over two relations read together. */
  function Plus(a: Table, b: Table): Table {
    map k | k in a.Keys + b.Keys :: At(a, k) + At(b, k)
  }

  function SumParts(parts: seq<Table>): Table {
    if parts == [] then map[] else Plus(SumParts(parts[..|parts| - 1]), parts[|parts| - 1])
  }

  /** The part files of one table and bucket, over all tasks: only partitions with rows exist. */
  function Parts(env: Env, t: TableName, tasks: seq<seq<Raw>>, b: nat): seq<Table> {
    if tasks == [] then []
    else
      var part := TaskPart(env, t, tasks[|tasks| - 1], b);
      Parts(env, t, tasks[..|tasks| - 1], b) + if part == map[] then [] else [part]
  }

  function Flatten(tasks: seq<seq<Raw>>): seq<Raw> {
    if tasks == [] then [] else Flatten(tasks[..|tasks| - 1]) + tasks[|tasks| - 1]
  }

  lemma KeysConcat(t: TableName, a: seq<Link>, b: seq<Link>)
    ensures KeysOf(t, a + b) == KeysOf(t, a) + KeysOf(t, b)
  {
  }

  lemma DirectConcat(t: TableName, a: seq<Link>, b: seq<Link>)
    ensures Direct(t, a + b) == Plus(Direct(t, a), Direct(t, b))
  {
    KeysConcat(t, a, b);
    GroupedPlus(multiset(KeysOf(t, a)), multiset(KeysOf(t, b)));
  }

  lemma GroupedPlus(x: multiset<GroupKey>, y: multiset<GroupKey>)
    ensures Grouped(x + y) == Plus(Grouped(x), Grouped(y))
  {
    var whole, parts := Grouped(x + y), Plus(Grouped(x), Grouped(y));
    forall k
      ensures k in whole <==> k in parts
      ensures k in whole ==> whole[k] == parts[k]
    {
    }
  }

  lemma SlicePlus(env: Env, t: TableName, x: Table, y: Table, b: nat)
    ensures Slice(env, t, Plus(x, y), b) == Plus(Slice(env, t, x, b), Slice(env, t, y, b))
  {
    var whole, parts := Slice(env, t, Plus(x, y), b), Plus(Slice(env, t, x, b), Slice(env, t, y, b));
    forall k
      ensures k in whole <==> k in parts
      ensures k in whole ==> whole[k] == parts[k]
    {
      SlicePlusAt(env, t, x, y, b, k);
    }
  }

  lemma SlicePlusAt(env: Env, t: TableName, x: Table, y: Table, b: nat, k: GroupKey)
    ensures var whole, parts := Slice(env, t, Plus(x, y), b), Plus(Slice(env, t, x, b), Slice(env, t, y, b));
            (k in whole <==> k in parts) && (k in whole ==> whole[k] == parts[k])
  {
  }

  lemma PlusEmpty(x: Table)
    ensures Plus(x, map[]) == x
  {
  }

  /** One more task's part adds its slice to the sum; an empty part is as good as none. */
  lemma SumMore(parts: seq<Table>, part: Table)
    ensures SumParts(parts + if part == map[] then [] else [part]) == Plus(SumParts(parts), part)
  {
    if part == map[] {
      PlusNothing(parts);
      PlusEmpty(SumParts(parts));
    } else {
      TakeFront(parts, part);
    }
  }

  lemma FlatStep(env: Env, t: TableName, tasks: seq<seq<Raw>>, b: nat)
    requires tasks != []
    ensures var n := |tasks| - 1;
            Slice(env, t, Direct(t, Classified(env, Flatten(tasks))), b)
            == Plus(Slice(env, t, Direct(t, Classified(env, Flatten(tasks[..n]))), b), TaskPart(env, t, tasks[n], b))
  {
    var n := |tasks| - 1;
    var before, last := Classified(env, Flatten(tasks[..n])), Classified(env, tasks[n]);
    JoinIsDirect(env, tasks[n]);
    ClassifiedConcat(env, Flatten(tasks[..n]), tasks[n]);
    DirectConcat(t, before, last);
    SlicePlus(env, t, Direct(t, before), Direct(t, last), b);
  }

  /** Compacting a bucket of any list of tasks is slicing the direct query over their rows. */
  lemma {:induction false} CompactFlat(env: Env, t: TableName, tasks: seq<seq<Raw>>, b: nat)
    ensures SumParts(Parts(env, t, tasks, b)) == Slice(env, t, Direct(t, Classified(env, Flatten(tasks))), b)
  {
    if tasks == [] {
      assert KeysOf(t, []) == [];
    } else {
      var n := |tasks| - 1;
      CompactFlat(env, t, tasks[..n], b);
      FlatStep(env, t, tasks, b);
      SumMore(Parts(env, t, tasks[..n], b), TaskPart(env, t, tasks[n], b));
    }
  }

  // ---------------------------------------------------------------- order does not matter

  lemma ClassifiedWithout(env: Env, t: TableName, rows: seq<Raw>, i: nat)
    requires i < |rows|
    ensures multiset(KeysOf(t, Classified(env, rows)))
            == multiset(KeysOf(t, Classified(env, rows[..i] + rows[i + 1..]))) + multiset(KeysOf(t, ClassifyRow(env, rows[i])))
  {
    var a, x, c := rows[..i], [rows[i]], rows[i + 1..];
    assert rows == a + x + c;
    ClassifiedConcat(env, a + x, c);
    ClassifiedConcat(env, a, x);
    ClassifiedConcat(env, a, c);
    assert x[..0] == [];
    assert Classified(env, x) == ClassifyRow(env, rows[i]);
    KeysConcat(t, Classified(env, a) + Classified(env, x), Classified(env, c));
    KeysConcat(t, Classified(env, a), Classified(env, x));
    KeysConcat(t, Classified(env, a), Classified(env, c));
  }

  lemma {:induction false} OrderIrrelevant(env: Env, t: TableName, a: seq<Raw>, b: seq<Raw>)
    requires multiset(a) == multiset(b)
    ensures multiset(KeysOf(t, Classified(env, a))) == multiset(KeysOf(t, Classified(env, b)))
  {
    if a == [] {
      assert |b| == |multiset(b)| == 0;
    } else {
      var n := |a| - 1;
      var i := Elsewhere(a, b);
      OrderIrrelevant(env, t, a[..n], b[..i] + b[i + 1..]);
      ClassifiedWithout(env, t, a, n);
      ClassifiedWithout(env, t, b, i);
      assert a[..n] + a[n + 1..] == a[..n];
    }
  }

  /**
   * Every intermediate table, every bucket: regrouping the tasks' parts gives the bucket's
   * slice of the one direct query, for any way of dealing the rows out to tasks.
   */
  lemma CompactedTable(env: Env, t: TableName, all: seq<Raw>, tasks: seq<seq<Raw>>, b: nat)
    requires multiset(all) == multiset(Flatten(tasks))
    ensures SumParts(Parts(env, t, tasks, b)) == Slice(env, t, Direct(t, Classified(env, all)), b)
  {
    CompactFlat(env, t, tasks, b);
    OrderIrrelevant(env, t, all, Flatten(tasks));
  }
}
