/**
The dictionary-encoding optimizer. Strings are replaced by the first 64 bits of their
SHA-256; every dictionary is built and checked one id bucket at a time. The hash is
opaque and nothing is assumed of it: losslessness comes from the checks alone.
*/
module Dictionary {
  import opened Wrappers
  import opened Collections

  type Id = n: nat | n < 0x1_0000_0000_0000_0000

  /** The truncated hash, and SQL MIN over a non-empty set of strings. */
  datatype Env = Env(id: string -> Id, least: set<string> -> string)

  ghost predicate LeastPicks(env: Env) {
    forall s: set<string> | s != {} :: env.least(s) in s
  }

  datatype Candidate = Candidate(value: string, host: Option<string>)

  /** A dictionary row; the host column is only used by the URL dictionary. */
  datatype Row = Row(id: Id, value: string, hostId: Option<Id>)

  function Values(cands: seq<Candidate>): set<string> {
    set c | c in cands :: c.value
  }

  /** The non-null hosts seen with a value: what COUNT(DISTINCT host) and MIN(host) look at. */
  function HostsOf(cands: seq<Candidate>, value: string): set<string> {
    set c | c in cands && c.value == value && c.host.Some? :: c.host.value
  }

  function ValuesWith(env: Env, cands: seq<Candidate>, id: Id): set<string> {
    set v | v in Values(cands) && env.id(v) == id
  }

  function Ids(env: Env, cands: seq<Candidate>): set<Id> {
    set v | v in Values(cands) :: env.id(v)
  }

  /** Ids that stand for more than one value. */
  function Colliding(env: Env, cands: seq<Candidate>): set<Id> {
    set id | id in Ids(env, cands) && |ValuesWith(env, cands, id)| > 1
  }

  /** Values seen with more than one non-null host. */
  function Conflicted(cands: seq<Candidate>): set<string> {
    set v | v in Values(cands) && |HostsOf(cands, v)| > 1
  }

  function HostId(env: Env, cands: seq<Candidate>, value: string): Option<Id> {
    if HostsOf(cands, value) == {} then None else Some(env.id(env.least(HostsOf(cands, value))))
  }

  function Rows(env: Env, cands: seq<Candidate>, withHost: bool): set<Row> {
    set v | v in Values(cands) :: Row(env.id(v), v, if withHost then HostId(env, cands, v) else None)
  }

  /** The candidates written to one id bucket. */
  function InBucket(env: Env, cands: seq<Candidate>, partitions: nat, b: nat): seq<Candidate>
    requires partitions > 0
  {
    if cands == [] then []
    else
      var last := cands[|cands| - 1];
      InBucket(env, cands[..|cands| - 1], partitions, b) + if env.id(last.value) % partitions == b then [last] else []
  }

  lemma {:induction false} InBucketHas(env: Env, cands: seq<Candidate>, partitions: nat, b: nat, c: Candidate)
    requires partitions > 0
    ensures c in InBucket(env, cands, partitions, b) <==> c in cands && env.id(c.value) % partitions == b
  {
    if cands != [] {
      InBucketHas(env, cands[..|cands| - 1], partitions, b, c);
    }
  }

  lemma BucketValues(env: Env, cands: seq<Candidate>, partitions: nat, b: nat)
    requires partitions > 0
    ensures var part := InBucket(env, cands, partitions, b);
            && (forall v :: v in Values(part) <==> v in Values(cands) && env.id(v) % partitions == b)
            && (forall v | v in Values(part) :: HostsOf(part, v) == HostsOf(cands, v))
  {
    forall c
      ensures c in InBucket(env, cands, partitions, b) <==> c in cands && env.id(c.value) % partitions == b
    {
      InBucketHas(env, cands, partitions, b, c);
    }
  }

  /** Values that share an id share a bucket, so a bucket decides its own collisions. */
  lemma BucketColliding(env: Env, cands: seq<Candidate>, partitions: nat, b: nat)
    requires partitions > 0
    ensures Colliding(env, InBucket(env, cands, partitions, b)) == (set id | id in Colliding(env, cands) && id % partitions == b)
  {
    var part := InBucket(env, cands, partitions, b);
    BucketValues(env, cands, partitions, b);
    forall id: Id | id % partitions == b
      ensures ValuesWith(env, part, id) == ValuesWith(env, cands, id)
      ensures id in Ids(env, part) <==> id in Ids(env, cands)
    {
    }
    forall id | id in Ids(env, part)
      ensures id % partitions == b
    {
    }
  }

  lemma BucketConflicted(env: Env, cands: seq<Candidate>, partitions: nat, b: nat)
    requires partitions > 0
    ensures Conflicted(InBucket(env, cands, partitions, b)) == (set v | v in Conflicted(cands) && env.id(v) % partitions == b)
  {
    BucketValues(env, cands, partitions, b);
  }

  lemma BucketRows(env: Env, cands: seq<Candidate>, partitions: nat, b: nat, withHost: bool)
    requires partitions > 0
    ensures Rows(env, InBucket(env, cands, partitions, b), withHost)
            == (set r | r in Rows(env, cands, withHost) && r.id % partitions == b)
  {
    BucketValues(env, cands, partitions, b);
  }

  /** A set cut by a bucket number: the buckets up to `b` are those below it and `b` itself. */
  lemma AddPart<T>(whole: set<T>, bucket: T -> nat, b: nat)
    ensures var below, here := set x | x in whole && bucket(x) < b, set x | x in whole && bucket(x) == b;
            var upTo := set x | x in whole && bucket(x) < b + 1;
            upTo == below + here && |upTo| == |below| + |here|
  {
    var below, here := set x | x in whole && bucket(x) < b, set x | x in whole && bucket(x) == b;
    assert below !! here;
    assert (set x | x in whole && bucket(x) < b + 1) == below + here;
  }

  /**
   * `materialize_dictionary`: the per-bucket counts add up to the global numbers of distinct
   * values, of colliding ids and of values with conflicting hosts.
   */
  method MaterializeDictionary(env: Env, cands: seq<Candidate>, partitions: nat, withHost: bool)
    returns (dictionary: set<Row>, rows: nat, collisions: nat, conflicts: nat)
    requires partitions > 0
    ensures dictionary == Rows(env, cands, withHost)
    ensures rows == |Values(cands)|
    ensures collisions == |Colliding(env, cands)|
    ensures conflicts == if withHost then |Conflicted(cands)| else 0
  {
    dictionary, rows, collisions, conflicts := {}, 0, 0, 0;
    for b := 0 to partitions
      invariant dictionary == Done(env, cands, partitions, b, withHost).rows
      invariant rows == |dictionary|
      invariant collisions == |Done(env, cands, partitions, b, withHost).colliding|
      invariant conflicts == if withHost then |Done(env, cands, partitions, b, withHost).conflicted| else 0
    {
      var part := InBucket(env, cands, partitions, b);
      DoneStep(env, cands, partitions, b, withHost);
      if part != [] {
        collisions := collisions + |Colliding(env, part)|;
        if withHost {
          conflicts := conflicts + |Conflicted(part)|;
        }
        dictionary := dictionary + Rows(env, part, withHost);
        rows := rows + |Rows(env, part, withHost)|;
      }
    }
    DoneAll(env, cands, partitions, withHost);
  }

  /** What the buckets below `b` contribute. */
  datatype Progress = Progress(rows: set<Row>, colliding: set<Id>, conflicted: set<string>)

  ghost function Done(env: Env, cands: seq<Candidate>, partitions: nat, b: nat, withHost: bool): Progress
    requires partitions > 0
  {
    Progress(set r | r in Rows(env, cands, withHost) && r.id % partitions < b,
             set id | id in Colliding(env, cands) && id % partitions < b,
             set v | v in Conflicted(cands) && env.id(v) % partitions < b)
  }

  lemma RowsStep(env: Env, cands: seq<Candidate>, partitions: nat, b: nat, withHost: bool)
    requires partitions > 0
    ensures var part := Rows(env, InBucket(env, cands, partitions, b), withHost);
            var before, after := Done(env, cands, partitions, b, withHost).rows, Done(env, cands, partitions, b + 1, withHost).rows;
            after == before + part && |after| == |before| + |part|
  {
    BucketRows(env, cands, partitions, b, withHost);
    AddPart(Rows(env, cands, withHost), (r: Row) => r.id % partitions, b);
  }

  lemma CollidingStep(env: Env, cands: seq<Candidate>, partitions: nat, b: nat, withHost: bool)
    requires partitions > 0
    ensures var part := Colliding(env, InBucket(env, cands, partitions, b));
            var before, after := Done(env, cands, partitions, b, withHost).colliding, Done(env, cands, partitions, b + 1, withHost).colliding;
            after == before + part && |after| == |before| + |part|
  {
    BucketColliding(env, cands, partitions, b);
    AddPart(Colliding(env, cands), (id: Id) => id % partitions, b);
  }

  lemma ConflictedStep(env: Env, cands: seq<Candidate>, partitions: nat, b: nat, withHost: bool)
    requires partitions > 0
    ensures var part := Conflicted(InBucket(env, cands, partitions, b));
            var before, after := Done(env, cands, partitions, b, withHost).conflicted, Done(env, cands, partitions, b + 1, withHost).conflicted;
            after == before + part && |after| == |before| + |part|
  {
    BucketConflicted(env, cands, partitions, b);
    AddPart(Conflicted(cands), (v: string) => env.id(v) % partitions, b);
  }

  lemma DoneStep(env: Env, cands: seq<Candidate>, partitions: nat, b: nat, withHost: bool)
    requires partitions > 0
    ensures var part := InBucket(env, cands, partitions, b);
            var before, after := Done(env, cands, partitions, b, withHost), Done(env, cands, partitions, b + 1, withHost);
            && after.rows == before.rows + Rows(env, part, withHost)
            && |after.rows| == |before.rows| + |Rows(env, part, withHost)|
            && after.colliding == before.colliding + Colliding(env, part)
            && |after.colliding| == |before.colliding| + |Colliding(env, part)|
            && after.conflicted == before.conflicted + Conflicted(part)
            && |after.conflicted| == |before.conflicted| + |Conflicted(part)|
            && (part == [] ==> after == before)
  {
    var part := InBucket(env, cands, partitions, b);
    var before, after := Done(env, cands, partitions, b, withHost), Done(env, cands, partitions, b + 1, withHost);
    RowsStep(env, cands, partitions, b, withHost);
    CollidingStep(env, cands, partitions, b, withHost);
    ConflictedStep(env, cands, partitions, b, withHost);
    if part == [] {
      EmptyPart(env, withHost);
    }
  }

  lemma EmptyPart(env: Env, withHost: bool)
    ensures Rows(env, [], withHost) == {} && Colliding(env, []) == {} && Conflicted([]) == {}
  {
    assert Values([]) == {};
  }

  lemma DoneAll(env: Env, cands: seq<Candidate>, partitions: nat, withHost: bool)
    requires partitions > 0
    ensures Done(env, cands, partitions, partitions, withHost)
            == Progress(Rows(env, cands, withHost), Colliding(env, cands), Conflicted(cands))
    ensures |Rows(env, cands, withHost)| == |Values(cands)|
  {
    var rows := Rows(env, cands, withHost);
    assert rows == (set r | r in rows && r.id % partitions < partitions);
    RowsCount(env, cands, withHost, Values(cands));
  }

  lemma {:induction false} RowsCount(env: Env, cands: seq<Candidate>, withHost: bool, values: set<string>)
    ensures |set v | v in values :: Row(env.id(v), v, if withHost then HostId(env, cands, v) else None)| == |values|
    decreases |values|
  {
    if values != {} {
      var w :| w in values;
      var row := Row(env.id(w), w, if withHost then HostId(env, cands, w) else None);
      RowsCount(env, cands, withHost, values - {w});
      assert (set v | v in values :: Row(env.id(v), v, if withHost then HostId(env, cands, v) else None))
          == (set v | v in values - {w} :: Row(env.id(v), v, if withHost then HostId(env, cands, v) else None)) + {row};
    }
  }

  // ---------------------------------------------------------------- what the checks buy

  ghost predicate Injective(env: Env, values: set<string>) {
    forall v, w | v in values && w in values && env.id(v) == env.id(w) :: v == w
  }

  /** No collision counted, bucket by bucket: exactly then no two values anywhere share an id. */
  lemma ChecksMeanInjective(env: Env, cands: seq<Candidate>)
    ensures Colliding(env, cands) == {} <==> Injective(env, Values(cands))
  {
    forall v, w | v in Values(cands) && w in Values(cands) && env.id(v) == env.id(w) && v != w
      ensures env.id(v) in Colliding(env, cands)
    {
      Pair(ValuesWith(env, cands, env.id(v)), v, w);
    }
    if Injective(env, Values(cands)) {
      forall id | id in Ids(env, cands)
        ensures |ValuesWith(env, cands, id)| <= 1
      {
        var v :| v in Values(cands) && env.id(v) == id;
        assert ValuesWith(env, cands, id) == {v};
      }
    }
  }

  lemma TwoHostsConflict(cands: seq<Candidate>, value: string, h: string, other: string)
    requires h in HostsOf(cands, value) && other in HostsOf(cands, value) && h != other
    ensures value in Conflicted(cands)
  {
    Pair(HostsOf(cands, value), h, other);
  }

  /** The one host of a value, when it has one and no conflict was counted. */
  lemma NoConflictOneHost(cands: seq<Candidate>, c: Candidate)
    requires Conflicted(cands) == {} && c in cands && c.host.Some?
    ensures HostsOf(cands, c.value) == {c.host.value}
  {
    assert c.value in Values(cands);
    forall h | h in HostsOf(cands, c.value)
      ensures h == c.host.value
    {
      if h != c.host.value {
        TwoHostsConflict(cands, c.value, h, c.host.value);
      }
    }
  }

  // ---------------------------------------------------------------- encoding

  /** A raw Links row; None is SQL NULL. */
  datatype LinkRow = LinkRow(
    crawl: Option<string>, sourceUrl: Option<string>, sourceHost: Option<string>,
    targetUrl: Option<string>, targetHost: Option<string>, anchor: Option<string>, crawledAt: Option<string>)

  /** A raw Pages row; `rest` is crawled_at, status, content_type, title and description. */
  datatype PageRow = PageRow(
    crawl: Option<string>, sourceUrl: Option<string>, sourceHost: Option<string>, canonical: Option<string>,
    rest: seq<Option<string>>)

  datatype Edge = Edge(sourceId: Option<Id>, targetId: Option<Id>, anchorId: Option<Id>, crawledAt: Option<string>)

  datatype EncodedPage = EncodedPage(urlId: Option<Id>, canonicalId: Option<Id>, rest: seq<Option<string>>)

  datatype Encoded = Encoded(
    crawl: string, urls: set<Row>, hosts: set<Row>, anchors: set<Row>, edges: seq<Edge>, pages: seq<EncodedPage>)

  datatype OptimizeError = ForeignCrawl | Collision(ids: nat) | HostConflict(urls: nat)

  function UrlOf(url: Option<string>, host: Option<string>): seq<Candidate> {
    if url.None? then [] else [Candidate(url.value, host)]
  }

  function LinkUrls(links: seq<LinkRow>): seq<Candidate> {
    if links == [] then []
    else
      var row := links[|links| - 1];
      LinkUrls(links[..|links| - 1]) + UrlOf(row.sourceUrl, row.sourceHost) + UrlOf(row.targetUrl, row.targetHost)
  }

  function PageUrls(pages: seq<PageRow>): seq<Candidate> {
    if pages == [] then []
    else
      var row := pages[|pages| - 1];
      PageUrls(pages[..|pages| - 1]) + UrlOf(row.sourceUrl, row.sourceHost) + UrlOf(row.canonical, None)
  }

  /** The four branches of the URL candidate query. */
  function UrlCandidates(pages: seq<PageRow>, links: seq<LinkRow>): seq<Candidate> {
    PageUrls(pages) + LinkUrls(links)
  }

  function LinkHosts(links: seq<LinkRow>): seq<Candidate> {
    if links == [] then []
    else
      var row := links[|links| - 1];
      LinkHosts(links[..|links| - 1]) + UrlOf(row.sourceHost, None) + UrlOf(row.targetHost, None)
  }

  function PageHosts(pages: seq<PageRow>): seq<Candidate> {
    if pages == [] then []
    else PageHosts(pages[..|pages| - 1]) + UrlOf(pages[|pages| - 1].sourceHost, None)
  }

  function HostCandidates(pages: seq<PageRow>, links: seq<LinkRow>): seq<Candidate> {
    PageHosts(pages) + LinkHosts(links)
  }

  function AnchorCandidates(links: seq<LinkRow>): seq<Candidate> {
    if links == [] then [] else AnchorCandidates(links[..|links| - 1]) + UrlOf(links[|links| - 1].anchor, None)
  }

  lemma {:induction false} LinkCandidates(links: seq<LinkRow>, row: LinkRow)
    requires row in links
    ensures row.sourceUrl.Some? ==> Candidate(row.sourceUrl.value, row.sourceHost) in LinkUrls(links)
    ensures row.targetUrl.Some? ==> Candidate(row.targetUrl.value, row.targetHost) in LinkUrls(links)
    ensures row.anchor.Some? ==> Candidate(row.anchor.value, None) in AnchorCandidates(links)
  {
    var n := |links| - 1;
    if row != links[n] {
      assert row in links[..n];
      LinkCandidates(links[..n], row);
    }
  }

  lemma {:induction false} PageCandidates(pages: seq<PageRow>, row: PageRow)
    requires row in pages
    ensures row.sourceUrl.Some? ==> Candidate(row.sourceUrl.value, row.sourceHost) in PageUrls(pages)
    ensures row.canonical.Some? ==> Candidate(row.canonical.value, None) in PageUrls(pages)
  {
    var n := |pages| - 1;
    if row != pages[n] {
      assert row in pages[..n];
      PageCandidates(pages[..n], row);
    }
  }

  lemma {:induction false} LinkHostListed(links: seq<LinkRow>, c: Candidate)
    requires c in LinkUrls(links) && c.host.Some?
    ensures c.host.value in Values(LinkHosts(links))
  {
    var n := |links| - 1;
    if c in LinkUrls(links[..n]) {
      LinkHostListed(links[..n], c);
      var h :| h in LinkHosts(links[..n]) && h.value == c.host.value;
      assert h in LinkHosts(links);
    } else {
      assert Candidate(c.host.value, None) in LinkHosts(links);
    }
  }

  lemma {:induction false} PageHostListed(pages: seq<PageRow>, c: Candidate)
    requires c in PageUrls(pages) && c.host.Some?
    ensures c.host.value in Values(PageHosts(pages))
  {
    var n := |pages| - 1;
    if c in PageUrls(pages[..n]) {
      PageHostListed(pages[..n], c);
      var h :| h in PageHosts(pages[..n]) && h.value == c.host.value;
      assert h in PageHosts(pages);
    } else {
      assert Candidate(c.host.value, None) in PageHosts(pages);
    }
  }

  /** Every host a URL row may point at is in the host dictionary. */
  lemma HostListed(pages: seq<PageRow>, links: seq<LinkRow>, c: Candidate)
    requires c in UrlCandidates(pages, links) && c.host.Some?
    ensures c.host.value in Values(HostCandidates(pages, links))
  {
    if c in PageUrls(pages) {
      PageHostListed(pages, c);
      var h :| h in PageHosts(pages) && h.value == c.host.value;
      assert h in HostCandidates(pages, links);
    } else {
      LinkHostListed(links, c);
      var h :| h in LinkHosts(links) && h.value == c.host.value;
      assert h in HostCandidates(pages, links);
    }
  }

  // ---------------------------------------------------------------- what goes into the dictionaries

  lemma {:induction false} LinkUrlsHave(links: seq<LinkRow>, c: Candidate)
    ensures c in LinkUrls(links) <==>
              exists row :: row in links && ((row.sourceUrl == Some(c.value) && row.sourceHost == c.host)
                                             || (row.targetUrl == Some(c.value) && row.targetHost == c.host))
  {
    if links != [] {
      LinkUrlsHave(links[..|links| - 1], c);
      SplitLast(links);
    }
  }

  lemma {:induction false} PageUrlsHave(pages: seq<PageRow>, c: Candidate)
    ensures c in PageUrls(pages) <==>
              exists row :: row in pages && ((row.sourceUrl == Some(c.value) && row.sourceHost == c.host)
                                             || (row.canonical == Some(c.value) && c.host == None))
  {
    if pages != [] {
      PageUrlsHave(pages[..|pages| - 1], c);
      SplitLast(pages);
    }
  }

  lemma {:induction false} LinkHostsHave(links: seq<LinkRow>, host: string)
    ensures host in Values(LinkHosts(links)) <==> exists row :: row in links && (row.sourceHost == Some(host) || row.targetHost == Some(host))
  {
    if links != [] {
      var front, last := links[..|links| - 1], links[|links| - 1];
      LinkHostsHave(front, host);
      SplitLast(links);
      ValuesPlus(LinkHosts(front) + UrlOf(last.sourceHost, None), UrlOf(last.targetHost, None));
      ValuesPlus(LinkHosts(front), UrlOf(last.sourceHost, None));
    }
  }

  lemma {:induction false} PageHostsHave(pages: seq<PageRow>, host: string)
    ensures host in Values(PageHosts(pages)) <==> exists row :: row in pages && row.sourceHost == Some(host)
  {
    if pages != [] {
      var front, last := pages[..|pages| - 1], pages[|pages| - 1];
      PageHostsHave(front, host);
      SplitLast(pages);
      ValuesPlus(PageHosts(front), UrlOf(last.sourceHost, None));
    }
  }

  lemma {:induction false} AnchorsHave(links: seq<LinkRow>, anchor: string)
    ensures anchor in Values(AnchorCandidates(links)) <==> exists row :: row in links && row.anchor == Some(anchor)
  {
    if links != [] {
      var front, last := links[..|links| - 1], links[|links| - 1];
      AnchorsHave(front, anchor);
      SplitLast(links);
      ValuesPlus(AnchorCandidates(front), UrlOf(last.anchor, None));
    }
  }

  lemma ValuesPlus(a: seq<Candidate>, b: seq<Candidate>)
    ensures Values(a + b) == Values(a) + Values(b)
  {
  }

  /** Which URLs, hosts and anchors the raw rows have, and which hosts beside a URL. */
  lemma CandidatesAre(pages: seq<PageRow>, links: seq<LinkRow>, value: string, host: string)
    ensures value in Values(UrlCandidates(pages, links)) <==>
              || (exists row :: row in pages && (row.sourceUrl == Some(value) || row.canonical == Some(value)))
              || (exists row :: row in links && (row.sourceUrl == Some(value) || row.targetUrl == Some(value)))
    ensures host in HostsOf(UrlCandidates(pages, links), value) <==>
              || (exists row :: row in pages && row.sourceUrl == Some(value) && row.sourceHost == Some(host))
              || (exists row :: row in links && ((row.sourceUrl == Some(value) && row.sourceHost == Some(host))
                                                 || (row.targetUrl == Some(value) && row.targetHost == Some(host))))
    ensures host in Values(HostCandidates(pages, links)) <==>
              || (exists row :: row in pages && row.sourceHost == Some(host))
              || (exists row :: row in links && (row.sourceHost == Some(host) || row.targetHost == Some(host)))
    ensures value in Values(AnchorCandidates(links)) <==> exists row :: row in links && row.anchor == Some(value)
  {
    forall c: Candidate
      ensures c in UrlCandidates(pages, links) <==> c in PageUrls(pages) || c in LinkUrls(links)
    {
    }
    UrlsHave(pages, links, value);
    PageUrlsHave(pages, Candidate(value, Some(host)));
    LinkUrlsHave(links, Candidate(value, Some(host)));
    ValuesPlus(PageHosts(pages), LinkHosts(links));
    PageHostsHave(pages, host);
    LinkHostsHave(links, host);
    AnchorsHave(links, value);
  }

  lemma UrlsHave(pages: seq<PageRow>, links: seq<LinkRow>, value: string)
    ensures value in Values(UrlCandidates(pages, links)) <==>
              || (exists row :: row in pages && (row.sourceUrl == Some(value) || row.canonical == Some(value)))
              || (exists row :: row in links && (row.sourceUrl == Some(value) || row.targetUrl == Some(value)))
  {
    var cands := UrlCandidates(pages, links);
    if value in Values(cands) {
      var c :| c in cands && c.value == value;
      PageUrlsHave(pages, c);
      LinkUrlsHave(links, c);
    }
    forall row | row in pages
      ensures row.sourceUrl == Some(value) || row.canonical == Some(value) ==> value in Values(cands)
    {
      PageCandidates(pages, row);
      if row.sourceUrl == Some(value) {
        assert Candidate(value, row.sourceHost) in cands;
      } else if row.canonical == Some(value) {
        assert Candidate(value, None) in cands;
      }
    }
    forall row | row in links
      ensures row.sourceUrl == Some(value) || row.targetUrl == Some(value) ==> value in Values(cands)
    {
      LinkCandidates(links, row);
      if row.sourceUrl == Some(value) {
        assert Candidate(value, row.sourceHost) in cands;
      } else if row.targetUrl == Some(value) {
        assert Candidate(value, row.targetHost) in cands;
      }
    }
  }

  function IdOf(env: Env, value: Option<string>): Option<Id> {
    if value.None? then None else Some(env.id(value.value))
  }

  function EncodeEdge(env: Env, row: LinkRow): Edge {
    Edge(IdOf(env, row.sourceUrl), IdOf(env, row.targetUrl), IdOf(env, row.anchor), row.crawledAt)
  }

  function EncodePage(env: Env, row: PageRow): EncodedPage {
    EncodedPage(IdOf(env, row.sourceUrl), IdOf(env, row.canonical), row.rest)
  }

  /** SQL `crawl <> X`: not true of a NULL crawl. */
  predicate OtherCrawl(found: Option<string>, crawl: string) {
    found.Some? && found.value != crawl
  }

  ghost predicate AllThisCrawl(crawl: string, pages: seq<PageRow>, links: seq<LinkRow>) {
    && (forall row | row in pages :: !OtherCrawl(row.crawl, crawl))
    && (forall row | row in links :: !OtherCrawl(row.crawl, crawl))
  }

  /** All the checks `optimize` makes before it writes edges and pages. */
  ghost predicate Passes(env: Env, crawl: string, pages: seq<PageRow>, links: seq<LinkRow>) {
    && AllThisCrawl(crawl, pages, links)
    && Injective(env, Values(UrlCandidates(pages, links)))
    && Injective(env, Values(HostCandidates(pages, links)))
    && Injective(env, Values(AnchorCandidates(links)))
    && forall v | v in Values(UrlCandidates(pages, links)) :: |HostsOf(UrlCandidates(pages, links), v)| <= 1
  }

  ghost predicate IsEncoding(env: Env, crawl: string, pages: seq<PageRow>, links: seq<LinkRow>, e: Encoded) {
    && e.crawl == crawl
    && e.urls == Rows(env, UrlCandidates(pages, links), true)
    && e.hosts == Rows(env, HostCandidates(pages, links), false)
    && e.anchors == Rows(env, AnchorCandidates(links), false)
    && |e.edges| == |links| && (forall i: nat | i < |links| :: e.edges[i] == EncodeEdge(env, links[i]))
    && |e.pages| == |pages| && (forall i: nat | i < |pages| :: e.pages[i] == EncodePage(env, pages[i]))
  }

  lemma NoneConflicted(cands: seq<Candidate>)
    ensures Conflicted(cands) == {} <==> forall v | v in Values(cands) :: |HostsOf(cands, v)| <= 1
  {
    if Conflicted(cands) == {} {
      forall v | v in Values(cands)
        ensures |HostsOf(cands, v)| <= 1
      {
        assert v !in Conflicted(cands);
      }
    }
  }

  /** `optimize`: it succeeds exactly when every check passes. */
  method Optimize(env: Env, crawl: string, pages: seq<PageRow>, links: seq<LinkRow>, partitions: nat)
    returns (r: Result<Encoded, OptimizeError>)
    requires partitions > 0
    ensures r.Success? <==> Passes(env, crawl, pages, links)
    ensures r.Success? ==> IsEncoding(env, crawl, pages, links, r.value)
    ensures r == Failure(ForeignCrawl) <==>
              || (exists row :: row in pages && row.crawl.Some? && row.crawl.value != crawl)
              || (exists row :: row in links && row.crawl.Some? && row.crawl.value != crawl)
    ensures r.Failure? && r.error.Collision? ==>
              r.error.ids == |Colliding(env, UrlCandidates(pages, links))| + |Colliding(env, HostCandidates(pages, links))|
                             + |Colliding(env, AnchorCandidates(links))| > 0
    ensures r.Failure? && r.error.HostConflict? ==> r.error.urls == |Conflicted(UrlCandidates(pages, links))| > 0
  {
    if (exists row :: row in pages && OtherCrawl(row.crawl, crawl)) || (exists row :: row in links && OtherCrawl(row.crawl, crawl)) {
      return Failure(ForeignCrawl);
    }
    var urlCands, hostCands, anchorCands := UrlCandidates(pages, links), HostCandidates(pages, links), AnchorCandidates(links);
    var urls, urlRows, urlCollisions, conflicts := MaterializeDictionary(env, urlCands, partitions, true);
    var hosts, hostRows, hostCollisions, _ := MaterializeDictionary(env, hostCands, partitions, false);
    var anchors, anchorRows, anchorCollisions, _ := MaterializeDictionary(env, anchorCands, partitions, false);
    ChecksMeanInjective(env, urlCands);
    ChecksMeanInjective(env, hostCands);
    ChecksMeanInjective(env, anchorCands);
    NoneConflicted(urlCands);
    var collisions := urlCollisions + hostCollisions + anchorCollisions;
    if collisions != 0 {
      return Failure(Collision(collisions));
    }
    if conflicts != 0 {
      return Failure(HostConflict(conflicts));
    }
    r := Success(Encoded(
      crawl, urls, hosts, anchors,
      seq(|links|, i requires 0 <= i < |links| => EncodeEdge(env, links[i])),
      seq(|pages|, i requires 0 <= i < |pages| => EncodePage(env, pages[i]))));
  }

  // ---------------------------------------------------------------- decoding

  /** The values a LEFT JOIN on an id brings back: NULL for a NULL or unmatched id. */
  function Lookup(rows: set<Row>, id: Option<Id>): set<Option<string>> {
    var found := set r | r in rows && id == Some(r.id) :: Some(r.value);
    if found == {} then {None} else found
  }

  /** The url row's host ids, then those ids in the host dictionary. */
  function LookupHost(e: Encoded, urlId: Option<Id>): set<Option<string>> {
    var ids := set r | r in e.urls && urlId == Some(r.id) :: r.hostId;
    if ids == {} then {None} else set id, host | id in ids && host in Lookup(e.hosts, id) :: host
  }

  datatype Decoded = Decoded(sourceUrl: Option<string>, targetUrl: Option<string>, anchor: Option<string>, crawledAt: Option<string>)

  /** The rows one edge gives when joined back. */
  function Decode(e: Encoded, edge: Edge): set<Decoded> {
    set source, target, anchor
      | source in Lookup(e.urls, edge.sourceId) && target in Lookup(e.urls, edge.targetId) && anchor in Lookup(e.anchors, edge.anchorId)
      :: Decoded(source, target, anchor, edge.crawledAt)
  }

  function Kept(row: LinkRow): Decoded {
    Decoded(row.sourceUrl, row.targetUrl, row.anchor, row.crawledAt)
  }

  lemma LookupFinds(env: Env, cands: seq<Candidate>, withHost: bool, value: Option<string>)
    requires Injective(env, Values(cands)) && (value.Some? ==> value.value in Values(cands))
    ensures Lookup(Rows(env, cands, withHost), IdOf(env, value)) == {value}
  {
    var rows := Rows(env, cands, withHost);
    if value.Some? {
      var row := Row(env.id(value.value), value.value, if withHost then HostId(env, cands, value.value) else None);
      assert row in rows;
      forall r | r in rows && r.id == env.id(value.value)
        ensures r.value == value.value
      {
      }
      var found := set r | r in rows && IdOf(env, value) == Some(r.id) :: Some(r.value);
      assert value in found;
      assert found == {value};
    }
  }

  /** Joining an edge back gives exactly one row, the raw one. */
  lemma EdgeRoundTrip(env: Env, crawl: string, pages: seq<PageRow>, links: seq<LinkRow>, e: Encoded, row: LinkRow)
    requires Passes(env, crawl, pages, links) && IsEncoding(env, crawl, pages, links, e) && row in links
    ensures Decode(e, EncodeEdge(env, row)) == {Kept(row)}
  {
    LinkCandidates(links, row);
    LookupFinds(env, UrlCandidates(pages, links), true, row.sourceUrl);
    LookupFinds(env, UrlCandidates(pages, links), true, row.targetUrl);
    LookupFinds(env, AnchorCandidates(links), false, row.anchor);
    assert Kept(row) in Decode(e, EncodeEdge(env, row));
  }

  /** The same for pages: URL and canonical URL come back, NULLs included. */
  lemma PageRoundTrip(env: Env, crawl: string, pages: seq<PageRow>, links: seq<LinkRow>, e: Encoded, row: PageRow)
    requires Passes(env, crawl, pages, links) && IsEncoding(env, crawl, pages, links, e) && row in pages
    ensures Lookup(e.urls, EncodePage(env, row).urlId) == {row.sourceUrl}
    ensures Lookup(e.urls, EncodePage(env, row).canonicalId) == {row.canonical}
    ensures EncodePage(env, row).rest == row.rest
  {
    PageCandidates(pages, row);
    LookupFinds(env, UrlCandidates(pages, links), true, row.sourceUrl);
    LookupFinds(env, UrlCandidates(pages, links), true, row.canonical);
  }

  /** The rows of all edges joined back, as a multiset; the order of the edges is not kept on disk. */
  ghost function Reconstruction(e: Encoded, edges: seq<Edge>): multiset<Decoded> {
    if edges == [] then multiset{}
    else Reconstruction(e, edges[..|edges| - 1]) + multiset(Decode(e, edges[|edges| - 1]))
  }

  lemma ReconstructionStep(e: Encoded, edges: seq<Edge>, edge: Edge)
    ensures Reconstruction(e, edges + [edge]) == Reconstruction(e, edges) + multiset(Decode(e, edge))
  {
    assert (edges + [edge])[..|edges|] == edges;
  }

  /** The kept columns of the raw rows, in order. */
  function KeptAll(links: seq<LinkRow>): seq<Decoded> {
    if links == [] then [] else KeptAll(links[..|links| - 1]) + [Kept(links[|links| - 1])]
  }

  lemma KeptStep(links: seq<LinkRow>, row: LinkRow)
    ensures multiset(KeptAll(links + [row])) == multiset(KeptAll(links)) + multiset({Kept(row)})
  {
    assert (links + [row])[..|links|] == links;
    assert multiset(KeptAll(links) + [Kept(row)]) == multiset(KeptAll(links)) + multiset{Kept(row)};
  }

  lemma {:induction false} ReconstructPrefix(e: Encoded, links: seq<LinkRow>, n: nat)
    requires n <= |links| == |e.edges|
    requires forall i: nat | i < n :: Decode(e, e.edges[i]) == {Kept(links[i])}
    ensures Reconstruction(e, e.edges[..n]) == multiset(KeptAll(links[..n]))
  {
    if n > 0 {
      ReconstructPrefix(e, links, n - 1);
      TakeOne(e.edges, n - 1);
      TakeOne(links, n - 1);
      ReconstructionStep(e, e.edges[..n - 1], e.edges[n - 1]);
      KeptStep(links[..n - 1], links[n - 1]);
    }
  }

  lemma {:induction false} ReconstructionConcat(e: Encoded, a: seq<Edge>, b: seq<Edge>)
    ensures Reconstruction(e, a + b) == Reconstruction(e, a) + Reconstruction(e, b)
  {
    if b == [] {
      PlusNothing(a);
    } else {
      var front, last := b[..|b| - 1], b[|b| - 1];
      SplitLast(b);
      Associate(a, front, [last]);
      ReconstructionConcat(e, a, front);
      ReconstructionStep(e, a + front, last);
    }
  }

  lemma ReconstructionWithout(e: Encoded, edges: seq<Edge>, i: nat)
    requires i < |edges|
    ensures Reconstruction(e, edges) == Reconstruction(e, edges[..i] + edges[i + 1..]) + multiset(Decode(e, edges[i]))
  {
    TakeOne(edges, i);
    assert edges == edges[..i + 1] + edges[i + 1..];
    ReconstructionConcat(e, edges[..i + 1], edges[i + 1..]);
    ReconstructionConcat(e, edges[..i], edges[i + 1..]);
    ReconstructionStep(e, edges[..i], edges[i]);
  }

  lemma {:induction false} ReconstructionOrder(e: Encoded, a: seq<Edge>, b: seq<Edge>)
    requires multiset(a) == multiset(b)
    ensures Reconstruction(e, a) == Reconstruction(e, b)
  {
    if a == [] {
      assert |b| == |multiset(b)| == 0;
    } else {
      var n := |a| - 1;
      var i := Elsewhere(a, b);
      ReconstructionOrder(e, a[..n], b[..i] + b[i + 1..]);
      ReconstructionWithout(e, b, i);
    }
  }

  /**
   * Lossless: whenever the checks pass, joining the edges back, in whatever order they are
   * read, gives the very multiset of (source_url, target_url, anchor, crawled_at) of the raw
   * links. Nothing is assumed of the hash.
   */
  lemma Lossless(env: Env, crawl: string, pages: seq<PageRow>, links: seq<LinkRow>, e: Encoded, read: seq<Edge>)
    requires Passes(env, crawl, pages, links) && IsEncoding(env, crawl, pages, links, e)
    requires multiset(read) == multiset(e.edges)
    ensures Reconstruction(e, read) == multiset(KeptAll(links))
  {
    forall i: nat | i < |links|
      ensures Decode(e, e.edges[i]) == {Kept(links[i])}
    {
      EdgeRoundTrip(env, crawl, pages, links, e, links[i]);
    }
    ReconstructPrefix(e, links, |links|);
    TakeAll(e.edges);
    TakeAll(links);
    ReconstructionOrder(e, read, e.edges);
  }

  lemma UrlRow(env: Env, cands: seq<Candidate>, value: string)
    requires Injective(env, Values(cands)) && value in Values(cands)
    ensures (set r | r in Rows(env, cands, true) && Some(env.id(value)) == Some(r.id) :: r.hostId) == {HostId(env, cands, value)}
  {
    var row := Row(env.id(value), value, HostId(env, cands, value));
    assert row in Rows(env, cands, true);
    assert row.hostId in (set r | r in Rows(env, cands, true) && Some(env.id(value)) == Some(r.id) :: r.hostId);
  }

  /** A URL's host comes back as the one non-null host any row gave it, or NULL when no row gave one. */
  lemma HostDecoded(env: Env, crawl: string, pages: seq<PageRow>, links: seq<LinkRow>, e: Encoded, c: Candidate)
    requires LeastPicks(env) && Passes(env, crawl, pages, links) && IsEncoding(env, crawl, pages, links, e)
    requires c in UrlCandidates(pages, links)
    ensures var hosts := HostsOf(UrlCandidates(pages, links), c.value);
            if hosts == {} then LookupHost(e, Some(env.id(c.value))) == {None}
            else exists h :: hosts == {h} && LookupHost(e, Some(env.id(c.value))) == {Some(h)}
  {
    var cands := UrlCandidates(pages, links);
    UrlRow(env, cands, c.value);
    var hosts := HostsOf(cands, c.value);
    if hosts == {} {
      assert Lookup(e.hosts, None) == {None};
      assert None in LookupHost(e, Some(env.id(c.value)));
    } else {
      var h := env.least(hosts);
      var d :| d in cands && d.value == c.value && d.host == Some(h);
      NoneConflicted(cands);
      NoConflictOneHost(cands, d);
      HostListed(pages, links, d);
      LookupFinds(env, HostCandidates(pages, links), false, Some(h));
    }
  }

  /** When the host beside a URL, both as a raw row has them, can come back. */
  predicate HostSurvives(cands: seq<Candidate>, url: Option<string>, host: Option<string>) {
    if url.None? then host.None? else host.Some? || HostsOf(cands, url.value) == {}
  }

  lemma OneHostRecovered(env: Env, crawl: string, pages: seq<PageRow>, links: seq<LinkRow>, e: Encoded, url: Option<string>, host: Option<string>)
    requires LeastPicks(env) && Passes(env, crawl, pages, links) && IsEncoding(env, crawl, pages, links, e)
    requires url.Some? ==> Candidate(url.value, host) in UrlCandidates(pages, links)
    ensures LookupHost(e, IdOf(env, url)) == {host} <==> HostSurvives(UrlCandidates(pages, links), url, host)
  {
    if url.Some? {
      HostDecoded(env, crawl, pages, links, e, Candidate(url.value, host));
      if host.Some? {
        assert host.value in HostsOf(UrlCandidates(pages, links), url.value);
      }
    }
  }

  /**
   * Exactly when the raw hosts of a link survive, source and target alike: a non-null host of a
   * URL always does; a null host does when no row gives that URL a host; a host beside a NULL URL
   * is never stored.
   */
  lemma HostRecovered(env: Env, crawl: string, pages: seq<PageRow>, links: seq<LinkRow>, e: Encoded, row: LinkRow)
    requires LeastPicks(env) && Passes(env, crawl, pages, links) && IsEncoding(env, crawl, pages, links, e) && row in links
    ensures LookupHost(e, EncodeEdge(env, row).sourceId) == {row.sourceHost}
            <==> HostSurvives(UrlCandidates(pages, links), row.sourceUrl, row.sourceHost)
    ensures LookupHost(e, EncodeEdge(env, row).targetId) == {row.targetHost}
            <==> HostSurvives(UrlCandidates(pages, links), row.targetUrl, row.targetHost)
  {
    LinkCandidates(links, row);
    OneHostRecovered(env, crawl, pages, links, e, row.sourceUrl, row.sourceHost);
    OneHostRecovered(env, crawl, pages, links, e, row.targetUrl, row.targetHost);
  }

  /** The same for a page and its host. */
  lemma PageHostRecovered(env: Env, crawl: string, pages: seq<PageRow>, links: seq<LinkRow>, e: Encoded, row: PageRow)
    requires LeastPicks(env) && Passes(env, crawl, pages, links) && IsEncoding(env, crawl, pages, links, e) && row in pages
    ensures LookupHost(e, EncodePage(env, row).urlId) == {row.sourceHost}
            <==> HostSurvives(UrlCandidates(pages, links), row.sourceUrl, row.sourceHost)
  {
    PageCandidates(pages, row);
    OneHostRecovered(env, crawl, pages, links, e, row.sourceUrl, row.sourceHost);
  }

  /** The crawl column comes back exactly for the rows whose raw crawl was not NULL. */
  lemma CrawlRecovered(env: Env, crawl: string, pages: seq<PageRow>, links: seq<LinkRow>, e: Encoded, row: LinkRow)
    requires Passes(env, crawl, pages, links) && IsEncoding(env, crawl, pages, links, e) && row in links
    ensures Some(e.crawl) == row.crawl <==> row.crawl.Some?
  {
    assert !OtherCrawl(row.crawl, crawl);
  }

  /** Each of the three dictionaries has exactly the values of its raw columns, each under its own id. */
  lemma DictionariesAre(env: Env, crawl: string, pages: seq<PageRow>, links: seq<LinkRow>, e: Encoded, row: Row)
    requires IsEncoding(env, crawl, pages, links, e)
    ensures row in e.urls ==>
              && row.id == env.id(row.value)
              && ((exists page :: page in pages && (page.sourceUrl == Some(row.value) || page.canonical == Some(row.value)))
                  || (exists link :: link in links && (link.sourceUrl == Some(row.value) || link.targetUrl == Some(row.value))))
    ensures row in e.hosts <==>
              && row.id == env.id(row.value) && row.hostId == None
              && ((exists page :: page in pages && page.sourceHost == Some(row.value))
                  || (exists link :: link in links && (link.sourceHost == Some(row.value) || link.targetHost == Some(row.value))))
    ensures row in e.anchors <==>
              && row.id == env.id(row.value) && row.hostId == None
              && (exists link :: link in links && link.anchor == Some(row.value))
  {
    CandidatesAre(pages, links, row.value, row.value);
  }

  /** A page's crawl comes back exactly when it was not NULL: no page of another crawl is encoded. */
  lemma PageCrawlRecovered(env: Env, crawl: string, pages: seq<PageRow>, links: seq<LinkRow>, e: Encoded, row: PageRow)
    requires Passes(env, crawl, pages, links) && IsEncoding(env, crawl, pages, links, e) && row in pages
    ensures Some(e.crawl) == row.crawl <==> row.crawl.Some?
  {
    assert !OtherCrawl(row.crawl, crawl);
  }

  /** All columns of a page, and exactly when they come back together. */
  lemma PageRecovered(env: Env, crawl: string, pages: seq<PageRow>, links: seq<LinkRow>, e: Encoded, row: PageRow)
    requires LeastPicks(env) && Passes(env, crawl, pages, links) && IsEncoding(env, crawl, pages, links, e) && row in pages
    ensures var page := EncodePage(env, row);
            && Lookup(e.urls, page.urlId) == {row.sourceUrl} && Lookup(e.urls, page.canonicalId) == {row.canonical}
            && page.rest == row.rest && LookupHost(e, page.urlId) == {row.sourceHost} && Some(e.crawl) == row.crawl
            <==> HostSurvives(UrlCandidates(pages, links), row.sourceUrl, row.sourceHost) && row.crawl.Some?
  {
    PageRoundTrip(env, crawl, pages, links, e, row);
    PageHostRecovered(env, crawl, pages, links, e, row);
    PageCrawlRecovered(env, crawl, pages, links, e, row);
  }

  /**
   * All seven columns of a link, and exactly when they come back together: both hosts must
   * survive, and the crawl must not be NULL.
   */
  lemma LinkRecovered(env: Env, crawl: string, pages: seq<PageRow>, links: seq<LinkRow>, e: Encoded, row: LinkRow)
    requires LeastPicks(env) && Passes(env, crawl, pages, links) && IsEncoding(env, crawl, pages, links, e) && row in links
    ensures var edge, cands := EncodeEdge(env, row), UrlCandidates(pages, links);
            && Decode(e, edge) == {Kept(row)} && LookupHost(e, edge.sourceId) == {row.sourceHost}
            && LookupHost(e, edge.targetId) == {row.targetHost} && Some(e.crawl) == row.crawl
            <==> && HostSurvives(cands, row.sourceUrl, row.sourceHost) && HostSurvives(cands, row.targetUrl, row.targetHost)
                 && row.crawl.Some?
  {
    EdgeRoundTrip(env, crawl, pages, links, e, row);
    HostRecovered(env, crawl, pages, links, e, row);
    CrawlRecovered(env, crawl, pages, links, e, row);
  }
}
