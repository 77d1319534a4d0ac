/**
The serving tables of one bucket, and the per-domain documents cut from them: distinct
referring-domain counts, conservation of inbound links over all tables, and the top-N lists.
*/
module LinkServing {
  import opened Wrappers
  import opened Collections
  import opened LinkIndex

  // ---------------------------------------------------------------- sums over a relation

  ghost function SumOver(table: Table): nat
    decreases |table|
  {
    if table == map[] then 0
    else
      var k :| k in table;
      table[k] + SumOver(table - {k})
  }

  lemma {:induction false} SumPick(table: Table, k: GroupKey)
    requires k in table
    ensures SumOver(table) == table[k] + SumOver(table - {k})
    decreases |table|
  {
    var j :| j in table && SumOver(table) == table[j] + SumOver(table - {j});
    if j != k {
      SumPick(table - {j}, k);
      SumPick(table - {k}, j);
      assert table - {j} - {k} == table - {k} - {j};
    }
  }

  lemma PlusWithout(x: Table, y: Table, k: GroupKey)
    ensures Plus(x, y) - {k} == Plus(x - {k}, y - {k})
    ensures At(Plus(x, y), k) == At(x, k) + At(y, k)
  {
  }

  lemma {:induction false} SumPlus(x: Table, y: Table)
    ensures SumOver(Plus(x, y)) == SumOver(x) + SumOver(y)
    decreases |Plus(x, y)|
  {
    var all := Plus(x, y);
    if all == map[] {
      assert x.Keys <= all.Keys && y.Keys <= all.Keys;
      assert x == map[] && y == map[];
    } else {
      var k :| k in all;
      PlusWithout(x, y, k);
      SumWithout(all, k);
      SumPlus(x - {k}, y - {k});
      SumWithout(x, k);
      SumWithout(y, k);
    }
  }

  lemma SumWithout(table: Table, k: GroupKey)
    ensures SumOver(table) == At(table, k) + SumOver(table - {k})
  {
    if k in table {
      SumPick(table, k);
    } else {
      assert table - {k} == table;
    }
  }

  /** The rows of a table that belong to one target domain. */
  function Of(t: TableName, table: Table, domain: string): Table {
    map k | k in table && TargetOf(t, k) == Some(domain) :: table[k]
  }

  lemma OfPlus(t: TableName, x: Table, y: Table, domain: string)
    ensures Of(t, Plus(x, y), domain) == Plus(Of(t, x, domain), Of(t, y, domain))
  {
    var whole, parts := Of(t, Plus(x, y), domain), Plus(Of(t, x, domain), Of(t, y, domain));
    forall k
      ensures k in whole <==> k in parts
      ensures k in whole ==> whole[k] == parts[k]
    {
    }
  }

  lemma OfSlice(env: Env, t: TableName, table: Table, domain: string, b: nat)
    ensures Of(t, Slice(env, t, table, b), domain) == if DomainBucket(env, domain) == b then Of(t, table, domain) else map[]
  {
  }

  /** How many links point at a domain. */
  function Inbound(links: seq<Link>, domain: string): nat {
    if links == [] then 0
    else Inbound(links[..|links| - 1], domain) + if links[|links| - 1].targetDomain == domain then 1 else 0
  }

  lemma OneLink(t: TableName, l: Link, domain: string)
    ensures SumOver(Of(t, Direct(t, [l]), domain)) == if l.targetDomain == domain then 1 else 0
  {
    var table := Of(t, Direct(t, [l]), domain);
    assert KeysOf(t, [l]) == [KeyOf(t, l)];
    if l.targetDomain == domain {
      assert table == map[KeyOf(t, l) := 1];
      SumPick(table, KeyOf(t, l));
      assert table - {KeyOf(t, l)} == map[];
    } else {
      assert table == map[];
    }
  }

  /** Conservation: in every table the counts of a domain's rows add up to its inbound links. */
  lemma {:induction false} Conserved(t: TableName, links: seq<Link>, domain: string)
    ensures SumOver(Of(t, Direct(t, links), domain)) == Inbound(links, domain)
  {
    if links == [] {
      assert KeysOf(t, links) == [];
      assert Of(t, Direct(t, links), domain) == map[];
    } else {
      var n := |links| - 1;
      Conserved(t, links[..n], domain);
      assert links == links[..n] + [links[n]];
      DirectConcat(t, links[..n], [links[n]]);
      OfPlus(t, Direct(t, links[..n]), Direct(t, [links[n]]), domain);
      SumPlus(Of(t, Direct(t, links[..n]), domain), Of(t, Direct(t, [links[n]]), domain));
      OneLink(t, links[n], domain);
    }
  }

  // ---------------------------------------------------------------- top_pages and domain_summary

  /** A row with its link count and its number of referring domains. */
  datatype Counted = Counted(links: nat, referrers: nat)

  /** The compaction query: pages LEFT JOIN distinct referrers, counting the joined source domains. */
  function TopPagesQuery(pages: Table, referrers: Table): map<GroupKey, Counted> {
    map page | page in pages :: Counted(pages[page], |JoinedRows(referrers, page)|)
  }

  /** The compaction query: per target domain, summed counts and number of referring rows. */
  ghost function SummaryQuery(referring: Table): map<string, Counted> {
    map k | k in referring && TargetOf(ReferringDomains, k).Some? ::
      TargetOf(ReferringDomains, k).value := SummaryRow(referring, TargetOf(ReferringDomains, k).value)
  }

  ghost function SummaryRow(referring: Table, domain: string): Counted {
    Counted(SumOver(Of(ReferringDomains, referring, domain)), |Of(ReferringDomains, referring, domain)|)
  }

  /** The source domains that link to a page. */
  function PageReferrersOf(links: seq<Link>, page: GroupKey): set<string> {
    set l | l in links && KeyOf(TopPages, l) == page :: l.sourceDomain
  }

  function ReferrersOf(links: seq<Link>, domain: string): set<string> {
    set l | l in links && l.targetDomain == domain :: l.sourceDomain
  }

  function DirectTopPages(links: seq<Link>): map<GroupKey, Counted> {
    map page | page in Direct(TopPages, links) :: Counted(Direct(TopPages, links)[page], |PageReferrersOf(links, page)|)
  }

  function DirectSummary(links: seq<Link>): map<string, Counted> {
    map l | l in links :: l.targetDomain := Counted(Inbound(links, l.targetDomain), |ReferrersOf(links, l.targetDomain)|)
  }

  lemma InDirect(t: TableName, links: seq<Link>, k: GroupKey)
    ensures k in Direct(t, links) <==> exists l :: l in links && KeyOf(t, l) == k
  {
    var keys := KeysOf(t, links);
    if k in keys {
      var i: nat :| i < |keys| && keys[i] == k;
      assert links[i] in links;
    }
    forall l | l in links
      ensures KeyOf(t, l) in keys
    {
      var i: nat :| i < |links| && links[i] == l;
      assert keys[i] == KeyOf(t, l);
    }
  }

  /** The referrer rows that join with a page. */
  function JoinedRows(referrers: Table, page: GroupKey): set<GroupKey> {
    set r | r in referrers && |r| == 3 && r[..2] == page
  }

  lemma ReferrerRow(links: seq<Link>, page: GroupKey, d: string)
    requires |page| == 2
    ensures d in PageReferrersOf(links, page) <==> page + [Some(d)] in JoinedRows(Direct(PageReferrers, links), page)
  {
    var r := page + [Some(d)];
    assert r[..2] == page && r[2] == Some(d);
    InDirect(PageReferrers, links, r);
    forall l | l in links
      ensures KeyOf(PageReferrers, l) == r <==> KeyOf(TopPages, l) == page && l.sourceDomain == d
    {
      assert KeyOf(PageReferrers, l) == KeyOf(TopPages, l) + [Some(l.sourceDomain)];
    }
  }

  lemma JoinedDomain(links: seq<Link>, page: GroupKey, r: GroupKey) returns (d: string)
    requires |page| == 2 && r in JoinedRows(Direct(PageReferrers, links), page)
    ensures d in PageReferrersOf(links, page) && page + [Some(d)] == r
  {
    InDirect(PageReferrers, links, r);
    var l :| l in links && KeyOf(PageReferrers, l) == r;
    d := l.sourceDomain;
    assert r == r[..2] + [r[2]];
    assert page + [Some(d)] == r;
    ReferrerRow(links, page, d);
  }

  /** Counting joined referrer rows is counting distinct source domains. */
  lemma PageReferrerCount(links: seq<Link>, page: GroupKey)
    requires |page| == 2
    ensures |JoinedRows(Direct(PageReferrers, links), page)| == |PageReferrersOf(links, page)|
  {
    var rows, domains := JoinedRows(Direct(PageReferrers, links), page), PageReferrersOf(links, page);
    forall d: string
      ensures d in domains <==> page + [Some(d)] in rows
    {
      ReferrerRow(links, page, d);
    }
    forall r | r in rows
      ensures exists d :: d in domains && page + [Some(d)] == r
    {
      var d := JoinedDomain(links, page, r);
    }
    forall x, y | x in domains && y in domains && page + [Some(x)] == page + [Some(y)]
      ensures x == y
    {
      assert (page + [Some(x)])[2] == (page + [Some(y)])[2];
    }
    SameSize(domains, rows, (d: string) => page + [Some(d)]);
  }

  lemma TopPageAt(links: seq<Link>, page: GroupKey)
    requires page in Direct(TopPages, links)
    ensures |JoinedRows(Direct(PageReferrers, links), page)| == |PageReferrersOf(links, page)|
  {
    InDirect(TopPages, links, page);
    var l :| l in links && KeyOf(TopPages, l) == page;
    PageReferrerCount(links, page);
  }

  lemma TopPagesIsDirect(links: seq<Link>)
    ensures TopPagesQuery(Direct(TopPages, links), Direct(PageReferrers, links)) == DirectTopPages(links)
  {
    var pages, referrers := Direct(TopPages, links), Direct(PageReferrers, links);
    forall page | page in pages
      ensures TopPagesQuery(pages, referrers)[page] == DirectTopPages(links)[page]
    {
      TopPageAt(links, page);
    }
  }

  lemma ReferrerCount(links: seq<Link>, domain: string)
    ensures |Of(ReferringDomains, Direct(ReferringDomains, links), domain)| == |ReferrersOf(links, domain)|
  {
    var rows := Of(ReferringDomains, Direct(ReferringDomains, links), domain).Keys;
    var domains := ReferrersOf(links, domain);
    forall d | d in domains
      ensures [Some(domain), Some(d)] in rows
    {
      var l :| l in links && l.targetDomain == domain && l.sourceDomain == d;
      InDirect(ReferringDomains, links, KeyOf(ReferringDomains, l));
    }
    forall r | r in rows
      ensures exists d :: d in domains && [Some(domain), Some(d)] == r
    {
      InDirect(ReferringDomains, links, r);
      var l :| l in links && KeyOf(ReferringDomains, l) == r;
      assert [Some(domain), Some(l.sourceDomain)] == r;
    }
    SameSize(domains, rows, (d: string) => [Some(domain), Some(d)]);
  }

  lemma SummaryHas(referring: Table, d: string)
    ensures d in SummaryQuery(referring) <==> exists k :: k in referring && TargetOf(ReferringDomains, k) == Some(d)
    ensures d in SummaryQuery(referring) ==> SummaryQuery(referring)[d] == SummaryRow(referring, d)
  {
  }

  lemma SummaryEntry(links: seq<Link>, domain: string)
    ensures domain in DirectSummary(links) <==> exists l :: l in links && l.targetDomain == domain
    ensures domain in DirectSummary(links) ==>
              DirectSummary(links)[domain] == Counted(Inbound(links, domain), |ReferrersOf(links, domain)|)
  {
  }

  lemma SummaryKeys(links: seq<Link>, d: string)
    ensures d in SummaryQuery(Direct(ReferringDomains, links)) <==> d in DirectSummary(links)
  {
    var table := Direct(ReferringDomains, links);
    SummaryHas(table, d);
    SummaryEntry(links, d);
    if d in SummaryQuery(table) {
      var k :| k in table && TargetOf(ReferringDomains, k) == Some(d);
      InDirect(ReferringDomains, links, k);
    }
    forall l | l in links && l.targetDomain == d
      ensures d in SummaryQuery(table)
    {
      InDirect(ReferringDomains, links, KeyOf(ReferringDomains, l));
    }
  }

  lemma SummaryValue(links: seq<Link>, d: string)
    requires d in DirectSummary(links)
    ensures SummaryRow(Direct(ReferringDomains, links), d) == DirectSummary(links)[d]
  {
    SummaryEntry(links, d);
    Conserved(ReferringDomains, links, d);
    ReferrerCount(links, d);
  }

  lemma SummaryAt(links: seq<Link>, d: string)
    ensures d in SummaryQuery(Direct(ReferringDomains, links)) <==> d in DirectSummary(links)
    ensures d in DirectSummary(links) ==> SummaryQuery(Direct(ReferringDomains, links))[d] == DirectSummary(links)[d]
  {
    SummaryKeys(links, d);
    if d in DirectSummary(links) {
      SummaryHas(Direct(ReferringDomains, links), d);
      SummaryValue(links, d);
    }
  }

  lemma SummaryIsDirect(links: seq<Link>)
    ensures SummaryQuery(Direct(ReferringDomains, links)) == DirectSummary(links)
  {
    forall d
      ensures d in SummaryQuery(Direct(ReferringDomains, links)) <==> d in DirectSummary(links)
      ensures d in DirectSummary(links) ==> SummaryQuery(Direct(ReferringDomains, links))[d] == DirectSummary(links)[d]
    {
      SummaryAt(links, d);
    }
  }

  // ---------------------------------------------------------------- one bucket, compacted

  /** The six serving tables of one bucket. */
  datatype Serving = Serving(
    referringDomains: Table, anchors: Table, domainEdges: Table, brokenBacklinks: Table,
    topPages: map<GroupKey, Counted>, domainSummary: map<string, Counted>)

  /** The six compaction queries over the regrouped intermediate tables. */
  ghost function ServingOf(table: TableName -> Table): Serving {
    Serving(table(ReferringDomains), table(Anchors), table(DomainEdges), table(BrokenBacklinks),
            TopPagesQuery(table(TopPages), table(PageReferrers)), SummaryQuery(table(ReferringDomains)))
  }

  /** The serving tables of one direct query over a set of links. */
  function DirectServing(links: seq<Link>): Serving {
    Serving(Direct(ReferringDomains, links), Direct(Anchors, links), Direct(DomainEdges, links),
            Direct(BrokenBacklinks, links), DirectTopPages(links), DirectSummary(links))
  }

  function SlicePages(env: Env, pages: map<GroupKey, Counted>, b: nat): map<GroupKey, Counted> {
    map k | k in pages && TargetOf(TopPages, k).Some? && DomainBucket(env, TargetOf(TopPages, k).value) == b :: pages[k]
  }

  function SliceSummary(env: Env, rows: map<string, Counted>, b: nat): map<string, Counted> {
    map d | d in rows && DomainBucket(env, d) == b :: rows[d]
  }

  /** The rows whose target domain falls in bucket `b`, table by table. */
  function Restrict(env: Env, s: Serving, b: nat): Serving {
    Serving(Slice(env, ReferringDomains, s.referringDomains, b), Slice(env, Anchors, s.anchors, b),
            Slice(env, DomainEdges, s.domainEdges, b), Slice(env, BrokenBacklinks, s.brokenBacklinks, b),
            SlicePages(env, s.topPages, b), SliceSummary(env, s.domainSummary, b))
  }

  lemma TopPagesSlice(env: Env, pages: Table, referrers: Table, b: nat)
    ensures TopPagesQuery(Slice(env, TopPages, pages, b), Slice(env, PageReferrers, referrers, b))
            == SlicePages(env, TopPagesQuery(pages, referrers), b)
  {
    forall page | page in Slice(env, TopPages, pages, b)
      ensures JoinedRows(referrers, page) == JoinedRows(Slice(env, PageReferrers, referrers, b), page)
    {
      forall r | r in referrers && |r| == 3 && r[..2] == page
        ensures r in Slice(env, PageReferrers, referrers, b)
      {
        assert r[0] == page[0];
      }
    }
  }

  lemma SummarySlice(env: Env, referring: Table, b: nat)
    ensures SummaryQuery(Slice(env, ReferringDomains, referring, b)) == SliceSummary(env, SummaryQuery(referring), b)
  {
    var query, slice := SummaryQuery(Slice(env, ReferringDomains, referring, b)), SliceSummary(env, SummaryQuery(referring), b);
    forall d
      ensures d in query <==> d in slice
      ensures d in query ==> query[d] == slice[d]
    {
      OfSlice(env, ReferringDomains, referring, d, b);
      if d in slice {
        var k :| k in referring && TargetOf(ReferringDomains, k) == Some(d);
        assert k in Slice(env, ReferringDomains, referring, b);
      }
    }
  }

  /**
   * The theorem of the pipeline: for any dealing of the rows to tasks, in any order, the six
   * serving tables compacted for a bucket are exactly that bucket of one direct query over
   * all rows, the distinct referring-domain counts included.
   */
  lemma ServingIsDirect(env: Env, all: seq<Raw>, tasks: seq<seq<Raw>>, b: nat, views: TableName -> Table)
    requires multiset(all) == multiset(Flatten(tasks))
    requires forall t :: views(t) == SumParts(Parts(env, t, tasks, b))
    ensures ServingOf(views) == Restrict(env, DirectServing(Classified(env, all)), b)
  {
    var links := Classified(env, all);
    forall t: TableName
      ensures views(t) == Slice(env, t, Direct(t, links), b)
    {
      CompactedTable(env, t, all, tasks, b);
    }
    TopPagesSlice(env, Direct(TopPages, links), Direct(PageReferrers, links), b);
    TopPagesIsDirect(links);
    SummarySlice(env, Direct(ReferringDomains, links), b);
    SummaryIsDirect(links);
  }

  /** Every row of a direct table lies in one of the 1,024 buckets, and in no other. */
  lemma BucketsPartition(env: Env, t: TableName, links: seq<Link>, k: GroupKey)
    requires k in Direct(t, links)
    ensures exists b: nat :: b < BUCKET_COUNT && k in Slice(env, t, Direct(t, links), b)
                             && forall c: nat | k in Slice(env, t, Direct(t, links), c) :: c == b
  {
    InDirect(t, links, k);
    assert k in Slice(env, t, Direct(t, links), DomainBucket(env, TargetOf(t, k).value));
  }

  // ---------------------------------------------------------------- what the served tables hold

  /** The pages with their links and linking domains, and the domains with theirs. */
  ghost predicate PagesAre(pages: map<GroupKey, Counted>, links: seq<Link>) {
    && (forall k :: k in pages <==> exists l :: l in links && k == [Some(l.targetDomain), Some(l.targetUrl)])
    && forall domain, url | [Some(domain), Some(url)] in pages ::
         pages[[Some(domain), Some(url)]] ==
           Counted(Count(links, (l: Link) => l.targetDomain == domain && l.targetUrl == url),
                   |set l | l in links && l.targetDomain == domain && l.targetUrl == url :: l.sourceDomain|)
  }

  ghost predicate DomainsAre(summary: map<string, Counted>, links: seq<Link>) {
    && (forall domain :: domain in summary <==> exists l :: l in links && l.targetDomain == domain)
    && forall domain | domain in summary ::
         summary[domain] == Counted(Count(links, (l: Link) => l.targetDomain == domain),
                                    |set l | l in links && l.targetDomain == domain :: l.sourceDomain|)
  }

  /** The six tables serve these links: each row has some link's columns, and counts the links that have them. */
  ghost predicate Serves(s: Serving, links: seq<Link>) {
    && RowsAre(s.referringDomains, links, (l: Link) => [Some(l.targetDomain), Some(l.sourceDomain)])
    && RowsAre(s.anchors, links, (l: Link) => [Some(l.targetDomain), Some(l.anchor)])
    && RowsAre(s.domainEdges, links, (l: Link) => [Some(l.sourceDomain), Some(l.targetDomain)])
    && RowsAre(s.brokenBacklinks, links, (l: Link) => [Some(l.targetDomain), Some(l.targetUrl), Some(l.sourceDomain), l.sourceUrl])
    && PagesAre(s.topPages, links) && DomainsAre(s.domainSummary, links)
  }

  lemma {:induction false} InboundIsCount(links: seq<Link>, domain: string)
    ensures Inbound(links, domain) == Count(links, (l: Link) => l.targetDomain == domain)
  {
    if links != [] {
      InboundIsCount(links[..|links| - 1], domain);
    }
  }

  lemma PageKeys(links: seq<Link>)
    ensures forall k :: k in DirectTopPages(links) <==> exists l :: l in links && k == [Some(l.targetDomain), Some(l.targetUrl)]
  {
    forall k
      ensures k in DirectTopPages(links) <==> exists l :: l in links && k == [Some(l.targetDomain), Some(l.targetUrl)]
    {
      InDirect(TopPages, links, k);
    }
  }

  lemma PageCount(links: seq<Link>, domain: string, url: string)
    requires [Some(domain), Some(url)] in Direct(TopPages, links)
    ensures Direct(TopPages, links)[[Some(domain), Some(url)]]
            == Count(links, (l: Link) => l.targetDomain == domain && l.targetUrl == url)
  {
    var k: GroupKey := [Some(domain), Some(url)];
    KeyIn(TopPages, links, k);
    forall l: Link
      ensures KeyOf(TopPages, l) == k <==> l.targetDomain == domain && l.targetUrl == url
    {
    }
    CountSame(links, (l: Link) => KeyOf(TopPages, l) == k, (l: Link) => l.targetDomain == domain && l.targetUrl == url);
  }

  lemma DirectPagesAre(links: seq<Link>)
    ensures PagesAre(DirectTopPages(links), links)
  {
    PageKeys(links);
    forall domain, url | [Some(domain), Some(url)] in DirectTopPages(links)
      ensures DirectTopPages(links)[[Some(domain), Some(url)]] ==
                Counted(Count(links, (l: Link) => l.targetDomain == domain && l.targetUrl == url),
                        |set l | l in links && l.targetDomain == domain && l.targetUrl == url :: l.sourceDomain|)
    {
      PageCount(links, domain, url);
      SamePage(links, domain, url);
    }
  }

  lemma SamePage(links: seq<Link>, domain: string, url: string)
    ensures PageReferrersOf(links, [Some(domain), Some(url)])
            == set l | l in links && l.targetDomain == domain && l.targetUrl == url :: l.sourceDomain
  {
    forall l: Link
      ensures KeyOf(TopPages, l) == [Some(domain), Some(url)] <==> l.targetDomain == domain && l.targetUrl == url
    {
    }
  }

  lemma DirectDomainsAre(links: seq<Link>)
    ensures DomainsAre(DirectSummary(links), links)
  {
    forall domain
      ensures domain in DirectSummary(links) <==> exists l :: l in links && l.targetDomain == domain
      ensures domain in DirectSummary(links) ==>
                DirectSummary(links)[domain] == Counted(Count(links, (l: Link) => l.targetDomain == domain),
                                                        |set l | l in links && l.targetDomain == domain :: l.sourceDomain|)
    {
      SummaryEntry(links, domain);
      InboundIsCount(links, domain);
    }
  }

  lemma DirectServes(links: seq<Link>)
    ensures Serves(DirectServing(links), links)
  {
    DirectRows(links);
    DirectPagesAre(links);
    DirectDomainsAre(links);
  }

  lemma SameReferrers(env: Env, links: seq<Link>, b: nat, page: GroupKey)
    requires TargetOf(TopPages, page).Some? && DomainBucket(env, TargetOf(TopPages, page).value) == b
    ensures PageReferrersOf(links, page) == PageReferrersOf(Into(env, links, b), page)
  {
  }

  lemma IntoPageAt(env: Env, links: seq<Link>, b: nat, page: GroupKey)
    ensures var whole, into := SlicePages(env, DirectTopPages(links), b), DirectTopPages(Into(env, links, b));
            (page in whole <==> page in into) && (page in whole ==> whole[page] == into[page])
  {
    var slice := Slice(env, TopPages, Direct(TopPages, links), b);
    SliceIsDirect(env, TopPages, links, b);
    assert page in slice <==> page in Direct(TopPages, Into(env, links, b));
    if page in slice {
      SameReferrers(env, links, b, page);
    }
  }

  lemma IntoPages(env: Env, links: seq<Link>, b: nat)
    ensures SlicePages(env, DirectTopPages(links), b) == DirectTopPages(Into(env, links, b))
  {
    var whole, into := SlicePages(env, DirectTopPages(links), b), DirectTopPages(Into(env, links, b));
    forall page
      ensures page in whole <==> page in into
      ensures page in whole ==> whole[page] == into[page]
    {
      IntoPageAt(env, links, b, page);
    }
    SameMap(whole, into);
  }

  lemma IntoSummary(env: Env, links: seq<Link>, b: nat)
    ensures SliceSummary(env, DirectSummary(links), b) == DirectSummary(Into(env, links, b))
  {
    var into := Into(env, links, b);
    forall d
      ensures d in SliceSummary(env, DirectSummary(links), b) <==> d in DirectSummary(into)
      ensures d in DirectSummary(into) ==> DirectSummary(links)[d] == DirectSummary(into)[d]
    {
      SummaryEntry(links, d);
      SummaryEntry(into, d);
      if d in DirectSummary(into) {
        InboundIsCount(links, d);
        InboundIsCount(into, d);
        IntoCount(env, links, b, (l: Link) => l.targetDomain == d);
        assert ReferrersOf(links, d) == ReferrersOf(into, d);
      }
    }
  }

  /** A bucket of the direct serving tables is the direct serving of the bucket's links. */
  lemma RestrictIsDirect(env: Env, links: seq<Link>, b: nat)
    ensures Restrict(env, DirectServing(links), b) == DirectServing(Into(env, links, b))
  {
    SliceIsDirect(env, ReferringDomains, links, b);
    SliceIsDirect(env, Anchors, links, b);
    SliceIsDirect(env, DomainEdges, links, b);
    SliceIsDirect(env, BrokenBacklinks, links, b);
    IntoPages(env, links, b);
    IntoSummary(env, links, b);
  }

  /**
   * The same theorem in the links' own fields: whatever the dealing to tasks, the six tables
   * compacted for a bucket have exactly the rows of the classified links whose target domain
   * falls in the bucket, each with the number of links it stands for.
   */
  lemma ServedTables(env: Env, all: seq<Raw>, tasks: seq<seq<Raw>>, b: nat, views: TableName -> Table)
    requires multiset(all) == multiset(Flatten(tasks))
    requires forall t :: views(t) == SumParts(Parts(env, t, tasks, b))
    ensures Serves(ServingOf(views), Into(env, Classified(env, all), b))
  {
    ServingIsDirect(env, all, tasks, b, views);
    RestrictIsDirect(env, Classified(env, all), b);
    DirectServes(Into(env, Classified(env, all), b));
  }

  // ---------------------------------------------------------------- all six tables or none

  lemma PartEmpty(env: Env, t: TableName, rows: seq<Raw>, b: nat)
    ensures TaskPart(env, t, rows, b) == map[]
            <==> forall l | l in Classified(env, rows) :: DomainBucket(env, l.targetDomain) != b
  {
    JoinIsDirect(env, rows);
    var links, part := Classified(env, rows), TaskPart(env, t, rows, b);
    forall k | k in part
      ensures exists l :: l in links && DomainBucket(env, l.targetDomain) == b
    {
      InDirect(t, links, k);
    }
    forall l | l in links && DomainBucket(env, l.targetDomain) == b
      ensures KeyOf(t, l) in part
    {
      InDirect(t, links, KeyOf(t, l));
    }
    if part != map[] {
      var k :| k in part;
    }
  }

  /**
   * Once every task has published, a bucket has parts of all six tables or of none, so
   * compaction's partial-bucket error cannot fire.
   */
  lemma {:induction false} AllTablesOrNone(env: Env, t: TableName, u: TableName, tasks: seq<seq<Raw>>, b: nat)
    ensures Parts(env, t, tasks, b) == [] <==> Parts(env, u, tasks, b) == []
  {
    if tasks != [] {
      var n := |tasks| - 1;
      AllTablesOrNone(env, t, u, tasks[..n], b);
      PartEmpty(env, t, tasks[n], b);
      PartEmpty(env, u, tasks[n], b);
    }
  }

  // ---------------------------------------------------------------- conservation across the serving tables

  /** The page rows of a domain, as a relation of counts. */
  function PageLinks(pages: map<GroupKey, Counted>, domain: string): Table {
    map k | k in pages && TargetOf(TopPages, k) == Some(domain) :: pages[k].links
  }

  lemma PageLinksAre(links: seq<Link>, domain: string)
    ensures PageLinks(DirectTopPages(links), domain) == Of(TopPages, Direct(TopPages, links), domain)
  {
  }

  /** Anchors, referring domains, edges, broken candidates and pages each add up to the summary's inbound count. */
  lemma ConservedInServing(links: seq<Link>, domain: string)
    requires domain in DirectServing(links).domainSummary
    ensures var s := DirectServing(links);
            var inbound := s.domainSummary[domain].links;
            && SumOver(Of(ReferringDomains, s.referringDomains, domain)) == inbound
            && SumOver(Of(Anchors, s.anchors, domain)) == inbound
            && SumOver(Of(DomainEdges, s.domainEdges, domain)) == inbound
            && SumOver(Of(BrokenBacklinks, s.brokenBacklinks, domain)) == inbound
            && SumOver(PageLinks(s.topPages, domain)) == inbound
  {
    SummaryEntry(links, domain);
    Conserved(ReferringDomains, links, domain);
    Conserved(Anchors, links, domain);
    Conserved(DomainEdges, links, domain);
    Conserved(BrokenBacklinks, links, domain);
    Conserved(TopPages, links, domain);
    PageLinksAre(links, domain);
  }

  // ---------------------------------------------------------------- the per-domain document

  /**
   * `row_number() OVER (PARTITION BY target_domain ORDER BY score DESC)` on one domain's rows:
   * numbers 1..total, each once, higher scores first, ties in any order.
   */
  ghost predicate RowNumbers(rows: Table, rn: map<GroupKey, nat>) {
    && rn.Keys == rows.Keys
    && (forall k | k in rn :: 1 <= rn[k] <= |rows|)
    && (forall j, k | j in rn && k in rn && rn[j] == rn[k] :: j == k)
    && (forall j, k | j in rn && k in rn && rows[j] > rows[k] :: rn[j] < rn[k])
  }

  /** `list(... ORDER BY rn)` of the rows with `rn <= n`. */
  ghost predicate TopList(rn: map<GroupKey, nat>, n: int, items: seq<GroupKey>) {
    && (forall i: nat | i < |items| :: items[i] in rn && rn[items[i]] <= n)
    && (forall i: nat, j: nat | i < j < |items| :: rn[items[i]] < rn[items[j]])
    && (forall k | k in rn && rn[k] <= n :: k in items)
  }

  function UpTo(total: nat): (r: set<nat>)
    ensures |r| == total && forall x: nat :: x in r <==> 1 <= x <= total
  {
    if total == 0 then {} else UpTo(total - 1) + {total}
  }

  /** Every row number from 1 to the number of rows is taken. */
  lemma {:induction false} RowNumberTaken(rn: map<GroupKey, nat>, total: nat, i: nat)
    requires |rn| == total && 1 <= i <= total
    requires forall k | k in rn :: 1 <= rn[k] <= total
    requires forall j, k | j in rn && k in rn && rn[j] == rn[k] :: j == k
    ensures exists k :: k in rn && rn[k] == i
  {
    var used := set k | k in rn :: rn[k];
    SameSize(rn.Keys, used, (k: GroupKey) => if k in rn then rn[k] else 0);
    if i !in used {
      SubsetSize(used, UpTo(total) - {i});
    }
  }

  /** The item at place `i` of the list is the row numbered `i + 1`. */
  lemma {:induction false} ItemNumber(rows: Table, rn: map<GroupKey, nat>, n: int, items: seq<GroupKey>, i: nat)
    requires RowNumbers(rows, rn) && TopList(rn, n, items) && i < |items|
    ensures rn[items[i]] == i + 1
  {
    if i > 0 {
      ItemNumber(rows, rn, n, items, i - 1);
    }
    if rn[items[i]] != i + 1 {
      assert |rn.Keys| == |rows.Keys|;
      RowNumberTaken(rn, |rows|, i + 1);
      var k :| k in rn && rn[k] == i + 1;
      var j: nat :| j < |items| && items[j] == k;
      if j < i {
        ItemNumber(rows, rn, n, items, j);
      }
    }
  }

  /** How many of `total` rows have a number up to `n`; `--top-n` is any integer. */
  function Kept(n: int, total: nat): (r: nat)
    ensures r == 0 <==> n < 1 || total == 0
  {
    if n < 1 then 0 else if n <= total then n else total
  }

  /**
   * A top-N list has min(N, total) items, none for N below 1, scores never rise along it, and no row left out
   * scores above a row kept.
   */
  lemma TopNIsTop(rows: Table, rn: map<GroupKey, nat>, n: int, items: seq<GroupKey>)
    requires RowNumbers(rows, rn) && TopList(rn, n, items)
    ensures |items| == Kept(n, |rows|)
    ensures forall i: nat, j: nat | i < j < |items| :: rows[items[i]] >= rows[items[j]]
    ensures forall kept, left | kept in items && left in rows && left !in items :: rows[kept] >= rows[left]
  {
    assert |rn.Keys| == |rows.Keys|;
    if |items| > 0 {
      ItemNumber(rows, rn, n, items, |items| - 1);
    }
    if |items| < Kept(n, |rows|) {
      RowNumberTaken(rn, |rows|, |items| + 1);
      var k :| k in rn && rn[k] == |items| + 1;
      var j: nat :| j < |items| && items[j] == k;
      ItemNumber(rows, rn, n, items, j);
    }
  }

  /** One of the four lists of a domain document: how many rows there are, and the top ones. */
  datatype Listing = Listing(total: nat, items: seq<GroupKey>)

  /**
   * What the LEFT JOIN finds for a domain with these rows: no row of the `top_` table when none
   * is numbered up to `n`. DuckDB is free in numbering ties.
   */
  ghost predicate Joins(rows: Table, n: int, joined: Option<Listing>) {
    exists rn :: RowNumbers(rows, rn) &&
      match joined
      case None => TopList(rn, n, [])
      case Some(listing) => listing.total == |rows| && listing.items != [] && TopList(rn, n, listing.items)
  }

  /** `int(total or 0)` and `_to_list(items)`. */
  function Shown(joined: Option<Listing>): Listing {
    if joined.None? then Listing(0, []) else joined.value
  }

  ghost predicate Lists(rows: Table, n: int, listing: Listing) {
    exists joined :: Joins(rows, n, joined) && listing == Shown(joined)
  }

  /**
   * The listing shows min(n, total) of the rows, best first, and leaves out none better than one
   * it shows; its total is the number of rows, unless it shows none at all.
   */
  ghost predicate IsTop(rows: Table, n: int, listing: Listing) {
    && |listing.items| == Kept(n, |rows|)
    && listing.total == (if n < 1 then 0 else |rows|)
    && (forall i: nat | i < |listing.items| :: listing.items[i] in rows)
    && (forall i: nat, j: nat | i < j < |listing.items| ::
          listing.items[i] != listing.items[j] && rows[listing.items[i]] >= rows[listing.items[j]])
    && forall kept, left | kept in listing.items && left in rows && left !in listing.items :: rows[kept] >= rows[left]
  }

  lemma NumberedIsTop(rows: Table, rn: map<GroupKey, nat>, n: int, listing: Listing)
    requires RowNumbers(rows, rn) && TopList(rn, n, listing.items)
    requires listing.total == if listing.items == [] then 0 else |rows|
    ensures IsTop(rows, n, listing)
  {
    TopNIsTop(rows, rn, n, listing.items);
  }

  lemma ListsAreTop(rows: Table, n: int, listing: Listing)
    requires Lists(rows, n, listing)
    ensures IsTop(rows, n, listing)
  {
    var joined :| Joins(rows, n, joined) && listing == Shown(joined);
    var rn :| RowNumbers(rows, rn) && TopList(rn, n, listing.items);
    NumberedIsTop(rows, rn, n, listing);
  }

  lemma {:induction false} LowestRow(rows: Table) returns (k: GroupKey)
    requires rows != map[]
    ensures k in rows && forall j | j in rows :: rows[k] <= rows[j]
    decreases |rows|
  {
    var one :| one in rows;
    var rest := rows - {one};
    k := one;
    if rest != map[] {
      var other := LowestRow(rest);
      k := if rows[one] <= rows[other] then one else other;
    }
    forall j | j in rows
      ensures rows[k] <= rows[j]
    {
      assert j == one || j in rest;
    }
  }

  /** Every table can be numbered. */
  lemma {:induction false} NumberingExists(rows: Table) returns (rn: map<GroupKey, nat>)
    ensures RowNumbers(rows, rn)
    decreases |rows|
  {
    rn := map[];
    if rows != map[] {
      var k := LowestRow(rows);
      var rest := rows - {k};
      assert |rest| == |rows| - 1 by {
        assert rest.Keys == rows.Keys - {k};
      }
      rn := NumberingExists(rest);
      rn := rn[k := |rows|];
    }
  }

  /** And every numbering gives a list. */
  lemma {:induction false} ListExists(rows: Table, n: int) returns (listing: Listing)
    ensures Lists(rows, n, listing)
  {
    var rn := NumberingExists(rows);
    var items: seq<GroupKey> := [];
    assert |rn.Keys| == |rows.Keys|;
    while |items| < Kept(n, |rows|)
      invariant |items| <= Kept(n, |rows|)
      invariant forall i: nat | i < |items| :: items[i] in rn && rn[items[i]] == i + 1
    {
      RowNumberTaken(rn, |rows|, |items| + 1);
      var k :| k in rn && rn[k] == |items| + 1;
      items := items + [k];
    }
    forall k | k in rn && rn[k] <= n
      ensures k in items
    {
      assert rn[items[rn[k] - 1]] == rn[k];
    }
    var joined := if items == [] then None else Some(Listing(|rows|, items));
    assert Joins(rows, n, joined);
    listing := Shown(joined);
  }

  /** A domain document: the summary row beside the four joined listings. */
  datatype Document = Document(
    inbound: nat, referringCount: nat, referring: Listing, anchors: Listing, pages: Listing, broken: Listing)

  /** `d` is a document that the join can give for the domain, with lists of at most `n` items. */
  ghost predicate Documents(s: Serving, domain: string, n: int, d: Document) {
    && domain in s.domainSummary
    && d.inbound == s.domainSummary[domain].links && d.referringCount == s.domainSummary[domain].referrers
    && Lists(Of(ReferringDomains, s.referringDomains, domain), n, d.referring)
    && Lists(Of(Anchors, s.anchors, domain), n, d.anchors)
    && Lists(PageLinks(s.topPages, domain), n, d.pages)
    && Lists(Of(BrokenBacklinks, s.brokenBacklinks, domain), n, d.broken)
  }

  lemma DocumentExists(s: Serving, domain: string, n: int) returns (d: Document)
    requires domain in s.domainSummary
    ensures Documents(s, domain, n, d)
  {
    var referring := ListExists(Of(ReferringDomains, s.referringDomains, domain), n);
    var anchors := ListExists(Of(Anchors, s.anchors, domain), n);
    var pages := ListExists(PageLinks(s.topPages, domain), n);
    var broken := ListExists(Of(BrokenBacklinks, s.brokenBacklinks, domain), n);
    d := Document(s.domainSummary[domain].links, s.domainSummary[domain].referrers, referring, anchors, pages, broken);
  }

  lemma SomeRow(t: TableName, links: seq<Link>, domain: string)
    requires exists l :: l in links && l.targetDomain == domain
    ensures |Of(t, Direct(t, links), domain)| > 0
  {
    var l :| l in links && l.targetDomain == domain;
    InDirect(t, links, KeyOf(t, l));
    assert KeyOf(t, l) in Of(t, Direct(t, links), domain);
  }

  /** Cutting a domain's rows out of its own bucket or out of the whole table gives the same documents. */
  lemma DocumentInBucket(env: Env, s: Serving, b: nat, domain: string, n: int, d: Document)
    requires domain in s.domainSummary && DomainBucket(env, domain) == b
    ensures domain in Restrict(env, s, b).domainSummary
    ensures Documents(Restrict(env, s, b), domain, n, d) <==> Documents(s, domain, n, d)
  {
    OfSlice(env, ReferringDomains, s.referringDomains, domain, b);
    OfSlice(env, Anchors, s.anchors, domain, b);
    OfSlice(env, BrokenBacklinks, s.brokenBacklinks, domain, b);
    assert PageLinks(SlicePages(env, s.topPages, b), domain) == PageLinks(s.topPages, domain);
  }

  /**
   * Every document served from a bucket: the inbound count is the number of links, the summary's
   * referring count is the number of linking domains, and each list is a top list of the
   * domain's rows of one direct query over all links.
   */
  lemma DocumentAgrees(env: Env, links: seq<Link>, b: nat, domain: string, n: int, d: Document)
    requires Documents(Restrict(env, DirectServing(links), b), domain, n, d)
    ensures d.inbound == Inbound(links, domain) && d.referringCount == |ReferrersOf(links, domain)|
    ensures IsTop(Of(ReferringDomains, Direct(ReferringDomains, links), domain), n, d.referring)
    ensures IsTop(Of(Anchors, Direct(Anchors, links), domain), n, d.anchors)
    ensures IsTop(Of(TopPages, Direct(TopPages, links), domain), n, d.pages)
    ensures IsTop(Of(BrokenBacklinks, Direct(BrokenBacklinks, links), domain), n, d.broken)
  {
    DocumentInBucket(env, DirectServing(links), b, domain, n, d);
    SummaryEntry(links, domain);
    PageLinksAre(links, domain);
    ListsAreTop(Of(ReferringDomains, Direct(ReferringDomains, links), domain), n, d.referring);
    ListsAreTop(Of(Anchors, Direct(Anchors, links), domain), n, d.anchors);
    ListsAreTop(Of(TopPages, Direct(TopPages, links), domain), n, d.pages);
    ListsAreTop(Of(BrokenBacklinks, Direct(BrokenBacklinks, links), domain), n, d.broken);
  }

  /** A table with one row for each of the column values that links to the domain have, counting those links. */
  ghost predicate CountsLinksTo(table: Table, links: seq<Link>, domain: string, row: Link -> GroupKey) {
    && (forall k :: k in table <==> exists l :: l in links && l.targetDomain == domain && row(l) == k)
    && forall k | k in table :: table[k] == Count(links, (l: Link) => l.targetDomain == domain && row(l) == k)
  }

  /** The listing shows the top of that table. */
  ghost predicate ShowsTop(links: seq<Link>, domain: string, row: Link -> GroupKey, n: int, listing: Listing) {
    exists table :: CountsLinksTo(table, links, domain, row) && IsTop(table, n, listing)
  }

  lemma RowsOfDomain(t: TableName, links: seq<Link>, domain: string, row: Link -> GroupKey)
    requires forall l :: row(l) == KeyOf(t, l)
    ensures CountsLinksTo(Of(t, Direct(t, links), domain), links, domain, row)
  {
    GroupedRows(t, links, row);
    var table := Of(t, Direct(t, links), domain);
    forall k | k in table
      ensures table[k] == Count(links, (l: Link) => l.targetDomain == domain && row(l) == k)
    {
      assert forall l :: row(l) == k ==> Some(l.targetDomain) == TargetOf(t, k);
      CountSame(links, (l: Link) => row(l) == k, (l: Link) => l.targetDomain == domain && row(l) == k);
    }
  }

  lemma TopShown(t: TableName, links: seq<Link>, domain: string, row: Link -> GroupKey, n: int, listing: Listing)
    requires (forall l :: row(l) == KeyOf(t, l)) && IsTop(Of(t, Direct(t, links), domain), n, listing)
    ensures ShowsTop(links, domain, row, n, listing)
  {
    RowsOfDomain(t, links, domain, row);
  }

  lemma ShowsReferring(links: seq<Link>, domain: string, n: int, listing: Listing)
    requires IsTop(Of(ReferringDomains, Direct(ReferringDomains, links), domain), n, listing)
    ensures ShowsTop(links, domain, (l: Link) => [Some(l.targetDomain), Some(l.sourceDomain)], n, listing)
  {
    TopShown(ReferringDomains, links, domain, (l: Link) => [Some(l.targetDomain), Some(l.sourceDomain)], n, listing);
  }

  lemma ShowsAnchors(links: seq<Link>, domain: string, n: int, listing: Listing)
    requires IsTop(Of(Anchors, Direct(Anchors, links), domain), n, listing)
    ensures ShowsTop(links, domain, (l: Link) => [Some(l.targetDomain), Some(l.anchor)], n, listing)
  {
    TopShown(Anchors, links, domain, (l: Link) => [Some(l.targetDomain), Some(l.anchor)], n, listing);
  }

  lemma ShowsPages(links: seq<Link>, domain: string, n: int, listing: Listing)
    requires IsTop(Of(TopPages, Direct(TopPages, links), domain), n, listing)
    ensures ShowsTop(links, domain, (l: Link) => [Some(l.targetDomain), Some(l.targetUrl)], n, listing)
  {
    TopShown(TopPages, links, domain, (l: Link) => [Some(l.targetDomain), Some(l.targetUrl)], n, listing);
  }

  lemma ShowsBroken(links: seq<Link>, domain: string, n: int, listing: Listing)
    requires IsTop(Of(BrokenBacklinks, Direct(BrokenBacklinks, links), domain), n, listing)
    ensures ShowsTop(links, domain, (l: Link) => [Some(l.targetDomain), Some(l.targetUrl), Some(l.sourceDomain), l.sourceUrl], n, listing)
  {
    TopShown(BrokenBacklinks, links, domain, (l: Link) => [Some(l.targetDomain), Some(l.targetUrl), Some(l.sourceDomain), l.sourceUrl], n, listing);
  }

  /**
   * The same document in the links' own fields: the inbound and referring counts, and the four
   * lists, of linking domains, anchor texts, target pages, and target page with linking page.
   */
  lemma DocumentShows(env: Env, links: seq<Link>, b: nat, domain: string, n: int, d: Document)
    requires Documents(Restrict(env, DirectServing(links), b), domain, n, d)
    ensures d.inbound == Count(links, (l: Link) => l.targetDomain == domain)
    ensures d.referringCount == |ReferrersOf(links, domain)|
    ensures ShowsTop(links, domain, (l: Link) => [Some(l.targetDomain), Some(l.sourceDomain)], n, d.referring)
    ensures ShowsTop(links, domain, (l: Link) => [Some(l.targetDomain), Some(l.anchor)], n, d.anchors)
    ensures ShowsTop(links, domain, (l: Link) => [Some(l.targetDomain), Some(l.targetUrl)], n, d.pages)
    ensures ShowsTop(links, domain, (l: Link) => [Some(l.targetDomain), Some(l.targetUrl), Some(l.sourceDomain), l.sourceUrl],
                     n, d.broken)
  {
    DocumentAgrees(env, links, b, domain, n, d);
    InboundIsCount(links, domain);
    ShowsReferring(links, domain, n, d.referring);
    ShowsAnchors(links, domain, n, d.anchors);
    ShowsPages(links, domain, n, d.pages);
    ShowsBroken(links, domain, n, d.broken);
  }

  /**
   * The referring-domain total of a document is its summary's referring count exactly when
   * `--top-n` is at least 1, and so it is with each of the four LEFT JOINs finding a row.
   */
  lemma TotalsAgreeWhen(env: Env, links: seq<Link>, b: nat, domain: string, n: int, d: Document)
    requires Documents(Restrict(env, DirectServing(links), b), domain, n, d)
    ensures d.referring.total == d.referringCount <==> n >= 1
    ensures d.referring.total > 0 <==> n >= 1
    ensures d.anchors.total > 0 <==> n >= 1
    ensures d.pages.total > 0 <==> n >= 1
    ensures d.broken.total > 0 <==> n >= 1
  {
    DocumentAgrees(env, links, b, domain, n, d);
    DocumentInBucket(env, DirectServing(links), b, domain, n, d);
    SummaryEntry(links, domain);
    ReferrerCount(links, domain);
    SomeRow(ReferringDomains, links, domain);
    SomeRow(Anchors, links, domain);
    SomeRow(TopPages, links, domain);
    SomeRow(BrokenBacklinks, links, domain);
  }

  /**
   * With `--top-n 0` every linked domain gets a document of four empty lists with total 0, beside
   * a referring count that is not 0; there is such a document.
   */
  lemma NothingListedAtZero(env: Env, links: seq<Link>, domain: string) returns (d: Document)
    requires exists l :: l in links && l.targetDomain == domain
    ensures Documents(Restrict(env, DirectServing(links), DomainBucket(env, domain)), domain, 0, d)
    ensures d.referring == d.anchors == d.pages == d.broken == Listing(0, []) && d.referringCount > 0
  {
    SummaryEntry(links, domain);
    var s := Restrict(env, DirectServing(links), DomainBucket(env, domain));
    d := DocumentExists(s, domain, 0);
    DocumentAgrees(env, links, DomainBucket(env, domain), domain, 0, d);
    TotalsAgreeWhen(env, links, DomainBucket(env, domain), domain, 0, d);
  }
}
