/**
Turning one WAT into a Pages and a Links file: a batching writer per file, and a retry loop
that starts every attempt from nothing.
*/
module WriteOne {
  import opened Wrappers

  const MAX_ATTEMPTS := 8

  // ---------------------------------------------------------------- the batching writer

  /** `BufferedParquetWriter`: rows wait in `rows` and go to the file a batch at a time. */
  class BufferedWriter<R> {
    const batchSize: int
    var rows: seq<R>
    var file: seq<R>

    constructor (batchSize: int)
      ensures Valid() && Contents() == [] && this.batchSize == batchSize
    {
      this.batchSize, this.rows, this.file := batchSize, [], [];
    }

    /** The buffer never holds a full batch between calls. */
    ghost predicate Valid()
      reads this
    {
      rows == [] || |rows| < batchSize
    }

    /** Every row added so far, in order. */
    function Contents(): seq<R>
      reads this
    {
      file + rows
    }

    method Flush()
      modifies this
      ensures rows == [] && Contents() == old(Contents()) && file == old(Contents())
    {
      if rows != [] {
        file := file + rows;
        rows := [];
      }
    }

    method Add(row: R)
      requires Valid()
      modifies this
      ensures Valid() && Contents() == old(Contents()) + [row]
      ensures batchSize >= 1 ==> |rows| < batchSize
      ensures if |old(rows)| + 1 < batchSize then file == old(file) else rows == []
    {
      rows := rows + [row];
      if |rows| >= batchSize {
        Flush();
      }
    }
  }

  // ---------------------------------------------------------------- one pass over the source

  datatype Event<P, L> = Page(page: P) | Link(link: L)

  /** Where a pass can raise: while rows arrive, closing a writer, or moving a file into place. */
  datatype Stage = WhileReading | ClosingPages | ClosingLinks | MovingPages | MovingLinks

  /** `telemetry` is what the source had to report when the pass failed, if anything. */
  datatype Failure = Failure(stage: Stage, retryable: bool, telemetry: Option<string>)

  /** One attempt: the rows the source gave, and how it failed, if it did. */
  datatype Pass<P, L> = Pass(events: seq<Event<P, L>>, failure: Option<Failure>)

  function PagesOf<P, L>(events: seq<Event<P, L>>): seq<P> {
    if events == [] then []
    else
      var last := events[|events| - 1];
      PagesOf(events[..|events| - 1]) + if last.Page? then [last.page] else []
  }

  function LinksOf<P, L>(events: seq<Event<P, L>>): seq<L> {
    if events == [] then []
    else
      var last := events[|events| - 1];
      LinksOf(events[..|events| - 1]) + if last.Link? then [last.link] else []
  }

  /** The four files of one source: the two in place and the two under way. */
  class Directory<P, L> {
    var pages: Option<seq<P>>
    var links: Option<seq<L>>
    var pagesTmp: Option<seq<P>>
    var linksTmp: Option<seq<L>>

    constructor (pages: Option<seq<P>>, links: Option<seq<L>>, pagesTmp: Option<seq<P>>, linksTmp: Option<seq<L>>)
      ensures this.pages == pages && this.links == links && this.pagesTmp == pagesTmp && this.linksTmp == linksTmp
    {
      this.pages, this.links, this.pagesTmp, this.linksTmp := pages, links, pagesTmp, linksTmp;
    }
  }

  /** `metrics` of one attempt. */
  datatype Counters = Counters(pagesEmitted: nat, linksEmitted: nat)

  /** The inner loop of an attempt: every row goes to its writer, every row is counted. */
  method ReadRows<P, L>(events: seq<Event<P, L>>, pages: BufferedWriter<P>, links: BufferedWriter<L>) returns (metrics: Counters)
    requires pages.Valid() && links.Valid() && pages.Contents() == [] && links.Contents() == []
    requires {pages as object} !! {links as object}
    modifies pages, links
    ensures pages.Valid() && links.Valid()
    ensures pages.Contents() == PagesOf(events) && links.Contents() == LinksOf(events)
    ensures metrics == Counters(|PagesOf(events)|, |LinksOf(events)|)
  {
    metrics := Counters(0, 0);
    for i := 0 to |events|
      invariant pages.Valid() && links.Valid()
      invariant pages.Contents() == PagesOf(events[..i]) && links.Contents() == LinksOf(events[..i])
      invariant metrics == Counters(|PagesOf(events[..i])|, |LinksOf(events[..i])|)
    {
      assert events[..i + 1][..i] == events[..i];
      match events[i]
      case Page(page) =>
        pages.Add(page);
        metrics := metrics.(pagesEmitted := metrics.pagesEmitted + 1);
      case Link(link) =>
        links.Add(link);
        metrics := metrics.(linksEmitted := metrics.linksEmitted + 1);
    }
    assert events[..|events|] == events;
  }

  /** Does the pass raise at this stage? */
  predicate RaisesAt<P, L>(pass: Pass<P, L>, stage: Stage) {
    pass.failure.Some? && pass.failure.value.stage == stage
  }

  /** The body of one attempt and its handler: a clean pass leaves both files, a failed one no temporary. */
  method Attempt<P, L>(pass: Pass<P, L>, batchSize: int, dir: Directory<P, L>) returns (r: Result<Counters, Failure>)
    modifies dir
    ensures dir.pagesTmp == None && dir.linksTmp == None
    ensures pass.failure.None? ==>
              && r == Success(Counters(|PagesOf(pass.events)|, |LinksOf(pass.events)|))
              && dir.pages == Some(PagesOf(pass.events)) && dir.links == Some(LinksOf(pass.events))
    ensures pass.failure.Some? ==> r == Result.Failure(pass.failure.value) && dir.links == old(dir.links)
    ensures pass.failure.Some? ==>
              dir.pages == if pass.failure.value.stage == MovingLinks then Some(PagesOf(pass.events)) else old(dir.pages)
  {
    var pages := new BufferedWriter<P>(batchSize);
    var links := new BufferedWriter<L>(batchSize);
    var metrics := ReadRows(pass.events, pages, links);
    if !RaisesAt(pass, WhileReading) && !RaisesAt(pass, ClosingPages) {
      pages.Flush();
      dir.pagesTmp := Some(pages.file);
      if !RaisesAt(pass, ClosingLinks) {
        links.Flush();
        dir.linksTmp := Some(links.file);
        if !RaisesAt(pass, MovingPages) {
          dir.pages, dir.pagesTmp := dir.pagesTmp, None;
          if !RaisesAt(pass, MovingLinks) {
            dir.links, dir.linksTmp := dir.linksTmp, None;
            return Success(metrics);
          }
        }
      }
    }
    dir.pagesTmp, dir.linksTmp := None, None;
    r := Result.Failure(pass.failure.value);
  }

  // ---------------------------------------------------------------- the retry loop

  datatype WriteError = BadBudget | Raised(attempts: nat)

  datatype Report = Report(metrics: Counters, attempts: nat, retries: nat, priorAttempts: seq<string>)

  /** The first `n` attempts all failed in a way worth retrying. */
  ghost predicate AllRetried<P, L>(passes: nat -> Pass<P, L>, n: nat) {
    forall i: nat | i < n :: passes(i).failure.Some? && passes(i).failure.value.retryable
  }

  /** Attempt `k` is the first that raises nothing, after retryable failures only. */
  ghost predicate Clean<P, L>(passes: nat -> Pass<P, L>, k: nat) {
    AllRetried(passes, k) && passes(k).failure.None?
  }

  /** The attempt the loop stops at, `n`, succeeds exactly when some attempt within the budget is clean. */
  lemma StopsCleanExactlyWhen<P, L>(passes: nat -> Pass<P, L>, maxAttempts: nat, n: nat)
    requires n < maxAttempts && AllRetried(passes, n)
    requires passes(n).failure.Some? ==> n == maxAttempts - 1 || !passes(n).failure.value.retryable
    ensures passes(n).failure.None? <==> exists k: nat :: k < maxAttempts && Clean(passes, k)
  {
    forall k: nat | k < maxAttempts && Clean(passes, k)
      ensures passes(n).failure.None?
    {
    }
    assert passes(n).failure.None? ==> Clean(passes, n);
  }

  /** What the first `n` attempts had to report, in order. */
  function Reported<P, L>(passes: nat -> Pass<P, L>, n: nat): (r: seq<string>)
    ensures |r| <= n
  {
    if n == 0 then []
    else
      var failure := passes(n - 1).failure;
      Reported(passes, n - 1) + if failure.Some? && failure.value.telemetry.Some? then [failure.value.telemetry.value] else []
  }

  /**
   * `_write_one` up to the metrics file. On success the two files hold exactly the rows of one
   * complete pass, the counters are their lengths, and every earlier attempt was a retryable
   * failure; the number of attempts never exceeds the budget.
   */
  method WriteOne<P, L>(passes: nat -> Pass<P, L>, batchSize: int, maxAttempts: int, dir: Directory<P, L>)
    returns (r: Result<Report, WriteError>)
    modifies dir
    ensures r == Result.Failure(BadBudget) <==> maxAttempts < 1 || maxAttempts > MAX_ATTEMPTS
    ensures r == Result.Failure(BadBudget) ==>
              dir.pages == old(dir.pages) && dir.links == old(dir.links)
              && dir.pagesTmp == old(dir.pagesTmp) && dir.linksTmp == old(dir.linksTmp)
    ensures r.Success? ==>
              var n := r.value.attempts;
              && 1 <= n <= maxAttempts && AllRetried(passes, n - 1) && passes(n - 1).failure.None?
              && dir.pages == Some(PagesOf(passes(n - 1).events)) && dir.links == Some(LinksOf(passes(n - 1).events))
              && r.value.metrics == Counters(|dir.pages.value|, |dir.links.value|)
              && r.value.retries == n - 1 && r.value.priorAttempts == Reported(passes, n - 1)
    ensures 1 <= maxAttempts <= MAX_ATTEMPTS ==> (r.Success? <==> exists k: nat :: k < maxAttempts && Clean(passes, k))
    ensures r.Success? || r.error.Raised? ==> dir.pagesTmp == None && dir.linksTmp == None
    ensures r.Failure? && r.error.Raised? ==>
              var n := r.error.attempts;
              && 1 <= n <= maxAttempts && AllRetried(passes, n - 1) && passes(n - 1).failure.Some?
              && (n == maxAttempts || !passes(n - 1).failure.value.retryable)
              && dir.links == old(dir.links)
  {
    if maxAttempts < 1 || maxAttempts > MAX_ATTEMPTS {
      return Result.Failure(BadBudget);
    }
    dir.pagesTmp, dir.linksTmp := None, None;
    var history: seq<string> := [];
    for attempt := 0 to maxAttempts
      invariant AllRetried(passes, attempt) && history == Reported(passes, attempt)
      invariant dir.pagesTmp == None && dir.linksTmp == None && dir.links == old(dir.links)
      invariant attempt < maxAttempts || maxAttempts == 0
    {
      var outcome := Attempt(passes(attempt), batchSize, dir);
      if outcome.Success? {
        StopsCleanExactlyWhen(passes, maxAttempts, attempt);
        return Success(Report(outcome.value, attempt + 1, attempt, history));
      }
      if outcome.error.telemetry.Some? {
        history := history + [outcome.error.telemetry.value];
      }
      if !outcome.error.retryable || attempt == maxAttempts - 1 {
        StopsCleanExactlyWhen(passes, maxAttempts, attempt);
        return Result.Failure(Raised(attempt + 1));
      }
    }
    assert false;
  }
}
