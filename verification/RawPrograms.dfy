/**
`run_shard` of the raw ingest as a program of store requests. Any number of its workers on one
shard are a run of the publication machine.
*/
module RawPrograms {
  import opened Wrappers
  import opened Collections
  import opened Publication
  import opened Programs
  import opened RawShard

  /** The reports so far by source, the sources still to process, and the uploads counted. */
  datatype State =
    | Opening
    | Recovering(reports: map<string, Body>, pending: seq<string>, next: nat)
    | Checking(reports: map<string, Body>, pending: seq<string>, next: nat, report: Body, look: nat)
    | Working(recovered: nat, reports: map<string, Body>, pending: seq<string>, next: nat, part: nat, uploads: Uploads)
    | Closing(summary: Body)
    | Marking(summary: Body)
    | Finished
    | Failed

  function PartOf(p: Protocol, source: string, parsed: Parsed, part: nat): (Key, Body)
    requires part < 3
  {
    if part == 0 then (Artifact(Pages, source), Blob(parsed.pages))
    else if part == 1 then (Artifact(Links, source), Blob(parsed.links))
    else (Artifact(Metrics, source), MetricsBody(p, source, parsed))
  }

  /** The request made in a state. A pending source is uploaded in three parts, then read back. */
  function ActionIn(p: Protocol, c: Contract, a: Attempt, st: State): Action {
    match st
    case Opening => Upload(INPUT_MANIFEST, ManifestBody(c, a))
    case Recovering(_, _, next) => if next < |c.inputs| then Read(Artifact(Metrics, c.inputs[next])) else Stop
    case Checking(_, _, _, report, look) =>
      if report.Document? && look < |report.artifacts| then Read(report.artifacts[look].ref.key) else Stop
    case Working(_, _, pending, next, part, _) =>
      if next >= |pending| || pending[next] !in a.parsed then Stop
      else if part < 3 then
        var (key, body) := PartOf(p, pending[next], a.parsed[pending[next]], part);
        Upload(key, body)
      else if part == 3 then Read(Artifact(Metrics, pending[next]))
      else if part == 4 then Read(Artifact(Pages, pending[next]))
      else Read(Artifact(Links, pending[next]))
    case Closing(summary) => Upload(RUN_SUMMARY, summary)
    case Marking(summary) => Upload(RAW_COMPLETED, CompletionBody(c, a, RefTo(p, RUN_SUMMARY, summary)))
    case _ => Stop
  }

  /** After the last recovered source, and after each processed one. */
  function WorkOn(c: Contract, a: Attempt, recovered: nat, reports: map<string, Body>, pending: seq<string>, next: nat, uploads: Uploads): State {
    if next < |pending| then Working(recovered, reports, pending, next, 0, uploads)
    else if ToSet(c.inputs) <= reports.Keys then
      Closing(SummaryBody(c, a, recovered, |pending|, uploads, Ordered(c.inputs, reports)))
    else Failed
  }

  function RecoverOn(c: Contract, a: Attempt, reports: map<string, Body>, pending: seq<string>, next: nat): State {
    if next < |c.inputs| then Recovering(reports, pending, next)
    else WorkOn(c, a, |reports|, reports, pending, 0, Uploads(0, 0))
  }

  predicate Looks(p: Protocol, event: Event, recorded: Ref) {
    && event.Saw? && event.found.Some?
    && p.size(event.found.value.body) == recorded.bytes && event.found.value.sha == recorded.sha
  }

  /** The state after an answer. */
  function Advance(p: Protocol, c: Contract, a: Attempt, st: State, event: Event): State {
    match st
    case Opening => RecoverOn(c, a, map[], [], 0)
    case Recovering(reports, pending, next) =>
      if next >= |c.inputs| || !event.Saw? then Failed
      else if event.found.None? then RecoverOn(c, a, reports, pending + [c.inputs[next]], next + 1)
      else if MetricsFor(c.inputs[next], event.found.value.body) then Checking(reports, pending, next, event.found.value.body, 0)
      else Failed
    case Checking(reports, pending, next, report, look) =>
      if next >= |c.inputs| || !report.Document? || look >= |report.artifacts| || !Looks(p, event, report.artifacts[look].ref) then Failed
      else if look + 1 < |report.artifacts| then Checking(reports, pending, next, report, look + 1)
      else RecoverOn(c, a, reports[c.inputs[next] := report], pending, next + 1)
    case Working(recovered, reports, pending, next, part, uploads) =>
      if next >= |pending| || pending[next] !in a.parsed then Failed
      else
        var parsed := a.parsed[pending[next]];
        if part < 3 then
          if !event.Uploaded? then Failed
          else
            Working(recovered, reports, pending, next, part + 1,
                    if event.reused then Uploads(uploads.uploaded, uploads.reused + 1) else Uploads(uploads.uploaded + 1, uploads.reused))
        else
          var (key, body) := PartOf(p, pending[next], parsed, if part == 3 then 2 else if part == 4 then 0 else 1);
          if !Looks(p, event, RefTo(p, key, body)) then Failed
          else if part < 5 then Working(recovered, reports, pending, next, part + 1, uploads)
          else WorkOn(c, a, recovered, reports[pending[next] := MetricsBody(p, pending[next], parsed)], pending, next + 1, uploads)
    case Closing(summary) => Marking(summary)
    case Marking(_) => Finished
    case _ => st
  }

  function StateAfter(p: Protocol, c: Contract, a: Attempt, log: Log): State {
    if log == [] then Opening else Advance(p, c, a, StateAfter(p, c, a, log[..|log| - 1]), log[|log| - 1])
  }

  function ShardProgram(p: Protocol, c: Contract, a: Attempt): Program {
    log => ActionIn(p, c, a, StateAfter(p, c, a, log))
  }

  // ---------------------------------------------------------------- discipline

  /** Every source before `next` is either recovered or pending. */
  ghost predicate Gathered(p: Protocol, c: Contract, store: Store, reports: map<string, Body>, pending: seq<string>, next: nat) {
    && INPUT_MANIFEST in store && next <= |c.inputs| && AllRecovered(p, store, reports)
    && ToSet(c.inputs[..next]) <= reports.Keys + ToSet(pending) <= ToSet(c.inputs)
  }

  /** Every source is reported or still to come; the parts of the next one so far are in place. */
  ghost predicate AtWork(p: Protocol, c: Contract, a: Attempt, store: Store, reports: map<string, Body>, pending: seq<string>, next: nat, part: nat) {
    && INPUT_MANIFEST in store && next < |pending| && AllRecovered(p, store, reports)
    && ToSet(c.inputs) == reports.Keys + ToSet(pending[next..])
    && (pending[next] in a.parsed ==> PartsThere(p, store, pending[next], a.parsed[pending[next]], part))
  }

  predicate PartsThere(p: Protocol, store: Store, source: string, parsed: Parsed, part: nat) {
    && (part > 0 ==> Present(p, store, RefTo(p, Artifact(Pages, source), Blob(parsed.pages))))
    && (part > 1 ==> Present(p, store, RefTo(p, Artifact(Links, source), Blob(parsed.links))))
    && (part > 2 ==> Present(p, store, RefTo(p, Artifact(Metrics, source), MetricsBody(p, source, parsed))))
  }

  /** What a state knows of the store that has given all its answers. */
  ghost predicate StateOk(p: Protocol, c: Contract, a: Attempt, store: Store, st: State) {
    match st
    case Opening => true
    case Recovering(reports, pending, next) => Gathered(p, c, store, reports, pending, next)
    case Checking(reports, pending, next, report, _) =>
      Gathered(p, c, store, reports, pending, next) && next < |c.inputs| && Recovered(p, store, c.inputs[next], report)
    case Working(_, reports, pending, next, part, _) => AtWork(p, c, a, store, reports, pending, next, part)
    case Closing(summary) => summary.Document? && Supported(p, store, RUN_SUMMARY, summary)
    case Marking(summary) =>
      summary.Document? && Supported(p, store, RUN_SUMMARY, summary) && Present(p, store, RefTo(p, RUN_SUMMARY, summary))
    case _ => true
  }

  lemma WorkOnOk(p: Protocol, c: Contract, a: Attempt, store: Store, recovered: nat, reports: map<string, Body>,
                 pending: seq<string>, next: nat, uploads: Uploads)
    requires ForShard(p, c.inputs) && INPUT_MANIFEST in store && next <= |pending|
    requires AllRecovered(p, store, reports) && ToSet(c.inputs) == reports.Keys + ToSet(pending[next..])
    ensures StateOk(p, c, a, store, WorkOn(c, a, recovered, reports, pending, next, uploads))
  {
    if next == |pending| {
      assert Complete(p, store, c.inputs, reports);
      var summary := SummaryBody(c, a, recovered, |pending|, uploads, Ordered(c.inputs, reports));
      SummarySupported(p, store, c, reports, summary);
    }
  }

  lemma RecoverOnOk(p: Protocol, c: Contract, a: Attempt, store: Store, reports: map<string, Body>, pending: seq<string>, next: nat)
    requires ForShard(p, c.inputs) && Gathered(p, c, store, reports, pending, next)
    ensures StateOk(p, c, a, store, RecoverOn(c, a, reports, pending, next))
  {
    if next == |c.inputs| {
      assert c.inputs[..next] == c.inputs;
      assert pending[0..] == pending;
      WorkOnOk(p, c, a, store, |reports|, reports, pending, 0, Uploads(0, 0));
    }
  }

  lemma TakeSet(inputs: seq<string>, next: nat)
    requires next < |inputs|
    ensures ToSet(inputs[..next + 1]) == ToSet(inputs[..next]) + {inputs[next]} <= ToSet(inputs)
  {
    assert inputs[..next + 1] == inputs[..next] + [inputs[next]];
  }

  lemma OneMoreReport(p: Protocol, store: Store, reports: map<string, Body>, source: string, report: Body)
    requires AllRecovered(p, store, reports) && Recovered(p, store, source, report)
    ensures AllRecovered(p, store, reports[source := report]) && reports[source := report].Keys == reports.Keys + {source}
  {
  }

  lemma OnePending(p: Protocol, c: Contract, store: Store, reports: map<string, Body>, pending: seq<string>, next: nat)
    requires Gathered(p, c, store, reports, pending, next) && next < |c.inputs|
    ensures Gathered(p, c, store, reports, pending + [c.inputs[next]], next + 1)
  {
    TakeSet(c.inputs, next);
    assert ToSet(pending + [c.inputs[next]]) == ToSet(pending) + {c.inputs[next]};
  }

  lemma OneRecovered(p: Protocol, c: Contract, store: Store, reports: map<string, Body>, pending: seq<string>, next: nat, report: Body)
    requires Gathered(p, c, store, reports, pending, next) && next < |c.inputs| && Recovered(p, store, c.inputs[next], report)
    ensures Gathered(p, c, store, reports[c.inputs[next] := report], pending, next + 1)
  {
    TakeSet(c.inputs, next);
    OneMoreReport(p, store, reports, c.inputs[next], report);
  }

  lemma RecoveringOk(p: Protocol, c: Contract, a: Attempt, store: Store, st: State, event: Event)
    requires Closed(p, store) && ForShard(p, c.inputs) && StateOk(p, c, a, store, st) && st.Recovering?
    requires Answers(ActionIn(p, c, a, st), event) && Witnessed(p, store, [event])
    ensures StateOk(p, c, a, store, Advance(p, c, a, st, event))
  {
    assert event in [event];
    if event.found.None? {
      OnePending(p, c, store, st.reports, st.pending, st.next);
      RecoverOnOk(p, c, a, store, st.reports, st.pending + [c.inputs[st.next]], st.next + 1);
    } else {
      StoredMetrics(p, store, c.inputs, c.inputs[st.next]);
    }
  }

  lemma CheckingOk(p: Protocol, c: Contract, a: Attempt, store: Store, st: State, event: Event)
    requires ForShard(p, c.inputs) && StateOk(p, c, a, store, st) && st.Checking?
    ensures StateOk(p, c, a, store, Advance(p, c, a, st, event))
  {
    var later := Advance(p, c, a, st, event);
    if later != Failed {
      if st.look + 1 < |st.report.artifacts| {
        assert later == Checking(st.reports, st.pending, st.next, st.report, st.look + 1);
      } else {
        var reports := st.reports[c.inputs[st.next] := st.report];
        OneRecovered(p, c, store, st.reports, st.pending, st.next, st.report);
        RecoverOnOk(p, c, a, store, reports, st.pending, st.next + 1);
        assert later == RecoverOn(c, a, reports, st.pending, st.next + 1);
      }
    }
  }

  /** The last source read back: its report is in, the next one is due. */
  lemma OneProcessed(p: Protocol, c: Contract, a: Attempt, store: Store, st: State)
    requires ForShard(p, c.inputs) && StateOk(p, c, a, store, st) && st.Working?
    requires st.pending[st.next] in a.parsed && st.part >= 3
    ensures var source := st.pending[st.next];
            var reports := st.reports[source := MetricsBody(p, source, a.parsed[source])];
            StateOk(p, c, a, store, WorkOn(c, a, st.recovered, reports, st.pending, st.next + 1, st.uploads))
  {
    var source := st.pending[st.next];
    var parsed := a.parsed[source];
    OwnMetrics(p, store, source, parsed);
    OneMoreReport(p, store, st.reports, source, MetricsBody(p, source, parsed));
    assert st.pending[st.next..] == [source] + st.pending[st.next + 1..];
    WorkOnOk(p, c, a, store, st.recovered, st.reports[source := MetricsBody(p, source, parsed)], st.pending, st.next + 1, st.uploads);
  }

  lemma PartDone(p: Protocol, store: Store, source: string, parsed: Parsed, part: nat)
    requires part < 3 && PartsThere(p, store, source, parsed, part)
    requires var (key, body) := PartOf(p, source, parsed, part); Present(p, store, RefTo(p, key, body))
    ensures PartsThere(p, store, source, parsed, part + 1)
  {
  }

  lemma WorkingOk(p: Protocol, c: Contract, a: Attempt, store: Store, st: State, event: Event)
    requires ForShard(p, c.inputs) && StateOk(p, c, a, store, st) && st.Working?
    requires Answers(ActionIn(p, c, a, st), event) && Witnessed(p, store, [event])
    ensures StateOk(p, c, a, store, Advance(p, c, a, st, event))
  {
    assert event in [event];
    var source := st.pending[st.next];
    if source in a.parsed {
      if st.part < 3 {
        PartDone(p, store, source, a.parsed[source], st.part);
      } else if st.part >= 5 {
        OneProcessed(p, c, a, store, st);
      }
    }
  }

  lemma StepOk(p: Protocol, c: Contract, a: Attempt, store: Store, st: State, event: Event)
    requires Closed(p, store) && ForShard(p, c.inputs) && StateOk(p, c, a, store, st)
    requires Answers(ActionIn(p, c, a, st), event) && Witnessed(p, store, [event])
    ensures StateOk(p, c, a, store, Advance(p, c, a, st, event))
  {
    assert event in [event];
    match st
    case Opening => RecoverOnOk(p, c, a, store, map[], [], 0);
    case Recovering(_, _, _) => RecoveringOk(p, c, a, store, st, event);
    case Checking(_, _, _, _, _) => CheckingOk(p, c, a, store, st, event);
    case Working(_, _, _, _, _, _) => WorkingOk(p, c, a, store, st, event);
    case _ =>
  }

  lemma {:induction false} LogOk(p: Protocol, c: Contract, a: Attempt, store: Store, log: Log)
    requires Closed(p, store) && ForShard(p, c.inputs) && Follows(ShardProgram(p, c, a), log) && Witnessed(p, store, log)
    ensures StateOk(p, c, a, store, StateAfter(p, c, a, log))
  {
    if log != [] {
      var n := |log| - 1;
      var before := StateAfter(p, c, a, log[..n]);
      LastAnswer(p, ShardProgram(p, c, a), store, log);
      LogOk(p, c, a, store, log[..n]);
      assert ShardProgram(p, c, a)(log[..n]) == ActionIn(p, c, a, before);
      StepOk(p, c, a, store, before, log[n]);
      assert StateAfter(p, c, a, log) == Advance(p, c, a, before, log[n]);
    }
  }

  lemma PartMayGo(p: Protocol, c: Contract, a: Attempt, store: Store, st: State)
    requires ForShard(p, c.inputs) && StateOk(p, c, a, store, st)
    requires st.Working? && st.part < 3 && st.pending[st.next] in a.parsed
    ensures var (key, body) := PartOf(p, st.pending[st.next], a.parsed[st.pending[st.next]], st.part);
            Supported(p, store, key, body)
  {
    var source := st.pending[st.next];
    var parsed := a.parsed[source];
    if st.part == 0 {
      PartSupported(p, store, c.inputs, Pages, source, parsed.pages);
    } else if st.part == 1 {
      PartSupported(p, store, c.inputs, Links, source, parsed.links);
    } else {
      MetricsSupported(p, store, c.inputs, source, parsed);
    }
  }

  lemma MarkerMayGo(p: Protocol, c: Contract, a: Attempt, store: Store, summary: Body)
    requires ForShard(p, c.inputs) && summary.Document?
    requires Supported(p, store, RUN_SUMMARY, summary) && Present(p, store, RefTo(p, RUN_SUMMARY, summary))
    ensures Supported(p, store, RAW_COMPLETED, CompletionBody(c, a, RefTo(p, RUN_SUMMARY, summary)))
  {
    MarkerSupported(p, store, c.inputs, summary, CompletionBody(c, a, RefTo(p, RUN_SUMMARY, summary)));
  }

  /** What a state uploads may be uploaded. */
  lemma WorkingUpload(p: Protocol, c: Contract, a: Attempt, st: State)
    requires st.Working? && ActionIn(p, c, a, st).Upload?
    ensures st.next < |st.pending| && st.pending[st.next] in a.parsed && st.part < 3
    ensures var (key, body) := PartOf(p, st.pending[st.next], a.parsed[st.pending[st.next]], st.part);
            ActionIn(p, c, a, st) == Upload(key, body)
  {
  }

  lemma UploadSupported(p: Protocol, c: Contract, a: Attempt, store: Store, st: State)
    requires Closed(p, store) && ForShard(p, c.inputs) && StateOk(p, c, a, store, st)
    requires ActionIn(p, c, a, st).Upload?
    ensures Supported(p, store, ActionIn(p, c, a, st).key, ActionIn(p, c, a, st).body)
  {
    if st.Opening? {
      ManifestSupported(p, store, c, a);
    } else if st.Working? {
      WorkingUpload(p, c, a, st);
      PartMayGo(p, c, a, store, st);
    } else if st.Marking? {
      MarkerMayGo(p, c, a, store, st.summary);
    }
  }

  /** `run_shard` uploads nothing before everything it records or presupposes is in place. */
  lemma ShardIsDisciplined(p: Protocol, c: Contract, a: Attempt)
    requires ForShard(p, c.inputs)
    ensures Disciplined(p, ShardProgram(p, c, a))
  {
    forall store, log, key, body |
      Closed(p, store) && Follows(ShardProgram(p, c, a), log) && Witnessed(p, store, log) && ShardProgram(p, c, a)(log) == Upload(key, body)
      ensures Supported(p, store, key, body)
    {
      LogOk(p, c, a, store, log);
      UploadSupported(p, c, a, store, StateAfter(p, c, a, log));
    }
  }

  function ShardPrograms(p: Protocol, c: Contract, attempts: seq<Attempt>): (r: seq<Program>)
    ensures |r| == |attempts| && forall w: nat | w < |r| :: r[w] == ShardProgram(p, c, attempts[w])
  {
    seq(|attempts|, w requires 0 <= w < |attempts| => ShardProgram(p, c, attempts[w]))
  }

  /**
   * Any number of workers of `run_shard` on one shard, interleaved, crashed and restarted as
   * they like, are a run of the publication machine: their metrics objects vouch for their
   * files, and their marker means a whole shard.
   */
  lemma WorkersAreARun(p: Protocol, c: Contract, attempts: seq<Attempt>, moves: seq<Move>)
    requires ForShard(p, c.inputs)
    ensures var store := PlayAll(p, ShardPrograms(p, c, attempts), Fresh(|attempts|), moves).store;
            && IsARun(p, |attempts|, store)
            && (forall s | Artifact(Metrics, s) in store :: VouchedFor(p, store, s))
            && (RAW_COMPLETED in store ==> Whole(p, store, c.inputs))
  {
    var programs := ShardPrograms(p, c, attempts);
    forall program | program in programs
      ensures Disciplined(p, program)
    {
      var w: nat :| w < |programs| && programs[w] == program;
      ShardIsDisciplined(p, c, attempts[w]);
    }
    ProgramsAreRuns(p, programs, moves);
    var store := PlayAll(p, programs, Fresh(|attempts|), moves).store;
    var steps :| Run(p, Start(|attempts|), steps).store == store;
    RawCompletedIsWhole(p, c.inputs, |attempts|, steps);
  }
}
