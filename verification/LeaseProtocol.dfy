/**
The timed shard lease as a state machine over one conditional-put object.

Any number of workers acquire, renew, finish and take over the lease; every store
request, every clock reading and every crash is a step of its own, so a run is any
interleaving of them. The two generations of the lease differ only in `Admit`.
*/
module LeaseProtocol {
  import opened Wrappers

  type WorkerId = nat
  type Etag = nat

  /** Timestamps are microseconds; lease durations are whole seconds. */
  const TICKS_PER_SECOND := 1_000_000
  const ACQUIRE_ATTEMPTS := 3

  datatype Generation = AwsV2 | GcpR2

  datatype LeaseState = Running | Completed | Failed | Stopped | Unrecognised

  datatype Document = Document(
    identity: string, owner: string, state: LeaseState, updatedAt: int, expiresAt: Option<int>)

  datatype Stored = Stored(doc: Document, etag: Etag)

  datatype Config = Config(identity: string, owner: string, seconds: nat, takeover: bool)

  function Span(cfg: Config): nat { cfg.seconds * TICKS_PER_SECOND }

  function RunningDocument(cfg: Config, now: int): Document {
    Document(cfg.identity, cfg.owner, Running, now, Some(now + Span(cfg)))
  }

  function FinalDocument(cfg: Config, state: LeaseState, now: int): Document {
    Document(cfg.identity, cfg.owner, state, now, None)
  }

  predicate Unexpired(doc: Document, clock: int) {
    doc.state == Running && doc.expiresAt.Some? && doc.expiresAt.value > clock
  }

  // ---------------------------------------------------------------- admission

  datatype Refusal = OtherAssignment | BadTimestamp | ActiveOwner | NeedsTakeover | AlreadyCompleted

  /** May an existing lease be claimed? None means yes. The clauses are in the source's order. */
  function Admit(gen: Generation, doc: Document, cfg: Config, now: int): Option<Refusal> {
    if doc.identity != cfg.identity then Some(OtherAssignment)
    else match gen
      case AwsV2 =>
        if doc.state != Running then None
        else if doc.expiresAt.None? then Some(BadTimestamp)
        else if doc.expiresAt.value > now then Some(ActiveOwner)
        else if !cfg.takeover then Some(NeedsTakeover)
        else None
      case GcpR2 =>
        if doc.state == Completed then Some(AlreadyCompleted)
        else if doc.state == Running && doc.expiresAt.None? then Some(BadTimestamp)
        else if doc.state == Running && doc.expiresAt.value > now then Some(ActiveOwner)
        else if !cfg.takeover then Some(NeedsTakeover)
        else None
  }

  /** Each v2 answer, and exactly when it is given. */
  lemma AdmitV2Is(doc: Document, cfg: Config, now: int)
    ensures Admit(AwsV2, doc, cfg, now) == None <==>
              && doc.identity == cfg.identity
              && (doc.state == Running ==> doc.expiresAt.Some? && doc.expiresAt.value <= now && cfg.takeover)
    ensures Admit(AwsV2, doc, cfg, now) == Some(OtherAssignment) <==> doc.identity != cfg.identity
    ensures Admit(AwsV2, doc, cfg, now) == Some(BadTimestamp) <==>
              doc.identity == cfg.identity && doc.state == Running && doc.expiresAt == None
    ensures Admit(AwsV2, doc, cfg, now) == Some(ActiveOwner) <==>
              doc.identity == cfg.identity && doc.state == Running && doc.expiresAt.Some? && now < doc.expiresAt.value
    ensures Admit(AwsV2, doc, cfg, now) == Some(NeedsTakeover) <==>
              && doc.identity == cfg.identity && doc.state == Running && doc.expiresAt.Some?
              && doc.expiresAt.value <= now && !cfg.takeover
    ensures Admit(AwsV2, doc, cfg, now) != Some(AlreadyCompleted)
  {
  }

  /** And each GCP answer. */
  lemma AdmitGcpIs(doc: Document, cfg: Config, now: int)
    ensures Admit(GcpR2, doc, cfg, now) == None <==>
              && doc.identity == cfg.identity && doc.state != Completed && cfg.takeover
              && (doc.state == Running ==> doc.expiresAt.Some? && doc.expiresAt.value <= now)
    ensures Admit(GcpR2, doc, cfg, now) == Some(OtherAssignment) <==> doc.identity != cfg.identity
    ensures Admit(GcpR2, doc, cfg, now) == Some(AlreadyCompleted) <==> doc.identity == cfg.identity && doc.state == Completed
    ensures Admit(GcpR2, doc, cfg, now) == Some(BadTimestamp) <==>
              doc.identity == cfg.identity && doc.state == Running && doc.expiresAt == None
    ensures Admit(GcpR2, doc, cfg, now) == Some(ActiveOwner) <==>
              doc.identity == cfg.identity && doc.state == Running && doc.expiresAt.Some? && now < doc.expiresAt.value
    ensures Admit(GcpR2, doc, cfg, now) == Some(NeedsTakeover) <==>
              && doc.identity == cfg.identity && doc.state != Completed && !cfg.takeover
              && (doc.state == Running ==> doc.expiresAt.Some? && doc.expiresAt.value <= now)
  {
  }

  // ---------------------------------------------------------------- the machine

  datatype Phase =
    | Idle
    | Acquiring(now: int, tries: nat, seen: Option<Option<Stored>>)
    | Holding(etag: Etag, last: int)
    | Renewing(etag: Etag, since: Option<int>, now: int)
    | Released(etag: Etag)
    | Crashed

  datatype Worker = Worker(cfg: Config, phase: Phase)

  /** One successful put: by a worker, or (None) the object found at the start. */
  datatype Write = Write(author: Option<WorkerId>, doc: Document, at: int)

  datatype System = System(
    gen: Generation, clock: int, lease: Option<Stored>, nextEtag: Etag,
    workers: seq<Worker>, history: seq<Write>)

  datatype Step =
    | Tick(elapsed: nat)
    | Begin(w: WorkerId)
    | Look(w: WorkerId)
    | Claim(w: WorkerId, acknowledged: bool)
    | ReadClock(w: WorkerId)
    | Renew(w: WorkerId, acknowledged: bool)
    | Finish(w: WorkerId, state: LeaseState, stamp: int, acknowledged: bool)
    | Crash(w: WorkerId)

  function Handle(p: Phase): Option<Etag> {
    match p
    case Holding(e, _) => Some(e)
    case Renewing(e, _, _) => Some(e)
    case Released(e) => Some(e)
    case _ => None
  }

  /** The clock reading a holder's own running document was written with. */
  function Since(p: Phase): (r: Option<int>)
    ensures r.Some? ==> Handle(p).Some? && (p.Holding? || p.Renewing?)
  {
    match p
    case Holding(_, last) => Some(last)
    case Renewing(_, last, _) => last
    case _ => None
  }

  /** Does the worker hold the lease object's current ETag? */
  predicate Owns(s: System, w: WorkerId) {
    w < |s.workers| && Handle(s.workers[w].phase).Some? && Matches(s, Handle(s.workers[w].phase).value)
  }

  /** Would the worker, reading the clock now, still trust its last renewal? */
  predicate Live(s: System, w: WorkerId) {
    && w < |s.workers|
    && var last := Since(s.workers[w].phase);
    && last.Some?
    && s.clock < last.value + Span(s.workers[w].cfg)
  }

  function Enter(s: System, w: WorkerId, p: Phase): System
    requires w < |s.workers|
  {
    s.(workers := s.workers[w := s.workers[w].(phase := p)])
  }

  /** A successful put: a fresh ETag, and one more entry in the history. */
  function Put(s: System, w: WorkerId, doc: Document): System {
    s.(lease := Some(Stored(doc, s.nextEtag)),
       nextEtag := s.nextEtag + 1,
       history := s.history + [Write(Some(w), doc, s.clock)])
  }

  /** `If-Match: etag` holds. */
  predicate Matches(s: System, etag: Etag) {
    s.lease.Some? && s.lease.value.etag == etag
  }

  function TryAgain(gen: Generation, now: int, tries: nat): Phase {
    if gen == AwsV2 && tries + 1 < ACQUIRE_ATTEMPTS then Acquiring(now, tries + 1, None) else Idle
  }

  function Next(s: System, a: Step): System {
    if a.Tick? then s.(clock := s.clock + a.elapsed)
    else if a.w >= |s.workers| then s
    else
      var cfg := s.workers[a.w].cfg;
      var phase := s.workers[a.w].phase;
      match a
      case Begin(w) =>
        if phase.Idle? then Enter(s, w, Acquiring(s.clock, 0, None)) else s
      case Look(w) =>
        if phase.Acquiring? && phase.seen.None? then Enter(s, w, phase.(seen := Some(s.lease))) else s
      case Claim(w, acknowledged) =>
        if !phase.Acquiring? || phase.seen.None? then s
        else ClaimStep(s, w, acknowledged, phase.seen.value)
      case ReadClock(w) =>
        (match phase
         case Holding(e, last) => Enter(s, w, Renewing(e, Some(last), s.clock))
         case Released(e) => Enter(s, w, Renewing(e, None, s.clock))
         case _ => s)
      case Renew(w, acknowledged) =>
        if !phase.Renewing? then s
        else if !Matches(s, phase.etag) then Enter(s, w, Released(phase.etag))
        else
          var s' := Put(s, w, RunningDocument(cfg, phase.now));
          Enter(s', w, if acknowledged then Holding(s.nextEtag, phase.now) else Released(phase.etag))
      case Finish(w, state, stamp, acknowledged) =>
        if state !in {Completed, Failed, Stopped} || Handle(phase).None? then s
        else
          var e := Handle(phase).value;
          if !Matches(s, e) then Enter(s, w, Released(e))
          else
            var s' := Put(s, w, FinalDocument(cfg, state, stamp));
            Enter(s', w, Released(if acknowledged then s.nextEtag else e))
      case Crash(w) => Enter(s, w, Crashed)
  }

  function ClaimStep(s: System, w: WorkerId, acknowledged: bool, seen: Option<Stored>): System
    requires w < |s.workers| && s.workers[w].phase.Acquiring?
  {
    var cfg := s.workers[w].cfg;
    var phase := s.workers[w].phase;
    var s' := Put(s, w, RunningDocument(cfg, phase.now));
    var claimed := Enter(s', w, if acknowledged then Holding(s.nextEtag, phase.now) else Idle);
    match seen
    case None =>
      if s.lease.None? then claimed else Enter(s, w, TryAgain(s.gen, phase.now, phase.tries))
    case Some(found) =>
      if Admit(s.gen, found.doc, cfg, phase.now).Some? then Enter(s, w, Idle)
      else if Matches(s, found.etag) then claimed
      else Enter(s, w, TryAgain(s.gen, phase.now, phase.tries))
  }

  function Run(s: System, steps: seq<Step>): System
    decreases |steps|
  {
    if steps == [] then s else Run(Next(s, steps[0]), steps[1..])
  }

  /** Every worker idle, and any object at all (or none) at the lease key. */
  ghost predicate Initial(s: System) {
    && (forall w: nat | w < |s.workers| :: s.workers[w].phase == Idle)
    && match s.lease
       case None => s.history == []
       case Some(found) => s.history == [Write(None, found.doc, s.clock)] && found.etag < s.nextEtag
  }

  // ---------------------------------------------------------------- invariant

  ghost predicate WorkerOk(s: System, w: WorkerId)
    requires w < |s.workers|
  {
    var cfg := s.workers[w].cfg;
    var phase := s.workers[w].phase;
    && (Handle(phase).Some? ==>
          && Handle(phase).value < s.nextEtag
          && (Matches(s, Handle(phase).value) ==>
                |s.history| > 0 && s.history[|s.history| - 1].author == Some(w)))
    && (Since(phase).Some? ==>
          var last := Since(phase).value;
          && last <= s.clock
          && (Matches(s, phase.etag) ==> s.lease.value.doc == RunningDocument(cfg, last))
          && (s.clock < last + Span(cfg) ==> Matches(s, phase.etag)))
    && (phase.Renewing? ==> phase.now <= s.clock)
    && (phase.Acquiring? ==>
          && phase.now <= s.clock
          && (phase.seen.Some? && phase.seen.value.Some? ==>
                var found := phase.seen.value.value;
                found.etag < s.nextEtag && (Matches(s, found.etag) ==> s.lease.value == found)))
  }

  ghost predicate Distinct(s: System) {
    forall v: nat, w: nat | v < w < |s.workers| ::
      Handle(s.workers[v].phase).Some? && Handle(s.workers[w].phase).Some? ==>
        Handle(s.workers[v].phase) != Handle(s.workers[w].phase)
  }

  /** The rule the whole protocol is for: consecutive writes never cut a live lease short. */
  ghost predicate Orderly(history: seq<Write>) {
    forall i: nat | i + 1 < |history| ::
      && history[i].at <= history[i + 1].at
      && (Unexpired(history[i].doc, history[i + 1].at) ==>
            history[i + 1].author.Some? && history[i + 1].author == history[i].author)
  }

  ghost predicate Inv(s: System) {
    && (s.lease.Some? ==>
          && s.lease.value.etag < s.nextEtag
          && |s.history| > 0
          && s.history[|s.history| - 1].doc == s.lease.value.doc)
    && (s.lease.None? ==> s.history == [])
    && (|s.history| > 0 ==> s.history[|s.history| - 1].at <= s.clock)
    && (forall w: nat | w < |s.workers| :: WorkerOk(s, w))
    && Distinct(s)
    && Orderly(s.history)
  }

  lemma InitialInv(s: System)
    requires Initial(s)
    ensures Inv(s)
  {
  }

  /** Moving one worker to a phase with no new handle disturbs nobody else. */
  lemma EnterInv(s: System, w: WorkerId, p: Phase)
    requires Inv(s) && w < |s.workers|
    requires Handle(p).None? || Handle(p) == Handle(s.workers[w].phase)
    requires WorkerOk(Enter(s, w, p), w)
    ensures Inv(Enter(s, w, p))
  {
    var t := Enter(s, w, p);
    forall v: nat | v < |t.workers|
      ensures WorkerOk(t, v)
    {
      assert WorkerOk(s, v);
    }
  }

  /** A put that no live lease of another worker forbids. */
  lemma PutInv(s: System, w: WorkerId, doc: Document, p: Phase)
    requires Inv(s) && w < |s.workers|
    requires Handle(p) in {None, Some(s.nextEtag), Handle(s.workers[w].phase)}
    requires p.Holding? ==> p.etag == s.nextEtag && p.last <= s.clock && doc == RunningDocument(s.workers[w].cfg, p.last)
    requires p.Idle? || p.Holding? || p.Released?
    requires s.lease.Some? && Unexpired(s.lease.value.doc, s.clock) ==> s.history[|s.history| - 1].author == Some(w)
    ensures Inv(Enter(Put(s, w, doc), w, p))
  {
    var t := Enter(Put(s, w, doc), w, p);
    forall v: nat | v < |t.workers|
      ensures WorkerOk(t, v)
    {
      assert WorkerOk(s, v);
      if v != w && Live(s, v) {
        assert false;
      }
    }
    forall u: nat, v: nat | u < v < |t.workers|
      ensures Handle(t.workers[u].phase).Some? && Handle(t.workers[v].phase).Some? ==>
                Handle(t.workers[u].phase) != Handle(t.workers[v].phase)
    {
      assert WorkerOk(s, u) && WorkerOk(s, v);
      assert Distinct(s);
    }
  }

  lemma StepInv(s: System, a: Step)
    requires Inv(s)
    ensures Inv(Next(s, a))
  {
    if a.Tick? {
      var t := Next(s, a);
      forall w: nat | w < |t.workers|
        ensures WorkerOk(t, w)
      {
        assert WorkerOk(s, w);
      }
    } else if a.w < |s.workers| {
      var w := a.w;
      var phase := s.workers[w].phase;
      assert WorkerOk(s, w);
      match a
      case Begin(_) =>
        if phase.Idle? { EnterInv(s, w, Acquiring(s.clock, 0, None)); }
      case Look(_) =>
        if phase.Acquiring? && phase.seen.None? { EnterInv(s, w, phase.(seen := Some(s.lease))); }
      case Claim(_, acknowledged) =>
        if phase.Acquiring? && phase.seen.Some? { ClaimInv(s, w, acknowledged, phase.seen.value); }
      case ReadClock(_) =>
        if phase.Holding? {
          EnterInv(s, w, Renewing(phase.etag, Some(phase.last), s.clock));
        } else if phase.Released? {
          EnterInv(s, w, Renewing(phase.etag, None, s.clock));
        }
      case Renew(_, acknowledged) => RenewInv(s, w, acknowledged);
      case Finish(_, state, stamp, acknowledged) => FinishInv(s, w, state, stamp, acknowledged);
      case Crash(_) => EnterInv(s, w, Crashed);
    }
  }

  lemma RenewInv(s: System, w: WorkerId, acknowledged: bool)
    requires Inv(s) && w < |s.workers|
    ensures Inv(Next(s, Renew(w, acknowledged)))
  {
    assert WorkerOk(s, w);
    var phase := s.workers[w].phase;
    if phase.Renewing? {
      if !Matches(s, phase.etag) {
        EnterInv(s, w, Released(phase.etag));
      } else {
        PutInv(s, w, RunningDocument(s.workers[w].cfg, phase.now),
          if acknowledged then Holding(s.nextEtag, phase.now) else Released(phase.etag));
      }
    }
  }

  lemma FinishInv(s: System, w: WorkerId, state: LeaseState, stamp: int, acknowledged: bool)
    requires Inv(s) && w < |s.workers|
    ensures Inv(Next(s, Finish(w, state, stamp, acknowledged)))
  {
    assert WorkerOk(s, w);
    var phase := s.workers[w].phase;
    if state in {Completed, Failed, Stopped} && Handle(phase).Some? {
      var e := Handle(phase).value;
      if !Matches(s, e) {
        EnterInv(s, w, Released(e));
      } else {
        PutInv(s, w, FinalDocument(s.workers[w].cfg, state, stamp), Released(if acknowledged then s.nextEtag else e));
      }
    }
  }

  lemma ClaimInv(s: System, w: WorkerId, acknowledged: bool, seen: Option<Stored>)
    requires Inv(s) && w < |s.workers| && s.workers[w].phase.Acquiring?
    requires s.workers[w].phase.seen == Some(seen)
    ensures Inv(ClaimStep(s, w, acknowledged, seen))
  {
    assert WorkerOk(s, w);
    var phase := s.workers[w].phase;
    var cfg := s.workers[w].cfg;
    var p := if acknowledged then Holding(s.nextEtag, phase.now) else Idle;
    if seen.None? && s.lease.None? {
      PutInv(s, w, RunningDocument(cfg, phase.now), p);
    } else if seen.None? {
      EnterInv(s, w, TryAgain(s.gen, phase.now, phase.tries));
    } else if Admit(s.gen, seen.value.doc, cfg, phase.now).Some? {
      EnterInv(s, w, Idle);
    } else if Matches(s, seen.value.etag) {
      PutInv(s, w, RunningDocument(cfg, phase.now), p);
    } else {
      EnterInv(s, w, TryAgain(s.gen, phase.now, phase.tries));
    }
  }

  lemma {:induction false} RunInv(s: System, steps: seq<Step>)
    requires Inv(s)
    ensures Inv(Run(s, steps))
    decreases |steps|
  {
    if steps != [] {
      StepInv(s, steps[0]);
      RunInv(Next(s, steps[0]), steps[1..]);
    }
  }

  // ---------------------------------------------------------------- theorems

  /** Over every interleaving: one owner at a time, and only owners still trust their lease. */
  lemma MutualExclusion(s: System, steps: seq<Step>, v: WorkerId, w: WorkerId)
    requires Initial(s)
    ensures Owns(Run(s, steps), v) && Owns(Run(s, steps), w) ==> v == w
    ensures Live(Run(s, steps), w) ==> Owns(Run(s, steps), w)
    ensures Live(Run(s, steps), v) && Live(Run(s, steps), w) ==> v == w
  {
    InitialInv(s);
    RunInv(s, steps);
    var t := Run(s, steps);
    if v < |t.workers| && w < |t.workers| {
      assert WorkerOk(t, v) && WorkerOk(t, w);
    }
    if w < |t.workers| {
      assert WorkerOk(t, w);
    }
  }

  /** Over every interleaving: an unexpired running lease is only ever rewritten by its own author. */
  lemma NoPreemption(s: System, steps: seq<Step>, i: nat)
    requires Initial(s)
    requires i + 1 < |Run(s, steps).history|
    ensures var h := Run(s, steps).history;
            Unexpired(h[i].doc, h[i + 1].at) ==> h[i + 1].author.Some? && h[i + 1].author == h[i].author
  {
    InitialInv(s);
    RunInv(s, steps);
    assert Orderly(Run(s, steps).history);
  }

  /**
   * Who may follow another author in the history: same assignment; over a running lease only
   * with the operator's takeover flag and behind its expiry; in the GCP generation never over a
   * completed lease, and never without the flag.
   */
  ghost predicate Entitled(gen: Generation, doc: Document, cfg: Config, at: int) {
    && doc.identity == cfg.identity
    && (doc.state == Running ==> cfg.takeover && doc.expiresAt.Some? && doc.expiresAt.value <= at)
    && (gen == GcpR2 ==> cfg.takeover && doc.state != Completed)
  }

  ghost predicate Succeeds(s: System, before: Write, after: Write) {
    after.author != before.author ==>
      && after.author.Some? && after.author.value < |s.workers|
      && Entitled(s.gen, before.doc, s.workers[after.author.value].cfg, after.at)
  }

  ghost predicate AllEntitled(s: System) {
    forall i: nat | i + 1 < |s.history| :: Succeeds(s, s.history[i], s.history[i + 1])
  }

  lemma SameWorkers(s: System, a: Step)
    ensures Next(s, a).gen == s.gen && |Next(s, a).workers| == |s.workers|
    ensures forall w: nat | w < |s.workers| :: Next(s, a).workers[w].cfg == s.workers[w].cfg
  {
  }

  /** The newest entry, when a step adds one. */
  lemma NewestEntitled(s: System, a: Step)
    requires Inv(s) && Next(s, a).history != s.history && s.history != []
    ensures var last := s.history[|s.history| - 1];
            && !a.Tick? && a.w < |s.workers|
            && (last.author == Some(a.w) || Entitled(s.gen, last.doc, s.workers[a.w].cfg, s.clock))
  {
    assert WorkerOk(s, a.w);
    if a.Claim? {
      var phase := s.workers[a.w].phase;
      var found := phase.seen.value.value;
      match s.gen
      case AwsV2 => AdmitV2Is(found.doc, s.workers[a.w].cfg, phase.now);
      case GcpR2 => AdmitGcpIs(found.doc, s.workers[a.w].cfg, phase.now);
    }
  }

  lemma EntitledStep(s: System, a: Step)
    requires Inv(s) && AllEntitled(s)
    ensures AllEntitled(Next(s, a))
  {
    var t := Next(s, a);
    SameWorkers(s, a);
    OnlyActorWrites(s, a);
    if t.history != s.history && s.history != [] {
      NewestEntitled(s, a);
    }
    forall i: nat | i + 1 < |t.history|
      ensures Succeeds(t, t.history[i], t.history[i + 1])
    {
      assert t.history[i] == s.history[i];
      if i + 1 < |s.history| {
        assert Succeeds(s, s.history[i], s.history[i + 1]);
      }
    }
  }

  lemma {:induction false} EntitledRun(s: System, steps: seq<Step>)
    requires Inv(s) && AllEntitled(s)
    ensures AllEntitled(Run(s, steps)) && Run(s, steps).gen == s.gen && |Run(s, steps).workers| == |s.workers|
    ensures forall w: nat | w < |s.workers| :: Run(s, steps).workers[w].cfg == s.workers[w].cfg
    decreases |steps|
  {
    if steps != [] {
      StepInv(s, steps[0]);
      EntitledStep(s, steps[0]);
      SameWorkers(s, steps[0]);
      EntitledRun(Next(s, steps[0]), steps[1..]);
    }
  }

  /**
   * Over every interleaving: whoever follows another author is a worker with the same
   * assignment; over a running lease it has the operator's flag and the expiry is not ahead; in
   * the GCP generation it always has the flag, and no completed lease has a successor.
   */
  lemma TakeoverNeedsFlag(s: System, steps: seq<Step>, i: nat)
    requires Initial(s)
    requires i + 1 < |Run(s, steps).history|
    ensures var h := Run(s, steps).history;
            h[i + 1].author != h[i].author ==>
              && h[i + 1].author.Some? && h[i + 1].author.value < |s.workers|
              && var cfg := s.workers[h[i + 1].author.value].cfg;
                 && h[i].doc.identity == cfg.identity
                 && (h[i].doc.state == Running ==>
                       cfg.takeover && h[i].doc.expiresAt.Some? && h[i].doc.expiresAt.value <= h[i + 1].at)
                 && (s.gen == GcpR2 ==> cfg.takeover && h[i].doc.state != Completed)
  {
    InitialInv(s);
    EntitledRun(s, steps);
    var t := Run(s, steps);
    assert Succeeds(t, t.history[i], t.history[i + 1]);
  }

  /** The step that changes the lease is a worker's, and the history names it. */
  lemma OnlyActorWrites(s: System, a: Step)
    requires Inv(s)
    ensures Next(s, a).lease == s.lease ==> Next(s, a).history == s.history
    ensures Next(s, a).lease != s.lease ==>
              && !a.Tick?
              && a.w < |s.workers|
              && Next(s, a).history == s.history + [Write(Some(a.w), Next(s, a).lease.value.doc, s.clock)]
              && Next(s, a).lease.value.etag == s.nextEtag
  {
  }

  /** A worker whose ETag has been displaced; it stays so until it acquires afresh. */
  ghost predicate Displaced(s: System, w: WorkerId, e: Etag) {
    && w < |s.workers|
    && e < s.nextEtag
    && !Matches(s, e)
    && (Handle(s.workers[w].phase) == Some(e) || s.workers[w].phase == Crashed)
  }

  lemma DisplacedStep(s: System, a: Step, w: WorkerId, e: Etag)
    requires Inv(s) && Displaced(s, w, e)
    ensures Displaced(Next(s, a), w, e)
    ensures !a.Tick? && a.w == w ==> Next(s, a).lease == s.lease
  {
    assert WorkerOk(s, w);
    StepInv(s, a);
    assert WorkerOk(Next(s, a), w);
  }

  /** However the run goes on, a displaced worker never touches the new owner's lease again. */
  lemma {:induction false} DisplacedIsHarmless(s: System, steps: seq<Step>, w: WorkerId, e: Etag)
    requires Inv(s) && Displaced(s, w, e)
    ensures Displaced(Run(s, steps), w, e)
    ensures !Owns(Run(s, steps), w)
    ensures forall i: nat | |s.history| <= i < |Run(s, steps).history| :: Run(s, steps).history[i].author != Some(w)
    ensures s.history <= Run(s, steps).history
    decreases |steps|
  {
    if steps != [] {
      var t := Next(s, steps[0]);
      DisplacedStep(s, steps[0], w, e);
      OnlyActorWrites(s, steps[0]);
      StepInv(s, steps[0]);
      DisplacedIsHarmless(t, steps[1..], w, e);
    }
  }

  /** In the GCP generation a completed lease that nobody owns is final. */
  lemma {:induction false} GcpCompletedIsFinal(s: System, steps: seq<Step>)
    requires Inv(s) && s.gen == GcpR2
    requires s.lease.Some? && s.lease.value.doc.state == Completed
    requires forall w: nat | w < |s.workers| :: !Owns(s, w)
    ensures Run(s, steps).lease == s.lease
    decreases |steps|
  {
    if steps != [] {
      var t := Next(s, steps[0]);
      StepInv(s, steps[0]);
      OnlyActorWrites(s, steps[0]);
      if !steps[0].Tick? && steps[0].w < |s.workers| {
        assert WorkerOk(s, steps[0].w) && !Owns(s, steps[0].w);
      }
      assert t.lease == s.lease;
      forall w: nat | w < |t.workers|
        ensures !Owns(t, w)
      {
        assert !Owns(s, w);
      }
      GcpCompletedIsFinal(t, steps[1..]);
    }
  }

  /** Steps of everyone but one worker, which may only die. */
  predicate Leaves(a: Step, me: WorkerId) {
    a.Tick? || a.w != me || a.Crash?
  }

  /** In the GCP generation a completed lease is final once its owner has gone. */
  lemma {:induction false} GcpCompletedStays(s: System, steps: seq<Step>, me: WorkerId)
    requires Inv(s) && s.gen == GcpR2
    requires s.lease.Some? && s.lease.value.doc.state == Completed
    requires forall w: nat | w < |s.workers| && w != me :: !Owns(s, w)
    requires forall a | a in steps :: Leaves(a, me)
    ensures Run(s, steps).lease == s.lease
    decreases |steps|
  {
    if steps != [] {
      var t := Next(s, steps[0]);
      StepInv(s, steps[0]);
      OnlyActorWrites(s, steps[0]);
      assert Leaves(steps[0], me);
      if !steps[0].Tick? && steps[0].w < |s.workers| {
        assert WorkerOk(s, steps[0].w) && (steps[0].w != me ==> !Owns(s, steps[0].w));
      }
      assert t.lease == s.lease;
      forall w: nat | w < |t.workers| && w != me
        ensures !Owns(t, w)
      {
        assert !Owns(s, w);
      }
      GcpCompletedStays(t, steps[1..], me);
    }
  }

  /** The owner of a completed GCP lease, once it has ended, leaves it as it is for ever. */
  lemma OwnedCompletedStays(s: System, me: WorkerId, steps: seq<Step>)
    requires Inv(s) && s.gen == GcpR2 && Owns(s, me) && s.lease.value.doc.state == Completed
    requires forall a | a in steps :: Leaves(a, me)
    ensures Run(s, steps).lease == s.lease
  {
    forall w: nat | w < |s.workers| && w != me
      ensures !Owns(s, w)
    {
      assert Distinct(s);
    }
    GcpCompletedStays(s, steps, me);
  }

  /** How the generations differ: GCP admits strictly less, and the gap is exactly this. */
  lemma GenerationGap(doc: Document, cfg: Config, now: int)
    ensures Admit(GcpR2, doc, cfg, now).None? ==> Admit(AwsV2, doc, cfg, now).None?
    ensures Admit(AwsV2, doc, cfg, now).None? && Admit(GcpR2, doc, cfg, now).Some? <==>
              doc.identity == cfg.identity && doc.state != Running && (doc.state == Completed || !cfg.takeover)
    ensures Unexpired(doc, now) ==> Admit(AwsV2, doc, cfg, now).Some? && Admit(GcpR2, doc, cfg, now).Some?
  {
  }
}
