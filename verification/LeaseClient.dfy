/**
The worker's side of the shard lease: the `ShardLease` object and the two acquire
procedures, run against a store that other workers use at the same time.

A `World` carries a script that says what the rivals and the clock do before each of
this worker's requests, and whether the request or its answer is lost. The script is
arbitrary, so every postcondition below holds for every interleaving.
*/
module LeaseClient {
  import opened Wrappers
  import opened LeaseProtocol

  datatype Fault = NoFault | RequestLost | ResponseLost

  datatype Turn = Turn(rivals: seq<Step>, fault: Fault)

  datatype Response = Stamped(etag: Etag) | PreconditionFailed | NetworkFailure

  datatype LeaseError =
    | Refused(why: Refusal)
    | LostOwnership
    | NoEtag
    | Contended
    | Unavailable

  predicate IsRival(a: Step, me: WorkerId) {
    a.Tick? || a.w != me
  }

  function RunRivals(s: System, steps: seq<Step>, me: WorkerId): System
    decreases |steps|
  {
    if steps == [] then s
    else RunRivals(if IsRival(steps[0], me) then Next(s, steps[0]) else s, steps[1..], me)
  }

  /** What a worker may rely on across any interference. */
  ghost predicate Undisturbed(s: System, t: System, me: WorkerId) {
    && me < |s.workers|
    && |t.workers| == |s.workers|
    && t.workers[me] == s.workers[me]
    && t.gen == s.gen
    && s.clock <= t.clock
    && s.history <= t.history
    && (forall i: nat | |s.history| <= i < |t.history| :: t.history[i].author != Some(me))
  }

  lemma UndisturbedTransitive(s: System, t: System, u: System, me: WorkerId)
    requires Undisturbed(s, t, me) && Undisturbed(t, u, me)
    ensures Undisturbed(s, u, me)
  {
    forall i: nat | |s.history| <= i < |u.history|
      ensures u.history[i].author != Some(me)
    {
      if i < |t.history| {
        assert u.history[i] == t.history[i];
      }
    }
  }

  lemma RivalStep(s: System, a: Step, me: WorkerId)
    requires Inv(s) && me < |s.workers| && IsRival(a, me)
    ensures Inv(Next(s, a)) && Undisturbed(s, Next(s, a), me)
  {
    StepInv(s, a);
    OnlyActorWrites(s, a);
  }

  lemma {:induction false} RivalsUndisturbing(s: System, steps: seq<Step>, me: WorkerId)
    requires Inv(s) && me < |s.workers|
    ensures Inv(RunRivals(s, steps, me)) && Undisturbed(s, RunRivals(s, steps, me), me)
    decreases |steps|
  {
    if steps != [] {
      if IsRival(steps[0], me) {
        RivalStep(s, steps[0], me);
        RivalsUndisturbing(Next(s, steps[0]), steps[1..], me);
        UndisturbedTransitive(s, Next(s, steps[0]), RunRivals(s, steps, me), me);
      } else {
        RivalsUndisturbing(s, steps[1..], me);
      }
    }
  }

  /** None of the entries added to the history is this worker's. */
  ghost predicate WroteNothing(before: seq<Write>, after: seq<Write>, me: WorkerId) {
    && before <= after
    && forall i: nat | |before| <= i < |after| :: after[i].author != Some(me)
  }

  /** The worker's one write is the newest entry of the history. */
  ghost predicate WroteOnceLast(before: seq<Write>, after: seq<Write>, me: WorkerId, doc: Document) {
    && |before| < |after|
    && before <= after
    && (forall i: nat | |before| <= i < |after| - 1 :: after[i].author != Some(me))
    && after[|after| - 1].author == Some(me)
    && after[|after| - 1].doc == doc
  }

  lemma NothingThen(a: seq<Write>, b: seq<Write>, c: seq<Write>, me: WorkerId, doc: Document)
    requires WroteNothing(a, b, me)
    ensures WroteNothing(b, c, me) ==> WroteNothing(a, c, me)
    ensures WroteOnceLast(b, c, me, doc) ==> WroteOnceLast(a, c, me, doc)
  {
    if b <= c {
      forall i: nat | |a| <= i < |b|
        ensures c[i].author != Some(me)
      {
        assert c[i] == b[i];
      }
    }
  }

  /** The conditional put that a step of the machine stands for: If-Match (or absent) and body. */
  function Request(worker: Worker, a: Step): Option<(Option<Etag>, Document)> {
    match a
    case Claim(_, _) =>
      if worker.phase.Acquiring? && worker.phase.seen.Some? then
        var doc := RunningDocument(worker.cfg, worker.phase.now);
        match worker.phase.seen.value
        case None => Some((None, doc))
        case Some(found) => Some((Some(found.etag), doc))
      else None
    case Renew(_, _) =>
      if worker.phase.Renewing? then
        Some((Some(worker.phase.etag), RunningDocument(worker.cfg, worker.phase.now)))
      else None
    case Finish(_, state, stamp, _) =>
      if Handle(worker.phase).Some? then
        Some((Handle(worker.phase), FinalDocument(worker.cfg, state, stamp)))
      else None
    case _ => None
  }

  /** The step sends `doc` under the precondition that `etag` (or absence) still holds. */
  ghost predicate Sends(s: System, me: WorkerId, a: Step, etag: Option<Etag>, doc: Document) {
    && me < |s.workers|
    && (a.Claim? || a.Renew? || a.Finish?) && a.w == me
    && Request(s.workers[me], a) == Some((etag, doc))
    && (a.Claim? && etag.Some? ==>
          Admit(s.gen, s.workers[me].phase.seen.value.value.doc, s.workers[me].cfg, s.workers[me].phase.now).None?)
    && (a.Finish? ==> a.state in {Completed, Failed, Stopped})
  }

  predicate Stands(s: System, etag: Option<Etag>) {
    if etag.None? then s.lease.None? else Matches(s, etag.value)
  }

  /** Where a worker stands after sending, when its precondition `stood` or did not. */
  function PhaseSent(s: System, a: Step, stood: bool, p: Phase): Phase {
    match a
    case Claim(_, acknowledged) =>
      if !p.Acquiring? then p
      else if !stood then TryAgain(s.gen, p.now, p.tries)
      else if acknowledged then Holding(s.nextEtag, p.now) else Idle
    case Renew(_, acknowledged) =>
      if !p.Renewing? then p
      else if stood && acknowledged then Holding(s.nextEtag, p.now) else Released(p.etag)
    case Finish(_, _, _, acknowledged) =>
      if Handle(p).None? then p
      else Released(if stood && acknowledged then s.nextEtag else Handle(p).value)
    case _ => p
  }

  /** What one of the machine's sending steps does to the store. */
  lemma SendEffect(s: System, me: WorkerId, a: Step, etag: Option<Etag>, doc: Document)
    requires Inv(s) && Sends(s, me, a, etag, doc)
    ensures Inv(Next(s, a))
    ensures Stands(s, etag) ==>
              && Next(s, a).lease == Some(Stored(doc, s.nextEtag))
              && Next(s, a).history == s.history + [Write(Some(me), doc, s.clock)]
              && (etag.Some? ==> s.nextEtag > etag.value)
    ensures !Stands(s, etag) ==> Next(s, a).lease == s.lease && Next(s, a).history == s.history
    ensures |Next(s, a).workers| == |s.workers| && Next(s, a).gen == s.gen
    ensures Next(s, a).workers[me] == Worker(s.workers[me].cfg, PhaseSent(s, a, Stands(s, etag), s.workers[me].phase))
  {
    StepInv(s, a);
  }

  class World {
    var sys: System
    var script: seq<Turn>
    const me: WorkerId

    constructor (sys: System, script: seq<Turn>, me: WorkerId)
      requires Inv(sys) && me < |sys.workers|
      ensures Valid()
      ensures this.sys == sys && this.script == script && this.me == me
    {
      this.sys, this.script, this.me := sys, script, me;
    }

    ghost predicate Valid()
      reads this
    {
      me < |sys.workers| && Inv(sys)
    }

    ghost function Self(): Worker
      reads this
      requires me < |sys.workers|
    {
      sys.workers[me]
    }

    /** No rival acts, no time passes and nothing is lost from here on. */
    ghost predicate Quiet()
      reads this
    {
      forall turn | turn in script :: turn.rivals == [] && turn.fault == NoFault
    }

    /** The state in which the next request meets the store, and what becomes of the request. */
    ghost function Met(): System
      reads this
      requires me < |sys.workers|
    {
      if script == [] then sys else RunRivals(sys, script[0].rivals, me)
    }

    ghost function Fate(): Fault
      reads this
    {
      if script == [] then NoFault else script[0].fault
    }

    /** The rivals' turn before one of this worker's requests. */
    method Interfere() returns (fault: Fault)
      requires Valid()
      modifies this
      ensures Valid()
      ensures sys == old(Met()) && fault == old(Fate()) && (old(script) != [] ==> script == old(script[1..]))
      ensures Undisturbed(old(sys), sys, me)
      ensures old(Quiet()) ==> Quiet() && sys == old(sys) && fault == NoFault
    {
      fault := NoFault;
      if script != [] {
        RivalsUndisturbing(sys, script[0].rivals, me);
        fault := script[0].fault;
        sys := RunRivals(sys, script[0].rivals, me);
        script := script[1..];
      }
    }

    /** Reads the clock. */
    method Now() returns (t: int)
      requires Valid()
      modifies this
      ensures Valid()
      ensures t == sys.clock
      ensures Undisturbed(old(sys), sys, me)
      ensures old(Quiet()) ==> Quiet() && sys == old(sys)
    {
      var _ := Interfere();
      t := sys.clock;
    }

    /** The clock reading that opens an acquire (from idle) or a refresh (with a handle). */
    method Open() returns (t: int)
      requires Valid()
      requires Self().phase.Idle? || Self().phase.Holding? || Self().phase.Released?
      modifies this
      ensures Valid()
      ensures t == sys.clock && old(sys.clock) <= t
      ensures WroteNothing(old(sys.history), sys.history, me)
      ensures Self().cfg == old(Self().cfg) && sys.gen == old(sys.gen)
      ensures Self().phase ==
                match old(Self().phase)
                case Holding(e, last) => Renewing(e, Some(last), t)
                case Released(e) => Renewing(e, None, t)
                case _ => Acquiring(t, 0, None)
      ensures old(Quiet()) ==> Quiet() && sys.lease == old(sys.lease) && t == old(sys.clock)
    {
      var _ := Interfere();
      t := sys.clock;
      var a := if sys.workers[me].phase.Idle? then Begin(me) else ReadClock(me);
      StepInv(sys, a);
      sys := Next(sys, a);
    }

    /** `get_object` on the lease key; None when the request is lost. */
    method Get() returns (found: Option<Option<Stored>>)
      requires Valid()
      requires Self().phase.Acquiring? && Self().phase.seen.None?
      modifies this
      ensures Valid()
      ensures WroteNothing(old(sys.history), sys.history, me)
      ensures Self().cfg == old(Self().cfg) && sys.gen == old(sys.gen)
      ensures Self().phase == old(Self().phase).(seen := found)
      ensures found == if old(Fate()) == NoFault then Some(old(Met()).lease) else None
      ensures old(Quiet()) ==> Quiet() && sys.lease == old(sys.lease) && found == Some(sys.lease)
    {
      var fault := Interfere();
      if fault == NoFault {
        StepInv(sys, Look(me));
        sys := Next(sys, Look(me));
        found := Some(sys.lease);
      } else {
        found := None;
      }
    }

    /**
     * A conditional put: `If-Match: etag`, or `If-None-Match: *` when there is no etag.
     * The precondition says the request is the one the machine's step `a` stands for.
     */
    method Put(etag: Option<Etag>, doc: Document, a: Step) returns (r: Response)
      requires Valid()
      requires Sends(sys, me, a, etag, doc) && a.acknowledged
      modifies this
      ensures Valid()
      ensures Self().cfg == old(Self().cfg) && sys.gen == old(sys.gen)
      ensures r.Stamped? ==>
                && sys.lease == Some(Stored(doc, r.etag)) && (etag.Some? ==> r.etag > etag.value)
                && WroteOnceLast(old(sys.history), sys.history, me, doc)
                && Self().phase == (if a.Finish? then Released(r.etag) else Holding(r.etag, old(Self().phase).now))
      ensures r.PreconditionFailed? ==>
                && WroteNothing(old(sys.history), sys.history, me)
                && !Stands(sys, etag)
                && Self().phase ==
                     (if a.Claim? then TryAgain(sys.gen, old(Self().phase).now, old(Self().phase).tries)
                      else Released(etag.value))
      ensures r.NetworkFailure? ==>
                if a.Claim? then Self().phase.Idle? || Self().phase.Acquiring?
                else if a.Renew? then Handle(Self().phase) == etag
                else Self().phase == old(Self().phase) || Self().phase == Released(etag.value)
      ensures r.NetworkFailure? <==> old(Fate()) != NoFault
      ensures old(Quiet()) ==>
                Quiet() && !r.NetworkFailure? && (r.Stamped? <==> old(Stands(sys, etag)))
    {
      var fault := Interfere();
      ghost var upTo := sys.history;
      assert Sends(sys, me, a, etag, doc);
      r := Deliver(etag, doc, a, fault);
      NothingThen(old(sys.history), upTo, sys.history, me, doc);
    }

    /** The request meets its fate at the store. */
    method Deliver(etag: Option<Etag>, doc: Document, a: Step, fault: Fault) returns (r: Response)
      requires Valid()
      requires Sends(sys, me, a, etag, doc) && a.acknowledged
      modifies this`sys
      ensures Valid()
      ensures Self().cfg == old(Self().cfg) && sys.gen == old(sys.gen)
      ensures r.Stamped? ==>
                && sys.lease == Some(Stored(doc, r.etag)) && (etag.Some? ==> r.etag > etag.value)
                && WroteOnceLast(old(sys.history), sys.history, me, doc)
      ensures r.PreconditionFailed? ==> sys.history == old(sys.history) && sys.lease == old(sys.lease)
      ensures !r.NetworkFailure? ==>
                Self().phase == old(PhaseSent(sys, a, Stands(sys, etag), Self().phase))
      ensures r.Stamped? ==> r.etag == old(sys.nextEtag)
      ensures r.NetworkFailure? ==>
                || Self().phase == old(Self().phase)
                || Self().phase == old(PhaseSent(sys, a.(acknowledged := false), Stands(sys, etag), Self().phase))
      ensures r.NetworkFailure? <==> fault != NoFault
      ensures sys == match fault
                     case NoFault => Next(old(sys), a)
                     case RequestLost => old(sys)
                     case ResponseLost => Next(old(sys), a.(acknowledged := false))
      ensures !r.NetworkFailure? ==> (r.Stamped? <==> old(Stands(sys, etag)))
    {
      if fault == RequestLost {
        return NetworkFailure;
      }
      var stood, stamp := Stands(sys, etag), sys.nextEtag;
      var sent := if fault == ResponseLost then a.(acknowledged := false) else a;
      SendEffect(sys, me, sent, etag, doc);
      sys := Next(sys, sent);
      r := if fault == ResponseLost then NetworkFailure else if stood then Stamped(stamp) else PreconditionFailed;
    }

    /** A refresh failed on the network: its handle stays, its promise does not. */
    method Release()
      requires Valid()
      requires Handle(Self().phase).Some?
      modifies this
      ensures Valid()
      ensures sys == Enter(old(sys), me, Released(Handle(old(Self().phase)).value))
      ensures old(Quiet()) ==> Quiet()
    {
      var p := Released(Handle(sys.workers[me].phase).value);
      assert WorkerOk(sys, me);
      EnterInv(sys, me, p);
      sys := Enter(sys, me, p);
    }

    /** The put of a refresh; if it fails on the network the handle stays. */
    method PutRenewal(etag: Etag, doc: Document) returns (r: Response)
      requires Valid()
      requires Sends(sys, me, Renew(me, true), Some(etag), doc)
      modifies this
      ensures Valid()
      ensures Self().cfg == old(Self().cfg) && sys.gen == old(sys.gen)
      ensures r.Stamped? ==>
                && sys.lease == Some(Stored(doc, r.etag))
                && WroteOnceLast(old(sys.history), sys.history, me, doc)
                && Self().phase == Holding(r.etag, old(Self().phase).now)
      ensures r.PreconditionFailed? ==> WroteNothing(old(sys.history), sys.history, me) && !Matches(sys, etag)
      ensures !r.Stamped? ==> Self().phase == Released(etag)
      ensures old(Quiet()) ==> Quiet() && !r.NetworkFailure? && (r.Stamped? <==> old(Matches(sys, etag)))
    {
      r := Put(Some(etag), doc, Renew(me, true));
      if r.NetworkFailure? {
        Release();
      }
    }

    /** The acquire attempt has ended without a lease. */
    method GiveUp()
      requires Valid()
      requires Self().phase.Acquiring? || Self().phase.Idle?
      modifies this
      ensures Valid()
      ensures sys == Enter(old(sys), me, Idle)
      ensures old(Quiet()) ==> Quiet()
    {
      EnterInv(sys, me, Idle);
      sys := Enter(sys, me, Idle);
    }
  }

  /** The seconds a renewal may be left before the next one: a third of the lease, rounded down, but at least a minute. */
  function Patience(seconds: nat): (r: nat)
    ensures 60 <= r && seconds < 3 * r + 3 && (r == 60 || 3 * r <= seconds)
  {
    if 60 < seconds / 3 then seconds / 3 else 60
  }

  /** In the approved range of durations a third of the lease is the larger of the two. */
  lemma PatienceInRange(seconds: nat)
    requires 300 <= seconds <= 7200
    ensures Patience(seconds) == seconds / 3
  {
  }

  class ShardLease {
    const world: World
    const cfg: Config
    var etag: Option<Etag>
    var lastRefreshedAt: int

    constructor (world: World, cfg: Config, etag: Option<Etag>, lastRefreshedAt: int)
      ensures this.world == world && this.cfg == cfg
      ensures this.etag == etag && this.lastRefreshedAt == lastRefreshedAt
    {
      this.world, this.cfg, this.etag, this.lastRefreshedAt := world, cfg, etag, lastRefreshedAt;
    }

    ghost predicate Valid()
      reads this, world
    {
      && world.Valid()
      && world.Self().cfg == cfg
      && (world.Self().phase.Holding? || world.Self().phase.Released? || world.Self().phase.Idle?)
      && Handle(world.Self().phase) == etag
      && (world.Self().phase.Holding? ==> world.Self().phase.last == lastRefreshedAt)
    }

    /** The last acquire or refresh succeeded and nothing was finalised since. */
    ghost predicate Active()
      reads this, world
    {
      Valid() && world.Self().phase.Holding?
    }

    /** The store holds this worker's running lease, under its ETag, field by field. */
    ghost predicate StoredIsMine()
      reads this, world
    {
      && etag.Some? && world.sys.lease.Some? && world.sys.lease.value.etag == etag.value
      && var doc := world.sys.lease.value.doc;
         && doc.identity == cfg.identity && doc.owner == cfg.owner && doc.state == Running
         && doc.updatedAt == lastRefreshedAt && doc.expiresAt == Some(lastRefreshedAt + cfg.seconds * 1_000_000)
    }

    /** The store holds this worker's final lease, under its ETag, field by field. */
    ghost predicate StoredIsFinal(state: LeaseState, stamp: int)
      reads this, world
    {
      && etag.Some? && world.sys.lease.Some? && world.sys.lease.value.etag == etag.value
      && var doc := world.sys.lease.value.doc;
         && doc.identity == cfg.identity && doc.owner == cfg.owner && doc.state == state
         && doc.updatedAt == stamp && doc.expiresAt == None
    }

    method Refresh() returns (r: Outcome<LeaseError>)
      requires Valid()
      modifies this, world
      ensures Valid()
      ensures r.Pass? ==> Active() && StoredIsMine() && old(world.sys.clock) <= lastRefreshedAt
      ensures r.Pass? ==>
                WroteOnceLast(old(world.sys.history), world.sys.history, world.me, RunningDocument(cfg, lastRefreshedAt))
      ensures r.Fail? ==> lastRefreshedAt == old(lastRefreshedAt) && etag == old(etag)
      ensures r == Fail(NoEtag) <==> old(etag).None?
      ensures r == Fail(NoEtag) ==> unchanged(this) && unchanged(world)
      ensures r == Fail(LostOwnership) ==>
                && WroteNothing(old(world.sys.history), world.sys.history, world.me)
                && etag.Some? && !Matches(world.sys, etag.value)
      ensures old(world.Quiet()) ==> (r.Pass? <==> old(etag.Some? && Matches(world.sys, etag.value)))
    {
      if etag.None? {
        return Fail(NoEtag);
      }
      var current := world.Open();
      var response := world.PutRenewal(etag.value, RunningDocument(cfg, current));
      match response
      case Stamped(stamp) =>
        etag := Some(stamp);
        lastRefreshedAt := current;
        r := Pass;
      case PreconditionFailed =>
        r := Fail(LostOwnership);
      case NetworkFailure =>
        r := Fail(Unavailable);
    }

    /**
     * Renews when a third of the lease has gone. On a normal return the stored lease is
     * this worker's own running lease, and at the clock reading used at least the whole
     * duration less the patience was left of it: two thirds, for the approved durations.
     */
    method MaybeRefresh() returns (r: Outcome<LeaseError>, ghost reading: int)
      requires Active()
      requires Patience(cfg.seconds) <= cfg.seconds
      modifies this, world
      ensures Valid()
      ensures r.Pass? ==> Active() && StoredIsMine()
      ensures r.Pass? ==> old(world.sys.clock) <= reading <= world.sys.clock
      ensures r.Pass? ==>
                lastRefreshedAt + Span(cfg) - reading >= (cfg.seconds - Patience(cfg.seconds)) * TICKS_PER_SECOND
      ensures r.Pass? && 300 <= cfg.seconds <= 7200 ==>
                lastRefreshedAt + Span(cfg) - reading >= (cfg.seconds - cfg.seconds / 3) * TICKS_PER_SECOND
      ensures r.Pass? && lastRefreshedAt == old(lastRefreshedAt) && etag == old(etag) ==>
                WroteNothing(old(world.sys.history), world.sys.history, world.me)
      ensures old(world.Quiet() && Owns(world.sys, world.me)) ==> r.Pass?
    {
      if 300 <= cfg.seconds <= 7200 {
        PatienceInRange(cfg.seconds);
      }
      reading := world.sys.clock;
      var now := world.Now();
      reading := now;
      assert WorkerOk(world.sys, world.me);
      if now - lastRefreshedAt >= Patience(cfg.seconds) * TICKS_PER_SECOND {
        r := Refresh();
        reading := if r.Pass? then lastRefreshedAt else reading;
        assert r.Pass? ==> WorkerOk(world.sys, world.me);
      } else {
        r := Pass;
      }
    }

    /** v2: a terminal update that a displaced worker logs and drops. */
    method FinalizeV2(state: LeaseState, stamp: int) returns (r: Outcome<LeaseError>)
      requires Valid()
      modifies this, world
      ensures Valid()
      ensures r == Fail(Unavailable) || r.Pass?
      ensures state !in {Completed, Failed, Stopped} || old(etag).None? ==>
                r.Pass? && unchanged(this) && unchanged(world)
      ensures r.Pass? && etag != old(etag) ==>
                && WroteOnceLast(old(world.sys.history), world.sys.history, world.me, FinalDocument(cfg, state, stamp))
                && StoredIsFinal(state, stamp)
      ensures r.Pass? && etag == old(etag) ==> WroteNothing(old(world.sys.history), world.sys.history, world.me)
      ensures r.Pass? && etag == old(etag) && state in {Completed, Failed, Stopped} && etag.Some? ==>
                !Matches(world.sys, etag.value)
      ensures old(world.Quiet()) ==> r.Pass?
      ensures old(world.Quiet()) && state in {Completed, Failed, Stopped} && old(etag.Some? && Matches(world.sys, etag.value)) ==>
                StoredIsFinal(state, stamp)
    {
      if state !in {Completed, Failed, Stopped} || etag.None? {
        return Pass;
      }
      var a := Finish(world.me, state, stamp, true);
      assert WorkerOk(world.sys, world.me);
      var response := world.Put(etag, FinalDocument(cfg, state, stamp), a);
      match response
      case Stamped(stamped) =>
        etag := Some(stamped);
        r := Pass;
      case PreconditionFailed =>
        r := Pass;
      case NetworkFailure =>
        r := Fail(Unavailable);
    }

    /** GCP: the same terminal update, but a lost fence is raised. */
    method FinaliseGcp(state: LeaseState, stamp: int) returns (r: Outcome<LeaseError>)
      requires Valid()
      modifies this, world
      ensures Valid()
      ensures state !in {Completed, Failed, Stopped} || old(etag).None? ==>
                r.Pass? && unchanged(this) && unchanged(world)
      ensures r.Pass? && state in {Completed, Failed, Stopped} && old(etag).Some? ==>
                && WroteOnceLast(old(world.sys.history), world.sys.history, world.me, FinalDocument(cfg, state, stamp))
                && StoredIsFinal(state, stamp)
      ensures r.Pass? && state == Completed && old(etag).Some? && world.sys.gen == GcpR2 ==>
                forall steps | (forall a | a in steps :: Leaves(a, world.me)) :: Run(world.sys, steps).lease == world.sys.lease
      ensures r == Fail(LostOwnership) ==>
                && etag == old(etag) && etag.Some? && !Matches(world.sys, etag.value)
                && WroteNothing(old(world.sys.history), world.sys.history, world.me)
      ensures old(world.Quiet()) && state in {Completed, Failed, Stopped} && old(etag).Some? ==>
                (r.Pass? <==> old(Matches(world.sys, etag.value)))
    {
      if state !in {Completed, Failed, Stopped} || etag.None? {
        return Pass;
      }
      var a := Finish(world.me, state, stamp, true);
      var response := world.Put(etag, FinalDocument(cfg, state, stamp), a);
      match response
      case Stamped(stamped) =>
        etag := Some(stamped);
        if state == Completed && world.sys.gen == GcpR2 {
          forall steps | forall a | a in steps :: Leaves(a, world.me)
            ensures Run(world.sys, steps).lease == world.sys.lease
          {
            OwnedCompletedStays(world.sys, world.me, steps);
          }
        }
        r := Pass;
      case PreconditionFailed =>
        r := Fail(LostOwnership);
      case NetworkFailure =>
        r := Fail(Unavailable);
    }
  }

  /** How one round of a v2 acquire ends. */
  datatype Round = Won(stamp: Etag) | Again | Over(error: LeaseError)

  /** One round: read the lease, decide, and put on exactly what was read. */
  method RoundV2(world: World, cfg: Config, current: int, round: nat, ghost since: seq<Write>) returns (r: Round)
    requires world.Valid() && world.sys.gen == AwsV2 && round < ACQUIRE_ATTEMPTS
    requires world.Self() == Worker(cfg, Acquiring(current, round, None))
    requires WroteNothing(since, world.sys.history, world.me)
    modifies world
    ensures world.Valid() && world.Self().cfg == cfg && world.sys.gen == AwsV2
    ensures r.Won? ==>
              && world.Self().phase == Holding(r.stamp, current)
              && world.sys.lease == Some(Stored(RunningDocument(cfg, current), r.stamp))
              && WroteOnceLast(since, world.sys.history, world.me, RunningDocument(cfg, current))
    ensures r.Again? ==>
              && world.Self().phase == TryAgain(AwsV2, current, round)
              && WroteNothing(since, world.sys.history, world.me)
    ensures r.Over? ==> world.Self().phase == Idle
    ensures r.Over? && r.error != Unavailable ==> WroteNothing(since, world.sys.history, world.me)
    ensures old(world.Quiet()) ==>
              && !r.Again?
              && (r.Won? <==> old(world.sys.lease.None? || Admit(AwsV2, world.sys.lease.value.doc, cfg, current).None?))
              && (r.Over? ==> r.error == old(Refused(Admit(AwsV2, world.sys.lease.value.doc, cfg, current).value)))
  {
    ghost var start := world.sys.history;
    var existing := world.Get();
    NothingThen(since, start, world.sys.history, world.me, RunningDocument(cfg, current));
    if existing.None? {
      world.GiveUp();
      return Over(Unavailable);
    }
    var etag: Option<Etag> := None;
    if existing.value.Some? {
      var refusal := Admit(AwsV2, existing.value.value.doc, cfg, current);
      if refusal.Some? {
        world.GiveUp();
        return Over(Refused(refusal.value));
      }
      etag := Some(existing.value.value.etag);
    }
    ghost var upTo := world.sys.history;
    var response := world.Put(etag, RunningDocument(cfg, current), Claim(world.me, true));
    NothingThen(since, upTo, world.sys.history, world.me, RunningDocument(cfg, current));
    match response
    case Stamped(stamped) =>
      r := Won(stamped);
    case PreconditionFailed =>
      r := Again;
    case NetworkFailure =>
      world.GiveUp();
      r := Over(Unavailable);
  }

  /** v2: claim the lease in at most three rounds, or say why not. */
  method AcquireV2(world: World, cfg: Config) returns (r: Result<ShardLease, LeaseError>)
    requires world.Valid() && world.Self() == Worker(cfg, Idle) && world.sys.gen == AwsV2
    modifies world
    ensures world.Valid()
    ensures r.Success? ==>
              && fresh(r.value) && r.value.world == world && r.value.cfg == cfg
              && r.value.Active() && r.value.StoredIsMine()
              && old(world.sys.clock) <= r.value.lastRefreshedAt
              && WroteOnceLast(old(world.sys.history), world.sys.history, world.me,
                   RunningDocument(cfg, r.value.lastRefreshedAt))
    ensures r.Failure? && r.error != Unavailable ==>
              WroteNothing(old(world.sys.history), world.sys.history, world.me)
    ensures r.Failure? ==> world.Self() == Worker(cfg, Idle)
    ensures old(world.Quiet()) ==>
              var found, now := old(world.sys.lease), old(world.sys.clock);
              && (found.None? ==> r.Success?)
              && (found.Some? ==>
                    var doc := found.value.doc;
                    r.Success? <==>
                      && doc.identity == cfg.identity
                      && (doc.state == Running ==> doc.expiresAt.Some? && doc.expiresAt.value <= now && cfg.takeover))
              && (r.Failure? ==> r.error == old(Refused(Admit(AwsV2, world.sys.lease.value.doc, cfg, world.sys.clock).value)))
  {
    var current := world.Open();
    if world.sys.lease.Some? {
      AdmitV2Is(world.sys.lease.value.doc, cfg, current);
    }
    for round := 0 to ACQUIRE_ATTEMPTS
      invariant world.Valid() && world.Self().cfg == cfg && world.sys.gen == AwsV2
      invariant world.Self().phase == (if round < ACQUIRE_ATTEMPTS then Acquiring(current, round, None) else Idle)
      invariant old(world.sys.clock) <= current
      invariant WroteNothing(old(world.sys.history), world.sys.history, world.me)
      invariant old(world.Quiet()) ==>
                  round == 0 && world.Quiet() && world.sys.lease == old(world.sys.lease) && current == old(world.sys.clock)
    {
      var outcome := RoundV2(world, cfg, current, round, old(world.sys.history));
      match outcome
      case Won(stamp) =>
        var lease := new ShardLease(world, cfg, Some(stamp), current);
        return Success(lease);
      case Again =>
      case Over(error) =>
        return Failure(error);
    }
    r := Failure(Contended);
  }

  /** GCP: one read, one conditional put, no second round. */
  method AcquireGcp(world: World, cfg: Config) returns (r: Result<ShardLease, LeaseError>)
    requires world.Valid() && world.Self() == Worker(cfg, Idle) && world.sys.gen == GcpR2
    modifies world
    ensures world.Valid()
    ensures r.Success? ==>
              && fresh(r.value) && r.value.world == world && r.value.cfg == cfg
              && r.value.Active() && r.value.StoredIsMine()
              && old(world.sys.clock) <= r.value.lastRefreshedAt
              && WroteOnceLast(old(world.sys.history), world.sys.history, world.me,
                   RunningDocument(cfg, r.value.lastRefreshedAt))
    ensures r.Failure? && r.error != Unavailable ==>
              WroteNothing(old(world.sys.history), world.sys.history, world.me)
    ensures r.Failure? ==> world.Self() == Worker(cfg, Idle)
    ensures old(world.Quiet()) ==>
              var found, now := old(world.sys.lease), old(world.sys.clock);
              && (found.None? ==> r.Success?)
              && (found.Some? ==>
                    var doc := found.value.doc;
                    r.Success? <==>
                      && doc.identity == cfg.identity && doc.state != Completed && cfg.takeover
                      && (doc.state == Running ==> doc.expiresAt.Some? && doc.expiresAt.value <= now))
              && (r.Failure? ==> r.error == old(Refused(Admit(GcpR2, world.sys.lease.value.doc, cfg, world.sys.clock).value)))
  {
    var now := world.Open();
    if world.sys.lease.Some? {
      AdmitGcpIs(world.sys.lease.value.doc, cfg, now);
    }
    var existing := world.Get();
    if existing.None? {
      world.GiveUp();
      return Failure(Unavailable);
    }
    var etag: Option<Etag> := None;
    if existing.value.Some? {
      var refusal := Admit(GcpR2, existing.value.value.doc, cfg, now);
      if refusal.Some? {
        world.GiveUp();
        return Failure(Refused(refusal.value));
      }
      etag := Some(existing.value.value.etag);
    }
    r := ClaimGcp(world, cfg, now, etag, old(world.sys.history));
  }

  /** The conditional put of a GCP acquire, on what was read. */
  method ClaimGcp(world: World, cfg: Config, now: int, etag: Option<Etag>, ghost since: seq<Write>) returns (r: Result<ShardLease, LeaseError>)
    requires world.Valid() && world.Self().cfg == cfg && world.sys.gen == GcpR2
    requires world.Self().phase.Acquiring? && world.Self().phase.now == now && world.Self().phase.seen.Some?
    requires Sends(world.sys, world.me, Claim(world.me, true), etag, RunningDocument(cfg, now))
    requires WroteNothing(since, world.sys.history, world.me)
    modifies world
    ensures world.Valid()
    ensures r.Success? ==>
              && fresh(r.value) && r.value.world == world && r.value.cfg == cfg && r.value.lastRefreshedAt == now
              && r.value.Active() && r.value.StoredIsMine()
              && WroteOnceLast(since, world.sys.history, world.me, RunningDocument(cfg, now))
    ensures r.Failure? ==> world.Self() == Worker(cfg, Idle)
    ensures r.Failure? && r.error != Unavailable ==> WroteNothing(since, world.sys.history, world.me)
    ensures old(world.Quiet()) ==> (r.Success? <==> old(Stands(world.sys, etag)))
  {
    ghost var upTo := world.sys.history;
    var response := world.Put(etag, RunningDocument(cfg, now), Claim(world.me, true));
    NothingThen(since, upTo, world.sys.history, world.me, RunningDocument(cfg, now));
    match response
    case Stamped(stamped) =>
      var lease := new ShardLease(world, cfg, Some(stamped), now);
      r := Success(lease);
    case PreconditionFailed =>
      r := Failure(LostOwnership);
    case NetworkFailure =>
      world.GiveUp();
      r := Failure(Unavailable);
  }
}
