/**
The shard lease and the uploads it guards, together: every worker of a shard has a lease record
and a program of store requests, and makes requests only while it takes itself for the holder.
The fence of the lease object does not reach the uploads; what a worker that has lost the lease
without knowing it can still do to the shard is the subject here.
*/
module LeasedShard {
  import opened Wrappers
  import opened Publication
  import opened Programs
  import L = LeaseProtocol
  import RawShard
  import RawPrograms

  /** Worker `w` of the lease machine runs program `w`; a restarted container is one more worker. */
  datatype Shard = Shard(leases: L.System, net: Net)

  datatype Turn = Lease(step: L.Step) | Request(move: Move)

  /** Its last acquire or refresh succeeded, as far as the worker itself knows. */
  predicate AtWork(leases: L.System, w: nat) {
    w < |leases.workers| && leases.workers[w].phase.Holding?
  }

  function Take(p: Protocol, programs: seq<Program>, s: Shard, t: Turn): (r: Shard)
    requires |s.net.runners| == |programs|
    ensures |r.net.runners| == |programs|
  {
    match t
    case Lease(step) => s.(leases := L.Next(s.leases, step))
    case Request(move) => if AtWork(s.leases, move.w) then s.(net := Play(p, programs, s.net, move)) else s
  }

  function TakeAll(p: Protocol, programs: seq<Program>, s: Shard, turns: seq<Turn>): (r: Shard)
    requires |s.net.runners| == |programs|
    ensures |r.net.runners| == |programs|
    decreases |turns|
  {
    if turns == [] then s else TakeAll(p, programs, Take(p, programs, s, turns[0]), turns[1..])
  }

  /** The lease steps of the turns, and the requests that were made. */
  lemma {:induction false} Projects(p: Protocol, programs: seq<Program>, s: Shard, turns: seq<Turn>)
    returns (steps: seq<L.Step>, moves: seq<Move>)
    requires |s.net.runners| == |programs|
    ensures TakeAll(p, programs, s, turns).leases == L.Run(s.leases, steps)
    ensures TakeAll(p, programs, s, turns).net == PlayAll(p, programs, s.net, moves)
    decreases |turns|
  {
    steps, moves := [], [];
    if turns != [] {
      var next := Take(p, programs, s, turns[0]);
      var laterSteps, laterMoves := Projects(p, programs, next, turns[1..]);
      steps, moves := laterSteps, laterMoves;
      match turns[0]
      case Lease(step) =>
        steps := [step] + laterSteps;
        assert steps[0] == step && steps[1..] == laterSteps;
      case Request(move) =>
        if AtWork(s.leases, move.w) {
          moves := [move] + laterMoves;
          assert moves[0] == move && moves[1..] == laterMoves;
        }
    }
  }

  /** Is the turn one of this worker's own? */
  predicate TurnOf(t: Turn, w: nat) {
    match t
    case Lease(step) => !step.Tick? && step.w == w
    case Request(move) => move.w == w
  }

  /** The stores differ by nothing, or by one object whose put was supported. */
  ghost predicate AddsSupported(p: Protocol, programs: seq<Program>, before: Net, after: Store, w: nat)
    requires w < |programs| && |before.runners| == |programs|
  {
    after == before.store
    || exists key, body ::
         && key !in before.store && Supported(p, before.store, key, body)
         && programs[w](before.runners[w].log) == Upload(key, body)
         && after == WithObject(p, before.store, key, body)
  }

  ghost predicate Ok(p: Protocol, programs: seq<Program>, s: Shard) {
    L.Inv(s.leases) && NetInv(p, programs, s.net) && forall program | program in programs :: Disciplined(p, program)
  }

  lemma TakeKeepsOk(p: Protocol, programs: seq<Program>, s: Shard, t: Turn)
    requires Ok(p, programs, s)
    ensures Ok(p, programs, Take(p, programs, s, t)) && Grows(s.net.store, Take(p, programs, s, t).net.store)
  {
    match t
    case Lease(step) => L.StepInv(s.leases, step);
    case Request(move) => PlayInv(p, programs, s.net, move);
  }

  /**
   * One turn of a worker that has lost the lease: the lease stays as it is, and the shard stays
   * as it is or gains one object, under a free key, with everything it records or presupposes
   * in place already.
   */
  lemma DisplacedTurn(p: Protocol, programs: seq<Program>, s: Shard, t: Turn, w: nat, e: L.Etag)
    requires Ok(p, programs, s) && w < |programs| && L.Displaced(s.leases, w, e) && TurnOf(t, w)
    ensures var after := Take(p, programs, s, t);
            && L.Displaced(after.leases, w, e) && after.leases.lease == s.leases.lease
            && AddsSupported(p, programs, s.net, after.net.store, w)
  {
    match t
    case Lease(step) => L.DisplacedStep(s.leases, step, w, e);
    case Request(move) =>
      var after := Take(p, programs, s, t);
      if after.net.store != s.net.store {
        assert programs[w] in programs;
        SentIsSupported(p, programs, s.net, w);
      }
  }

  /**
   * However the shard goes on, a worker that has lost the lease never rewrites it, and each of
   * its turns adds at most one supported object; nothing in the store is ever replaced.
   */
  lemma {:induction false} DisplacedOnlyAdds(
    p: Protocol, programs: seq<Program>, s: Shard, turns: seq<Turn>, i: nat, w: nat, e: L.Etag)
    requires Ok(p, programs, s) && w < |programs| && L.Displaced(s.leases, w, e)
    requires i < |turns| && TurnOf(turns[i], w)
    ensures var before := TakeAll(p, programs, s, turns[..i]);
            var after := TakeAll(p, programs, s, turns[..i + 1]);
            && L.Displaced(before.leases, w, e) && !L.Owns(before.leases, w)
            && after.leases.lease == before.leases.lease
            && AddsSupported(p, programs, before.net, after.net.store, w)
            && Grows(s.net.store, before.net.store) && Closed(p, after.net.store)
    decreases |turns|
  {
    var next := Take(p, programs, s, turns[0]);
    TakeKeepsOk(p, programs, s, turns[0]);
    if i == 0 {
      DisplacedTurn(p, programs, s, turns[0], w, e);
      assert turns[..1] == [turns[0]] && turns[..0] == [];
      assert TakeAll(p, programs, s, [turns[0]]) == TakeAll(p, programs, next, [turns[0]][1..]);
    } else {
      StaysDisplaced(s.leases, turns[0], w, e);
      DisplacedOnlyAdds(p, programs, next, turns[1..], i - 1, w, e);
      assert turns[1..][..i - 1] == turns[..i][1..] && turns[1..][..i] == turns[..i + 1][1..];
    }
  }

  lemma StaysDisplaced(leases: L.System, t: Turn, w: nat, e: L.Etag)
    requires L.Inv(leases) && L.Displaced(leases, w, e)
    ensures t.Lease? ==> L.Displaced(L.Next(leases, t.step), w, e)
  {
    if t.Lease? {
      L.DisplacedStep(leases, t.step, w, e);
    }
  }

  // ---------------------------------------------------------------- the fence does not reach the uploads

  lemma {:induction false} TakeMore(p: Protocol, programs: seq<Program>, s: Shard, turns: seq<Turn>, t: Turn)
    requires |s.net.runners| == |programs|
    ensures TakeAll(p, programs, s, turns + [t]) == Take(p, programs, TakeAll(p, programs, s, turns), t)
    decreases |turns|
  {
    if turns == [] {
      assert (turns + [t])[1..] == [];
    } else {
      assert (turns + [t])[1..] == turns[1..] + [t];
      TakeMore(p, programs, Take(p, programs, s, turns[0]), turns[1..], t);
    }
  }

  /** Some turns lead from one state of the shard to the other. */
  ghost predicate Leads(p: Protocol, programs: seq<Program>, s: Shard, r: Shard)
    requires |s.net.runners| == |programs|
  {
    exists turns :: TakeAll(p, programs, s, turns) == r
  }

  lemma LeadsMore(p: Protocol, programs: seq<Program>, s: Shard, r: Shard, t: Turn)
    requires |s.net.runners| == |r.net.runners| == |programs| && Leads(p, programs, s, r)
    ensures Leads(p, programs, s, Take(p, programs, r, t))
  {
    var turns :| TakeAll(p, programs, s, turns) == r;
    TakeMore(p, programs, s, turns, t);
  }

  /** Two workers with one assignment, the second allowed to take over, and no lease yet. */
  predicate TwoWorkers(leases: L.System) {
    && |leases.workers| == 2 && leases.workers[0].phase == leases.workers[1].phase == L.Idle
    && leases.workers[0].cfg.identity == leases.workers[1].cfg.identity && leases.workers[1].cfg.takeover
    && leases.lease == None && leases.history == []
  }

  lemma FirstAcquires(l: L.System)
    requires TwoWorkers(l)
    ensures var r := L.Next(L.Next(L.Next(l, L.Begin(0)), L.Look(0)), L.Claim(0, true));
            && |r.workers| == 2 && r.workers[0] == L.Worker(l.workers[0].cfg, L.Holding(l.nextEtag, l.clock))
            && r.workers[1] == l.workers[1] && r.gen == l.gen && r.clock == l.clock && r.nextEtag == l.nextEtag + 1
            && r.lease == Some(L.Stored(L.RunningDocument(l.workers[0].cfg, l.clock), l.nextEtag))
  {
  }

  lemma SecondTakesOver(r: L.System, cfg: L.Config, e: L.Etag, last: int)
    requires |r.workers| == 2 && r.workers[0].phase == L.Holding(e, last) && r.workers[1].phase == L.Idle && e < r.nextEtag
    requires r.lease == Some(L.Stored(L.RunningDocument(cfg, last), e)) && last + L.Span(cfg) <= r.clock
    requires r.workers[1].cfg.identity == cfg.identity && r.workers[1].cfg.takeover
    ensures var t := L.Next(L.Next(L.Next(r, L.Begin(1)), L.Look(1)), L.Claim(1, true));
            && AtWork(t, 0) && AtWork(t, 1) && L.Displaced(t, 0, e) && L.Owns(t, 1)
  {
  }

  /** Three requests of one acquisition, on the lease alone. */
  lemma LeadsByAcquisition(p: Protocol, programs: seq<Program>, s: Shard, leases: L.System, w: nat)
    requires |s.net.runners| == |programs| && Leads(p, programs, s, Shard(leases, s.net))
    ensures Leads(p, programs, s, Shard(L.Next(L.Next(L.Next(leases, L.Begin(w)), L.Look(w)), L.Claim(w, true)), s.net))
  {
    var begun := L.Next(leases, L.Begin(w));
    var looked := L.Next(begun, L.Look(w));
    LeadsMore(p, programs, s, Shard(leases, s.net), Lease(L.Begin(w)));
    LeadsMore(p, programs, s, Shard(begun, s.net), Lease(L.Look(w)));
    LeadsMore(p, programs, s, Shard(looked, s.net), Lease(L.Claim(w, true)));
  }

  /** Worker 0 acquires, its lease runs out, worker 1 takes over, and worker 0 has not noticed. */
  lemma Overtaken(p: Protocol, programs: seq<Program>, s: Shard) returns (leases: L.System)
    requires TwoWorkers(s.leases) && |s.net.runners| == |programs|
    ensures Leads(p, programs, s, Shard(leases, s.net))
    ensures AtWork(leases, 0) && L.Displaced(leases, 0, s.leases.nextEtag) && L.Owns(leases, 1)
  {
    var cfg := s.leases.workers[0].cfg;
    assert TakeAll(p, programs, s, []) == Shard(s.leases, s.net);
    LeadsByAcquisition(p, programs, s, s.leases, 0);
    FirstAcquires(s.leases);
    var first := L.Next(L.Next(L.Next(s.leases, L.Begin(0)), L.Look(0)), L.Claim(0, true));
    LeadsMore(p, programs, s, Shard(first, s.net), Lease(L.Tick(L.Span(cfg))));
    var expired := L.Next(first, L.Tick(L.Span(cfg)));
    LeadsByAcquisition(p, programs, s, expired, 1);
    SecondTakesOver(expired, cfg, s.leases.nextEtag, s.leases.clock);
    leases := L.Next(L.Next(L.Next(expired, L.Begin(1)), L.Look(1)), L.Claim(1, true));
  }

  /**
   * The fence guards the lease object and not the shard: a worker whose lease ran out and was
   * taken over, and that has not renewed since, still puts the first object it has to put.
   */
  lemma DisplacedStillUploads(p: Protocol, programs: seq<Program>, s: Shard, key: Key, body: Body) returns (turns: seq<Turn>)
    requires TwoWorkers(s.leases) && |programs| == 2 && s.net == Fresh(2)
    requires programs[0]([]) == Upload(key, body) && !TooLarge(p, body)
    ensures var r := TakeAll(p, programs, s, turns);
            && L.Displaced(r.leases, 0, s.leases.nextEtag) && L.Owns(r.leases, 1)
            && r.net.store == WithObject(p, map[], key, body)
  {
    var leases := Overtaken(p, programs, s);
    LeadsMore(p, programs, s, Shard(leases, s.net), Request(Probe(0)));
    var probed := Take(p, programs, Shard(leases, s.net), Request(Probe(0)));
    LeadsMore(p, programs, s, probed, Request(Send(0)));
    var sent := Take(p, programs, probed, Request(Send(0)));
    turns :| TakeAll(p, programs, s, turns) == sent;
  }

  // ---------------------------------------------------------------- what the two give together

  /** Idle workers, any lease object, and an empty prefix. */
  ghost predicate Initial(programs: seq<Program>, s: Shard) {
    L.Initial(s.leases) && s.net == Fresh(|programs|)
  }

  /**
   * Workers of `run_shard` under their lease, in any order of lease requests, store requests,
   * clock steps, takeovers and crashes: one worker owns the lease, two workers that would still
   * trust theirs are the same; and whoever owned it, every metrics object vouches for its files
   * and the marker means a whole shard.
   */
  lemma LeasedWorkers(
    p: Protocol, c: RawShard.Contract, attempts: seq<RawShard.Attempt>, s: Shard, turns: seq<Turn>, v: nat, w: nat)
    requires RawShard.ForShard(p, c.inputs) && Initial(RawPrograms.ShardPrograms(p, c, attempts), s)
    ensures var r := TakeAll(p, RawPrograms.ShardPrograms(p, c, attempts), s, turns);
            && (L.Owns(r.leases, v) && L.Owns(r.leases, w) ==> v == w)
            && (L.Live(r.leases, w) ==> L.Owns(r.leases, w))
            && (L.Live(r.leases, v) && L.Live(r.leases, w) ==> v == w)
            && IsARun(p, |attempts|, r.net.store)
            && (forall source | Artifact(Metrics, source) in r.net.store :: RawShard.VouchedFor(p, r.net.store, source))
            && (RawShard.RAW_COMPLETED in r.net.store ==> RawShard.Whole(p, r.net.store, c.inputs))
  {
    var programs := RawPrograms.ShardPrograms(p, c, attempts);
    var steps, moves := Projects(p, programs, s, turns);
    L.MutualExclusion(s.leases, steps, v, w);
    RawPrograms.WorkersAreARun(p, c, attempts, moves);
  }
}
