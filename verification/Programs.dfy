/**
Programs on one prefix: any number of runners, each with its own deterministic program that
decides the next store request from the answers it has had so far. A program is disciplined
when it uploads an object only once the answers show that everything the object records or
presupposes is in place; interleaved runs of such programs are runs of the publication machine.
*/
module Programs {
  import opened Wrappers
  import opened Collections
  import opened Publication
  import ObjectStore

  /** What a program does next. */
  datatype Action = Read(key: Key) | List | Upload(key: Key, body: Body) | Stop

  /** How the store answered. */
  datatype Event = Saw(key: Key, found: Option<Object>) | Listed(keys: set<Key>) | Uploaded(key: Key, body: Body, reused: bool)

  type Log = seq<Event>

  type Program = Log -> Action

  predicate Answers(action: Action, event: Event) {
    match action
    case Read(key) => event.Saw? && event.key == key
    case List => event.Listed?
    case Upload(key, body) => event.Uploaded? && event.key == key && event.body == body
    case Stop => false
  }

  /** The log is one that the program can have had: each event answers its request. */
  predicate Follows(program: Program, log: Log) {
    forall n: nat | n < |log| :: Answers(program(log[..n]), log[n])
  }

  /** What the log has seen or uploaded is in the store. */
  predicate Witnessed(p: Protocol, store: Store, log: Log) {
    forall event | event in log ::
      match event
      case Saw(key, found) => found.Some? ==> key in store && store[key] == found.value
      case Listed(keys) => keys <= store.Keys
      case Uploaded(key, body, _) => Present(p, store, RefTo(p, key, body))
  }

  ghost predicate Disciplined(p: Protocol, program: Program) {
    forall store, log, key, body |
      Closed(p, store) && Follows(program, log) && Witnessed(p, store, log) && program(log) == Upload(key, body) ::
      Supported(p, store, key, body)
  }

  // ---------------------------------------------------------------- runners

  /** `absent`: the HEAD before the put found nothing. A runner that has died stays dead. */
  datatype Runner = Runner(log: Log, absent: bool, alive: bool)

  datatype Net = Net(store: Store, runners: seq<Runner>)

  /**
   * `Ask` is a read or a listing; `Probe` and `Send` are the HEAD and the put of an upload,
   * the HEAD being made again after the put. `Die` is a crash, a lost request or a lost answer.
   */
  datatype Move = Ask(w: nat) | Probe(w: nat) | Send(w: nat) | Die(w: nat)

  function WithRunner(net: Net, w: nat, runner: Runner): Net
    requires w < |net.runners|
  {
    net.(runners := net.runners[w := runner])
  }

  function Play(p: Protocol, programs: seq<Program>, net: Net, m: Move): Net
    requires |net.runners| == |programs|
  {
    if m.w >= |programs| || !net.runners[m.w].alive then net
    else
      var me := net.runners[m.w];
      match m
      case Ask(w) => WithRunner(net, w, Asked(net.store, me, programs[w](me.log)))
      case Probe(w) => WithRunner(net, w, Probed(p, net.store, me, programs[w](me.log)))
      case Send(w) => net.(store := Sent(p, net.store, me, programs[w](me.log)))
      case Die(w) => WithRunner(net, w, me.(alive := false))
  }

  function Asked(store: Store, me: Runner, action: Action): Runner {
    match action
    case Read(key) => me.(log := me.log + [Saw(key, if key in store then Some(store[key]) else None)])
    case List => me.(log := me.log + [Listed(store.Keys)])
    case _ => me
  }

  predicate TooLarge(p: Protocol, body: Body) {
    body.Blob? && p.size(body) > ObjectStore.MAX_SINGLE_PUT_BYTES
  }

  function Probed(p: Protocol, store: Store, me: Runner, action: Action): Runner {
    if !action.Upload? then me
    else if action.key !in store then
      if TooLarge(p, action.body) then me.(alive := false) else me.(absent := true)
    else if Present(p, store, RefTo(p, action.key, action.body)) then
      Runner(me.log + [Uploaded(action.key, action.body, !me.absent)], false, true)
    else me.(alive := false)
  }

  function Sent(p: Protocol, store: Store, me: Runner, action: Action): Store {
    if !action.Upload? || !me.absent || action.key in store then store
    else WithObject(p, store, action.key, action.body)
  }

  function PlayAll(p: Protocol, programs: seq<Program>, net: Net, moves: seq<Move>): Net
    requires |net.runners| == |programs|
    ensures |PlayAll(p, programs, net, moves).runners| == |programs|
    decreases |moves|
  {
    if moves == [] then net else PlayAll(p, programs, Play(p, programs, net, moves[0]), moves[1..])
  }

  function Fresh(runners: nat): Net {
    Net(map[], seq(runners, _ => Runner([], false, true)))
  }

  // ---------------------------------------------------------------- invariant

  ghost predicate RunnerOk(p: Protocol, program: Program, store: Store, runner: Runner) {
    Follows(program, runner.log) && Witnessed(p, store, runner.log)
  }

  /** Some runner's program asked for this very object. */
  ghost predicate AskedFor(program: Program, log: Log, key: Key, body: Body) {
    exists n: nat :: n <= |log| && program(log[..n]) == Upload(key, body)
  }

  ghost predicate Authored(programs: seq<Program>, net: Net, key: Key, body: Body)
    requires |net.runners| == |programs|
  {
    exists w: nat :: w < |programs| && AskedFor(programs[w], net.runners[w].log, key, body)
  }

  ghost predicate NetInv(p: Protocol, programs: seq<Program>, net: Net) {
    && |net.runners| == |programs|
    && Closed(p, net.store)
    && (forall w: nat | w < |programs| :: RunnerOk(p, programs[w], net.store, net.runners[w]))
    && forall key | key in net.store :: Authored(programs, net, key, net.store[key].body)
  }

  lemma FollowsMore(program: Program, log: Log, event: Event)
    requires Follows(program, log) && Answers(program(log), event)
    ensures Follows(program, log + [event])
  {
    forall n: nat | n < |log| + 1
      ensures Answers(program((log + [event])[..n]), (log + [event])[n])
    {
      assert (log + [event])[..n] == log[..n];
      assert log[..|log|] == log;
    }
  }

  lemma PrefixFollows(p: Protocol, program: Program, store: Store, log: Log, n: nat)
    requires Follows(program, log) && Witnessed(p, store, log) && n <= |log|
    ensures Follows(program, log[..n]) && Witnessed(p, store, log[..n])
  {
    forall m: nat | m < n
      ensures Answers(program(log[..n][..m]), log[..n][m])
    {
      assert log[..n][..m] == log[..m];
    }
    assert forall event | event in log[..n] :: event in log;
  }

  /** A log is a shorter one and one more answer. */
  lemma LastAnswer(p: Protocol, program: Program, store: Store, log: Log)
    requires Follows(program, log) && Witnessed(p, store, log) && log != []
    ensures var n := |log| - 1;
            && Follows(program, log[..n]) && Witnessed(p, store, log[..n])
            && Answers(program(log[..n]), log[n]) && Witnessed(p, store, [log[n]])
  {
    var n := |log| - 1;
    PrefixFollows(p, program, store, log, n);
    assert log[n] in log;
  }

  lemma WitnessedGrows(p: Protocol, store: Store, later: Store, log: Log)
    requires Witnessed(p, store, log) && Grows(store, later)
    ensures Witnessed(p, later, log)
  {
  }

  /** What a log's prefix asked for, the longer log has asked for. */
  lemma AskedForMore(program: Program, log: Log, event: Event, key: Key, body: Body)
    requires AskedFor(program, log, key, body)
    ensures AskedFor(program, log + [event], key, body)
  {
    var n: nat :| n <= |log| && program(log[..n]) == Upload(key, body);
    assert (log + [event])[..n] == log[..n];
  }

  lemma AuthoredStill(programs: seq<Program>, net: Net, later: Net, key: Key, body: Body)
    requires |net.runners| == |later.runners| == |programs| && Authored(programs, net, key, body)
    requires forall w: nat | w < |programs| ::
               later.runners[w].log == net.runners[w].log
               || exists event :: later.runners[w].log == net.runners[w].log + [event]
    ensures Authored(programs, later, key, body)
  {
    var w: nat :| w < |programs| && AskedFor(programs[w], net.runners[w].log, key, body);
    if later.runners[w].log != net.runners[w].log {
      var event :| later.runners[w].log == net.runners[w].log + [event];
      AskedForMore(programs[w], net.runners[w].log, event, key, body);
    }
  }

  /** A put sent by a disciplined program is supported, so it keeps the store closed. */
  lemma SentIsSupported(p: Protocol, programs: seq<Program>, net: Net, w: nat)
    requires NetInv(p, programs, net) && w < |programs| && Disciplined(p, programs[w])
    requires Sent(p, net.store, net.runners[w], programs[w](net.runners[w].log)) != net.store
    ensures var action := programs[w](net.runners[w].log);
            && action.Upload? && action.key !in net.store && Supported(p, net.store, action.key, action.body)
            && Sent(p, net.store, net.runners[w], action) == WithObject(p, net.store, action.key, action.body)
  {
    assert RunnerOk(p, programs[w], net.store, net.runners[w]);
  }

  lemma SendInv(p: Protocol, programs: seq<Program>, net: Net, w: nat)
    requires NetInv(p, programs, net) && w < |programs| && Disciplined(p, programs[w]) && net.runners[w].alive
    ensures NetInv(p, programs, Play(p, programs, net, Send(w)))
    ensures Grows(net.store, Play(p, programs, net, Send(w)).store)
  {
    var t := Play(p, programs, net, Send(w));
    if t.store != net.store {
      SentIsSupported(p, programs, net, w);
      var log := net.runners[w].log;
      var action := programs[w](log);
      PutKeepsClosed(p, net.store, action.key, action.body);
      forall v: nat | v < |programs|
        ensures RunnerOk(p, programs[v], t.store, t.runners[v])
      {
        assert RunnerOk(p, programs[v], net.store, net.runners[v]);
        WitnessedGrows(p, net.store, t.store, net.runners[v].log);
      }
      forall key | key in t.store
        ensures Authored(programs, t, key, t.store[key].body)
      {
        if key == action.key {
          assert log[..|log|] == log;
          assert AskedFor(programs[w], log, key, action.body);
        } else {
          assert Authored(programs, net, key, net.store[key].body);
          AuthoredStill(programs, net, t, key, net.store[key].body);
        }
      }
    }
  }

  /** A step that only moves one runner on. */
  lemma RunnerInv(p: Protocol, programs: seq<Program>, net: Net, w: nat, runner: Runner)
    requires NetInv(p, programs, net) && w < |programs|
    requires runner.log == net.runners[w].log
             || exists event ::
                  && runner.log == net.runners[w].log + [event] && Answers(programs[w](net.runners[w].log), event)
                  && Witnessed(p, net.store, [event])
    ensures NetInv(p, programs, WithRunner(net, w, runner))
  {
    var t := WithRunner(net, w, runner);
    assert RunnerOk(p, programs[w], net.store, net.runners[w]);
    if runner.log != net.runners[w].log {
      var event :| runner.log == net.runners[w].log + [event] && Answers(programs[w](net.runners[w].log), event)
                   && Witnessed(p, net.store, [event]);
      FollowsMore(programs[w], net.runners[w].log, event);
      assert event in [event];
    }
    forall v: nat | v < |programs|
      ensures RunnerOk(p, programs[v], t.store, t.runners[v])
    {
      assert RunnerOk(p, programs[v], net.store, net.runners[v]);
    }
    forall key | key in t.store
      ensures Authored(programs, t, key, t.store[key].body)
    {
      AuthoredStill(programs, net, t, key, net.store[key].body);
    }
  }

  lemma PlayInv(p: Protocol, programs: seq<Program>, net: Net, m: Move)
    requires NetInv(p, programs, net) && forall program | program in programs :: Disciplined(p, program)
    ensures NetInv(p, programs, Play(p, programs, net, m))
    ensures Grows(net.store, Play(p, programs, net, m).store)
  {
    if m.w < |programs| && net.runners[m.w].alive {
      var me := net.runners[m.w];
      var action := programs[m.w](me.log);
      match m
      case Ask(w) => RunnerInv(p, programs, net, w, Asked(net.store, me, action));
      case Probe(w) => RunnerInv(p, programs, net, w, Probed(p, net.store, me, action));
      case Send(w) =>
        assert programs[w] in programs;
        SendInv(p, programs, net, w);
      case Die(w) => RunnerInv(p, programs, net, w, me.(alive := false));
    }
  }

  lemma {:induction false} PlayAllInv(p: Protocol, programs: seq<Program>, net: Net, moves: seq<Move>)
    requires NetInv(p, programs, net) && forall program | program in programs :: Disciplined(p, program)
    ensures NetInv(p, programs, PlayAll(p, programs, net, moves))
    ensures Grows(net.store, PlayAll(p, programs, net, moves).store)
    decreases |moves|
  {
    if moves != [] {
      PlayInv(p, programs, net, moves[0]);
      PlayAllInv(p, programs, Play(p, programs, net, moves[0]), moves[1..]);
    }
  }

  // ---------------------------------------------------------------- programs are writers

  /** Some run of the machine, with one writer a runner, leads to this store. */
  ghost predicate IsARun(p: Protocol, writers: nat, store: Store) {
    exists steps :: Run(p, Start(writers), steps).store == store
  }

  lemma MoveIsARun(p: Protocol, programs: seq<Program>, net: Net, m: Move)
    requires NetInv(p, programs, net) && forall program | program in programs :: Disciplined(p, program)
    requires IsARun(p, |programs|, net.store)
    ensures IsARun(p, |programs|, Play(p, programs, net, m).store)
  {
    var t := Play(p, programs, net, m);
    if t.store != net.store {
      assert programs[m.w] in programs;
      SentIsSupported(p, programs, net, m.w);
      var action := programs[m.w](net.runners[m.w].log);
      var before :| Run(p, Start(|programs|), before).store == net.store;
      var s := Run(p, Start(|programs|), before);
      var more := PutSteps(p, m.w, action.key, action.body);
      assert Inv(p, Start(|programs|));
      RunInv(p, Start(|programs|), before);
      PutIsARun(p, s, m.w, action.key, action.body);
      RunConcat(p, Start(|programs|), before, more);
      assert Run(p, Start(|programs|), before + more).store == t.store;
    }
  }

  lemma {:induction false} MovesAreARun(p: Protocol, programs: seq<Program>, net: Net, moves: seq<Move>)
    requires NetInv(p, programs, net) && forall program | program in programs :: Disciplined(p, program)
    requires IsARun(p, |programs|, net.store)
    ensures IsARun(p, |programs|, PlayAll(p, programs, net, moves).store)
    decreases |moves|
  {
    if moves != [] {
      PlayInv(p, programs, net, moves[0]);
      MoveIsARun(p, programs, net, moves[0]);
      MovesAreARun(p, programs, Play(p, programs, net, moves[0]), moves[1..]);
    }
  }

  /**
   * However any number of disciplined programs are interleaved, cut short and started late on
   * an empty prefix, the store they leave is one that a run of the publication machine leaves.
   */
  lemma ProgramsAreRuns(p: Protocol, programs: seq<Program>, moves: seq<Move>)
    requires forall program | program in programs :: Disciplined(p, program)
    ensures IsARun(p, |programs|, PlayAll(p, programs, Fresh(|programs|), moves).store)
    ensures NetInv(p, programs, PlayAll(p, programs, Fresh(|programs|), moves))
  {
    var net := Fresh(|programs|);
    assert NetInv(p, programs, net);
    assert Run(p, Start(|programs|), []).store == net.store;
    PlayAllInv(p, programs, net, moves);
    MovesAreARun(p, programs, net, moves);
  }

  // ---------------------------------------------------------------- one program on its own

  /** The only runner, with this log, about to make its next request. */
  function Solo(store: Store, log: Log): Net {
    Net(store, [Runner(log, false, true)])
  }

  lemma FreshIsSolo()
    ensures Fresh(1) == Solo(map[], [])
  {
  }

  /** Some moves of the one runner lead from one state to the other. */
  ghost predicate Gets(p: Protocol, program: Program, a: Net, b: Net) {
    |a.runners| == 1 && exists moves :: PlayAll(p, [program], a, moves) == b
  }

  lemma {:induction false} PlayConcat(p: Protocol, programs: seq<Program>, net: Net, a: seq<Move>, b: seq<Move>)
    requires |net.runners| == |programs|
    ensures PlayAll(p, programs, net, a + b) == PlayAll(p, programs, PlayAll(p, programs, net, a), b)
    decreases |a|
  {
    if a == [] {
      assert a + b == b;
    } else {
      assert (a + b)[0] == a[0] && (a + b)[1..] == a[1..] + b;
      PlayConcat(p, programs, Play(p, programs, net, a[0]), a[1..], b);
    }
  }

  lemma GetsThere(p: Protocol, program: Program, net: Net)
    requires |net.runners| == 1
    ensures Gets(p, program, net, net)
  {
    assert PlayAll(p, [program], net, []) == net;
  }

  lemma GetsOn(p: Protocol, program: Program, a: Net, b: Net, c: Net)
    requires Gets(p, program, a, b) && Gets(p, program, b, c)
    ensures Gets(p, program, a, c)
  {
    var first :| PlayAll(p, [program], a, first) == b;
    var second :| PlayAll(p, [program], b, second) == c;
    PlayConcat(p, [program], a, first, second);
  }

  lemma GetsByMove(p: Protocol, program: Program, a: Net, m: Move)
    requires |a.runners| == 1
    ensures Gets(p, program, a, Play(p, [program], a, m))
  {
    assert [m][0] == m && [m][1..] == [];
    assert PlayAll(p, [program], a, [m]) == Play(p, [program], a, m);
  }

  lemma GetsAnswer(p: Protocol, program: Program, store: Store, log: Log)
    ensures program(log).Read? ==>
              var key := program(log).key;
              Gets(p, program, Solo(store, log), Solo(store, log + [Saw(key, if key in store then Some(store[key]) else None)]))
    ensures program(log).List? ==> Gets(p, program, Solo(store, log), Solo(store, log + [Listed(store.Keys)]))
  {
    GetsByMove(p, program, Solo(store, log), Ask(0));
  }

  /** HEAD, put and HEAD of a free key: the object is there, and the runner has gone on. */
  lemma GetsUpload(p: Protocol, program: Program, store: Store, log: Log)
    requires program(log).Upload? && program(log).key !in store && !TooLarge(p, program(log).body)
    ensures var action := program(log);
            Gets(p, program, Solo(store, log),
                 Solo(WithObject(p, store, action.key, action.body), log + [Uploaded(action.key, action.body, false)]))
  {
    var action := program(log);
    var probed := Net(store, [Runner(log, true, true)]);
    var sent := Net(WithObject(p, store, action.key, action.body), [Runner(log, true, true)]);
    GetsByMove(p, program, Solo(store, log), Probe(0));
    GetsByMove(p, program, probed, Send(0));
    GetsByMove(p, program, sent, Probe(0));
    GetsOn(p, program, Solo(store, log), probed, sent);
    GetsOn(p, program, Solo(store, log), sent,
           Solo(WithObject(p, store, action.key, action.body), log + [Uploaded(action.key, action.body, false)]));
  }

  /** HEAD and put of a free key, and then a crash before anything else. */
  lemma GetsLost(p: Protocol, program: Program, store: Store, log: Log)
    requires program(log).Upload? && program(log).key !in store && !TooLarge(p, program(log).body)
    ensures var action := program(log);
            Gets(p, program, Solo(store, log),
                 Net(WithObject(p, store, action.key, action.body), [Runner(log, true, false)]))
  {
    var action := program(log);
    var probed := Net(store, [Runner(log, true, true)]);
    var sent := Net(WithObject(p, store, action.key, action.body), [Runner(log, true, true)]);
    GetsByMove(p, program, Solo(store, log), Probe(0));
    GetsByMove(p, program, probed, Send(0));
    GetsByMove(p, program, sent, Die(0));
    GetsOn(p, program, Solo(store, log), probed, sent);
    GetsOn(p, program, Solo(store, log), sent, Net(sent.store, [Runner(log, true, false)]));
  }
}
