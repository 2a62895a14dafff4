/**
  The two system modes deliver the same messages: what PUSH mode puts on a client's channel is what the
  same client obtains in PULL mode by asking until there is nothing left.
 */
module PushPull {
  import opened Messages
  import opened Buffers
  import opened Daemon
  import opened DaemonRuns
  import opened Clients

  /** A SEND, or a POST that carries a message, complete in every part that some mode looks at. */
  predicate Complete(cfg: Config, m: Nsbm) {
    (m.manifest.op.SEND? || m.manifest.op.POST?) && m.manifest.code.MESSAGE? && EntryOf(cfg.useDb, m).Exists()
  }

  /** The registered client that a message is for. */
  predicate HasTarget(s: State, m: Nsbm) {
    if m.manifest.op.SEND?
    then SimulatorFor(s, m) in s.sims && s.sims[SimulatorFor(s, m)].recvFd >= 0
    else m.Meta().destId in s.apps && s.apps[m.Meta().destId].recvFd >= 0
  }

  ghost predicate Deliverable(s: State, ms: seq<Nsbm>) {
    forall m :: m in ms ==> Complete(s.cfg, m) && HasTarget(s, m)
  }

  /** No two clients, and no two roles, share a RECV descriptor. */
  ghost predicate DistinctDescriptors(s: State) {
    && (forall a, b :: a in s.sims && b in s.sims && s.sims[a].recvFd == s.sims[b].recvFd ==> a == b)
    && (forall a, b :: a in s.apps && b in s.apps && s.apps[a].recvFd == s.apps[b].recvFd ==> a == b)
    && (forall a, b :: a in s.sims && b in s.apps ==> s.sims[a].recvFd != s.apps[b].recvFd)
  }

  /** The messages as inputs; the descriptor they arrive on plays no part. */
  function Inputs(ms: seq<Nsbm>): seq<Input> {
    if ms == [] then [] else [Incoming(0, ms[0])] + Inputs(ms[1..])
  }

  function InMode(s: State, mode: SystemMode): State {
    s.(cfg := s.cfg.(systemMode := mode))
  }

  /** What a client reads from its RECV channel: the messages on descriptor `fd`, in order. */
  function OnChannel(cfg: Config, fd: int, wires: seq<Wire>): seq<MessageEntry> {
    if wires == [] then []
    else
      (if wires[0].fd == fd && wires[0].msg.manifest.op.FORWARD? && wires[0].msg.manifest.code.MESSAGE?
       then [EntryOf(cfg.useDb, wires[0].msg)] else [])
      + OnChannel(cfg, fd, wires[1..])
  }

  /** The entries of the SENDs, and of the POSTs, in order. */
  function EntriesOf(op: Operation, cfg: Config, ms: seq<Nsbm>): seq<MessageEntry> {
    if ms == [] then []
    else (if ms[0].manifest.op == op then [EntryOf(cfg.useDb, ms[0])] else []) + EntriesOf(op, cfg, ms[1..])
  }

  // ---------------------------------------------------------------- PUSH mode

  /** Which of the SENDs simulator `name` is to get: its own node's, or all of them. */
  function SimulatorClass(cfg: Config, name: string): Query {
    if cfg.simulatorMode.SYSTEM_WIDE? then Anything else FromSource(name)
  }

  predicate IsSimulator(s: State, name: string) {
    name in s.sims && !s.cfg.simulatorMode.OtherSimulatorMode?
  }

  lemma PushOne(s: State, m: Nsbm)
    requires s.cfg.systemMode.PUSH? && !s.cfg.simulatorMode.OtherSimulatorMode?
    requires Complete(s.cfg, m) && HasTarget(s, m)
    ensures var target :=
              if m.manifest.op.SEND? then s.sims[SimulatorFor(s, m)].recvFd else s.apps[m.Meta().destId].recvFd;
            && Accepts(s, Incoming(0, m)) && Next(s, Incoming(0, m)) == s
            && Output(s, Incoming(0, m)) == [Wire(target, Forwarded(m))]
            && EntryOf(s.cfg.useDb, Forwarded(m)) == EntryOf(s.cfg.useDb, m)
  {
  }

  lemma OnChannelCons(cfg: Config, fd: int, w: Wire, rest: seq<Wire>)
    ensures OnChannel(cfg, fd, [w] + rest) == OnChannel(cfg, fd, [w]) + OnChannel(cfg, fd, rest)
  {
    assert ([w] + rest)[1..] == rest && [w][1..] == [];
  }

  /** PUSH mode puts on a simulator's channel the SENDs of its class, in order. */
  lemma {:induction false} PushedToSimulator(s: State, ms: seq<Nsbm>, name: string)
    requires Sound(s) && s.cfg.systemMode.PUSH? && IsSimulator(s, name)
    requires DistinctDescriptors(s) && Deliverable(s, ms)
    ensures Runs(s, Inputs(ms))
    ensures OnChannel(s.cfg, s.sims[name].recvFd, Outputs(s, Inputs(ms)))
         == Restrict(SimulatorClass(s.cfg, name), EntriesOf(SEND, s.cfg, ms))
  {
    if ms != [] {
      var m, rest, i := ms[0], ms[1..], Incoming(0, ms[0]);
      assert m in ms && forall o :: o in rest ==> o in ms;
      PushOne(s, m);
      PushedToSimulator(s, rest, name);
      assert Inputs(ms)[1..] == Inputs(rest);
      OnChannelCons(s.cfg, s.sims[name].recvFd, Output(s, i)[0], Outputs(s, Inputs(rest)));
      var own := if m.manifest.op.SEND? then [EntryOf(s.cfg.useDb, m)] else [];
      RestrictConcat(SimulatorClass(s.cfg, name), own, EntriesOf(SEND, s.cfg, rest));
      assert own == [] || own[1..] == [];
    }
  }

  /** PUSH mode puts on an application's channel the POSTs addressed to it, in order. */
  lemma {:induction false} PushedToApplication(s: State, ms: seq<Nsbm>, name: string)
    requires Sound(s) && s.cfg.systemMode.PUSH? && !s.cfg.simulatorMode.OtherSimulatorMode? && name in s.apps
    requires DistinctDescriptors(s) && Deliverable(s, ms)
    ensures Runs(s, Inputs(ms))
    ensures OnChannel(s.cfg, s.apps[name].recvFd, Outputs(s, Inputs(ms)))
         == Restrict(ToDestination(name), EntriesOf(POST, s.cfg, ms))
  {
    if ms != [] {
      var m, rest, i := ms[0], ms[1..], Incoming(0, ms[0]);
      assert m in ms && forall o :: o in rest ==> o in ms;
      PushOne(s, m);
      PushedToApplication(s, rest, name);
      assert Inputs(ms)[1..] == Inputs(rest);
      OnChannelCons(s.cfg, s.apps[name].recvFd, Output(s, i)[0], Outputs(s, Inputs(rest)));
      var own := if m.manifest.op.POST? then [EntryOf(s.cfg.useDb, m)] else [];
      RestrictConcat(ToDestination(name), own, EntriesOf(POST, s.cfg, rest));
      assert own == [] || own[1..] == [];
    }
  }

  // ---------------------------------------------------------------- PULL mode

  lemma PullOne(s: State, m: Nsbm)
    requires s.cfg.systemMode.PULL? && Complete(s.cfg, m)
    ensures var s' := Next(s, Incoming(0, m));
            && s'.tx == s.tx + EntriesOf(SEND, s.cfg, [m])
            && s'.rx == s.rx + EntriesOf(POST, s.cfg, [m])
            && s'.cfg == s.cfg
  {
    assert [m][1..] == [];
  }

  lemma EntriesCons(op: Operation, cfg: Config, m: Nsbm, rest: seq<Nsbm>)
    ensures EntriesOf(op, cfg, [m] + rest) == EntriesOf(op, cfg, [m]) + EntriesOf(op, cfg, rest)
  {
    assert [m][1..] == [] && ([m] + rest)[1..] == rest;
  }

  lemma {:induction false} PulledBuffers(s: State, ms: seq<Nsbm>)
    requires s.cfg.systemMode.PULL? && forall m :: m in ms ==> Complete(s.cfg, m)
    ensures Runs(s, Inputs(ms)) && Run(s, Inputs(ms)).cfg == s.cfg
    ensures Run(s, Inputs(ms)).tx == s.tx + EntriesOf(SEND, s.cfg, ms)
    ensures Run(s, Inputs(ms)).rx == s.rx + EntriesOf(POST, s.cfg, ms)
    decreases |ms|
  {
    if ms != [] {
      var m, rest := ms[0], ms[1..];
      assert m in ms && forall o :: o in rest ==> o in ms;
      PullOne(s, m);
      PulledBuffers(Next(s, Incoming(0, m)), rest);
      assert Inputs(ms)[1..] == Inputs(rest);
      assert [m] + rest == ms;
      EntriesCons(SEND, s.cfg, m, rest);
      EntriesCons(POST, s.cfg, m, rest);
      Associative(s.tx, EntriesOf(SEND, s.cfg, [m]), EntriesOf(SEND, s.cfg, rest));
      Associative(s.rx, EntriesOf(POST, s.cfg, [m]), EntriesOf(POST, s.cfg, rest));
    }
  }

  /** Asking until the answer is NO_MESSAGE; each MESSAGE shrinks a buffer, so this ends. */
  function Drain(s: State, fd: int, request: Nsbm): seq<MessageEntry>
    requires request.manifest.op.FETCH? || request.manifest.op.RECEIVE?
    decreases |s.tx| + |s.rx|
  {
    var (next, reply) := Poll(s, fd, request);
    if reply.manifest.code.MESSAGE? then
      PollShrinks(s, fd, request);
      [EntryOf(s.cfg.useDb, reply)] + Drain(next, fd, request)
    else []
  }

  lemma PollShrinks(s: State, fd: int, request: Nsbm)
    requires request.manifest.op.FETCH? || request.manifest.op.RECEIVE?
    ensures Poll(s, fd, request).1.manifest.code.MESSAGE? ==>
              var next := Poll(s, fd, request).0; |next.tx| + |next.rx| < |s.tx| + |s.rx|
  {
    if FetchOp(request).Remove? {
      AnswerIsHead(FetchOp(request).query, s.tx);
      AnswerIsHead(ReceiveOp(request).query, s.rx);
    }
  }

  /** Draining over complete entries yields the whole class that the request names, in order. */
  lemma {:induction false} DrainYieldsClass(s: State, fd: int, request: Nsbm)
    requires request.manifest.op.FETCH? || request.manifest.op.RECEIVE?
    requires request.metadata.Some?
    requires (forall e :: e in s.tx ==> e.Exists()) && (forall e :: e in s.rx ==> e.Exists())
    ensures request.manifest.op.FETCH? ==> Drain(s, fd, request) == Restrict(FetchOp(request).query, s.tx)
    ensures request.manifest.op.RECEIVE? ==> Drain(s, fd, request) == Restrict(ReceiveOp(request).query, s.rx)
    decreases |s.tx| + |s.rx|
  {
    var fetching := request.manifest.op.FETCH?;
    var q := if fetching then FetchOp(request).query else ReceiveOp(request).query;
    var buf := if fetching then s.tx else s.rx;
    var (next, reply) := Poll(s, fd, request);
    AnswerIsHead(q, buf);
    RestDropsHead(q, buf);
    TakenExists(q, buf);
    PollShrinks(s, fd, request);
    if reply.manifest.code.MESSAGE? {
      DrainYieldsClass(next, fd, request);
    }
  }

  lemma {:induction false} TakenExists(q: Query, buf: seq<MessageEntry>)
    requires forall e :: e in buf ==> e.Exists()
    ensures Answer(q, buf).Some? ==> Answer(q, buf).value.Exists()
    ensures forall e :: e in Rest(q, buf) ==> e.Exists()
  {
    if buf != [] {
      TakenExists(q, buf[1..]);
    }
  }

  // ---------------------------------------------------------------- several clients draining

  predicate IsPoll(request: Nsbm) {
    (request.manifest.op.FETCH? || request.manifest.op.RECEIVE?) && request.metadata.Some?
  }

  /** The buffer a request looks at, and what it looks for there. */
  function BufferFor(s: State, request: Nsbm): seq<MessageEntry> {
    if request.manifest.op.FETCH? then s.tx else s.rx
  }

  function QueryOf(request: Nsbm): Query
    requires IsPoll(request)
  {
    if request.manifest.op.FETCH? then FetchOp(request).query else ReceiveOp(request).query
  }

  /** No message answers both requests: they look at different buffers, or for different classes. */
  ghost predicate Independent(r1: Nsbm, r2: Nsbm)
    requires IsPoll(r1) && IsPoll(r2)
  {
    r1.manifest.op != r2.manifest.op || QueryOf(r1).Excludes(QueryOf(r2))
  }

  ghost predicate AllExist(s: State) {
    (forall e :: e in s.tx ==> e.Exists()) && (forall e :: e in s.rx ==> e.Exists())
  }

  /** The daemon after a drain. */
  function AfterDrain(s: State, fd: int, request: Nsbm): State
    requires request.manifest.op.FETCH? || request.manifest.op.RECEIVE?
    decreases |s.tx| + |s.rx|
  {
    var (next, reply) := Poll(s, fd, request);
    if reply.manifest.code.MESSAGE? then
      PollShrinks(s, fd, request);
      AfterDrain(next, fd, request)
    else next
  }

  /** The daemon after clients have drained one after another. */
  function AfterDrains(s: State, fd: int, requests: seq<Nsbm>): State
    requires forall r :: r in requests ==> IsPoll(r)
    decreases |requests|
  {
    if requests == [] then s
    else
      assert IsPoll(requests[0]) && forall r :: r in requests[1..] ==> r in requests;
      AfterDrains(AfterDrain(s, fd, requests[0]), fd, requests[1..])
  }

  lemma PollLeaves(s: State, fd: int, other: Nsbm, mine: Nsbm)
    requires IsPoll(other) && IsPoll(mine) && Independent(other, mine) && AllExist(s)
    ensures var next := Poll(s, fd, other).0;
            && AllExist(next)
            && Restrict(QueryOf(mine), BufferFor(next, mine)) == Restrict(QueryOf(mine), BufferFor(s, mine))
  {
    var q, p := QueryOf(other), QueryOf(mine);
    TakenExists(q, BufferFor(s, other));
    if other.manifest.op == mine.manifest.op {
      AnswerIsHead(q, BufferFor(s, other));
      TakeRespects(q, p, BufferFor(s, other));
    }
  }

  lemma {:induction false} DrainLeaves(s: State, fd: int, other: Nsbm, mine: Nsbm)
    requires IsPoll(other) && IsPoll(mine) && Independent(other, mine) && AllExist(s)
    ensures var after := AfterDrain(s, fd, other);
            && AllExist(after)
            && Restrict(QueryOf(mine), BufferFor(after, mine)) == Restrict(QueryOf(mine), BufferFor(s, mine))
    decreases |s.tx| + |s.rx|
  {
    var (next, reply) := Poll(s, fd, other);
    PollLeaves(s, fd, other, mine);
    if reply.manifest.code.MESSAGE? {
      PollShrinks(s, fd, other);
      DrainLeaves(next, fd, other, mine);
    }
  }

  lemma {:induction false} DrainsLeave(s: State, fd: int, others: seq<Nsbm>, mine: Nsbm)
    requires IsPoll(mine) && forall r :: r in others ==> IsPoll(r) && Independent(r, mine)
    requires AllExist(s)
    ensures var after := AfterDrains(s, fd, others);
            && AllExist(after)
            && Restrict(QueryOf(mine), BufferFor(after, mine)) == Restrict(QueryOf(mine), BufferFor(s, mine))
    decreases |others|
  {
    if others != [] {
      assert others[0] in others && forall r :: r in others[1..] ==> r in others;
      DrainLeaves(s, fd, others[0], mine);
      DrainsLeave(AfterDrain(s, fd, others[0]), fd, others[1..], mine);
    }
  }

  /** Clients that drain before this one, in any order and however often, take nothing of what is its own. */
  lemma DrainsDoNotInterfere(s: State, fd: int, others: seq<Nsbm>, mine: Nsbm)
    requires IsPoll(mine) && forall r :: r in others ==> IsPoll(r) && Independent(r, mine)
    requires AllExist(s)
    ensures Drain(AfterDrains(s, fd, others), fd, mine) == Drain(s, fd, mine)
  {
    DrainsLeave(s, fd, others, mine);
    DrainYieldsClass(s, fd, mine);
    DrainYieldsClass(AfterDrains(s, fd, others), fd, mine);
  }

  /** What a client that drains by its own identifier asks. */
  function OwnRequest(c: Client): Nsbm {
    if c.og.SIM_CLIENT? then FetchRequest(c, None) else ReceiveRequest(c, None)
  }

  /** Two clients of different roles, or of different identifiers, do not get in each other's way. */
  lemma ClientsAreIndependent(c1: Client, c2: Client)
    requires || c1.og.SIM_CLIENT? != c2.og.SIM_CLIENT?
             || (c1.id != c2.id && c1.id != "" && c2.id != ""
                 && (c1.og.SIM_CLIENT? ==> c1.cfg.simulatorMode.PER_NODE? && c2.cfg.simulatorMode.PER_NODE?))
    requires IsPoll(OwnRequest(c1)) && IsPoll(OwnRequest(c2))
    ensures Independent(OwnRequest(c1), OwnRequest(c2))
  {
  }

  lemma {:induction false} EntriesExist(op: Operation, cfg: Config, ms: seq<Nsbm>)
    requires forall m :: m in ms ==> Complete(cfg, m)
    ensures forall e :: e in EntriesOf(op, cfg, ms) ==> e.Exists()
  {
    if ms != [] {
      assert ms[0] in ms && forall m :: m in ms[1..] ==> m in ms;
      EntriesExist(op, cfg, ms[1..]);
    }
  }

  // ---------------------------------------------------------------- agreement

  /** A daemon with everyone registered and nothing buffered. */
  ghost predicate Ready(s: State, ms: seq<Nsbm>) {
    && Sound(InMode(s, PUSH)) && DistinctDescriptors(s)
    && !s.cfg.simulatorMode.OtherSimulatorMode? && Deliverable(s, ms)
  }

  lemma ModesDeliverable(s: State, ms: seq<Nsbm>, mode: SystemMode)
    requires Deliverable(s, ms)
    ensures Deliverable(InMode(s, mode), ms)
  {
    forall m | m in ms
      ensures Complete(InMode(s, mode).cfg, m) && HasTarget(InMode(s, mode), m)
    {
      assert Complete(s.cfg, m) && HasTarget(s, m);
    }
  }

  lemma {:induction false} EntriesIgnoreMode(op: Operation, s: State, ms: seq<Nsbm>, mode: SystemMode)
    ensures EntriesOf(op, InMode(s, mode).cfg, ms) == EntriesOf(op, s.cfg, ms)
  {
    if ms != [] {
      EntriesIgnoreMode(op, s, ms[1..], mode);
    }
  }

  /**
    Same sends, same posts: what PUSH mode writes to a simulator's channel is what that simulator
    drains in PULL mode, by its own identifier in PER_NODE and unfiltered in SYSTEM_WIDE, whichever other
    clients have drained before it.
   */
  lemma SimulatorsSeeTheSame(s: State, ms: seq<Nsbm>, name: string, fd: int, c: Client, others: seq<Nsbm>)
    requires Ready(s, ms) && name in s.sims
    requires c.cfg.simulatorMode == s.cfg.simulatorMode && (c.flavour.Classic? || c.cfg.simulatorMode.PER_NODE?)
    requires c.cfg.simulatorMode.PER_NODE? ==> c.id == name && name != ""
    requires forall r :: r in others ==> IsPoll(r) && Independent(r, FetchRequest(c, None))
    ensures Runs(InMode(s, PUSH), Inputs(ms)) && Runs(InMode(s, PULL), Inputs(ms))
    ensures OnChannel(s.cfg, s.sims[name].recvFd, Outputs(InMode(s, PUSH), Inputs(ms)))
         == Drain(AfterDrains(Run(InMode(s, PULL), Inputs(ms)), fd, others), fd, FetchRequest(c, None))
  {
    var push, pull := InMode(s, PUSH), InMode(s, PULL);
    ModesDeliverable(s, ms, PUSH);
    EntriesIgnoreMode(SEND, s, ms, PUSH);
    PushedToSimulator(push, ms, name);
    ChannelIgnoresMode(s.cfg, push.cfg, s.sims[name].recvFd, Outputs(push, Inputs(ms)));
    Drained(s, ms, fd, FetchRequest(c, None));
    DrainsDoNotInterfere(Run(pull, Inputs(ms)), fd, others, FetchRequest(c, None));
  }

  /** The same for applications, which drain by their own identifier. */
  lemma ApplicationsSeeTheSame(s: State, ms: seq<Nsbm>, name: string, fd: int, c: Client, others: seq<Nsbm>)
    requires Ready(s, ms) && name in s.apps && c.id == name && name != ""
    requires forall r :: r in others ==> IsPoll(r) && Independent(r, ReceiveRequest(c, None))
    ensures Runs(InMode(s, PUSH), Inputs(ms)) && Runs(InMode(s, PULL), Inputs(ms))
    ensures OnChannel(s.cfg, s.apps[name].recvFd, Outputs(InMode(s, PUSH), Inputs(ms)))
         == Drain(AfterDrains(Run(InMode(s, PULL), Inputs(ms)), fd, others), fd, ReceiveRequest(c, None))
  {
    var push, pull := InMode(s, PUSH), InMode(s, PULL);
    ModesDeliverable(s, ms, PUSH);
    EntriesIgnoreMode(POST, s, ms, PUSH);
    PushedToApplication(push, ms, name);
    ChannelIgnoresMode(s.cfg, push.cfg, s.apps[name].recvFd, Outputs(push, Inputs(ms)));
    Drained(s, ms, fd, ReceiveRequest(c, None));
    DrainsDoNotInterfere(Run(pull, Inputs(ms)), fd, others, ReceiveRequest(c, None));
  }

  lemma {:induction false} ChannelIgnoresMode(cfg1: Config, cfg2: Config, fd: int, wires: seq<Wire>)
    requires cfg1.useDb == cfg2.useDb
    ensures OnChannel(cfg1, fd, wires) == OnChannel(cfg2, fd, wires)
  {
    if wires != [] {
      ChannelIgnoresMode(cfg1, cfg2, fd, wires[1..]);
    }
  }

  /** What a drain yields after the messages have gone through an empty daemon in PULL mode. */
  lemma Drained(s: State, ms: seq<Nsbm>, fd: int, request: Nsbm)
    requires Ready(s, ms) && request.metadata.Some?
    requires request.manifest.op.FETCH? || request.manifest.op.RECEIVE?
    ensures Runs(InMode(s, PULL), Inputs(ms)) && AllExist(Run(InMode(s, PULL), Inputs(ms)))
    ensures var after := Run(InMode(s, PULL), Inputs(ms));
            && (request.manifest.op.FETCH? ==>
                  Drain(after, fd, request) == Restrict(FetchOp(request).query, EntriesOf(SEND, s.cfg, ms)))
            && (request.manifest.op.RECEIVE? ==>
                  Drain(after, fd, request) == Restrict(ReceiveOp(request).query, EntriesOf(POST, s.cfg, ms)))
  {
    var pull := InMode(s, PULL);
    ModesDeliverable(s, ms, PULL);
    EntriesIgnoreMode(SEND, s, ms, PULL);
    EntriesIgnoreMode(POST, s, ms, PULL);
    PulledBuffers(pull, ms);
    EntriesExist(SEND, s.cfg, ms);
    EntriesExist(POST, s.cfg, ms);
    assert [] + EntriesOf(SEND, s.cfg, ms) == EntriesOf(SEND, s.cfg, ms);
    assert [] + EntriesOf(POST, s.cfg, ms) == EntriesOf(POST, s.cfg, ms);
    DrainYieldsClass(Run(pull, Inputs(ms)), fd, request);
  }
}
