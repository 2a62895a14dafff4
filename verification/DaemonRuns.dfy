/**
  Whole runs of the daemon: what stays registered, which requests are answered, and what happens to
  the messages of one node while all the others come and go.
 */
module DaemonRuns {
  import opened Messages
  import opened Buffers
  import opened Daemon
  import opened Decimals

  datatype Input = Connect(address: string, fd: int) | Incoming(fd: int, msg: Nsbm)

  predicate Accepts(s: State, i: Input) {
    i.Incoming? ==> CanHandle(s, i.msg)
  }

  function Next(s: State, i: Input): State
    requires Accepts(s, i)
  {
    match i
    case Connect(address, fd) => s.(fds := Emplace(s.fds, address, fd))
    case Incoming(fd, m) => Handle(s, fd, m).0
  }

  function Output(s: State, i: Input): seq<Wire>
    requires Accepts(s, i)
  {
    match i
    case Connect(_, _) => []
    case Incoming(fd, m) => Handle(s, fd, m).1
  }

  /** Every message of the run meets the precondition of its handler when it arrives. */
  predicate Runs(s: State, inputs: seq<Input>)
    decreases |inputs|
  {
    inputs == [] || (Accepts(s, inputs[0]) && Runs(Next(s, inputs[0]), inputs[1..]))
  }

  function Run(s: State, inputs: seq<Input>): State
    requires Runs(s, inputs)
    decreases |inputs|
  {
    if inputs == [] then s else Run(Next(s, inputs[0]), inputs[1..])
  }

  function Outputs(s: State, inputs: seq<Input>): seq<Wire>
    requires Runs(s, inputs)
    decreases |inputs|
  {
    if inputs == [] then [] else Output(s, inputs[0]) + Outputs(Next(s, inputs[0]), inputs[1..])
  }

  lemma {:induction false} RunConcat(s: State, a: seq<Input>, b: seq<Input>)
    ensures Runs(s, a + b) <==> Runs(s, a) && Runs(Run(s, a), b)
    ensures Runs(s, a + b) ==> Run(s, a + b) == Run(Run(s, a), b)
    ensures Runs(s, a + b) ==> Outputs(s, a + b) == Outputs(s, a) + Outputs(Run(s, a), b)
    decreases |a|
  {
    if a == [] {
      assert a + b == b;
    } else {
      assert (a + b)[0] == a[0] && (a + b)[1..] == a[1..] + b;
      if Accepts(s, a[0]) {
        RunConcat(Next(s, a[0]), a[1..], b);
      }
    }
  }

  lemma StepStaysSound(s: State, i: Input)
    requires Sound(s) && Accepts(s, i)
    ensures Sound(Next(s, i)) && Next(s, i).cfg == s.cfg
  {
  }

  /** Soundness holds in every reachable state; in PUSH mode this says both buffers stay empty. */
  lemma {:induction false} RunStaysSound(s: State, inputs: seq<Input>)
    requires Sound(s) && Runs(s, inputs)
    ensures Sound(Run(s, inputs)) && Run(s, inputs).cfg == s.cfg
    decreases |inputs|
  {
    if inputs != [] {
      StepStaysSound(s, inputs[0]);
      RunStaysSound(Next(s, inputs[0]), inputs[1..]);
    }
  }

  lemma PushBuffersStayEmpty(cfg: Config, inputs: seq<Input>)
    requires cfg.systemMode.PUSH? && Runs(StartState(cfg), inputs)
    ensures Run(StartState(cfg), inputs).tx == [] && Run(StartState(cfg), inputs).rx == []
  {
    RunStaysSound(StartState(cfg), inputs);
  }

  // ---------------------------------------------------------------- registration

  ghost predicate Extends<V>(small: map<string, V>, big: map<string, V>) {
    forall k :: k in small ==> k in big && big[k] == small[k]
  }

  lemma StepIsStable(s: State, i: Input)
    requires Accepts(s, i)
    ensures Extends(s.apps, Next(s, i).apps)
    ensures Extends(s.sims, Next(s, i).sims)
    ensures Extends(s.fds, Next(s, i).fds)
    ensures Next(s, i).cfg == s.cfg
  {
    if i.Incoming? && i.msg.manifest.op.INIT? {
      assert Next(s, i).fds == s.fds;
    } else {
      assert Next(s, i).apps == s.apps && Next(s, i).sims == s.sims;
    }
  }

  /** A registration, once made, is never changed or removed. */
  lemma {:induction false} RegistrationsAreStable(s: State, inputs: seq<Input>)
    requires Runs(s, inputs)
    ensures Extends(s.apps, Run(s, inputs).apps)
    ensures Extends(s.sims, Run(s, inputs).sims)
    ensures Extends(s.fds, Run(s, inputs).fds)
    ensures Run(s, inputs).cfg == s.cfg
    decreases |inputs|
  {
    if inputs != [] {
      StepIsStable(s, inputs[0]);
      RegistrationsAreStable(Next(s, inputs[0]), inputs[1..]);
    }
  }

  predicate IsInit(m: Nsbm, og: Originator) {
    m.manifest.op.INIT? && m.manifest.og == og && m.body.Intro?
  }

  /** SYSTEM_WIDE mode admits one simulator: whatever happens, a second INIT fails and changes nothing. */
  lemma SecondSimulatorIsRefused(s: State, inputs: seq<Input>, fd: int, m: Nsbm)
    requires Sound(s) && Runs(s, inputs) && s.cfg.simulatorMode.SYSTEM_WIDE?
    requires s.sims != map[] && IsInit(m, SIM_CLIENT)
    ensures |Run(s, inputs).sims| == 1
    ensures Handle(Run(s, inputs), fd, m) == (Run(s, inputs), [Wire(fd, InitReply(s.cfg, false))])
  {
    RunStaysSound(s, inputs);
    RegistrationsAreStable(s, inputs);
    var sims := Run(s, inputs).sims;
    assert s.sims.Keys != {} && s.sims.Keys <= sims.Keys;
    assert sims.Keys == {SIMULATOR};
    assert |sims| == |sims.Keys|;
  }

  /** The lookup key under which an INIT registers its client. */
  function RegistrationKey(cfg: Config, m: Nsbm): string
    requires m.body.Intro?
  {
    if m.manifest.og.SIM_CLIENT? && cfg.simulatorMode.SYSTEM_WIDE? then SIMULATOR else m.body.details.identifier
  }

  /** The address under which a client's connection from `port` is looked up. */
  function AddressKey(address: string, port: int): string {
    address + ":" + ToString(port)
  }

  /** The lookup table in which an INIT registers its client. */
  function Table(s: State, og: Originator): map<string, ClientDetails> {
    if og.SIM_CLIENT? then s.sims else s.apps
  }

  /** Nobody has connected from a client's three addresses yet, and they differ. */
  predicate NewAddresses(s: State, d: IntroDetails) {
    var ctrl, send, recv :=
      AddressKey(d.address, d.chCtrl), AddressKey(d.address, d.chSend), AddressKey(d.address, d.chRecv);
    && ctrl !in s.fds && send !in s.fds && recv !in s.fds
    && ctrl != send && ctrl != recv && send != recv
  }

  /**
    A client, application or simulator, that has connected its three channels and then introduces itself
    is registered with the descriptors of those very connections, whatever else the daemon did in between.
   */
  lemma RegisteredDescriptorsAreConnections(
    s: State, ctrl: int, send: int, recv: int, between: seq<Input>, fd: int, init: Nsbm)
    requires IsInit(init, APP_CLIENT) || IsInit(init, SIM_CLIENT)
    requires Sound(s) && NewAddresses(s, init.body.details)
    requires init.manifest.og.SIM_CLIENT? ==> !s.cfg.simulatorMode.OtherSimulatorMode?
    requires Runs(WithChannels(s, init.body.details, ctrl, send, recv), between)
    requires RegistrationKey(s.cfg, init)
             !in Table(Run(WithChannels(s, init.body.details, ctrl, send, recv), between), init.manifest.og)
    ensures var before := Run(WithChannels(s, init.body.details, ctrl, send, recv), between);
            var table := Table(Next(before, Incoming(fd, init)), init.manifest.og);
            && RegistrationKey(s.cfg, init) in table
            && var c := table[RegistrationKey(s.cfg, init)];
               c.ctrlFd == ctrl && c.sendFd == send && c.recvFd == recv
  {
    var s1 := WithChannels(s, init.body.details, ctrl, send, recv);
    RegistrationsAreStable(s1, between);
    RunStaysSound(s1, between);
    var before := Run(s1, between);
    if init.manifest.og.SIM_CLIENT? && s.cfg.simulatorMode.SYSTEM_WIDE? {
      assert before.sims.Keys == {};
      assert |before.sims| == |before.sims.Keys|;
    }
  }

  /** The daemon after a client's three channels have connected. */
  function WithChannels(s: State, d: IntroDetails, ctrl: int, send: int, recv: int): State {
    var s1 := Next(s, Connect(AddressKey(d.address, d.chCtrl), ctrl));
    var s2 := Next(s1, Connect(AddressKey(d.address, d.chSend), send));
    Next(s2, Connect(AddressKey(d.address, d.chRecv), recv))
  }

  /**
    In PUSH mode a POST for a client goes to the descriptor that its first INIT resolved, however many
    messages and connections came in between.
   */
  lemma PostsReachFirstRegistration(s: State, fd: int, init: Nsbm, between: seq<Input>, from: int, post: Nsbm)
    requires s.cfg.systemMode.PUSH? && IsInit(init, APP_CLIENT) && post.manifest.op.POST?
    requires var intro := init.body.details;
             intro.identifier !in s.apps && post.Meta().destId == intro.identifier
    requires Runs(s, [Incoming(fd, init)] + between)
    ensures var intro := init.body.details;
            var target := Descriptor(s.fds, intro.address, intro.chRecv);
            Handle(Run(s, [Incoming(fd, init)] + between), from, post).1 ==
              if target != -1 then [Wire(target, Forwarded(post))] else []
  {
    var whole := [Incoming(fd, init)] + between;
    assert whole[1..] == between;
    RegistrationsAreStable(Next(s, whole[0]), between);
  }

  /** The same for the simulator that serves a source in PUSH mode. */
  lemma SendsReachFirstRegistration(s: State, fd: int, init: Nsbm, between: seq<Input>, from: int, send: Nsbm)
    requires Sound(s) && s.cfg.systemMode.PUSH? && !s.cfg.simulatorMode.OtherSimulatorMode?
    requires IsInit(init, SIM_CLIENT) && send.manifest.op.SEND?
    requires RegistrationKey(s.cfg, init) !in s.sims && RegistrationKey(s.cfg, init) == SimulatorFor(s, send)
    requires Runs(s, [Incoming(fd, init)] + between)
    ensures var intro := init.body.details;
            var target := Descriptor(s.fds, intro.address, intro.chRecv);
            var later := Run(s, [Incoming(fd, init)] + between);
            && (CanHandle(later, send) <==> target >= 0)
            && (target >= 0 ==> Handle(later, from, send).1 == [Wire(target, Forwarded(send))])
  {
    var whole := [Incoming(fd, init)] + between;
    assert whole[1..] == between;
    if s.cfg.simulatorMode.SYSTEM_WIDE? {
      assert s.sims.Keys == {};
      assert |s.sims| == |s.sims.Keys|;
    }
    RegistrationsAreStable(Next(s, whole[0]), between);
  }

  // ---------------------------------------------------------------- requests and replies

  predicate NeedsReply(m: Nsbm) {
    match m.manifest.op
    case PING => true
    case FETCH => true
    case RECEIVE => true
    case INIT => m.body.Intro? && (m.manifest.og.APP_CLIENT? || m.manifest.og.SIM_CLIENT?)
    case _ => false
  }

  /** Who must be answered, in order: the descriptor and the operation. */
  function Requests(inputs: seq<Input>): seq<(int, Operation)> {
    if inputs == [] then []
    else
      (if inputs[0].Incoming? && NeedsReply(inputs[0].msg)
       then [(inputs[0].fd, inputs[0].msg.manifest.op)] else [])
      + Requests(inputs[1..])
  }

  /** Who was answered: every wire that is not a forward. */
  function Replies(wires: seq<Wire>): seq<(int, Operation)> {
    if wires == [] then []
    else
      (if wires[0].msg.manifest.op.FORWARD? then [] else [(wires[0].fd, wires[0].msg.manifest.op)])
      + Replies(wires[1..])
  }

  lemma {:induction false} RepliesConcat(a: seq<Wire>, b: seq<Wire>)
    ensures Replies(a + b) == Replies(a) + Replies(b)
  {
    if a == [] {
      assert a + b == b;
    } else {
      assert (a + b)[1..] == a[1..] + b;
      RepliesConcat(a[1..], b);
    }
  }

  lemma StepReplies(s: State, i: Input)
    requires Accepts(s, i)
    ensures Replies(Output(s, i)) == Requests([i])
    ensures !s.cfg.systemMode.PUSH? ==> |Output(s, i)| == |Requests([i])|
    ensures Next(s, i).cfg == s.cfg
  {
    assert |Output(s, i)| <= 1;
    assert |Output(s, i)| == 1 ==> Output(s, i)[1..] == [];
    assert [i][1..] == [];
  }

  /**
    Over every run the replies are exactly the requests that need one, in order, each on the descriptor
    it came from and with its own operation; nothing else is answered, and PULL mode never forwards.
   */
  lemma {:induction false} RepliesMatchRequests(s: State, inputs: seq<Input>)
    requires Runs(s, inputs)
    ensures Replies(Outputs(s, inputs)) == Requests(inputs)
    ensures !s.cfg.systemMode.PUSH? ==> |Outputs(s, inputs)| == |Requests(inputs)|
    decreases |inputs|
  {
    if inputs != [] {
      var i, next := inputs[0], Next(s, inputs[0]);
      RepliesMatchRequests(next, inputs[1..]);
      RepliesConcat(Output(s, i), Outputs(next, inputs[1..]));
      StepReplies(s, i);
      assert [i][1..] == [];
    }
  }

  // ---------------------------------------------------------------- PULL mode: runs of the two buffers

  function TxOp(cfg: Config, i: Input): BufferOp {
    match i
    case Connect(_, _) => Idle
    case Incoming(_, m) =>
      if m.manifest.op.SEND? then Append(EntryOf(cfg.useDb, m))
      else if m.manifest.op.FETCH? then FetchOp(m)
      else Idle
  }

  function RxOp(cfg: Config, i: Input): BufferOp {
    match i
    case Connect(_, _) => Idle
    case Incoming(_, m) =>
      if m.manifest.op.POST? && m.manifest.code.MESSAGE? then Append(EntryOf(cfg.useDb, m))
      else if m.manifest.op.RECEIVE? then ReceiveOp(m)
      else Idle
  }

  function TxOps(cfg: Config, inputs: seq<Input>): seq<BufferOp> {
    if inputs == [] then [] else [TxOp(cfg, inputs[0])] + TxOps(cfg, inputs[1..])
  }

  function RxOps(cfg: Config, inputs: seq<Input>): seq<BufferOp> {
    if inputs == [] then [] else [RxOp(cfg, inputs[0])] + RxOps(cfg, inputs[1..])
  }

  lemma StepIsBufferOp(s: State, i: Input)
    requires s.cfg.systemMode.PULL?
    ensures Accepts(s, i) && Next(s, i).cfg == s.cfg
    ensures Next(s, i).tx == Result(TxOp(s.cfg, i), s.tx)
    ensures Next(s, i).rx == Result(RxOp(s.cfg, i), s.rx)
  {
  }

  /** In PULL mode every message sequence is a run, and each buffer sees only its own operations. */
  lemma {:induction false} PullRunsBuffers(s: State, inputs: seq<Input>)
    requires s.cfg.systemMode.PULL?
    ensures Runs(s, inputs)
    ensures Run(s, inputs).tx == Final(TxOps(s.cfg, inputs), s.tx)
    ensures Run(s, inputs).rx == Final(RxOps(s.cfg, inputs), s.rx)
    decreases |inputs|
  {
    if inputs != [] {
      StepIsBufferOp(s, inputs[0]);
      PullRunsBuffers(Next(s, inputs[0]), inputs[1..]);
      assert TxOps(s.cfg, inputs)[1..] == TxOps(s.cfg, inputs[1..]);
      assert RxOps(s.cfg, inputs)[1..] == RxOps(s.cfg, inputs[1..]);
    }
  }

  /** The entries that replies to `op` carry, as the requesting client reads them. */
  function Delivered(cfg: Config, op: Operation, wires: seq<Wire>): seq<MessageEntry> {
    if wires == [] then []
    else
      var m := wires[0].msg;
      (if m.manifest.op == op && m.manifest.code.MESSAGE? then [EntryOf(cfg.useDb, m)] else [])
      + Delivered(cfg, op, wires[1..])
  }

  lemma {:induction false} DeliveredConcat(cfg: Config, op: Operation, a: seq<Wire>, b: seq<Wire>)
    ensures Delivered(cfg, op, a + b) == Delivered(cfg, op, a) + Delivered(cfg, op, b)
  {
    if a == [] {
      assert a + b == b;
    } else {
      assert (a + b)[1..] == a[1..] + b;
      DeliveredConcat(cfg, op, a[1..], b);
    }
  }

  function Existing(buf: seq<MessageEntry>): seq<MessageEntry> {
    if buf == [] then []
    else (if buf[0].Exists() then [buf[0]] else []) + Existing(buf[1..])
  }

  lemma {:induction false} ExistingConcat(a: seq<MessageEntry>, b: seq<MessageEntry>)
    ensures Existing(a + b) == Existing(a) + Existing(b)
  {
    if a == [] {
      assert a + b == b;
    } else {
      assert (a + b)[1..] == a[1..] + b;
      ExistingConcat(a[1..], b);
      Associative(if a[0].Exists() then [a[0]] else [], Existing(a[1..]), Existing(b));
    }
  }

  /**
    What the replies of a PULL run deliver is what the run takes out of the buffers, less the malformed
    entries, which are consumed all the same.
   */
  lemma {:induction false} DeliveriesAreConsumed(s: State, inputs: seq<Input>)
    requires s.cfg.systemMode.PULL? && Runs(s, inputs)
    ensures Delivered(s.cfg, FETCH, Outputs(s, inputs)) == Existing(Consumed(TxOps(s.cfg, inputs), s.tx))
    ensures Delivered(s.cfg, RECEIVE, Outputs(s, inputs)) == Existing(Consumed(RxOps(s.cfg, inputs), s.rx))
    decreases |inputs|
  {
    if inputs != [] {
      var i, rest, next := inputs[0], inputs[1..], Next(s, inputs[0]);
      DeliveriesAreConsumed(next, rest);
      DeliveredConcat(s.cfg, FETCH, Output(s, i), Outputs(next, rest));
      DeliveredConcat(s.cfg, RECEIVE, Output(s, i), Outputs(next, rest));
      assert TxOps(s.cfg, inputs)[1..] == TxOps(s.cfg, rest);
      assert RxOps(s.cfg, inputs)[1..] == RxOps(s.cfg, rest);
      ExistingConcat(Leaving(TxOp(s.cfg, i), s.tx), Consumed(TxOps(s.cfg, rest), next.tx));
      ExistingConcat(Leaving(RxOp(s.cfg, i), s.rx), Consumed(RxOps(s.cfg, rest), next.rx));
      StepDelivers(s, i);
      StepIsBufferOp(s, i);
    }
  }

  lemma StepDelivers(s: State, i: Input)
    requires s.cfg.systemMode.PULL? && Accepts(s, i)
    ensures Delivered(s.cfg, FETCH, Output(s, i)) == Existing(Leaving(TxOp(s.cfg, i), s.tx))
    ensures Delivered(s.cfg, RECEIVE, Output(s, i)) == Existing(Leaving(RxOp(s.cfg, i), s.rx))
  {
    var wires := Output(s, i);
    assert |wires| <= 1;
    assert |wires| == 1 ==> wires[1..] == [];
    ExistingOne(Taken(TxOp(s.cfg, i), s.tx));
    ExistingOne(Taken(RxOp(s.cfg, i), s.rx));
  }

  lemma ExistingOne(r: Option<MessageEntry>)
    ensures Existing(Single(Anything, r)) == if r.Some? && r.value.Exists() then [r.value] else []
  {
    if r.Some? {
      assert [r.value][1..] == [];
    }
  }

  lemma {:induction false} ExistingOfRestrict(p: Query, buf: seq<MessageEntry>)
    ensures Existing(Restrict(p, buf)) == Restrict(p, Existing(buf))
  {
    if buf != [] {
      ExistingOfRestrict(p, buf[1..]);
      var h := if buf[0].Exists() then [buf[0]] else [];
      RestrictConcat(p, h, Existing(buf[1..]));
    }
  }

  /** A class that no FETCH can cut in two: one source, or one source and destination. */
  predicate OnTheWayOut(p: Query) {
    p.FromSource? || p.Between?
  }

  /** A class that no RECEIVE can cut in two: one destination, or one source and destination. */
  predicate OnTheWayIn(p: Query) {
    p.ToDestination? || p.Between?
  }

  lemma {:induction false} TxOpsRespect(cfg: Config, inputs: seq<Input>, p: Query)
    requires OnTheWayOut(p)
    ensures AllRespect(TxOps(cfg, inputs), p)
  {
    if inputs != [] {
      TxOpsRespect(cfg, inputs[1..], p);
    }
  }

  lemma {:induction false} RxOpsRespect(cfg: Config, inputs: seq<Input>, p: Query)
    requires OnTheWayIn(p)
    ensures AllRespect(RxOps(cfg, inputs), p)
  {
    if inputs != [] {
      RxOpsRespect(cfg, inputs[1..], p);
    }
  }

  /**
    Order and conservation on the way out. In every PULL run, for any mix of filtered and unfiltered
    requests: of one source (or one pair), the well-formed messages sent are those delivered to
    simulators followed by those still buffered, in the order they were sent.
   */
  lemma SentIsFetchedInOrder(cfg: Config, inputs: seq<Input>, p: Query)
    requires cfg.systemMode.PULL? && OnTheWayOut(p) && Runs(StartState(cfg), inputs)
    ensures Restrict(p, Existing(Appended(TxOps(cfg, inputs))))
         == Restrict(p, Delivered(cfg, FETCH, Outputs(StartState(cfg), inputs)))
            + Restrict(p, Existing(Run(StartState(cfg), inputs).tx))
  {
    var s, ops := StartState(cfg), TxOps(cfg, inputs);
    PullRunsBuffers(s, inputs);
    DeliveriesAreConsumed(s, inputs);
    TxOpsRespect(cfg, inputs, p);
    RunConservesExisting(p, ops);
  }

  /** The same on the way in, by destination. */
  lemma PostedIsReceivedInOrder(cfg: Config, inputs: seq<Input>, p: Query)
    requires cfg.systemMode.PULL? && OnTheWayIn(p) && Runs(StartState(cfg), inputs)
    ensures Restrict(p, Existing(Appended(RxOps(cfg, inputs))))
         == Restrict(p, Delivered(cfg, RECEIVE, Outputs(StartState(cfg), inputs)))
            + Restrict(p, Existing(Run(StartState(cfg), inputs).rx))
  {
    var s, ops := StartState(cfg), RxOps(cfg, inputs);
    PullRunsBuffers(s, inputs);
    DeliveriesAreConsumed(s, inputs);
    RxOpsRespect(cfg, inputs, p);
    RunConservesExisting(p, ops);
  }

  lemma RunConservesExisting(p: Query, ops: seq<BufferOp>)
    requires AllRespect(ops, p)
    ensures Restrict(p, Existing(Appended(ops)))
         == Restrict(p, Existing(Consumed(ops, []))) + Restrict(p, Existing(Final(ops, [])))
  {
    RunConserves(p, ops, []);
    assert Restrict(p, []) + Restrict(p, Appended(ops)) == Restrict(p, Appended(ops));
    ExistingConcat(Restrict(p, Consumed(ops, [])), Restrict(p, Final(ops, [])));
    ExistingOfRestrict(p, Appended(ops));
    ExistingOfRestrict(p, Consumed(ops, []));
    ExistingOfRestrict(p, Final(ops, []));
  }

  /**
    No message reaches two requests. The entries a PULL run takes out are those at pairwise distinct
    positions of the sequence of sent messages, and every sent position is either taken or still buffered.
   */
  lemma EachSentMessageIsTakenOnce(cfg: Config, inputs: seq<Input>) returns (positions: seq<nat>, left: set<nat>)
    requires cfg.systemMode.PULL? && Runs(StartState(cfg), inputs)
    ensures var sent := Appended(TxOps(cfg, inputs));
            && (forall i :: 0 <= i < |positions| ==> positions[i] < |sent|)
            && (forall i, j :: 0 <= i < j < |positions| ==> positions[i] != positions[j])
            && Delivered(cfg, FETCH, Outputs(StartState(cfg), inputs)) == Existing(EntriesAt(sent, positions))
            && (forall i: nat :: i < |sent| <==> i in positions || i in left)
            && (forall i: nat :: i in positions ==> i !in left)
            && Represents(Ledger(sent, left), Run(StartState(cfg), inputs).tx)
  {
    var start := StartState(cfg);
    PullRunsBuffers(start, inputs);
    DeliveriesAreConsumed(start, inputs);
    positions, left := EachAppendIsTakenOnce(TxOps(cfg, inputs));
  }

  /** The same for posted messages and receives. */
  lemma EachPostedMessageIsTakenOnce(cfg: Config, inputs: seq<Input>) returns (positions: seq<nat>, left: set<nat>)
    requires cfg.systemMode.PULL? && Runs(StartState(cfg), inputs)
    ensures var posted := Appended(RxOps(cfg, inputs));
            && (forall i :: 0 <= i < |positions| ==> positions[i] < |posted|)
            && (forall i, j :: 0 <= i < j < |positions| ==> positions[i] != positions[j])
            && Delivered(cfg, RECEIVE, Outputs(StartState(cfg), inputs)) == Existing(EntriesAt(posted, positions))
            && (forall i: nat :: i < |posted| <==> i in positions || i in left)
            && (forall i: nat :: i in positions ==> i !in left)
            && Represents(Ledger(posted, left), Run(StartState(cfg), inputs).rx)
  {
    var start := StartState(cfg);
    PullRunsBuffers(start, inputs);
    DeliveriesAreConsumed(start, inputs);
    positions, left := EachAppendIsTakenOnce(RxOps(cfg, inputs));
  }

  // ---------------------------------------------------------------- non-interference between nodes

  /** The two buffers: out to the simulators, by source, and in to the applications, by destination. */
  datatype Way = Out | In

  function BufferOn(way: Way, s: State): seq<MessageEntry> {
    if way.Out? then s.tx else s.rx
  }

  function OpOn(way: Way, cfg: Config, i: Input): BufferOp {
    if way.Out? then TxOp(cfg, i) else RxOp(cfg, i)
  }

  function OwnClass(way: Way, n: string): Query {
    if way.Out? then FromSource(n) else ToDestination(n)
  }

  /** A FETCH, or RECEIVE, that names node `n`. */
  predicate AsksFor(way: Way, i: Input, n: string) {
    && i.Incoming? && i.msg.metadata.Some?
    && match way
       case Out => i.msg.manifest.op.FETCH? && i.msg.metadata.value.srcId == n
       case In => i.msg.manifest.op.RECEIVE? && i.msg.metadata.value.destId == n
  }

  /** A SEND, or a POST of a message, of node `n`. */
  predicate Brings(way: Way, i: Input, n: string) {
    && i.Incoming?
    && match way
       case Out => i.msg.manifest.op.SEND? && i.msg.Meta().srcId == n
       case In => i.msg.manifest.op.POST? && i.msg.manifest.code.MESSAGE? && i.msg.Meta().destId == n
  }

  /** A request that would pop the front, whatever its source or destination. */
  predicate IsUnfiltered(way: Way, i: Input) {
    AsksFor(way, i, "")
  }

  /** The part of a run that concerns node `n` alone. */
  function Project(way: Way, n: string, inputs: seq<Input>): seq<Input> {
    if inputs == [] then []
    else
      (if AsksFor(way, inputs[0], n) || Brings(way, inputs[0], n) then [inputs[0]] else [])
      + Project(way, n, inputs[1..])
  }

  /** What is written in answer to the requests of node `n`. */
  function AnswersTo(way: Way, n: string, s: State, inputs: seq<Input>): seq<Wire>
    requires Runs(s, inputs)
    decreases |inputs|
  {
    if inputs == [] then []
    else
      (if AsksFor(way, inputs[0], n) then Output(s, inputs[0]) else [])
      + AnswersTo(way, n, Next(s, inputs[0]), inputs[1..])
  }

  lemma OtherOpKeepsClass(op: BufferOp, p: Query, buf: seq<MessageEntry>)
    requires op.Append? ==> !p.Matches(op.entry)
    requires op.Remove? ==> op.query.Excludes(p)
    ensures Restrict(p, Result(op, buf)) == Restrict(p, buf)
  {
    match op {
      case Append(e) => RestrictConcat(p, buf, [e]);
      case Remove(q) =>
        AnswerIsHead(q, buf);
        TakeRespects(q, p, buf);
      case Idle =>
    }
  }

  lemma StepOfAnotherNode(way: Way, n: string, s: State, i: Input)
    requires s.cfg.systemMode.PULL? && n != "" && !IsUnfiltered(way, i)
    requires !AsksFor(way, i, n) && !Brings(way, i, n)
    ensures Restrict(OwnClass(way, n), BufferOn(way, Next(s, i))) == Restrict(OwnClass(way, n), BufferOn(way, s))
  {
    StepIsBufferOp(s, i);
    OtherOpKeepsClass(OpOn(way, s.cfg, i), OwnClass(way, n), BufferOn(way, s));
  }

  lemma StepOfThisNode(way: Way, n: string, s1: State, s2: State, i: Input)
    requires s1.cfg == s2.cfg && s1.cfg.systemMode.PULL? && n != ""
    requires AsksFor(way, i, n) || Brings(way, i, n)
    requires Restrict(OwnClass(way, n), BufferOn(way, s1)) == Restrict(OwnClass(way, n), BufferOn(way, s2))
    ensures Restrict(OwnClass(way, n), BufferOn(way, Next(s1, i)))
         == Restrict(OwnClass(way, n), BufferOn(way, Next(s2, i)))
    ensures Output(s1, i) == Output(s2, i)
  {
    var p := OwnClass(way, n);
    match OpOn(way, s1.cfg, i) {
      case Append(e) =>
        RestrictConcat(p, BufferOn(way, s1), [e]);
        RestrictConcat(p, BufferOn(way, s2), [e]);
      case Remove(q) =>
        assert q == p;
        AnswerIsHead(p, BufferOn(way, s1));
        AnswerIsHead(p, BufferOn(way, s2));
        RestDropsHead(p, BufferOn(way, s1));
        RestDropsHead(p, BufferOn(way, s2));
      case Idle =>
    }
  }

  /**
    Non-interference. When every FETCH names its source, the answers node `n` gets are those of the run
    that contains nothing but the SENDs and FETCHes of `n`, whatever the others do and however they
    interleave; and likewise for RECEIVEs, destinations and POSTs.
   */
  lemma {:induction false} NodesDoNotInterfere(way: Way, n: string, s1: State, s2: State, inputs: seq<Input>)
    requires s1.cfg == s2.cfg && s1.cfg.systemMode.PULL? && n != ""
    requires Restrict(OwnClass(way, n), BufferOn(way, s1)) == Restrict(OwnClass(way, n), BufferOn(way, s2))
    requires forall i :: i in inputs ==> !IsUnfiltered(way, i)
    ensures Runs(s1, inputs) && Runs(s2, Project(way, n, inputs))
    ensures AnswersTo(way, n, s1, inputs) == AnswersTo(way, n, s2, Project(way, n, inputs))
    decreases |inputs|
  {
    PullRunsBuffers(s1, inputs);
    PullRunsBuffers(s2, Project(way, n, inputs));
    if inputs != [] {
      var i, rest := inputs[0], inputs[1..];
      assert i in inputs && forall j :: j in rest ==> j in inputs;
      StepIsBufferOp(s1, i);
      StepIsBufferOp(s2, i);
      if AsksFor(way, i, n) || Brings(way, i, n) {
        StepOfThisNode(way, n, s1, s2, i);
        NodesDoNotInterfere(way, n, Next(s1, i), Next(s2, i), rest);
        assert Project(way, n, inputs)[1..] == Project(way, n, rest);
      } else {
        StepOfAnotherNode(way, n, s1, i);
        NodesDoNotInterfere(way, n, Next(s1, i), s2, rest);
        assert Project(way, n, inputs) == Project(way, n, rest);
      }
    }
  }

  /** The hypothesis is needed: one unfiltered request takes node `n`'s message away from it. */
  lemma UnfilteredFetchInterferes(
    way: Way, cfg: Config, send: Nsbm, unfiltered: Nsbm, fetch: Nsbm, fd: int, n: string)
    requires cfg.systemMode.PULL? && n != ""
    requires Brings(way, Incoming(fd, send), n) && EntryOf(cfg.useDb, send).Exists()
    requires IsUnfiltered(way, Incoming(fd, unfiltered)) && AsksFor(way, Incoming(fd, fetch), n)
    ensures var inputs := [Incoming(fd, send), Incoming(fd, unfiltered), Incoming(fd, fetch)];
            var s := StartState(cfg);
            && Runs(s, inputs) && Runs(s, Project(way, n, inputs))
            && AnswersTo(way, n, s, inputs) != AnswersTo(way, n, s, Project(way, n, inputs))
  {
    var s := StartState(cfg);
    var a, b, c := Incoming(fd, send), Incoming(fd, unfiltered), Incoming(fd, fetch);
    PullRunsBuffers(s, [a, b, c]);
    PullRunsBuffers(s, [a, c]);
    assert Project(way, n, [c]) == [c];
    assert [b, c][1..] == [c] && Project(way, n, [b, c]) == [c];
    assert [a, b, c][1..] == [b, c] && Project(way, n, [a, b, c]) == [a, c];
    var s1, s2 := Next(s, a), Next(Next(s, a), b);
    AnswerToOne(way, n, s2, c);
    AnswerToOne(way, n, s1, c);
    SkippedAnswer(way, n, s1, b, [c]);
    SkippedAnswer(way, n, s, a, [b, c]);
    SkippedAnswer(way, n, s, a, [c]);
    assert [a] + [b, c] == [a, b, c] && [b] + [c] == [b, c] && [a] + [c] == [a, c];
    assert BufferOn(way, s1) == [EntryOf(cfg.useDb, send)] && BufferOn(way, s2) == [];
  }

  lemma AnswerToOne(way: Way, n: string, s: State, i: Input)
    requires s.cfg.systemMode.PULL? && AsksFor(way, i, n)
    ensures Runs(s, [i]) && AnswersTo(way, n, s, [i]) == Output(s, i)
  {
    PullRunsBuffers(s, [i]);
    assert [i][1..] == [];
  }

  lemma SkippedAnswer(way: Way, n: string, s: State, i: Input, rest: seq<Input>)
    requires s.cfg.systemMode.PULL? && !AsksFor(way, i, n)
    ensures Runs(s, [i] + rest) && Runs(Next(s, i), rest)
    ensures AnswersTo(way, n, s, [i] + rest) == AnswersTo(way, n, Next(s, i), rest)
  {
    StepIsBufferOp(s, i);
    PullRunsBuffers(s, [i] + rest);
    PullRunsBuffers(Next(s, i), rest);
    assert ([i] + rest)[1..] == rest;
  }

  // ---------------------------------------------------------------- commutation

  /** Requests for different nodes commute: the same two replies and the same daemon, in either order. */
  lemma FetchesCommute(way: Way, s: State, i: Input, j: Input, a: string, b: string)
    requires s.cfg.systemMode.PULL? && a != "" && b != "" && a != b
    requires AsksFor(way, i, a) && AsksFor(way, j, b)
    ensures Next(Next(s, i), j) == Next(Next(s, j), i)
    ensures Output(Next(s, i), j) == Output(s, j)
    ensures Output(Next(s, j), i) == Output(s, i)
  {
    TakesCommute(OwnClass(way, a), OwnClass(way, b), BufferOn(way, s));
  }

  /**
    A FETCH of `a` commutes with a SEND, and a RECEIVE of `a` with a POST, exactly when the message is of
    another node `b`, or something of `a` is already waiting.
   */
  lemma FetchCommutesWithSend(way: Way, s: State, fetch: Input, send: Input, a: string, b: string)
    requires s.cfg.systemMode.PULL? && a != "" && AsksFor(way, fetch, a) && Brings(way, send, b)
    ensures Next(Next(s, send), fetch) == Next(Next(s, fetch), send) && Output(Next(s, send), fetch) == Output(s, fetch)
       <==> b != a || Restrict(OwnClass(way, a), BufferOn(way, s)) != []
  {
    var e := EntryOf(s.cfg.useDb, send.msg);
    TakeCommutesWithAppend(OwnClass(way, a), e, BufferOn(way, s));
    AnswerIsHead(OwnClass(way, a), BufferOn(way, s));
    AnswerIsHead(OwnClass(way, a), BufferOn(way, s) + [e]);
    RestConcat(OwnClass(way, a), BufferOn(way, s), [e]);
  }
}
