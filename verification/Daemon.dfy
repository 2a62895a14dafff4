/**
  The NSB daemon: what one incoming message does to its buffers and lookup tables, and what it writes
  to which descriptor. `State` and `Handle` are the specification; the class is the daemon itself.
 */
module Daemon {
  import opened Messages
  import opened Buffers
  import opened Decimals

  datatype ClientDetails = ClientDetails(
    identifier: string,
    address: string,
    ctrlPort: int, ctrlFd: int,
    sendPort: int, sendFd: int,
    recvPort: int, recvFd: int)

  datatype State = State(
    cfg: Config,
    running: bool,
    sims: map<string, ClientDetails>,
    apps: map<string, ClientDetails>,
    fds: map<string, int>,
    tx: seq<MessageEntry>,
    rx: seq<MessageEntry>)

  /** The key under which the only simulator of SYSTEM_WIDE mode is registered. */
  const SIMULATOR := "simulator"

  /** What every reachable state satisfies. */
  ghost predicate Sound(s: State) {
    && (s.cfg.simulatorMode.SYSTEM_WIDE? ==> s.sims.Keys <= {SIMULATOR})
    && (s.cfg.systemMode.PUSH? ==> s.tx == [] && s.rx == [])
  }

  function StartState(cfg: Config): (s: State)
    ensures Sound(s)
  {
    State(cfg, true, map[], map[], map[], [], [])
  }

  // ---------------------------------------------------------------- registration

  /** The descriptor accepted from `address:port`, or -1. */
  function Descriptor(fds: map<string, int>, address: string, port: int): int {
    var key := address + ":" + ToString(port);
    if key in fds then fds[key] else -1
  }

  function Details(intro: IntroDetails, fds: map<string, int>): ClientDetails {
    ClientDetails(
      intro.identifier, intro.address,
      intro.chCtrl, Descriptor(fds, intro.address, intro.chCtrl),
      intro.chSend, Descriptor(fds, intro.address, intro.chSend),
      intro.chRecv, Descriptor(fds, intro.address, intro.chRecv))
  }

  /** `std::map::emplace`: an existing binding stays. */
  function Emplace<V>(m: map<string, V>, k: string, v: V): map<string, V> {
    if k in m then m else m[k := v]
  }

  lemma NoneRegistered<V>(m: map<string, V>)
    ensures |m| == 0 <==> m == map[]
  {
    assert |m| == |m.Keys|;
    assert m.Keys == {} <==> m == map[];
  }

  /** The configuration that travels in an INIT reply. */
  function SharedConfig(cfg: Config): Config {
    if cfg.useDb then cfg else Config(cfg.systemMode, cfg.simulatorMode, false, "", 0, 0)
  }

  function InitReply(cfg: Config, success: bool): Nsbm {
    Nsbm(Manifest(INIT, DAEMON, if success then SUCCESS else FAILURE), None, ConfigParams(SharedConfig(cfg)))
  }

  function AfterInit(s: State, m: Nsbm): (State, Option<Nsbm>) {
    if !m.body.Intro? then (s, None)
    else
      var details := Details(m.body.details, s.fds);
      match m.manifest.og
      case APP_CLIENT =>
        (s.(apps := Emplace(s.apps, details.identifier, details)), Some(InitReply(s.cfg, true)))
      case SIM_CLIENT =>
        if s.cfg.simulatorMode.PER_NODE? then
          (s.(sims := Emplace(s.sims, details.identifier, details)), Some(InitReply(s.cfg, true)))
        else if s.cfg.simulatorMode.SYSTEM_WIDE? && |s.sims| == 0 then
          (s.(sims := Emplace(s.sims, SIMULATOR, details)), Some(InitReply(s.cfg, true)))
        else
          (s, Some(InitReply(s.cfg, false)))
      case _ => (s, None)
  }

  // ---------------------------------------------------------------- messages

  const PING_REPLY := Nsbm(Manifest(PING, DAEMON, SUCCESS), None, NoBody)

  function Forwarded(m: Nsbm): Nsbm {
    m.(manifest := m.manifest.(op := FORWARD))
  }

  /** The simulator a SEND is forwarded to in PUSH mode. */
  function SimulatorFor(s: State, m: Nsbm): string {
    if s.cfg.simulatorMode.SYSTEM_WIDE? then SIMULATOR else m.Meta().srcId
  }

  /** A SEND in PUSH mode must find a simulator with a live descriptor; the code does not check. */
  predicate CanHandle(s: State, m: Nsbm) {
    m.manifest.op.SEND? && s.cfg.systemMode.PUSH? && !s.cfg.simulatorMode.OtherSimulatorMode? ==>
      SimulatorFor(s, m) in s.sims && s.sims[SimulatorFor(s, m)].recvFd >= 0
  }

  function AfterSend(s: State, m: Nsbm): (State, seq<Wire>)
    requires m.manifest.op.SEND? && CanHandle(s, m)
  {
    match s.cfg.systemMode
    case PULL => (s.(tx := s.tx + [EntryOf(s.cfg.useDb, m)]), [])
    case PUSH =>
      if s.cfg.simulatorMode.OtherSimulatorMode? then (s, [])
      else (s, [Wire(s.sims[SimulatorFor(s, m)].recvFd, Forwarded(m))])
    case _ => (s, [])
  }

  function AfterPost(s: State, m: Nsbm): (State, seq<Wire>) {
    match s.cfg.systemMode
    case PULL =>
      if m.manifest.code.MESSAGE? then (s.(rx := s.rx + [EntryOf(s.cfg.useDb, m)]), []) else (s, [])
    case PUSH =>
      var dest := m.Meta().destId;
      if dest in s.apps && s.apps[dest].recvFd != -1
      then (s, [Wire(s.apps[dest].recvFd, Forwarded(m))])
      else (s, [])
    case _ => (s, [])
  }

  /** What a FETCH or RECEIVE takes out of its buffer: nothing at all without metadata. */
  function FetchOp(m: Nsbm): BufferOp {
    match m.metadata
    case None => Idle
    case Some(meta) => Remove(if meta.srcId != "" then FromSource(meta.srcId) else Anything)
  }

  function ReceiveOp(m: Nsbm): BufferOp {
    match m.metadata
    case None => Idle
    case Some(meta) => Remove(if meta.destId != "" then ToDestination(meta.destId) else Anything)
  }

  /** The reply for an entry that was taken, or for none; a malformed entry counts as none. */
  function Delivery(cfg: Config, op: Operation, taken: Option<MessageEntry>): Nsbm {
    if taken.Some? && taken.value.Exists() then
      var e := taken.value;
      Nsbm(Manifest(op, DAEMON, MESSAGE),
           Some(Metadata(e.source, e.destination, e.payloadSize)),
           PayloadBody(cfg.useDb, e.payloadObj))
    else
      Nsbm(Manifest(op, DAEMON, NO_MESSAGE), None, NoBody)
  }

  /** One incoming message: the next state and the messages written, with their descriptors. */
  function Handle(s: State, fd: int, m: Nsbm): (State, seq<Wire>)
    requires CanHandle(s, m)
  {
    match m.manifest.op
    case INIT =>
      var (next, reply) := AfterInit(s, m);
      (next, if reply.Some? then [Wire(fd, reply.value)] else [])
    case PING => (s, [Wire(fd, PING_REPLY)])
    case SEND => AfterSend(s, m)
    case FETCH =>
      (s.(tx := Result(FetchOp(m), s.tx)), [Wire(fd, Delivery(s.cfg, FETCH, Taken(FetchOp(m), s.tx)))])
    case POST => AfterPost(s, m)
    case RECEIVE =>
      (s.(rx := Result(ReceiveOp(m), s.rx)), [Wire(fd, Delivery(s.cfg, RECEIVE, Taken(ReceiveOp(m), s.rx)))])
    case EXIT => (s.(running := false), [])
    case _ => (s, [])
  }

  // ---------------------------------------------------------------- the daemon

  /** `std::find_if` over a buffer. */
  method FindIf(q: Query, buf: seq<MessageEntry>) returns (i: nat)
    ensures i <= |buf|
    ensures forall j :: 0 <= j < i ==> !q.Matches(buf[j])
    ensures i < |buf| ==> q.Matches(buf[i])
  {
    i := 0;
    while i < |buf| && !q.Matches(buf[i])
      invariant 0 <= i <= |buf|
      invariant forall j :: 0 <= j < i ==> !q.Matches(buf[j])
    {
      i := i + 1;
    }
  }

  class NSBDaemon {
    const cfg: Config
    var running: bool
    var simClientLookup: map<string, ClientDetails>
    var appClientLookup: map<string, ClientDetails>
    var fdLookup: map<string, int>
    var txBuffer: seq<MessageEntry>
    var rxBuffer: seq<MessageEntry>
    /** Everything written to the clients' descriptors, in order. */
    var wires: seq<Wire>

    ghost function View(): State
      reads this
    {
      State(cfg, running, simClientLookup, appClientLookup, fdLookup, txBuffer, rxBuffer)
    }

    ghost predicate Valid()
      reads this
    {
      Sound(View())
    }

    constructor (cfg: Config)
      ensures Valid() && View() == StartState(cfg) && wires == []
    {
      this.cfg := cfg;
      running := true;
      simClientLookup, appClientLookup, fdLookup := map[], map[], map[];
      txBuffer, rxBuffer, wires := [], [], [];
    }

    /** A client connection: the first descriptor bound to an address stays bound to it. */
    method Accept(address: string, fd: int)
      requires Valid()
      modifies this`fdLookup
      ensures Valid()
      ensures View() == old(View()).(fds := Emplace(old(fdLookup), address, fd))
    {
      if address !in fdLookup {
        fdLookup := fdLookup[address := fd];
      }
    }

    /** Serves one message from `fd`, writing the reply to `fd` and forwards to where they belong. */
    method HandleMessage(fd: int, message: Nsbm)
      requires Valid() && CanHandle(View(), message)
      modifies this
      ensures Valid()
      ensures View() == Handle(old(View()), fd, message).0
      ensures wires == old(wires) + Handle(old(View()), fd, message).1
    {
      var response := PING_REPLY;
      var responseRequired := false;
      match message.manifest.op {
        case INIT => response, responseRequired := HandleInit(message);
        case PING => response, responseRequired := PING_REPLY, true;
        case SEND => HandleSend(message);
        case FETCH => response, responseRequired := HandleFetch(message);
        case POST => HandlePost(message);
        case RECEIVE => response, responseRequired := HandleReceive(message);
        case EXIT => Stop();
        case _ =>
          response := Nsbm(Manifest(PING, DAEMON, FAILURE), None, NoBody);
      }
      if responseRequired {
        wires := wires + [Wire(fd, response)];
      }
    }

    method HandleInit(incoming: Nsbm) returns (outgoing: Nsbm, responseRequired: bool)
      requires Valid()
      modifies this`appClientLookup, this`simClientLookup
      ensures Valid()
      ensures View() == AfterInit(old(View()), incoming).0
      ensures AfterInit(old(View()), incoming).1 == if responseRequired then Some(outgoing) else None
    {
      outgoing, responseRequired := PING_REPLY, false;
      if !incoming.body.Intro? {
        return;
      }
      var success := false;
      var details := Details(incoming.body.details, fdLookup);
      if incoming.manifest.og.APP_CLIENT? {
        appClientLookup := Emplace(appClientLookup, details.identifier, details);
        success := true;
      } else if incoming.manifest.og.SIM_CLIENT? {
        if cfg.simulatorMode.PER_NODE? {
          simClientLookup := Emplace(simClientLookup, details.identifier, details);
          success := true;
        } else if cfg.simulatorMode.SYSTEM_WIDE? {
          if |simClientLookup| == 0 {
            simClientLookup := Emplace(simClientLookup, SIMULATOR, details);
            success := true;
          }
        }
      } else {
        return;
      }
      outgoing, responseRequired := InitReply(cfg, success), true;
    }

    method HandleSend(incoming: Nsbm)
      requires Valid() && incoming.manifest.op.SEND? && CanHandle(View(), incoming)
      modifies this`txBuffer, this`wires
      ensures Valid()
      ensures View() == AfterSend(old(View()), incoming).0
      ensures wires == old(wires) + AfterSend(old(View()), incoming).1
    {
      if cfg.systemMode.PULL? {
        txBuffer := txBuffer + [EntryOf(cfg.useDb, incoming)];
      } else if cfg.systemMode.PUSH? {
        var targetFd;
        if cfg.simulatorMode.SYSTEM_WIDE? {
          // The only entry of the lookup table.
          targetFd := simClientLookup[SIMULATOR].recvFd;
        } else if cfg.simulatorMode.PER_NODE? {
          targetFd := simClientLookup[incoming.Meta().srcId].recvFd;
        } else {
          return;
        }
        wires := wires + [Wire(targetFd, Forwarded(incoming))];
      }
    }

    method HandleFetch(incoming: Nsbm) returns (outgoing: Nsbm, responseRequired: bool)
      requires Valid()
      modifies this`txBuffer
      ensures Valid() && responseRequired
      ensures txBuffer == Result(FetchOp(incoming), old(txBuffer))
      ensures outgoing == Delivery(cfg, FETCH, Taken(FetchOp(incoming), old(txBuffer)))
    {
      var fetched := BLANK_ENTRY;
      if incoming.metadata.Some? {
        var source := incoming.metadata.value.srcId;
        if source != "" {
          var i := FindIf(FromSource(source), txBuffer);
          EraseAtFirstMatch(FromSource(source), txBuffer, i);
          if i < |txBuffer| {
            fetched := txBuffer[i];
            txBuffer := txBuffer[..i] + txBuffer[i + 1..];
          }
        } else if txBuffer != [] {
          fetched := txBuffer[0];
          txBuffer := txBuffer[1..];
        }
      }
      responseRequired := true;
      if fetched.Exists() {
        outgoing := Nsbm(Manifest(FETCH, DAEMON, MESSAGE),
                         Some(Metadata(fetched.source, fetched.destination, fetched.payloadSize)),
                         PayloadBody(cfg.useDb, fetched.payloadObj));
      } else {
        outgoing := Nsbm(Manifest(FETCH, DAEMON, NO_MESSAGE), None, NoBody);
      }
    }

    method HandlePost(incoming: Nsbm)
      requires Valid()
      modifies this`rxBuffer, this`wires
      ensures Valid()
      ensures View() == AfterPost(old(View()), incoming).0
      ensures wires == old(wires) + AfterPost(old(View()), incoming).1
    {
      if cfg.systemMode.PULL? {
        if incoming.manifest.code.MESSAGE? {
          rxBuffer := rxBuffer + [EntryOf(cfg.useDb, incoming)];
        }
      } else if cfg.systemMode.PUSH? {
        var destId := incoming.Meta().destId;
        var targetFd := if destId in appClientLookup then appClientLookup[destId].recvFd else -1;
        if targetFd != -1 {
          wires := wires + [Wire(targetFd, Forwarded(incoming))];
        }
      }
    }

    method HandleReceive(incoming: Nsbm) returns (outgoing: Nsbm, responseRequired: bool)
      requires Valid()
      modifies this`rxBuffer
      ensures Valid() && responseRequired
      ensures rxBuffer == Result(ReceiveOp(incoming), old(rxBuffer))
      ensures outgoing == Delivery(cfg, RECEIVE, Taken(ReceiveOp(incoming), old(rxBuffer)))
    {
      var received := BLANK_ENTRY;
      if incoming.metadata.Some? {
        var destination := incoming.metadata.value.destId;
        if destination != "" {
          var i := FindIf(ToDestination(destination), rxBuffer);
          EraseAtFirstMatch(ToDestination(destination), rxBuffer, i);
          if i < |rxBuffer| {
            received := rxBuffer[i];
            rxBuffer := rxBuffer[..i] + rxBuffer[i + 1..];
          }
        } else if rxBuffer != [] {
          received := rxBuffer[0];
          rxBuffer := rxBuffer[1..];
        }
      }
      responseRequired := true;
      if received.Exists() {
        outgoing := Nsbm(Manifest(RECEIVE, DAEMON, MESSAGE),
                         Some(Metadata(received.source, received.destination, received.payloadSize)),
                         PayloadBody(cfg.useDb, received.payloadObj));
      } else {
        outgoing := Nsbm(Manifest(RECEIVE, DAEMON, NO_MESSAGE), None, NoBody);
      }
    }

    method Stop()
      modifies this`running
      ensures !running
    {
      if running {
        running := false;
      }
    }
  }
}
