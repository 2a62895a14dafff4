/**
  What single operations do, said in terms of messages, lists and tables alone: which entry a request gets,
  what is written to whom, and what a client makes of it. Whole runs are the subject of the other modules.
 */
module Meaning {
  import opened Messages
  import opened Buffers
  import opened Daemon
  import Decimals
  import Keys
  import opened Clients
  import opened Bridge

  // ---------------------------------------------------------------- requests to the daemon

  /** Entry `i` is the first one sent by `source`. */
  ghost predicate FirstFrom(buf: seq<MessageEntry>, source: string, i: nat) {
    i < |buf| && buf[i].source == source && forall j :: 0 <= j < i ==> buf[j].source != source
  }

  /** Entry `i` is the first one addressed to `destination`. */
  ghost predicate FirstTo(buf: seq<MessageEntry>, destination: string, i: nat) {
    i < |buf| && buf[i].destination == destination && forall j :: 0 <= j < i ==> buf[j].destination != destination
  }

  function Without(buf: seq<MessageEntry>, i: nat): seq<MessageEntry>
    requires i < |buf|
  {
    buf[..i] + buf[i + 1..]
  }

  /** All three parts of an entry that a delivery needs are there. */
  predicate IsWhole(e: MessageEntry) {
    |e.source| > 0 && |e.destination| > 0 && |e.payloadObj| > 0
  }

  /** `m` hands out entry `e`, or says that there is no message if `e` is not whole. */
  predicate HandsOut(m: Nsbm, op: Operation, useDb: bool, e: MessageEntry) {
    && m.manifest.op == op && m.manifest.og == DAEMON
    && if IsWhole(e) then
         && m.manifest.code == MESSAGE
         && m.metadata == Some(Metadata(e.source, e.destination, e.payloadSize))
         && m.body == (if useDb then MsgKey(e.payloadObj) else Payload(e.payloadObj))
       else m.manifest.code == NO_MESSAGE && m.metadata == None && m.body == NoBody
  }

  predicate SaysNoMessage(m: Nsbm, op: Operation) {
    m == Nsbm(Manifest(op, DAEMON, NO_MESSAGE), None, NoBody)
  }

  lemma FirstFromIsAnswer(source: string, buf: seq<MessageEntry>)
    ensures forall i: nat :: FirstFrom(buf, source, i) ==>
              Answer(FromSource(source), buf) == Some(buf[i]) && Rest(FromSource(source), buf) == Without(buf, i)
    ensures (forall i :: 0 <= i < |buf| ==> buf[i].source != source) ==>
              Answer(FromSource(source), buf) == None && Rest(FromSource(source), buf) == buf
  {
    forall i: nat | FirstFrom(buf, source, i)
      ensures Answer(FromSource(source), buf) == Some(buf[i]) && Rest(FromSource(source), buf) == Without(buf, i)
    {
      EraseAtFirstMatch(FromSource(source), buf, i);
    }
    if forall i :: 0 <= i < |buf| ==> buf[i].source != source {
      NoMatchNoAnswer(FromSource(source), buf);
    }
  }

  lemma FirstToIsAnswer(dest: string, buf: seq<MessageEntry>)
    ensures forall i: nat :: FirstTo(buf, dest, i) ==>
              Answer(ToDestination(dest), buf) == Some(buf[i]) && Rest(ToDestination(dest), buf) == Without(buf, i)
    ensures (forall i :: 0 <= i < |buf| ==> buf[i].destination != dest) ==>
              Answer(ToDestination(dest), buf) == None && Rest(ToDestination(dest), buf) == buf
  {
    forall i: nat | FirstTo(buf, dest, i)
      ensures Answer(ToDestination(dest), buf) == Some(buf[i]) && Rest(ToDestination(dest), buf) == Without(buf, i)
    {
      EraseAtFirstMatch(ToDestination(dest), buf, i);
    }
    if forall i :: 0 <= i < |buf| ==> buf[i].destination != dest {
      NoMatchNoAnswer(ToDestination(dest), buf);
    }
  }

  /**
    A FETCH that names a source takes out the first entry of that source; without a source, the front; and
    nothing if there is no such entry, or no metadata. It is answered on its own descriptor, once.
   */
  lemma FetchMeans(s: State, fd: int, m: Nsbm)
    requires m.manifest.op == FETCH
    ensures CanHandle(s, m)
    ensures var (s', out) := Handle(s, fd, m);
            && |out| == 1 && out[0].fd == fd
            && (forall i: nat :: m.metadata.Some? && m.metadata.value.srcId != ""
                                 && FirstFrom(s.tx, m.metadata.value.srcId, i) ==>
                  s' == s.(tx := Without(s.tx, i)) && HandsOut(out[0].msg, FETCH, s.cfg.useDb, s.tx[i]))
            && (m.metadata.Some? && m.metadata.value.srcId == "" && s.tx != [] ==>
                  s' == s.(tx := s.tx[1..]) && HandsOut(out[0].msg, FETCH, s.cfg.useDb, s.tx[0]))
            && (m.metadata.None? || s.tx == []
                || (m.metadata.value.srcId != ""
                    && forall i :: 0 <= i < |s.tx| ==> s.tx[i].source != m.metadata.value.srcId) ==>
                  s' == s && SaysNoMessage(out[0].msg, FETCH))
  {
    if m.metadata.Some? && m.metadata.value.srcId != "" {
      FirstFromIsAnswer(m.metadata.value.srcId, s.tx);
    }
  }

  /** A RECEIVE does the same on the other buffer, by destination. */
  lemma ReceiveMeans(s: State, fd: int, m: Nsbm)
    requires m.manifest.op == RECEIVE
    ensures CanHandle(s, m)
    ensures var (s', out) := Handle(s, fd, m);
            && |out| == 1 && out[0].fd == fd
            && (forall i: nat :: m.metadata.Some? && m.metadata.value.destId != ""
                                 && FirstTo(s.rx, m.metadata.value.destId, i) ==>
                  s' == s.(rx := Without(s.rx, i)) && HandsOut(out[0].msg, RECEIVE, s.cfg.useDb, s.rx[i]))
            && (m.metadata.Some? && m.metadata.value.destId == "" && s.rx != [] ==>
                  s' == s.(rx := s.rx[1..]) && HandsOut(out[0].msg, RECEIVE, s.cfg.useDb, s.rx[0]))
            && (m.metadata.None? || s.rx == []
                || (m.metadata.value.destId != ""
                    && forall i :: 0 <= i < |s.rx| ==> s.rx[i].destination != m.metadata.value.destId) ==>
                  s' == s && SaysNoMessage(out[0].msg, RECEIVE))
  {
    if m.metadata.Some? && m.metadata.value.destId != "" {
      FirstToIsAnswer(m.metadata.value.destId, s.rx);
    }
  }

  // ---------------------------------------------------------------- messages and registrations

  /** The entry that a message becomes; what it lacks, or has of the wrong kind, is empty there. */
  ghost predicate BecomesEntry(m: Nsbm, useDb: bool, e: MessageEntry) {
    && (match m.metadata
        case Some(Metadata(src, dest, size)) => e.source == src && e.destination == dest && e.payloadSize == size
        case None => e.source == "" && e.destination == "" && e.payloadSize == 0)
    && (match m.body
        case Payload(bytes) => e.payloadObj == if useDb then "" else bytes
        case MsgKey(key) => e.payloadObj == if useDb then key else ""
        case _ => e.payloadObj == "")
  }

  /**
    In PULL mode a SEND goes to the end of one buffer and a POST of a message to the end of the other; in a
    mode that is neither PULL nor PUSH nothing happens.
   */
  lemma ParcelIsBuffered(s: State, fd: int, m: Nsbm, e: MessageEntry)
    requires s.cfg.systemMode != PUSH && BecomesEntry(m, s.cfg.useDb, e)
    ensures CanHandle(s, m)
    ensures s.cfg.systemMode == PULL && m.manifest.op == SEND ==> Handle(s, fd, m) == (s.(tx := s.tx + [e]), [])
    ensures s.cfg.systemMode == PULL && m.manifest.op == POST && m.manifest.code == MESSAGE ==>
              Handle(s, fd, m) == (s.(rx := s.rx + [e]), [])
    ensures s.cfg.systemMode == PULL && m.manifest.op == POST && m.manifest.code != MESSAGE ==>
              Handle(s, fd, m) == (s, [])
    ensures s.cfg.systemMode != PULL && (m.manifest.op == SEND || m.manifest.op == POST) ==>
              Handle(s, fd, m) == (s, [])
  {
    assert EntryOf(s.cfg.useDb, m) == e;
  }

  /** A wire that carries `m` on, unchanged but for its operation. */
  predicate CarriesOn(w: Wire, fd: int, m: Nsbm) {
    && w.fd == fd && w.msg.manifest.op == FORWARD
    && w.msg.manifest.og == m.manifest.og && w.msg.manifest.code == m.manifest.code
    && w.msg.metadata == m.metadata && w.msg.body == m.body
  }

  /**
    In PUSH mode a SEND goes to the only simulator, or to the one of its source's name, and a POST to the
    application of its destination's name, or to nobody; and nothing is buffered.
   */
  lemma ParcelIsForwarded(s: State, fd: int, m: Nsbm, meta: Metadata)
    requires s.cfg.systemMode == PUSH && m.metadata == Some(meta)
    ensures m.manifest.op == SEND && s.cfg.simulatorMode == PER_NODE
            && meta.srcId in s.sims && s.sims[meta.srcId].recvFd >= 0 ==>
              && CanHandle(s, m) && Handle(s, fd, m).0 == s && |Handle(s, fd, m).1| == 1
              && CarriesOn(Handle(s, fd, m).1[0], s.sims[meta.srcId].recvFd, m)
    ensures m.manifest.op == SEND && s.cfg.simulatorMode == SYSTEM_WIDE
            && SIMULATOR in s.sims && s.sims[SIMULATOR].recvFd >= 0 ==>
              && CanHandle(s, m) && Handle(s, fd, m).0 == s && |Handle(s, fd, m).1| == 1
              && CarriesOn(Handle(s, fd, m).1[0], s.sims[SIMULATOR].recvFd, m)
    ensures m.manifest.op == SEND && s.cfg.simulatorMode.OtherSimulatorMode? ==>
              CanHandle(s, m) && Handle(s, fd, m) == (s, [])
    ensures m.manifest.op == POST && meta.destId in s.apps && s.apps[meta.destId].recvFd != -1 ==>
              && Handle(s, fd, m).0 == s && |Handle(s, fd, m).1| == 1
              && CarriesOn(Handle(s, fd, m).1[0], s.apps[meta.destId].recvFd, m)
    ensures m.manifest.op == POST && (meta.destId !in s.apps || s.apps[meta.destId].recvFd == -1) ==>
              Handle(s, fd, m) == (s, [])
  {
  }

  /** An INIT that must be accepted: of an application, of a PER_NODE simulator, or of the first simulator. */
  predicate MustBeAccepted(s: State, m: Nsbm) {
    || m.manifest.og == APP_CLIENT
    || (m.manifest.og == SIM_CLIENT
        && (s.cfg.simulatorMode == PER_NODE || (s.cfg.simulatorMode == SYSTEM_WIDE && s.sims == map[])))
  }

  /** A configuration that tells a client the daemon's modes, and where the store is if there is one. */
  predicate Tells(sent: Config, cfg: Config) {
    && sent.systemMode == cfg.systemMode && sent.simulatorMode == cfg.simulatorMode && sent.useDb == cfg.useDb
    && (cfg.useDb ==> sent.dbAddress == cfg.dbAddress && sent.dbPort == cfg.dbPort && sent.dbNum == cfg.dbNum)
  }

  /**
    Every INIT with details from a client gets exactly one answer, on its own descriptor, with the
    configuration: SUCCESS for those that must be accepted, and FAILURE for every other simulator.
   */
  lemma InitMeans(s: State, fd: int, m: Nsbm)
    requires m.manifest.op == INIT && m.body.Intro?
    requires m.manifest.og == APP_CLIENT || m.manifest.og == SIM_CLIENT
    ensures var out := Handle(s, fd, m).1;
            && |out| == 1 && out[0].fd == fd
            && out[0].msg.manifest.op == INIT && out[0].msg.manifest.og == DAEMON && out[0].msg.metadata == None
            && out[0].msg.manifest.code == (if MustBeAccepted(s, m) then SUCCESS else FAILURE)
            && out[0].msg.body.ConfigParams? && Tells(out[0].msg.body.params, s.cfg)
  {
    NoneRegistered(s.sims);
  }

  /** The descriptor bound to an address and port, or -1. */
  predicate IsDescriptor(fds: map<string, int>, address: string, port: int, fd: int) {
    var key := address + ":" + Decimals.ToString(port);
    if key in fds then fd == fds[key] else fd == -1
  }

  /** A registration holds what the client said of itself, and the descriptors of its three channels. */
  predicate Records(c: ClientDetails, d: IntroDetails, fds: map<string, int>) {
    && c.identifier == d.identifier && c.address == d.address
    && c.ctrlPort == d.chCtrl && c.sendPort == d.chSend && c.recvPort == d.chRecv
    && IsDescriptor(fds, d.address, d.chCtrl, c.ctrlFd)
    && IsDescriptor(fds, d.address, d.chSend, c.sendFd)
    && IsDescriptor(fds, d.address, d.chRecv, c.recvFd)
  }

  lemma DetailsAreRecords(d: IntroDetails, fds: map<string, int>)
    ensures Records(Details(d, fds), d, fds)
  {
  }

  /** The table with a client's registration: a first one is recorded, a later one changes nothing. */
  predicate Registers(
    before: map<string, ClientDetails>, after: map<string, ClientDetails>, key: string, d: IntroDetails,
    fds: map<string, int>)
  {
    && after.Keys == before.Keys + {key}
    && (forall k :: k in before ==> after[k] == before[k])
    && (key !in before ==> Records(after[key], d, fds))
  }

  lemma EmplacedRegisters(before: map<string, ClientDetails>, key: string, d: IntroDetails, fds: map<string, int>)
    ensures Registers(before, Emplace(before, key, Details(d, fds)), key, d, fds)
  {
    DetailsAreRecords(d, fds);
  }

  /** What an accepted INIT registers; nothing else changes. */
  lemma InitRegisters(s: State, fd: int, m: Nsbm)
    requires m.manifest.op == INIT && m.body.Intro? && MustBeAccepted(s, m)
    ensures var s', d := Handle(s, fd, m).0, m.body.details;
            && s' == s.(apps := s'.apps, sims := s'.sims)
            && (m.manifest.og == APP_CLIENT ==>
                  s'.sims == s.sims && Registers(s.apps, s'.apps, d.identifier, d, s.fds))
            && (m.manifest.og == SIM_CLIENT && s.cfg.simulatorMode == PER_NODE ==>
                  s'.apps == s.apps && Registers(s.sims, s'.sims, d.identifier, d, s.fds))
            && (m.manifest.og == SIM_CLIENT && s.cfg.simulatorMode == SYSTEM_WIDE ==>
                  s'.apps == s.apps && Registers(s.sims, s'.sims, SIMULATOR, d, s.fds))
  {
    var d := m.body.details;
    EmplacedRegisters(s.apps, d.identifier, d, s.fds);
    EmplacedRegisters(s.sims, d.identifier, d, s.fds);
    EmplacedRegisters(s.sims, SIMULATOR, d, s.fds);
    NoneRegistered(s.sims);
  }

  /** How a client introduces itself: in its own role and under its own identifier, with its addresses. */
  lemma ClientIntroducesItself(c: Client, intro: IntroDetails)
    ensures var m := InitRequest(c, intro);
            && m.manifest == Manifest(INIT, c.og, SUCCESS) && m.metadata == None
            && m.body == Intro(IntroDetails(c.id, intro.address, intro.chCtrl, intro.chSend, intro.chRecv))
  {
  }

  /** Everything else: PING is answered, EXIT stops the daemon, and what is unknown has no effect. */
  lemma OthersMean(s: State, fd: int, m: Nsbm)
    ensures m.manifest.op == PING ==>
              Handle(s, fd, m) == (s, [Wire(fd, Nsbm(Manifest(PING, DAEMON, SUCCESS), None, NoBody))])
    ensures m.manifest.op == EXIT ==> Handle(s, fd, m) == (s.(running := false), [])
    ensures m.manifest.op == FORWARD || m.manifest.op.OtherOperation? ==> Handle(s, fd, m) == (s, [])
    ensures m.manifest.op == INIT
            && (!m.body.Intro? || (m.manifest.og != APP_CLIENT && m.manifest.og != SIM_CLIENT)) ==>
              Handle(s, fd, m) == (s, [])
  {
  }

  // ---------------------------------------------------------------- operations of the clients

  /** What a client obtains when the daemon takes out entry `e`: its payload is looked up if there is a store. */
  function Handed(e: MessageEntry, useDb: bool, store: Store): MessageEntry {
    if !IsWhole(e) then BLANK_ENTRY
    else if !useDb then e
    else e.(payloadObj := if e.payloadObj in store then store[e.payloadObj] else "")
  }

  /** The store after that: a key that was handed out is gone. */
  function Redeemed(e: MessageEntry, useDb: bool, store: Store): Store {
    if IsWhole(e) && useDb then store - {e.payloadObj} else store
  }

  /** The source that a `fetch` is to serve: what the caller or the mode says, or none. */
  function WantedSource(flavour: Flavour, mode: SimulatorMode, id: string, named: Option<string>): string {
    if mode == PER_NODE && (flavour == Classic || named == None || named == Some("")) then id
    else if named.Some? && (mode == SYSTEM_WIDE || flavour == Unified) then named.value
    else ""
  }

  /** What a polling client makes of the entry that the daemon takes out for it, if there is one. */
  lemma FetchHandsOut(s: System, flavour: Flavour, simulator: string, named: Option<string>, q: Query)
    requires s.daemon.cfg.systemMode == PULL
    requires FetchOp(FetchRequest(ClientOf(s, flavour, SIM_CLIENT, simulator), named)) == Remove(q)
    ensures var (s', e) := Step(s, Fetch(flavour, simulator, named));
            match Answer(q, s.daemon.tx)
            case None => e == BLANK_ENTRY && s'.daemon == s.daemon.(tx := Rest(q, s.daemon.tx)) && s'.store == s.store
            case Some(taken) =>
              && e == Handed(taken, s.daemon.cfg.useDb, s.store)
              && s'.daemon == s.daemon.(tx := Rest(q, s.daemon.tx))
              && s'.store == Redeemed(taken, s.daemon.cfg.useDb, s.store)
  {
  }

  lemma ReceiveHandsOut(s: System, flavour: Flavour, application: string, named: Option<string>, q: Query)
    requires s.daemon.cfg.systemMode == PULL
    requires ReceiveOp(ReceiveRequest(ClientOf(s, flavour, APP_CLIENT, application), named)) == Remove(q)
    ensures var (s', e) := Step(s, Receive(flavour, application, named));
            match Answer(q, s.daemon.rx)
            case None => e == BLANK_ENTRY && s'.daemon == s.daemon.(rx := Rest(q, s.daemon.rx)) && s'.store == s.store
            case Some(taken) =>
              && e == Handed(taken, s.daemon.cfg.useDb, s.store)
              && s'.daemon == s.daemon.(rx := Rest(q, s.daemon.rx))
              && s'.store == Redeemed(taken, s.daemon.cfg.useDb, s.store)
  {
  }

  /**
    `fetch` in PULL mode, with either library: for a wanted source, the first entry of that source is
    obtained and taken out, and nothing happens if there is none.
   */
  lemma FetchServesSource(s: System, flavour: Flavour, simulator: string, named: Option<string>)
    requires s.daemon.cfg.systemMode == PULL
    requires WantedSource(flavour, s.daemon.cfg.simulatorMode, simulator, named) != ""
    ensures var source := WantedSource(flavour, s.daemon.cfg.simulatorMode, simulator, named);
            var (s', e) := Step(s, Fetch(flavour, simulator, named));
            && (forall i: nat :: FirstFrom(s.daemon.tx, source, i) ==>
                  && e == Handed(s.daemon.tx[i], s.daemon.cfg.useDb, s.store)
                  && s'.daemon == s.daemon.(tx := Without(s.daemon.tx, i))
                  && s'.store == Redeemed(s.daemon.tx[i], s.daemon.cfg.useDb, s.store))
            && ((forall i :: 0 <= i < |s.daemon.tx| ==> s.daemon.tx[i].source != source) ==>
                  e == BLANK_ENTRY && s'.daemon == s.daemon && s'.store == s.store)
  {
    var source := WantedSource(flavour, s.daemon.cfg.simulatorMode, simulator, named);
    FetchHandsOut(s, flavour, simulator, named, FromSource(source));
    FirstFromIsAnswer(source, s.daemon.tx);
  }

  /**
    Without a wanted source the classic library obtains the front of the buffer, and the unified one, in
    SYSTEM_WIDE mode, nothing.
   */
  lemma FetchServesFront(s: System, flavour: Flavour, simulator: string, named: Option<string>)
    requires s.daemon.cfg.systemMode == PULL
    requires WantedSource(flavour, s.daemon.cfg.simulatorMode, simulator, named) == ""
    ensures var (s', e) := Step(s, Fetch(flavour, simulator, named));
            && (flavour == Classic && s.daemon.tx != [] ==>
                  && e == Handed(s.daemon.tx[0], s.daemon.cfg.useDb, s.store)
                  && s'.daemon == s.daemon.(tx := s.daemon.tx[1..])
                  && s'.store == Redeemed(s.daemon.tx[0], s.daemon.cfg.useDb, s.store))
            && ((flavour == Unified && s.daemon.cfg.simulatorMode != PER_NODE) || s.daemon.tx == [] ==>
                  e == BLANK_ENTRY && s'.daemon == s.daemon && s'.store == s.store)
  {
  }

  /** The destination that a `receive` asks for: the one named, or the client's own. */
  function WantedDestination(flavour: Flavour, id: string, named: Option<string>): string {
    if named == None || (flavour == Unified && named == Some("")) then id else named.value
  }

  /** `receive` in PULL mode, with either library. */
  lemma ReceiveServesDestination(s: System, flavour: Flavour, application: string, named: Option<string>)
    requires s.daemon.cfg.systemMode == PULL && WantedDestination(flavour, application, named) != ""
    ensures var dest := WantedDestination(flavour, application, named);
            var (s', e) := Step(s, Receive(flavour, application, named));
            && (forall i: nat :: FirstTo(s.daemon.rx, dest, i) ==>
                  && e == Handed(s.daemon.rx[i], s.daemon.cfg.useDb, s.store)
                  && s'.daemon == s.daemon.(rx := Without(s.daemon.rx, i))
                  && s'.store == Redeemed(s.daemon.rx[i], s.daemon.cfg.useDb, s.store))
            && ((forall i :: 0 <= i < |s.daemon.rx| ==> s.daemon.rx[i].destination != dest) ==>
                  e == BLANK_ENTRY && s'.daemon == s.daemon && s'.store == s.store)
  {
    var dest := WantedDestination(flavour, application, named);
    ReceiveHandsOut(s, flavour, application, named, ToDestination(dest));
    FirstToIsAnswer(dest, s.daemon.rx);
  }

  /** The messages that clients write: each with its operation, in the client's own role, and with its contents. */
  lemma ClientMessagesAre(c: Client, src: string, dest: string, payload: string, key: string, named: Option<string>)
    ensures var meta := Metadata(src, dest, Int32(|payload|));
            var body := if c.cfg.useDb then MsgKey(key) else Payload(payload);
            && PostRequest(c, src, dest, payload, key) == Nsbm(Manifest(POST, c.og, MESSAGE), Some(meta), body)
            && SendRequest(c, dest, payload, key)
               == Nsbm(Manifest(SEND, c.og, MESSAGE), Some(meta.(srcId := c.id)), body)
    ensures FetchRequest(c, named).manifest == Manifest(FETCH, c.og, SUCCESS) && FetchRequest(c, named).body == NoBody
    ensures ReceiveRequest(c, named).manifest == Manifest(RECEIVE, c.og, SUCCESS)
            && ReceiveRequest(c, named).body == NoBody
  {
  }

  /** The key that a client makes next; the counter in it is 20 bits wide. */
  function NextKeyOf(s: System, og: Originator, id: string, now: int): string {
    Keys.Key(now, id, (Generations(s, Connector(og, id)) + 1) % 1048576)
  }

  lemma NextKeyIsKeyFor(s: System, og: Originator, id: string, now: int)
    ensures NextKeyOf(s, og, id, now) == KeyFor(s, Connector(og, id), now)
  {
  }

  /** The entry under which a payload travels: with its size, and with the key in its place if there is a store. */
  function Travelling(src: string, dest: string, payload: string, useDb: bool, key: string): MessageEntry {
    MessageEntry(src, dest, if useDb then key else payload, Int32(|payload|))
  }

  /**
    `send` in PULL mode: the message goes to the end of the buffer, with its payload, or with the key under
    which that is now stored.
   */
  lemma SendMeans(s: System, src: string, dest: string, payload: string, now: int)
    requires s.daemon.cfg.systemMode == PULL && WellFormed(Send(src, dest, payload, now))
    ensures var s', key := Step(s, Send(src, dest, payload, now)).0, NextKeyOf(s, APP_CLIENT, src, now);
            && s'.daemon == s.daemon.(tx := s.daemon.tx + [Travelling(src, dest, payload, s.daemon.cfg.useDb, key)])
            && s'.store == (if s.daemon.cfg.useDb then s.store[key := payload] else s.store)
  {
    NextKeyIsKeyFor(s, APP_CLIENT, src, now);
  }

  /** `post` in PULL mode: the same for the next message of a pair that is in the simulated network. */
  lemma PostMeans(s: System, via: string, e: MessageEntry, now: int, i: nat)
    requires s.daemon.cfg.systemMode == PULL && i < |s.hands| && s.hands[i] == e
    requires forall j :: 0 <= j < i ==> s.hands[j].source != e.source || s.hands[j].destination != e.destination
    ensures var s' := Step(s, Action.Post(via, e.source, e.destination, now)).0;
            var key := NextKeyOf(s, SIM_CLIENT, via, now);
            var posted := Travelling(e.source, e.destination, e.payloadObj, s.daemon.cfg.useDb, key);
            && s'.daemon == s.daemon.(rx := s.daemon.rx + [posted]) && s'.hands == Without(s.hands, i)
            && s'.store == (if s.daemon.cfg.useDb then s.store[key := e.payloadObj] else s.store)
  {
    NextKeyIsKeyFor(s, SIM_CLIENT, via, now);
    EraseAtFirstMatch(Between(e.source, e.destination), s.hands, i);
    PostTakes(s, via, e, now);
  }

  lemma PostTakes(s: System, via: string, e: MessageEntry, now: int)
    requires Answer(Between(e.source, e.destination), s.hands) == Some(e) && s.daemon.cfg.systemMode == PULL
    ensures var s' := AfterPostAction(s, via, e.source, e.destination, now);
            var key := KeyFor(s, Connector(SIM_CLIENT, via), now);
            var posted := Travelling(e.source, e.destination, e.payloadObj, s.daemon.cfg.useDb, key);
            && s'.daemon == s.daemon.(rx := s.daemon.rx + [posted])
            && s'.hands == Rest(Between(e.source, e.destination), s.hands)
            && s'.store == (if s.daemon.cfg.useDb then s.store[key := e.payloadObj] else s.store)
  {
  }
}
