/**
  The payload store in PUSH mode. Messages travel as forwards on the clients' channels, and with the store
  only keys are forwarded. Runs of clients that send, post and read what has been forwarded to them give
  the same with and without the store; what a post without a receiver leaves behind is counted.
 */
module PushStore {
  import opened Messages
  import Buffers
  import opened Keys
  import opened Daemon
  import opened DaemonRuns
  import opened Clients
  import opened Bridge
  import opened Freshness

  /** The daemon, the store and the keys, as in PULL mode, and the forwards written but not yet read. */
  datatype PushSystem = PushSystem(bridge: System, underWay: seq<Wire>)

  datatype PushAction =
    | Sends(src: string, dest: string, payload: string, now: int)
    | Posts(via: string, src: string, dest: string, payload: string, now: int)
      // The client whose channel is descriptor `fd` reads its next message.
    | Reads(flavour: Flavour, og: Originator, id: string, fd: int)
      // Connections, INIT, PING, EXIT and unknown operations.
    | Others(input: Input)

  function PushStart(cfg: Config): PushSystem {
    PushSystem(StartSystem(cfg), [])
  }

  predicate Pushing(s: PushSystem) {
    s.bridge.daemon.cfg.systemMode.PUSH?
  }

  /** What a client ships: the message, the connector it uses, and the payload. */
  function Shipped(s: PushSystem, op: PushAction): (Nsbm, Connector)
    requires op.Sends? || op.Posts?
  {
    match op
    case Sends(src, dest, payload, now) =>
      var c := AppConnector(src);
      (SendRequest(ClientOf(s.bridge, Classic, APP_CLIENT, src), dest, payload, KeyFor(s.bridge, c, now)), c)
    case Posts(via, src, dest, payload, now) =>
      var c := SimConnector(via);
      (PostRequest(ClientOf(s.bridge, Classic, SIM_CLIENT, via), src, dest, payload, KeyFor(s.bridge, c, now)), c)
  }

  /** A SEND must find its simulator; the daemon does not check. Anything else can be done at any time. */
  predicate CanDo(s: PushSystem, op: PushAction) {
    match op
    case Sends(_, _, _, _) => CanHandle(s.bridge.daemon, Shipped(s, op).0)
    case Others(input) => LeavesBuffersAlone(input)
    case _ => true
  }

  /** The next forward on a descriptor, or the end. */
  function NextOn(fd: int, wires: seq<Wire>): (i: nat)
    ensures i <= |wires|
    ensures forall j :: 0 <= j < i ==> wires[j].fd != fd
    ensures i < |wires| ==> wires[i].fd == fd
  {
    if wires == [] || wires[0].fd == fd then 0 else 1 + NextOn(fd, wires[1..])
  }

  predicate Accepted(og: Originator, flavour: Flavour, m: Nsbm) {
    if og.SIM_CLIENT? then AcceptsFetched(flavour, m.manifest.op) else AcceptsReceived(flavour, m.manifest.op)
  }

  function AfterShip(s: PushSystem, op: PushAction): (r: PushSystem)
    requires Pushing(s) && CanDo(s, op) && (op.Sends? || op.Posts?)
    ensures r.bridge.daemon.cfg == s.bridge.daemon.cfg
  {
    var (m, c) := Shipped(s, op);
    var (daemon, wires) := Handle(s.bridge.daemon, FD, m);
    PushSystem(Parked(s.bridge, c, op.now, op.payload).(daemon := daemon), s.underWay + wires)
  }

  function AfterRead(s: PushSystem, flavour: Flavour, og: Originator, id: string, fd: int)
    : (r: (PushSystem, MessageEntry))
    ensures r.0.bridge.daemon == s.bridge.daemon
  {
    var i := NextOn(fd, s.underWay);
    if i == |s.underWay| then (s, BLANK_ENTRY)
    else
      var c, m := ClientOf(s.bridge, flavour, og, id), s.underWay[i].msg;
      var store := StoreAfterUnpack(c, Accepted(og, flavour, m), m, s.bridge.store);
      (PushSystem(s.bridge.(store := store), s.underWay[..i] + s.underWay[i + 1..]),
       Unpack(c, Accepted(og, flavour, m), m, s.bridge.store))
  }

  /** One operation: the next system, and what it returns to its caller. */
  function PushStep(s: PushSystem, op: PushAction): (r: (PushSystem, MessageEntry))
    requires Pushing(s) && CanDo(s, op)
    ensures r.0.bridge.daemon.cfg == s.bridge.daemon.cfg
  {
    match op
    case Sends(_, _, _, _) => (AfterShip(s, op), BLANK_ENTRY)
    case Posts(_, _, _, _, _) => (AfterShip(s, op), BLANK_ENTRY)
    case Reads(flavour, og, id, fd) => AfterRead(s, flavour, og, id, fd)
    case Others(input) => (s.(bridge := s.bridge.(daemon := Next(s.bridge.daemon, input))), BLANK_ENTRY)
  }

  // ---------------------------------------------------------------- which operations leave a payload behind

  /** A post finds its destination: an application registered under it, with a descriptor. */
  predicate FindsTarget(d: State, dest: string) {
    dest in d.apps && d.apps[dest].recvFd != -1
  }

  /** The operation stores a payload and forwards nothing. */
  predicate Leaks(s: PushSystem, op: PushAction) {
    match op
    case Sends(_, _, _, _) => s.bridge.daemon.cfg.simulatorMode.OtherSimulatorMode?
    case Posts(_, _, dest, _, _) => !FindsTarget(s.bridge.daemon, dest)
    case _ => false
  }

  // ---------------------------------------------------------------- one operation, with and without the store

  function KeyOf(w: Wire): string {
    w.msg.PayloadObj(true)
  }

  /** The forward of a message whose payload is in the store. */
  predicate CarriesKey(w: Wire) {
    w.msg.manifest.op.FORWARD? && w.msg.manifest.code.MESSAGE? && w.msg.body.MsgKey?
  }

  /** The same forward as it would be without the store. */
  function OpenedWire(store: Store, w: Wire): Wire {
    w.(msg := w.msg.(body := Payload(Lookup(store, KeyOf(w)))))
  }

  /** The keys under way are pairwise distinct, and each has its payload in the store. */
  ghost predicate NoneDangles(store: Store, wires: seq<Wire>) {
    && (forall i :: 0 <= i < |wires| ==> KeyOf(wires[i]) in store)
    && (forall i, j :: 0 <= i < j < |wires| ==> KeyOf(wires[i]) != KeyOf(wires[j]))
  }

  ghost predicate OpenedAlike(store: Store, plain: seq<Wire>, db: seq<Wire>) {
    && |plain| == |db|
    && forall i :: 0 <= i < |db| ==> CarriesKey(db[i]) && plain[i] == OpenedWire(store, db[i])
  }

  /** Two systems, one without and one with the store, that no client can tell apart. */
  ghost predicate PushMirrors(plain: PushSystem, db: PushSystem) {
    && Pushing(plain) && Pushing(db) && db.bridge.daemon.cfg.useDb
    && plain.bridge.daemon.cfg == db.bridge.daemon.cfg.(useDb := false)
    && SameTables(plain.bridge.daemon, db.bridge.daemon)
    && OpenedAlike(db.bridge.store, plain.underWay, db.underWay)
    && NoneDangles(db.bridge.store, db.underWay)
  }

  predicate PushFresh(s: PushSystem, op: PushAction) {
    op.Sends? || op.Posts? ==> KeyFor(s.bridge, Shipped(s, op).1, op.now) !in s.bridge.store
  }

  /** What shipping writes: nothing if the operation leaks, and otherwise one forward to the same descriptor. */
  lemma ShipWrites(plain: PushSystem, db: PushSystem, op: PushAction)
    requires PushMirrors(plain, db) && CanDo(db, op) && (op.Sends? || op.Posts?)
    ensures CanDo(plain, op)
    ensures var key := KeyFor(db.bridge, Shipped(db, op).1, op.now);
            var out1 := Handle(plain.bridge.daemon, FD, Shipped(plain, op).0).1;
            var out2 := Handle(db.bridge.daemon, FD, Shipped(db, op).0).1;
            && |out1| == |out2| == (if Leaks(db, op) then 0 else 1)
            && (!Leaks(db, op) ==>
                  CarriesKey(out2[0]) && KeyOf(out2[0]) == key
                  && out1[0] == out2[0].(msg := out2[0].msg.(body := Payload(op.payload))))
    ensures Handle(plain.bridge.daemon, FD, Shipped(plain, op).0).0 == plain.bridge.daemon
    ensures Handle(db.bridge.daemon, FD, Shipped(db, op).0).0 == db.bridge.daemon
  {
  }

  lemma ParkKeepsWires(store: Store, key: string, payload: string, plain: seq<Wire>, db: seq<Wire>)
    requires key !in store && OpenedAlike(store, plain, db) && NoneDangles(store, db)
    ensures OpenedAlike(store[key := payload], plain, db) && NoneDangles(store[key := payload], db)
    ensures forall i :: 0 <= i < |db| ==> KeyOf(db[i]) != key
  {
  }

  lemma AppendKeepsWires(store: Store, plain: seq<Wire>, db: seq<Wire>, w1: Wire, w2: Wire)
    requires OpenedAlike(store, plain, db) && NoneDangles(store, db)
    requires CarriesKey(w2) && w1 == OpenedWire(store, w2) && KeyOf(w2) in store
    requires forall i :: 0 <= i < |db| ==> KeyOf(db[i]) != KeyOf(w2)
    ensures OpenedAlike(store, plain + [w1], db + [w2]) && NoneDangles(store, db + [w2])
  {
  }

  lemma MirrorShip(plain: PushSystem, db: PushSystem, op: PushAction)
    requires PushMirrors(plain, db) && CanDo(db, op) && (op.Sends? || op.Posts?) && PushFresh(db, op)
    ensures CanDo(plain, op) && PushMirrors(AfterShip(plain, op), AfterShip(db, op))
    ensures var s' := AfterShip(db, op);
            && |s'.bridge.store| == |db.bridge.store| + 1
            && |s'.underWay| == |db.underWay| + (if Leaks(db, op) then 0 else 1)
  {
    var key := KeyFor(db.bridge, Shipped(db, op).1, op.now);
    var store := db.bridge.store[key := op.payload];
    ShipWrites(plain, db, op);
    ParkKeepsWires(db.bridge.store, key, op.payload, plain.underWay, db.underWay);
    if Leaks(db, op) {
      assert plain.underWay + [] == plain.underWay && db.underWay + [] == db.underWay;
    } else {
      var w1 := Handle(plain.bridge.daemon, FD, Shipped(plain, op).0).1[0];
      var w2 := Handle(db.bridge.daemon, FD, Shipped(db, op).0).1[0];
      AppendKeepsWires(store, plain.underWay, db.underWay, w1, w2);
    }
  }

  lemma {:induction false} NextAlike(store: Store, plain: seq<Wire>, db: seq<Wire>, fd: int)
    requires OpenedAlike(store, plain, db)
    ensures NextOn(fd, plain) == NextOn(fd, db)
  {
    if db != [] {
      assert plain[0] == OpenedWire(store, db[0]);
      assert forall i :: 0 <= i < |db| - 1 ==> db[1..][i] == db[i + 1] && plain[1..][i] == plain[i + 1];
      NextAlike(store, plain[1..], db[1..], fd);
    }
  }

  lemma ClaimKeepsWires(store: Store, plain: seq<Wire>, db: seq<Wire>, i: nat)
    requires OpenedAlike(store, plain, db) && NoneDangles(store, db) && i < |db|
    ensures var store' := store - {KeyOf(db[i])};
            && OpenedAlike(store', plain[..i] + plain[i + 1..], db[..i] + db[i + 1..])
            && NoneDangles(store', db[..i] + db[i + 1..])
            && |store'| == |store| - 1
  {
    var key := KeyOf(db[i]);
    var plain', db' := plain[..i] + plain[i + 1..], db[..i] + db[i + 1..];
    forall j | 0 <= j < |db'|
      ensures plain'[j] == OpenedWire(store - {key}, db'[j]) && CarriesKey(db'[j]) && KeyOf(db'[j]) in store - {key}
    {
      var k := if j < i then j else j + 1;
      assert db'[j] == db[k] && plain'[j] == plain[k];
    }
    assert (store - {key}).Keys == store.Keys - {key};
    assert |store| == |store.Keys| && |store - {key}| == |(store - {key}).Keys|;
  }

  lemma MirrorRead(plain: PushSystem, db: PushSystem, flavour: Flavour, og: Originator, id: string, fd: int)
    requires PushMirrors(plain, db)
    ensures var (s1, e1) := AfterRead(plain, flavour, og, id, fd);
            var (s2, e2) := AfterRead(db, flavour, og, id, fd);
            && PushMirrors(s1, s2) && e1 == e2
            && |s2.bridge.store| - |s2.underWay| == |db.bridge.store| - |db.underWay|
  {
    NextAlike(db.bridge.store, plain.underWay, db.underWay, fd);
    var i := NextOn(fd, db.underWay);
    if i < |db.underWay| {
      assert CarriesKey(db.underWay[i]) && plain.underWay[i] == OpenedWire(db.bridge.store, db.underWay[i]);
      ClaimKeepsWires(db.bridge.store, plain.underWay, db.underWay, i);
    }
  }

  /** One operation returns the same, and the stored payloads are those under way and those left behind. */
  lemma PushMirrorStep(plain: PushSystem, db: PushSystem, op: PushAction)
    requires PushMirrors(plain, db) && CanDo(db, op) && PushFresh(db, op)
    ensures CanDo(plain, op)
    ensures PushMirrors(PushStep(plain, op).0, PushStep(db, op).0)
    ensures PushStep(plain, op).1 == PushStep(db, op).1
    ensures var s' := PushStep(db, op).0;
            |s'.bridge.store| - |s'.underWay|
            == |db.bridge.store| - |db.underWay| + (if Leaks(db, op) then 1 else 0)
  {
    match op {
      case Sends(_, _, _, _) => MirrorShip(plain, db, op);
      case Posts(_, _, _, _, _) => MirrorShip(plain, db, op);
      case Reads(flavour, og, id, fd) => MirrorRead(plain, db, flavour, og, id, fd);
      case Others(input) =>
        BuffersStay(plain.bridge.daemon, input);
        BuffersStay(db.bridge.daemon, input);
        OtherIgnoresStore(plain.bridge.daemon, db.bridge.daemon, input);
    }
  }

  // ---------------------------------------------------------------- whole runs

  /** Every SEND of the run finds its simulator. */
  predicate PushRuns(s: PushSystem, ops: seq<PushAction>)
    requires Pushing(s)
    decreases |ops|
  {
    ops == [] || (CanDo(s, ops[0]) && PushRuns(PushStep(s, ops[0]).0, ops[1..]))
  }

  function PushFinal(s: PushSystem, ops: seq<PushAction>): PushSystem
    requires Pushing(s) && PushRuns(s, ops)
    decreases |ops|
  {
    if ops == [] then s else PushFinal(PushStep(s, ops[0]).0, ops[1..])
  }

  /** What the operations of a run return, in order. */
  function PushResults(s: PushSystem, ops: seq<PushAction>): seq<MessageEntry>
    requires Pushing(s) && PushRuns(s, ops)
    decreases |ops|
  {
    if ops == [] then [] else [PushStep(s, ops[0]).1] + PushResults(PushStep(s, ops[0]).0, ops[1..])
  }

  /** Every key the run stores under is unused at that moment. */
  predicate PushAllFresh(s: PushSystem, ops: seq<PushAction>)
    requires Pushing(s) && PushRuns(s, ops)
    decreases |ops|
  {
    ops == [] || (PushFresh(s, ops[0]) && PushAllFresh(PushStep(s, ops[0]).0, ops[1..]))
  }

  /** How many operations of a run leave their payload behind. */
  function LeakCount(s: PushSystem, ops: seq<PushAction>): nat
    requires Pushing(s) && PushRuns(s, ops)
    decreases |ops|
  {
    if ops == [] then 0
    else (if Leaks(s, ops[0]) then 1 else 0) + LeakCount(PushStep(s, ops[0]).0, ops[1..])
  }

  lemma {:induction false} PushRunMirrors(plain: PushSystem, db: PushSystem, ops: seq<PushAction>)
    requires PushMirrors(plain, db) && PushRuns(db, ops) && PushAllFresh(db, ops)
    ensures PushRuns(plain, ops) && PushResults(plain, ops) == PushResults(db, ops)
    ensures PushMirrors(PushFinal(plain, ops), PushFinal(db, ops))
    ensures var s' := PushFinal(db, ops);
            |s'.bridge.store| - |s'.underWay| == |db.bridge.store| - |db.underWay| + LeakCount(db, ops)
    decreases |ops|
  {
    if ops != [] {
      PushMirrorStep(plain, db, ops[0]);
      PushRunMirrors(PushStep(plain, ops[0]).0, PushStep(db, ops[0]).0, ops[1..]);
    }
  }

  // ---------------------------------------------------------------- order on every channel

  /** The descriptor that an operation's message is for, if anybody is to get it. */
  function TargetOf(s: PushSystem, op: PushAction): Option<int> {
    var d := s.bridge.daemon;
    match op
    case Sends(src, _, _, _) =>
      var simulator := if d.cfg.simulatorMode.SYSTEM_WIDE? then SIMULATOR else src;
      if !d.cfg.simulatorMode.OtherSimulatorMode? && simulator in d.sims then Some(d.sims[simulator].recvFd) else None
    case Posts(_, _, dest, _, _) =>
      if dest in d.apps && d.apps[dest].recvFd != -1 then Some(d.apps[dest].recvFd) else None
    case _ => None
  }

  /** The message of an operation, as its receiver is to get it. */
  function MessageOf(op: PushAction): MessageEntry
    requires op.Sends? || op.Posts?
  {
    MessageEntry(op.src, op.dest, op.payload, Int32(|op.payload|))
  }

  /** The messages that a run ships to descriptor `fd`. */
  function ShippedTo(fd: int, s: PushSystem, ops: seq<PushAction>): seq<MessageEntry>
    requires Pushing(s) && PushRuns(s, ops)
    decreases |ops|
  {
    if ops == [] then []
    else
      (if (ops[0].Sends? || ops[0].Posts?) && TargetOf(s, ops[0]) == Some(fd) then [MessageOf(ops[0])] else [])
      + ShippedTo(fd, PushStep(s, ops[0]).0, ops[1..])
  }

  /** What the reads of a run on descriptor `fd` return while there is something to read. */
  function ReadFrom(fd: int, s: PushSystem, ops: seq<PushAction>): seq<MessageEntry>
    requires Pushing(s) && PushRuns(s, ops)
    decreases |ops|
  {
    if ops == [] then []
    else
      (if ops[0].Reads? && ops[0].fd == fd && NextOn(fd, s.underWay) < |s.underWay|
       then [PushStep(s, ops[0]).1] else [])
      + ReadFrom(fd, PushStep(s, ops[0]).0, ops[1..])
  }

  /** The messages waiting on descriptor `fd`, without the store. */
  function WaitingOn(fd: int, wires: seq<Wire>): seq<MessageEntry> {
    if wires == [] then []
    else (if wires[0].fd == fd then [EntryOf(false, wires[0].msg)] else []) + WaitingOn(fd, wires[1..])
  }

  lemma {:induction false} WaitingConcat(fd: int, a: seq<Wire>, b: seq<Wire>)
    ensures WaitingOn(fd, a + b) == WaitingOn(fd, a) + WaitingOn(fd, b)
  {
    if a == [] {
      assert a + b == b;
    } else {
      assert (a + b)[1..] == a[1..] + b;
      WaitingConcat(fd, a[1..], b);
      var first := if a[0].fd == fd then [EntryOf(false, a[0].msg)] else [];
      Buffers.Associative(first, WaitingOn(fd, a[1..]), WaitingOn(fd, b));
    }
  }

  lemma {:induction false} NobodyWaits(fd: int, wires: seq<Wire>)
    requires forall i :: 0 <= i < |wires| ==> wires[i].fd != fd
    ensures WaitingOn(fd, wires) == []
  {
    if wires != [] {
      NobodyWaits(fd, wires[1..]);
    }
  }

  lemma WaitingOne(fd: int, w: Wire)
    ensures WaitingOn(fd, [w]) == if w.fd == fd then [EntryOf(false, w.msg)] else []
  {
    assert [w][1..] == [];
  }

  lemma WaitingAround(fd: int, a: seq<Wire>, w: Wire, b: seq<Wire>)
    ensures WaitingOn(fd, a + ([w] + b))
         == WaitingOn(fd, a) + ((if w.fd == fd then [EntryOf(false, w.msg)] else []) + WaitingOn(fd, b))
  {
    WaitingConcat(fd, a, [w] + b);
    WaitingConcat(fd, [w], b);
    WaitingOne(fd, w);
  }

  /** Taking a wire out: on its own descriptor it is the first one there, and the others do not notice. */
  lemma WaitingWithout(fd: int, wires: seq<Wire>, i: nat)
    requires i < |wires| && i == NextOn(wires[i].fd, wires)
    ensures WaitingOn(fd, wires)
         == (if wires[i].fd == fd then [EntryOf(false, wires[i].msg)] else [])
            + WaitingOn(fd, wires[..i] + wires[i + 1..])
  {
    var a, w, b := wires[..i], wires[i], wires[i + 1..];
    assert wires == a + ([w] + b);
    WaitingAround(fd, a, w, b);
    WaitingConcat(fd, a, b);
    var rest := WaitingOn(fd, b);
    if w.fd == fd {
      NobodyWaits(fd, a);
      assert [] + ([EntryOf(false, w.msg)] + rest) == [EntryOf(false, w.msg)] + rest;
      assert [] + rest == rest;
    } else {
      assert [] + rest == rest;
      assert [] + (WaitingOn(fd, a) + rest) == WaitingOn(fd, a) + rest;
    }
  }

  /** A forward as clients without the store put it under way. */
  predicate CarriesPayload(w: Wire) {
    w.msg.manifest.op.FORWARD? && w.msg.manifest.code.MESSAGE? && w.msg.body.Payload?
  }

  ghost predicate PlainPush(s: PushSystem) {
    && Pushing(s) && !s.bridge.daemon.cfg.useDb
    && forall i :: 0 <= i < |s.underWay| ==> CarriesPayload(s.underWay[i])
  }

  lemma PlainWrites(s: PushSystem, op: PushAction)
    requires PlainPush(s) && CanDo(s, op) && (op.Sends? || op.Posts?)
    ensures var out := Handle(s.bridge.daemon, FD, Shipped(s, op).0).1;
            match TargetOf(s, op)
            case None => out == []
            case Some(fd) =>
              && out == [out[0]] && out[0].fd == fd
              && CarriesPayload(out[0]) && EntryOf(false, out[0].msg) == MessageOf(op)
  {
  }

  lemma PlainShips(s: PushSystem, op: PushAction, fd: int)
    requires PlainPush(s) && CanDo(s, op) && (op.Sends? || op.Posts?)
    ensures PlainPush(AfterShip(s, op))
    ensures WaitingOn(fd, AfterShip(s, op).underWay)
         == WaitingOn(fd, s.underWay) + if TargetOf(s, op) == Some(fd) then [MessageOf(op)] else []
  {
    var out := Handle(s.bridge.daemon, FD, Shipped(s, op).0).1;
    PlainWrites(s, op);
    WaitingConcat(fd, s.underWay, out);
    if out != [] {
      WaitingOne(fd, out[0]);
    }
  }

  lemma PlainReads(s: PushSystem, flavour: Flavour, og: Originator, id: string, from: int, fd: int)
    requires PlainPush(s)
    ensures var (s', e) := AfterRead(s, flavour, og, id, from);
            && PlainPush(s')
            && WaitingOn(fd, s.underWay)
               == (if from == fd && NextOn(fd, s.underWay) < |s.underWay| then [e] else []) + WaitingOn(fd, s'.underWay)
  {
    var i := NextOn(from, s.underWay);
    if i < |s.underWay| {
      WaitingWithout(fd, s.underWay, i);
      assert CarriesPayload(s.underWay[i]);
    }
  }

  /**
    In PUSH mode every channel is first-in first-out: what is shipped to a descriptor is what is read from
    it, in order, and what still waits there.
   */
  lemma {:induction false} ShippedIsRead(fd: int, s: PushSystem, ops: seq<PushAction>)
    requires PlainPush(s) && PushRuns(s, ops)
    ensures WaitingOn(fd, s.underWay) + ShippedTo(fd, s, ops)
         == ReadFrom(fd, s, ops) + WaitingOn(fd, PushFinal(s, ops).underWay)
    decreases |ops|
  {
    if ops == [] {
      assert WaitingOn(fd, s.underWay) + [] == [] + WaitingOn(fd, s.underWay);
    } else {
      var op, next, rest := ops[0], PushStep(s, ops[0]).0, ops[1..];
      var later := ShippedTo(fd, next, rest);
      match op {
        case Reads(flavour, og, id, from) =>
          PlainReads(s, flavour, og, id, from, fd);
          ShippedIsRead(fd, next, rest);
          var read := if from == fd && NextOn(fd, s.underWay) < |s.underWay| then [PushStep(s, op).1] else [];
          Buffers.Associative(read, WaitingOn(fd, next.underWay), later);
          Buffers.Associative(read, ReadFrom(fd, next, rest), WaitingOn(fd, PushFinal(s, ops).underWay));
          assert [] + later == later;
        case Others(_) =>
          ShippedIsRead(fd, next, rest);
          assert [] + later == later && [] + ReadFrom(fd, next, rest) == ReadFrom(fd, next, rest);
        case _ =>
          PlainShips(s, op, fd);
          ShippedIsRead(fd, next, rest);
          var own := if TargetOf(s, op) == Some(fd) then [MessageOf(op)] else [];
          Buffers.Associative(WaitingOn(fd, s.underWay), own, later);
          assert [] + ReadFrom(fd, next, rest) == ReadFrom(fd, next, rest);
      }
    }
  }

  /** The same messages are shipped and read with the store. */
  lemma {:induction false} ChannelsMirror(fd: int, plain: PushSystem, db: PushSystem, ops: seq<PushAction>)
    requires PushMirrors(plain, db) && PushRuns(db, ops) && PushAllFresh(db, ops)
    ensures PushRuns(plain, ops)
    ensures ShippedTo(fd, plain, ops) == ShippedTo(fd, db, ops) && ReadFrom(fd, plain, ops) == ReadFrom(fd, db, ops)
    decreases |ops|
  {
    if ops != [] {
      PushMirrorStep(plain, db, ops[0]);
      NextAlike(db.bridge.store, plain.underWay, db.underWay, fd);
      ChannelsMirror(fd, PushStep(plain, ops[0]).0, PushStep(db, ops[0]).0, ops[1..]);
    }
  }

  /** So with the store, too, a client reads what was shipped to it, from the first message on, in order. */
  lemma ReadsFollowShipments(cfg: Config, ops: seq<PushAction>, fd: int)
    requires cfg.systemMode.PUSH? && PushRuns(PushStart(cfg), ops)
    requires cfg.useDb ==> PushAllFresh(PushStart(cfg), ops)
    ensures ReadFrom(fd, PushStart(cfg), ops) <= ShippedTo(fd, PushStart(cfg), ops)
  {
    var plain := PushStart(cfg.(useDb := false));
    if cfg.useDb {
      ChannelsMirror(fd, plain, PushStart(cfg), ops);
    } else {
      assert cfg.(useDb := false) == cfg;
    }
    ShippedIsRead(fd, plain, ops);
    assert [] + ShippedTo(fd, plain, ops) == ShippedTo(fd, plain, ops);
  }

  // ---------------------------------------------------------------- what is left behind

  /** The keys under way are pairwise distinct and are exactly the keys of the store. */
  ghost predicate PushSettled(s: PushSystem) {
    && NoneDangles(s.bridge.store, s.underWay)
    && forall k :: k in s.bridge.store ==> exists i :: 0 <= i < |s.underWay| && KeyOf(s.underWay[i]) == k
  }

  lemma {:induction false} DistinctKeysCount(wires: seq<Wire>) returns (keys: set<string>)
    requires forall i, j :: 0 <= i < j < |wires| ==> KeyOf(wires[i]) != KeyOf(wires[j])
    ensures |keys| == |wires|
    ensures forall k :: k in keys <==> exists i :: 0 <= i < |wires| && KeyOf(wires[i]) == k
  {
    if wires == [] {
      keys := {};
    } else {
      var last := |wires| - 1;
      var init := wires[..last];
      assert forall i :: 0 <= i < last ==> init[i] == wires[i];
      var others := DistinctKeysCount(init);
      keys := others + {KeyOf(wires[last])};
    }
  }

  lemma {:induction false} EqualIfAsMany<T>(a: set<T>, b: set<T>)
    requires a <= b && |a| == |b|
    ensures a == b
  {
    if x :| x in b && x !in a {
      SubsetIsSmaller(a, b - {x});
    }
  }

  lemma {:induction false} SubsetIsSmaller<T>(a: set<T>, b: set<T>)
    requires a <= b
    ensures |a| <= |b|
    decreases |a|
  {
    if x :| x in a {
      SubsetIsSmaller(a - {x}, b - {x});
    }
  }

  /** When nothing dangles, nothing is left behind exactly when there are as many payloads as forwards. */
  lemma SettledWhenAsMany(s: PushSystem)
    requires NoneDangles(s.bridge.store, s.underWay)
    ensures PushSettled(s) <==> |s.bridge.store| == |s.underWay|
  {
    var keys := DistinctKeysCount(s.underWay);
    var stored := s.bridge.store.Keys;
    assert |stored| == |s.bridge.store|;
    assert keys <= stored;
    if |stored| == |s.underWay| {
      EqualIfAsMany(keys, stored);
      assert forall k :: k in s.bridge.store ==> k in keys;
    }
    if PushSettled(s) {
      assert forall k :: k in stored ==> k in keys;
      assert stored == keys;
    }
  }

  /**
    The store is transparent in PUSH mode, for all identifiers and payloads, empty ones included: with fresh
    keys every operation of a run returns the same as in the run without the store; no key under way lacks
    its payload; and the payloads in the store are those under way and one for each operation that leaks.
   */
  lemma PushStoreIsTransparent(cfg: Config, ops: seq<PushAction>)
    requires cfg.systemMode.PUSH? && cfg.useDb
    requires PushRuns(PushStart(cfg), ops) && PushAllFresh(PushStart(cfg), ops)
    ensures PushRuns(PushStart(cfg.(useDb := false)), ops)
    ensures PushResults(PushStart(cfg), ops) == PushResults(PushStart(cfg.(useDb := false)), ops)
    ensures var s := PushFinal(PushStart(cfg), ops);
            && NoneDangles(s.bridge.store, s.underWay)
            && |s.bridge.store| == |s.underWay| + LeakCount(PushStart(cfg), ops)
            && (PushSettled(s) <==> LeakCount(PushStart(cfg), ops) == 0)
  {
    PushRunMirrors(PushStart(cfg.(useDb := false)), PushStart(cfg), ops);
    SettledWhenAsMany(PushFinal(PushStart(cfg), ops));
  }

  /**
    Precisely when a post leaves its payload behind, wherever nothing had been left before: when no
    application with a descriptor is registered under its destination.
   */
  lemma PostLeaksWhen(s: PushSystem, via: string, src: string, dest: string, payload: string, now: int)
    requires Pushing(s) && s.bridge.daemon.cfg.useDb && PushSettled(s)
    requires forall i :: 0 <= i < |s.underWay| ==> CarriesKey(s.underWay[i])
    requires PushFresh(s, Posts(via, src, dest, payload, now))
    ensures PushSettled(PushStep(s, Posts(via, src, dest, payload, now)).0) <==> FindsTarget(s.bridge.daemon, dest)
  {
    var op, s' := Posts(via, src, dest, payload, now), PushStep(s, Posts(via, src, dest, payload, now)).0;
    var d := s.bridge.daemon;
    var plain := PushSystem(
      s.bridge.(daemon := d.(cfg := d.cfg.(useDb := false))),
      seq(|s.underWay|, i requires 0 <= i < |s.underWay| => OpenedWire(s.bridge.store, s.underWay[i])));
    MirrorShip(plain, s, op);
    SettledWhenAsMany(s);
    SettledWhenAsMany(s');
  }

  /** An input that shows it: the first post of a run, before any application has registered. */
  lemma PostToNobodyLeaks(cfg: Config, via: string, src: string, dest: string, payload: string, now: int)
    requires cfg.systemMode.PUSH? && cfg.useDb
    ensures var s := PushStep(PushStart(cfg), Posts(via, src, dest, payload, now)).0;
            s.underWay == [] && s.bridge.store == map[Key(now, via, 1) := payload] && !PushSettled(s)
  {
    var s := PushStep(PushStart(cfg), Posts(via, src, dest, payload, now)).0;
    assert Key(now, via, 1) in s.bridge.store;
  }

  // ---------------------------------------------------------------- fresh keys in PUSH mode

  function PushStoring(s: PushSystem, op: PushAction): Option<Connector> {
    if s.bridge.daemon.cfg.useDb && (op.Sends? || op.Posts?) then Some(Shipped(s, op).1) else None
  }

  function PushMakingOf(op: PushAction): Making {
    match op
    case Sends(src, _, _, now) => Making(Some(AppConnector(src)), now)
    case Posts(via, _, _, _, now) => Making(Some(SimConnector(via)), now)
    case _ => Making(None, 0)
  }

  function PushMakings(ops: seq<PushAction>): seq<Making> {
    seq(|ops|, i requires 0 <= i < |ops| => PushMakingOf(ops[i]))
  }

  lemma KeysAfterPushStep(s: PushSystem, op: PushAction)
    requires Pushing(s) && CanDo(s, op)
    ensures KeysMove(s.bridge, PushStep(s, op).0.bridge, PushStoring(s, op), PushMakingOf(op).clock)
  {
  }

  /** Every live key of the connector's identifier, left behind or under way, has another clock or counter. */
  ghost predicate PushSafe(s: PushSystem, op: PushAction) {
    PushStoring(s, op).Some? ==> Apart(s.bridge, PushStoring(s, op).value, PushMakingOf(op).clock)
  }

  ghost predicate PushAllSafe(s: PushSystem, ops: seq<PushAction>)
    requires Pushing(s) && PushRuns(s, ops)
    decreases |ops|
  {
    ops == [] || (PushSafe(s, ops[0]) && PushAllSafe(PushStep(s, ops[0]).0, ops[1..]))
  }

  /** A run overwrites no stored payload if and only if it is safe. */
  lemma {:induction false} PushSafeRunsAreFresh(s: PushSystem, ops: seq<PushAction>)
    requires Pushing(s) && s.bridge.daemon.cfg.useDb && PushRuns(s, ops) && Ancestry(s.bridge)
    ensures PushAllSafe(s, ops) <==> PushAllFresh(s, ops)
    decreases |ops|
  {
    if ops != [] {
      var op, s' := ops[0], PushStep(s, ops[0]).0;
      if PushStoring(s, op).Some? {
        ApartWhen(s.bridge, PushStoring(s, op).value, PushMakingOf(op).clock);
      }
      KeysAfterPushStep(s, op);
      AncestryMoves(s.bridge, s'.bridge, PushStoring(s, op), PushMakingOf(op).clock);
      PushSafeRunsAreFresh(s', ops[1..]);
    }
  }

  lemma {:induction false} PushKeptApartFrom(s: PushSystem, past: seq<Making>, ops: seq<PushAction>)
    requires Pushing(s) && PushRuns(s, ops)
    requires Ancestry(s.bridge) && Recorded(s.bridge, past) && KeptApart(past + PushMakings(ops))
    ensures PushAllSafe(s, ops)
    decreases |ops|
  {
    if ops != [] {
      var op, rest, s' := ops[0], ops[1..], PushStep(s, ops[0]).0;
      var made := PushMakingOf(op);
      assert PushMakings(ops) == [made] + PushMakings(rest);
      KeptApartSplit(past, made, PushMakings(rest));
      if PushStoring(s, op).Some? {
        KeptApartIsApart(s.bridge, past, PushStoring(s, op).value, made.clock);
      }
      KeysAfterPushStep(s, op);
      AncestryMoves(s.bridge, s'.bridge, PushStoring(s, op), made.clock);
      RecordedMoves(s.bridge, s'.bridge, past, PushStoring(s, op), made);
      PushKeptApartFrom(s', past + [made], rest);
    }
  }

  /** So, when the operations are kept apart: the same results, nothing dangling, and only leaks left behind. */
  lemma PushKeptApartRunsAreTransparent(cfg: Config, ops: seq<PushAction>)
    requires cfg.systemMode.PUSH? && cfg.useDb
    requires PushRuns(PushStart(cfg), ops) && KeptApart(PushMakings(ops))
    ensures PushRuns(PushStart(cfg.(useDb := false)), ops)
    ensures PushResults(PushStart(cfg), ops) == PushResults(PushStart(cfg.(useDb := false)), ops)
    ensures var s := PushFinal(PushStart(cfg), ops);
            && NoneDangles(s.bridge.store, s.underWay)
            && (PushSettled(s) <==> LeakCount(PushStart(cfg), ops) == 0)
  {
    assert [] + PushMakings(ops) == PushMakings(ops);
    PushKeptApartFrom(PushStart(cfg), [], ops);
    PushSafeRunsAreFresh(PushStart(cfg), ops);
    PushStoreIsTransparent(cfg, ops);
  }
}
