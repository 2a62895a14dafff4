/**
  The whole bridge in PULL mode: applications and simulators working through one daemon, with or
  without the payload store. An action is one client operation, request and reply together.
 */
module Bridge {
  import opened Messages
  import opened Buffers
  import opened Keys
  import opened Daemon
  import opened DaemonRuns
  import opened Clients

  /** A client's connector to the store. The two clients of one node may share an identifier. */
  datatype Connector = Connector(og: Originator, id: string)

  /** When and where a key was generated; the connector's counter was `generation` modulo 2^20. */
  datatype Birth = Birth(connector: Connector, generation: nat, clock: int)

  /**
    The daemon and the store, what is under way in the simulated network, and the histories: keys
    generated per connector, birth of each key, messages sent and received by applications.
   */
  datatype System = System(
    daemon: State,
    store: Store,
    generations: map<Connector, nat>,
    births: map<string, Birth>,
    hands: seq<MessageEntry>,
    sent: seq<MessageEntry>,
    received: seq<MessageEntry>)

  datatype Action =
    | Send(src: string, dest: string, payload: string, now: int)
    | Fetch(flavour: Flavour, simulator: string, source: Option<string>)
      // The simulated network delivers the next message it holds of one pair, through simulator `via`.
    | Post(via: string, src: string, dest: string, now: int)
    | Receive(flavour: Flavour, application: string, destination: Option<string>)
      // Connections, INIT, PING, EXIT and unknown operations.
    | Other(input: Input)

  predicate LeavesBuffersAlone(i: Input) {
    i.Incoming? ==>
      var op := i.msg.manifest.op; !op.SEND? && !op.FETCH? && !op.POST? && !op.RECEIVE?
  }

  /** What the applications must do for messages to be deliverable at all. */
  predicate WellFormed(a: Action) {
    match a
    case Send(src, dest, payload, _) => src != "" && dest != "" && payload != ""
    case Other(input) => LeavesBuffersAlone(input)
    case _ => true
  }

  function StartSystem(cfg: Config): System {
    System(StartState(cfg), map[], map[], map[], [], [], [])
  }

  function Generations(s: System, c: Connector): nat {
    if c in s.generations then s.generations[c] else 0
  }

  /** The key the connector generates next at this clock reading. */
  function KeyFor(s: System, c: Connector, now: int): string {
    Key(now, c.id, (Generations(s, c) + 1) % COUNTER_LIMIT)
  }

  function Parked(s: System, c: Connector, now: int, payload: string): System {
    if s.daemon.cfg.useDb then
      var g, key := Generations(s, c) + 1, KeyFor(s, c, now);
      s.(store := s.store[key := payload],
         generations := s.generations[c := g],
         births := s.births[key := Birth(c, g, now)])
    else s
  }

  /** The descriptor only says where the reply goes, so any number will do. */
  const FD := 0

  function ClientOf(s: System, flavour: Flavour, og: Originator, id: string): Client {
    Client(flavour, og, id, s.daemon.cfg)
  }

  /** The entries worth keeping of a result: one that exists, or none. */
  function Kept(e: MessageEntry): seq<MessageEntry> {
    if e.Exists() then [e] else []
  }

  function AppConnector(id: string): Connector { Connector(APP_CLIENT, id) }
  function SimConnector(id: string): Connector { Connector(SIM_CLIENT, id) }

  function AfterSendAction(s: System, src: string, dest: string, payload: string, now: int): (r: System)
    requires s.daemon.cfg.systemMode.PULL?
    ensures r.daemon.cfg == s.daemon.cfg
  {
    var m := SendRequest(ClientOf(s, Classic, APP_CLIENT, src), dest, payload, KeyFor(s, AppConnector(src), now));
    Parked(s, AppConnector(src), now, payload).(
      daemon := Handle(s.daemon, FD, m).0,
      sent := s.sent + [MessageEntry(src, dest, payload, Int32(|payload|))])
  }

  function AfterFetchAction(s: System, flavour: Flavour, simulator: string, source: Option<string>)
    : (r: (System, MessageEntry))
    ensures r.0.daemon.cfg == s.daemon.cfg
  {
    var c := ClientOf(s, flavour, SIM_CLIENT, simulator);
    var (daemon, reply) := Poll(s.daemon, FD, FetchRequest(c, source));
    var accepted := AcceptsFetched(flavour, reply.manifest.op);
    var e := Unpack(c, accepted, reply, s.store);
    (s.(daemon := daemon, store := StoreAfterUnpack(c, accepted, reply, s.store), hands := s.hands + Kept(e)), e)
  }

  function AfterPostAction(s: System, via: string, src: string, dest: string, now: int): (r: System)
    ensures r.daemon.cfg == s.daemon.cfg
  {
    var next := Answer(Between(src, dest), s.hands);
    if next.None? then s
    else
      var e := next.value;
      var m := PostRequest(ClientOf(s, Classic, SIM_CLIENT, via), e.source, e.destination, e.payloadObj,
                           KeyFor(s, SimConnector(via), now));
      Parked(s, SimConnector(via), now, e.payloadObj).(
        daemon := Handle(s.daemon, FD, m).0,
        hands := Rest(Between(src, dest), s.hands))
  }

  function AfterReceiveAction(s: System, flavour: Flavour, app: string, dest: Option<string>)
    : (r: (System, MessageEntry))
    ensures r.0.daemon.cfg == s.daemon.cfg
  {
    var c := ClientOf(s, flavour, APP_CLIENT, app);
    var (daemon, reply) := Poll(s.daemon, FD, ReceiveRequest(c, dest));
    var accepted := AcceptsReceived(flavour, reply.manifest.op);
    var e := Unpack(c, accepted, reply, s.store);
    (s.(daemon := daemon, store := StoreAfterUnpack(c, accepted, reply, s.store), received := s.received + Kept(e)), e)
  }

  /** One action: the next system, and what the operation returns to its caller. */
  function Step(s: System, a: Action): (r: (System, MessageEntry))
    requires s.daemon.cfg.systemMode.PULL? && WellFormed(a)
    ensures r.0.daemon.cfg == s.daemon.cfg
  {
    match a
    case Send(src, dest, payload, now) => (AfterSendAction(s, src, dest, payload, now), BLANK_ENTRY)
    case Fetch(flavour, simulator, source) => AfterFetchAction(s, flavour, simulator, source)
    case Post(via, src, dest, now) => (AfterPostAction(s, via, src, dest, now), BLANK_ENTRY)
    case Receive(flavour, app, dest) => AfterReceiveAction(s, flavour, app, dest)
    case Other(input) => (s.(daemon := Next(s.daemon, input)), BLANK_ENTRY)
  }

  ghost predicate AllWellFormed(actions: seq<Action>) {
    forall a :: a in actions ==> WellFormed(a)
  }

  // ---------------------------------------------------------------- without the store

  /** An entry as a client reads it: complete, and with the size its payload had. */
  predicate Faithful(e: MessageEntry) {
    e.Exists() && e.payloadSize == Int32(|e.payloadObj|)
  }

  ghost predicate AllFaithful(buf: seq<MessageEntry>) {
    forall e :: e in buf ==> Faithful(e)
  }

  /** A system without the store all of whose messages are complete. */
  ghost predicate Plain(s: System) {
    && s.daemon.cfg.systemMode.PULL? && !s.daemon.cfg.useDb
    && AllFaithful(s.daemon.tx) && AllFaithful(s.daemon.rx) && AllFaithful(s.hands)
  }

  /** Everything sent is received, waiting to be received, in the network, or waiting to be fetched, in order. */
  ghost predicate Accounted(s: System, p: Query) {
    Restrict(p, s.sent) == Restrict(p, s.received)
                           + (Restrict(p, s.daemon.rx) + (Restrict(p, s.hands) + Restrict(p, s.daemon.tx)))
  }

  lemma {:induction false} TakenWasThere(q: Query, buf: seq<MessageEntry>)
    ensures Answer(q, buf).Some? ==> Answer(q, buf).value in buf && q.Matches(Answer(q, buf).value)
    ensures forall e :: e in Rest(q, buf) ==> e in buf
  {
    if buf != [] {
      TakenWasThere(q, buf[1..]);
    }
  }

  lemma PlainSend(s: System, src: string, dest: string, payload: string, now: int)
    requires Plain(s) && src != "" && dest != "" && payload != ""
    ensures var e := MessageEntry(src, dest, payload, Int32(|payload|));
            var s' := AfterSendAction(s, src, dest, payload, now);
            s' == s.(daemon := s.daemon.(tx := s.daemon.tx + [e]), sent := s.sent + [e]) && Plain(s')
  {
  }

  lemma PlainPost(s: System, via: string, src: string, dest: string, now: int)
    requires Plain(s)
    ensures var r, s' := Answer(Between(src, dest), s.hands), AfterPostAction(s, via, src, dest, now);
            && (r.None? ==> s' == s)
            && (r.Some? ==> s' == s.(daemon := s.daemon.(rx := s.daemon.rx + [r.value]),
                                     hands := Rest(Between(src, dest), s.hands)))
            && Plain(s')
  {
    TakenWasThere(Between(src, dest), s.hands);
  }

  /** A fetch, seen from outside: nothing happens, or the answer to a query moves into the network. */
  lemma PlainFetch(s: System, flavour: Flavour, simulator: string, source: Option<string>)
    requires Plain(s)
    ensures var op := FetchOp(FetchRequest(ClientOf(s, flavour, SIM_CLIENT, simulator), source));
            var (s', e) := AfterFetchAction(s, flavour, simulator, source);
            && s' == s.(daemon := s.daemon.(tx := Result(op, s.daemon.tx)), hands := s.hands + Leaving(op, s.daemon.tx))
            && e == Taken(op, s.daemon.tx).GetOr(BLANK_ENTRY)
            && Plain(s')
  {
    var op := FetchOp(FetchRequest(ClientOf(s, flavour, SIM_CLIENT, simulator), source));
    if op.Remove? {
      TakenWasThere(op.query, s.daemon.tx);
    }
  }

  lemma PlainReceive(s: System, flavour: Flavour, app: string, dest: Option<string>)
    requires Plain(s)
    ensures var op := ReceiveOp(ReceiveRequest(ClientOf(s, flavour, APP_CLIENT, app), dest));
            var (s', e) := AfterReceiveAction(s, flavour, app, dest);
            && s' == s.(daemon := s.daemon.(rx := Result(op, s.daemon.rx)),
                        received := s.received + Leaving(op, s.daemon.rx))
            && e == Taken(op, s.daemon.rx).GetOr(BLANK_ENTRY)
            && Plain(s')
  {
    var op := ReceiveOp(ReceiveRequest(ClientOf(s, flavour, APP_CLIENT, app), dest));
    if op.Remove? {
      TakenWasThere(op.query, s.daemon.rx);
    }
  }

  lemma BuffersStay(d: State, input: Input)
    requires LeavesBuffersAlone(input)
    ensures Next(d, input).tx == d.tx && Next(d, input).rx == d.rx && Next(d, input).cfg == d.cfg
  {
  }

  /** Taking from one queue and appending to the next keeps the account. */
  lemma MoveAccounts(p: Query, op: BufferOp, from: seq<MessageEntry>, to: seq<MessageEntry>)
    requires !op.Append? && (op.Remove? ==> op.query.Respects(p))
    ensures Restrict(p, to) + Restrict(p, from)
         == Restrict(p, to + Leaving(op, from)) + Restrict(p, Result(op, from))
  {
    OpConserves(p, op, from);
    RestrictConcat(p, to, Leaving(op, from));
    assert Restrict(p, from) + Restrict(p, Entering(op)) == Restrict(p, from);
    Associative(Restrict(p, to), Restrict(p, Leaving(op, from)), Restrict(p, Result(op, from)));
  }

  lemma AppendInside<T>(a: seq<T>, b: seq<T>, c: seq<T>, d: seq<T>, e: seq<T>)
    ensures (a + (b + (c + d))) + e == a + (b + (c + (d + e)))
  {
    Associative(a, b + (c + d), e);
    Associative(b, c + d, e);
    Associative(c, d, e);
  }

  lemma SendAccounts(s: System, s': System, p: Query, e: MessageEntry)
    requires s' == s.(daemon := s.daemon.(tx := s.daemon.tx + [e]), sent := s.sent + [e]) && Accounted(s, p)
    ensures Accounted(s', p)
  {
    RestrictConcat(p, s.daemon.tx, [e]);
    RestrictConcat(p, s.sent, [e]);
    var t, h, r, d := Restrict(p, s.daemon.tx), Restrict(p, s.hands), Restrict(p, s.daemon.rx), Restrict(p, s.received);
    AppendInside(d, r, h, t, Restrict(p, [e]));
  }

  lemma PostAccounts(s: System, s': System, p: Query, op: BufferOp)
    requires op.Remove? && op.query.Respects(p) && Accounted(s, p)
    requires s' == s.(daemon := s.daemon.(rx := s.daemon.rx + Leaving(op, s.hands)), hands := Result(op, s.hands))
    ensures Accounted(s', p)
  {
    MoveAccounts(p, op, s.hands, s.daemon.rx);
    var t, h, r := Restrict(p, s.daemon.tx), Restrict(p, s.hands), Restrict(p, s.daemon.rx);
    var h', r' := Restrict(p, s'.hands), Restrict(p, s'.daemon.rx);
    Associative(r, h, t);
    Associative(r', h', t);
  }

  lemma ReceiveAccounts(s: System, s': System, p: Query, op: BufferOp)
    requires !op.Append? && (op.Remove? ==> op.query.Respects(p)) && Accounted(s, p)
    requires s' == s.(daemon := s.daemon.(rx := Result(op, s.daemon.rx)),
                      received := s.received + Leaving(op, s.daemon.rx))
    ensures Accounted(s', p)
  {
    MoveAccounts(p, op, s.daemon.rx, s.received);
    var rest := Restrict(p, s.hands) + Restrict(p, s.daemon.tx);
    var r, d := Restrict(p, s.daemon.rx), Restrict(p, s.received);
    var r', d' := Restrict(p, s'.daemon.rx), Restrict(p, s'.received);
    Associative(d, r, rest);
    Associative(d', r', rest);
  }

  lemma PlainStepAccounts(s: System, a: Action, src: string, dest: string)
    requires Plain(s) && WellFormed(a) && Accounted(s, Between(src, dest))
    ensures Plain(Step(s, a).0) && Accounted(Step(s, a).0, Between(src, dest))
  {
    var p, s' := Between(src, dest), Step(s, a).0;
    match a {
      case Send(src', dest', payload, now) =>
        PlainSend(s, src', dest', payload, now);
        SendAccounts(s, s', p, MessageEntry(src', dest', payload, Int32(|payload|)));
      case Fetch(flavour, simulator, source) =>
        PlainFetch(s, flavour, simulator, source);
        var op := FetchOp(FetchRequest(ClientOf(s, flavour, SIM_CLIENT, simulator), source));
        MoveAccounts(p, op, s.daemon.tx, s.hands);
      case Post(via, src', dest', now) =>
        PlainPost(s, via, src', dest', now);
        if Answer(Between(src', dest'), s.hands).Some? {
          PostAccounts(s, s', p, Remove(Between(src', dest')));
        }
      case Receive(flavour, app, dest') =>
        PlainReceive(s, flavour, app, dest');
        ReceiveAccounts(s, s', p, ReceiveOp(ReceiveRequest(ClientOf(s, flavour, APP_CLIENT, app), dest')));
      case Other(input) => BuffersStay(s.daemon, input);
    }
  }

  // ---------------------------------------------------------------- with the store

  /** The buffer with every key replaced by the payload it stands for. */
  function Opened(store: Store, buf: seq<MessageEntry>): seq<MessageEntry> {
    if buf == [] then []
    else [buf[0].(payloadObj := Lookup(store, buf[0].payloadObj))] + Opened(store, buf[1..])
  }

  /** The account with the store: payloads waiting in the buffers are read through it. */
  ghost predicate AccountedOpened(s: System, p: Query) {
    Restrict(p, s.sent) == Restrict(p, s.received)
                           + (Restrict(p, Opened(s.store, s.daemon.rx))
                              + (Restrict(p, s.hands) + Restrict(p, Opened(s.store, s.daemon.tx))))
  }

  function KeyBag(buf: seq<MessageEntry>): multiset<string> {
    if buf == [] then multiset{} else multiset{buf[0].payloadObj} + KeyBag(buf[1..])
  }

  /**
    No dangling and no leaked payload: the keys in the two buffers are pairwise distinct and are
    exactly the keys of the store.
   */
  ghost predicate Settled(s: System) {
    Matched(s.store, s.daemon.tx, s.daemon.rx)
  }

  ghost predicate Matched(store: Store, tx: seq<MessageEntry>, rx: seq<MessageEntry>) {
    KeyBag(tx) + KeyBag(rx) == multiset(store.Keys)
  }

  lemma {:induction false} OpenedConcat(store: Store, a: seq<MessageEntry>, b: seq<MessageEntry>)
    ensures Opened(store, a + b) == Opened(store, a) + Opened(store, b)
  {
    if a == [] {
      assert a + b == b;
    } else {
      assert (a + b)[1..] == a[1..] + b;
      OpenedConcat(store, a[1..], b);
    }
  }

  lemma {:induction false} KeyBagConcat(a: seq<MessageEntry>, b: seq<MessageEntry>)
    ensures KeyBag(a + b) == KeyBag(a) + KeyBag(b)
  {
    if a == [] {
      assert a + b == b;
    } else {
      assert (a + b)[1..] == a[1..] + b;
      KeyBagConcat(a[1..], b);
    }
  }

  lemma {:induction false} OpenedFrame(s1: Store, s2: Store, buf: seq<MessageEntry>)
    requires forall k :: k in KeyBag(buf) ==> Lookup(s1, k) == Lookup(s2, k)
    ensures Opened(s1, buf) == Opened(s2, buf)
  {
    if buf != [] {
      assert buf[0].payloadObj in KeyBag(buf);
      assert forall k :: k in KeyBag(buf[1..]) ==> k in KeyBag(buf);
      OpenedFrame(s1, s2, buf[1..]);
    }
  }

  /** Requests look at identifiers only, so taking and opening commute. */
  lemma {:induction false} TakeOpened(store: Store, q: Query, buf: seq<MessageEntry>)
    ensures Answer(q, Opened(store, buf)).Some? <==> Answer(q, buf).Some?
    ensures Answer(q, buf).Some? ==>
              Answer(q, Opened(store, buf)).value
              == Answer(q, buf).value.(payloadObj := Lookup(store, Answer(q, buf).value.payloadObj))
    ensures Rest(q, Opened(store, buf)) == Opened(store, Rest(q, buf))
  {
    if buf != [] {
      TakeOpened(store, q, buf[1..]);
    }
  }

  lemma Cancel<T>(a: multiset<T>, b: multiset<T>, c: multiset<T>)
    requires a + b == a + c
    ensures b == c
  {
    forall x: T
      ensures b[x] == c[x]
    {
      assert (a + b)[x] == (a + c)[x];
    }
  }

  lemma SwapFirst<T>(a: multiset<T>, b: multiset<T>, c: multiset<T>)
    ensures a + (b + c) == b + (a + c)
  {
  }

  lemma {:induction false} KeyBagRest(q: Query, buf: seq<MessageEntry>)
    ensures Answer(q, buf).Some? ==> KeyBag(buf) == multiset{Answer(q, buf).value.payloadObj} + KeyBag(Rest(q, buf))
  {
    if buf != [] && !q.Matches(buf[0]) && Answer(q, buf).Some? {
      var h, rest := buf[0], Rest(q, buf[1..]);
      KeyBagRest(q, buf[1..]);
      SwapFirst(multiset{h.payloadObj}, multiset{Answer(q, buf).value.payloadObj}, KeyBag(rest));
      assert Rest(q, buf)[0] == h && Rest(q, buf)[1..] == rest;
    }
  }

  lemma {:induction false} OpenedEntry(store: Store, buf: seq<MessageEntry>, e: MessageEntry)
    requires e in buf
    ensures e.(payloadObj := Lookup(store, e.payloadObj)) in Opened(store, buf)
    ensures e.payloadObj in KeyBag(buf)
  {
    if e != buf[0] {
      OpenedEntry(store, buf[1..], e);
    }
  }

  /** Two systems, one without and one with the store, that no client can tell apart. */
  ghost predicate Mirrors(plain: System, db: System) {
    && Plain(plain) && db.daemon.cfg.useDb
    && plain.daemon == db.daemon.(
         cfg := db.daemon.cfg.(useDb := false),
         tx := Opened(db.store, db.daemon.tx),
         rx := Opened(db.store, db.daemon.rx))
    && plain.hands == db.hands && plain.sent == db.sent && plain.received == db.received
    && Settled(db) && "" !in db.store
  }

  /** The key that an action is about to store under is not in use. */
  predicate Fresh(s: System, a: Action) {
    match a
    case Send(src, _, _, now) => KeyFor(s, AppConnector(src), now) !in s.store
    case Post(via, src, dest, now) =>
      Answer(Between(src, dest), s.hands).Some? ==> KeyFor(s, SimConnector(via), now) !in s.store
    case _ => true
  }

  lemma KeyIsNotEmpty(clock: int, id: string, counter: nat)
    ensures Key(clock, id, counter) != ""
  {
  }

  lemma FreshKeyKeepsOpened(store: Store, key: string, payload: string, buf: seq<MessageEntry>)
    requires key !in store && forall k :: k in KeyBag(buf) ==> k in store
    ensures Opened(store[key := payload], buf) == Opened(store, buf)
  {
    OpenedFrame(store, store[key := payload], buf);
  }

  lemma MatchedKeysAreStored(store: Store, tx: seq<MessageEntry>, rx: seq<MessageEntry>)
    requires Matched(store, tx, rx)
    ensures forall k :: k in KeyBag(tx) || k in KeyBag(rx) ==> k in store
  {
    forall k | k in KeyBag(tx) || k in KeyBag(rx)
      ensures k in store
    {
      assert k in multiset(store.Keys);
    }
  }

  /** Storing under a fresh key and buffering that key. */
  lemma ParkKeepsMirror(
    store: Store, key: string, payload: string, grown: seq<MessageEntry>, other: seq<MessageEntry>, e: MessageEntry)
    requires key !in store && e.payloadObj == key
    requires Matched(store, grown, other)
    ensures var store' := store[key := payload];
            && Opened(store', grown + [e]) == Opened(store, grown) + [e.(payloadObj := payload)]
            && Opened(store', other) == Opened(store, other)
            && Matched(store', grown + [e], other)
  {
    var store' := store[key := payload];
    MatchedKeysAreStored(store, grown, other);
    FreshKeyKeepsOpened(store, key, payload, grown);
    FreshKeyKeepsOpened(store, key, payload, other);
    OpenedConcat(store', grown, [e]);
    assert Opened(store', [e]) == [e.(payloadObj := payload)] by { assert [e][1..] == []; }
    ParkKeepsKeys(store, key, payload, grown, other, e);
  }

  lemma MatchedIsSymmetric(store: Store, tx: seq<MessageEntry>, rx: seq<MessageEntry>)
    ensures Matched(store, tx, rx) <==> Matched(store, rx, tx)
  {
  }

  lemma ParkKeepsKeys(
    store: Store, key: string, payload: string, grown: seq<MessageEntry>, other: seq<MessageEntry>, e: MessageEntry)
    requires key !in store && e.payloadObj == key
    requires KeyBag(grown) + KeyBag(other) == multiset(store.Keys)
    ensures KeyBag(grown + [e]) + KeyBag(other) == multiset(store[key := payload].Keys)
  {
    KeyBagConcat(grown, [e]);
    assert [e][1..] == [] && KeyBag([e]) == multiset{key};
    KeysGrow(store, key, payload);
    SwapFirst(multiset{key}, KeyBag(grown), KeyBag(other));
  }

  lemma KeysGrow(store: Store, key: string, payload: string)
    requires key !in store
    ensures multiset(store[key := payload].Keys) == multiset{key} + multiset(store.Keys)
  {
    assert store[key := payload].Keys == store.Keys + {key};
  }

  /** Taking a buffered key out of its buffer and out of the store. */
  lemma ClaimKeepsMirror(store: Store, q: Query, shrunk: seq<MessageEntry>, other: seq<MessageEntry>)
    requires Answer(q, shrunk).Some?
    requires Matched(store, shrunk, other)
    ensures var key := Answer(q, shrunk).value.payloadObj;
            var store' := store - {key};
            && key in store
            && Opened(store', Rest(q, shrunk)) == Rest(q, Opened(store, shrunk))
            && Opened(store', other) == Opened(store, other)
            && Matched(store', Rest(q, shrunk), other)
  {
    var key := Answer(q, shrunk).value.payloadObj;
    var store' := store - {key};
    KeyBagRest(q, shrunk);
    MatchedKeysAreStored(store, shrunk, other);
    assert key in KeyBag(shrunk);
    ClaimKeepsKeys(store, key, KeyBag(shrunk), KeyBag(Rest(q, shrunk)), KeyBag(other));
    MatchedKeysAreStored(store', Rest(q, shrunk), other);
    OpenedFrame(store, store', Rest(q, shrunk));
    OpenedFrame(store, store', other);
    TakeOpened(store, q, shrunk);
  }

  lemma ClaimKeepsKeys(
    store: Store, key: string, before: multiset<string>, after: multiset<string>, other: multiset<string>)
    requires key in store && before == multiset{key} + after && before + other == multiset(store.Keys)
    ensures after + other == multiset((store - {key}).Keys)
  {
    KeysShrink(store, key);
    assert multiset{key} + (after + other) == multiset(store.Keys);
    Cancel(multiset{key}, after + other, multiset((store - {key}).Keys));
  }

  lemma KeysShrink(store: Store, key: string)
    requires key in store
    ensures multiset(store.Keys) == multiset{key} + multiset((store - {key}).Keys)
  {
    assert (store - {key}).Keys == store.Keys - {key};
  }

  lemma MirrorSend(plain: System, db: System, src: string, dest: string, payload: string, now: int)
    requires Mirrors(plain, db) && src != "" && dest != "" && payload != ""
    requires KeyFor(db, AppConnector(src), now) !in db.store
    ensures Mirrors(AfterSendAction(plain, src, dest, payload, now), AfterSendAction(db, src, dest, payload, now))
  {
    var key := KeyFor(db, AppConnector(src), now);
    PlainSend(plain, src, dest, payload, now);
    ParkKeepsMirror(db.store, key, payload, db.daemon.tx, db.daemon.rx, MessageEntry(src, dest, key, Int32(|payload|)));
    KeyIsNotEmpty(now, src, (Generations(db, AppConnector(src)) + 1) % COUNTER_LIMIT);
  }

  lemma MirrorPost(plain: System, db: System, via: string, src: string, dest: string, now: int)
    requires Mirrors(plain, db) && Fresh(db, Post(via, src, dest, now))
    ensures Mirrors(AfterPostAction(plain, via, src, dest, now), AfterPostAction(db, via, src, dest, now))
  {
    PlainPost(plain, via, src, dest, now);
    var next := Answer(Between(src, dest), db.hands);
    if next.Some? {
      var e, key := next.value, KeyFor(db, SimConnector(via), now);
      TakenWasThere(Between(src, dest), db.hands);
      MatchedIsSymmetric(db.store, db.daemon.tx, db.daemon.rx);
      ParkKeepsMirror(db.store, key, e.payloadObj, db.daemon.rx, db.daemon.tx, e.(payloadObj := key));
      MatchedIsSymmetric(db.store[key := e.payloadObj], db.daemon.tx, db.daemon.rx + [e.(payloadObj := key)]);
      KeyIsNotEmpty(now, via, (Generations(db, SimConnector(via)) + 1) % COUNTER_LIMIT);
    }
  }

  /** The daemon's answer for a key, unpacked by the client, is what the plain system delivers. */
  lemma MirrorDelivery(db: System, c: Client, op: Operation, q: Query, buf: seq<MessageEntry>)
    requires Answer(q, buf).Some? && c.cfg.useDb && db.daemon.cfg.useDb
    requires AllFaithful(Opened(db.store, buf)) && "" !in db.store
    requires forall k :: k in KeyBag(buf) ==> k in db.store
    ensures var reply, e := Delivery(db.daemon.cfg, op, Answer(q, buf)), Answer(q, buf).value;
            && Unpack(c, true, reply, db.store) == e.(payloadObj := Lookup(db.store, e.payloadObj))
            && Faithful(Unpack(c, true, reply, db.store))
            && StoreAfterUnpack(c, true, reply, db.store) == db.store - {e.payloadObj}
            && reply.manifest.op == op
  {
    TakenWasThere(q, buf);
    OpenedEntry(db.store, buf, Answer(q, buf).value);
  }

  /** What is left in the store, and what a client obtains, when a buffer operation takes a key. */
  function StoreAfter(store: Store, taken: Option<MessageEntry>): Store {
    if taken.Some? then store - {taken.value.payloadObj} else store
  }

  function Obtained(store: Store, taken: Option<MessageEntry>): MessageEntry {
    if taken.Some? then taken.value.(payloadObj := Lookup(store, taken.value.payloadObj)) else BLANK_ENTRY
  }

  lemma DbFetch(db: System, flavour: Flavour, simulator: string, source: Option<string>)
    requires db.daemon.cfg.useDb && Settled(db) && "" !in db.store && AllFaithful(Opened(db.store, db.daemon.tx))
    ensures var op := FetchOp(FetchRequest(ClientOf(db, flavour, SIM_CLIENT, simulator), source));
            var taken := Taken(op, db.daemon.tx);
            var (s', e) := AfterFetchAction(db, flavour, simulator, source);
            && s' == db.(daemon := db.daemon.(tx := Result(op, db.daemon.tx)),
                         store := StoreAfter(db.store, taken),
                         hands := db.hands + Kept(e))
            && e == Obtained(db.store, taken)
  {
    var c := ClientOf(db, flavour, SIM_CLIENT, simulator);
    var op := FetchOp(FetchRequest(c, source));
    if op.Remove? && Answer(op.query, db.daemon.tx).Some? {
      MatchedKeysAreStored(db.store, db.daemon.tx, db.daemon.rx);
      MirrorDelivery(db, c, FETCH, op.query, db.daemon.tx);
    }
  }

  lemma DbReceive(db: System, flavour: Flavour, app: string, dest: Option<string>)
    requires db.daemon.cfg.useDb && Settled(db) && "" !in db.store && AllFaithful(Opened(db.store, db.daemon.rx))
    ensures var op := ReceiveOp(ReceiveRequest(ClientOf(db, flavour, APP_CLIENT, app), dest));
            var taken := Taken(op, db.daemon.rx);
            var (s', e) := AfterReceiveAction(db, flavour, app, dest);
            && s' == db.(daemon := db.daemon.(rx := Result(op, db.daemon.rx)),
                         store := StoreAfter(db.store, taken),
                         received := db.received + Kept(e))
            && e == Obtained(db.store, taken)
  {
    var c := ClientOf(db, flavour, APP_CLIENT, app);
    var op := ReceiveOp(ReceiveRequest(c, dest));
    if op.Remove? && Answer(op.query, db.daemon.rx).Some? {
      MatchedKeysAreStored(db.store, db.daemon.tx, db.daemon.rx);
      MirrorDelivery(db, c, RECEIVE, op.query, db.daemon.rx);
    }
  }

  /** A buffer operation without and with the store takes the same message and keeps the mirror. */
  lemma MirrorTake(store: Store, op: BufferOp, shrunk: seq<MessageEntry>, other: seq<MessageEntry>)
    requires !op.Append? && Matched(store, shrunk, other)
    ensures var taken, store' := Taken(op, shrunk), StoreAfter(store, Taken(op, shrunk));
            && Taken(op, Opened(store, shrunk)).GetOr(BLANK_ENTRY) == Obtained(store, taken)
            && Leaving(op, Opened(store, shrunk)) == (if taken.Some? then [Obtained(store, taken)] else [])
            && Result(op, Opened(store, shrunk)) == Opened(store', Result(op, shrunk))
            && Opened(store', other) == Opened(store, other)
            && Matched(store', Result(op, shrunk), other)
            && forall k :: k in store' ==> k in store
  {
    if op.Remove? {
      TakeOpened(store, op.query, shrunk);
      AnswerIsHead(op.query, shrunk);
      if Answer(op.query, shrunk).Some? {
        ClaimKeepsMirror(store, op.query, shrunk, other);
      }
    }
  }

  lemma MirrorFetch(plain: System, db: System, flavour: Flavour, simulator: string, source: Option<string>)
    requires Mirrors(plain, db)
    ensures Mirrors(
              AfterFetchAction(plain, flavour, simulator, source).0, AfterFetchAction(db, flavour, simulator, source).0)
    ensures AfterFetchAction(plain, flavour, simulator, source).1 == AfterFetchAction(db, flavour, simulator, source).1
  {
    var op := FetchOp(FetchRequest(ClientOf(db, flavour, SIM_CLIENT, simulator), source));
    assert op == FetchOp(FetchRequest(ClientOf(plain, flavour, SIM_CLIENT, simulator), source));
    PlainFetch(plain, flavour, simulator, source);
    DbFetch(db, flavour, simulator, source);
    MirrorTake(db.store, op, db.daemon.tx, db.daemon.rx);
    if op.Remove? {
      TakenWasThere(op.query, plain.daemon.tx);
    }
  }

  lemma MirrorReceive(plain: System, db: System, flavour: Flavour, app: string, dest: Option<string>)
    requires Mirrors(plain, db)
    ensures Mirrors(AfterReceiveAction(plain, flavour, app, dest).0, AfterReceiveAction(db, flavour, app, dest).0)
    ensures AfterReceiveAction(plain, flavour, app, dest).1 == AfterReceiveAction(db, flavour, app, dest).1
  {
    var op := ReceiveOp(ReceiveRequest(ClientOf(db, flavour, APP_CLIENT, app), dest));
    assert op == ReceiveOp(ReceiveRequest(ClientOf(plain, flavour, APP_CLIENT, app), dest));
    PlainReceive(plain, flavour, app, dest);
    DbReceive(db, flavour, app, dest);
    MatchedIsSymmetric(db.store, db.daemon.tx, db.daemon.rx);
    MirrorTake(db.store, op, db.daemon.rx, db.daemon.tx);
    MatchedIsSymmetric(StoreAfter(db.store, Taken(op, db.daemon.rx)), db.daemon.tx, Result(op, db.daemon.rx));
    if op.Remove? {
      TakenWasThere(op.query, plain.daemon.rx);
    }
  }

  /** The parts of the daemon that neither the store nor the buffers enter into. */
  ghost predicate SameTables(d1: State, d2: State) {
    d1.running == d2.running && d1.sims == d2.sims && d1.apps == d2.apps && d1.fds == d2.fds
  }

  /** Everything else the daemon does neither depends on the store nor touches the buffers. */
  lemma OtherIgnoresStore(d1: State, d2: State, input: Input)
    requires d1.cfg == d2.cfg.(useDb := false) && SameTables(d1, d2) && LeavesBuffersAlone(input)
    ensures SameTables(Next(d1, input), Next(d2, input))
  {
    if input.Incoming? && input.msg.manifest.op.INIT? {
      InitIgnoresStore(d1, d2, input.msg);
    } else if input.Incoming? {
      assert SameTables(Next(d1, input), d1) || input.msg.manifest.op.EXIT?;
    }
  }

  lemma InitIgnoresStore(d1: State, d2: State, m: Nsbm)
    requires d1.cfg == d2.cfg.(useDb := false) && SameTables(d1, d2)
    ensures SameTables(AfterInit(d1, m).0, AfterInit(d2, m).0)
  {
  }

  lemma MirrorOther(plain: System, db: System, input: Input)
    requires Mirrors(plain, db) && LeavesBuffersAlone(input)
    ensures Mirrors(plain.(daemon := Next(plain.daemon, input)), db.(daemon := Next(db.daemon, input)))
  {
    BuffersStay(plain.daemon, input);
    BuffersStay(db.daemon, input);
    OtherIgnoresStore(plain.daemon, db.daemon, input);
  }

  lemma MirrorStep(plain: System, db: System, a: Action)
    requires Mirrors(plain, db) && WellFormed(a) && Fresh(db, a)
    ensures Mirrors(Step(plain, a).0, Step(db, a).0)
    ensures Step(plain, a).1 == Step(db, a).1
  {
    match a {
      case Send(src, dest, payload, now) => MirrorSend(plain, db, src, dest, payload, now);
      case Fetch(flavour, simulator, source) => MirrorFetch(plain, db, flavour, simulator, source);
      case Post(via, src, dest, now) => MirrorPost(plain, db, via, src, dest, now);
      case Receive(flavour, app, dest) => MirrorReceive(plain, db, flavour, app, dest);
      case Other(input) => MirrorOther(plain, db, input);
    }
  }

  // ---------------------------------------------------------------- whole runs

  function Final(s: System, actions: seq<Action>): System
    requires s.daemon.cfg.systemMode.PULL? && AllWellFormed(actions)
    decreases |actions|
  {
    if actions == [] then s
    else
      assert actions[0] in actions && forall a :: a in actions[1..] ==> a in actions;
      Final(Step(s, actions[0]).0, actions[1..])
  }

  /** What the operations of a run return, in order. */
  function Results(s: System, actions: seq<Action>): seq<MessageEntry>
    requires s.daemon.cfg.systemMode.PULL? && AllWellFormed(actions)
    decreases |actions|
  {
    if actions == [] then []
    else
      assert actions[0] in actions && forall a :: a in actions[1..] ==> a in actions;
      [Step(s, actions[0]).1] + Results(Step(s, actions[0]).0, actions[1..])
  }

  /** Every key the run stores under is unused at that moment. */
  predicate AllFresh(s: System, actions: seq<Action>)
    requires s.daemon.cfg.systemMode.PULL? && AllWellFormed(actions)
    decreases |actions|
  {
    actions == [] ||
    (assert actions[0] in actions && forall a :: a in actions[1..] ==> a in actions;
     Fresh(s, actions[0]) && AllFresh(Step(s, actions[0]).0, actions[1..]))
  }

  lemma {:induction false} RunAccounts(s: System, actions: seq<Action>, src: string, dest: string)
    requires Plain(s) && AllWellFormed(actions) && Accounted(s, Between(src, dest))
    ensures Plain(Final(s, actions)) && Accounted(Final(s, actions), Between(src, dest))
    decreases |actions|
  {
    if actions != [] {
      assert actions[0] in actions && forall a :: a in actions[1..] ==> a in actions;
      PlainStepAccounts(s, actions[0], src, dest);
      RunAccounts(Step(s, actions[0]).0, actions[1..], src, dest);
    }
  }

  lemma {:induction false} RunMirrors(plain: System, db: System, actions: seq<Action>)
    requires Mirrors(plain, db) && AllWellFormed(actions) && AllFresh(db, actions)
    ensures Mirrors(Final(plain, actions), Final(db, actions))
    ensures Results(plain, actions) == Results(db, actions)
    decreases |actions|
  {
    if actions != [] {
      assert actions[0] in actions && forall a :: a in actions[1..] ==> a in actions;
      MirrorStep(plain, db, actions[0]);
      RunMirrors(Step(plain, actions[0]).0, Step(db, actions[0]).0, actions[1..]);
    }
  }

  /**
    End to end, without the store: in every reachable state, the messages sent from `src` to `dest` are,
    in the order they were sent, those received, those waiting to be received, those in the simulated
    network and those waiting to be fetched.
   */
  lemma SentIsAccountedFor(cfg: Config, actions: seq<Action>, src: string, dest: string)
    requires cfg.systemMode.PULL? && !cfg.useDb && AllWellFormed(actions)
    ensures Accounted(Final(StartSystem(cfg), actions), Between(src, dest))
  {
    RunAccounts(StartSystem(cfg), actions, src, dest);
  }

  /**
    The store is transparent: with fresh keys, every fetch and receive of a run returns the same source,
    destination, payload and size as in the same run without the store; and in every reachable state
    the buffered keys are pairwise distinct and exactly the keys of the store.
   */
  lemma StoreIsTransparent(cfg: Config, actions: seq<Action>)
    requires cfg.systemMode.PULL? && cfg.useDb && AllWellFormed(actions)
    requires AllFresh(StartSystem(cfg), actions)
    ensures Results(StartSystem(cfg), actions) == Results(StartSystem(cfg.(useDb := false)), actions)
    ensures Settled(Final(StartSystem(cfg), actions))
  {
    RunMirrors(StartSystem(cfg.(useDb := false)), StartSystem(cfg), actions);
  }

  /** End to end with the store: the same account, reading payloads through the store. */
  lemma SentIsAccountedForWithStore(cfg: Config, actions: seq<Action>, src: string, dest: string)
    requires cfg.systemMode.PULL? && cfg.useDb && AllWellFormed(actions)
    requires AllFresh(StartSystem(cfg), actions)
    ensures AccountedOpened(Final(StartSystem(cfg), actions), Between(src, dest))
  {
    var plainCfg := cfg.(useDb := false);
    RunMirrors(StartSystem(plainCfg), StartSystem(cfg), actions);
    SentIsAccountedFor(plainCfg, actions, src, dest);
  }

  // ---------------------------------------------------------------- histories, said of the operations

  /** The messages of the `send` operations of a run. */
  function SentBy(actions: seq<Action>): seq<MessageEntry> {
    if actions == [] then []
    else
      (match actions[0]
       case Send(src, dest, payload, _) => [MessageEntry(src, dest, payload, Int32(|payload|))]
       case _ => [])
      + SentBy(actions[1..])
  }

  /** The messages that the `receive` operations of a run return. */
  function ReceivedBy(actions: seq<Action>, results: seq<MessageEntry>): seq<MessageEntry>
    requires |actions| == |results|
  {
    if actions == [] then []
    else (if actions[0].Receive? then Kept(results[0]) else []) + ReceivedBy(actions[1..], results[1..])
  }

  lemma {:induction false} HistoriesAreTrue(s: System, actions: seq<Action>)
    requires s.daemon.cfg.systemMode.PULL? && AllWellFormed(actions)
    ensures |Results(s, actions)| == |actions|
    ensures Final(s, actions).sent == s.sent + SentBy(actions)
    ensures Final(s, actions).received == s.received + ReceivedBy(actions, Results(s, actions))
    decreases |actions|
  {
    if actions == [] {
      NothingAdded(s.sent);
      NothingAdded(s.received);
    } else {
      var a, rest, next := actions[0], actions[1..], Step(s, actions[0]).0;
      assert a in actions && forall b :: b in rest ==> b in actions;
      HistoriesAreTrue(next, rest);
      HistoryStep(s, a);
      var results := Results(next, rest);
      assert Results(s, actions)[1..] == results;
      var sent := match a case Send(src, dest, payload, _) => [MessageEntry(src, dest, payload, Int32(|payload|))]
                          case _ => [];
      Associative(s.sent, sent, SentBy(rest));
      Associative(s.received, if a.Receive? then Kept(Step(s, a).1) else [], ReceivedBy(rest, results));
    }
  }

  lemma NothingAdded<T>(a: seq<T>)
    ensures a + [] == a
  {
  }

  lemma HistoryStep(s: System, a: Action)
    requires s.daemon.cfg.systemMode.PULL? && WellFormed(a)
    ensures Step(s, a).0.sent
         == s.sent + match a case Send(src, dest, payload, _) => [MessageEntry(src, dest, payload, Int32(|payload|))]
                             case _ => []
    ensures Step(s, a).0.received == s.received + if a.Receive? then Kept(Step(s, a).1) else []
  {
    NothingAdded(s.sent);
    NothingAdded(s.received);
  }

  /**
    End to end, said of the operations of a run and what they return: of the messages sent from `src` to
    `dest`, those received are the first ones, in order, and the others are on their way.
   */
  lemma SendsAreReceived(cfg: Config, actions: seq<Action>, src: string, dest: string)
    requires cfg.systemMode.PULL? && AllWellFormed(actions)
    requires cfg.useDb ==> AllFresh(StartSystem(cfg), actions)
    ensures |Results(StartSystem(cfg), actions)| == |actions|
    ensures var p, s := Between(src, dest), Final(StartSystem(cfg), actions);
            var tx := if cfg.useDb then Opened(s.store, s.daemon.tx) else s.daemon.tx;
            var rx := if cfg.useDb then Opened(s.store, s.daemon.rx) else s.daemon.rx;
            Restrict(p, SentBy(actions))
            == Restrict(p, ReceivedBy(actions, Results(StartSystem(cfg), actions)))
               + (Restrict(p, rx) + (Restrict(p, s.hands) + Restrict(p, tx)))
  {
    HistoriesAreTrue(StartSystem(cfg), actions);
    assert [] + SentBy(actions) == SentBy(actions);
    var received := ReceivedBy(actions, Results(StartSystem(cfg), actions));
    assert [] + received == received;
    if cfg.useDb {
      SentIsAccountedForWithStore(cfg, actions, src, dest);
    } else {
      SentIsAccountedFor(cfg, actions, src, dest);
    }
  }

  // ---------------------------------------------------------------- when well-formedness fails

  /** One message through the daemon: sent by `src` and fetched by the simulator of that name. */
  function SendAndFetch(cfg: Config, src: string, dest: string, payload: string, now: int): (System, MessageEntry)
    requires cfg.systemMode.PULL?
  {
    AfterFetchAction(AfterSendAction(StartSystem(cfg), src, dest, payload, now), Classic, src, Some(src))
  }

  lemma OneMessage(cfg: Config, src: string, dest: string, payload: string, now: int)
    requires cfg.systemMode.PULL? && src != "" && dest != ""
    ensures SendAndFetch(cfg, src, dest, payload, now).1
         == if cfg.useDb || payload != "" then MessageEntry(src, dest, payload, Int32(|payload|)) else BLANK_ENTRY
  {
    KeyIsNotEmpty(now, src, 1);
    var s := AfterSendAction(StartSystem(cfg), src, dest, payload, now);
    var e := MessageEntry(src, dest, if cfg.useDb then Key(now, src, 1) else payload, Int32(|payload|));
    assert s.daemon.tx == [e];
    assert FetchOp(FetchRequest(ClientOf(s, Classic, SIM_CLIENT, src), Some(src))).query.Matches(e);
  }

  /** An empty payload is the one that the store lets through and the plain daemon does not. */
  lemma EmptyPayloadsTellSystemsApart(cfg: Config, src: string, dest: string, payload: string, now: int)
    requires cfg.systemMode.PULL? && cfg.useDb && src != "" && dest != ""
    ensures SendAndFetch(cfg, src, dest, payload, now).1
         == SendAndFetch(cfg.(useDb := false), src, dest, payload, now).1
       <==> payload != ""
  {
    OneMessage(cfg, src, dest, payload, now);
    OneMessage(cfg.(useDb := false), src, dest, payload, now);
  }

  lemma StoreAfterOneMessage(cfg: Config, src: string, dest: string, payload: string, now: int)
    requires cfg.systemMode.PULL? && cfg.useDb && src != ""
    ensures var s := SendAndFetch(cfg, src, dest, payload, now).0;
            && s.daemon.tx == [] && s.daemon.rx == []
            && s.store == if dest == "" then map[Key(now, src, 1) := payload] else map[]
  {
    KeyIsNotEmpty(now, src, 1);
    var s := AfterSendAction(StartSystem(cfg), src, dest, payload, now);
    var e := MessageEntry(src, dest, Key(now, src, 1), Int32(|payload|));
    assert s.daemon.tx == [e] && s.store == map[Key(now, src, 1) := payload];
    assert FetchOp(FetchRequest(ClientOf(s, Classic, SIM_CLIENT, src), Some(src))).query.Matches(e);
  }

  /** A message without a destination is consumed and not delivered, and its payload stays behind. */
  lemma EmptyDestinationsLeak(cfg: Config, src: string, dest: string, payload: string, now: int)
    requires cfg.systemMode.PULL? && cfg.useDb && src != ""
    ensures Settled(SendAndFetch(cfg, src, dest, payload, now).0) <==> dest != ""
  {
    StoreAfterOneMessage(cfg, src, dest, payload, now);
    assert KeyBag([]) + KeyBag([]) == multiset{};
    if dest == "" {
      assert Key(now, src, 1) in multiset(map[Key(now, src, 1) := payload].Keys);
    }
  }
}
