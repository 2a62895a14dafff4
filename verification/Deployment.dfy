/**
  A deployment made of the real parts: one daemon, one store, and any number of clients with connectors of
  their own. Each operation of a client is the corresponding step of the bridge, in PULL and in PUSH mode.
 */
module Deployment {
  import opened Messages
  import opened Buffers
  import opened Keys
  import opened Daemon
  import opened DaemonRuns
  import opened Clients
  import opened Bridge
  import opened PushStore

  /** The bridge's name for a client's connector. */
  function ConnectorOf(c: NSBClient): Connector {
    Connector(c.og, c.clientId)
  }

  /** What a connector does for one payload, in the terms of its counter and of the bridge. */
  predicate PutAway(s: System, s': System, c: Connector, now: int, payload: string, key: string) {
    if s.daemon.cfg.useDb then
      && key == Key(now, c.id, Tick(Generations(s, c) % COUNTER_LIMIT))
      && s'.store == s.store[key := payload]
      && s'.generations == s.generations[c := Generations(s, c) + 1]
    else key == "" && s'.store == s.store && s'.generations == s.generations
  }

  lemma ParkedIsPutAway(s: System, c: Connector, now: int, payload: string, d: State) returns (key: string)
    ensures key == if s.daemon.cfg.useDb then KeyFor(s, c, now) else ""
    ensures PutAway(s, Parked(s, c, now, payload).(daemon := d), c, now, payload, key)
  {
    TickCountsGenerations(Generations(s, c));
    key := if s.daemon.cfg.useDb then KeyFor(s, c, now) else "";
  }

  /** A SEND as a step of the bridge, and what it takes of the daemon and the connector. */
  lemma SendStep(s: System, c: Client, fd: int, dest: string, payload: string, now: int)
    returns (next: System, key: string)
    requires s.daemon.cfg.systemMode.PULL? && WellFormed(Send(c.id, dest, payload, now))
    requires c.og.APP_CLIENT? && c.cfg == SharedConfig(s.daemon.cfg)
    ensures next == Step(s, Send(c.id, dest, payload, now)).0
    ensures next.daemon == Handle(s.daemon, fd, SendRequest(c, dest, payload, key)).0
    ensures PutAway(s, next, Connector(c.og, c.id), now, payload, key)
  {
    TickCountsGenerations(Generations(s, AppConnector(c.id)));
    key := if s.daemon.cfg.useDb then KeyFor(s, AppConnector(c.id), now) else "";
    next := AfterSendAction(s, c.id, dest, payload, now);
  }

  lemma PostStep(s: System, c: Client, fd: int, e: MessageEntry, now: int) returns (next: System, key: string)
    requires s.daemon.cfg.systemMode.PULL? && Answer(Between(e.source, e.destination), s.hands) == Some(e)
    requires c.og.SIM_CLIENT? && c.cfg == SharedConfig(s.daemon.cfg)
    ensures next == Step(s, Action.Post(c.id, e.source, e.destination, now)).0
    ensures next.daemon == Handle(s.daemon, fd, PostRequest(c, e.source, e.destination, e.payloadObj, key)).0
    ensures PutAway(s, next, Connector(c.og, c.id), now, e.payloadObj, key)
  {
    TickCountsGenerations(Generations(s, SimConnector(c.id)));
    key := if s.daemon.cfg.useDb then KeyFor(s, SimConnector(c.id), now) else "";
    next := AfterPostAction(s, c.id, e.source, e.destination, now);
  }

  /** A SEND in PUSH mode, and what it takes of the daemon and the connector. */
  lemma PushSendStep(s: PushSystem, c: Client, fd: int, op: PushAction) returns (next: PushSystem, key: string)
    requires Pushing(s) && CanDo(s, op) && c.cfg == SharedConfig(s.bridge.daemon.cfg)
    requires op.Sends? && c.og.APP_CLIENT? && op.src == c.id
    ensures next == PushStep(s, op).0
    ensures PutAway(s.bridge, next.bridge, Connector(c.og, c.id), op.now, op.payload, key)
    ensures var parcel := SendRequest(c, op.dest, op.payload, key);
            && CanHandle(s.bridge.daemon, parcel)
            && next.bridge.daemon == Handle(s.bridge.daemon, fd, parcel).0
            && next.underWay == s.underWay + Handle(s.bridge.daemon, fd, parcel).1
  {
    var after := Handle(s.bridge.daemon, FD, Shipped(s, op).0).0;
    key := ParkedIsPutAway(s.bridge, Connector(c.og, c.id), op.now, op.payload, after);
    next := AfterShip(s, op);
  }

  /** The same for a POST. */
  lemma PushPostStep(s: PushSystem, c: Client, fd: int, op: PushAction) returns (next: PushSystem, key: string)
    requires Pushing(s) && CanDo(s, op) && c.cfg == SharedConfig(s.bridge.daemon.cfg)
    requires op.Posts? && c.og.SIM_CLIENT? && op.via == c.id
    ensures next == PushStep(s, op).0
    ensures PutAway(s.bridge, next.bridge, Connector(c.og, c.id), op.now, op.payload, key)
    ensures var parcel := PostRequest(c, op.src, op.dest, op.payload, key);
            && CanHandle(s.bridge.daemon, parcel)
            && next.bridge.daemon == Handle(s.bridge.daemon, fd, parcel).0
            && next.underWay == s.underWay + Handle(s.bridge.daemon, fd, parcel).1
  {
    var after := Handle(s.bridge.daemon, FD, Shipped(s, op).0).0;
    key := ParkedIsPutAway(s.bridge, Connector(c.og, c.id), op.now, op.payload, after);
    next := AfterShip(s, op);
  }

  lemma ReadStep(s: PushSystem, c: Client, fd: int) returns (next: PushSystem, e: MessageEntry)
    requires Pushing(s) && c.cfg == SharedConfig(s.bridge.daemon.cfg)
    ensures (next, e) == PushStep(s, Reads(c.flavour, c.og, c.id, fd))
    ensures next.bridge.generations == s.bridge.generations && next.bridge.daemon == s.bridge.daemon
    ensures var i := NextOn(fd, s.underWay);
            if i == |s.underWay| then next == s && e == BLANK_ENTRY
            else
              var m := s.underWay[i].msg;
              && next.underWay == s.underWay[..i] + s.underWay[i + 1..]
              && e == Unpack(c, Accepted(c.og, c.flavour, m), m, s.bridge.store)
              && next.bridge.store == StoreAfterUnpack(c, Accepted(c.og, c.flavour, m), m, s.bridge.store)
  {
    var r := AfterRead(s, c.flavour, c.og, c.id, fd);
    next, e := r.0, r.1;
  }

  /** A connection, or an INIT, is a step of the bridge in either mode. */
  lemma OtherStep(s: System, underWay: seq<Wire>, input: Input) returns (next: System)
    requires LeavesBuffersAlone(input)
    ensures next == s.(daemon := Next(s.daemon, input))
    ensures s.daemon.cfg.systemMode.PULL? ==> next == Step(s, Other(input)).0
    ensures s.daemon.cfg.systemMode.PUSH? ==>
              PushSystem(next, underWay) == PushStep(PushSystem(s, underWay), Others(input)).0
  {
    next := s.(daemon := Next(s.daemon, input));
  }

  lemma JoinStep(s: System, underWay: seq<Wire>, c: Client, fd: int, intro: IntroDetails) returns (next: System)
    ensures next == s.(daemon := AfterInit(s.daemon, InitRequest(c, intro)).0)
    ensures var input := Incoming(fd, InitRequest(c, intro));
            && (s.daemon.cfg.systemMode.PULL? ==> next == Step(s, Other(input)).0)
            && (s.daemon.cfg.systemMode.PUSH? ==>
                  PushSystem(next, underWay) == PushStep(PushSystem(s, underWay), Others(input)).0)
  {
    next := OtherStep(s, underWay, Incoming(fd, InitRequest(c, intro)));
  }

  lemma FetchStep(s: System, c: Client, fd: int, source: Option<string>) returns (next: System, e: MessageEntry)
    requires s.daemon.cfg.systemMode.PULL? && c.og.SIM_CLIENT? && c.cfg == SharedConfig(s.daemon.cfg)
    ensures (next, e) == Step(s, Fetch(c.flavour, c.id, source)) && next.generations == s.generations
    ensures var (daemon, reply) := Poll(s.daemon, fd, FetchRequest(c, source));
            var accepted := AcceptsFetched(c.flavour, reply.manifest.op);
            && next.daemon == daemon && e == Unpack(c, accepted, reply, s.store)
            && next.store == StoreAfterUnpack(c, accepted, reply, s.store)
  {
    var r := AfterFetchAction(s, c.flavour, c.id, source);
    next, e := r.0, r.1;
  }

  lemma ReceiveStep(s: System, c: Client, fd: int, dest: Option<string>) returns (next: System, e: MessageEntry)
    requires s.daemon.cfg.systemMode.PULL? && c.og.APP_CLIENT? && c.cfg == SharedConfig(s.daemon.cfg)
    ensures (next, e) == Step(s, Receive(c.flavour, c.id, dest)) && next.generations == s.generations
    ensures var (daemon, reply) := Poll(s.daemon, fd, ReceiveRequest(c, dest));
            var accepted := AcceptsReceived(c.flavour, reply.manifest.op);
            && next.daemon == daemon && e == Unpack(c, accepted, reply, s.store)
            && next.store == StoreAfterUnpack(c, accepted, reply, s.store)
  {
    var r := AfterReceiveAction(s, c.flavour, c.id, dest);
    next, e := r.0, r.1;
  }

  class Deployment {
    const daemon: NSBDaemon
    const redis: RedisServer
    var clients: set<NSBClient>
    /** In PUSH mode, what has been forwarded to the clients' channels and not been read yet. */
    var underWay: seq<Wire>
    /** The whole as a system of the bridge. */
    ghost var system: System

    ghost function Pushed(): PushSystem
      reads this
    {
      PushSystem(system, underWay)
    }

    /**
      A client that has initialized: it has the daemon's modes, and if there is a store, it is connected
      to it, and its wrapping counter is the number of keys it has generated, modulo 2^20.
     */
    ghost predicate Joined(c: NSBClient)
      reads this, c, c.db
    {
      && c.Valid() && c.redis == redis && c.cfg == SharedConfig(daemon.cfg)
      && (c.cfg.useDb ==>
            c.db.connected && c.db.counter == Generations(system, ConnectorOf(c)) % COUNTER_LIMIT)
    }

    ghost predicate Valid()
      reads this, daemon, redis, clients, set c | c in clients :: c.db
    {
      && daemon.Valid()
      && system.daemon == daemon.View() && system.store == redis.data
      && (forall c :: c in clients ==> Joined(c))
      && (forall c1, c2 :: c1 in clients && c2 in clients && c1 != c2 ==>
            ConnectorOf(c1) != ConnectorOf(c2) && (c1.db == null || c1.db != c2.db))
    }

    constructor (cfg: Config)
      ensures Valid() && fresh(daemon) && fresh(redis) && clients == {} && daemon.cfg == cfg
      ensures Pushed() == PushStart(cfg)
    {
      daemon := new NSBDaemon(cfg);
      redis := new RedisServer();
      clients, underWay, system := {}, [], StartSystem(cfg);
    }

    /** A client's channel connects. */
    method Connects(address: string, fd: int)
      requires Valid()
      modifies this`system, daemon
      ensures Valid() && clients == old(clients)
      ensures daemon.cfg.systemMode.PULL? ==> system == Step(old(system), Other(Connect(address, fd))).0
      ensures daemon.cfg.systemMode.PUSH? ==> Pushed() == PushStep(old(Pushed()), Others(Connect(address, fd))).0
    {
      ghost var next := OtherStep(system, underWay, Connect(address, fd));
      daemon.Accept(address, fd);
      system := next;
    }

    /** A client initializes, and has joined if it succeeds. */
    method Joins(c: NSBClient, intro: IntroDetails, reachable: bool) returns (success: bool)
      requires Valid() && c.Valid() && c !in clients && c.redis == redis && c.db == null
      requires c.og.APP_CLIENT? || c.og.SIM_CLIENT?
      requires Generations(system, ConnectorOf(c)) == 0
      requires forall d :: d in clients ==> ConnectorOf(d) != ConnectorOf(c)
      modifies this`system, this`clients, daemon, c
      ensures Valid() && clients == if success then old(clients) + {c} else old(clients)
      ensures var input := Incoming(c.ctrlFd, InitRequest(old(c.View()), intro));
              && (daemon.cfg.systemMode.PULL? ==> system == Step(old(system), Other(input)).0)
              && (daemon.cfg.systemMode.PUSH? ==> Pushed() == PushStep(old(Pushed()), Others(input)).0)
    {
      ghost var next := JoinStep(system, underWay, c.View(), c.ctrlFd, intro);
      success := Introduces(c, intro, reachable);
      system := next;
      assert Valid();
      if success {
        Admit(c);
      }
    }

    /** The client's part of joining, and what that changes. */
    method Introduces(c: NSBClient, intro: IntroDetails, reachable: bool) returns (success: bool)
      requires daemon.Valid() && c.Valid() && c.redis == redis && c.db == null
      requires c.og.APP_CLIENT? || c.og.SIM_CLIENT?
      modifies daemon, c
      ensures daemon.Valid() && daemon.View() == AfterInit(old(daemon.View()), InitRequest(old(c.View()), intro)).0
      ensures success ==> c.Valid() && c.cfg == SharedConfig(daemon.cfg)
      ensures success && c.cfg.useDb ==> fresh(c.db) && c.db.connected && c.db.counter == 0
      ensures success && !c.cfg.useDb ==> c.db == null
    {
      success := c.Initialize(daemon, intro, reachable);
    }

    /** A client that is in step with the daemon and the store, and shares its connector with nobody, comes in. */
    method Admit(c: NSBClient)
      requires Valid() && Joined(c)
      requires forall d :: d in clients && d != c ==>
                 ConnectorOf(d) != ConnectorOf(c) && (d.db == null || d.db != c.db)
      modifies this`clients
      ensures Valid() && clients == old(clients) + {c}
    {
      clients := clients + {c};
    }

    /** The bookkeeping after an operation of client `c`: the other clients are where they were. */
    ghost method Track(c: NSBClient, next: System)
      requires daemon.Valid()
      requires next.daemon == daemon.View() && next.store == redis.data
      requires c in clients && forall d :: d in clients && d != c ==> Joined(d)
      requires forall c1, c2 :: c1 in clients && c2 in clients && c1 != c2 ==>
                 ConnectorOf(c1) != ConnectorOf(c2) && (c1.db == null || c1.db != c2.db)
      requires c.Valid() && c.redis == redis && c.cfg == SharedConfig(daemon.cfg)
      requires c.cfg.useDb ==> c.db.connected && c.db.counter == Generations(next, ConnectorOf(c)) % COUNTER_LIMIT
      requires forall k :: k != ConnectorOf(c) ==> Generations(next, k) == Generations(system, k)
      modifies this`system
      ensures Valid() && system == next
    {
      system := next;
    }

    method Sends(c: NSBClient, dest: string, payload: string, now: int)
      requires daemon.cfg.systemMode.PULL? && Valid() && c in clients && c.og.APP_CLIENT?
      requires WellFormed(Send(c.clientId, dest, payload, now))
      modifies this`system, daemon, redis, c.db
      ensures Valid() && clients == old(clients)
      ensures system == Step(old(system), Send(c.clientId, dest, payload, now)).0
    {
      ghost var next, key := SendStep(system, c.View(), c.sendFd, dest, payload, now);
      var _ := c.Send(daemon, dest, payload, now, Answered);
      TickCountsGenerations(Generations(system, ConnectorOf(c)));
      Track(c, next);
    }

    /** The next message that the simulated network delivers between its two ends, through simulator `c`. */
    method Posts(c: NSBClient, e: MessageEntry, now: int)
      requires daemon.cfg.systemMode.PULL? && Valid() && c in clients && c.og.SIM_CLIENT?
      requires Answer(Between(e.source, e.destination), system.hands) == Some(e)
      modifies this`system, daemon, redis, c.db
      ensures Valid() && clients == old(clients)
      ensures system == Step(old(system), Action.Post(c.clientId, e.source, e.destination, now)).0
    {
      ghost var next, key := PostStep(system, c.View(), c.sendFd, e, now);
      var _ := c.Post(daemon, e.source, e.destination, e.payloadObj, now, Answered);
      TickCountsGenerations(Generations(system, ConnectorOf(c)));
      Track(c, next);
    }

    method Fetches(c: NSBClient, source: Option<string>) returns (e: MessageEntry)
      requires daemon.cfg.systemMode.PULL? && Valid() && c in clients && c.og.SIM_CLIENT?
      modifies this`system, daemon, redis, c.db
      ensures Valid() && clients == old(clients)
      ensures (system, e) == Step(old(system), Fetch(c.flavour, c.clientId, source))
    {
      ghost var next, fetched := FetchStep(system, c.View(), c.recvFd, source);
      e := c.Fetch(daemon, source, None, Answered);
      Track(c, next);
    }

    method Receives(c: NSBClient, dest: Option<string>) returns (e: MessageEntry)
      requires daemon.cfg.systemMode.PULL? && Valid() && c in clients && c.og.APP_CLIENT?
      modifies this`system, daemon, redis, c.db
      ensures Valid() && clients == old(clients)
      ensures (system, e) == Step(old(system), Receive(c.flavour, c.clientId, dest))
    {
      ghost var next, received := ReceiveStep(system, c.View(), c.recvFd, dest);
      e := c.Receive(daemon, dest, None, Answered);
      Track(c, next);
    }

    // PUSH mode: what the daemon forwards joins what is under way, and clients read their own channels.

    method PushSends(c: NSBClient, dest: string, payload: string, now: int)
      requires daemon.cfg.systemMode.PUSH? && Valid() && c in clients && c.og.APP_CLIENT?
      requires CanDo(Pushed(), PushAction.Sends(c.clientId, dest, payload, now))
      modifies this`system, this`underWay, daemon, redis, c.db
      ensures Valid() && clients == old(clients)
      ensures Pushed() == PushStep(old(Pushed()), PushAction.Sends(c.clientId, dest, payload, now)).0
    {
      ghost var op := PushAction.Sends(c.clientId, dest, payload, now);
      ghost var next, key := PushSendStep(Pushed(), c.View(), c.sendFd, op);
      TickCountsGenerations(Generations(system, ConnectorOf(c)));
      ghost var wires := daemon.wires;
      var written := |daemon.wires|;
      var _ := c.Send(daemon, dest, payload, now, Answered);
      underWay := underWay + daemon.wires[written..];
      assert daemon.wires[..written] == wires;
      Track(c, next.bridge);
    }

    method PushPosts(c: NSBClient, src: string, dest: string, payload: string, now: int)
      requires daemon.cfg.systemMode.PUSH? && Valid() && c in clients && c.og.SIM_CLIENT?
      modifies this`system, this`underWay, daemon, redis, c.db
      ensures Valid() && clients == old(clients)
      ensures Pushed() == PushStep(old(Pushed()), PushAction.Posts(c.clientId, src, dest, payload, now)).0
    {
      ghost var op := PushAction.Posts(c.clientId, src, dest, payload, now);
      ghost var next, key := PushPostStep(Pushed(), c.View(), c.sendFd, op);
      TickCountsGenerations(Generations(system, ConnectorOf(c)));
      ghost var wires := daemon.wires;
      var written := |daemon.wires|;
      var _ := c.Post(daemon, src, dest, payload, now, Answered);
      underWay := underWay + daemon.wires[written..];
      assert daemon.wires[..written] == wires;
      Track(c, next.bridge);
    }

    /** The next message on a channel, if there is one. */
    method TakeNext(fd: int) returns (pending: Option<Nsbm>)
      modifies this`underWay
      ensures var i := NextOn(fd, old(underWay));
              if i == |old(underWay)| then pending == None && underWay == old(underWay)
              else pending == Some(old(underWay)[i].msg) && underWay == old(underWay)[..i] + old(underWay)[i + 1..]
    {
      var i := NextOn(fd, underWay);
      if i == |underWay| {
        return None;
      }
      pending := Some(underWay[i].msg);
      underWay := underWay[..i] + underWay[i + 1..];
    }

    method PushFetches(c: NSBClient) returns (e: MessageEntry)
      requires daemon.cfg.systemMode.PUSH? && Valid() && c in clients && c.og.SIM_CLIENT?
      modifies this`system, this`underWay, daemon, redis, c.db
      ensures Valid() && clients == old(clients)
      ensures (Pushed(), e) == PushStep(old(Pushed()), Reads(c.flavour, c.og, c.clientId, c.recvFd))
    {
      ghost var next, read := ReadStep(Pushed(), c.View(), c.recvFd);
      var pending := TakeNext(c.recvFd);
      e := c.Fetch(daemon, None, pending, Answered);
      assert redis.data == next.bridge.store && underWay == next.underWay;
      Track(c, next.bridge);
    }

    method PushReceives(c: NSBClient) returns (e: MessageEntry)
      requires daemon.cfg.systemMode.PUSH? && Valid() && c in clients && c.og.APP_CLIENT?
      modifies this`system, this`underWay, daemon, redis, c.db
      ensures Valid() && clients == old(clients)
      ensures (Pushed(), e) == PushStep(old(Pushed()), Reads(c.flavour, c.og, c.clientId, c.recvFd))
    {
      ghost var next, read := ReadStep(Pushed(), c.View(), c.recvFd);
      var pending := TakeNext(c.recvFd);
      e := c.Receive(daemon, None, pending, Answered);
      assert redis.data == next.bridge.store && underWay == next.underWay;
      Track(c, next.bridge);
    }
  }
}
