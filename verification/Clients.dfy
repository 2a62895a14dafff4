/**
  The application and simulator clients, and the claim check through which they exchange payloads.

  Two client libraries share the daemon: `Classic` builds a metadata record for every request,
  `Unified` only when it has something to put there, and it lets a caller's source override a
  PER_NODE simulator's own identifier.
 */
module Clients {
  import opened Messages
  import opened Buffers
  import opened Keys
  import opened Daemon

  type Store = map<string, string>

  datatype Flavour = Classic | Unified

  /** A client as a value: who it is and the configuration it inherited. */
  datatype Client = Client(flavour: Flavour, og: Originator, id: string, cfg: Config)

  // ---------------------------------------------------------------- messages a client sends

  function InitRequest(c: Client, intro: IntroDetails): Nsbm {
    Nsbm(Manifest(INIT, c.og, SUCCESS), None, Intro(intro.(identifier := c.id)))
  }

  /** A message with a payload: the payload itself, or the key it was stored under. */
  function Parcel(c: Client, op: Operation, src: string, dest: string, payload: string, key: string): Nsbm {
    Nsbm(Manifest(op, c.og, MESSAGE),
         Some(Metadata(src, dest, Int32(|payload|))),
         PayloadBody(c.cfg.useDb, if c.cfg.useDb then key else payload))
  }

  function SendRequest(c: Client, dest: string, payload: string, key: string): Nsbm {
    Parcel(c, SEND, c.id, dest, payload, key)
  }

  function PostRequest(c: Client, src: string, dest: string, payload: string, key: string): Nsbm {
    Parcel(c, POST, src, dest, payload, key)
  }

  function FetchMetadata(c: Client, src: Option<string>): Option<Metadata> {
    match c.flavour
    case Classic =>
      var source :=
        match c.cfg.simulatorMode
        case SYSTEM_WIDE => src.GetOr("")
        case PER_NODE => c.id
        case _ => "";
      Some(Metadata(source, "", 0))
    case Unified =>
      if src.GetOr("") != "" then Some(Metadata(src.value, "", 0))
      else if c.cfg.simulatorMode.PER_NODE? then Some(Metadata(c.id, "", 0))
      else None
  }

  function FetchRequest(c: Client, src: Option<string>): Nsbm {
    Nsbm(Manifest(FETCH, c.og, SUCCESS), FetchMetadata(c, src), NoBody)
  }

  function ReceiveRequest(c: Client, dest: Option<string>): Nsbm {
    var d :=
      match c.flavour
      case Classic => dest.GetOr(c.id)
      case Unified => if dest.GetOr("") != "" then dest.value else c.id;
    Nsbm(Manifest(RECEIVE, c.og, SUCCESS), Some(Metadata("", d, 0)), NoBody)
  }

  // ---------------------------------------------------------------- messages a client reads

  predicate AcceptsFetched(flavour: Flavour, op: Operation) {
    op.FETCH? || op.FORWARD? || (flavour.Unified? && op.SEND?)
  }

  predicate AcceptsReceived(flavour: Flavour, op: Operation) {
    op.RECEIVE? || op.FORWARD? || (flavour.Unified? && (op.SEND? || op.POST?))
  }

  /** GETDEL: the stored value, or nothing. */
  function Lookup(store: Store, key: string): string {
    if key in store then store[key] else ""
  }

  /** The entry a client makes of a message that carries one; the payload comes out of the store. */
  function Unpack(c: Client, accepted: bool, m: Nsbm, store: Store): MessageEntry {
    if accepted && m.manifest.code.MESSAGE? then
      var e := EntryOf(c.cfg.useDb, m);
      if c.cfg.useDb then e.(payloadObj := Lookup(store, e.payloadObj)) else e
    else BLANK_ENTRY
  }

  function StoreAfterUnpack(c: Client, accepted: bool, m: Nsbm, store: Store): Store {
    if accepted && m.manifest.code.MESSAGE? && c.cfg.useDb
    then store - {m.PayloadObj(true)}
    else store
  }

  // ---------------------------------------------------------------- polling in PULL mode

  /** The daemon's answer to a FETCH or RECEIVE. */
  function Poll(d: State, fd: int, request: Nsbm): (State, Nsbm)
    requires request.manifest.op.FETCH? || request.manifest.op.RECEIVE?
  {
    var (next, out) := Handle(d, fd, request);
    (next, out[0].msg)
  }

  /** What `fetch` returns in PULL mode. */
  function Fetched(c: Client, d: State, fd: int, src: Option<string>, store: Store): MessageEntry {
    var reply := Poll(d, fd, FetchRequest(c, src)).1;
    Unpack(c, AcceptsFetched(c.flavour, reply.manifest.op), reply, store)
  }

  /**
    With the classic library, in PER_NODE mode, a simulator obtains messages of its own node only,
    whatever source the caller asks for, and takes nothing else out of the daemon.
   */
  lemma ClassicFetchStaysOnItsNode(c: Client, d: State, fd: int, src: Option<string>, store: Store)
    requires c.flavour.Classic? && c.cfg.simulatorMode.PER_NODE? && c.id != ""
    requires c.cfg.useDb == d.cfg.useDb
    ensures Fetched(c, d, fd, src, store).Exists() ==> Fetched(c, d, fd, src, store).source == c.id
    ensures forall p: Query :: p.FromSource? && p.source != c.id ==>
              Restrict(p, Poll(d, fd, FetchRequest(c, src)).0.tx) == Restrict(p, d.tx)
  {
    var q := FromSource(c.id);
    AnswerIsHead(q, d.tx);
    forall p: Query | p.FromSource? && p.source != c.id
      ensures Restrict(p, Rest(q, d.tx)) == Restrict(p, d.tx)
    {
      TakeRespects(q, p, d.tx);
    }
  }

  /** The source a unified PER_NODE simulator is confined to: the caller's choice wins over its own node. */
  predicate AsksForOwnNode(c: Client, src: Option<string>) {
    src.GetOr("") == "" || src.value == c.id
  }

  /**
    With the unified library the same confinement holds, over all reachable daemon states and all stores,
    exactly when the caller names no source or the simulator's own.
   */
  lemma UnifiedFetchStaysOnItsNodeWhen(c: Client, cfg: Config, fd: int, src: Option<string>)
    requires c.flavour.Unified? && c.cfg.simulatorMode.PER_NODE? && c.id != ""
    requires cfg.systemMode.PULL? && c.cfg.useDb == cfg.useDb
    ensures (forall d: State, store: Store ::
               Sound(d) && d.cfg == cfg && Fetched(c, d, fd, src, store).Exists() ==>
                 Fetched(c, d, fd, src, store).source == c.id)
       <==> AsksForOwnNode(c, src)
  {
    if AsksForOwnNode(c, src) {
      forall d: State, store: Store | Sound(d) && d.cfg == cfg && Fetched(c, d, fd, src, store).Exists()
        ensures Fetched(c, d, fd, src, store).source == c.id
      {
        AnswerIsHead(FromSource(c.id), d.tx);
      }
    } else {
      // Another node has sent one message, under a key if there is a store.
      var e, store := MessageEntry(src.value, "d", "p", 1), map["p" := "p"];
      var meta := Metadata(src.value, "d", 1);
      var send := Nsbm(Manifest(SEND, APP_CLIENT, MESSAGE), Some(meta), PayloadBody(cfg.useDb, "p"));
      var d := Handle(StartState(cfg), fd, send).0;
      assert d.tx == [e];
      assert Answer(FromSource(src.value), d.tx) == Some(e);
      assert Sound(d) && d.cfg == cfg;
      assert Fetched(c, d, fd, src, store) == e;
    }
  }

  /**
    A unified simulator in SYSTEM_WIDE mode that names no source sends no metadata, and then the daemon
    does not look at its buffer: it never obtains anything, and nothing is lost. The classic one obtains
    the front of the buffer whenever that is well-formed.
   */
  lemma UnifiedUnfilteredFetchIsBlind(c: Client, d: State, fd: int, store: Store)
    requires c.cfg.simulatorMode.SYSTEM_WIDE?
    ensures c.flavour.Unified? ==>
              Fetched(c, d, fd, None, store) == BLANK_ENTRY && Poll(d, fd, FetchRequest(c, None)).0 == d
    ensures c.flavour.Classic? && c.cfg.useDb == d.cfg.useDb && d.tx != [] && d.tx[0].Exists() ==>
              && Fetched(c, d, fd, None, store)
                 == (if c.cfg.useDb then d.tx[0].(payloadObj := Lookup(store, d.tx[0].payloadObj)) else d.tx[0])
              && Poll(d, fd, FetchRequest(c, None)).0 == d.(tx := d.tx[1..])
  {
  }

  // ---------------------------------------------------------------- the store and its connectors

  class RedisServer {
    var data: Store

    constructor ()
      ensures data == map[]
    {
      data := map[];
    }
  }

  /**
    What becomes of one command to the store: it is answered; the store answers with an error text and does
    nothing; it fails and never takes effect; or it takes effect and the answer is lost. After the last two
    the connection is in error and stays so. An error text is no failure of the connection: a SET then
    returns its key all the same, and a GETDEL returns the text as the value.
   */
  datatype Exchange = Answered | ErrorReply(text: string) | Refused | AnswerLost {

    /** There is an answer, and the connection stays up. */
    predicate Completes() {
      Answered? || ErrorReply?
    }
  }

  /** A client's connection to the store, with its key generator. */
  class RedisConnector {
    const clientId: string
    const server: RedisServer
    var counter: nat
    var connected: bool

    constructor (clientId: string, server: RedisServer, reachable: bool)
      ensures this.clientId == clientId && this.server == server && counter == 0 && connected == reachable
    {
      this.clientId, this.server := clientId, server;
      counter, connected := 0, reachable;
    }

    /** The key the next `StoreValue` returns at this clock reading; empty when the store cannot be used. */
    function NextKey(now: int, exchange: Exchange): string
      reads this
    {
      if connected && exchange.Completes() then Key(now, clientId, Tick(counter)) else ""
    }

    /** What the connector gets to see of the stored data when it asks for `key`. */
    function Visible(key: string, exchange: Exchange): Store
      reads this, server
    {
      if !connected then map[]
      else
        match exchange
        case Answered => server.data
        case ErrorReply(text) => map[key := text]
        case _ => map[]
    }

    predicate TakesEffect(exchange: Exchange)
      reads this
    {
      connected && (exchange.Answered? || exchange.AnswerLost?)
    }

    method GenerateKey(now: int) returns (key: string)
      modifies this`counter
      ensures counter == (old(counter) + 1) % 1048576
      ensures key == Key(now, clientId, counter)
    {
      counter := (counter + 1) % COUNTER_LIMIT;
      key := Key(now, clientId, counter);
    }

    /**
      SET under a new key. A failed SET uses up a key, and may leave a value that nobody knows of; one that
      is answered with an error returns a key that nothing is stored under.
     */
    method StoreValue(value: string, now: int, exchange: Exchange) returns (key: string)
      modifies this, server
      ensures key == old(NextKey(now, exchange))
      ensures var next := (old(counter) + 1) % 1048576;
              && key == (if old(connected) && (exchange == Answered || exchange.ErrorReply?)
                         then Key(now, clientId, next) else "")
              && counter == (if old(connected) then next else old(counter))
              && server.data == (if old(connected) && (exchange == Answered || exchange == AnswerLost)
                                 then old(server.data)[Key(now, clientId, next) := value] else old(server.data))
      ensures connected == (old(connected) && exchange != Refused && exchange != AnswerLost)
    {
      if !connected {
        return "";
      }
      key := GenerateKey(now);
      if exchange.Answered? || exchange.AnswerLost? {
        server.data := server.data[key := value];
      }
      if !exchange.Completes() {
        connected := false;
        return "";
      }
    }

    /** GETDEL: returns the value and removes it. */
    method CheckOut(key: string, exchange: Exchange) returns (value: string)
      modifies this`connected, server
      ensures value == Lookup(old(Visible(key, exchange)), key)
      ensures value == if old(connected) && exchange == Answered && key in old(server.data) then old(server.data)[key]
                       else if old(connected) && exchange.ErrorReply? then exchange.text
                       else ""
      ensures server.data == if old(connected) && (exchange == Answered || exchange == AnswerLost)
                             then old(server.data) - {key} else old(server.data)
      ensures connected == (old(connected) && exchange != Refused && exchange != AnswerLost)
    {
      if !connected {
        return "";
      }
      var reply := if exchange.ErrorReply? then exchange.text else Lookup(server.data, key);
      if exchange.Answered? || exchange.AnswerLost? {
        server.data := server.data - {key};
      }
      if !exchange.Completes() {
        connected := false;
        return "";
      }
      value := reply;
    }
  }

  // ---------------------------------------------------------------- the clients

  class NSBClient {
    const flavour: Flavour
    const og: Originator
    const clientId: string
    /** The daemon's descriptors for this client's channels. */
    const ctrlFd: int
    const sendFd: int
    const recvFd: int
    const redis: RedisServer
    var cfg: Config
    var db: RedisConnector?

    function View(): Client
      reads this`cfg
    {
      Client(flavour, og, clientId, cfg)
    }

    /** A client that is to use the store holds a connector with its own identifier. */
    ghost predicate Valid()
      reads this, db
    {
      cfg.useDb ==> db != null && db.server == redis && db.clientId == clientId
    }

    constructor (
      flavour: Flavour, og: Originator, clientId: string, ctrlFd: int, sendFd: int, recvFd: int, redis: RedisServer)
      ensures Valid() && this.flavour == flavour && this.og == og && this.clientId == clientId
      ensures this.ctrlFd == ctrlFd && this.sendFd == sendFd && this.recvFd == recvFd && this.redis == redis
      ensures db == null
    {
      this.flavour, this.og, this.clientId := flavour, og, clientId;
      this.ctrlFd, this.sendFd, this.recvFd, this.redis := ctrlFd, sendFd, recvFd, redis;
      cfg, db := Config(PULL, SYSTEM_WIDE, false, "", 0, 0), null;
    }

    /**
      INIT: registers with the daemon, inherits its configuration and connects to the store if there is
      one. Without success the program ends or an exception is thrown; a refused client keeps what it had.
     */
    method Initialize(daemon: NSBDaemon, intro: IntroDetails, reachable: bool) returns (success: bool)
      requires Valid() && daemon.Valid()
      requires og.APP_CLIENT? || og.SIM_CLIENT?
      modifies this`cfg, this`db, daemon
      ensures Valid() && daemon.Valid()
      ensures daemon.View() == AfterInit(old(daemon.View()), InitRequest(old(View()), intro)).0
      ensures var registered :=
                AfterInit(old(daemon.View()), InitRequest(old(View()), intro)).1 == Some(InitReply(daemon.cfg, true));
              && (success <==> registered && (daemon.cfg.useDb ==> reachable))
              && (registered ==> cfg == SharedConfig(daemon.cfg))
              && (registered && cfg.useDb ==> fresh(db) && db.counter == 0 && db.connected == reachable)
              && (!registered ==> cfg == old(cfg))
              && (!registered || !cfg.useDb ==> db == old(db))
      ensures og.APP_CLIENT? ==>
                && (success <==> daemon.cfg.useDb ==> reachable)
                && clientId in daemon.appClientLookup
      ensures og.SIM_CLIENT? && daemon.cfg.simulatorMode.PER_NODE? ==>
                && (success <==> daemon.cfg.useDb ==> reachable)
                && clientId in daemon.simClientLookup
      ensures og.SIM_CLIENT? && daemon.cfg.simulatorMode.SYSTEM_WIDE? ==>
                (success <==> old(daemon.simClientLookup) == map[] && (daemon.cfg.useDb ==> reachable))
    {
      daemon.HandleMessage(ctrlFd, InitRequest(View(), intro));
      var reply := daemon.wires[|daemon.wires| - 1].msg;
      success := reply.manifest.op.INIT? && reply.manifest.code.SUCCESS? && reply.body.ConfigParams?;
      NoneRegistered(old(daemon.simClientLookup));
      if success {
        cfg := reply.body.params;
        if cfg.useDb {
          db := new RedisConnector(clientId, redis, reachable);
          success := db.connected;
        }
      }
    }

    /** The key under which the next payload goes, if it goes to the store. */
    function NextKey(now: int, exchange: Exchange): string
      requires Valid()
      reads this, db
    {
      if cfg.useDb then db.NextKey(now, exchange) else ""
    }

    /** The stored data after `payload` has been put away at this clock reading. */
    function StoreAfterPut(payload: string, now: int, exchange: Exchange): Store
      requires Valid()
      reads this, db, redis
    {
      if cfg.useDb && db.TakesEffect(exchange)
      then redis.data[Key(now, clientId, Tick(db.counter)) := payload]
      else redis.data
    }

    /** The connector's part of putting away a payload: a key is used up unless the store is offline. */
    twostate predicate KeyUsed(exchange: Exchange)
      requires old(Valid()) && Valid()
      reads this, db
    {
      cfg.useDb ==>
        && db == old(db)
        && db.counter == (if old(db.connected) then Tick(old(db.counter)) else old(db.counter))
        && db.connected == (old(db.connected) && exchange.Completes())
    }

    /** The payload, or the key it is now stored under, goes to the daemon. */
    method Ship(
      daemon: NSBDaemon, op: Operation, src: string, dest: string, payload: string, now: int, exchange: Exchange)
      returns (key: string)
      requires Valid() && daemon.Valid() && (op.SEND? || op.POST?)
      requires CanHandle(daemon.View(), Parcel(View(), op, src, dest, payload, NextKey(now, exchange)))
      modifies daemon, db, redis
      ensures Valid() && daemon.Valid()
      ensures key == old(NextKey(now, exchange))
      ensures redis.data == old(StoreAfterPut(payload, now, exchange)) && KeyUsed(exchange)
      ensures var (next, out) := Handle(old(daemon.View()), sendFd, Parcel(View(), op, src, dest, payload, key));
              daemon.View() == next && daemon.wires == old(daemon.wires) + out
    {
      key := "";
      var body := Payload(payload);
      if cfg.useDb {
        key := db.StoreValue(payload, now, exchange);
        body := MsgKey(key);
      }
      var message := Nsbm(Manifest(op, og, MESSAGE), Some(Metadata(src, dest, Int32(|payload|))), body);
      daemon.HandleMessage(sendFd, message);
    }

    method Send(daemon: NSBDaemon, dest: string, payload: string, now: int, exchange: Exchange) returns (key: string)
      requires Valid() && daemon.Valid()
      requires CanHandle(daemon.View(), SendRequest(View(), dest, payload, NextKey(now, exchange)))
      modifies daemon, db, redis
      ensures Valid() && daemon.Valid()
      ensures key == old(NextKey(now, exchange))
      ensures redis.data == old(StoreAfterPut(payload, now, exchange)) && KeyUsed(exchange)
      ensures var (next, out) := Handle(old(daemon.View()), sendFd, SendRequest(View(), dest, payload, key));
              daemon.View() == next && daemon.wires == old(daemon.wires) + out
    {
      key := Ship(daemon, SEND, clientId, dest, payload, now, exchange);
    }

    method Post(daemon: NSBDaemon, src: string, dest: string, payload: string, now: int, exchange: Exchange)
      returns (key: string)
      requires Valid() && daemon.Valid()
      modifies daemon, db, redis
      ensures Valid() && daemon.Valid()
      ensures key == old(NextKey(now, exchange))
      ensures redis.data == old(StoreAfterPut(payload, now, exchange)) && KeyUsed(exchange)
      ensures var (next, out) := Handle(old(daemon.View()), sendFd, PostRequest(View(), src, dest, payload, key));
              daemon.View() == next && daemon.wires == old(daemon.wires) + out
    {
      key := Ship(daemon, POST, src, dest, payload, now, exchange);
    }

    /** The stored data as this client gets to see it when it reads message `m`, and as it leaves it then. */
    function Visible(m: Nsbm, exchange: Exchange): Store
      requires Valid()
      reads this, db, redis
    {
      if cfg.useDb then db.Visible(m.PayloadObj(true), exchange) else map[]
    }

    function StoreAfterRead(accepted: bool, m: Nsbm, exchange: Exchange): Store
      requires Valid()
      reads this, db, redis
    {
      if cfg.useDb && db.TakesEffect(exchange) then StoreAfterUnpack(View(), accepted, m, redis.data) else redis.data
    }

    /** The connector's part of reading message `m`: it stays connected unless a GETDEL fails. */
    twostate predicate ReadThrough(accepted: bool, m: Nsbm, exchange: Exchange)
      requires old(Valid()) && Valid()
      reads this, db
    {
      cfg.useDb ==>
        && db == old(db) && db.counter == old(db.counter)
        && db.connected ==
           (old(db.connected) && (accepted && m.manifest.code.MESSAGE? ==> exchange.Completes()))
    }

    /**
      `fetch`: asks the daemon in PULL mode; otherwise reads the next message already forwarded to this
      client, if there is one.
     */
    method Fetch(daemon: NSBDaemon, src: Option<string>, pending: Option<Nsbm>, exchange: Exchange)
      returns (entry: MessageEntry)
      requires Valid() && daemon.Valid()
      modifies daemon, db, redis
      ensures Valid() && daemon.Valid()
      ensures cfg.systemMode.PULL? ==>
                daemon.View() == Poll(old(daemon.View()), recvFd, FetchRequest(View(), src)).0
      ensures !cfg.systemMode.PULL? ==> daemon.View() == old(daemon.View())
      ensures var response := ReplyRead(old(daemon.View()), FetchRequest(View(), src), pending);
              if response.Some? then
                var m, accepted := response.value, AcceptsFetched(flavour, response.value.manifest.op);
                && entry == Unpack(View(), accepted, m, old(Visible(m, exchange)))
                && redis.data == old(StoreAfterRead(accepted, m, exchange)) && ReadThrough(accepted, m, exchange)
              else entry == BLANK_ENTRY && unchanged(redis) && (db != null ==> unchanged(db))
    {
      var response := pending;
      if cfg.systemMode.PULL? {
        daemon.HandleMessage(recvFd, FetchRequest(View(), src));
        response := Some(daemon.wires[|daemon.wires| - 1].msg);
      }
      if response.None? {
        return BLANK_ENTRY;
      }
      entry := Read(AcceptsFetched(flavour, response.value.manifest.op), response.value, exchange);
    }

    method Receive(daemon: NSBDaemon, dest: Option<string>, pending: Option<Nsbm>, exchange: Exchange)
      returns (entry: MessageEntry)
      requires Valid() && daemon.Valid()
      modifies daemon, db, redis
      ensures Valid() && daemon.Valid()
      ensures cfg.systemMode.PULL? ==>
                daemon.View() == Poll(old(daemon.View()), recvFd, ReceiveRequest(View(), dest)).0
      ensures !cfg.systemMode.PULL? ==> daemon.View() == old(daemon.View())
      ensures var response := ReplyRead(old(daemon.View()), ReceiveRequest(View(), dest), pending);
              if response.Some? then
                var m, accepted := response.value, AcceptsReceived(flavour, response.value.manifest.op);
                && entry == Unpack(View(), accepted, m, old(Visible(m, exchange)))
                && redis.data == old(StoreAfterRead(accepted, m, exchange)) && ReadThrough(accepted, m, exchange)
              else entry == BLANK_ENTRY && unchanged(redis) && (db != null ==> unchanged(db))
    {
      var response := pending;
      if cfg.systemMode.PULL? {
        daemon.HandleMessage(recvFd, ReceiveRequest(View(), dest));
        response := Some(daemon.wires[|daemon.wires| - 1].msg);
      }
      if response.None? {
        return BLANK_ENTRY;
      }
      entry := Read(AcceptsReceived(flavour, response.value.manifest.op), response.value, exchange);
    }

    /** The message a poll reads: the daemon's answer in PULL mode, otherwise what was forwarded. */
    ghost function ReplyRead(d: State, request: Nsbm, pending: Option<Nsbm>): Option<Nsbm>
      requires request.manifest.op.FETCH? || request.manifest.op.RECEIVE?
      reads this
    {
      if cfg.systemMode.PULL? then Some(Poll(d, recvFd, request).1) else pending
    }

    /** `getPayload`, and the entry around it. */
    method Read(accepted: bool, m: Nsbm, exchange: Exchange) returns (entry: MessageEntry)
      requires Valid()
      modifies db, redis
      ensures Valid()
      ensures entry == Unpack(View(), accepted, m, old(Visible(m, exchange)))
      ensures redis.data == old(StoreAfterRead(accepted, m, exchange)) && ReadThrough(accepted, m, exchange)
    {
      if !accepted || !m.manifest.code.MESSAGE? {
        return BLANK_ENTRY;
      }
      var payload;
      if cfg.useDb {
        payload := db.CheckOut(m.PayloadObj(true), exchange);
      } else {
        payload := m.PayloadObj(false);
      }
      entry := MessageEntry(m.Meta().srcId, m.Meta().destId, payload, m.Meta().payloadSize);
    }
  }
}
