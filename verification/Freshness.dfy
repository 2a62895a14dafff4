/**
  When the keys of a run are fresh, which is what the store's transparency rests on: what a deployment
  must ensure, and what happens in the documented PER_NODE setup when it does not.
 */
module Freshness {
  import opened Messages
  import opened Buffers
  import opened Keys
  import opened Daemon
  import opened Clients
  import opened Bridge

  function BirthKey(b: Birth): string {
    Key(b.clock, b.connector.id, b.generation % COUNTER_LIMIT)
  }

  predicate SameKey(b: Birth, id: string, now: int, generation: nat) {
    b.connector.id == id && b.clock == now && b.generation % COUNTER_LIMIT == generation % COUNTER_LIMIT
  }

  lemma KeyOfBirth(b: Birth, id: string, now: int, generation: nat)
    ensures SameKey(b, id, now, generation) <==> BirthKey(b) == Key(now, id, generation % COUNTER_LIMIT)
  {
    KeyIsInjective(b.clock, b.connector.id, b.generation % COUNTER_LIMIT, now, id, generation % COUNTER_LIMIT);
  }

  // ---------------------------------------------------------------- where the live keys come from

  /** Every stored key is the one that its birth record says, and no connector is ahead of its counter. */
  ghost predicate Ancestry(s: System) {
    forall k :: k in s.store ==>
      && k in s.births
      && var b := s.births[k];
         k == BirthKey(b) && b.generation <= Generations(s, b.connector)
  }

  /** The connector that an action makes store something, if it does. */
  function Storing(s: System, a: Action): Option<Connector> {
    match a
    case Send(src, _, _, _) => if s.daemon.cfg.useDb then Some(AppConnector(src)) else None
    case Post(via, src, dest, _) =>
      if s.daemon.cfg.useDb && Answer(Between(src, dest), s.hands).Some? then Some(SimConnector(via)) else None
    case _ => None
  }

  function Clock(a: Action): int {
    match a
    case Send(_, _, _, now) => now
    case Post(_, _, _, now) => now
    case _ => 0
  }

  /**
    What one operation does to the keys: a new one, if a connector stores something at clock reading `now`,
    and otherwise only fewer.
   */
  predicate KeysMove(s: System, s': System, storing: Option<Connector>, now: int) {
    match storing
    case None => s'.generations == s.generations && s'.births == s.births && s'.store.Keys <= s.store.Keys
    case Some(c) =>
      var g, key := Generations(s, c) + 1, KeyFor(s, c, now);
      && s'.generations == s.generations[c := g]
      && s'.births == s.births[key := Birth(c, g, now)]
      && s'.store.Keys <= s.store.Keys + {key}
  }

  lemma AncestryMoves(s: System, s': System, storing: Option<Connector>, now: int)
    requires Ancestry(s) && KeysMove(s, s', storing, now)
    ensures Ancestry(s')
  {
  }

  lemma KeysAfterStep(s: System, a: Action)
    requires s.daemon.cfg.systemMode.PULL? && WellFormed(a)
    ensures KeysMove(s, Step(s, a).0, Storing(s, a), Clock(a))
    ensures Step(s, a).0.daemon.cfg == s.daemon.cfg
  {
  }

  lemma AncestryStep(s: System, a: Action)
    requires Ancestry(s) && s.daemon.cfg.systemMode.PULL? && WellFormed(a)
    ensures Ancestry(Step(s, a).0)
  {
    KeysAfterStep(s, a);
    AncestryMoves(s, Step(s, a).0, Storing(s, a), Clock(a));
  }

  /**
    Precisely when the next key is already in use: some live key carries the same identifier and clock
    reading, and its generation differs by a multiple of 2^20.
   */
  lemma KeyIsTakenWhen(s: System, c: Connector, now: int)
    requires Ancestry(s)
    ensures KeyFor(s, c, now) in s.store
       <==> exists k :: k in s.store && SameKey(s.births[k], c.id, now, Generations(s, c) + 1)
  {
    var key, next := KeyFor(s, c, now), Generations(s, c) + 1;
    if key in s.store {
      KeyOfBirth(s.births[key], c.id, now, next);
      assert SameKey(s.births[key], c.id, now, next);
    }
    if k :| k in s.store && SameKey(s.births[k], c.id, now, next) {
      KeyOfBirth(s.births[k], c.id, now, next);
      assert k == key;
    }
  }

  // ---------------------------------------------------------------- safe runs

  /**
    Every live key with the connector's identifier, its own or that of the other client of its node, has
    another clock reading or another counter than the key the connector makes next.
   */
  ghost predicate Apart(s: System, c: Connector, now: int) {
    forall k :: k in s.store && k in s.births && s.births[k].connector.id == c.id ==>
      s.births[k].clock != now || s.births[k].generation % COUNTER_LIMIT != (Generations(s, c) + 1) % COUNTER_LIMIT
  }

  ghost predicate Safe(s: System, a: Action) {
    Storing(s, a).Some? ==> Apart(s, Storing(s, a).value, Clock(a))
  }

  ghost predicate AllSafe(s: System, actions: seq<Action>)
    requires s.daemon.cfg.systemMode.PULL? && AllWellFormed(actions)
    decreases |actions|
  {
    actions == [] ||
    (assert actions[0] in actions && forall a :: a in actions[1..] ==> a in actions;
     Safe(s, actions[0]) && AllSafe(Step(s, actions[0]).0, actions[1..]))
  }

  lemma ApartWhen(s: System, c: Connector, now: int)
    requires Ancestry(s)
    ensures Apart(s, c, now) <==> KeyFor(s, c, now) !in s.store
  {
    KeyIsTakenWhen(s, c, now);
    if !Apart(s, c, now) {
      var k :| k in s.store && s.births[k].connector.id == c.id && s.births[k].clock == now
               && s.births[k].generation % COUNTER_LIMIT == (Generations(s, c) + 1) % COUNTER_LIMIT;
      assert SameKey(s.births[k], c.id, now, Generations(s, c) + 1);
    }
  }

  lemma SafeIsFresh(s: System, a: Action)
    requires Ancestry(s) && s.daemon.cfg.useDb
    ensures Safe(s, a) <==> Fresh(s, a)
  {
    if Storing(s, a).Some? {
      ApartWhen(s, Storing(s, a).value, Clock(a));
    }
  }

  /** A run overwrites no live payload if and only if it is safe. */
  lemma {:induction false} SafeRunsAreFresh(s: System, actions: seq<Action>)
    requires s.daemon.cfg.systemMode.PULL? && s.daemon.cfg.useDb && AllWellFormed(actions) && Ancestry(s)
    ensures AllSafe(s, actions) <==> AllFresh(s, actions)
    decreases |actions|
  {
    if actions != [] {
      var a := actions[0];
      assert a in actions && forall b :: b in actions[1..] ==> b in actions;
      SafeIsFresh(s, a);
      AncestryStep(s, a);
      KeysAfterStep(s, a);
      SafeRunsAreFresh(Step(s, a).0, actions[1..]);
    }
  }

  /**
    One way to be safe, whatever the clock does: no other connector with the identifier has a live key,
    and the connector's own live keys are younger than 2^20 generations.
   */
  ghost predicate Unrivalled(s: System, c: Connector) {
    forall k :: k in s.store && k in s.births && s.births[k].connector.id == c.id ==>
      s.births[k].connector == c && Generations(s, c) + 1 - s.births[k].generation < COUNTER_LIMIT
  }

  lemma NearbyRemaindersDiffer(a: nat, b: nat)
    requires a < b && b - a < COUNTER_LIMIT
    ensures a % COUNTER_LIMIT != b % COUNTER_LIMIT
  {
  }

  lemma UnrivalledIsApart(s: System, c: Connector, now: int)
    requires Ancestry(s) && Unrivalled(s, c)
    ensures Apart(s, c, now)
  {
    forall k | k in s.store && s.births[k].connector.id == c.id
      ensures s.births[k].generation % COUNTER_LIMIT != (Generations(s, c) + 1) % COUNTER_LIMIT
    {
      NearbyRemaindersDiffer(s.births[k].generation, Generations(s, c) + 1);
    }
  }

  ghost predicate AllUnrivalled(s: System, actions: seq<Action>)
    requires s.daemon.cfg.systemMode.PULL? && AllWellFormed(actions)
    decreases |actions|
  {
    actions == [] ||
    (assert actions[0] in actions && forall a :: a in actions[1..] ==> a in actions;
     && (Storing(s, actions[0]).Some? ==> Unrivalled(s, Storing(s, actions[0]).value))
     && AllUnrivalled(Step(s, actions[0]).0, actions[1..]))
  }

  lemma {:induction false} UnrivalledRunsAreSafe(s: System, actions: seq<Action>)
    requires s.daemon.cfg.systemMode.PULL? && AllWellFormed(actions) && Ancestry(s) && AllUnrivalled(s, actions)
    ensures AllSafe(s, actions)
    decreases |actions|
  {
    if actions != [] {
      var a := actions[0];
      assert a in actions && forall b :: b in actions[1..] ==> b in actions;
      if Storing(s, a).Some? {
        UnrivalledIsApart(s, Storing(s, a).value, Clock(a));
      }
      AncestryStep(s, a);
      KeysAfterStep(s, a);
      UnrivalledRunsAreSafe(Step(s, a).0, actions[1..]);
    }
  }

  // ---------------------------------------------------------------- a condition on the operations alone

  /** An operation as far as keys go: the connector it may make store something, and the clock reading. */
  datatype Making = Making(connector: Option<Connector>, clock: int)

  function MakingOf(a: Action): Making {
    match a
    case Send(src, _, _, now) => Making(Some(AppConnector(src)), now)
    case Post(via, _, _, now) => Making(Some(SimConnector(via)), now)
    case _ => Making(None, 0)
  }

  function Makings(actions: seq<Action>): seq<Making> {
    seq(|actions|, i requires 0 <= i < |actions| => MakingOf(actions[i]))
  }

  /**
    Two operations that may store under one identifier read the clock differently, or they are of the same
    client and fewer than 2^20 operations apart. The two clients of a PER_NODE node are thus told apart by
    the clock alone.
   */
  predicate KeptApart(ms: seq<Making>) {
    forall i, j :: 0 <= i < j < |ms| && ms[i].connector.Some? && ms[j].connector.Some?
                   && ms[i].connector.value.id == ms[j].connector.value.id ==>
      || ms[i].clock != ms[j].clock
      || (ms[i].connector == ms[j].connector && j - i < COUNTER_LIMIT)
  }

  /** The live key `b` was made by the operation at `i`, and no more generations ago than there were operations. */
  predicate MadeAt(s: System, past: seq<Making>, b: Birth, i: nat)
    requires i < |past|
  {
    && past[i] == Making(Some(b.connector), b.clock)
    && Generations(s, b.connector) - b.generation < |past| - i
  }

  ghost predicate Recorded(s: System, past: seq<Making>) {
    forall k :: k in s.store ==> k in s.births && exists i: nat :: i < |past| && MadeAt(s, past, s.births[k], i)
  }

  lemma RecordedMoves(s: System, s': System, past: seq<Making>, storing: Option<Connector>, made: Making)
    requires Recorded(s, past) && KeysMove(s, s', storing, made.clock)
    requires storing.Some? ==> made.connector == storing
    ensures Recorded(s', past + [made])
  {
    forall k | k in s'.store
      ensures k in s'.births && exists i: nat :: i < |past + [made]| && MadeAt(s', past + [made], s'.births[k], i)
    {
      if storing.Some? && k == KeyFor(s, storing.value, made.clock) {
        assert MadeAt(s', past + [made], s'.births[k], |past|);
      } else {
        var i: nat :| i < |past| && MadeAt(s, past, s.births[k], i);
        assert MadeAt(s', past + [made], s'.births[k], i);
      }
    }
  }

  lemma KeptApartIsApart(s: System, past: seq<Making>, c: Connector, now: int)
    requires Ancestry(s) && Recorded(s, past) && KeptApart(past + [Making(Some(c), now)])
    ensures Apart(s, c, now)
  {
    forall k | k in s.store && s.births[k].connector.id == c.id
      ensures || s.births[k].clock != now
              || s.births[k].generation % COUNTER_LIMIT != (Generations(s, c) + 1) % COUNTER_LIMIT
    {
      var i: nat :| i < |past| && MadeAt(s, past, s.births[k], i);
      if s.births[k].clock == now {
        SameClockIsRecent(s, past, c, now, s.births[k], i);
        NearbyRemaindersDiffer(s.births[k].generation, Generations(s, c) + 1);
      }
    }
  }

  /** A key of the same identifier and clock reading was made by this very connector, not long ago. */
  lemma SameClockIsRecent(s: System, past: seq<Making>, c: Connector, now: int, b: Birth, i: nat)
    requires KeptApart(past + [Making(Some(c), now)]) && i < |past| && MadeAt(s, past, b, i)
    requires b.connector.id == c.id && b.clock == now
    ensures b.connector == c && Generations(s, c) + 1 - b.generation < COUNTER_LIMIT
  {
    var all := past + [Making(Some(c), now)];
    assert all[i] == past[i] && all[|past|] == Making(Some(c), now);
  }

  lemma KeptApartSplit(past: seq<Making>, made: Making, rest: seq<Making>)
    requires KeptApart(past + ([made] + rest))
    ensures KeptApart(past + [made]) && (past + [made]) + rest == past + ([made] + rest)
  {
    var all := past + ([made] + rest);
    assert forall i :: 0 <= i < |past + [made]| ==> (past + [made])[i] == all[i];
  }

  lemma {:induction false} KeptApartFrom(s: System, past: seq<Making>, actions: seq<Action>)
    requires s.daemon.cfg.systemMode.PULL? && AllWellFormed(actions)
    requires Ancestry(s) && Recorded(s, past) && KeptApart(past + Makings(actions))
    ensures AllSafe(s, actions)
    decreases |actions|
  {
    if actions != [] {
      var a, rest := actions[0], actions[1..];
      assert a in actions && forall b :: b in rest ==> b in actions;
      var made := MakingOf(a);
      assert Makings(actions) == [made] + Makings(rest);
      KeptApartSplit(past, made, Makings(rest));
      if Storing(s, a).Some? {
        KeptApartIsApart(s, past, Storing(s, a).value, Clock(a));
      }
      AncestryStep(s, a);
      KeysAfterStep(s, a);
      RecordedMoves(s, Step(s, a).0, past, Storing(s, a), made);
      KeptApartFrom(Step(s, a).0, past + [made], rest);
    }
  }

  /**
    So, in every simulator mode and with both clients of a node at work: when the operations are kept apart, the
    store is transparent, no payload dangles or leaks, and every message is accounted for in order.
   */
  lemma KeptApartRunsAreTransparent(cfg: Config, actions: seq<Action>, src: string, dest: string)
    requires cfg.systemMode.PULL? && cfg.useDb && AllWellFormed(actions) && KeptApart(Makings(actions))
    ensures Results(StartSystem(cfg), actions) == Results(StartSystem(cfg.(useDb := false)), actions)
    ensures Settled(Bridge.Final(StartSystem(cfg), actions))
    ensures AccountedOpened(Bridge.Final(StartSystem(cfg), actions), Between(src, dest))
  {
    assert [] + Makings(actions) == Makings(actions);
    KeptApartFrom(StartSystem(cfg), [], actions);
    SafeRunsAreTransparent(cfg, actions, src, dest);
  }

  /** The same for every safe run. */
  lemma SafeRunsAreTransparent(cfg: Config, actions: seq<Action>, src: string, dest: string)
    requires cfg.systemMode.PULL? && cfg.useDb && AllWellFormed(actions) && AllSafe(StartSystem(cfg), actions)
    ensures Results(StartSystem(cfg), actions) == Results(StartSystem(cfg.(useDb := false)), actions)
    ensures Settled(Bridge.Final(StartSystem(cfg), actions))
    ensures AccountedOpened(Bridge.Final(StartSystem(cfg), actions), Between(src, dest))
  {
    SafeRunsAreFresh(StartSystem(cfg), actions);
    StoreIsTransparent(cfg, actions);
    SentIsAccountedForWithStore(cfg, actions, src, dest);
  }

  // ---------------------------------------------------------------- the two clients of one node

  /**
    Each of `m` and `n` has an application and a simulator client. `m` sends to `n`, and its simulator
    fetches that; `n` sends to `x`; the simulator of `n` posts what came from `m`; then it fetches, and
    the application of `n` receives.
   */
  function Crossing(
    m: string, n: string, x: string, p1: string, p2: string, sentAt: int, crossedAt: int, postedAt: int): seq<Action>
  {
    [Send(m, n, p1, sentAt), Fetch(Classic, m, None), Send(n, x, p2, crossedAt), Post(n, m, n, postedAt),
     Fetch(Classic, n, None), Receive(Classic, n, None)]
  }

  lemma CrossingIsWellFormed(
    m: string, n: string, x: string, p1: string, p2: string, sentAt: int, crossedAt: int, postedAt: int)
    requires m != n && m != "" && n != "" && x != "" && p1 != "" && p2 != ""
    ensures AllWellFormed(Crossing(m, n, x, p1, p2, sentAt, crossedAt, postedAt))
    ensures KeptApart(Makings(Crossing(m, n, x, p1, p2, sentAt, crossedAt, postedAt))) <==> crossedAt != postedAt
  {
    var actions := Crossing(m, n, x, p1, p2, sentAt, crossedAt, postedAt);
    assert Makings(actions)[2].connector.value.id == n && Makings(actions)[3].connector.value.id == n;
  }

  /** The `i`th operation of a run leads from one state of the trace to the next and returns the `i`th result. */
  ghost predicate StepAt(states: seq<System>, actions: seq<Action>, results: seq<MessageEntry>, i: nat)
    requires i < |actions| == |results| && |states| == |actions| + 1
  {
    && states[i].daemon.cfg.systemMode.PULL? && WellFormed(actions[i])
    && Step(states[i], actions[i]) == (states[i + 1], results[i])
  }

  ghost predicate Trace(states: seq<System>, actions: seq<Action>, results: seq<MessageEntry>) {
    && |actions| == |results| && |states| == |actions| + 1
    && forall i :: 0 <= i < |actions| ==> StepAt(states, actions, results, i)
  }

  /** Every run has a trace. */
  lemma {:induction false} TraceOf(s: System, actions: seq<Action>) returns (states: seq<System>)
    requires s.daemon.cfg.systemMode.PULL? && AllWellFormed(actions)
    ensures Trace(states, actions, Results(s, actions)) && states[0] == s
    decreases |actions|
  {
    if actions == [] {
      states := [s];
    } else {
      var rest := actions[1..];
      assert actions[0] in actions && forall a :: a in rest ==> a in actions;
      var next := Step(s, actions[0]).0;
      var later := TraceOf(next, rest);
      states := [s] + later;
      forall i | 0 <= i < |actions|
        ensures StepAt(states, actions, Results(s, actions), i)
      {
        assert i > 0 ==> StepAt(later, rest, Results(next, rest), i - 1);
      }
    }
  }

  /** A trace with the store, in PER_NODE mode, and an operation of it. */
  ghost predicate StoredAt(states: seq<System>, actions: seq<Action>, results: seq<MessageEntry>, i: nat) {
    && Trace(states, actions, results) && i < |actions|
    && states[i].daemon.cfg.useDb && states[i].daemon.cfg.simulatorMode.PER_NODE?
  }

  /** A SEND into an empty buffer. */
  lemma SendAt(states: seq<System>, actions: seq<Action>, results: seq<MessageEntry>, i: nat,
               src: string, dest: string, payload: string, now: int)
    requires StoredAt(states, actions, results, i)
    requires actions[i] == Send(src, dest, payload, now) && states[i].daemon.tx == []
    ensures states[i + 1].daemon.cfg == states[i].daemon.cfg
    ensures var s, s', c := states[i], states[i + 1], AppConnector(src);
            var key := Key(now, src, (Generations(s, c) + 1) % COUNTER_LIMIT);
            && s'.daemon.tx == [MessageEntry(src, dest, key, Int32(|payload|))] && s'.daemon.rx == s.daemon.rx
            && s'.store == s.store[key := payload] && s'.hands == s.hands
            && s'.generations == s.generations[c := Generations(s, c) + 1]
  {
    assert StepAt(states, actions, results, i);
  }

  /** A POST of the only message in the network. */
  lemma PostAt(states: seq<System>, actions: seq<Action>, results: seq<MessageEntry>, i: nat,
               via: string, e: MessageEntry, now: int)
    requires StoredAt(states, actions, results, i) && actions[i] == Post(via, e.source, e.destination, now)
    requires states[i].hands == [e] && e.payloadSize == Int32(|e.payloadObj|) && states[i].daemon.rx == []
    ensures states[i + 1].daemon.cfg == states[i].daemon.cfg
    ensures var s, s' := states[i], states[i + 1];
            var key := Key(now, via, (Generations(s, SimConnector(via)) + 1) % COUNTER_LIMIT);
            && s'.daemon.tx == s.daemon.tx && s'.daemon.rx == [e.(payloadObj := key)]
            && s'.store == s.store[key := e.payloadObj] && s'.hands == []
  {
    assert StepAt(states, actions, results, i);
  }

  /** A FETCH by a simulator of the only message in the buffer, which is its own. */
  lemma FetchAt(states: seq<System>, actions: seq<Action>, results: seq<MessageEntry>, i: nat,
                node: string, e: MessageEntry)
    requires StoredAt(states, actions, results, i) && actions[i] == Fetch(Classic, node, None)
    requires states[i].daemon.tx == [e] && e.Exists() && e.source == node
    ensures states[i + 1].daemon.cfg == states[i].daemon.cfg
    ensures var s, s', r := states[i], states[i + 1], results[i];
            && r == e.(payloadObj := Lookup(s.store, e.payloadObj))
            && s'.daemon.tx == [] && s'.daemon.rx == s.daemon.rx
            && s'.store == s.store - {e.payloadObj} && s'.hands == s.hands + Kept(r)
            && s'.generations == s.generations
  {
    assert StepAt(states, actions, results, i);
    assert FromSource(node).Matches(e);
  }

  /** A RECEIVE of the only message in the buffer. */
  lemma ReceiveAt(states: seq<System>, actions: seq<Action>, results: seq<MessageEntry>, i: nat,
                  node: string, e: MessageEntry)
    requires StoredAt(states, actions, results, i) && actions[i] == Receive(Classic, node, None)
    requires states[i].daemon.rx == [e] && e.Exists() && e.destination == node
    ensures results[i] == e.(payloadObj := Lookup(states[i].store, e.payloadObj))
  {
    assert StepAt(states, actions, results, i);
    assert ToDestination(node).Matches(e);
  }

  /** In the middle of the run, the message of `m` is in the network and that of `n` waits under a first key. */
  lemma CrossingMiddle(cfg: Config, states: seq<System>, actions: seq<Action>, results: seq<MessageEntry>,
                       m: string, n: string, x: string, p1: string, p2: string, sentAt: int, now: int)
    requires cfg.systemMode.PULL? && cfg.simulatorMode.PER_NODE? && cfg.useDb
    requires m != n && m != "" && n != "" && p1 != ""
    requires Trace(states, actions, results) && |actions| == 6 && states[0] == StartSystem(cfg)
    requires actions[0] == Send(m, n, p1, sentAt) && actions[1] == Fetch(Classic, m, None)
    requires actions[2] == Send(n, x, p2, now)
    ensures states[3].daemon.cfg == cfg
    ensures var s := states[3];
            && s.daemon.tx == [MessageEntry(n, x, Key(now, n, 1), Int32(|p2|))] && s.daemon.rx == []
            && s.hands == [MessageEntry(m, n, p1, Int32(|p1|))]
            && s.store == map[Key(now, n, 1) := p2] && Generations(s, SimConnector(n)) == 0
  {
    var key := Key(sentAt, m, 1);
    KeyIsNotEmpty(sentAt, m, 1);
    SendAt(states, actions, results, 0, m, n, p1, sentAt);
    FetchAt(states, actions, results, 1, m, MessageEntry(m, n, key, Int32(|p1|)));
    assert states[2].store == map[];
    SendAt(states, actions, results, 2, n, x, p2, now);
  }

  /** The post then overwrites the payload of `n`. */
  lemma CrossingEnd(states: seq<System>, actions: seq<Action>, results: seq<MessageEntry>,
                    m: string, n: string, x: string, p1: string, key: string, now: int, size: int)
    requires StoredAt(states, actions, results, 3) && |actions| == 6 && m != "" && n != "" && x != ""
    requires actions[3] == Post(n, m, n, now)
    requires actions[4] == Fetch(Classic, n, None) && actions[5] == Receive(Classic, n, None)
    requires states[3].daemon.tx == [MessageEntry(n, x, key, size)] && states[3].daemon.rx == []
    requires states[3].hands == [MessageEntry(m, n, p1, Int32(|p1|))] && states[3].store.Keys == {key}
    requires Generations(states[3], SimConnector(n)) == 0 && key == Key(now, n, 1) && key != ""
    ensures results[4] == MessageEntry(n, x, p1, size) && results[5] == MessageEntry(m, n, "", Int32(|p1|))
  {
    PostAt(states, actions, results, 3, n, MessageEntry(m, n, p1, Int32(|p1|)), now);
    assert states[4].store == map[key := p1];
    FetchAt(states, actions, results, 4, n, MessageEntry(n, x, key, size));
    ReceiveAt(states, actions, results, 5, n, MessageEntry(m, n, key, Int32(|p1|)));
  }

  /**
    When both keys of `n` are made at one clock reading, they are the same key: the message of `n` is
    fetched with the payload that `m` had sent, and the message of `m` is received without one.
   */
  lemma CrossingDelivers(cfg: Config, states: seq<System>, results: seq<MessageEntry>,
                         m: string, n: string, x: string, p1: string, p2: string, sentAt: int, now: int)
    requires cfg.systemMode.PULL? && cfg.simulatorMode.PER_NODE? && cfg.useDb
    requires m != n && m != "" && n != "" && x != "" && p1 != "" && p2 != ""
    requires Trace(states, Crossing(m, n, x, p1, p2, sentAt, now, now), results) && states[0] == StartSystem(cfg)
    ensures results[4] == MessageEntry(n, x, p1, Int32(|p2|)) && results[5] == MessageEntry(m, n, "", Int32(|p1|))
  {
    var actions := Crossing(m, n, x, p1, p2, sentAt, now, now);
    KeyIsNotEmpty(now, n, 1);
    CrossingMiddle(cfg, states, actions, results, m, n, x, p1, p2, sentAt, now);
    CrossingEnd(states, actions, results, m, n, x, p1, Key(now, n, 1), now, Int32(|p2|));
  }

  /**
    In the documented PER_NODE setup, with a simulator and an application of one identifier at every node,
    this run gives what it gives without the store if and only if the two clients of `n` read the clock
    differently.
   */
  lemma SharedIdentifiersCollide(
    cfg: Config, m: string, n: string, x: string, p1: string, p2: string, sentAt: int, crossedAt: int, postedAt: int)
    requires cfg.systemMode.PULL? && cfg.simulatorMode.PER_NODE? && cfg.useDb
    requires m != n && m != "" && n != "" && x != "" && p1 != "" && p2 != ""
    ensures var actions := Crossing(m, n, x, p1, p2, sentAt, crossedAt, postedAt);
            && AllWellFormed(actions)
            && (Results(StartSystem(cfg), actions) == Results(StartSystem(cfg.(useDb := false)), actions)
                <==> crossedAt != postedAt)
  {
    var actions := Crossing(m, n, x, p1, p2, sentAt, crossedAt, postedAt);
    CrossingIsWellFormed(m, n, x, p1, p2, sentAt, crossedAt, postedAt);
    if crossedAt != postedAt {
      KeptApartRunsAreTransparent(cfg, actions, m, n);
    } else {
      var states := TraceOf(StartSystem(cfg), actions);
      CrossingDelivers(cfg, states, Results(StartSystem(cfg), actions), m, n, x, p1, p2, sentAt, crossedAt);
      PlainResultsAreWhole(StartSystem(cfg.(useDb := false)), actions, 5);
    }
  }

  /** Without the store, whatever a run returns is a whole message or none. */
  lemma {:induction false} PlainResultsAreWhole(s: System, actions: seq<Action>, i: nat)
    requires Plain(s) && AllWellFormed(actions) && Accounted(s, Between("", "")) && i < |actions|
    ensures |Results(s, actions)| == |actions|
    ensures var e := Results(s, actions)[i]; e == BLANK_ENTRY || e.Exists()
    decreases |actions|
  {
    var a, rest := actions[0], actions[1..];
    assert a in actions && forall b :: b in rest ==> b in actions;
    var (next, e) := Step(s, a);
    PlainResultIsWhole(s, a);
    PlainStepAccounts(s, a, "", "");
    assert Results(s, actions) == [e] + Results(next, rest);
    if rest != [] {
      PlainResultsAreWhole(next, rest, if i > 0 then i - 1 else 0);
    }
  }

  lemma PlainResultIsWhole(s: System, a: Action)
    requires Plain(s) && WellFormed(a)
    ensures var e := Step(s, a).1; e == BLANK_ENTRY || e.Exists()
  {
    match a {
      case Fetch(flavour, simulator, source) =>
        PlainFetch(s, flavour, simulator, source);
        TakenIsWhole(FetchOp(FetchRequest(ClientOf(s, flavour, SIM_CLIENT, simulator), source)), s.daemon.tx);
      case Receive(flavour, application, dest) =>
        PlainReceive(s, flavour, application, dest);
        TakenIsWhole(ReceiveOp(ReceiveRequest(ClientOf(s, flavour, APP_CLIENT, application), dest)), s.daemon.rx);
      case _ =>
    }
  }

  lemma TakenIsWhole(op: BufferOp, buf: seq<MessageEntry>)
    requires AllFaithful(buf)
    ensures Taken(op, buf).Some? ==> Taken(op, buf).value.Exists()
  {
    if op.Remove? {
      TakenWasThere(op.query, buf);
    }
  }
}
