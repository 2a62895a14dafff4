/**
  The daemon's server loop: the walk over the open channels that erases while it iterates, new
  connections, and how EXIT ends it.
 */
module Server {
  import opened Messages
  import opened Daemon
  import opened DaemonRuns
  import opened Buffers

  /** What reading a ready channel yields: nothing any more, bytes that do not parse, or a message. */
  datatype Reading = Closed | Garbage | Parsed(msg: Nsbm)

  /** What `accept` yields: a connection, or a failure that skips the rest of the round. */
  datatype Accepting = NoConnection | Failed | Accepted(address: string, fd: int)

  /**
    What one round of `select` finds; a round that times out or is interrupted finds nothing. An error of
    `select` itself ends the loop.
   */
  datatype Round = Round(ready: map<int, Reading>, accepting: Accepting) | SelectError

  // ---------------------------------------------------------------- specification

  predicate StaysOpen(ready: map<int, Reading>, fd: int) {
    fd in ready ==> !ready[fd].Closed?
  }

  /** The channels that are still open after a round, in their order. */
  function Survivors(fds: seq<int>, ready: map<int, Reading>): seq<int> {
    if fds == [] then []
    else (if StaysOpen(ready, fds[0]) then [fds[0]] else []) + Survivors(fds[1..], ready)
  }

  /** The messages a round handles: one for each ready channel that has one, in channel order. */
  function Served(fds: seq<int>, ready: map<int, Reading>): seq<Input> {
    if fds == [] then []
    else
      (if fds[0] in ready && ready[fds[0]].Parsed? then [Incoming(fds[0], ready[fds[0]].msg)] else [])
      + Served(fds[1..], ready)
  }

  function Arrivals(accepting: Accepting): seq<Input> {
    if accepting.Accepted? then [Connect(accepting.address, accepting.fd)] else []
  }

  function Newcomer(accepting: Accepting): seq<int> {
    if accepting.Accepted? then [accepting.fd] else []
  }

  /** What a whole round feeds to the daemon. */
  function RoundInputs(fds: seq<int>, r: Round): seq<Input> {
    if r.SelectError? then [] else Served(fds, r.ready) + Arrivals(r.accepting)
  }

  function ChannelsAfter(fds: seq<int>, r: Round): seq<int> {
    if r.SelectError? then fds else Survivors(fds, r.ready) + Newcomer(r.accepting)
  }

  predicate Distinct(fds: seq<int>) {
    forall i, j :: 0 <= i < j < |fds| ==> fds[i] != fds[j]
  }

  lemma {:induction false} SurvivorsAre(fds: seq<int>, ready: map<int, Reading>)
    ensures forall fd :: fd in Survivors(fds, ready) <==> fd in fds && StaysOpen(ready, fd)
    ensures Distinct(fds) ==> Distinct(Survivors(fds, ready))
    ensures |Survivors(fds, ready)| <= |fds|
  {
    if fds != [] {
      SurvivorsAre(fds[1..], ready);
      assert forall fd :: fd in fds <==> fd == fds[0] || fd in fds[1..];
      if Distinct(fds) {
        assert fds[0] !in fds[1..];
      }
    }
  }

  /**
    A descriptor accepted in a round is not one that is still open then. It may well be one that the walk
    of the same round has just closed.
   */
  predicate AcceptsNew(fds: seq<int>, r: Round) {
    r.Round? && r.accepting.Accepted? ==> r.accepting.fd !in Survivors(fds, r.ready)
  }

  /**
    A round leaves exactly the channels that did not close, in order, and at most one newcomer, at the end:
    a channel is missing after the walk if and only if the round found it closed.
   */
  lemma RoundKeepsChannels(fds: seq<int>, r: Round)
    requires Distinct(fds) && AcceptsNew(fds, r)
    ensures Distinct(ChannelsAfter(fds, r))
    ensures r.Round? ==>
              forall fd :: fd in ChannelsAfter(fds, r) <==>
                || (fd in fds && !(fd in r.ready && r.ready[fd] == Closed))
                || (r.accepting.Accepted? && fd == r.accepting.fd)
    ensures r.Round? && r.accepting.Accepted? ==>
              ChannelsAfter(fds, r) != [] && ChannelsAfter(fds, r)[|ChannelsAfter(fds, r)| - 1] == r.accepting.fd
    ensures r.SelectError? ==> ChannelsAfter(fds, r) == fds
  {
    if r.Round? {
      SurvivorsAre(fds, r.ready);
    }
  }

  function Count(inputs: seq<Input>, fd: int): nat {
    if inputs == [] then 0
    else (if inputs[0].Incoming? && inputs[0].fd == fd then 1 else 0) + Count(inputs[1..], fd)
  }

  lemma {:induction false} CountConcat(a: seq<Input>, b: seq<Input>, fd: int)
    ensures Count(a + b, fd) == Count(a, fd) + Count(b, fd)
  {
    if a == [] {
      assert a + b == b;
    } else {
      assert (a + b)[1..] == a[1..] + b;
      CountConcat(a[1..], b, fd);
    }
  }

  /** Every open channel with a message is served once in a round, and no other descriptor is. */
  lemma {:induction false} EachReadyChannelServedOnce(fds: seq<int>, ready: map<int, Reading>, fd: int)
    requires Distinct(fds)
    ensures Count(Served(fds, ready), fd) == if fd in fds && fd in ready && ready[fd].Parsed? then 1 else 0
  {
    if fds != [] {
      EachReadyChannelServedOnce(fds[1..], ready, fd);
      assert fd in fds <==> fd == fds[0] || fd in fds[1..];
      assert fds[0] !in fds[1..];
      assert Served(fds, ready) == Served(fds[..1], ready) + Served(fds[1..], ready) by {
        assert fds[..1] + fds[1..] == fds;
        ServedConcat(fds[..1], fds[1..], ready);
      }
      assert Served(fds[..1][1..], ready) == [];
      CountConcat(Served(fds[..1], ready), Served(fds[1..], ready), fd);
    }
  }

  lemma FirstServed(fds: seq<int>, ready: map<int, Reading>)
    requires fds != []
    ensures Served(fds, ready) == Served([fds[0]], ready) + Served(fds[1..], ready)
    ensures Survivors(fds, ready) == Survivors([fds[0]], ready) + Survivors(fds[1..], ready)
  {
    assert [fds[0]][1..] == [];
  }

  lemma {:induction false} ServedConcat(a: seq<int>, b: seq<int>, ready: map<int, Reading>)
    ensures Served(a + b, ready) == Served(a, ready) + Served(b, ready)
    ensures Survivors(a + b, ready) == Survivors(a, ready) + Survivors(b, ready)
  {
    if a == [] {
      assert a + b == b;
    } else {
      assert (a + b)[1..] == a[1..] + b;
      ServedConcat(a[1..], b, ready);
      Associative(Served([a[0]], ready), Served(a[1..], ready), Served(b, ready));
      Associative(Survivors([a[0]], ready), Survivors(a[1..], ready), Survivors(b, ready));
      FirstServed(a, ready);
      FirstServed(a + b, ready);
    }
  }

  // ---------------------------------------------------------------- EXIT

  predicate IsExit(i: Input) {
    i.Incoming? && i.msg.manifest.op.EXIT?
  }

  predicate HasExit(inputs: seq<Input>) {
    exists i :: i in inputs && IsExit(i)
  }

  /** Only EXIT stops the daemon, and nothing starts it again. */
  lemma {:induction false} RunningUntilExit(s: State, inputs: seq<Input>)
    requires Runs(s, inputs)
    ensures Run(s, inputs).running <==> s.running && !HasExit(inputs)
    decreases |inputs|
  {
    if inputs != [] {
      var i, rest := inputs[0], inputs[1..];
      assert forall j :: j in inputs <==> j == i || j in rest;
      StepRunning(s, i);
      RunningUntilExit(Next(s, i), rest);
      if HasExit(rest) {
        var j :| j in rest && IsExit(j);
        assert j in inputs;
      }
    }
  }

  lemma StepRunning(s: State, i: Input)
    requires Accepts(s, i)
    ensures Next(s, i).running <==> s.running && !IsExit(i)
  {
  }

  /** The loop ends with this round: it handles an EXIT, or `select` fails. */
  predicate Ends(fds: seq<int>, r: Round) {
    r.SelectError? || HasExit(RoundInputs(fds, r))
  }

  /** The rounds served: all of them, or those up to and including the first one that ends the loop. */
  function RoundsServed(fds: seq<int>, rounds: seq<Round>): seq<Round>
    decreases |rounds|
  {
    if rounds == [] then []
    else if Ends(fds, rounds[0]) then [rounds[0]]
    else [rounds[0]] + RoundsServed(ChannelsAfter(fds, rounds[0]), rounds[1..])
  }

  /** An EXIT arrives in a round. */
  ghost predicate ExitArrives(inputs: seq<Input>) {
    exists fd, m :: Incoming(fd, m) in inputs && m.manifest.op == EXIT
  }

  lemma ExitArrivesWhen(inputs: seq<Input>)
    ensures ExitArrives(inputs) <==> HasExit(inputs)
  {
    if HasExit(inputs) {
      var i :| i in inputs && IsExit(i);
      assert i == Incoming(i.fd, i.msg);
    }
    if ExitArrives(inputs) {
      var fd, m :| Incoming(fd, m) in inputs && m.manifest.op == EXIT;
      assert IsExit(Incoming(fd, m));
    }
  }

  /**
    The loop goes through the rounds in order and ends after the first one in which an EXIT arrives or
    `select` fails; without one it goes through them all.
   */
  lemma {:induction false} LoopEndsWithExit(fds: seq<int>, rounds: seq<Round>, k: nat)
    requires k < |rounds|
    ensures RoundsServed(fds, rounds) <= rounds && RoundsServed(fds, rounds) != []
    ensures k < |RoundsServed(fds, rounds)| ==>
              (k + 1 == |RoundsServed(fds, rounds)| <==>
                 k + 1 == |rounds| || rounds[k] == SelectError || ExitArrives(InputsOfRound(fds, rounds, k)))
    decreases |rounds|
  {
    var next, rest := ChannelsAfter(fds, rounds[0]), rounds[1..];
    assert rounds[..0] == [];
    ExitArrivesWhen(RoundInputs(fds, rounds[0]));
    if !Ends(fds, rounds[0]) && rest != [] {
      LoopEndsWithExit(next, rest, if k > 0 then k - 1 else 0);
      assert RoundsServed(fds, rounds)[1..] == RoundsServed(next, rest);
      if k > 0 {
        RoundLater(fds, rounds, k);
      }
    }
  }

  lemma RoundLater(fds: seq<int>, rounds: seq<Round>, k: nat)
    requires 0 < k < |rounds|
    ensures InputsOfRound(fds, rounds, k) == InputsOfRound(ChannelsAfter(fds, rounds[0]), rounds[1..], k - 1)
  {
    assert rounds[..k][1..] == rounds[1..][..k - 1];
  }

  /** What round `k` of a run handles. */
  function InputsOfRound(fds: seq<int>, rounds: seq<Round>, k: nat): seq<Input>
    requires k < |rounds|
  {
    RoundInputs(ChannelsAfterAll(fds, rounds[..k]), rounds[k])
  }

  function InputsOf(fds: seq<int>, rounds: seq<Round>): seq<Input>
    decreases |rounds|
  {
    if rounds == [] then []
    else RoundInputs(fds, rounds[0]) + InputsOf(ChannelsAfter(fds, rounds[0]), rounds[1..])
  }

  function ChannelsAfterAll(fds: seq<int>, rounds: seq<Round>): seq<int>
    decreases |rounds|
  {
    if rounds == [] then fds else ChannelsAfterAll(ChannelsAfter(fds, rounds[0]), rounds[1..])
  }

  // ---------------------------------------------------------------- every round of the loop

  /** Over whole runs: no accepted descriptor is open at that time. */
  predicate AllAcceptNew(fds: seq<int>, rounds: seq<Round>)
    decreases |rounds|
  {
    rounds == [] || (AcceptsNew(fds, rounds[0]) && AllAcceptNew(ChannelsAfter(fds, rounds[0]), rounds[1..]))
  }

  /** How often a descriptor's message is to be handled in a round: once if it is open and has one. */
  function Due(fds: seq<int>, r: Round, fd: int): nat {
    if r.Round? && fd in fds && fd in r.ready && r.ready[fd].Parsed? then 1 else 0
  }

  /**
    Over any run of rounds the channels stay distinct, and every round serves each open channel that has a
    message exactly once, and no other descriptor.
   */
  lemma {:induction false} EveryRoundServesOnce(fds: seq<int>, rounds: seq<Round>, k: nat, fd: int)
    requires Distinct(fds) && AllAcceptNew(fds, rounds) && k < |rounds|
    ensures Distinct(ChannelsAfterAll(fds, rounds[..k]))
    ensures Count(InputsOfRound(fds, rounds, k), fd) == Due(ChannelsAfterAll(fds, rounds[..k]), rounds[k], fd)
    decreases k
  {
    if k == 0 {
      assert rounds[..0] == [];
      if rounds[0].Round? {
        var served, arrivals := Served(fds, rounds[0].ready), Arrivals(rounds[0].accepting);
        EachReadyChannelServedOnce(fds, rounds[0].ready, fd);
        CountConcat(served, arrivals, fd);
        assert arrivals != [] ==> arrivals[1..] == [];
      }
    } else {
      var next := ChannelsAfter(fds, rounds[0]);
      RoundKeepsChannels(fds, rounds[0]);
      EveryRoundServesOnce(next, rounds[1..], k - 1, fd);
      assert rounds[..k][1..] == rounds[1..][..k - 1];
    }
  }

  /** A channel leaves the list only in a round that finds it closed. */
  lemma {:induction false} ChannelStaysUnlessClosed(fds: seq<int>, rounds: seq<Round>, fd: int)
    requires Distinct(fds) && AllAcceptNew(fds, rounds) && fd in fds
    requires forall r :: r in rounds && r.Round? && fd in r.ready ==> r.ready[fd] != Closed
    ensures fd in ChannelsAfterAll(fds, rounds)
    decreases |rounds|
  {
    if rounds != [] {
      assert rounds[0] in rounds && forall r :: r in rounds[1..] ==> r in rounds;
      RoundKeepsChannels(fds, rounds[0]);
      ChannelStaysUnlessClosed(ChannelsAfter(fds, rounds[0]), rounds[1..], fd);
    }
  }

  /**
    So a client that does not close its channel has every message it sends handled, once, in the round that
    finds it.
   */
  lemma MessagesOfOpenChannelsAreServed(fds: seq<int>, rounds: seq<Round>, k: nat, fd: int, m: Nsbm)
    requires Distinct(fds) && AllAcceptNew(fds, rounds) && k < |rounds| && fd in fds
    requires forall r :: r in rounds && r.Round? && fd in r.ready ==> r.ready[fd] != Closed
    requires rounds[k].Round? && fd in rounds[k].ready && rounds[k].ready[fd] == Parsed(m)
    ensures Count(InputsOfRound(fds, rounds, k), fd) == 1
    ensures Incoming(fd, m) in InputsOfRound(fds, rounds, k)
  {
    assert forall r :: r in rounds[..k] ==> r in rounds;
    AcceptNewPrefix(fds, rounds, k);
    ChannelStaysUnlessClosed(fds, rounds[..k], fd);
    EveryRoundServesOnce(fds, rounds, k, fd);
    ServedAre(ChannelsAfterAll(fds, rounds[..k]), rounds[k].ready);
  }

  lemma {:induction false} AcceptNewPrefix(fds: seq<int>, rounds: seq<Round>, k: nat)
    requires AllAcceptNew(fds, rounds) && k <= |rounds|
    ensures AllAcceptNew(fds, rounds[..k])
    decreases k
  {
    if k > 0 {
      AcceptNewPrefix(ChannelsAfter(fds, rounds[0]), rounds[1..], k - 1);
      assert rounds[..k][1..] == rounds[1..][..k - 1];
    }
  }

  /** What a walk handles: the messages of its ready channels, all of them and no others, in channel order. */
  lemma {:induction false} ServedAre(fds: seq<int>, ready: map<int, Reading>)
    ensures forall fd, m :: Incoming(fd, m) in Served(fds, ready) <==>
              fd in fds && fd in ready && ready[fd] == Parsed(m)
    ensures forall i :: i in Served(fds, ready) ==> i.Incoming?
  {
    if fds != [] {
      ServedAre(fds[1..], ready);
      assert forall fd :: fd in fds <==> fd == fds[0] || fd in fds[1..];
    }
  }

  /** Walking over two parts of the list is walking over one and then over the other. */
  lemma WalksInOrder(a: seq<int>, fd: int, b: seq<int>, ready: map<int, Reading>)
    ensures Served(a + [fd] + b, ready)
         == Served(a, ready)
            + (if fd in ready && ready[fd].Parsed? then [Incoming(fd, ready[fd].msg)] else [])
            + Served(b, ready)
  {
    ServedConcat(a + [fd], b, ready);
    ServedConcat(a, [fd], ready);
    assert [fd][1..] == [];
  }

  /** A round binds the newcomer's address to its descriptor, unless the address was bound before. */
  lemma RoundBindsNewcomer(s: State, fds: seq<int>, r: Round)
    requires r.Round? && r.accepting.Accepted? && Runs(s, RoundInputs(fds, r))
    ensures Run(s, RoundInputs(fds, r)).fds
         == if r.accepting.address in s.fds then s.fds else s.fds[r.accepting.address := r.accepting.fd]
  {
    RunConcat(s, Served(fds, r.ready), Arrivals(r.accepting));
    ServedAre(fds, r.ready);
    MessagesBindNothing(s, Served(fds, r.ready));
    assert Arrivals(r.accepting)[1..] == [];
  }

  lemma {:induction false} MessagesBindNothing(s: State, inputs: seq<Input>)
    requires Runs(s, inputs) && forall i :: i in inputs ==> i.Incoming?
    ensures Run(s, inputs).fds == s.fds
    decreases |inputs|
  {
    if inputs != [] {
      assert inputs[0] in inputs && forall i :: i in inputs[1..] ==> i in inputs;
      MessageBindsNothing(s, inputs[0]);
      MessagesBindNothing(Next(s, inputs[0]), inputs[1..]);
    }
  }

  lemma MessageBindsNothing(s: State, i: Input)
    requires Accepts(s, i) && i.Incoming?
    ensures Next(s, i).fds == s.fds
  {
  }

  /** The inputs of a run are those of its rounds, one after the other. */
  lemma {:induction false} InputsOfRounds(fds: seq<int>, rounds: seq<Round>, k: nat)
    requires k < |rounds|
    ensures InputsOf(fds, rounds[..k + 1]) == InputsOf(fds, rounds[..k]) + InputsOfRound(fds, rounds, k)
    decreases k
  {
    if k == 0 {
      assert rounds[..0] == [] && rounds[..1] == [rounds[0]] && [rounds[0]][1..] == [];
      assert RoundInputs(fds, rounds[0]) + [] == [] + RoundInputs(fds, rounds[0]);
    } else {
      var next := ChannelsAfter(fds, rounds[0]);
      InputsOfRounds(next, rounds[1..], k - 1);
      assert rounds[..k][1..] == rounds[1..][..k - 1] && rounds[..k + 1][1..] == rounds[1..][..k];
      Associative(RoundInputs(fds, rounds[0]), InputsOf(next, rounds[1..][..k - 1]), InputsOfRound(fds, rounds, k));
    }
  }

  // ---------------------------------------------------------------- the loop

  class SocketServer {
    const daemon: NSBDaemon
    /** The open channels, in the order they were accepted. */
    var channelFds: seq<int>

    constructor (daemon: NSBDaemon)
      ensures this.daemon == daemon && channelFds == []
    {
      this.daemon, channelFds := daemon, [];
    }

    /**
      One round: serve every ready channel, dropping the closed ones in place, then take one new
      connection; an error of `select` ends the loop at once. The inputs must meet the daemon's
      preconditions as they arrive.
     */
    method ServeRound(round: Round) returns (goesOn: bool)
      requires daemon.Valid()
      requires Runs(daemon.View(), RoundInputs(channelFds, round))
      modifies this, daemon
      ensures daemon.Valid()
      ensures daemon.View() == Run(old(daemon.View()), old(RoundInputs(channelFds, round)))
      ensures daemon.wires == old(daemon.wires) + Outputs(old(daemon.View()), old(RoundInputs(channelFds, round)))
      ensures channelFds == old(ChannelsAfter(channelFds, round))
      ensures goesOn <==> daemon.running && !round.SelectError?
    {
      if round.SelectError? {
        return false;
      }
      ghost var start, all := daemon.View(), channelFds;
      RunConcat(start, Served(all, round.ready), Arrivals(round.accepting));
      ServeChannels(round.ready);
      match round.accepting {
        case NoConnection =>
        case Failed =>
        case Accepted(address, fd) =>
          daemon.Accept(address, fd);
          channelFds := channelFds + [fd];
          assert [Connect(address, fd)][1..] == [];
      }
      goesOn := daemon.running;
    }

    /** The walk over the channels: `it` stays where it is when the channel under it is erased. */
    method ServeChannels(ready: map<int, Reading>)
      requires daemon.Valid()
      requires Runs(daemon.View(), Served(channelFds, ready))
      modifies this, daemon
      ensures daemon.Valid()
      ensures daemon.View() == Run(old(daemon.View()), old(Served(channelFds, ready)))
      ensures daemon.wires == old(daemon.wires) + Outputs(old(daemon.View()), old(Served(channelFds, ready)))
      ensures channelFds == old(Survivors(channelFds, ready))
    {
      ghost var start, wires, all := daemon.View(), daemon.wires, channelFds;
      // The channels passed, the channels to come, and the messages handled so far.
      ghost var kept: seq<int>, left: seq<int>, done: seq<Input> := [], channelFds, [];
      var it := 0;
      while it < |channelFds|
        invariant daemon.Valid()
        invariant channelFds == kept + left && it == |kept|
        invariant Survivors(all, ready) == kept + Survivors(left, ready)
        invariant Served(all, ready) == done + Served(left, ready)
        invariant Runs(start, done) && daemon.View() == Run(start, done)
        invariant Runs(daemon.View(), Served(left, ready))
        invariant daemon.wires == wires + Outputs(start, done)
        decreases |left|
      {
        var fd := channelFds[it];
        assert fd == left[0];
        ghost var one, open, rest := Served([fd], ready), Survivors([fd], ready), left[1..];
        SplitChannel(start, done, left, ready);
        var stays := ServeChannel(fd, ready);
        if stays {
          it := it + 1;
        } else {
          channelFds := channelFds[..it] + channelFds[it + 1..];
        }
        PassChannel(kept, left);
        Associative(kept, open, Survivors(rest, ready));
        Associative(done, one, Served(rest, ready));
        Associative(wires, Outputs(start, done), Outputs(Run(start, done), one));
        kept, left, done := kept + open, rest, done + one;
      }
      assert done + Served(left, ready) == done;
    }

    /** One channel of the walk: handle its message, if it has one; say whether it is still open. */
    method ServeChannel(fd: int, ready: map<int, Reading>) returns (stays: bool)
      requires daemon.Valid()
      requires Runs(daemon.View(), Served([fd], ready))
      modifies daemon
      ensures daemon.Valid()
      ensures daemon.View() == Run(old(daemon.View()), Served([fd], ready))
      ensures daemon.wires == old(daemon.wires) + Outputs(old(daemon.View()), Served([fd], ready))
      ensures stays == StaysOpen(ready, fd) && Survivors([fd], ready) == if stays then [fd] else []
    {
      assert [fd][1..] == [];
      if fd in ready {
        if ready[fd].Parsed? {
          assert [Incoming(fd, ready[fd].msg)][1..] == [];
          daemon.HandleMessage(fd, ready[fd].msg);
        }
        stays := !ready[fd].Closed?;
      } else {
        stays := true;
      }
    }

    /** The loop: a round at a time while the daemon runs and `select` does not fail. */
    method Serve(rounds: seq<Round>) returns (served: nat)
      requires daemon.Valid() && daemon.running
      requires Runs(daemon.View(), InputsOf(channelFds, RoundsServed(channelFds, rounds)))
      modifies this, daemon
      ensures daemon.Valid()
      ensures served <= |rounds| && rounds[..served] == old(RoundsServed(channelFds, rounds))
      ensures daemon.View() == Run(old(daemon.View()), old(InputsOf(channelFds, RoundsServed(channelFds, rounds))))
      ensures channelFds == old(ChannelsAfterAll(channelFds, RoundsServed(channelFds, rounds)))
      ensures daemon.wires
           == old(daemon.wires)
              + Outputs(old(daemon.View()), old(InputsOf(channelFds, RoundsServed(channelFds, rounds))))
      ensures daemon.running ==> served == |rounds| || (served > 0 && rounds[served - 1].SelectError?)
    {
      var goesOn := daemon.running;
      served := 0;
      ghost var start, wires, fds := daemon.View(), daemon.wires, channelFds;
      // The inputs handled so far.
      ghost var done: seq<Input> := [];
      ProgressStarts(start, fds, rounds);
      while goesOn && served < |rounds|
        invariant daemon.Valid() && served <= |rounds|
        invariant goesOn || !daemon.running || (served > 0 && rounds[served - 1].SelectError?)
        invariant goesOn ==> daemon.running
        invariant Progress(start, fds, rounds, served, done, daemon.View(), channelFds, goesOn)
        invariant daemon.wires == wires + Outputs(start, done)
      {
        ghost var before, here := daemon.View(), channelFds;
        ProgressStep(start, fds, rounds, served, done, before, here, wires);
        goesOn := ServeRound(rounds[served]);
        done, served := done + RoundInputs(here, rounds[served]), served + 1;
      }
      ProgressEnds(start, fds, rounds, served, done, daemon.View(), channelFds, goesOn);
    }
  }

  /**
    Where the loop stands after some rounds: the inputs `done` have led from the first state to this one,
    and they and the rounds still to be served, if the loop goes on, make up all that is to be served.
   */
  ghost predicate Progress(start: State, fds: seq<int>, rounds: seq<Round>, served: nat, done: seq<Input>,
                           state: State, channels: seq<int>, goesOn: bool)
    requires served <= |rounds|
  {
    var whole := RoundsServed(fds, rounds);
    var left := if goesOn then RoundsServed(channels, rounds[served..]) else [];
    && Runs(start, done) && state == Run(start, done)
    && Runs(state, InputsOf(channels, left))
    && whole == rounds[..served] + left
    && InputsOf(fds, whole) == done + InputsOf(channels, left)
    && ChannelsAfterAll(fds, whole) == ChannelsAfterAll(channels, left)
  }

  lemma ProgressStarts(start: State, fds: seq<int>, rounds: seq<Round>)
    requires Runs(start, InputsOf(fds, RoundsServed(fds, rounds)))
    ensures Progress(start, fds, rounds, 0, [], start, fds, true)
  {
    var whole := RoundsServed(fds, rounds);
    NothingDone(rounds, whole);
    NothingDone(rounds, InputsOf(fds, whole));
  }

  lemma NothingDone<A, B>(all: seq<A>, left: seq<B>)
    ensures all[0..] == all && [] + left == left
  {
  }

  lemma ProgressEnds(start: State, fds: seq<int>, rounds: seq<Round>, served: nat, done: seq<Input>,
                     state: State, channels: seq<int>, goesOn: bool)
    requires served <= |rounds| && Progress(start, fds, rounds, served, done, state, channels, goesOn)
    requires !goesOn || served == |rounds|
    ensures var whole := RoundsServed(fds, rounds);
            && rounds[..served] == whole && Runs(start, InputsOf(fds, whole))
            && InputsOf(fds, whole) == done
            && state == Run(start, InputsOf(fds, whole)) && channels == ChannelsAfterAll(fds, whole)
  {
    var left := if goesOn then RoundsServed(channels, rounds[served..]) else [];
    assert left == [] && rounds[..served] + left == rounds[..served] && done + InputsOf(channels, left) == done;
  }

  lemma ProgressStep(start: State, fds: seq<int>, rounds: seq<Round>, served: nat, done: seq<Input>,
                     state: State, channels: seq<int>, wires: seq<Wire>)
    requires served < |rounds| && state.running
    requires Progress(start, fds, rounds, served, done, state, channels, true)
    ensures var inputs, later := RoundInputs(channels, rounds[served]), ChannelsAfter(channels, rounds[served]);
            && Runs(state, inputs)
            && var after := Run(state, inputs);
               var goesOn := after.running && !rounds[served].SelectError?;
               Progress(start, fds, rounds, served + 1, done + inputs, after, later, goesOn)
    ensures var inputs := RoundInputs(channels, rounds[served]);
            && Runs(start, done + inputs)
            && wires + Outputs(start, done + inputs) == (wires + Outputs(start, done)) + Outputs(state, inputs)
  {
    var inputs, later := RoundInputs(channels, rounds[served]), ChannelsAfter(channels, rounds[served]);
    var left := RoundsServed(channels, rounds[served..]);
    SplitRound(state, channels, rounds[served..]);
    RunningUntilExit(state, inputs);
    RunConcat(start, done, inputs);
    Associative(wires, Outputs(start, done), Outputs(state, inputs));
    Associative(done, inputs, InputsOf(later, left[1..]));
    NextSlice(rounds, served, left);
  }

  lemma NextSlice(rounds: seq<Round>, n: nat, left: seq<Round>)
    requires n < |rounds| && left != [] && left[0] == rounds[n]
    ensures rounds[n..][1..] == rounds[n + 1..]
    ensures rounds[..n] + left == rounds[..n + 1] + left[1..]
  {
  }

  lemma SplitRound(s: State, fds: seq<int>, rounds: seq<Round>)
    requires rounds != [] && Runs(s, InputsOf(fds, RoundsServed(fds, rounds)))
    ensures var left, inputs := RoundsServed(fds, rounds), RoundInputs(fds, rounds[0]);
            var later := ChannelsAfter(fds, rounds[0]);
            && left != [] && left[0] == rounds[0]
            && left[1..] == (if Ends(fds, rounds[0]) then [] else RoundsServed(later, rounds[1..]))
            && InputsOf(fds, left) == inputs + InputsOf(later, left[1..])
            && Runs(s, inputs) && Runs(Run(s, inputs), InputsOf(later, left[1..]))
            && ChannelsAfterAll(fds, left) == ChannelsAfterAll(later, left[1..])
  {
    var left, later := RoundsServed(fds, rounds), ChannelsAfter(fds, rounds[0]);
    RunConcat(s, RoundInputs(fds, rounds[0]), InputsOf(later, left[1..]));
  }

  /** The list with the channel at the cursor erased, or passed over. */
  lemma PassChannel(kept: seq<int>, left: seq<int>)
    requires left != []
    ensures (kept + left)[..|kept|] + (kept + left)[|kept| + 1..] == (kept + []) + left[1..]
    ensures kept + left == (kept + [left[0]]) + left[1..]
  {
  }

  /** One more channel of the walk. */
  lemma SplitChannel(start: State, done: seq<Input>, left: seq<int>, ready: map<int, Reading>)
    requires left != [] && Runs(start, done) && Runs(Run(start, done), Served(left, ready))
    ensures var one, rest := Served([left[0]], ready), Served(left[1..], ready);
            && Served(left, ready) == one + rest
            && Survivors(left, ready) == Survivors([left[0]], ready) + Survivors(left[1..], ready)
            && Runs(Run(start, done), one) && Runs(start, done + one)
            && Run(start, done + one) == Run(Run(start, done), one)
            && Outputs(start, done + one) == Outputs(start, done) + Outputs(Run(start, done), one)
            && Runs(Run(start, done + one), rest)
  {
    var one, rest := Served([left[0]], ready), Served(left[1..], ready);
    assert left == [left[0]] + left[1..];
    ServedConcat([left[0]], left[1..], ready);
    RunConcat(Run(start, done), one, rest);
    RunConcat(start, done, one);
  }
}
